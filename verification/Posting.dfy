/** Every interleaving of posts, aborts, retries and page reads. */
module Posting {
  import opened Domain
  import opened Store
  import opened Messages

  /** The next statement of an attempt at post_message; its counter update and insert stay uncommitted meanwhile. */
  datatype Stage = Counting | Inserting(number: nat) | Inserted(number: nat) | Looking

  datatype Attempt = Attempt(post: Post, stage: Stage)
  {
    /** Between the counter update and the end of its transaction an attempt keeps the channel row locked. */
    predicate Locks(c: ChannelId) {
      post.channel == c && (stage.Inserting? || stage.Inserted?)
    }
  }

  datatype Answer = Answer(post: Post, reply: Reply)

  /** A client paging through a channel. `top` is the channel's length at a backward reader's first page. */
  datatype Reader =
    | Forward(who: ActorId, org: OrgId, channel: ChannelId, cursor: nat, collected: seq<Message>)
    | Backward(who: ActorId, org: OrgId, channel: ChannelId, before: Option<nat>, collected: seq<Message>, top: nat)

  /** `db` holds the memberships the row policies read. */
  datatype Sys = Sys(db: Db, board: Board, attempts: map<nat, Attempt>, answers: seq<Answer>,
                     readers: map<nat, Reader>)

  datatype Step =
    // any other transaction's commit: memberships may change in any way between two statements
    | Change(db: Db)
    | OpenChannel(channel: ChannelId, org: OrgId)
    | Begin(id: nat, post: Post)
    | Count(id: nat)
    | Insert(id: nat)
    | Commit(id: nat)
    | LookUp(id: nat)
    | Crash(id: nat)
    | StartReading(id: nat, reader: Reader)
    | ReadAfter(id: nat, limit: nat, answer: Option<seq<Message>>)
    | ReadBefore(id: nat, limit: nat, answer: Option<seq<Message>>)

  ghost predicate At(s: Sys, id: nat, stage: Stage) {
    id in s.attempts && s.attempts[id].stage == stage
  }

  predicate ChannelFree(s: Sys, c: ChannelId) {
    forall k :: k in s.attempts ==> !s.attempts[k].Locks(c)
  }

  /** No other transaction has this message id in the primary key uncommitted. */
  predicate IdFree(s: Sys, id: nat, m: MessageId) {
    forall k :: k in s.attempts && k != id && s.attempts[k].stage.Inserted? ==> s.attempts[k].post.id != m
  }

  ghost predicate Enabled(s: Sys, step: Step) {
    match step
    case Change(_) => true
    case OpenChannel(c, _) => c !in s.board.channels
    case Begin(id, _) => id !in s.attempts
    case Count(id) => At(s, id, Counting) && ChannelFree(s, s.attempts[id].post.channel)
    case Insert(id) =>
      id in s.attempts && s.attempts[id].stage.Inserting? && IdFree(s, id, s.attempts[id].post.id)
    case Commit(id) => id in s.attempts && s.attempts[id].stage.Inserted?
    case LookUp(id) => At(s, id, Looking)
    case Crash(id) => id in s.attempts
    case StartReading(id, reader) => id !in s.readers && Fresh(s.board, reader)
    case ReadAfter(id, limit, answer) =>
      id in s.readers && s.readers[id].Forward?
      && var r := s.readers[id]; ReadsAfter(s.db, s.board, r.who, r.org, r.channel, r.cursor, limit, answer)
    case ReadBefore(id, limit, answer) =>
      id in s.readers && s.readers[id].Backward?
      && var r := s.readers[id]; ReadsBefore(s.db, s.board, r.who, r.org, r.channel, r.before, limit, answer)
  }

  /** A reader that has read nothing yet. */
  predicate Fresh(b: Board, r: Reader) {
    && r.channel in b.channels && r.collected == []
    && match r
       case Forward(_, _, _, cursor, _) => cursor == 0
       case Backward(_, _, _, before, _, top) => before.None? && top == 0
  }

  function Fails(s: Sys, id: nat, error: PostError): Sys
    requires id in s.attempts
  {
    s.(attempts := s.attempts - {id}, answers := s.answers + [Answer(s.attempts[id].post, Refused(error))])
  }

  function Moves(s: Sys, id: nat, stage: Stage): Sys
    requires id in s.attempts
  {
    s.(attempts := s.attempts[id := s.attempts[id].(stage := stage)])
  }

  /** The reader after a page, its next cursor the last sequence it saw. */
  function Paged(b: Board, r: Reader, page: seq<Message>): Reader
    requires r.channel in b.channels
  {
    match r
    case Forward(who, o, c, cursor, got) =>
      Forward(who, o, c, if page == [] then cursor else page[|page| - 1].number, got + page)
    case Backward(who, o, c, before, got, top) =>
      Backward(who, o, c, if page == [] then before else Some(page[|page| - 1].number), got + page,
               if before.None? then b.channels[c].next else top)
  }

  /** NotFound leaves a reader where it was. */
  function Answers(s: Sys, id: nat, answer: Option<seq<Message>>): Sys
    requires id in s.readers
  {
    if answer.Some? && s.readers[id].channel in s.board.channels then
      s.(readers := s.readers[id := Paged(s.board, s.readers[id], answer.value)])
    else s
  }

  ghost function Do(s: Sys, step: Step): Sys
    requires Enabled(s, step)
  {
    match step
    case Change(db) => s.(db := db)
    case OpenChannel(c, org) => s.(board := s.board.(channels := s.board.channels[c := Counter(org, 0)]))
    case Begin(id, p) =>
      if ValidBody(p.body) then s.(attempts := s.attempts[id := Attempt(p, Counting)])
      else s.(answers := s.answers + [Answer(p, Refused(InvalidBody))])
    case Count(id) =>
      var p := s.attempts[id].post;
      if SeesChannel(s.db, s.board, p.sender, p.org, p.channel) then
        Moves(s, id, Inserting(s.board.channels[p.channel].next + 1))
      else Fails(s, id, NotFound)
    case Insert(id) =>
      // the sender may have stopped being active since it took the number
      if !ActiveIn(s.db, s.attempts[id].post.sender, s.attempts[id].post.org) then Fails(s, id, Database)
      // ON CONFLICT DO NOTHING returned no row: roll back, then look the committed message up
      else if s.attempts[id].post.id in s.board.messages then Moves(s, id, Looking)
      else Moves(s, id, Inserted(s.attempts[id].stage.number))
    case Commit(id) =>
      var p, n := s.attempts[id].post, s.attempts[id].stage.number;
      if p.channel in s.board.channels then
        Sys(s.db, Committed(s.board, p, n), s.attempts - {id}, s.answers + [Answer(p, Posted(Row(p, n)))], s.readers)
      else s
    case LookUp(id) =>
      if ActiveIn(s.db, s.attempts[id].post.sender, s.attempts[id].post.org) then
        s.(attempts := s.attempts - {id},
           answers := s.answers + [Answer(s.attempts[id].post, Finds(s.board, s.attempts[id].post))])
      else Fails(s, id, IdConflict)
    case Crash(id) => s.(attempts := s.attempts - {id})
    case StartReading(id, reader) => s.(readers := s.readers[id := reader])
    case ReadAfter(id, _, answer) => Answers(s, id, answer)
    case ReadBefore(id, _, answer) => Answers(s, id, answer)
  }

  // ---- the invariant ----

  ghost predicate AttemptOk(b: Board, a: Attempt) {
    && ValidBody(a.post.body)
    && match a.stage
       case Counting => true
       case Inserting(n) => HasChannel(b, a.post.org, a.post.channel) && n == b.channels[a.post.channel].next + 1
       case Inserted(n) =>
         HasChannel(b, a.post.org, a.post.channel) && n == b.channels[a.post.channel].next + 1
         && a.post.id !in b.messages
       case Looking => a.post.id in b.messages
  }

  /** Two attempts never both lock one channel or have inserted one id. */
  predicate Apart(a: Attempt, b: Attempt) {
    && !(a.Locks(a.post.channel) && b.Locks(a.post.channel))
    && !(a.stage.Inserted? && b.stage.Inserted? && a.post.id == b.post.id)
  }

  ghost predicate AttemptsOk(s: Sys) {
    && (forall k :: k in s.attempts ==> AttemptOk(s.board, s.attempts[k]))
    && (forall j, k :: j in s.attempts && k in s.attempts && j != k ==> Apart(s.attempts[j], s.attempts[k]))
  }

  /** A successful answer carries the one stored message of that id, and that message is the asker's. */
  ghost predicate AnswerOk(b: Board, a: Answer) {
    match a.reply
    case Posted(m) => m.id in b.messages && b.messages[m.id] == m && Matches(m, a.post) && m.body == a.post.body
    case AlreadyPosted(m) => m.id in b.messages && b.messages[m.id] == m && Matches(m, a.post)
    case Refused(e) => e.IdConflict? ==> a.post.id in b.messages
  }

  ghost predicate AnswersOk(s: Sys) {
    && (forall i :: 0 <= i < |s.answers| ==> AnswerOk(s.board, s.answers[i]))
    && (forall i, j :: 0 <= i < j < |s.answers| && s.answers[i].reply.Posted? && s.answers[j].reply.Posted?
          ==> s.answers[i].reply.message.id != s.answers[j].reply.message.id)
  }

  /** A backward reader's cursor and pages against the history: nothing read yet, or the newest of the first `top`. */
  ghost predicate ReadsBack(h: seq<Message>, before: Option<nat>, got: seq<Message>, top: nat) {
    if before.None? then got == [] && top == 0
    else |got| <= top && before == Some(top - |got| + 1) && NewestFirst(h, top, got)
  }

  ghost predicate ReaderOk(b: Board, r: Reader)
    requires NoGaps(b)
  {
    && r.channel in b.channels
    && match r
       case Forward(_, _, c, cursor, got) => cursor == |got| && got <= History(b, c)
       case Backward(_, _, c, before, got, top) => ReadsBack(History(b, c), before, got, top)
  }

  ghost predicate ReadersOk(s: Sys)
    requires NoGaps(s.board)
  {
    forall k :: k in s.readers ==> ReaderOk(s.board, s.readers[k])
  }

  ghost predicate SysOk(s: Sys) {
    Dense(s.board) && AttemptsOk(s) && AnswersOk(s) && ReadersOk(s)
  }

  /** Messages are never changed or renumbered, and every channel's history only grows at its end. */
  ghost predicate Extends(b: Board, d: Board) {
    && (forall id :: id in b.messages ==> id in d.messages && d.messages[id] == b.messages[id])
    && (forall c :: c in b.channels ==> c in d.channels && d.channels[c].org == b.channels[c].org
                                        && b.channels[c].next <= d.channels[c].next)
  }

  lemma HistoryGrows(b: Board, d: Board, c: ChannelId)
    requires Dense(b) && Dense(d) && Extends(b, d) && c in b.channels
    ensures c in d.channels && History(b, c) <= History(d, c)
  {
    forall k | 0 <= k < |History(b, c)| ensures History(b, c)[k] == History(d, c)[k] {
      var m := MessageAt(b, c, k + 1);
      var id :| id in b.messages && b.messages[id] == m;
      HistoryAt(b, c, id);
      HistoryAt(d, c, id);
    }
  }

  // ---- one step ----

  lemma CommitExtends(b: Board, p: Post, n: nat)
    requires Dense(b) && HasChannel(b, p.org, p.channel) && n == b.channels[p.channel].next + 1
    requires p.id !in b.messages && ValidBody(p.body)
    ensures Dense(Committed(b, p, n)) && Extends(b, Committed(b, p, n))
  {
    var d := Committed(b, p, n);
    forall c, k: nat | c in d.channels && 1 <= k <= d.channels[c].next ensures Used(d, c, k) {
      if c == p.channel && k == n {
        assert Numbered(d, c, k, p.id);
      } else {
        assert Used(b, c, k);
        var id :| Numbered(b, c, k, id);
        assert Numbered(d, c, k, id);
      }
    }
    forall c, k: nat, i, j | Numbered(d, c, k, i) && Numbered(d, c, k, j) ensures i == j {
      assert i != p.id ==> Numbered(b, c, k, i);
      assert j != p.id ==> Numbered(b, c, k, j);
    }
  }

  lemma OpenExtends(b: Board, c: ChannelId, org: OrgId)
    requires Dense(b) && c !in b.channels
    ensures var d := b.(channels := b.channels[c := Counter(org, 0)]); Dense(d) && Extends(b, d)
  {
    var d := b.(channels := b.channels[c := Counter(org, 0)]);
    forall e, k: nat | e in d.channels && 1 <= k <= d.channels[e].next ensures Used(d, e, k) {
      assert Used(b, e, k);
      var id :| Numbered(b, e, k, id);
      assert Numbered(d, e, k, id);
    }
    forall e, k: nat, i, j | Numbered(d, e, k, i) && Numbered(d, e, k, j) ensures i == j {
      assert Numbered(b, e, k, i) && Numbered(b, e, k, j);
    }
  }

  lemma BoardStep(s: Sys, step: Step)
    requires Dense(s.board) && AttemptsOk(s) && Enabled(s, step)
    ensures Dense(Do(s, step).board) && Extends(s.board, Do(s, step).board)
    ensures !step.OpenChannel? && !step.Commit? ==> Do(s, step).board == s.board
  {
    match step
    case OpenChannel(c, org) => OpenExtends(s.board, c, org);
    case Commit(id) =>
      assert AttemptOk(s.board, s.attempts[id]);
      CommitExtends(s.board, s.attempts[id].post, s.attempts[id].stage.number);
    case _ =>
  }

  /** The channel lock and the id lock keep every other attempt's view true across a commit. */
  lemma CommitAttempts(s: Sys, id: nat)
    requires AttemptsOk(s) && Enabled(s, Commit(id))
    ensures AttemptsOk(Do(s, Commit(id)))
  {
    var n, mine := Do(s, Commit(id)), s.attempts[id];
    assert AttemptOk(s.board, mine);
    forall k | k in n.attempts ensures AttemptOk(n.board, n.attempts[k]) {
      assert AttemptOk(s.board, s.attempts[k]) && Apart(mine, s.attempts[k]);
    }
  }

  lemma MovedApart(s: Sys, id: nat, stage: Stage)
    requires AttemptsOk(s) && id in s.attempts && AttemptOk(s.board, s.attempts[id].(stage := stage))
    requires stage.Inserting? ==> ChannelFree(s, s.attempts[id].post.channel)
    requires stage.Inserted? ==> s.attempts[id].stage.Inserting? && IdFree(s, id, s.attempts[id].post.id)
    ensures AttemptsOk(Moves(s, id, stage))
  {
    var n := Moves(s, id, stage);
    forall j, k | j in n.attempts && k in n.attempts && j != k ensures Apart(n.attempts[j], n.attempts[k]) {
      assert Apart(s.attempts[j], s.attempts[k]);
    }
  }

  lemma AttemptsStep(s: Sys, step: Step)
    requires AttemptsOk(s) && Enabled(s, step)
    ensures AttemptsOk(Do(s, step))
  {
    match step
    case OpenChannel(_, _) => OpenAttempts(s, step);
    case Begin(id, p) =>
    case Count(id) =>
      if Do(s, step).attempts.Keys == s.attempts.Keys { MovedApart(s, id, Do(s, step).attempts[id].stage); }
    case Insert(id) =>
      assert AttemptOk(s.board, s.attempts[id]);
      if Do(s, step).attempts.Keys == s.attempts.Keys { MovedApart(s, id, Do(s, step).attempts[id].stage); }
    case Commit(id) => CommitAttempts(s, id);
    case _ =>
  }

  lemma OpenAttempts(s: Sys, step: Step)
    requires AttemptsOk(s) && Enabled(s, step) && step.OpenChannel?
    ensures AttemptsOk(Do(s, step))
  {
    var n := Do(s, step);
    forall k | k in n.attempts ensures AttemptOk(n.board, n.attempts[k]) {
      assert AttemptOk(s.board, s.attempts[k]);
    }
  }

  lemma AnswerKept(b: Board, d: Board, a: Answer)
    requires AnswerOk(b, a) && Extends(b, d)
    ensures AnswerOk(d, a)
  {}

  /** What the step answers, if it answers. */
  ghost function Answered(s: Sys, step: Step): seq<Answer>
    requires Enabled(s, step)
  {
    if |Do(s, step).answers| > |s.answers| then [Do(s, step).answers[|s.answers|]] else []
  }

  lemma NewAnswer(s: Sys, step: Step)
    requires AttemptsOk(s) && Enabled(s, step)
    ensures Do(s, step).answers == s.answers + Answered(s, step)
    ensures forall a :: a in Answered(s, step) ==>
              AnswerOk(Do(s, step).board, a) && (a.reply.Posted? ==> a.reply.message.id !in s.board.messages)
  {
    match step
    case Commit(id) => assert AttemptOk(s.board, s.attempts[id]);
    case LookUp(id) => assert AttemptOk(s.board, s.attempts[id]);
    case _ =>
  }

  lemma AnswersStep(s: Sys, step: Step)
    requires AttemptsOk(s) && AnswersOk(s) && Enabled(s, step) && Extends(s.board, Do(s, step).board)
    ensures AnswersOk(Do(s, step))
  {
    var n := Do(s, step);
    NewAnswer(s, step);
    forall i | 0 <= i < |n.answers| ensures AnswerOk(n.board, n.answers[i]) {
      if i < |s.answers| { AnswerKept(s.board, n.board, s.answers[i]); }
      else { assert n.answers[i] in Answered(s, step); }
    }
    forall i, j | 0 <= i < j < |n.answers| && n.answers[i].reply.Posted? && n.answers[j].reply.Posted?
      ensures n.answers[i].reply.message.id != n.answers[j].reply.message.id
    {
      assert AnswerOk(s.board, s.answers[i]);
      if j == |s.answers| { assert n.answers[j] in Answered(s, step); }
    }
  }

  // ---- readers ----

  lemma ReaderKept(b: Board, d: Board, r: Reader)
    requires Dense(b) && Dense(d) && Extends(b, d) && ReaderOk(b, r)
    ensures ReaderOk(d, r)
  {
    HistoryGrows(b, d, r.channel);
  }

  lemma ForwardReads(b: Board, r: Reader, limit: nat, page: seq<Message>)
    requires Dense(b) && r.Forward? && ReaderOk(b, r) && IsPageAfter(b, r.channel, r.cursor, limit, page)
    ensures ReaderOk(b, Paged(b, r, page))
    ensures page == [] <==> r.cursor == |History(b, r.channel)|
  {
    PageAfterIsSlice(b, r.channel, r.cursor, limit, page);
    if page != [] { PageAfterNumbers(b, r.channel, r.cursor, limit, page, |page| - 1); }
    OldestFirstAppend(History(b, r.channel), r.collected, page);
  }

  lemma OldestFirstAppend(h: seq<Message>, got: seq<Message>, page: seq<Message>)
    requires got <= h && (page == [] || OldestFirst(h, |got|, page))
    ensures got + page <= h
  {}

  lemma NewestFirstAppend(h: seq<Message>, top: nat, got: seq<Message>, page: seq<Message>)
    requires NewestFirst(h, top, got) && NewestFirst(h, top - |got|, page)
    ensures NewestFirst(h, top, got + page)
  {}

  function Reversed<T>(s: seq<T>): (r: seq<T>)
    ensures |r| == |s| && forall k :: 0 <= k < |s| ==> r[k] == s[|s| - 1 - k]
  {
    seq(|s|, k requires 0 <= k < |s| => s[|s| - 1 - k])
  }

  lemma NewestFirstIsReversed(h: seq<Message>, top: nat, got: seq<Message>)
    requires NewestFirst(h, top, got)
    ensures got <= Reversed(h[..top])
  {}

  lemma PageBack(b: Board, c: ChannelId, before: Option<nat>, limit: nat, page: seq<Message>)
    requires Dense(b) && c in b.channels && IsPageBefore(b, c, before, limit, page)
    ensures NewestFirst(History(b, c), Upto(b, c, before), page)
    ensures page == [] <==> Upto(b, c, before) == 0
    ensures page != [] ==> page[|page| - 1].number == Upto(b, c, before) - |page| + 1
  {
    PageBeforeIsSlice(b, c, before, limit, page);
    if page != [] { PageBeforeNumbers(b, c, before, limit, page, |page| - 1); }
  }

  /** The cursor, messages and length a backward reader has after a page. */
  function NextCursor(before: Option<nat>, page: seq<Message>): Option<nat> {
    if page == [] then before else Some(page[|page| - 1].number)
  }

  lemma FirstRead(h: seq<Message>, page: seq<Message>)
    requires NewestFirst(h, |h|, page) && (page == [] <==> |h| == 0)
    requires page != [] ==> page[|page| - 1].number == |h| - |page| + 1
    ensures ReadsBack(h, NextCursor(None, page), [] + page, |h|)
  {
    assert [] + page == page;
  }

  lemma NextRead(h: seq<Message>, before: Option<nat>, got: seq<Message>, top: nat, page: seq<Message>, n: nat)
    requires ReadsBack(h, before, got, top) && before.Some? && n == top - |got| && NewestFirst(h, n, page)
    requires page != [] ==> page[|page| - 1].number == n - |page| + 1
    ensures ReadsBack(h, NextCursor(before, page), got + page, top)
  {
    NewestFirstAppend(h, top, got, page);
  }

  lemma BackwardPaged(b: Board, r: Reader, page: seq<Message>, top: nat)
    requires NoGaps(b) && r.Backward? && r.channel in b.channels
    requires top == if r.before.None? then b.channels[r.channel].next else r.top
    requires ReadsBack(History(b, r.channel), NextCursor(r.before, page), r.collected + page, top)
    ensures ReaderOk(b, Paged(b, r, page)) && Paged(b, r, page).top == top
  {}

  lemma BackwardReads(b: Board, r: Reader, limit: nat, page: seq<Message>)
    requires Dense(b) && r.Backward? && ReaderOk(b, r) && IsPageBefore(b, r.channel, r.before, limit, page)
    ensures ReaderOk(b, Paged(b, r, page))
    ensures page == [] ==> |r.collected| == Paged(b, r, page).top
  {
    var h, n := History(b, r.channel), Upto(b, r.channel, r.before);
    PageBack(b, r.channel, r.before, limit, page);
    if r.before.None? {
      FirstRead(h, page);
      BackwardPaged(b, r, page, |h|);
    } else {
      assert n == r.top - |r.collected|;
      NextRead(h, r.before, r.collected, r.top, page, n);
      BackwardPaged(b, r, page, r.top);
    }
  }

  lemma ReaderReads(b: Board, r: Reader, before: bool, limit: nat, page: seq<Message>)
    requires Dense(b) && ReaderOk(b, r) && r.Backward? == before
    requires if before then IsPageBefore(b, r.channel, r.before, limit, page)
             else IsPageAfter(b, r.channel, r.cursor, limit, page)
    ensures ReaderOk(b, Paged(b, r, page))
  {
    if before { BackwardReads(b, r, limit, page); } else { ForwardReads(b, r, limit, page); }
  }

  lemma ReadersKept(b: Board, d: Board, readers: map<nat, Reader>)
    requires Dense(b) && Dense(d) && Extends(b, d) && forall k :: k in readers ==> ReaderOk(b, readers[k])
    ensures forall k :: k in readers ==> ReaderOk(d, readers[k])
  {
    forall k | k in readers ensures ReaderOk(d, readers[k]) { ReaderKept(b, d, readers[k]); }
  }

  lemma ReadersStep(s: Sys, step: Step)
    requires Dense(s.board) && ReadersOk(s) && Enabled(s, step)
    requires Dense(Do(s, step).board) && Extends(s.board, Do(s, step).board)
    ensures ReadersOk(Do(s, step))
  {
    WhatReadingChanges(s, step);
    if step.ReadAfter? || step.ReadBefore? || step.StartReading? {
      forall k | k in Do(s, step).readers ensures ReaderOk(s.board, Do(s, step).readers[k]) { OneReads(s, step, k); }
    } else {
      ReadersKept(s.board, Do(s, step).board, s.readers);
    }
  }

  lemma WhatReadingChanges(s: Sys, step: Step)
    requires Enabled(s, step)
    ensures if step.ReadAfter? || step.ReadBefore? || step.StartReading? then Do(s, step).board == s.board
            else Do(s, step).readers == s.readers
  {}

  lemma OneReads(s: Sys, step: Step, k: nat)
    requires Dense(s.board) && ReadersOk(s) && Enabled(s, step) && k in Do(s, step).readers
    requires step.ReadAfter? || step.ReadBefore? || step.StartReading?
    ensures ReaderOk(s.board, Do(s, step).readers[k])
  {
    if k == step.id && !step.StartReading? && step.answer.Some? {
      ReaderReads(s.board, s.readers[k], step.ReadBefore?, step.limit, step.answer.value);
    }
  }

  lemma StepKeeps(s: Sys, step: Step)
    requires SysOk(s) && Enabled(s, step)
    ensures SysOk(Do(s, step)) && Extends(s.board, Do(s, step).board)
    ensures s.answers <= Do(s, step).answers
  {
    BoardStep(s, step);
    AttemptsStep(s, step);
    NewAnswer(s, step);
    AnswersStep(s, step);
    ReadersStep(s, step);
  }

  // ---- every run ----

  ghost predicate IsRun(s: Sys, steps: seq<Step>)
    decreases |steps|
  {
    steps != [] ==> Enabled(s, steps[0]) && IsRun(Do(s, steps[0]), steps[1..])
  }

  ghost function Reached(s: Sys, steps: seq<Step>): Sys
    requires IsRun(s, steps)
    decreases |steps|
  {
    if steps == [] then s else Reached(Do(s, steps[0]), steps[1..])
  }

  /** Posts, aborts, retries and readers in any interleaving keep every channel's sequences exactly 1 to its counter,
      change no stored message, and only append to a channel's history. */
  lemma {:induction false} RunsKeepChannels(s: Sys, steps: seq<Step>)
    requires SysOk(s) && IsRun(s, steps)
    ensures SysOk(Reached(s, steps)) && Extends(s.board, Reached(s, steps).board)
    ensures s.answers <= Reached(s, steps).answers
    decreases |steps|
  {
    if steps != [] {
      StepKeeps(s, steps[0]);
      RunsKeepChannels(Do(s, steps[0]), steps[1..]);
    }
  }

  /** Every committed snapshot of a channel is a prefix of every later one. */
  lemma SnapshotsArePrefixes(s: Sys, steps: seq<Step>, c: ChannelId)
    requires SysOk(s) && IsRun(s, steps) && c in s.board.channels
    ensures var n := Reached(s, steps);
            NoGaps(n.board) && c in n.board.channels && History(s.board, c) <= History(n.board, c)
  {
    RunsKeepChannels(s, steps);
    HistoryGrows(s.board, Reached(s, steps).board, c);
  }

  /** Among all answers of a run, one id was posted at most once, and every successful answer about it, first post or
      retry, carries that one message. */
  lemma RetriesAreIdempotent(s: Sys, steps: seq<Step>, i: nat, j: nat)
    requires SysOk(s) && IsRun(s, steps)
    requires var answers := Reached(s, steps).answers;
             && i < j < |answers| && answers[i].post.id == answers[j].post.id
             && !answers[i].reply.Refused? && !answers[j].reply.Refused?
    ensures var answers := Reached(s, steps).answers;
            && answers[i].reply.message == answers[j].reply.message
            && !(answers[i].reply.Posted? && answers[j].reply.Posted?)
  {
    RunsKeepChannels(s, steps);
    var n := Reached(s, steps);
    assert AnswerOk(n.board, n.answers[i]) && AnswerOk(n.board, n.answers[j]);
  }

  /** The sender is active in the organization it posts to. */
  predicate Active(s: Sys, p: Post) {
    ActiveIn(s.db, p.sender, p.org)
  }

  /** What a step answers to the post it runs for. */
  ghost predicate Replies(s: Sys, step: Step, p: Post, reply: Reply)
    requires Enabled(s, step)
  {
    Do(s, step).answers == s.answers + [Answer(p, reply)]
  }

  /** At any moment of any interleaving a retry whose id is stored finds its own message, if the sender is then active
      and the stored id, organization, channel and sender are the retry's, and is a conflict otherwise. */
  lemma RetriesFindTheirOwn(s: Sys, id: nat)
    requires SysOk(s) && Enabled(s, LookUp(id))
    ensures var p := s.attempts[id].post;
            && p.id in s.board.messages
            && Replies(s, LookUp(id), p,
                       if Active(s, p) && OwnPost(s.board, p) then AlreadyPosted(s.board.messages[p.id])
                       else Refused(IdConflict))
  {
    assert AttemptOk(s.board, s.attempts[id]);
  }

  /** A post once answered with success is answered with the same message whenever its sender retries it. */
  lemma RetriesSucceed(s: Sys, i: nat, id: nat)
    requires SysOk(s) && Enabled(s, LookUp(id)) && i < |s.answers| && !s.answers[i].reply.Refused?
    requires var p, q := s.attempts[id].post, s.answers[i].post;
             p.id == q.id && p.org == q.org && p.channel == q.channel && p.sender == q.sender && Active(s, p)
    ensures Replies(s, LookUp(id), s.attempts[id].post, AlreadyPosted(s.answers[i].reply.message))
  {
    assert AnswerOk(s.board, s.answers[i]);
    RetriesFindTheirOwn(s, id);
  }

  /** Every other answer: a body of the wrong length, a channel the sender cannot see, a sender no longer active, and
      the message stored as sent under the channel's next number. */
  lemma AnswersAreRight(s: Sys, step: Step)
    requires SysOk(s) && Enabled(s, step) && !step.LookUp?
    ensures match step
            case Begin(_, p) =>
              if 1 <= |p.body| <= 4000 then Do(s, step).answers == s.answers
              else Replies(s, step, p, Refused(InvalidBody))
            case Count(id) =>
              var p := s.attempts[id].post;
              if Active(s, p) && HasChannel(s.board, p.org, p.channel) then Do(s, step).answers == s.answers
              else Replies(s, step, p, Refused(NotFound))
            case Insert(id) =>
              if Active(s, s.attempts[id].post) then Do(s, step).answers == s.answers
              else Replies(s, step, s.attempts[id].post, Refused(PostError.Database))
            case Commit(id) =>
              var p := s.attempts[id].post;
              p.channel in s.board.channels
              && var m := Message(p.id, p.org, p.channel, s.board.channels[p.channel].next + 1, p.sender, p.body);
                 Replies(s, step, p, Posted(m)) && Do(s, step).board.messages == s.board.messages[p.id := m]
            case _ => Do(s, step).answers == s.answers
  {
    if step.Commit? { assert AttemptOk(s.board, s.attempts[step.id]); }
  }

  // ---- a post alone ----

  /** The post's own statements, and no crash. */
  predicate StatementsOf(id: nat, p: Post, steps: seq<Step>) {
    |steps| > 0 && steps[0] == Begin(id, p)
    && forall k :: 0 < k < |steps| ==> steps[k] in {Count(id), Insert(id), Commit(id), LookUp(id)}
  }

  lemma {:induction false} OneMore(s: Sys, steps: seq<Step>, step: Step)
    requires IsRun(s, steps) && Enabled(Reached(s, steps), step)
    ensures IsRun(s, steps + [step]) && Reached(s, steps + [step]) == Do(Reached(s, steps), step)
    decreases |steps|
  {
    if steps == [] {
      assert [] + [step] == [step] && [step][1..] == [];
      var n := Do(s, step);
      assert IsRun(n, []) && Reached(n, []) == n;
    } else {
      assert (steps + [step])[1..] == steps[1..] + [step];
      OneMore(Do(s, steps[0]), steps[1..], step);
    }
  }

  lemma Begins(s: Sys, id: nat, p: Post)
    requires s.attempts == map[]
    ensures IsRun(s, [Begin(id, p)])
    ensures Reached(s, [Begin(id, p)])
            == if ValidBody(p.body) then s.(attempts := map[id := Attempt(p, Counting)])
               else s.(answers := s.answers + [Answer(p, Refused(InvalidBody))])
  {
    var n := Do(s, Begin(id, p));
    assert [Begin(id, p)][1..] == [] && IsRun(n, []) && Reached(n, []) == n;
    assert map[][id := Attempt(p, Counting)] == map[id := Attempt(p, Counting)];
  }

  lemma CountsThenInserts(s: Sys, id: nat, p: Post)
    requires s.attempts == map[id := Attempt(p, Counting)] && SeesChannel(s.db, s.board, p.sender, p.org, p.channel)
    ensures Enabled(s, Count(id)) && Enabled(Do(s, Count(id)), Insert(id))
    ensures var n := s.board.channels[p.channel].next + 1;
            Do(Do(s, Count(id)), Insert(id)) ==
            s.(attempts := map[id := Attempt(p, if p.id in s.board.messages then Looking else Inserted(n))])
  {
    var m := Do(s, Count(id));
    assert m.attempts == map[id := Attempt(p, Inserting(s.board.channels[p.channel].next + 1))];
    assert Do(m, Insert(id)).attempts.Keys == {id};
  }

  lemma SeenPostAnswers(s: Sys, id: nat, p: Post) returns (steps: seq<Step>)
    requires s.attempts == map[] && ValidBody(p.body) && SeesChannel(s.db, s.board, p.sender, p.org, p.channel)
    ensures StatementsOf(id, p, steps) && IsRun(s, steps)
    ensures Reached(s, steps) == s.(board := PostAlone(s.db, s.board, p).1,
                                    answers := s.answers + [Answer(p, PostAlone(s.db, s.board, p).0)])
  {
    steps := [Begin(id, p)];
    Begins(s, id, p);
    CountsThenInserts(Reached(s, steps), id, p);
    OneMore(s, steps, Count(id));
    OneMore(s, steps + [Count(id)], Insert(id));
    var last := if p.id in s.board.messages then LookUp(id) else Commit(id);
    OneMore(s, steps + [Count(id)] + [Insert(id)], last);
    steps := steps + [Count(id)] + [Insert(id)] + [last];
    assert Reached(s, steps).attempts == map[];
  }

  /** With no other post in flight, a post's statements go through to the end and answer and store exactly what the
      operation is specified to. */
  lemma PostsAloneAnswer(s: Sys, id: nat, p: Post) returns (steps: seq<Step>)
    requires s.attempts == map[]
    ensures StatementsOf(id, p, steps) && IsRun(s, steps)
    ensures Reached(s, steps) == s.(board := PostAlone(s.db, s.board, p).1,
                                    answers := s.answers + [Answer(p, PostAlone(s.db, s.board, p).0)])
  {
    steps := [Begin(id, p)];
    Begins(s, id, p);
    if ValidBody(p.body) {
      if SeesChannel(s.db, s.board, p.sender, p.org, p.channel) {
        steps := SeenPostAnswers(s, id, p);
      } else {
        OneMore(s, steps, Count(id));
        steps := steps + [Count(id)];
        assert Reached(s, steps).attempts == map[];
      }
    }
  }

  /** Only a commit or a new channel changes what is stored. An uncommitted counter is private to its attempt here, as
      it is to its transaction; that a losing post rolls it back is proved of Store.PostMessage. */
  lemma LosersChangeNothing(s: Sys, step: Step)
    requires SysOk(s) && Enabled(s, step) && Do(s, step).board != s.board
    ensures step.OpenChannel? || step.Commit?
    ensures step.Commit? ==>
              exists m: Message ::
                && m.channel in s.board.channels && m.number == s.board.channels[m.channel].next + 1
                && m.id !in s.board.messages && Do(s, step).board.messages == s.board.messages[m.id := m]
                && Do(s, step).answers == s.answers + [Answer(s.attempts[step.id].post, Posted(m))]
  {
    BoardStep(s, step);
    if step.Commit? {
      var p := s.attempts[step.id].post;
      var m := Row(p, s.attempts[step.id].stage.number);
      assert AttemptOk(s.board, s.attempts[step.id]);
      assert Do(s, step).answers == s.answers + [Answer(p, Posted(m))];
    }
  }

  /** While any post is in flight, some statement of some post can run: they never all wait for each other. */
  lemma PostsNeverDeadlock(s: Sys)
    requires s.attempts != map[]
    ensures exists step :: Enabled(s, step) && (step.Count? || step.Insert? || step.Commit? || step.LookUp?)
  {
    var id :| id in s.attempts;
    if k :| k in s.attempts && s.attempts[k].stage.Inserted? {
      assert Enabled(s, Commit(k));
    } else if k :| k in s.attempts && s.attempts[k].stage.Inserting? {
      assert Enabled(s, Insert(k));
    } else if s.attempts[id].stage.Counting? {
      assert Enabled(s, Count(id));
    } else {
      assert Enabled(s, LookUp(id));
    }
  }

  /** A reader that started at BEGINNING, whatever was posted between its pages, has collected exactly sequences 1 to
      its cursor, in order, none twice. */
  lemma ForwardReadersCollectPrefixes(s: Sys, steps: seq<Step>, id: nat)
    requires SysOk(s) && IsRun(s, steps)
    requires id in Reached(s, steps).readers && Reached(s, steps).readers[id].Forward?
    ensures var n := Reached(s, steps); var r := n.readers[id];
            && NoGaps(n.board) && r.channel in n.board.channels
            && r.cursor <= |History(n.board, r.channel)| && r.collected == History(n.board, r.channel)[..r.cursor]
            && (forall k :: 0 <= k < |r.collected| ==> r.collected[k].number == k + 1)
  {
    RunsKeepChannels(s, steps);
    var n := Reached(s, steps);
    assert ReaderOk(n.board, n.readers[id]);
  }

  /** Paging backwards has collected, newest first, the newest of the messages present at its first page. */
  lemma BackwardReadersCollectSuffixes(s: Sys, steps: seq<Step>, id: nat)
    requires SysOk(s) && IsRun(s, steps)
    requires id in Reached(s, steps).readers && Reached(s, steps).readers[id].Backward?
    requires Reached(s, steps).readers[id].before.Some?
    ensures var n := Reached(s, steps); var r := n.readers[id];
            && NoGaps(n.board) && r.channel in n.board.channels && r.top <= |History(n.board, r.channel)|
            && r.collected <= Reversed(History(n.board, r.channel)[..r.top])
  {
    RunsKeepChannels(s, steps);
    var n := Reached(s, steps);
    assert ReaderOk(n.board, n.readers[id]);
    NewestFirstIsReversed(History(n.board, n.readers[id].channel), n.readers[id].top, n.readers[id].collected);
  }

  function Remaining(s: Sys, r: Reader): nat {
    if r.Forward? || r.channel !in s.board.channels then 0
    else if r.before.None? then s.board.channels[r.channel].next
    else if |r.collected| <= r.top then r.top - |r.collected| else 0
  }

  /** Each backward page, whatever its limit, brings the reader strictly nearer its end, and the reader has everything
      it set out to read exactly when a page comes back empty. */
  lemma BackwardReadingEnds(s: Sys, step: Step)
    requires SysOk(s) && step.ReadBefore? && Enabled(s, step) && step.answer.Some?
    ensures var r := s.readers[step.id]; var after := Do(s, step).readers[step.id]; var page := step.answer.value;
            && (page != [] ==> Remaining(Do(s, step), after) < Remaining(s, r))
            && (page == [] <==> Remaining(s, r) == 0)
            && (page == [] ==> after.top <= |History(s.board, r.channel)|
                               && after.collected == Reversed(History(s.board, r.channel)[..after.top]))
  {
    BackwardReaderEnds(s, s.readers[step.id], step.limit, step.answer.value);
  }

  lemma BackwardReaderEnds(s: Sys, r: Reader, limit: nat, page: seq<Message>)
    requires Dense(s.board) && r.Backward? && ReaderOk(s.board, r)
    requires IsPageBefore(s.board, r.channel, r.before, limit, page)
    ensures var after := Paged(s.board, r, page);
            && (page != [] ==> Remaining(s, after) < Remaining(s, r))
            && (page == [] <==> Remaining(s, r) == 0)
            && (page == [] ==> after.top <= |History(s.board, r.channel)|
                               && after.collected == Reversed(History(s.board, r.channel)[..after.top]))
  {
    BackwardReads(s.board, r, limit, page);
    PageBack(s.board, r.channel, r.before, limit, page);
    if page == [] && r.before.Some? { NewestFirstIsReversed(History(s.board, r.channel), r.top, r.collected); }
  }

  /** A forward page comes back empty exactly when the reader has the whole channel as committed at that moment. */
  lemma ForwardReadingCatchesUp(s: Sys, step: Step)
    requires SysOk(s) && step.ReadAfter? && Enabled(s, step) && step.answer.Some?
    ensures var r := s.readers[step.id]; step.answer.value == [] <==> r.collected == History(s.board, r.channel)
  {
    var r := s.readers[step.id];
    assert ReaderOk(s.board, r);
    ForwardReads(s.board, r, step.limit, step.answer.value);
  }

  const EMPTY := Sys(Db(map[], map[], map[], map[]), Board(map[], map[]), map[], [], map[])

  lemma EmptyOk()
    ensures SysOk(EMPTY)
  {
    forall c, n: nat, i, j ensures Numbered(EMPTY.board, c, n, i) && Numbered(EMPTY.board, c, n, j) ==> i == j {}
  }
}
