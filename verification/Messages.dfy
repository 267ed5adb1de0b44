/** Posting and paging: concurrent attempts, retries, aborts and readers over the channels' counters and messages. */
module Messages {
  import opened Domain
  import opened Store

  type MessageId = nat

  datatype Message = Message(id: MessageId, org: OrgId, channel: ChannelId, number: nat, sender: ActorId, body: string)
  datatype Counter = Counter(org: OrgId, next: nat)

  /** The committed channel counters and messages. */
  datatype Board = Board(channels: map<ChannelId, Counter>, messages: map<MessageId, Message>)

  datatype Post = Post(org: OrgId, channel: ChannelId, sender: ActorId, id: MessageId, body: string)
  datatype PostError = InvalidBody | NotFound | IdConflict | Database
  datatype Reply = Posted(message: Message) | AlreadyPosted(message: Message) | Refused(error: PostError)

  predicate ValidBody(body: string) {
    1 <= |body| <= 4000
  }

  predicate HasChannel(b: Board, org: OrgId, c: ChannelId) {
    c in b.channels && b.channels[c].org == org
  }

  function Row(p: Post, n: nat): Message {
    Message(p.id, p.org, p.channel, n, p.sender, p.body)
  }

  predicate Matches(m: Message, p: Post) {
    m.id == p.id && m.org == p.org && m.channel == p.channel && m.sender == p.sender
  }

  // ---- what is stored ----

  predicate Numbered(b: Board, c: ChannelId, n: nat, id: MessageId) {
    id in b.messages && b.messages[id].channel == c && b.messages[id].number == n
  }

  ghost predicate Stored(b: Board) {
    forall id :: id in b.messages ==>
      var m := b.messages[id];
      m.id == id && HasChannel(b, m.org, m.channel) && 1 <= m.number <= b.channels[m.channel].next && ValidBody(m.body)
  }

  ghost predicate Used(b: Board, c: ChannelId, n: nat) {
    exists id :: Numbered(b, c, n, id)
  }

  ghost predicate NoGaps(b: Board) {
    forall c, n: nat :: c in b.channels && 1 <= n <= b.channels[c].next ==> Used(b, c, n)
  }

  ghost predicate NoRepeats(b: Board) {
    forall c, n: nat, i, j :: Numbered(b, c, n, i) && Numbered(b, c, n, j) ==> i == j
  }

  /** Each channel's sequences are exactly 1 to its counter, each used once. */
  ghost predicate Dense(b: Board) {
    Stored(b) && NoGaps(b) && NoRepeats(b)
  }

  ghost function MessageAt(b: Board, c: ChannelId, n: nat): (m: Message)
    requires NoGaps(b) && c in b.channels && 1 <= n <= b.channels[c].next
    ensures m.channel == c && m.number == n && exists id :: id in b.messages && b.messages[id] == m
  {
    assert Used(b, c, n);
    var id :| Numbered(b, c, n, id);
    b.messages[id]
  }

  /** A channel's messages in sequence order. */
  ghost function History(b: Board, c: ChannelId): (h: seq<Message>)
    requires NoGaps(b) && c in b.channels
    ensures |h| == b.channels[c].next
    ensures forall k :: 0 <= k < |h| ==> h[k] == MessageAt(b, c, k + 1)
  {
    seq(b.channels[c].next, k requires 0 <= k < b.channels[c].next => MessageAt(b, c, k + 1))
  }

  lemma HistoryAt(b: Board, c: ChannelId, id: MessageId)
    requires Dense(b) && c in b.channels && id in b.messages && b.messages[id].channel == c
    ensures History(b, c)[b.messages[id].number - 1] == b.messages[id]
  {
    var n := b.messages[id].number;
    var m := MessageAt(b, c, n);
    var j :| j in b.messages && b.messages[j] == m;
    assert Numbered(b, c, n, id) && Numbered(b, c, n, j);
  }

  // ---- pages ----

  /** limit.clamp(1, 200) */
  function Clamped(limit: nat): (n: nat)
    ensures 1 <= n <= 200
  {
    if limit < 1 then 1 else if limit > 200 then 200 else limit
  }

  /** The rows a paging query may return: those of the channel on the cursor's side. */
  ghost predicate Eligible(b: Board, c: ChannelId, m: Message, after: int, before: Option<int>) {
    && (exists id :: id in b.messages && b.messages[id] == m)
    && m.channel == c && m.number > after && (before.Some? ==> m.number < before.value)
  }

  /** ORDER BY channel_seq ASC LIMIT n */
  ghost predicate IsPageAfter(b: Board, c: ChannelId, after: nat, limit: nat, page: seq<Message>) {
    && |page| <= Clamped(limit)
    && (forall m :: m in page ==> Eligible(b, c, m, after, None))
    && (forall i, j :: 0 <= i < j < |page| ==> page[i].number < page[j].number)
    && (forall m :: Eligible(b, c, m, after, None) && m !in page ==>
          |page| == Clamped(limit) && forall p :: p in page ==> p.number < m.number)
  }

  /** ORDER BY channel_seq DESC LIMIT n */
  ghost predicate IsPageBefore(b: Board, c: ChannelId, before: Option<nat>, limit: nat, page: seq<Message>) {
    && |page| <= Clamped(limit)
    && (forall m :: m in page ==> Eligible(b, c, m, 0, before))
    && (forall i, j :: 0 <= i < j < |page| ==> page[i].number > page[j].number)
    && (forall m :: Eligible(b, c, m, 0, before) && m !in page ==>
          |page| == Clamped(limit) && forall p :: p in page ==> p.number > m.number)
  }

  function Min(a: int, b: int): int {
    if a <= b then a else b
  }

  /** `page` is what follows the first `from` messages of `h`, oldest first. */
  ghost predicate OldestFirst(h: seq<Message>, from: nat, page: seq<Message>) {
    from + |page| <= |h| && forall k :: 0 <= k < |page| ==> page[k] == h[from + k]
  }

  /** The messages after a cursor, oldest first, as many as the limit allows. */
  ghost predicate SliceAfter(b: Board, c: ChannelId, after: nat, limit: nat, page: seq<Message>)
    requires NoGaps(b) && c in b.channels
  {
    if after >= b.channels[c].next then page == []
    else
      OldestFirst(History(b, c), after, page) && |page| == Min(Clamped(limit), b.channels[c].next - after)
  }

  /** How many messages lie before a cursor. */
  function Upto(b: Board, c: ChannelId, before: Option<nat>): nat
    requires c in b.channels
  {
    if before.None? then b.channels[c].next
    else if before.value == 0 then 0
    else Min(before.value - 1, b.channels[c].next)
  }

  /** `got` is the newest of the first `top` messages of `h`, newest first. */
  ghost predicate NewestFirst(h: seq<Message>, top: nat, got: seq<Message>) {
    |got| <= top <= |h| && forall k :: 0 <= k < |got| ==> got[k] == h[top - 1 - k]
  }

  /** The messages before a cursor, newest first, as many as the limit allows. */
  ghost predicate SliceBefore(b: Board, c: ChannelId, before: Option<nat>, limit: nat, page: seq<Message>)
    requires NoGaps(b) && c in b.channels
  {
    NewestFirst(History(b, c), Upto(b, c, before), page) && |page| == Min(Clamped(limit), Upto(b, c, before))
  }

  lemma EligibleIsNumbered(b: Board, c: ChannelId, m: Message, after: nat, before: Option<nat>)
    requires Dense(b) && c in b.channels && Eligible(b, c, m, after, before)
    ensures after < m.number <= Upto(b, c, before) && History(b, c)[m.number - 1] == m
  {
    var id :| id in b.messages && b.messages[id] == m;
    HistoryAt(b, c, id);
  }

  lemma NumberedIsEligible(b: Board, c: ChannelId, n: nat, after: nat, before: Option<nat>)
    requires Dense(b) && c in b.channels && after < n <= Upto(b, c, before)
    ensures Eligible(b, c, History(b, c)[n - 1], after, before) && History(b, c)[n - 1].number == n
  {}

  /** The k-th message of a page after a cursor has the k-th number after it: a missing one would be eligible. */
  lemma {:induction false} PageAfterNumbers(b: Board, c: ChannelId, after: nat, limit: nat, page: seq<Message>, k: nat)
    requires Dense(b) && c in b.channels && IsPageAfter(b, c, after, limit, page) && k < |page|
    ensures page[k].number == after + k + 1
  {
    if k > 0 { PageAfterNumbers(b, c, after, limit, page, k - 1); }
    assert Eligible(b, c, page[k], after, None);
    EligibleIsNumbered(b, c, page[k], after, None);
    NumberedIsEligible(b, c, after + k + 1, after, None);
    var m := History(b, c)[after + k];
    assert page[k] in page;
    assert forall j :: 0 <= j < k ==> page[j].number <= page[k - 1].number;
    if m in page { var j :| 0 <= j < |page| && page[j] == m; }
  }

  lemma PageAfterLength(b: Board, c: ChannelId, after: nat, limit: nat, page: seq<Message>)
    requires Dense(b) && c in b.channels && IsPageAfter(b, c, after, limit, page)
    ensures |page| == if after >= b.channels[c].next then 0 else Min(Clamped(limit), b.channels[c].next - after)
  {
    forall j | 0 <= j < |page| ensures page[j] in page && page[j].number == after + j + 1 {
      PageAfterNumbers(b, c, after, limit, page, j);
    }
    if page != [] { EligibleIsNumbered(b, c, page[|page| - 1], after, None); }
    if |page| < Clamped(limit) && after + |page| < b.channels[c].next {
      NumberedIsEligible(b, c, after + |page| + 1, after, None);
    }
  }

  /** The page after a cursor is one slice of the history, and that slice is a page. */
  lemma PageAfterIsSlice(b: Board, c: ChannelId, after: nat, limit: nat, page: seq<Message>)
    requires Dense(b) && c in b.channels
    ensures IsPageAfter(b, c, after, limit, page) <==> SliceAfter(b, c, after, limit, page)
  {
    if IsPageAfter(b, c, after, limit, page) {
      PageAfterLength(b, c, after, limit, page);
      forall k | 0 <= k < |page| ensures after + k < |History(b, c)| && page[k] == History(b, c)[after + k] {
        PageAfterNumbers(b, c, after, limit, page, k);
        assert page[k] in page;
        EligibleIsNumbered(b, c, page[k], after, None);
      }
    }
    if SliceAfter(b, c, after, limit, page) { SliceAfterIsPage(b, c, after, limit, page); }
  }

  lemma SliceAfterIsPage(b: Board, c: ChannelId, after: nat, limit: nat, page: seq<Message>)
    requires Dense(b) && c in b.channels && SliceAfter(b, c, after, limit, page)
    ensures IsPageAfter(b, c, after, limit, page)
  {
    var h := History(b, c);
    forall n | after <= n < after + |page| ensures h[n] in page { assert page[n - after] == h[n]; }
    forall k | 0 <= k < |page| ensures Eligible(b, c, page[k], after, None) && page[k].number == after + k + 1 {
      NumberedIsEligible(b, c, after + k + 1, after, None);
    }
    forall m | Eligible(b, c, m, after, None) && m !in page
      ensures |page| == Clamped(limit) && forall p :: p in page ==> p.number < m.number
    {
      EligibleIsNumbered(b, c, m, after, None);
    }
  }

  lemma {:induction false} PageBeforeNumbers(b: Board, c: ChannelId, before: Option<nat>, limit: nat,
                                             page: seq<Message>, k: nat)
    requires Dense(b) && c in b.channels && IsPageBefore(b, c, before, limit, page) && k < |page|
    ensures page[k].number == Upto(b, c, before) - k
  {
    if k > 0 { PageBeforeNumbers(b, c, before, limit, page, k - 1); }
    assert Eligible(b, c, page[k], 0, before);
    EligibleIsNumbered(b, c, page[k], 0, before);
    var n := Upto(b, c, before) - k;
    NumberedIsEligible(b, c, n, 0, before);
    var m := History(b, c)[n - 1];
    assert page[k] in page;
    assert forall j :: 0 <= j < k ==> page[j].number >= page[k - 1].number;
    if m in page { var j :| 0 <= j < |page| && page[j] == m; }
  }

  lemma PageBeforeLength(b: Board, c: ChannelId, before: Option<nat>, limit: nat, page: seq<Message>)
    requires Dense(b) && c in b.channels && IsPageBefore(b, c, before, limit, page)
    ensures |page| == Min(Clamped(limit), Upto(b, c, before))
  {
    var n := Upto(b, c, before);
    forall j | 0 <= j < |page| ensures page[j] in page && page[j].number == n - j {
      PageBeforeNumbers(b, c, before, limit, page, j);
    }
    if page != [] { EligibleIsNumbered(b, c, page[|page| - 1], 0, before); }
    if |page| < Clamped(limit) && |page| < n { NumberedIsEligible(b, c, n - |page|, 0, before); }
  }

  lemma PageBeforeIsSlice(b: Board, c: ChannelId, before: Option<nat>, limit: nat, page: seq<Message>)
    requires Dense(b) && c in b.channels
    ensures IsPageBefore(b, c, before, limit, page) <==> SliceBefore(b, c, before, limit, page)
  {
    if IsPageBefore(b, c, before, limit, page) {
      PageBeforeLength(b, c, before, limit, page);
      forall k | 0 <= k < |page| ensures page[k] == History(b, c)[Upto(b, c, before) - 1 - k] {
        PageBeforeNumbers(b, c, before, limit, page, k);
        assert page[k] in page;
        EligibleIsNumbered(b, c, page[k], 0, before);
      }
    }
    if SliceBefore(b, c, before, limit, page) { SliceBeforeIsPage(b, c, before, limit, page); }
  }

  lemma SliceBeforeIsPage(b: Board, c: ChannelId, before: Option<nat>, limit: nat, page: seq<Message>)
    requires Dense(b) && c in b.channels && SliceBefore(b, c, before, limit, page)
    ensures IsPageBefore(b, c, before, limit, page)
  {
    var h, n := History(b, c), Upto(b, c, before);
    forall k | n - |page| <= k < n ensures h[k] in page { assert page[n - 1 - k] == h[k]; }
    forall k | 0 <= k < |page| ensures Eligible(b, c, page[k], 0, before) && page[k].number == n - k {
      NumberedIsEligible(b, c, n - k, 0, before);
    }
    forall m | Eligible(b, c, m, 0, before) && m !in page
      ensures |page| == Clamped(limit) && forall p :: p in page ==> p.number > m.number
    {
      EligibleIsNumbered(b, c, m, 0, before);
    }
  }

  // ---- what the operations answer when run alone ----

  /** What the row policies show of a channel: nothing unless the actor is active in its organization. */
  predicate SeesChannel(db: Db, b: Board, who: ActorId, org: OrgId, c: ChannelId) {
    ActiveIn(db, who, org) && HasChannel(b, org, c)
  }

  /** The tables once a post has taken number `n`. */
  function Committed(b: Board, p: Post, n: nat): Board
    requires p.channel in b.channels
  {
    Board(b.channels[p.channel := b.channels[p.channel].(next := n)], b.messages[p.id := Row(p, n)])
  }

  /** The lookup after a conflict: the sender's own post of that id in that channel, or a conflict. */
  function Finds(b: Board, p: Post): Reply {
    if p.id in b.messages && Matches(b.messages[p.id], p) then AlreadyPosted(b.messages[p.id]) else Refused(IdConflict)
  }

  function PostAlone(db: Db, b: Board, p: Post): (Reply, Board) {
    if !ValidBody(p.body) then (Refused(InvalidBody), b)
    else if !SeesChannel(db, b, p.sender, p.org, p.channel) then (Refused(NotFound), b)
    else if p.id in b.messages then (Finds(b, p), b)
    else (Posted(Row(p, b.channels[p.channel].next + 1)), Committed(b, p, b.channels[p.channel].next + 1))
  }

  /** messages_after: a page, or NotFound. */
  ghost predicate ReadsAfter(db: Db, b: Board, who: ActorId, org: OrgId, c: ChannelId, after: nat, limit: nat,
                             answer: Option<seq<Message>>) {
    if SeesChannel(db, b, who, org, c) then answer.Some? && IsPageAfter(b, c, after, limit, answer.value)
    else answer.None?
  }

  /** messages_before: a page, or NotFound. */
  ghost predicate ReadsBefore(db: Db, b: Board, who: ActorId, org: OrgId, c: ChannelId, before: Option<nat>, limit: nat,
                              answer: Option<seq<Message>>) {
    if SeesChannel(db, b, who, org, c) then answer.Some? && IsPageBefore(b, c, before, limit, answer.value)
    else answer.None?
  }

  /** The stored message is the sender's own, of that id, in that channel. */
  predicate OwnPost(b: Board, p: Post) {
    && p.id in b.messages
    && var m := b.messages[p.id];
       m.id == p.id && m.org == p.org && m.channel == p.channel && m.sender == p.sender
  }

  /** Exactly when each answer is given, and what a post stores: a retry of one's own post gets the stored message,
      whatever body it repeats, and an id stored with any other sender, channel or organization is a conflict. */
  lemma PostReplies(db: Db, b: Board, p: Post)
    requires Dense(b)
    ensures var (reply, after) := PostAlone(db, b, p);
            var fits := 1 <= |p.body| <= 4000;
            var visible := p.org in db.orgs && p.sender in db.orgs[p.org].members
                           && db.orgs[p.org].members[p.sender].status == Active
                           && p.channel in b.channels && b.channels[p.channel].org == p.org;
            && (reply == Refused(InvalidBody) <==> !fits)
            && (reply == Refused(NotFound) <==> fits && !visible)
            && (reply.AlreadyPosted? <==> fits && visible && OwnPost(b, p))
            && (reply == Refused(IdConflict) <==> fits && visible && p.id in b.messages && !OwnPost(b, p))
            && (reply.Posted? <==> fits && visible && p.id !in b.messages)
            && (reply.AlreadyPosted? ==> reply.message == b.messages[p.id])
            && (!reply.Posted? ==> after == b)
  {}

  /** A post takes the channel's next number and stores exactly what was sent. */
  lemma PostStores(db: Db, b: Board, p: Post)
    requires Dense(b) && PostAlone(db, b, p).0.Posted?
    ensures var (reply, after) := PostAlone(db, b, p);
            && p.channel in b.channels
            && var n := b.channels[p.channel].next + 1;
               && reply.message == Message(p.id, p.org, p.channel, n, p.sender, p.body)
               && after.messages == b.messages[p.id := reply.message]
               && after.channels == b.channels[p.channel := Counter(p.org, n)]
  {}

  /** A page holds as many messages as asked for, at least 1 and at most 200, unless fewer are left. */
  lemma PageSizes(b: Board, c: ChannelId, after: nat, before: Option<nat>, limit: nat, page: seq<Message>)
    requires Dense(b) && c in b.channels
    requires (IsPageAfter(b, c, after, limit, page) && before.None?)
             || (IsPageBefore(b, c, before, limit, page) && after == 0)
    ensures var left := if after >= Upto(b, c, before) then 0 else Upto(b, c, before) - after;
            && |page| <= 200 && |page| <= left
            && (|page| < left ==> |page| == limit || (|page| == 1 && limit == 0) || (|page| == 200 && limit > 200))
            && (limit > 0 ==> |page| <= limit)
  {
    if IsPageAfter(b, c, after, limit, page) && before.None? { PageAfterLength(b, c, after, limit, page); }
    else { PageBeforeLength(b, c, before, limit, page); }
  }

  /** Posting to an organization the sender is not active in answers as posting to one that does not exist, and stores
      nothing. */
  lemma UnseenPostLooksMissing(db: Db, b: Board, p: Post, missing: OrgId)
    requires !ActiveIn(db, p.sender, p.org) && missing !in db.orgs
    ensures PostAlone(db, b, p) == PostAlone(db, b, p.(org := missing)) && PostAlone(db, b, p).1 == b
  {}

  /** Reading there answers as reading where nothing exists, whatever the channel, cursor and limit. */
  lemma UnseenReadsLookMissing(db: Db, b: Board, who: ActorId, org: OrgId, missing: OrgId, c: ChannelId, limit: nat,
                               answer: Option<seq<Message>>)
    requires !ActiveIn(db, who, org) && missing !in db.orgs
    ensures forall after :: ReadsAfter(db, b, who, org, c, after, limit, answer)
                            <==> ReadsAfter(db, b, who, missing, c, after, limit, answer)
    ensures forall before :: ReadsBefore(db, b, who, org, c, before, limit, answer)
                             <==> ReadsBefore(db, b, who, missing, c, before, limit, answer)
    ensures forall after :: ReadsAfter(db, b, who, org, c, after, limit, answer) ==> answer.None?
    ensures forall before :: ReadsBefore(db, b, who, org, c, before, limit, answer) ==> answer.None?
  {}
}
