/** Concurrent acceptances of one invite fill its places exactly, whatever else runs beside them, and an aborted one
    gives its place back. */
module Contest {
  import opened Domain
  import opened Store
  import opened Operations
  import opened Integrity
  import R = Runs
  import opened Transactions
  import opened Rely
  import opened Serial

  /** An open organization invite, known by its token. */
  ghost predicate Open(c: Db, o: OrgId, i: InviteId, token: TokenHash) {
    && Presents(c, token, o, i)
    && c.orgs[o].invites[i].kind.ForOrganization? && !c.orgs[o].invites[i].revoked
  }

  predicate Enters(op: Op, token: TokenHash) {
    op.AcceptInvite? && op.presented == token
  }

  /** An acceptance of the unexpired invite by a new person with an unregistered email. */
  ghost predicate Entrant(c: Db, o: OrgId, i: InviteId, op: Op)
    requires o in c.orgs && i in c.orgs[o].invites
  {
    && op.AcceptInvite? && op.presented == c.orgs[o].invites[i].token && op.now < c.orgs[o].invites[i].expires
    && op.actor !in c.actors && !EmailTaken(c, op.email)
  }

  predicate MakesPerson(op: Op) {
    op.AcceptInvite? || op.CreatePerson?
  }

  /** The operation makes up neither the id nor the email of entrant `a`. */
  predicate Apart(a: Op, op: Op) {
    a.AcceptInvite? && (MakesPerson(op) ==> a.actor != op.actor && Lower(a.email) != Lower(op.email))
  }

  /** An operation that neither uses nor revokes the invite. */
  predicate Bystands(op: Op, o: OrgId, i: InviteId, token: TokenHash) {
    !Enters(op, token) && !(op.RevokeInvite? && op.org == o && op.revoked == Some(i))
  }

  /** Entrants with fresh distinct ids and emails, and bystanders. */
  ghost predicate Mixed(c: Db, txns: map<nat, Txn>, o: OrgId, i: InviteId, token: TokenHash)
    requires o in c.orgs && i in c.orgs[o].invites
  {
    && (forall t :: t in txns ==>
          if Enters(txns[t].op, token) then Entrant(c, o, i, txns[t].op) else Bystands(txns[t].op, o, i, token))
    && (forall t, u :: t in txns && u in txns && t != u && Enters(txns[t].op, token) ==> Apart(txns[t].op, txns[u].op))
  }

  ghost predicate Contest(s: Sys, o: OrgId, i: InviteId, token: TokenHash) {
    SysOk(s) && Open(s.db, o, i, token) && Mixed(s.db, s.txns, o, i, token)
  }

  /** Only bystanders begin. */
  ghost predicate Watching(s: Sys, step: Step, o: OrgId, i: InviteId, token: TokenHash) {
    step.Begin? ==>
      && Bystands(step.op, o, i, token)
      && forall t :: t in s.txns && Enters(s.txns[t].op, token) ==> Apart(s.txns[t].op, step.op)
  }

  // ---- one transaction ----

  lemma Located(c: Db, o: OrgId, i: InviteId, token: TokenHash, t: Txn)
    requires TokensUnique(c) && Open(c, o, i, token) && Entrant(c, o, i, t.op) && Knows(c, t)
    ensures Locate(c, t.op.presented) == At(o, i)
    ensures t.phase.Using? || t.phase.NewPerson? || t.phase.Welcoming? ==>
              t.phase.org == o && t.phase.invite == i
  {
    assert Presents(c, t.op.presented, o, i);
  }

  /** The operation of a transaction stays the one it began with, up to what lock_actor saw. */
  lemma SameKind(c: Db, t: Txn)
    requires Advance(c, t).Continue?
    ensures Advance(c, t).op == t.op || (t.op.InOrg? && Advance(c, t).op.InOrg?)
  {}

  /** An entrant aborts only when every place is taken. */
  lemma AbortsWhenFull(c: Db, o: OrgId, i: InviteId, token: TokenHash, t: Txn)
    requires TokensUnique(c) && Open(c, o, i, token) && Entrant(c, o, i, t.op) && Knows(c, t) && Advance(c, t).Abort?
    ensures R.Places(c, o, i) <= 0
  {
    Located(c, o, i, token, t);
  }

  lemma EntrantLands(c: Db, o: OrgId, i: InviteId, token: TokenHash, op: Op, d: Db)
    requires TokensUnique(c) && Open(c, o, i, token) && Entrant(c, o, i, op) && Land(c, op) == Result(Done, d)
    ensures R.Places(c, o, i) > 0 && d == R.JoinedDb(c, o, i, op)
    ensures Open(d, o, i, token) && R.Places(d, o, i) == R.Places(c, o, i) - 1
  {
    assert R.Contenders(c, o, i, [op]);
    R.FirstContender(c, o, i, [op]);
  }

  /** A bystander leaves the invite as it is. */
  lemma BystanderLands(c: Db, o: OrgId, i: InviteId, token: TokenHash, op: Op)
    requires TokensUnique(c) && Open(c, o, i, token) && Bystands(op, o, i, token)
    ensures var d := Land(c, op).db;
            o in d.orgs && i in d.orgs[o].invites && d.orgs[o].invites[i] == c.orgs[o].invites[i]
  {
    if op.InOrg? { R.InvitesUntouched(c, op); }
    else if op.AcceptInvite? {
      var l := Locate(c, op.presented);
      assert l.At? ==> !(l.org == o && l.invite == i);
    }
  }

  /** What lands makes up no person but its own. */
  lemma PeopleAfter(c: Db, op: Op)
    ensures forall a :: a in Land(c, op).db.actors && a !in c.actors ==> MakesPerson(op) && a == op.actor
    ensures forall a :: a in Land(c, op).db.users && a !in c.users ==>
              MakesPerson(op) && Land(c, op).db.users[a].email == op.email
  {}

  lemma PersonKept(c: Db, op: Op, a: ActorId)
    requires MakesPerson(op) && a in Land(c, op).db.users && a != op.actor
    ensures a in c.users && Land(c, op).db.users[a] == c.users[a]
  {}

  lemma NewPersonEmail(c: Db, op: Op)
    requires MakesPerson(op) && op.actor in Land(c, op).db.users
    ensures Land(c, op).db.users[op.actor].email == op.email
            || (op.actor in c.users && Land(c, op).db.users[op.actor] == c.users[op.actor])
  {}

  lemma StillEntrant(c: Db, o: OrgId, i: InviteId, token: TokenHash, op: Op, other: Op)
    requires Open(c, o, i, token) && Entrant(c, o, i, other) && Apart(other, op)
    requires var d := Land(c, op).db;
             o in d.orgs && i in d.orgs[o].invites && d.orgs[o].invites[i].token == token
             && d.orgs[o].invites[i].expires == c.orgs[o].invites[i].expires
    ensures Entrant(Land(c, op).db, o, i, other)
  {
    var d := Land(c, op).db;
    PeopleAfter(c, op);
    forall a | a in d.users ensures Lower(d.users[a].email) != Lower(other.email) {
      if MakesPerson(op) {
        if a == op.actor { NewPersonEmail(c, op); } else { PersonKept(c, op, a); }
      }
    }
  }

  // ---- one step ----

  lemma CommitContests(s: Sys, o: OrgId, i: InviteId, token: TokenHash, id: nat, d: Db)
    requires Contest(s, o, i, token) && id in s.txns && Advance(s.db, s.txns[id]) == Commit(d)
    ensures Open(d, o, i, token)
    ensures R.Places(d, o, i) == R.Places(s.db, o, i) - if Enters(s.txns[id].op, token) then 1 else 0
    ensures Mixed(d, s.txns - {id}, o, i, token)
  {
    var op := s.txns[id].op;
    AlwaysSerializes(s.db, s.txns[id]);
    if Enters(op, token) { EntrantLands(s.db, o, i, token, op, d); } else { BystanderLands(s.db, o, i, token, op); }
    OthersStayMixed(s.db, s.txns, o, i, token, id);
  }

  lemma OthersStayMixed(c: Db, txns: map<nat, Txn>, o: OrgId, i: InviteId, token: TokenHash, id: nat)
    requires Open(c, o, i, token) && Mixed(c, txns, o, i, token) && id in txns
    requires var d := Land(c, txns[id].op).db;
             o in d.orgs && i in d.orgs[o].invites && d.orgs[o].invites[i].token == token
             && d.orgs[o].invites[i].expires == c.orgs[o].invites[i].expires
    ensures Mixed(Land(c, txns[id].op).db, txns - {id}, o, i, token)
  {
    var op := txns[id].op;
    forall t | t in txns && t != id && Enters(txns[t].op, token)
      ensures Entrant(Land(c, op).db, o, i, txns[t].op)
    {
      assert Apart(txns[t].op, op);
      StillEntrant(c, o, i, token, op, txns[t].op);
    }
  }

  /** A transaction goes on with the operation it began with, or a bystander begins. */
  lemma StaysMixed(c: Db, txns: map<nat, Txn>, o: OrgId, i: InviteId, token: TokenHash, id: nat, t: Txn)
    requires o in c.orgs && i in c.orgs[o].invites && Mixed(c, txns, o, i, token)
    requires if id in txns then t.op == txns[id].op || (t.op.InOrg? && txns[id].op.InOrg?)
             else Bystands(t.op, o, i, token)
                  && forall u :: u in txns && Enters(txns[u].op, token) ==> Apart(txns[u].op, t.op)
    ensures Mixed(c, txns[id := t], o, i, token)
  {}

  lemma StepContests(s: Sys, o: OrgId, i: InviteId, token: TokenHash, step: Step)
    requires Contest(s, o, i, token) && Enabled(s, step) && Watching(s, step, o, i, token)
    ensures Contest(Do(s, step), o, i, token)
  {
    StepKeeps(s, step);
    if step.Run? {
      match Advance(s.db, s.txns[step.id])
      case Commit(d) => CommitContests(s, o, i, token, step.id, d);
      case Abort =>
      case Continue(op, phase) =>
        SameKind(s.db, s.txns[step.id]);
        StaysMixed(s.db, s.txns, o, i, token, step.id, Do(s, step).txns[step.id]);
    } else if step.Begin? {
      StaysMixed(s.db, s.txns, o, i, token, step.id, Txn(step.op, Start, {}));
    }
  }

  function Entrants(txns: map<nat, Txn>, token: TokenHash): set<nat> {
    set t | t in txns && Enters(txns[t].op, token)
  }

  function Entered(ops: seq<Op>, token: TokenHash): nat {
    if ops == [] then 0 else (if Enters(ops[0], token) then 1 else 0) + Entered(ops[1..], token)
  }

  predicate CrashesEntrant(s: Sys, step: Step, token: TokenHash) {
    step.Crash? && step.id in s.txns && Enters(s.txns[step.id].op, token)
  }

  /** A step commits one entrant, which takes a place; or drops one, which crashed or found no place; or neither. */
  ghost predicate Tallies(s: Sys, o: OrgId, i: InviteId, token: TokenHash, step: Step)
    requires Enabled(s, step) && Open(s.db, o, i, token) && Open(Do(s, step).db, o, i, token)
  {
    var n, c := Do(s, step), Entered(CommittedBy(s, step), token);
    var left, now, places := |Entrants(s.txns, token)|, |Entrants(n.txns, token)|, R.Places(s.db, o, i);
    && R.Places(n.db, o, i) == places - c
    && if CrashesEntrant(s, step, token) then now == left - 1 && c == 0
       else (c == 1 && now == left - 1) || (c == 0 && now == left) || (c == 0 && now == left - 1 && places <= 0)
  }

  lemma Drops(txns: map<nat, Txn>, id: nat, token: TokenHash)
    requires id in txns
    ensures |Entrants(txns - {id}, token)| == |Entrants(txns, token)| - if Enters(txns[id].op, token) then 1 else 0
  {
    assert Entrants(txns - {id}, token) == Entrants(txns, token) - {id};
  }

  lemma Stays(txns: map<nat, Txn>, id: nat, t: Txn, token: TokenHash)
    requires if id in txns then Enters(txns[id].op, token) == Enters(t.op, token) else !Enters(t.op, token)
    ensures Entrants(txns[id := t], token) == Entrants(txns, token)
  {}

  lemma EnteredOne(op: Op, token: TokenHash)
    ensures Entered([op], token) == if Enters(op, token) then 1 else 0
  {
    assert [op][1..] == [];
  }

  lemma CommitTallies(s: Sys, o: OrgId, i: InviteId, token: TokenHash, id: nat, d: Db)
    requires Enabled(s, Run(id)) && Advance(s.db, s.txns[id]) == Commit(d)
    requires Open(s.db, o, i, token) && Open(d, o, i, token)
    requires R.Places(d, o, i) == R.Places(s.db, o, i) - if Enters(s.txns[id].op, token) then 1 else 0
    ensures Tallies(s, o, i, token, Run(id))
  {
    Drops(s.txns, id, token);
    EnteredOne(s.txns[id].op, token);
  }

  lemma OtherTallies(s: Sys, o: OrgId, i: InviteId, token: TokenHash, step: Step)
    requires Enabled(s, step) && Open(s.db, o, i, token) && (step.Begin? ==> !Enters(step.op, token))
    requires step.Run? ==> !Advance(s.db, s.txns[step.id]).Commit?
    requires step.Run? && Advance(s.db, s.txns[step.id]).Abort? && Enters(s.txns[step.id].op, token) ==>
               R.Places(s.db, o, i) <= 0
    ensures Open(Do(s, step).db, o, i, token) && Tallies(s, o, i, token, step)
  {
    if step.Begin? {
      Stays(s.txns, step.id, Txn(step.op, Start, {}), token);
    } else if step.Run? && Advance(s.db, s.txns[step.id]).Continue? {
      SameKind(s.db, s.txns[step.id]);
      Stays(s.txns, step.id, Do(s, step).txns[step.id], token);
    } else {
      Drops(s.txns, step.id, token);
    }
  }

  lemma CommittedTallies(s: Sys, o: OrgId, i: InviteId, token: TokenHash, id: nat)
    requires Contest(s, o, i, token) && Enabled(s, Run(id)) && Advance(s.db, s.txns[id]).Commit?
    ensures Open(Do(s, Run(id)).db, o, i, token) && Tallies(s, o, i, token, Run(id))
  {
    var d := Advance(s.db, s.txns[id]).db;
    CommitContests(s, o, i, token, id, d);
    CommitTallies(s, o, i, token, id, d);
  }

  lemma StepTallies(s: Sys, o: OrgId, i: InviteId, token: TokenHash, step: Step)
    requires Contest(s, o, i, token) && Enabled(s, step) && Watching(s, step, o, i, token)
    ensures Open(Do(s, step).db, o, i, token) && Tallies(s, o, i, token, step)
  {
    if step.Run? && Advance(s.db, s.txns[step.id]).Commit? {
      CommittedTallies(s, o, i, token, step.id);
    } else {
      if step.Run? && Advance(s.db, s.txns[step.id]).Abort? && Enters(s.txns[step.id].op, token) {
        AbortsWhenFull(s.db, o, i, token, s.txns[step.id]);
      }
      OtherTallies(s, o, i, token, step);
    }
  }

  function Min(a: int, b: int): int {
    if a <= b then a else b
  }

  /** The count for the rest of a run gives the count for the whole. */
  lemma Adds(left: nat, crashes: nat, places: int, c: nat, crash: bool, left': nat, rest: int)
    requires places >= c && rest == Min(left' - crashes, places - c)
    requires if crash then left' == left - 1 && c == 0
             else (c == 1 && left' == left - 1) || (c == 0 && left' == left)
                  || (c == 0 && left' == left - 1 && places == 0 && crashes <= left')
    ensures c + rest == Min(left - ((if crash then 1 else 0) + crashes), places)
  {}

  // ---- runs ----

  /** How many entrants crash along the run. */
  ghost function Crashes(s: Sys, steps: seq<Step>, token: TokenHash): nat
    requires IsRun(s, steps)
    decreases |steps|
  {
    if steps == [] then 0
    else (if CrashesEntrant(s, steps[0], token) then 1 else 0) + Crashes(Do(s, steps[0]), steps[1..], token)
  }

  /** The run commits exactly min(n - c, r): n entrants in flight, c of them crashing, r places left. */
  ghost predicate FillsPlaces(s: Sys, o: OrgId, i: InviteId, token: TokenHash, steps: seq<Step>) {
    && IsRun(s, steps) && Open(s.db, o, i, token)
    && Entered(Committed(s, steps), token)
       == Min(|Entrants(s.txns, token)| - Crashes(s, steps, token), R.Places(s.db, o, i))
  }

  lemma {:induction false} EnteredConcat(a: seq<Op>, b: seq<Op>, token: TokenHash)
    ensures Entered(a + b, token) == Entered(a, token) + Entered(b, token)
    decreases |a|
  {
    if a == [] {
      assert a + b == b;
    } else {
      assert (a + b)[1..] == a[1..] + b;
      EnteredConcat(a[1..], b, token);
    }
  }

  lemma RunUnrolls(s: Sys, steps: seq<Step>, token: TokenHash)
    requires IsRun(s, steps) && steps != []
    ensures Enabled(s, steps[0]) && IsRun(Do(s, steps[0]), steps[1..])
    ensures Reached(s, steps) == Reached(Do(s, steps[0]), steps[1..])
    ensures Entered(Committed(s, steps), token)
            == Entered(CommittedBy(s, steps[0]), token) + Entered(Committed(Do(s, steps[0]), steps[1..]), token)
    ensures Crashes(s, steps, token)
            == (if CrashesEntrant(s, steps[0], token) then 1 else 0) + Crashes(Do(s, steps[0]), steps[1..], token)
  {
    EnteredConcat(CommittedBy(s, steps[0]), Committed(Do(s, steps[0]), steps[1..]), token);
  }

  lemma NoSteps(s: Sys, token: TokenHash)
    ensures IsRun(s, []) && Reached(s, []) == s && Committed(s, []) == [] && Crashes(s, [], token) == 0
  {}

  /** An invariant under which every allowed step tallies. */
  ghost predicate Tallied(inv: Sys -> bool, ok: (Sys, Step) -> bool, o: OrgId, i: InviteId, token: TokenHash) {
    && (forall s :: inv(s) ==> Open(s.db, o, i, token) && R.Places(s.db, o, i) >= 0)
    && (forall s, step :: inv(s) && Enabled(s, step) && ok(s, step) ==>
          inv(Do(s, step)) && Tallies(s, o, i, token, step))
  }

  lemma StepInv(inv: Sys -> bool, ok: (Sys, Step) -> bool, s: Sys, o: OrgId, i: InviteId, token: TokenHash, step: Step)
    requires Tallied(inv, ok, o, i, token) && inv(s) && Enabled(s, step) && ok(s, step)
    ensures inv(Do(s, step)) && Open(s.db, o, i, token) && Open(Do(s, step).db, o, i, token)
    ensures Tallies(s, o, i, token, step) && R.Places(s.db, o, i) >= 0 && R.Places(Do(s, step).db, o, i) >= 0
  {}

  /** A crash takes an entrant with it. */
  lemma {:induction false} CrashesAreEntrants(inv: Sys -> bool, ok: (Sys, Step) -> bool, s: Sys, o: OrgId, i: InviteId,
                                              token: TokenHash, steps: seq<Step>)
    requires Tallied(inv, ok, o, i, token) && inv(s) && IsRun(s, steps) && Always(ok, s, steps)
    ensures Crashes(s, steps, token) <= |Entrants(s.txns, token)|
    decreases |steps|
  {
    if steps != [] {
      StepInv(inv, ok, s, o, i, token, steps[0]);
      CrashesAreEntrants(inv, ok, Do(s, steps[0]), o, i, token, steps[1..]);
    }
  }

  lemma FillsBackwards(s: Sys, o: OrgId, i: InviteId, token: TokenHash, steps: seq<Step>)
    requires IsRun(s, steps) && steps != []
    requires Open(s.db, o, i, token) && Open(Do(s, steps[0]).db, o, i, token) && Tallies(s, o, i, token, steps[0])
    requires R.Places(s.db, o, i) >= 0 && R.Places(Do(s, steps[0]).db, o, i) >= 0
    requires Crashes(Do(s, steps[0]), steps[1..], token) <= |Entrants(Do(s, steps[0]).txns, token)|
    requires FillsPlaces(Do(s, steps[0]), o, i, token, steps[1..])
    ensures FillsPlaces(s, o, i, token, steps)
  {
    var step, n := steps[0], Do(s, steps[0]);
    RunUnrolls(s, steps, token);
    Adds(|Entrants(s.txns, token)|, Crashes(n, steps[1..], token), R.Places(s.db, o, i),
         Entered(CommittedBy(s, step), token), CrashesEntrant(s, step, token), |Entrants(n.txns, token)|,
         Entered(Committed(n, steps[1..]), token));
  }

  lemma {:induction false} TalliesAdd(inv: Sys -> bool, ok: (Sys, Step) -> bool, s: Sys, o: OrgId, i: InviteId,
                                      token: TokenHash, steps: seq<Step>)
    requires Tallied(inv, ok, o, i, token) && inv(s) && IsRun(s, steps) && Always(ok, s, steps)
    requires Entrants(Reached(s, steps).txns, token) == {}
    ensures FillsPlaces(s, o, i, token, steps)
    decreases |steps|
  {
    if steps == [] {
      NoSteps(s, token);
    } else {
      RunUnrolls(s, steps, token);
      StepInv(inv, ok, s, o, i, token, steps[0]);
      TalliesAdd(inv, ok, Do(s, steps[0]), o, i, token, steps[1..]);
      CrashesAreEntrants(inv, ok, Do(s, steps[0]), o, i, token, steps[1..]);
      FillsBackwards(s, o, i, token, steps);
    }
  }

  lemma ContestsTally(o: OrgId, i: InviteId, token: TokenHash)
    ensures Tallied(s => Contest(s, o, i, token), (s, step) => Watching(s, step, o, i, token), o, i, token)
  {
    forall s | Contest(s, o, i, token) ensures R.Places(s.db, o, i) >= 0 { R.PlacesLeft(s.db, o, i); }
    forall s, step | Contest(s, o, i, token) && Enabled(s, step) && Watching(s, step, o, i, token)
      ensures Contest(Do(s, step), o, i, token) && Tallies(s, o, i, token, step)
    {
      StepContests(s, o, i, token, step);
      StepTallies(s, o, i, token, step);
    }
  }

  /** However n acceptances of one invite interleave with each other and with anything that neither uses nor revokes it,
      if c of them crash and r places were left then exactly min(n - c, r) of them commit by the time none is in flight:
      a crashed or refused acceptance keeps no place. */
  lemma PlacesFillConcurrently(s: Sys, o: OrgId, i: InviteId, token: TokenHash, steps: seq<Step>)
    requires Contest(s, o, i, token) && IsRun(s, steps)
    requires Always((n, step) => Watching(n, step, o, i, token), s, steps)
    requires Entrants(Reached(s, steps).txns, token) == {}
    ensures FillsPlaces(s, o, i, token, steps)
  {
    ContestsTally(o, i, token);
    TalliesAdd(n => Contest(n, o, i, token), (n, step) => Watching(n, step, o, i, token), s, o, i, token, steps);
  }
}
