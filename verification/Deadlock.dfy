/** No ring of transactions waits on itself: the waits climb from actors through organizations to invites. */
module Deadlock {
  import opened Domain
  import opened Store
  import opened Operations
  import opened Integrity
  import opened Transactions
  import opened Rely
  import opened Serial
  import opened Owners
  import opened Runs
  import opened Scripts

  // ---- which locks a transaction can hold where ----

  ghost predicate ShapeInOrg(op: Op, phase: Phase, held: set<Hold>)
    requires op.InOrg?
  {
    forall h :: h in held ==>
      || (h.resource.ActorRow? && h.mode.Share?)
      || ((phase.Rows? || phase.Owners? || phase.Writing?) && h == Hold(OrgRow(op.org), Update))
  }

  ghost predicate ShapeInvite(op: Op, phase: Phase, held: set<Hold>)
    requires op.CreateInvite? || op.RevokeInvite?
  {
    forall h :: h in held ==>
      || (h.resource.ActorRow? && h.mode.Share?)
      || (!(phase.Start? || phase.ActorLocks? || phase.OrgLock?) && h == Hold(OrgRow(op.org), Share))
      || ((phase.Inviting? || phase.RevokeLock? || phase.Revoking?)
          && h == Hold(MemberRow(op.org, op.performer), Share))
      || (phase.Revoking? && h.resource.InviteRow?)
      || ((phase.Inviting? || phase.Revoking?) && h.mode.KeyShare? && (h.resource.ActorRow? || h.resource.OrgRow?))
  }

  ghost predicate ShapeAccept(op: Op, phase: Phase, held: set<Hold>)
    requires op.AcceptInvite?
  {
    match phase
    case Start => held == {}
    case Using(_, _) => held == {}
    case NewPerson(o, i) => forall h :: h in held ==> h == Hold(InviteRow(o, i), NoKeyUpdate)
    case Joining(o, i) => forall h :: h in held ==> h == Hold(InviteRow(o, i), NoKeyUpdate) || OwnKey(op, h)
    case Welcoming(o, i) =>
      forall h :: h in held ==>
        h == Hold(InviteRow(o, i), NoKeyUpdate) || OwnKey(op, h) || h == Hold(OrgRow(o), KeyShare)
    case _ => false
  }

  ghost predicate OwnKey(op: Op, h: Hold)
    requires op.AcceptInvite?
  {
    h == Hold(ActorRow(op.actor), Update) || h == Hold(EmailKey(Lower(op.email)), Update)
  }

  predicate HasGot(phase: Phase) {
    phase.Sweep? || phase.SweepAudit? || phase.Listings? || phase.ListingAudit? || phase.Finish?
  }

  ghost predicate ShapeLeave(a: ActorId, phase: Phase, held: set<Hold>) {
    && (phase.Start? ==> held == {})
    && (forall h :: h in held ==>
          || h.resource == ActorRow(a)
          || (h.resource.OrgRow? && !phase.Scan?)
          || (h.resource.TeamRow? && h.resource.actor == a && HasGot(phase) && h.resource.org in phase.got.statuses))
    && (phase.OrgLocks? ==> forall h, o :: h in held && h.resource.OrgRow? && o in phase.orgs ==> h.resource.org < o)
  }

  ghost predicate Shape(t: Txn) {
    match t.op
    case InOrg(_, _, _, _) => ShapeInOrg(t.op, t.phase, t.held)
    case CreateInvite(_, _, _, _, _, _) => ShapeInvite(t.op, t.phase, t.held)
    case RevokeInvite(_, _, _) => ShapeInvite(t.op, t.phase, t.held)
    case AcceptInvite(_, _, _, _, _, _) => ShapeAccept(t.op, t.phase, t.held)
    case CreatePerson(_, _, _, _) => t.held == {}
    case CreateOrganization(_, _, _) =>
      forall h :: h in t.held ==> h.resource.ActorRow? && h.mode.Share? && !t.phase.Start?
    case LeaveService(a) => ShapeLeave(a, t.phase, t.held)
    case SignIn(_, _, _, _) =>
      forall h :: h in t.held ==>
        h.resource.ActorRow? && h.mode.Share? && (t.phase.Rereading? || t.phase.Present?)
  }

  ghost predicate StillShaped(c: Db, t: Txn) {
    var r := Advance(c, t);
    r.Continue? ==> Shape(Txn(r.op, r.phase, t.held + Taken(c, t)))
  }

  lemma InOrgShaped(c: Db, t: Txn)
    requires t.op.InOrg? && Shape(t)
    ensures StillShaped(c, t)
  {
    match t.phase
    case Start =>
    case ActorLocks(todo, _) =>
    case OrgLock(_) =>
    case Rows(_) =>
    case Owners(_, _) =>
    case _ =>
  }

  lemma InviteShaped(c: Db, t: Txn)
    requires (t.op.CreateInvite? || t.op.RevokeInvite?) && Shape(t)
    ensures StillShaped(c, t)
  {}

  lemma AcceptShaped(c: Db, t: Txn)
    requires t.op.AcceptInvite? && Shape(t)
    ensures StillShaped(c, t)
  {
    match t.phase
    case Start =>
    case Using(_, _) =>
    case NewPerson(_, _) =>
    case Joining(_, _) =>
    case _ =>
  }

  lemma OtherShaped(c: Db, t: Txn)
    requires (t.op.CreatePerson? || t.op.CreateOrganization? || t.op.SignIn?) && Shape(t) && Knows(c, t)
    ensures StillShaped(c, t)
  {}

  lemma LeaveShaped(c: Db, t: Txn)
    requires t.op.LeaveService? && Shape(t) && Knows(c, t)
    ensures StillShaped(c, t)
  {
    if HasGot(t.phase) { GatherShaped(c, t); } else { LockShaped(c, t); }
  }

  lemma LockShaped(c: Db, t: Txn)
    requires t.op.LeaveService? && ShapeLeave(t.op.actor, t.phase, t.held) && Knows(c, t) && !HasGot(t.phase)
    ensures StillShaped(c, t)
  {
    var phase := t.phase;
    if phase.OrgLocks? && phase.orgs != [] {
      assert forall o :: o in phase.orgs[1..] ==> o in phase.orgs && phase.orgs[0] < o;
    }
  }

  lemma GatherShaped(c: Db, t: Txn)
    requires t.op.LeaveService? && ShapeLeave(t.op.actor, t.phase, t.held) && HasGot(t.phase)
    requires t.phase.Sweep? ==> forall o :: o in t.phase.orgs ==> o in t.phase.got.statuses
    ensures StillShaped(c, t)
  {
    var a := t.op.actor;
    forall h | h in Taken(c, t)
      ensures h.resource == ActorRow(a) || h.resource.OrgRow? || t.phase.Finish?
              || (h.resource.TeamRow? && h.resource.actor == a && h.resource.org in t.phase.got.statuses)
    {}
  }

  lemma AlwaysShaped(c: Db, t: Txn)
    requires Shape(t) && Knows(c, t)
    ensures StillShaped(c, t)
  {
    if t.op.InOrg? { InOrgShaped(c, t); }
    else if t.op.CreateInvite? || t.op.RevokeInvite? { InviteShaped(c, t); }
    else if t.op.AcceptInvite? { AcceptShaped(c, t); }
    else if t.op.LeaveService? { LeaveShaped(c, t); }
    else { OtherShaped(c, t); }
  }

  // ---- which actors a transaction has locked ----

  /** An operation starts found if its performer exists and, adding a team member, it sees the target or can never be a
      member beside it. */
  ghost predicate FoundStart(c: Db, t: Txn) {
    Scoped(t.op) && t.phase.Start? ==>
      && t.op.performer in c.actors
      && (t.op.InOrg? && t.op.change.AddTeamMember? ==>
            t.op.change.target in VisibleActors(c, t.op.performer, t.op.change.target)
            || Strangers(c, t.op.performer, t.op.org, t.op.change.target))
  }

  /** What callers owe: team additions start safely, and operations are performed by actors that exist. */
  ghost predicate Proper(s: Sys, step: Step) {
    step.Run? && step.id in s.txns ==> FoundStart(s.db, s.txns[step.id])
  }

  ghost predicate LocksActor(t: Txn, a: ActorId) {
    Hold(ActorRow(a), Share) in t.held || (t.phase.ActorLocks? && a in t.phase.todo)
  }

  /** lock_actor found and locked, or is about to lock, the rows later foreign keys will reference. */
  ghost predicate Found(c: Db, t: Txn) {
    Scoped(t.op) && !t.phase.Start? ==>
      && LocksActor(t, t.op.performer)
      && (t.op.InOrg? && t.op.change.AddTeamMember? ==>
            LocksActor(t, t.op.change.target) || Strangers(c, t.op.performer, t.op.org, t.op.change.target))
  }

  lemma StartFinds(c: Db, t: Txn)
    requires Scoped(t.op) && t.phase.Start? && FoundStart(c, t) && Advance(c, t).Continue?
    ensures Found(c, Txn(Advance(c, t).op, Advance(c, t).phase, t.held + Taken(c, t)))
  {
    var p := t.op.performer;
    assert Sees(c, p, p);
    assert t.op.InOrg? && t.op.change.LocksTarget() ==> p in VisibleActors(c, p, t.op.change.target);
    assert p in VisibleActors(c, p, p);
  }

  lemma FindsOn(c: Db, t: Txn)
    requires Found(c, t) && FoundStart(c, t) && Advance(c, t).Continue?
    ensures Found(c, Txn(Advance(c, t).op, Advance(c, t).phase, t.held + Taken(c, t)))
  {
    if Scoped(t.op) {
      if t.phase.Start? { StartFinds(c, t); }
      else if t.op.InOrg? { ChangeFindsOn(c, t); }
      else { InviteFindsOn(c, t); }
    } else if t.op.LeaveService? { LeaveStays(c, t); }
    else { OtherStays(c, t); }
  }

  lemma ChangeFindsOn(c: Db, t: Txn)
    requires t.op.InOrg? && !t.phase.Start? && Found(c, t) && Advance(c, t).Continue?
    ensures Found(c, Txn(Advance(c, t).op, Advance(c, t).phase, t.held + Taken(c, t)))
  {
    if t.phase.ActorLocks? && t.phase.todo != [] {
      assert forall x :: x in t.phase.todo <==> x == t.phase.todo[0] || x in t.phase.todo[1..];
      assert Hold(ActorRow(t.phase.todo[0]), Share) in Taken(c, t);
    }
  }

  lemma InviteFindsOn(c: Db, t: Txn)
    requires (t.op.CreateInvite? || t.op.RevokeInvite?) && !t.phase.Start? && Found(c, t) && Advance(c, t).Continue?
    ensures Found(c, Txn(Advance(c, t).op, Advance(c, t).phase, t.held + Taken(c, t)))
  {
    if t.phase.ActorLocks? && t.phase.todo != [] {
      assert forall x :: x in t.phase.todo <==> x == t.phase.todo[0] || x in t.phase.todo[1..];
      assert Hold(ActorRow(t.phase.todo[0]), Share) in Taken(c, t);
    }
  }

  lemma FoundStable(c: Db, d: Db, h: set<Hold>, t: Txn)
    requires Guarantee(c, d, h) && Found(c, t)
    ensures Found(d, t)
  {
    if t.op.InOrg? && t.op.change.AddTeamMember? && Strangers(c, t.op.performer, t.op.org, t.op.change.target) {
      StrangersStable(c, d, h, t.op.performer, t.op.org, t.op.change.target);
    }
  }

  // ---- proper runs ----

  lemma ProperIsLenient()
    ensures Lenient(Proper)
  {}

  /** What every transaction in flight is known to hold and to know. */
  ghost predicate Tidy(s: Sys) {
    forall id :: id in s.txns ==> Shape(s.txns[id]) && Found(s.db, s.txns[id])
  }

  lemma StepTidy(s: Sys, step: Step)
    requires SysOk(s) && Tidy(s) && Enabled(s, step) && Proper(s, step)
    ensures Tidy(Do(s, step))
  {
    if step.Run? {
      var t := s.txns[step.id];
      match Advance(s.db, t)
      case Continue(_, _) =>
        AlwaysShaped(s.db, t);
        FindsOn(s.db, t);
      case Abort =>
      case Commit(d) =>
        CommitKeeps(s, step.id, d);
        forall j | j in s.txns && j != step.id ensures Found(d, s.txns[j]) {
          FoundStable(s.db, d, t.held + Taken(s.db, t), s.txns[j]);
        }
    }
  }

  lemma {:induction false} RunTidy(s: Sys, steps: seq<Step>)
    requires SysOk(s) && Tidy(s) && IsRun(s, steps) && Always(Proper, s, steps)
    ensures SysOk(Reached(s, steps)) && Tidy(Reached(s, steps))
    decreases |steps|
  {
    if steps != [] {
      StepKeeps(s, steps[0]);
      StepTidy(s, steps[0]);
      RunTidy(Do(s, steps[0]), steps[1..]);
    }
  }

  // ---- waiting ----

  ghost predicate Waits(s: Sys, t: nat, u: nat) {
    && t in s.txns && u in s.txns && t != u
    && exists x, y :: x in Taken(s.db, s.txns[t]) && y in s.txns[u].held && Clash(x, y)
  }

  /** A ring of transactions, each waiting for the next and the last for the first. */
  ghost predicate Ring(s: Sys, ring: seq<nat>) {
    && |ring| > 0
    && forall k {:trigger After(ring, k)} :: 0 <= k < |ring| ==> Waits(s, ring[k], After(ring, k))
  }

  function After(ring: seq<nat>, k: int): nat
    requires 0 <= k < |ring|
  {
    if k + 1 < |ring| then ring[k + 1] else ring[0]
  }

  lemma Clashes(s: Sys, t: nat, u: nat, x: Hold, y: Hold)
    requires t in s.txns && u in s.txns && t != u
    requires x in Request(s.txns[t]) && y in s.txns[u].held && Clash(x, y)
    ensures Waits(s, t, u)
  {
    assert x in Taken(s.db, s.txns[t]);
  }

  lemma RingOfTwo(s: Sys, a: nat, b: nat)
    requires Waits(s, a, b) && Waits(s, b, a)
    ensures Ring(s, [a, b])
  {
    forall k {:trigger After([a, b], k)} | 0 <= k < |[a, b]| ensures Waits(s, [a, b][k], After([a, b], k)) {
      assert k == 0 || k == 1;
    }
  }

  /** Only the acceptance that made up a new actor's id can name it before it commits. */
  ghost predicate FreshId(s: Sys, t: nat)
    requires t in s.txns
  {
    s.txns[t].op.AcceptInvite? ==>
      forall u, h :: u in s.txns && u != t && h in s.txns[u].held + Taken(s.db, s.txns[u]) ==>
        h.resource != ActorRow(s.txns[t].op.actor)
  }

  /** A departure about to write a record in an organization it has not locked: the record's foreign key waits for
      whoever holds that organization FOR UPDATE. */
  predicate AwaitsRecord(t: Txn) {
    && t.op.LeaveService? && (t.phase.SweepAudit? || t.phase.ListingAudit?) && t.phase.orgs != []
    && Hold(OrgRow(t.phase.orgs[0]), KeyShare) in Request(t)
    && forall h :: h in t.held ==> h.resource != OrgRow(t.phase.orgs[0])
  }

  /** A row of an organization, or of one of its teams. */
  predicate InOrganization(r: Resource) {
    r.OrgRow? || r.TeamRow?
  }

  /** A departure that holds a row of `o` while it awaits a record in `o'` is one `records(o, o')` admits. */
  ghost predicate RecordsMeet(s: Sys, records: (OrgId, OrgId) -> bool) {
    forall t, h :: t in s.txns && AwaitsRecord(s.txns[t]) && h in s.txns[t].held && InOrganization(h.resource) ==>
      records(h.resource.org, s.txns[t].phase.orgs[0])
  }

  /** An acceptance registering an email that another has registered uncommitted, the first into organization `o`, the
      other waiting to join `o'`, is one `emails(o, o')` admits. */
  ghost predicate EmailsMeet(s: Sys, emails: (OrgId, OrgId) -> bool) {
    forall t, u :: t in s.txns && u in s.txns && t != u && SameEmail(s.txns[t], s.txns[u]) ==>
      emails(s.txns[t].phase.org, s.txns[u].phase.org)
  }

  ghost predicate SameEmail(t: Txn, u: Txn) {
    t.op.AcceptInvite? && u.op.AcceptInvite? && t.phase.NewPerson? && u.phase.Joining?
    && Lower(t.op.email) == Lower(u.op.email)
  }

  /** Ids are fresh, emails meet as `emails` says, and departures await records as `records` says. */
  ghost predicate Orderly(s: Sys, emails: (OrgId, OrgId) -> bool, records: (OrgId, OrgId) -> bool) {
    (forall t :: t in s.txns ==> FreshId(s, t)) && EmailsMeet(s, emails) && RecordsMeet(s, records)
  }

  /** No email is awaited into an earlier organization, and no record beside a row of the same or a later one. */
  ghost predicate Climbing(emails: (OrgId, OrgId) -> bool, records: (OrgId, OrgId) -> bool) {
    (forall o, o' :: emails(o, o') ==> o <= o') && (forall o, o' :: records(o, o') ==> o < o')
  }

  // ---- statements that never wait ----

  /** A KEY SHARE on a row one already holds never waits. */
  lemma OwnRowFree(held: set<Hold>, theirs: set<Hold>, r: Resource, y: Hold)
    requires Compatible(held, theirs) && HoldsRow(held, r) && y in theirs
    ensures !Clash(Hold(r, KeyShare), y)
  {
    var m :| Hold(r, m) in held;
    assert !Clash(Hold(r, m), y);
  }

  lemma MemberHolderHoldsOrg(c: Db, n: Txn, y: Hold)
    requires Knows(c, n) && Shape(n) && y in n.held && y.resource.MemberRow?
    ensures Hold(OrgRow(y.resource.org), Share) in n.held
  {}

  /** A row locked FOR UPDATE is locked by nobody else. */
  lemma UpdateExcludes(mine: set<Hold>, theirs: set<Hold>, r: Resource)
    requires Compatible(mine, theirs) && Hold(r, Update) in mine
    ensures forall mode: Mode :: Hold(r, mode) !in theirs
  {
    forall mode: Mode ensures Hold(r, mode) !in theirs { assert Clash(Hold(r, Update), Hold(r, mode)); }
  }

  /** A writer who holds the organization FOR UPDATE finds its memberships free. */
  lemma MemberFree(c: Db, t: Txn, n: Txn, x: Hold, y: Hold)
    requires Knows(c, n) && Shape(n) && Compatible(t.held, n.held) && x.resource.MemberRow?
    requires Hold(OrgRow(x.resource.org), Update) in t.held && y in n.held
    ensures !Clash(x, y)
  {
    if x.resource == y.resource {
      MemberHolderHoldsOrg(c, n, y);
      UpdateExcludes(t.held, n.held, OrgRow(x.resource.org));
    }
  }

  // ---- ranks ----

  /** The statements that can wait while their transaction holds something. */
  predicate MayWait(t: Txn) {
    || t.phase.ActorLocks? || t.phase.OrgLock?
    || (t.phase.OrgLocks? && t.phase.orgs != [])
    || t.phase.Joining? || t.phase.RevokeLock? || t.phase.NewPerson?
    || (t.op.InOrg? && t.phase.Writing?) || AwaitsRecord(t)
  }

  datatype Rank = Rank(level: nat, org: OrgId, stage: nat)

  predicate Below(a: Rank, b: Rank) {
    a.level < b.level || (a.level == b.level && (a.org < b.org || (a.org == b.org && a.stage < b.stage)))
  }

  /** Actors, then organizations by id; in one organization its row, then a team row or a revoked invite, then a new
      email. */
  function RankOf(t: Txn): Rank {
    match t.phase
    case ActorLocks(_, _) => Rank(1, 0, 0)
    case OrgLock(_) =>
      if t.op.InOrg? || t.op.CreateInvite? || t.op.RevokeInvite? then Rank(2, t.op.org, 0) else Rank(3, 0, 0)
    case OrgLocks(orgs, _) => if orgs == [] then Rank(3, 0, 0) else Rank(2, orgs[0], 0)
    case SweepAudit(orgs, _) => if orgs == [] then Rank(3, 0, 0) else Rank(2, orgs[0], 0)
    case ListingAudit(orgs, _, _) => if orgs == [] then Rank(3, 0, 0) else Rank(2, orgs[0], 0)
    case Writing(_, _, _) => if t.op.InOrg? then Rank(2, t.op.org, 1) else Rank(3, 0, 0)
    case Joining(o, _) => Rank(2, o, 0)
    case RevokeLock => if t.op.RevokeInvite? then Rank(2, t.op.org, 1) else Rank(3, 0, 0)
    case NewPerson(o, _) => Rank(2, o, 2)
    case _ => Rank(3, 0, 0)
  }

  /** A transaction in flight of a proper run, in an orderly state. */
  ghost predicate Good(s: Sys, t: nat) {
    && t in s.txns && Knows(s.db, s.txns[t]) && Shape(s.txns[t])
    && Found(s.db, s.txns[t]) && FreshId(s, t) && RecordsAbove(s.txns[t])
  }

  /** A record is awaited in an organization after all those whose rows are held. */
  ghost predicate RecordsAbove(t: Txn) {
    AwaitsRecord(t) ==>
      forall h :: h in t.held && InOrganization(h.resource) ==> h.resource.org < t.phase.orgs[0]
  }

  ghost predicate Pair(s: Sys, t: nat, u: nat) {
    && Good(s, t) && Good(s, u) && t != u
    && Compatible(s.txns[t].held, s.txns[u].held) && Compatible(s.txns[u].held, s.txns[t].held)
  }

  lemma PairOf(s: Sys, t: nat, u: nat, emails: (OrgId, OrgId) -> bool, records: (OrgId, OrgId) -> bool)
    requires SysOk(s) && Tidy(s) && Orderly(s, emails, records) && Climbing(emails, records)
    requires t in s.txns && u in s.txns && t != u
    ensures Pair(s, t, u)
  {
    IsGood(s, t, emails, records);
    IsGood(s, u, emails, records);
  }

  lemma IsGood(s: Sys, t: nat, emails: (OrgId, OrgId) -> bool, records: (OrgId, OrgId) -> bool)
    requires SysOk(s) && Tidy(s) && Orderly(s, emails, records) && Climbing(emails, records) && t in s.txns
    ensures Good(s, t)
  {
    forall h | AwaitsRecord(s.txns[t]) && h in s.txns[t].held && InOrganization(h.resource)
      ensures h.resource.org < s.txns[t].phase.orgs[0]
    {
      assert records(h.resource.org, s.txns[t].phase.orgs[0]);
    }
  }

  /** A change locks nothing but actors, its organization and what it writes. */
  lemma ChangeMayWait(c: Db, m: Txn)
    requires m.op.InOrg? && Taken(c, m) != {}
    ensures MayWait(m)
  {}

  /** The foreign keys of a write reference rows its transaction already holds. */
  lemma WritingKeysHeld(c: Db, m: Txn, x: Hold)
    requires m.op.InOrg? && m.phase.Writing? && Knows(c, m) && Found(c, m)
    requires x in Request(m) && !x.resource.MemberRow? && !x.resource.TeamRow?
    ensures x.mode.KeyShare? && HoldsRow(m.held, x.resource)
  {
    var o, p, change := m.op.org, m.op.performer, m.op.change;
    assert Hold(OrgRow(o), Update) in m.held && Hold(ActorRow(p), Share) in m.held;
    if x in ReferencedRows(o, change) && x.resource.ActorRow? {
      TargetHeld(c, m);
    }
  }

  /** An insert that references an actor has that actor's row: unseen targets are refused, and a target seen was
      locked. */
  lemma TargetHeld(c: Db, m: Txn)
    requires m.op.InOrg? && m.phase.Writing? && Knows(c, m) && Found(c, m)
    requires m.op.change.AddTeamMember? || m.op.change.AddChannelMember?
    requires Decide(m.phase.rows, m.phase.owners, m.phase.departed, m.op.performer, m.op.change).Proceed?
    ensures Hold(ActorRow(m.op.change.target), Share) in m.held
  {
    if m.op.change.AddTeamMember? && m.op.performer != m.op.change.target {
      assert !Strangers(c, m.op.performer, m.op.org, m.op.change.target);
    }
  }

  lemma InviteKeyHeld(c: Db, m: Txn, x: Hold)
    requires (m.op.CreateInvite? || m.op.RevokeInvite?) && (m.phase.Inviting? || m.phase.Revoking?)
    requires Knows(c, m) && Found(c, m) && x in Request(m)
    ensures x.mode.KeyShare? && HoldsRow(m.held, x.resource)
  {
    assert x in AuditLocks(m.op.org, m.op.performer);
    assert Hold(OrgRow(m.op.org), Share) in m.held && Hold(ActorRow(m.op.performer), Share) in m.held;
  }

  lemma InviteQuiet(s: Sys, t: nat, u: nat, x: Hold, y: Hold)
    requires Pair(s, t, u) && (s.txns[t].op.CreateInvite? || s.txns[t].op.RevokeInvite?) && !MayWait(s.txns[t])
    requires x in Taken(s.db, s.txns[t]) && y in s.txns[u].held
    ensures !Clash(x, y)
  {
    var m, n := s.txns[t], s.txns[u];
    if m.phase.Inviting? || m.phase.Revoking? {
      InviteKeyHeld(s.db, m, x);
      OwnRowFree(m.held, n.held, x.resource, y);
    } else if y.resource.MemberRow? {
      assert y.mode.Share?;
    }
  }

  lemma AcceptQuiet(s: Sys, t: nat, u: nat, x: Hold, y: Hold)
    requires Pair(s, t, u) && s.txns[t].op.AcceptInvite? && !MayWait(s.txns[t]) && s.txns[t].held != {}
    requires x in Taken(s.db, s.txns[t]) && y in s.txns[u].held
    ensures !Clash(x, y)
  {
    var m, n := s.txns[t], s.txns[u];
    assert m.phase.Welcoming?;
    assert Hold(OrgRow(m.phase.org), KeyShare) in m.held && Hold(ActorRow(m.op.actor), Update) in m.held;
    OwnRowFree(m.held, n.held, x.resource, y);
  }

  lemma EmailHolder(n: Txn, y: Hold)
    requires Shape(n) && y in n.held && y.resource.EmailKey?
    ensures n.op.AcceptInvite? && y.resource == EmailKey(Lower(n.op.email)) && (n.phase.Joining? || n.phase.Welcoming?)
  {}

  lemma OtherQuiet(s: Sys, t: nat, u: nat, x: Hold, y: Hold)
    requires Pair(s, t, u) && s.txns[t].held != {}
    requires s.txns[t].op.CreatePerson? || s.txns[t].op.CreateOrganization? || s.txns[t].op.SignIn?
    requires x in Taken(s.db, s.txns[t]) && y in s.txns[u].held
    ensures !Clash(x, y)
  {
    var m := s.txns[t];
    if m.phase.Present? {
      assert Hold(ActorRow(m.phase.person), Share) in m.held;
      OwnRowFree(m.held, s.txns[u].held, x.resource, y);
    }
  }

  lemma LeaveQuiet(s: Sys, t: nat, u: nat, x: Hold, y: Hold)
    requires Pair(s, t, u) && s.txns[t].op.LeaveService? && !MayWait(s.txns[t]) && s.txns[t].held != {}
    requires x in Taken(s.db, s.txns[t]) && y in s.txns[u].held
    ensures !Clash(x, y)
  {
    var m, n := s.txns[t], s.txns[u];
    if m.phase.SweepAudit? || m.phase.ListingAudit? {
      RecordKeyHeld(s.db, m, x);
      OwnRowFree(m.held, n.held, x.resource, y);
    } else if m.phase.Sweep? {
      SweepTakes(s.db, m, x);
      SweepFree(s.db, m, n, x, y);
    } else if m.phase.Finish? {
      FinishTakes(s.db, m, x);
      FinishFree(s.db, m, n, x, y);
    }
  }

  /** A departure's records reference its own actor row, and organizations it has locked unless it awaits the record. */
  lemma RecordKeyHeld(c: Db, m: Txn, x: Hold)
    requires m.op.LeaveService? && (m.phase.SweepAudit? || m.phase.ListingAudit?) && m.phase.orgs != []
    requires Knows(c, m) && x in Request(m) && (x.resource.ActorRow? || !AwaitsRecord(m))
    ensures x.mode.KeyShare? && HoldsRow(m.held, x.resource)
  {
    LeaverHasActor(c, m);
    assert x in AuditLocks(m.phase.orgs[0], m.op.actor);
    if x.resource.OrgRow? {
      var h :| h in m.held && h.resource == x.resource;
      assert Hold(x.resource, h.mode) in m.held;
    } else {
      assert Hold(x.resource, Update) in m.held;
    }
  }

  lemma LeaverHasActor(c: Db, m: Txn)
    requires m.op.LeaveService? && HasGot(m.phase) && Knows(c, m)
    ensures Hold(ActorRow(m.op.actor), Update) in m.held
  {}

  lemma TeamRowHolder(c: Db, n: Txn, y: Hold)
    requires Knows(c, n) && Shape(n) && y in n.held && y.resource.TeamRow?
    ensures Hold(ActorRow(y.resource.actor), Update) in n.held && n.op.LeaveService? && HasGot(n.phase)
  {
    assert n.op.LeaveService?;
  }

  lemma MemberRowHolder(c: Db, n: Txn, y: Hold)
    requires Found(c, n) && Shape(n) && y in n.held && y.resource.MemberRow?
    ensures Hold(ActorRow(y.resource.actor), Share) in n.held
  {}

  lemma SweepTakes(c: Db, m: Txn, x: Hold)
    requires m.op.LeaveService? && m.phase.Sweep? && x in Taken(c, m)
    ensures x.resource.TeamRow? && x.resource.actor == m.op.actor
  {}

  lemma SweepFree(c: Db, m: Txn, n: Txn, x: Hold, y: Hold)
    requires x.resource.TeamRow? && Hold(ActorRow(x.resource.actor), Update) in m.held
    requires Knows(c, n) && Shape(n) && Compatible(m.held, n.held) && y in n.held
    ensures !Clash(x, y)
  {
    if x.resource == y.resource {
      TeamRowHolder(c, n, y);
      UpdateExcludes(m.held, n.held, ActorRow(x.resource.actor));
    }
  }

  lemma FinishTakes(c: Db, m: Txn, x: Hold)
    requires m.op.LeaveService? && m.phase.Finish? && x in Taken(c, m)
    ensures x.resource.MemberRow? && x.resource.actor == m.op.actor
  {}

  /** The only lock others keep on a membership is its own performer's, who also keeps the actor locked. */
  lemma FinishFree(c: Db, m: Txn, n: Txn, x: Hold, y: Hold)
    requires x.resource.MemberRow? && Hold(ActorRow(x.resource.actor), Update) in m.held
    requires Shape(n) && Found(c, n) && Compatible(m.held, n.held) && y in n.held
    ensures !Clash(x, y)
  {
    if x.resource == y.resource {
      MemberRowHolder(c, n, y);
      UpdateExcludes(m.held, n.held, ActorRow(x.resource.actor));
    }
  }

  /** Only a statement that MayWait ever waits while its transaction holds a lock. */
  lemma WaiterMayWait(s: Sys, t: nat, u: nat)
    requires Pair(s, t, u) && Waits(s, t, u) && s.txns[t].held != {}
    ensures MayWait(s.txns[t])
  {
    var x, y :| x in Taken(s.db, s.txns[t]) && y in s.txns[u].held && Clash(x, y);
    var op := s.txns[t].op;
    if op.InOrg? { ChangeMayWait(s.db, s.txns[t]); }
    else if !MayWait(s.txns[t]) {
      if op.CreateInvite? || op.RevokeInvite? { InviteQuiet(s, t, u, x, y); }
      else if op.AcceptInvite? { AcceptQuiet(s, t, u, x, y); }
      else if op.LeaveService? { LeaveQuiet(s, t, u, x, y); }
      else { OtherQuiet(s, t, u, x, y); }
    }
  }

  // ---- every wait climbs ----

  lemma ActorWaitClimbs(s: Sys, t: nat, u: nat, x: Hold, y: Hold)
    requires Pair(s, t, u) && s.txns[t].phase.ActorLocks? && MayWait(s.txns[u])
    requires x in Taken(s.db, s.txns[t]) && y in s.txns[u].held && Clash(x, y)
    ensures Below(RankOf(s.txns[t]), RankOf(s.txns[u]))
  {
    var n := s.txns[u];
    assert x.resource.ActorRow? && x.mode.Share?;
    assert !n.op.AcceptInvite?;
  }

  predicate WantsOrg(t: Txn) {
    t.phase.OrgLock? || t.phase.OrgLocks? || t.phase.Joining?
  }

  /** A waiting transaction that holds an organization waits for a later one, or for an invite in it. */
  lemma OrgHolderAbove(c: Db, n: Txn, y: Hold)
    requires Knows(c, n) && Shape(n) && RecordsAbove(n) && MayWait(n) && y in n.held && y.resource.OrgRow?
    ensures Below(Rank(2, y.resource.org, 0), RankOf(n))
  {
    if n.op.LeaveService? && !AwaitsRecord(n) {
      assert n.phase.OrgLocks? && n.phase.orgs[0] in n.phase.orgs;
    }
  }

  lemma OrgWaitClimbs(s: Sys, t: nat, u: nat, x: Hold, y: Hold)
    requires t in s.txns && u in s.txns && Knows(s.db, s.txns[u]) && Shape(s.txns[u]) && RecordsAbove(s.txns[u])
    requires MayWait(s.txns[t]) && MayWait(s.txns[u])
    requires x in Taken(s.db, s.txns[t]) && y in s.txns[u].held && Clash(x, y)
    requires x.resource.OrgRow? && RankOf(s.txns[t]) == Rank(2, x.resource.org, 0)
    ensures Below(RankOf(s.txns[t]), RankOf(s.txns[u]))
  {
    OrgHolderAbove(s.db, s.txns[u], y);
  }

  lemma OrgWaiter(c: Db, m: Txn, x: Hold)
    requires Shape(m) && Knows(c, m) && WantsOrg(m) && MayWait(m) && x in Taken(c, m)
    ensures x.resource.OrgRow? && RankOf(m) == Rank(2, x.resource.org, 0)
  {}

  /** The actor row a record references is the departure's own, so what it waits for is the organization. */
  lemma RecordWaiter(c: Db, m: Txn, n: Txn, x: Hold, y: Hold)
    requires Knows(c, m) && AwaitsRecord(m) && Compatible(m.held, n.held)
    requires x in Taken(c, m) && y in n.held && Clash(x, y)
    ensures x.resource.OrgRow? && RankOf(m) == Rank(2, x.resource.org, 0)
  {
    if x.resource.ActorRow? {
      RecordKeyHeld(c, m, x);
      OwnRowFree(m.held, n.held, x.resource, y);
    }
  }

  /** A change waits as it writes only for a team row a departure has removed, itself waiting further up. */
  lemma WriteWaitClimbs(s: Sys, t: nat, u: nat, x: Hold, y: Hold)
    requires Pair(s, t, u) && s.txns[t].op.InOrg? && s.txns[t].phase.Writing? && MayWait(s.txns[u])
    requires x in Taken(s.db, s.txns[t]) && y in s.txns[u].held && Clash(x, y)
    ensures Below(RankOf(s.txns[t]), RankOf(s.txns[u]))
  {
    var m, n := s.txns[t], s.txns[u];
    if x.resource.MemberRow? {
      WriterHoldsOrg(s.db, m, x);
      MemberFree(s.db, m, n, x, y);
    } else if !x.resource.TeamRow? {
      WritingKeysHeld(s.db, m, x);
      OwnRowFree(m.held, n.held, x.resource, y);
    } else {
      WriterHoldsOrg(s.db, m, x);
      RemoverAbove(s.db, n, y);
    }
  }

  lemma RemoverAbove(c: Db, n: Txn, y: Hold)
    requires Knows(c, n) && Shape(n) && RecordsAbove(n) && MayWait(n) && y in n.held && y.resource.TeamRow?
    ensures Below(Rank(2, y.resource.org, 1), RankOf(n))
  {
    TeamRowHolder(c, n, y);
    assert AwaitsRecord(n);
  }

  lemma WriterHoldsOrg(c: Db, m: Txn, x: Hold)
    requires m.op.InOrg? && m.phase.Writing? && Knows(c, m) && x in Taken(c, m)
    requires x.resource.MemberRow? || x.resource.TeamRow?
    ensures x.resource.org == m.op.org && Hold(OrgRow(m.op.org), Update) in m.held
  {}

  /** Whoever holds an organization in SHARE keeps acceptances into it from waiting: they join in KEY SHARE. */
  lemma SharerLetsJoin(s: Sys, t: nat, u: nat, v: nat, o: OrgId)
    requires t in s.txns && Hold(OrgRow(o), Share) in s.txns[t].held
    requires u in s.txns && s.txns[u].op.AcceptInvite? && s.txns[u].phase.Joining? && s.txns[u].phase.org == o
    requires v in s.txns && (v != t ==> Compatible(s.txns[t].held, s.txns[v].held))
    requires v == t ==> forall q :: q in s.txns[t].held && q.resource == OrgRow(o) ==> q.mode.Share?
    ensures !Waits(s, u, v)
  {
    forall p, q | p in Taken(s.db, s.txns[u]) && q in s.txns[v].held ensures !Clash(p, q) {
      assert p == Hold(OrgRow(o), KeyShare);
      assert v != t ==> !Clash(Hold(OrgRow(o), Share), q);
    }
  }

  /** A revocation holds its organization in SHARE, and in no other mode. */
  lemma RevokerShares(c: Db, m: Txn)
    requires m.phase.RevokeLock? && Knows(c, m) && Shape(m)
    ensures m.op.RevokeInvite? && Hold(OrgRow(m.op.org), Share) in m.held
    ensures forall q :: q in m.held && q.resource == OrgRow(m.op.org) ==> q.mode.Share?
  {}

  /** The acceptance a revocation waits for, if it is joining, does not wait itself. */
  lemma RevokeWaitClimbs(s: Sys, t: nat, u: nat, v: nat, x: Hold, y: Hold)
    requires Pair(s, t, u) && s.txns[t].phase.RevokeLock? && MayWait(s.txns[u]) && Waits(s, u, v)
    requires v != t ==> Pair(s, t, v)
    requires x in Taken(s.db, s.txns[t]) && y in s.txns[u].held && Clash(x, y)
    ensures Below(RankOf(s.txns[t]), RankOf(s.txns[u]))
  {
    var m, n := s.txns[t], s.txns[u];
    RevokerShares(s.db, m);
    assert x.resource.InviteRow? && x.resource.org == m.op.org;
    InviteHolder(n, y);
    if n.phase.Joining? { SharerLetsJoin(s, t, u, v, m.op.org); }
  }

  lemma InviteHolder(n: Txn, y: Hold)
    requires Shape(n) && MayWait(n) && y in n.held && y.resource.InviteRow?
    ensures n.op.AcceptInvite? && (n.phase.Joining? || n.phase.NewPerson?) && n.phase.org == y.resource.org
  {}

  lemma InviteWaiter(c: Db, m: Txn, x: Hold)
    requires Knows(c, m) && Shape(m) && m.held != {} && x in Taken(c, m) && x.resource.InviteRow?
    ensures m.phase.RevokeLock? && m.op.RevokeInvite? && x.resource.org == m.op.org
  {}

  lemma UserHolds(n: Txn, y: Hold)
    requires Shape(n) && n.op.AcceptInvite? && n.phase.NewPerson? && y in n.held
    ensures y.resource.InviteRow? && y.resource.org == n.phase.org
  {}

  /** Only revocations of an invite wait for an acceptance that has so far only used it. */
  lemma UserIsAwaitedByRevoker(s: Sys, b: nat, t: nat)
    requires Pair(s, b, t) && s.txns[t].op.AcceptInvite? && s.txns[t].phase.NewPerson? && s.txns[b].held != {}
    requires Waits(s, b, t)
    ensures s.txns[b].phase.RevokeLock? && s.txns[b].op.RevokeInvite? && s.txns[b].op.org == s.txns[t].phase.org
  {
    var x, y :| x in Taken(s.db, s.txns[b]) && y in s.txns[t].held && Clash(x, y);
    UserHolds(s.txns[t], y);
    InviteWaiter(s.db, s.txns[b], x);
  }

  lemma NewPersonTakes(c: Db, m: Txn, x: Hold)
    requires m.phase.NewPerson? && Knows(c, m) && x in Taken(c, m)
    ensures m.op.AcceptInvite? && (x.resource == ActorRow(m.op.actor) || x.resource == EmailKey(Lower(m.op.email)))
  {}

  lemma JoinerWaits(n: Txn)
    requires MayWait(n) && n.op.AcceptInvite? && (n.phase.Joining? || n.phase.Welcoming?)
    ensures n.phase.Joining?
  {}

  /** With its fresh id free, what a new person waits for is its email. */
  lemma EmailAwaited(s: Sys, t: nat, u: nat)
    requires Pair(s, t, u) && Waits(s, t, u) && s.txns[t].phase.NewPerson? && MayWait(s.txns[u])
    ensures SameEmail(s.txns[t], s.txns[u])
  {
    var m, n := s.txns[t], s.txns[u];
    var x, y :| x in Taken(s.db, m) && y in n.held && Clash(x, y);
    NewPersonTakes(s.db, m, x);
    assert y.resource != ActorRow(m.op.actor);
    EmailHolder(n, y);
    JoinerWaits(n);
  }

  /** An acceptance waiting for an email, itself waited for, waits for one into a later organization. */
  lemma EmailWaitClimbs(s: Sys, b: nat, t: nat, u: nat, v: nat, emails: (OrgId, OrgId) -> bool)
    requires Pair(s, b, t) && Pair(s, t, u) && (v != b ==> Pair(s, b, v)) && s.txns[b].held != {}
    requires Waits(s, b, t) && Waits(s, t, u) && Waits(s, u, v) && s.txns[t].phase.NewPerson? && MayWait(s.txns[u])
    requires EmailsMeet(s, emails) && forall o, o' :: emails(o, o') ==> o <= o'
    ensures Below(RankOf(s.txns[t]), RankOf(s.txns[u]))
  {
    var o, o' := s.txns[t].phase.org, 0;
    EmailAwaited(s, t, u);
    o' := s.txns[u].phase.org;
    assert emails(o, o');
    if o == o' { SameOrgJoins(s, b, t, u, v); }
  }

  /** Two acceptances of one email into one organization: the revocation that waits for the first lets the other
      join. */
  lemma SameOrgJoins(s: Sys, b: nat, t: nat, u: nat, v: nat)
    requires Pair(s, b, t) && (v != b ==> Pair(s, b, v)) && s.txns[b].held != {} && Waits(s, b, t)
    requires s.txns[t].op.AcceptInvite? && s.txns[t].phase.NewPerson? && u in s.txns && v in s.txns
    requires s.txns[u].op.AcceptInvite? && s.txns[u].phase.Joining? && s.txns[u].phase.org == s.txns[t].phase.org
    ensures !Waits(s, u, v)
  {
    UserIsAwaitedByRevoker(s, b, t);
    RevokerShares(s.db, s.txns[b]);
    SharerLetsJoin(s, b, u, v, s.txns[t].phase.org);
  }

  lemma WaitClimbs(s: Sys, b: nat, t: nat, u: nat, v: nat, emails: (OrgId, OrgId) -> bool)
    requires Pair(s, b, t) && Pair(s, t, u) && Pair(s, u, v) && (v != t ==> Pair(s, t, v)) && (v != b ==> Pair(s, b, v))
    requires Waits(s, b, t) && Waits(s, t, u) && Waits(s, u, v)
    requires s.txns[b].held != {} && s.txns[t].held != {} && s.txns[u].held != {}
    requires EmailsMeet(s, emails) && forall o, o' :: emails(o, o') ==> o <= o'
    ensures Below(RankOf(s.txns[t]), RankOf(s.txns[u]))
  {
    WaiterMayWait(s, t, u);
    WaiterMayWait(s, u, v);
    if s.txns[t].phase.NewPerson? { EmailWaitClimbs(s, b, t, u, v, emails); }
    else { OtherWaitClimbs(s, t, u, v); }
  }

  lemma OtherWaitClimbs(s: Sys, t: nat, u: nat, v: nat)
    requires Pair(s, t, u) && (v != t ==> Pair(s, t, v)) && Waits(s, t, u) && Waits(s, u, v)
    requires MayWait(s.txns[t]) && MayWait(s.txns[u]) && !s.txns[t].phase.NewPerson?
    ensures Below(RankOf(s.txns[t]), RankOf(s.txns[u]))
  {
    var x, y :| x in Taken(s.db, s.txns[t]) && y in s.txns[u].held && Clash(x, y);
    if s.txns[t].phase.ActorLocks? { ActorWaitClimbs(s, t, u, x, y); }
    else if s.txns[t].phase.RevokeLock? { RevokeWaitClimbs(s, t, u, v, x, y); }
    else if s.txns[t].phase.Writing? { WriteWaitClimbs(s, t, u, x, y); }
    else {
      if AwaitsRecord(s.txns[t]) { RecordWaiter(s.db, s.txns[t], s.txns[u], x, y); }
      else { OrgWaiter(s.db, s.txns[t], x); }
      OrgWaitClimbs(s, t, u, x, y);
    }
  }

  // ---- no ring ----

  lemma RingStep(waits: (nat, nat) -> bool, rank: nat -> Rank, ring: seq<nat>, k: nat)
    requires |ring| > 0 && forall i {:trigger After(ring, i)} :: 0 <= i < |ring| ==> waits(ring[i], After(ring, i))
    requires forall a, b, t, u, v :: waits(a, b) && waits(b, t) && waits(t, u) && waits(u, v) ==>
               Below(rank(t), rank(u))
    requires k < |ring|
    ensures Below(rank(ring[k]), rank(After(ring, k)))
  {
    var before := if k == 0 then |ring| - 1 else k - 1;
    var former := if before == 0 then |ring| - 1 else before - 1;
    var next := if k + 1 < |ring| then k + 1 else 0;
    assert waits(ring[former], After(ring, former)) && After(ring, former) == ring[before];
    assert waits(ring[before], After(ring, before)) && After(ring, before) == ring[k];
    assert waits(ring[k], After(ring, k)) && After(ring, k) == ring[next];
    assert waits(ring[next], After(ring, next));
  }

  lemma {:induction false} RingAbove(rank: nat -> Rank, ring: seq<nat>, k: nat)
    requires forall i {:trigger After(ring, i)} :: 0 <= i < |ring| ==> Below(rank(ring[i]), rank(After(ring, i)))
    requires k < |ring|
    ensures Below(rank(ring[0]), rank(After(ring, k)))
  {
    assert Below(rank(ring[k]), rank(After(ring, k)));
    if k > 0 {
      RingAbove(rank, ring, k - 1);
      assert After(ring, k - 1) == ring[k];
    }
  }

  /** A ring needs ranks that climb all the way round. */
  lemma NoRing(s: Sys, ring: seq<nat>, emails: (OrgId, OrgId) -> bool,
               records: (OrgId, OrgId) -> bool)
    requires SysOk(s) && Tidy(s) && Orderly(s, emails, records) && Climbing(emails, records)
    ensures !Ring(s, ring)
  {
    var waits := (t: nat, u: nat) => Waits(s, t, u);
    var rank := (t: nat) => if t in s.txns then RankOf(s.txns[t]) else Rank(0, 0, 0);
    forall a, b, t, u, v | waits(a, b) && waits(b, t) && waits(t, u) && waits(u, v) ensures Below(rank(t), rank(u)) {
      Climbs(s, a, b, t, u, v, emails, records);
    }
    if Ring(s, ring) {
      forall i {:trigger After(ring, i)} | 0 <= i < |ring| ensures Below(rank(ring[i]), rank(After(ring, i))) {
        RingStep(waits, rank, ring, i);
      }
      RingAbove(rank, ring, |ring| - 1);
    }
  }

  lemma Climbs(s: Sys, a: nat, b: nat, t: nat, u: nat, v: nat, emails: (OrgId, OrgId) -> bool,
               records: (OrgId, OrgId) -> bool)
    requires SysOk(s) && Tidy(s) && Orderly(s, emails, records) && Climbing(emails, records)
    requires Waits(s, a, b) && Waits(s, b, t) && Waits(s, t, u) && Waits(s, u, v)
    ensures Below(RankOf(s.txns[t]), RankOf(s.txns[u]))
  {
    PairOf(s, b, t, emails, records);
    PairOf(s, t, u, emails, records);
    PairOf(s, u, v, emails, records);
    if v != t { PairOf(s, t, v, emails, records); }
    if v != b { PairOf(s, b, v, emails, records); }
    Waited(s, a, b);
    Waited(s, b, t);
    Waited(s, t, u);
    WaitClimbs(s, b, t, u, v, emails);
  }

  lemma Waited(s: Sys, t: nat, u: nat)
    requires Waits(s, t, u)
    ensures s.txns[u].held != {}
  {}

  /** In every state a proper run reaches from a sound one, whatever is in flight, no ring of transactions waits on
      itself, as long as emails are awaited only into the same or later organizations and records only in later ones. */
  lemma RunsNeverDeadlock(c: Db, steps: seq<Step>, ring: seq<nat>, emails: (OrgId, OrgId) -> bool,
                          records: (OrgId, OrgId) -> bool)
    requires Sound(c) && IsRun(Sys(c, map[]), steps) && Always(Proper, Sys(c, map[]), steps)
    requires Orderly(Reached(Sys(c, map[]), steps), emails, records) && Climbing(emails, records)
    ensures !Ring(Reached(Sys(c, map[]), steps), ring)
  {
    RunTidy(Sys(c, map[]), steps);
    NoRing(Reached(Sys(c, map[]), steps), ring, emails, records);
  }
}
