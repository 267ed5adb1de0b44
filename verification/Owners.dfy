/** Owners among interleaved transactions: what keeps a departure's owner check true until it commits. */
module Owners {
  import opened Domain
  import opened Store
  import opened Operations
  import opened Integrity
  import opened Transactions
  import opened Rely
  import opened Serial

  // ---- safe starts ----

  /** A reactivation starts safely if its performer sees the member it names, names itself, or can never be a member
      beside it. */
  ghost predicate SafeStart(c: Db, t: Txn) {
    t.op.InOrg? && t.op.change.ReactivateMember? && t.phase.Start? ==>
      t.op.change.target in VisibleActors(c, t.op.performer, t.op.change.target) || Futile(c, t.op)
  }

  ghost predicate Futile(c: Db, op: Op)
    requires op.InOrg? && op.change.ReactivateMember?
  {
    op.performer == op.change.target || Strangers(c, op.performer, op.org, op.change.target)
  }

  ghost predicate Careful(s: Sys, step: Step) {
    step.Run? && step.id in s.txns ==> SafeStart(s.db, s.txns[step.id])
  }

  // ---- what a transaction knows of owners ----

  /** The actor is active only in `all`, and an owner remains in each of them but those still to check. */
  ghost predicate Watched(c: Db, a: ActorId, all: set<OrgId>, rest: seq<OrgId>) {
    && (forall o :: ActiveIn(c, a, o) ==> o in all)
    && (forall o :: o in all && o !in rest ==> o in c.orgs && OwnersRemain(c, a, o))
  }

  ghost predicate LeaveWatches(c: Db, a: ActorId, phase: Phase) {
    match phase
    case OrgLocks(_, all) => forall o :: ActiveIn(c, a, o) ==> o in all
    case Checks(orgs, all) => Watched(c, a, all, orgs)
    case Memberships(all) => Watched(c, a, all, [])
    case ListedOrgs(all, _) => Watched(c, a, all, [])
    case Sweep(_, got) => Watched(c, a, got.locked, [])
    case SweepAudit(_, got) => Watched(c, a, got.locked, [])
    case Listings(_, got) => Watched(c, a, got.locked, [])
    case ListingAudit(_, _, got) => Watched(c, a, got.locked, [])
    case Finish(got) => Watched(c, a, got.locked, [])
    case _ => true
  }

  ghost predicate Watches(c: Db, t: Txn) {
    match t.op
    case InOrg(_, _, change, sighted) => change.ReactivateMember? && !t.phase.Start? ==> sighted || Futile(c, t.op)
    case LeaveService(a) => LeaveWatches(c, a, t.phase)
    case _ => true
  }

  // ---- a statement that does not commit ----

  lemma ReactivationProceeds(c: Db, t: Txn)
    requires t.op.InOrg? && t.op.change.ReactivateMember? && Watches(c, t) && SafeStart(c, t)
    requires Advance(c, t).Continue?
    ensures Advance(c, t).op.InOrg? && Advance(c, t).op.change == t.op.change
    ensures Advance(c, t).op.sighted || Futile(c, Advance(c, t).op)
  {}

  lemma ScanProceeds(c: Db, t: Txn)
    requires t.op.LeaveService? && (t.phase.Start? || t.phase.Scan? || t.phase.OrgLocks?)
    requires LeaveWatches(c, t.op.actor, t.phase)
    requires Advance(c, t).Continue?
    ensures LeaveWatches(c, t.op.actor, Advance(c, t).phase)
  {
    if t.phase.OrgLocks? { assert forall o :: o in Sorted(t.phase.all) <==> o in t.phase.all; }
  }

  lemma CheckProceeds(c: Db, t: Txn)
    requires t.op.LeaveService? && t.phase.Checks? && LeaveWatches(c, t.op.actor, t.phase) && Knows(c, t)
    requires Advance(c, t).Continue?
    ensures LeaveWatches(c, t.op.actor, Advance(c, t).phase)
  {
    var a, orgs, all := t.op.actor, t.phase.orgs, t.phase.all;
    if orgs != [] {
      forall o | o in all && o !in orgs[1..] ensures o in c.orgs && OwnersRemain(c, a, o) {
        if o == orgs[0] { assert o in c.orgs && OwnersVisible(c, a, o); } else { assert o !in orgs; }
      }
    }
  }

  /** A departing actor that can read owners reads all of them. */
  ghost predicate OwnersVisible(c: Db, a: ActorId, o: OrgId)
    requires o in c.orgs
  {
    CheckOwnerChange(VisibleOwners(c, a, o), OwnerChange.Leave(a)) ==> OwnersRemain(c, a, o)
  }

  lemma GatherProceeds(c: Db, t: Txn)
    requires t.op.LeaveService? && !(t.phase.Start? || t.phase.Scan? || t.phase.OrgLocks? || t.phase.Checks?)
    requires LeaveWatches(c, t.op.actor, t.phase) && Advance(c, t).Continue?
    ensures LeaveWatches(c, t.op.actor, Advance(c, t).phase)
  {}

  lemma WatchProceeds(c: Db, t: Txn)
    requires Knows(c, t) && Watches(c, t) && SafeStart(c, t) && Advance(c, t).Continue?
    ensures Watches(c, Txn(Advance(c, t).op, Advance(c, t).phase, t.held + Taken(c, t)))
  {
    if t.op.InOrg? {
      if t.op.change.ReactivateMember? { ReactivationProceeds(c, t); } else { ChangeStays(c, t); }
    } else if t.op.LeaveService? {
      LeaveStays(c, t);
      if t.phase.Start? || t.phase.Scan? || t.phase.OrgLocks? { ScanProceeds(c, t); }
      else if t.phase.Checks? { CheckProceeds(c, t); }
      else { GatherProceeds(c, t); }
    } else {
      OtherStays(c, t);
    }
  }

  lemma ChangeStays(c: Db, t: Txn)
    requires t.op.InOrg? && Advance(c, t).Continue?
    ensures Advance(c, t).op.InOrg? && Advance(c, t).op.change == t.op.change
  {}

  lemma LeaveStays(c: Db, t: Txn)
    requires t.op.LeaveService? && Advance(c, t).Continue?
    ensures Advance(c, t).op == t.op
  {}

  lemma OtherStays(c: Db, t: Txn)
    requires !t.op.InOrg? && !t.op.LeaveService? && Advance(c, t).Continue?
    ensures Advance(c, t).op == t.op
  {}

  // ---- what a careful commit wakes ----

  /** Whoever a commit makes active has its actor row locked by the committer. */
  ghost predicate WakesStep(c: Db, d: Db, h: set<Hold>) {
    forall o, a :: ActiveIn(d, a, o) && !ActiveIn(c, a, o) ==> HoldsActor(h, a)
  }

  /** Only a reactivation makes an existing member active. */
  lemma OnlyReactivationWakes(c: Db, op: Op, o: OrgId, a: ActorId)
    requires o in c.orgs && a in c.orgs[o].members && !ActiveIn(c, a, o) && Land(c, op).reply.Done?
    requires ActiveIn(Land(c, op).db, a, o) && Newborn(c, op)
    ensures op.InOrg? && op.org == o && op.change == ReactivateMember(a)
  {
    if op.InOrg? { ChangeWakes(c, op, o, a); }
    else if op.LeaveService? {}
    else { OthersWakeNobody(c, op, o, a); }
  }

  /** An acceptance makes up an actor that is a member nowhere. */
  ghost predicate Newborn(c: Db, op: Op) {
    op.AcceptInvite? ==> forall o :: o in c.orgs ==> op.actor !in c.orgs[o].members
  }

  lemma ChangeWakes(c: Db, op: Op, o: OrgId, a: ActorId)
    requires op.InOrg? && o in c.orgs && a in c.orgs[o].members && !ActiveIn(c, a, o)
    requires ActiveIn(ApplyInOrg(c, op).db, a, o)
    ensures op.org == o && op.change == ReactivateMember(a)
  {
    assert o == op.org;
    var org := c.orgs[o];
    var d := Decide(org, ActiveOwners(org), Departed(c, op), op.performer, op.change);
    assert ActiveMember(Perform(org, d.write), a);
    assert d.write == SetStatus(a, Active);
  }

  lemma OthersWakeNobody(c: Db, op: Op, o: OrgId, a: ActorId)
    requires !op.InOrg? && !op.LeaveService? && o in c.orgs && a in c.orgs[o].members && !ActiveIn(c, a, o)
    requires Newborn(c, op)
    ensures !ActiveIn(Apply(c, op).db, a, o)
  {}

  lemma WakesByLock(c: Db, d: Db, h: set<Hold>, op: Op)
    requires Land(c, op) == Result(Done, d) && Guarantee(c, d, h) && Newborn(c, op)
    requires op.InOrg? && op.change.ReactivateMember? ==> HoldsActor(h, op.change.target)
    ensures WakesStep(c, d, h)
  {
    forall o, a | ActiveIn(d, a, o) && !ActiveIn(c, a, o) ensures HoldsActor(h, a) {
      if o in c.orgs && a in c.orgs[o].members { OnlyReactivationWakes(c, op, o, a); }
      else { NewMemberLocked(c, d, h, o, a); }
    }
  }

  lemma NewMemberLocked(c: Db, d: Db, h: set<Hold>, o: OrgId, a: ActorId)
    requires OrgsStep(c, d, h) && ActiveIn(d, a, o) && (o in c.orgs ==> a !in c.orgs[o].members)
    ensures HoldsActor(h, a)
  {
    if o in c.orgs { assert OrgStep(c.orgs[o], d.orgs[o], o, h); }
  }

  /** A reactivation of a stranger, or of oneself, never commits; one that saw its target has locked it. */
  lemma CommittedReactivation(c: Db, t: Txn)
    requires t.op.InOrg? && t.op.change.ReactivateMember? && Knows(c, t) && Watches(c, t) && Advance(c, t).Commit?
    ensures HoldsActor(t.held, t.op.change.target)
  {
    assert t.phase.Writing? && ActiveIn(c, t.op.performer, t.op.org);
  }

  lemma WakesAtCommit(c: Db, t: Txn, d: Db)
    requires Sound(c) && Knows(c, t) && Watches(c, t) && Advance(c, t) == Commit(d)
    ensures WakesStep(c, d, t.held + Taken(c, t))
  {
    AlwaysSerializes(c, t);
    NewbornAtCommit(c, t);
    if t.op.InOrg? && t.op.change.ReactivateMember? { CommittedReactivation(c, t); }
    WakesByLock(c, d, t.held + Taken(c, t), t.op);
  }

  lemma NewbornAtCommit(c: Db, t: Txn)
    requires Sound(c) && Knows(c, t) && Advance(c, t).Commit?
    ensures Newborn(c, t.op)
  {
    if t.op.AcceptInvite? {
      forall o | o in c.orgs ensures t.op.actor !in c.orgs[o].members { assert OrgOk(c.actors, c.orgs[o]); }
    }
  }

  // ---- stability ----

  lemma WatchedStable(c: Db, d: Db, h: set<Hold>, a: ActorId, held: set<Hold>, all: set<OrgId>, rest: seq<OrgId>)
    requires OrgsStep(c, d, h) && WakesStep(c, d, h) && Compatible(h, held) && Hold(ActorRow(a), Update) in held
    requires Watched(c, a, all, rest) && LockedExcept(held, all, [])
    ensures Watched(d, a, all, rest)
  {
    ActorIsOurs(h, held, a);
    forall o | o in all && o !in rest ensures o in d.orgs && OwnersRemain(d, a, o) {
      LockedOrgStable(c, d, h, held, o);
    }
  }

  lemma LeaveWatchStable(c: Db, d: Db, h: set<Hold>, t: Txn)
    requires OrgsStep(c, d, h) && WakesStep(c, d, h) && Compatible(h, t.held)
    requires t.op.LeaveService? && Knows(c, t) && LeaveWatches(c, t.op.actor, t.phase)
    ensures LeaveWatches(d, t.op.actor, t.phase)
  {
    var a, phase := t.op.actor, t.phase;
    if phase.OrgLocks? { ActorIsOurs(h, t.held, a); }
    else if phase.Checks? { WatchedStable(c, d, h, a, t.held, phase.all, phase.orgs); }
    else if phase.Memberships? || phase.ListedOrgs? { WatchedStable(c, d, h, a, t.held, phase.all, []); }
    else if phase.Sweep? || phase.SweepAudit? || phase.Listings? || phase.ListingAudit? || phase.Finish? {
      WatchedStable(c, d, h, a, t.held, phase.got.locked, []);
    }
  }

  /** What a transaction knows of owners survives every careful commit made under compatible locks. */
  lemma WatchStable(c: Db, d: Db, h: set<Hold>, t: Txn)
    requires Guarantee(c, d, h) && WakesStep(c, d, h) && Compatible(h, t.held) && Knows(c, t) && Watches(c, t)
    ensures Watches(d, t)
  {
    if t.op.LeaveService? {
      LeaveWatchStable(c, d, h, t);
    } else if t.op.InOrg? && t.op.change.ReactivateMember?
              && Strangers(c, t.op.performer, t.op.org, t.op.change.target) {
      StrangersStable(c, d, h, t.op.performer, t.op.org, t.op.change.target);
    }
  }

  // ---- careful runs ----

  ghost predicate Vigilant(s: Sys) {
    AllOwned(s.db) && forall id :: id in s.txns ==> Watches(s.db, s.txns[id])
  }

  /** A departure that watched passes the owner check again as it commits. */
  lemma WatchedLeaves(c: Db, t: Txn)
    requires t.op.LeaveService? && Knows(c, t) && Watches(c, t) && Advance(c, t).Commit?
    ensures Apply(c, t.op) == Land(c, t.op)
  {
    var a, got := t.op.actor, t.phase.got;
    forall o | o in c.orgs ensures o !in Abandoned(c, a) {
      if ActiveIn(c, a, o) { assert o in got.locked; }
    }
  }

  lemma CommitIsApply(c: Db, t: Txn, d: Db)
    requires Sound(c) && Knows(c, t) && Watches(c, t) && Advance(c, t) == Commit(d)
    ensures Apply(c, t.op) == Result(Done, d)
  {
    AlwaysSerializes(c, t);
    if t.op.LeaveService? { WatchedLeaves(c, t); }
  }

  lemma CarefulCommit(s: Sys, id: nat, d: Db)
    requires SysOk(s) && Vigilant(s) && id in s.txns && Grantable(s, id) && Advance(s.db, s.txns[id]) == Commit(d)
    ensures AllOwned(d) && Apply(s.db, s.txns[id].op) == Result(Done, d)
    ensures forall j :: j in s.txns && j != id ==> Watches(d, s.txns[j])
  {
    var t := s.txns[id];
    CommitIsApply(s.db, t, d);
    ApplyOwned(s.db, t.op);
    forall j | j in s.txns && j != id ensures Watches(d, s.txns[j]) { OtherWatches(s, id, j, d); }
  }

  lemma OtherWatches(s: Sys, id: nat, j: nat, d: Db)
    requires SysOk(s) && Vigilant(s) && id in s.txns && Grantable(s, id) && Advance(s.db, s.txns[id]) == Commit(d)
    requires j in s.txns && j != id
    ensures Watches(d, s.txns[j])
  {
    var t := s.txns[id];
    WakesAtCommit(s.db, t, d);
    AlwaysSerializes(s.db, t);
    TakenCompatible(s, id, j);
    WatchStable(s.db, d, t.held + Taken(s.db, t), s.txns[j]);
  }

  lemma CarefulStep(s: Sys, step: Step)
    requires SysOk(s) && Vigilant(s) && Enabled(s, step) && Careful(s, step)
    ensures Vigilant(Do(s, step))
    ensures forall op :: op in CommittedBy(s, step) ==> Apply(s.db, op) == Land(s.db, op)
  {
    if step.Run? {
      var t := s.txns[step.id];
      match Advance(s.db, t)
      case Continue(_, _) => WatchProceeds(s.db, t);
      case Abort =>
      case Commit(d) =>
        CarefulCommit(s, step.id, d);
        AlwaysSerializes(s.db, t);
    }
  }

  ghost predicate AllDone(db: Db, ops: seq<Op>)
    decreases |ops|
  {
    ops != [] ==> Apply(db, ops[0]).reply.Done? && AllDone(Apply(db, ops[0]).db, ops[1..])
  }

  lemma ExecuteOne(db: Db, op: Op)
    ensures Execute(db, [op]) == Apply(db, op).db
  {
    assert [op][1..] == [];
  }

  lemma {:induction false} ExecuteConcat(db: Db, ops: seq<Op>, more: seq<Op>)
    ensures Execute(db, ops + more) == Execute(Execute(db, ops), more)
    decreases |ops|
  {
    if ops == [] {
      assert ops + more == more;
    } else {
      assert (ops + more)[1..] == ops[1..] + more;
      ExecuteConcat(Apply(db, ops[0]).db, ops[1..], more);
    }
  }

  /** An interleaving whose reactivations all start safely commits exactly what its operations do alone, owner checks
      included, and in every state it reaches every organization has an active owner. */
  lemma {:induction false} CarefulRunsAreSerial(s: Sys, steps: seq<Step>)
    requires SysOk(s) && Vigilant(s) && IsRun(s, steps) && Always(Careful, s, steps)
    ensures SysOk(Reached(s, steps)) && Vigilant(Reached(s, steps))
    ensures Reached(s, steps).db == Execute(s.db, Committed(s, steps)) && AllDone(s.db, Committed(s, steps))
    decreases |steps|
  {
    if steps != [] {
      StepKeeps(s, steps[0]);
      CarefulStep(s, steps[0]);
      var next, first := Do(s, steps[0]), CommittedBy(s, steps[0]);
      var later := Committed(next, steps[1..]);
      CarefulRunsAreSerial(next, steps[1..]);
      ExecuteConcat(s.db, first, later);
      if first != [] {
        LandOne(s.db, first[0]);
        ExecuteOne(s.db, first[0]);
        assert (first + later)[1..] == later;
      } else {
        assert first + later == later;
      }
    }
  }
}
