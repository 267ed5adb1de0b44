/** A team addition that starts blind: lock_actor does not lock the member it cannot see, and the insert's foreign key
    then waits for that member's departure, which waits for the organization. */
module BlindTeamAddition {
  import opened Domain
  import opened Store
  import opened Operations
  import opened Integrity
  import opened Transactions
  import opened Rely
  import opened Serial
  import opened Owners
  import opened Scripts
  import opened Deadlock
  import opened BlindReactivation

  function Adding(p: ActorId, o: OrgId, t: TeamId, a: ActorId): Op {
    InOrg(p, o, AddTeamMember(t, a, TeamRole.Member), false)
  }

  /** The member can be added to the team. */
  ghost predicate Addable(c: Db, o: OrgId, t: TeamId, a: ActorId) {
    && o in c.orgs && t in c.orgs[o].teams && ActiveMember(c.orgs[o], a) && (t, a) !in c.orgs[o].teamMembers
    && a in c.actors
  }

  /** The performer sees the member, or the two can never be members together. */
  ghost predicate SafeToStart(c: Db, p: ActorId, o: OrgId, a: ActorId) {
    a in VisibleActors(c, p, a) || Strangers(c, p, o, a)
  }

  // ---- from an unsafe start to the ring ----

  /** An unsafe start means the performer is a suspended member. */
  lemma UnsafeMeans(c: Db, p: ActorId, o: OrgId, t: TeamId, a: ActorId)
    requires Ok(c) && p in c.actors && Addable(c, o, t, a) && !SafeToStart(c, p, o, a)
    ensures p != a && p in c.orgs[o].members && c.orgs[o].members[p].status.Suspended? && !c.actors[p].departed
    ensures !c.actors[a].departed && VisibleActors(c, p, a) == {p}
    ensures exists b :: b != p && b in c.actors && ActiveOwner(c.orgs[o], b)
  {
    assert ActiveIn(c, p, o) ==> Sees(c, p, a);
    assert OrgOk(c.actors, c.orgs[o]) && Owned(c.orgs[o]);
    var b :| ActiveOwner(c.orgs[o], b);
    assert b in c.orgs[o].members;
  }

  function Waiting(p: ActorId, o: OrgId, t: TeamId, a: ActorId): Txn {
    Txn(Adding(p, o, t, a), ActorLocks([], None), {Hold(ActorRow(p), Share)})
  }

  function Inserting(d: Db, p: ActorId, o: OrgId, t: TeamId, a: ActorId): Txn
    requires o in d.orgs
  {
    Txn(Adding(p, o, t, a), Writing(None, d.orgs[o], ActiveOwners(d.orgs[o])),
        {Hold(ActorRow(p), Share), Hold(OrgRow(o), Update)})
  }

  /** The addition runs to its insert, the organization locked FOR UPDATE. */
  lemma Inserts(d: Db, p: ActorId, o: OrgId, t: TeamId, a: ActorId)
    requires ActiveIn(d, p, o)
    ensures Leads(Proper, Sys(d, map[0 := Waiting(p, o, t, a)]), Sys(d, map[0 := Inserting(d, p, o, t, a)]))
  {
    var op, held := Adding(p, o, t, a), {Hold(ActorRow(p), Share)};
    ProperIsLenient();
    ChangeLocks(Proper, d, map[], 0, op, None, held);
    assert held + {Hold(OrgRow(o), Update)} == {Hold(ActorRow(p), Share), Hold(OrgRow(o), Update)};
    ChangeReads(Proper, d, map[], 0, op, None, held + {Hold(OrgRow(o), Update)});
    LeadsOn(Proper, Sys(d, map[][0 := Waiting(p, o, t, a)]),
            Sys(d, map[][0 := Txn(op, Rows(None), held + {Hold(OrgRow(o), Update)})]),
            Sys(d, map[][0 := Inserting(d, p, o, t, a)]));
    assert map[][0 := Waiting(p, o, t, a)] == map[0 := Waiting(p, o, t, a)];
    assert map[][0 := Inserting(d, p, o, t, a)] == map[0 := Inserting(d, p, o, t, a)];
  }

  /** The member's departure locks its own row and waits for the organization. */
  lemma Departs(d: Db, others: map<nat, Txn>, o: OrgId, a: ActorId) returns (n: Txn)
    requires a in d.actors && !d.actors[a].departed && ActiveIn(d, a, o) && 2 !in others
    requires forall i, h :: i in others && h in others[i].held ==>
               (h.resource.ActorRow? && h.resource.actor != a) || h.resource == OrgRow(o)
    ensures Leads(Proper, Sys(d, others), Sys(d, others[2 := n]))
    ensures n.op == LeaveService(a) && n.phase.OrgLocks? && n.phase.orgs != [] && n.phase.orgs[0] == o
    ensures Hold(ActorRow(a), Update) in n.held && forall h :: h in n.held ==> h.resource != OrgRow(o)
  {
    var orgs, all, held := Sorted(ActiveOrgs(d, a)), ActiveOrgs(d, a), {Hold(ActorRow(a), Update)};
    assert o in orgs;
    var k :| 0 <= k < |orgs| && orgs[k] == o;
    ProperIsLenient();
    DepartureStarts(Proper, d, others, 2, a);
    EarlierOrgs(others, orgs, k, o);
    LocksOrgs(Proper, d, others, 2, a, orgs, all, held, k);
    n := LeaveTxn(a, OrgLocks(orgs[k..], all), held + OrgUpdates(orgs[..k]));
    LeadsOn(Proper, Sys(d, others), Sys(d, others[2 := LeaveTxn(a, OrgLocks(orgs, all), held)]),
            Sys(d, others[2 := n]));
  }

  lemma EarlierOrgs(others: map<nat, Txn>, orgs: seq<OrgId>, k: nat, o: OrgId)
    requires Ascending(orgs) && k < |orgs| && orgs[k] == o
    requires forall i, h :: i in others && h in others[i].held ==> h.resource.ActorRow? || h.resource == OrgRow(o)
    ensures Free(others, OrgUpdates(orgs[..k])) && forall h :: h in OrgUpdates(orgs[..k]) ==> h.resource != OrgRow(o)
  {
    assert o !in orgs[..k];
  }

  /** Each waits for the other: the insert for the departing member's row, the departure for the organization. */
  lemma TwoWait(d: Db, p: ActorId, o: OrgId, t: TeamId, a: ActorId, n: Txn)
    requires o in d.orgs && t in d.orgs[o].teams && ActiveMember(d.orgs[o], a) && (t, a) !in d.orgs[o].teamMembers
    requires n.op == LeaveService(a) && n.phase.OrgLocks? && n.phase.orgs != [] && n.phase.orgs[0] == o
    requires Hold(ActorRow(a), Update) in n.held
    ensures Ring(Sys(d, map[0 := Inserting(d, p, o, t, a)][2 := n]), [0, 2])
  {
    var s := Sys(d, map[0 := Inserting(d, p, o, t, a)][2 := n]);
    InsertAsks(d, p, o, t, a);
    assert Hold(ActorRow(a), KeyShare) in Taken(d, s.txns[0]);
    assert Clash(Hold(ActorRow(a), KeyShare), Hold(ActorRow(a), Update));
    assert Hold(OrgRow(o), Update) in Taken(d, n) && Hold(OrgRow(o), Update) in s.txns[0].held;
    assert Clash(Hold(OrgRow(o), Update), Hold(OrgRow(o), Update));
    RingOfTwo(s, 0, 2);
  }

  lemma InsertAsks(d: Db, p: ActorId, o: OrgId, t: TeamId, a: ActorId)
    requires o in d.orgs && t in d.orgs[o].teams && ActiveMember(d.orgs[o], a) && (t, a) !in d.orgs[o].teamMembers
    ensures Hold(ActorRow(a), KeyShare) in Request(Inserting(d, p, o, t, a))
  {}

  /** The system once the first statement of a lone addition has run. */
  ghost function BegunAdding(c: Db, p: ActorId, o: OrgId, t: TeamId, a: ActorId): Sys {
    Do(Do(Sys(c, map[]), Begin(0, Adding(p, o, t, a))), Run(0))
  }

  lemma BegunIs(c: Db, p: ActorId, o: OrgId, t: TeamId, a: ActorId)
    ensures var visible := VisibleActors(c, p, a);
            BegunAdding(c, p, o, t, a) == Sys(c, map[][0 := Txn(Adding(p, o, t, a).(sighted := a in visible),
                                                               ActorLocks(Sorted(visible), None), {})])
  {
    var first := Txn(Adding(p, o, t, a), Start, {});
    assert Do(Sys(c, map[]), Begin(0, Adding(p, o, t, a))) == Sys(c, map[][0 := first]);
    assert Taken(c, first) == {} && first.held + Taken(c, first) == {};
    assert forall n: Txn {:trigger map[][0 := n]} :: map[][0 := first][0 := n] == map[][0 := n];
  }

  lemma BlindlyWaits(c: Db, p: ActorId, o: OrgId, t: TeamId, a: ActorId)
    requires p in c.actors && VisibleActors(c, p, a) == {p} && p != a
    ensures Leads(Proper, BegunAdding(c, p, o, t, a), Sys(c, map[0 := Waiting(p, o, t, a)]))
  {
    BegunIs(c, p, o, t, a);
    ProperIsLenient();
    assert Sorted({p}) == [p] by { assert Least({p}) == p && {p} - {p} == {}; }
    Goes(Proper, c, map[], 0, Txn(Adding(p, o, t, a), ActorLocks([p], None), {}), Waiting(p, o, t, a));
    assert map[][0 := Waiting(p, o, t, a)] == map[0 := Waiting(p, o, t, a)];
  }

  /** While the addition waits, an owner reactivates its performer. */
  lemma Wakes(c: Db, others: map<nat, Txn>, o: OrgId, b: ActorId, p: ActorId) returns (d: Db)
    requires ActiveIn(c, b, o) && b in c.actors && 1 !in others && Aside(others, o, {b, p})
    requires p in c.orgs[o].members && c.orgs[o].members[p].status.Suspended? && p in c.actors && !c.actors[p].departed
    ensures Leads(Proper, Sys(c, others), Sys(d, others))
    ensures OneRow(c, d, o, p, c.orgs[o].members[p].(status := Active))
    ensures d.orgs[o].teams == c.orgs[o].teams && d.orgs[o].teamMembers == c.orgs[o].teamMembers
  {
    var op := InOrg(b, o, ReactivateMember(p), true);
    assert Sees(c, b, p) by { assert ActiveIn(c, b, o); }
    d := Settle(c, o, b, op.change, Decided(c, op, Departed(c, op))).db;
    ProperIsLenient();
    assert p in VisibleActors(c, b, p);
    ChangeRuns(Proper, c, others, 1, op);
    SettledRow(c, op, p, c.orgs[o].members[p].(status := Active), Departed(c, op));
  }

  predicate Never(o: OrgId, o': OrgId) {
    false
  }

  /** Neither an email nor a record is awaited. */
  ghost predicate NothingAwaited(s: Sys) {
    Orderly(s, Never, Never)
  }

  lemma StillAddable(c: Db, d: Db, o: OrgId, p: ActorId, t: TeamId, a: ActorId)
    requires Addable(c, o, t, a) && p in c.orgs[o].members && a != p && !c.actors[a].departed
    requires OneRow(c, d, o, p, c.orgs[o].members[p].(status := Active))
    requires d.orgs[o].teams == c.orgs[o].teams && d.orgs[o].teamMembers == c.orgs[o].teamMembers
    ensures Addable(d, o, t, a) && !d.actors[a].departed && ActiveIn(d, p, o)
  {}

  /** An owner wakes the performer, whose addition runs on to its insert. */
  lemma WokenInserts(c: Db, p: ActorId, o: OrgId, t: TeamId, a: ActorId, b: ActorId) returns (d: Db)
    requires Addable(c, o, t, a) && !c.actors[a].departed && p != a && b != p && b in c.actors
    requires ActiveOwner(c.orgs[o], b) && p in c.actors && !c.actors[p].departed
    requires p in c.orgs[o].members && c.orgs[o].members[p].status.Suspended?
    ensures Addable(d, o, t, a) && !d.actors[a].departed
    ensures Leads(Proper, Sys(c, map[0 := Waiting(p, o, t, a)]), Sys(d, map[0 := Inserting(d, p, o, t, a)]))
  {
    var w := map[0 := Waiting(p, o, t, a)];
    d := Wakes(c, w, o, b, p);
    StillAddable(c, d, o, p, t, a);
    Inserts(d, p, o, t, a);
    LeadsOn(Proper, Sys(c, w), Sys(d, w), Sys(d, map[0 := Inserting(d, p, o, t, a)]));
  }

  /** From an unsafe start to the insert. */
  lemma ReachesInsert(c: Db, p: ActorId, o: OrgId, t: TeamId, a: ActorId) returns (d: Db)
    requires Ok(c) && p in c.actors && Addable(c, o, t, a) && !SafeToStart(c, p, o, a)
    ensures Addable(d, o, t, a) && !d.actors[a].departed && p != a
    ensures Leads(Proper, BegunAdding(c, p, o, t, a), Sys(d, map[0 := Inserting(d, p, o, t, a)]))
  {
    UnsafeMeans(c, p, o, t, a);
    var b :| b != p && b in c.actors && ActiveOwner(c.orgs[o], b);
    BlindlyWaits(c, p, o, t, a);
    d := WokenInserts(c, p, o, t, a, b);
    LeadsOn(Proper, BegunAdding(c, p, o, t, a), Sys(c, map[0 := Waiting(p, o, t, a)]),
            Sys(d, map[0 := Inserting(d, p, o, t, a)]));
  }

  /** From the insert to the ring. */
  lemma ReachesRing(d: Db, p: ActorId, o: OrgId, t: TeamId, a: ActorId) returns (n: Sys)
    requires Addable(d, o, t, a) && !d.actors[a].departed && p != a
    ensures Leads(Proper, Sys(d, map[0 := Inserting(d, p, o, t, a)]), n) && NothingAwaited(n) && Ring(n, [0, 2])
  {
    var others := map[0 := Inserting(d, p, o, t, a)];
    var leave := Departs(d, others, o, a);
    n := Sys(d, others[2 := leave]);
    TwoWait(d, p, o, t, a, leave);
  }

  lemma UnsafeStartDeadlocks(c: Db, p: ActorId, o: OrgId, t: TeamId, a: ActorId)
    requires Ok(c) && p in c.actors && Addable(c, o, t, a) && !SafeToStart(c, p, o, a)
    ensures exists n :: Leads(Proper, BegunAdding(c, p, o, t, a), n) && NothingAwaited(n) && Ring(n, [0, 2])
  {
    var d := ReachesInsert(c, p, o, t, a);
    var n := ReachesRing(d, p, o, t, a);
    LeadsOn(Proper, BegunAdding(c, p, o, t, a), Sys(d, map[0 := Inserting(d, p, o, t, a)]), n);
  }

  // ---- exactly when ----

  lemma SafeStartNeverDeadlocks(c: Db, p: ActorId, o: OrgId, t: TeamId, a: ActorId, n: Sys, ring: seq<nat>)
    requires Ok(c) && p in c.actors && SafeToStart(c, p, o, a)
    requires Leads(Proper, BegunAdding(c, p, o, t, a), n) && NothingAwaited(n)
    ensures !Ring(n, ring)
  {
    var s, first := Sys(c, map[]), [Begin(0, Adding(p, o, t, a)), Run(0)];
    var steps :| IsRun(BegunAdding(c, p, o, t, a), steps) && Always(Proper, BegunAdding(c, p, o, t, a), steps)
                 && Reached(BegunAdding(c, p, o, t, a), steps) == n;
    assert first[1..] == [Run(0)] && [Run(0)][1..] == [];
    FirstIsProper(c, p, o, t, a);
    RunsCompose(Proper, s, first, steps);
    RunsNeverDeadlock(c, first + steps, ring, Never, Never);
  }

  lemma FirstIsProper(c: Db, p: ActorId, o: OrgId, t: TeamId, a: ActorId)
    requires p in c.actors && SafeToStart(c, p, o, a)
    ensures var s, first := Sys(c, map[]), [Begin(0, Adding(p, o, t, a)), Run(0)];
            IsRun(s, first) && Always(Proper, s, first) && Reached(s, first) == BegunAdding(c, p, o, t, a)
  {
    var s, m := Sys(c, map[]), Do(Sys(c, map[]), Begin(0, Adding(p, o, t, a)));
    var first := [Begin(0, Adding(p, o, t, a)), Run(0)];
    assert first[1..] == [Run(0)] && [Run(0)][1..] == [];
    assert Enabled(m, Run(0)) && Proper(m, Run(0)) && Proper(s, first[0]);
    var n := Do(m, Run(0));
    assert IsRun(n, []) && Always(Proper, n, []) && Reached(n, []) == n;
    assert IsRun(m, [Run(0)]) && Always(Proper, m, [Run(0)]) && Reached(m, [Run(0)]) == n;
  }

  /** In every sound state, for every performer and every member who can be added to a team: starting the addition can
      lead, everything after it proper and neither an email nor a record awaited, to a ring of waits if and only if the
      performer neither sees the member nor can never be a member beside it. */
  lemma DeadlocksIffStartUnsafe(c: Db, p: ActorId, o: OrgId, t: TeamId, a: ActorId)
    requires Ok(c) && p in c.actors && Addable(c, o, t, a)
    ensures (exists n, ring :: Leads(Proper, BegunAdding(c, p, o, t, a), n) && NothingAwaited(n) && Ring(n, ring))
            <==> !SafeToStart(c, p, o, a)
  {
    if SafeToStart(c, p, o, a) {
      forall n, ring | Leads(Proper, BegunAdding(c, p, o, t, a), n) && NothingAwaited(n) ensures !Ring(n, ring) {
        SafeStartNeverDeadlocks(c, p, o, t, a, n, ring);
      }
    } else {
      UnsafeStartDeadlocks(c, p, o, t, a);
    }
  }
}
