/** The records of a departure reference organizations it has locked only where it is active. Where it is not, their
    foreign keys wait for whoever holds the organization FOR UPDATE, and can close a ring in two ways: with another
    departure over two organizations, and with the change of a team row over one. */
module RecordDeadlock {
  import opened Domain
  import opened Store
  import opened Operations
  import opened Integrity
  import opened Transactions
  import opened Rely
  import opened Serial
  import opened Scripts
  import opened Deadlock

  const LEAVER: ActorId := 1
  const STRAY: ActorId := 2
  const BOSS: ActorId := 3
  const PERSON := Actor(None, false)
  const MEMBER := Membership(OrganizationRole.Member, Active, None)
  const SUSPENDED := Membership(OrganizationRole.Member, Suspended, None)
  const OWNER := Membership(OrganizationRole.Owner, Active, None)

  function Bare(slug: string, members: map<ActorId, Membership>): Org {
    Org(slug, members, {}, map[], map[], {}, map[], [])
  }

  lemma OwnedByBoss(org: Org)
    requires BOSS in org.members && org.members[BOSS] == OWNER
    ensures Owned(org)
  {
    assert ActiveOwner(org, BOSS);
  }

  lemma NoInvitesSpent(org: Org)
    requires org.invites == map[] && org.audit == []
    ensures InvitesSpent(org)
  {
    forall i ensures InviteSpent(org, i) {}
  }

  lemma NoInvitesOk(c: Db)
    requires c.users == map[] && c.sessions == map[] && forall a :: a in c.actors ==> c.actors[a] == PERSON
    requires forall o :: o in c.orgs ==> c.orgs[o].invites == map[]
    requires forall o :: o in c.orgs ==> References(c.orgs[o]) && People(c.actors, c.orgs[o])
    requires forall o :: o in c.orgs ==>
               c.orgs[o].audit == [] && BOSS in c.orgs[o].members && c.orgs[o].members[BOSS] == OWNER
    ensures Ok(c)
  {
    forall o | o in c.orgs ensures OrgOk(c.actors, c.orgs[o]) && Owned(c.orgs[o]) {
      OwnedByBoss(c.orgs[o]);
      NoInvitesSpent(c.orgs[o]);
    }
  }

  // ---- two departures over two organizations ----

  /** Two organizations, STRAY suspended in the earlier one. */
  function Crossed(lo: OrgId, hi: OrgId): Db {
    Db(map[LEAVER := PERSON, STRAY := PERSON, BOSS := PERSON], map[], map[],
       map[lo := Bare("low", map[LEAVER := MEMBER, STRAY := SUSPENDED, BOSS := OWNER]),
           hi := Bare("high", map[LEAVER := MEMBER, STRAY := MEMBER, BOSS := OWNER])])
  }

  lemma SortedPair(lo: OrgId, hi: OrgId)
    requires lo < hi
    ensures Sorted({lo, hi}) == [lo, hi] && Sorted({hi}) == [hi]
  {
    assert {lo, hi} - {lo} == {hi} && {hi} - {hi} == {};
    assert Least({hi}) == hi && Least({lo, hi}) == lo;
    assert Sorted({hi}) == [hi];
  }

  const LEAVING := {Hold(ActorRow(LEAVER), Update)}

  function LockedLow(lo: OrgId): set<Hold> {
    LEAVING + {Hold(OrgRow(lo), Update)}
  }

  function Leaver(lo: OrgId, hi: OrgId): Txn {
    LeaveTxn(LEAVER, OrgLocks([hi], {lo, hi}), LockedLow(lo))
  }

  lemma LeaverMeets(lo: OrgId, hi: OrgId)
    requires lo < hi
    ensures Leads(Proper, Sys(Crossed(lo, hi), map[]), Sys(Crossed(lo, hi), map[1 := Leaver(lo, hi)]))
  {
    var c, none: map<nat, Txn> := Crossed(lo, hi), map[];
    ProperIsLenient();
    SortedPair(lo, hi);
    assert ActiveOrgs(c, LEAVER) == {lo, hi};
    DepartureStarts(Proper, c, none, 1, LEAVER);
    assert OrgUpdates([lo, hi][..1]) == {Hold(OrgRow(lo), Update)} && [lo, hi][1..] == [hi];
    LocksOrgs(Proper, c, none, 1, LEAVER, [lo, hi], {lo, hi}, LEAVING, 1);
    LeadsOn(Proper, Sys(c, none), Sys(c, none[1 := LeaveTxn(LEAVER, OrgLocks([lo, hi], {lo, hi}), LEAVING)]),
            Sys(c, none[1 := Leaver(lo, hi)]));
    assert none[1 := Leaver(lo, hi)] == map[1 := Leaver(lo, hi)];
  }

  /** The departure of STRAY, about to record in the first organization it is a member of. */
  function Recording(c: Db, first: OrgId, rest: seq<OrgId>, held: set<Hold>): Txn
    requires first in c.orgs
  {
    var got := ReadsOf(c, STRAY, ActiveOrgs(c, STRAY));
    LeaveTxn(STRAY, SweepAudit([first] + rest, got.(teams := got.teams[first := TeamsOf(c.orgs[first], STRAY)])), held)
  }

  /** It locks its own row, the organizations it is active in and the team rows it removes. */
  lemma StrayMeets(c: Db, others: map<nat, Txn>, first: OrgId, rest: seq<OrgId>, more: set<Hold>)
    requires 2 !in others && STRAY in c.actors && !c.actors[STRAY].departed && first in c.orgs
    requires forall o :: ActiveIn(c, STRAY, o) ==> OwnersRemain(c, STRAY, o)
    requires Free(others, {Hold(ActorRow(STRAY), Update)}) && Free(others, OrgUpdates(Sorted(ActiveOrgs(c, STRAY))))
    requires Sorted(ReadsOf(c, STRAY, ActiveOrgs(c, STRAY)).statuses.Keys) == [first] + rest
    requires more == set t | t in TeamsOf(c.orgs[first], STRAY) :: Hold(TeamRow(first, t, STRAY), Update)
    requires Free(others, more)
    ensures Leads(Proper, Sys(c, others),
                  Sys(c, others[2 := Recording(c, first, rest, ReadyToLeave(c, STRAY).held + more)]))
  {
    ProperIsLenient();
    DepartureReads(Proper, c, others, 2, STRAY);
    Sweeps(c, others, first, rest, more);
    LeadsOn(Proper, Sys(c, others), Sys(c, others[2 := ReadyToLeave(c, STRAY)]),
            Sys(c, others[2 := Recording(c, first, rest, ReadyToLeave(c, STRAY).held + more)]));
  }

  lemma Sweeps(c: Db, others: map<nat, Txn>, first: OrgId, rest: seq<OrgId>, more: set<Hold>)
    requires 2 !in others && first in c.orgs && Free(others, more)
    requires Sorted(ReadsOf(c, STRAY, ActiveOrgs(c, STRAY)).statuses.Keys) == [first] + rest
    requires more == set t | t in TeamsOf(c.orgs[first], STRAY) :: Hold(TeamRow(first, t, STRAY), Update)
    ensures Leads(Proper, Sys(c, others[2 := ReadyToLeave(c, STRAY)]),
                  Sys(c, others[2 := Recording(c, first, rest, ReadyToLeave(c, STRAY).held + more)]))
  {
    var got := ReadsOf(c, STRAY, ActiveOrgs(c, STRAY));
    var t, orgs := ReadyToLeave(c, STRAY), [first] + rest;
    ProperIsLenient();
    assert t == LeaveTxn(STRAY, Sweep(orgs, got), t.held);
    SweepsFirst(c, orgs, got, t.held, more);
    Goes(Proper, c, others, 2, t, Recording(c, first, rest, t.held + more));
  }

  lemma SweepsFirst(c: Db, orgs: seq<OrgId>, got: Gathered, held: set<Hold>, more: set<Hold>)
    requires orgs != [] && orgs[0] in c.orgs
    requires more == set t | t in TeamsOf(c.orgs[orgs[0]], STRAY) :: Hold(TeamRow(orgs[0], t, STRAY), Update)
    ensures var t := LeaveTxn(STRAY, Sweep(orgs, got), held);
            && Taken(c, t) == more
            && Advance(c, t) == Continue(t.op, SweepAudit(orgs, got.(teams := got.teams[orgs[0] :=
                                                                      TeamsOf(c.orgs[orgs[0]], STRAY)])))
  {}

  function Stray(lo: OrgId, hi: OrgId): Txn
    requires lo < hi
  {
    Recording(Crossed(lo, hi), lo, [hi], {Hold(ActorRow(STRAY), Update), Hold(OrgRow(hi), Update)})
  }

  function Cross(lo: OrgId, hi: OrgId): Sys
    requires lo < hi
  {
    Sys(Crossed(lo, hi), map[1 := Leaver(lo, hi)][2 := Stray(lo, hi)])
  }

  lemma StrayReads(lo: OrgId, hi: OrgId)
    requires lo < hi
    ensures var c := Crossed(lo, hi);
            && ActiveOrgs(c, STRAY) == {hi} && TeamsOf(c.orgs[lo], STRAY) == {}
            && Sorted(ReadsOf(c, STRAY, {hi}).statuses.Keys) == [lo] + [hi]
            && ReadyToLeave(c, STRAY).held == {Hold(ActorRow(STRAY), Update), Hold(OrgRow(hi), Update)}
  {
    var c := Crossed(lo, hi);
    SortedPair(lo, hi);
    assert ReadsOf(c, STRAY, {hi}).statuses.Keys == {lo, hi};
    assert ActiveOrgs(c, STRAY) == {hi};
    assert OrgUpdates([hi]) == {Hold(OrgRow(hi), Update)};
  }

  lemma BossRemains(c: Db, a: ActorId)
    requires a != BOSS && forall o :: o in c.orgs ==> BOSS in c.orgs[o].members && c.orgs[o].members[BOSS] == OWNER
    ensures forall o :: ActiveIn(c, a, o) ==> OwnersRemain(c, a, o)
  {
    forall o | ActiveIn(c, a, o) ensures OwnersRemain(c, a, o) {
      assert ActiveOwner(c.orgs[o], BOSS);
      assert BOSS in ActiveOwners(c.orgs[o]);
    }
  }

  lemma CrossMeets(lo: OrgId, hi: OrgId)
    requires lo < hi
    ensures Leads(Proper, Sys(Crossed(lo, hi), map[]), Cross(lo, hi))
  {
    LeaverMeets(lo, hi);
    StrayCrosses(lo, hi);
    LeadsOn(Proper, Sys(Crossed(lo, hi), map[]), Sys(Crossed(lo, hi), map[1 := Leaver(lo, hi)]), Cross(lo, hi));
  }

  lemma StrayCrosses(lo: OrgId, hi: OrgId)
    requires lo < hi
    ensures Leads(Proper, Sys(Crossed(lo, hi), map[1 := Leaver(lo, hi)]), Cross(lo, hi))
  {
    var c, one, held := Crossed(lo, hi), map[1 := Leaver(lo, hi)], ReadyToLeave(Crossed(lo, hi), STRAY).held;
    StrayReads(lo, hi);
    MayLeave(lo, hi);
    LeaverAside(lo, hi);
    NoTeamRows(c, lo);
    assert held + {} == held && Recording(c, lo, [hi], held) == Stray(lo, hi);
    StrayMeets(c, one, lo, [hi], {});
  }

  lemma MayLeave(lo: OrgId, hi: OrgId)
    requires lo < hi
    ensures var c := Crossed(lo, hi);
            && STRAY in c.actors && !c.actors[STRAY].departed && lo in c.orgs
            && forall o :: ActiveIn(c, STRAY, o) ==> OwnersRemain(c, STRAY, o)
  {
    BossRemains(Crossed(lo, hi), STRAY);
  }

  lemma NoTeamRows(c: Db, o: OrgId)
    requires o in c.orgs && TeamsOf(c.orgs[o], STRAY) == {}
    ensures (set t | t in TeamsOf(c.orgs[o], STRAY) :: Hold(TeamRow(o, t, STRAY), Update)) == {}
  {}

  lemma LeaverAside(lo: OrgId, hi: OrgId)
    requires lo < hi
    ensures Free(map[1 := Leaver(lo, hi)], {Hold(ActorRow(STRAY), Update)})
    ensures Free(map[1 := Leaver(lo, hi)], OrgUpdates(Sorted({hi})))
  {
    SortedPair(lo, hi);
  }

  lemma CrossedRecordAsks(lo: OrgId, hi: OrgId)
    requires lo < hi
    ensures Hold(OrgRow(lo), KeyShare) in Request(Stray(lo, hi))
  {
    assert Audits(Stray(lo, hi).phase.got, lo);
  }

  lemma CrossWaits(lo: OrgId, hi: OrgId)
    requires lo < hi
    ensures Ring(Cross(lo, hi), [1, 2])
  {
    var s := Cross(lo, hi);
    CrossedRecordAsks(lo, hi);
    Clashes(s, 1, 2, Hold(OrgRow(hi), Update), Hold(OrgRow(hi), Update));
    Clashes(s, 2, 1, Hold(OrgRow(lo), KeyShare), Hold(OrgRow(lo), Update));
    RingOfTwo(s, 1, 2);
  }

  lemma CrossedOk(lo: OrgId, hi: OrgId)
    requires lo < hi
    ensures Ok(Crossed(lo, hi))
  {
    NoInvitesOk(Crossed(lo, hi));
  }

  /** Neither is an acceptance, and only the second awaits a record. */
  lemma TwoAreOrderly(s: Sys, o: OrgId, o': OrgId, emails: (OrgId, OrgId) -> bool, records: (OrgId, OrgId) -> bool)
    requires s.txns.Keys == {1, 2} && !s.txns[1].op.AcceptInvite? && !s.txns[2].op.AcceptInvite?
    requires !AwaitsRecord(s.txns[1]) && (AwaitsRecord(s.txns[2]) ==> s.txns[2].phase.orgs[0] == o')
    requires forall h :: h in s.txns[2].held && InOrganization(h.resource) ==> h.resource.org == o
    requires records(o, o')
    ensures Orderly(s, emails, records)
  {}

  lemma CrossIsOrderly(lo: OrgId, hi: OrgId, emails: (OrgId, OrgId) -> bool, records: (OrgId, OrgId) -> bool)
    requires lo < hi && records(hi, lo)
    ensures Orderly(Cross(lo, hi), emails, records)
  {
    TwoAreOrderly(Cross(lo, hi), hi, lo, emails, records);
  }

  /** For every two organizations, a record awaited in the earlier one beside the lock of the later closes a ring. */
  lemma DeparturesDeadlock(lo: OrgId, hi: OrgId, emails: (OrgId, OrgId) -> bool, records: (OrgId, OrgId) -> bool)
    requires lo < hi && records(hi, lo)
    ensures exists n :: Leads(Proper, Sys(Crossed(lo, hi), map[]), n) && Orderly(n, emails, records) && Ring(n, [1, 2])
    ensures Ok(Crossed(lo, hi))
  {
    CrossedOk(lo, hi);
    CrossMeets(lo, hi);
    CrossWaits(lo, hi);
    CrossIsOrderly(lo, hi, emails, records);
  }

  // ---- a departure and a change over one organization ----

  /** One organization, STRAY a suspended member in one of its teams. */
  function Teamed(o: OrgId): Db {
    Db(map[STRAY := PERSON, BOSS := PERSON], map[], map[],
       map[o := Bare("club", map[STRAY := SUSPENDED, BOSS := OWNER]).(teams := {0},
                                                                    teamMembers := map[(0, STRAY) := TeamRole.Member])])
  }

  function Removal(o: OrgId): Op {
    InOrg(BOSS, o, RemoveTeamMember(0, STRAY), false)
  }

  function Removing(o: OrgId): Txn {
    var rows := Teamed(o).orgs[o];
    Txn(Removal(o), Writing(Some(false), rows, ActiveOwners(rows)),
        {Hold(ActorRow(BOSS), Share), Hold(OrgRow(o), Update)})
  }

  lemma RemovalStarts(o: OrgId)
    ensures Leads(Proper, Sys(Teamed(o), map[]),
                  Sys(Teamed(o), map[][1 := Txn(Removal(o), ActorLocks([], Some(false)),
                                                {Hold(ActorRow(BOSS), Share)})]))
  {
    var c, s, op := Teamed(o), Sys(Teamed(o), map[]), Removal(o);
    ProperIsLenient();
    assert VisibleActors(c, BOSS, BOSS) == {BOSS} && Sorted({BOSS}) == [BOSS] by {
      assert Least({BOSS}) == BOSS && {BOSS} - {BOSS} == {};
    }
    Starts(Proper, c, map[], 1, op);
    Then(Proper, s, c, map[], 1, Txn(op, Start, {}), Txn(op, ActorLocks([BOSS], Some(false)), {}));
    Then(Proper, s, c, map[], 1, Txn(op, ActorLocks([BOSS], Some(false)), {}),
         Txn(op, ActorLocks([], Some(false)), {Hold(ActorRow(BOSS), Share)}));
  }

  lemma RemovalMeets(o: OrgId)
    ensures Leads(Proper, Sys(Teamed(o), map[]), Sys(Teamed(o), map[1 := Removing(o)]))
  {
    var c, s, op := Teamed(o), Sys(Teamed(o), map[]), Removal(o);
    var held := {Hold(ActorRow(BOSS), Share)};
    var more := held + {Hold(OrgRow(o), Update)};
    ProperIsLenient();
    RemovalStarts(o);
    ChangeLocks(Proper, c, map[], 1, op, Some(false), held);
    ChangeReads(Proper, c, map[], 1, op, Some(false), more);
    assert more == Removing(o).held && Removal(o).org == o;
    LeadsOn(Proper, s, Sys(c, map[][1 := Txn(op, ActorLocks([], Some(false)), held)]),
            Sys(c, map[][1 := Txn(op, Rows(Some(false)), more)]));
    LeadsOn(Proper, s, Sys(c, map[][1 := Txn(op, Rows(Some(false)), more)]), Sys(c, map[][1 := Removing(o)]));
    assert map[][1 := Removing(o)] == map[1 := Removing(o)];
  }

  function Swept(o: OrgId): Txn {
    Recording(Teamed(o), o, [], {Hold(ActorRow(STRAY), Update), Hold(TeamRow(o, 0, STRAY), Update)})
  }

  function Tangle(o: OrgId): Sys {
    Sys(Teamed(o), map[1 := Removing(o)][2 := Swept(o)])
  }

  lemma SweptReads(o: OrgId)
    ensures var c := Teamed(o);
            && ActiveOrgs(c, STRAY) == {} && TeamsOf(c.orgs[o], STRAY) == {0}
            && Sorted(ReadsOf(c, STRAY, {}).statuses.Keys) == [o] + []
            && ReadyToLeave(c, STRAY).held == {Hold(ActorRow(STRAY), Update)}
  {
    var c := Teamed(o);
    assert ReadsOf(c, STRAY, {}).statuses.Keys == {o};
    assert Sorted({o}) == [o] by { assert Least({o}) == o && {o} - {o} == {}; }
    assert ActiveOrgs(c, STRAY) == {} && OrgUpdates([]) == {};
  }

  lemma TangleMeets(o: OrgId)
    ensures Leads(Proper, Sys(Teamed(o), map[]), Tangle(o))
  {
    var c, one, more := Teamed(o), map[1 := Removing(o)], {Hold(TeamRow(o, 0, STRAY), Update)};
    RemovalMeets(o);
    SweptReads(o);
    BossRemains(c, STRAY);
    assert more == set t | t in {0} :: Hold(TeamRow(o, t, STRAY), Update);
    StrayMeets(c, one, o, [], more);
    assert ReadyToLeave(c, STRAY).held + more == Swept(o).held;
    LeadsOn(Proper, Sys(c, map[]), Sys(c, one), Tangle(o));
  }

  lemma RemovalAsks(o: OrgId)
    ensures Hold(TeamRow(o, 0, STRAY), Update) in Request(Removing(o))
  {
    var rows := Teamed(o).orgs[o];
    assert Decide(rows, ActiveOwners(rows), Some(false), BOSS, Removal(o).change).write == DropTeamMember(0, STRAY);
  }

  lemma RecordAsks(o: OrgId)
    ensures Hold(OrgRow(o), KeyShare) in Request(Swept(o))
  {
    assert Audits(Swept(o).phase.got, o);
  }

  lemma TangleWaits(o: OrgId)
    ensures Ring(Tangle(o), [1, 2])
  {
    var s := Tangle(o);
    RemovalAsks(o);
    RecordAsks(o);
    Clashes(s, 1, 2, Hold(TeamRow(o, 0, STRAY), Update), Hold(TeamRow(o, 0, STRAY), Update));
    Clashes(s, 2, 1, Hold(OrgRow(o), KeyShare), Hold(OrgRow(o), Update));
    RingOfTwo(s, 1, 2);
  }

  lemma TeamedOk(o: OrgId)
    ensures Ok(Teamed(o))
  {
    NoInvitesOk(Teamed(o));
  }

  lemma TangleIsOrderly(o: OrgId, emails: (OrgId, OrgId) -> bool, records: (OrgId, OrgId) -> bool)
    requires records(o, o)
    ensures Orderly(Tangle(o), emails, records)
  {
    TwoAreOrderly(Tangle(o), o, o, emails, records);
  }

  /** In every organization, a record awaited beside a team row removed there closes a ring. */
  lemma TeamRowsDeadlock(o: OrgId, emails: (OrgId, OrgId) -> bool, records: (OrgId, OrgId) -> bool)
    requires records(o, o)
    ensures exists n :: Leads(Proper, Sys(Teamed(o), map[]), n) && Orderly(n, emails, records) && Ring(n, [1, 2])
    ensures Ok(Teamed(o))
  {
    TeamedOk(o);
    TangleMeets(o);
    TangleWaits(o);
    TangleIsOrderly(o, emails, records);
  }
}
