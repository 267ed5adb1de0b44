/** A reactivation that starts blind: its performer cannot see the member when lock_actor runs, so the member's row is
    not locked, and the member's departure can then commit an organization without an owner. */
module BlindReactivation {
  import opened Domain
  import opened Store
  import opened Operations
  import opened Integrity
  import opened Transactions
  import opened Rely
  import opened Serial
  import opened Owners
  import opened Interleavings
  import opened Scripts

  // ---- one owner edits memberships, while others hold rows aside ----

  /** `e` is `d` with one membership row of `o` replaced, records aside. */
  ghost predicate OneRow(d: Db, e: Db, o: OrgId, x: ActorId, row: Membership) {
    && e.actors == d.actors && e.orgs.Keys == d.orgs.Keys && o in d.orgs
    && (forall q :: q in d.orgs && q != o ==> e.orgs[q] == d.orgs[q])
    && e.orgs[o].members == d.orgs[o].members[x := row]
  }

  lemma CarefulIsLenient()
    ensures Lenient(Careful)
  {}

  lemma SettledRow(d: Db, op: Op, x: ActorId, row: Membership, departed: Option<bool>)
    requires Succeeds(d, op, departed) && x in d.orgs[op.org].members
    requires op.change.target == x
    requires row == match op.change
                    case ChangeRole(_, role) => d.orgs[op.org].members[x].(role := role)
                    case SuspendMember(_) => d.orgs[op.org].members[x].(status := Suspended)
                    case _ => d.orgs[op.org].members[x].(status := Active)
    ensures OneRow(d, Settle(d, op.org, op.performer, op.change, Decided(d, op, departed)).db, op.org, x, row)
  {
    assert d.orgs[op.org].members[x := d.orgs[op.org].members[x]] == d.orgs[op.org].members;
  }

  /** The owner `b` sets the role of a member. */
  lemma SetsRole(d: Db, others: map<nat, Txn>, o: OrgId, b: ActorId, x: ActorId, role: OrganizationRole) returns (e: Db)
    requires ActiveIn(d, b, o) && b in d.actors && 1 !in others && Aside(others, o, {b})
    requires x in d.orgs[o].members && !d.orgs[o].members[x].status.Left?
    requires ActiveOwner(d.orgs[o], x) && !role.Owner? ==> exists y :: y != x && ActiveOwner(d.orgs[o], y)
    ensures Leads(Careful, Sys(d, others), Sys(e, others))
    ensures OneRow(d, e, o, x, d.orgs[o].members[x].(role := role))
  {
    var op := InOrg(b, o, ChangeRole(x, role), false);
    if ActiveOwner(d.orgs[o], x) && !role.Owner? {
      var y :| y != x && ActiveOwner(d.orgs[o], y);
      assert y in ActiveOwners(d.orgs[o]);
    }
    e := Settle(d, o, b, op.change, Decided(d, op, Some(false))).db;
    CarefulIsLenient();
    ChangeRuns(Careful, d, others, 1, op);
    SettledRow(d, op, x, d.orgs[o].members[x].(role := role), Some(false));
  }

  /** The owner `b` suspends another member. */
  lemma Suspends(d: Db, others: map<nat, Txn>, o: OrgId, b: ActorId, x: ActorId) returns (e: Db)
    requires o in d.orgs && ActiveOwner(d.orgs[o], b) && b in d.actors && b != x
    requires 1 !in others && Aside(others, o, {b}) && ActiveMember(d.orgs[o], x)
    ensures Leads(Careful, Sys(d, others), Sys(e, others))
    ensures OneRow(d, e, o, x, d.orgs[o].members[x].(status := Suspended))
  {
    var op := InOrg(b, o, SuspendMember(x), false);
    assert b in ActiveOwners(d.orgs[o]);
    e := Settle(d, o, b, op.change, Decided(d, op, Some(false))).db;
    CarefulIsLenient();
    ChangeRuns(Careful, d, others, 1, op);
    SettledRow(d, op, x, d.orgs[o].members[x].(status := Suspended), Some(false));
  }

  /** The active member `b` reactivates a suspended one, whom it sees. */
  lemma Reactivates(d: Db, others: map<nat, Txn>, o: OrgId, b: ActorId, x: ActorId) returns (e: Db)
    requires ActiveIn(d, b, o) && b in d.actors && 1 !in others && Aside(others, o, {b, x})
    requires x in d.orgs[o].members && d.orgs[o].members[x].status.Suspended? && x in d.actors && !d.actors[x].departed
    ensures Leads(Careful, Sys(d, others), Sys(e, others))
    ensures OneRow(d, e, o, x, d.orgs[o].members[x].(status := Active))
  {
    var op := InOrg(b, o, ReactivateMember(x), true);
    assert Sees(d, b, x) by { assert ActiveIn(d, b, o); }
    e := Settle(d, o, b, op.change, Decided(d, op, Departed(d, op))).db;
    CarefulIsLenient();
    assert x in VisibleActors(d, b, x);
    ChangeRuns(Careful, d, others, 1, op);
    SettledRow(d, op, x, d.orgs[o].members[x].(status := Active), Departed(d, op));
  }

  // ---- every other owner is demoted ----

  /** Only roles of active owners other than `b` differ. */
  ghost predicate OnlyOwnersDiffer(d: Db, e: Db, o: OrgId, b: ActorId) {
    && e.actors == d.actors && e.orgs.Keys == d.orgs.Keys && o in d.orgs
    && (forall q :: q in d.orgs && q != o ==> e.orgs[q] == d.orgs[q])
    && e.orgs[o].members.Keys == d.orgs[o].members.Keys
    && (forall x :: x in d.orgs[o].members && (x == b || !ActiveOwner(d.orgs[o], x)) ==>
          e.orgs[o].members[x] == d.orgs[o].members[x])
  }

  lemma DemotedOwners(d: Db, m: Db, o: OrgId, x: ActorId)
    requires o in d.orgs && x in d.orgs[o].members
    requires OneRow(d, m, o, x, d.orgs[o].members[x].(role := OrganizationRole.Member))
    ensures o in m.orgs && ActiveOwners(m.orgs[o]) == ActiveOwners(d.orgs[o]) - {x}
  {
    forall y ensures ActiveOwner(m.orgs[o], y) <==> ActiveOwner(d.orgs[o], y) && y != x {}
  }

  lemma DiffersOn(d: Db, m: Db, e: Db, o: OrgId, b: ActorId, x: ActorId)
    requires o in d.orgs && x in d.orgs[o].members && ActiveOwner(d.orgs[o], x) && x != b
    requires OneRow(d, m, o, x, d.orgs[o].members[x].(role := OrganizationRole.Member)) && OnlyOwnersDiffer(m, e, o, b)
    ensures OnlyOwnersDiffer(d, e, o, b)
  {}

  lemma {:induction false} DemotesRest(d: Db, others: map<nat, Txn>, o: OrgId, b: ActorId) returns (e: Db)
    requires o in d.orgs && ActiveOwner(d.orgs[o], b) && b in d.actors
    requires 1 !in others && Aside(others, o, {b})
    ensures Leads(Careful, Sys(d, others), Sys(e, others)) && OnlyOwnersDiffer(d, e, o, b)
    ensures ActiveOwners(e.orgs[o]) == {b}
    decreases ActiveOwners(d.orgs[o])
  {
    if x :| x in ActiveOwners(d.orgs[o]) && x != b {
      var m := SetsRole(d, others, o, b, x, OrganizationRole.Member);
      DemotedOwners(d, m, o, x);
      assert b in ActiveOwners(m.orgs[o]);
      e := DemotesRest(m, others, o, b);
      DiffersOn(d, m, e, o, b, x);
      LeadsOn(Careful, Sys(d, others), Sys(m, others), Sys(e, others));
    } else {
      e := d;
      LeadsNowhere(Careful, Sys(d, others));
      assert b in ActiveOwners(d.orgs[o]);
    }
  }

  // ---- the scene ----

  /** An owner remains wherever the actor is active, so that its departure is not refused. */
  ghost predicate LastNowhere(c: Db, a: ActorId) {
    forall o :: ActiveIn(c, a, o) ==> OwnersRemain(c, a, o)
  }

  function Blind(p: ActorId, o: OrgId, a: ActorId): Op {
    InOrg(p, o, ReactivateMember(a), false)
  }

  /** The blind reactivation with only its performer locked. */
  function Waiting(p: ActorId, o: OrgId, a: ActorId): Txn {
    Txn(Blind(p, o, a), ActorLocks([], None), {Hold(ActorRow(p), Share)})
  }

  /** In `d`, of the organizations only `o` differs from `c`; `a` is a suspended owner, `p` an active member. */
  ghost predicate Primed(c: Db, d: Db, p: ActorId, o: OrgId, a: ActorId, b: ActorId) {
    && d.actors == c.actors && d.orgs.Keys == c.orgs.Keys && o in d.orgs
    && (forall q :: q in d.orgs && q != o ==> d.orgs[q] == c.orgs[q])
    && a in d.orgs[o].members && d.orgs[o].members[a].role.Owner? && d.orgs[o].members[a].status.Suspended?
    && ActiveMember(d.orgs[o], p) && !ActiveOwner(d.orgs[o], p)
    && ActiveOwners(d.orgs[o]) == {b}
  }

  /** Unsafe to start, in a sound state, means both are members, the performer suspended. */
  lemma UnsafeMeans(c: Db, p: ActorId, o: OrgId, a: ActorId)
    requires Ok(c) && p in c.actors && a in c.actors && LastNowhere(c, a)
    requires !(a in VisibleActors(c, p, a)) && !Futile(c, Blind(p, o, a))
    ensures p != a && o in c.orgs && p in c.orgs[o].members && a in c.orgs[o].members
    ensures c.orgs[o].members[p].status.Suspended? && !c.orgs[o].members[a].status.Left?
    ensures VisibleActors(c, p, a) == {p} && !c.actors[p].departed && !c.actors[a].departed
    ensures exists b :: b != a && b != p && b in c.actors && ActiveOwner(c.orgs[o], b)
  {
    assert ActiveIn(c, p, o) ==> Sees(c, p, a);
    assert OrgOk(c.actors, c.orgs[o]) && Owned(c.orgs[o]);
    var b: ActorId :| ActiveOwner(c.orgs[o], b);
    if ActiveMember(c.orgs[o], a) {
      assert ActiveIn(c, a, o) && OwnersRemain(c, a, o);
      b :| b in ActiveOwners(c.orgs[o]) && b != a;
    }
    assert b in c.orgs[o].members;
  }

  /** The organization differs from `c`'s in memberships only, and nothing else differs. */
  ghost predicate Edited(c: Db, d: Db, o: OrgId) {
    && o in c.orgs && d.actors == c.actors && d.orgs.Keys == c.orgs.Keys
    && (forall q :: q in c.orgs && q != o ==> d.orgs[q] == c.orgs[q])
    && d.orgs[o].members.Keys == c.orgs[o].members.Keys
  }

  ghost predicate SuspendedOwner(d: Db, o: OrgId, a: ActorId) {
    && o in d.orgs && a in d.orgs[o].members
    && d.orgs[o].members[a].role.Owner? && d.orgs[o].members[a].status.Suspended?
  }

  /** The target is suspended, if it is not, and made an owner. */
  lemma PrimesTarget(c: Db, others: map<nat, Txn>, o: OrgId, a: ActorId, b: ActorId) returns (d: Db)
    requires o in c.orgs && a in c.orgs[o].members && !c.orgs[o].members[a].status.Left?
    requires b != a && b in c.actors && ActiveOwner(c.orgs[o], b) && 1 !in others && Aside(others, o, {b})
    ensures Leads(Careful, Sys(c, others), Sys(d, others)) && Edited(c, d, o) && SuspendedOwner(d, o, a)
    ensures forall x :: x in c.orgs[o].members && x != a ==> d.orgs[o].members[x] == c.orgs[o].members[x]
  {
    var m := c;
    if c.orgs[o].members[a].status.Active? {
      m := Suspends(c, others, o, b, a);
    } else {
      LeadsNowhere(Careful, Sys(c, others));
    }
    d := SetsRole(m, others, o, b, a, OrganizationRole.Owner);
    LeadsOn(Careful, Sys(c, others), Sys(m, others), Sys(d, others));
  }

  /** The performer is made an active member that is no owner. */
  lemma PrimesPerformer(c: Db, others: map<nat, Txn>, o: OrgId, p: ActorId, b: ActorId) returns (d: Db)
    requires o in c.orgs && p in c.orgs[o].members && c.orgs[o].members[p].status.Suspended?
    requires b != p && b in c.actors && ActiveOwner(c.orgs[o], b) && 1 !in others && Aside(others, o, {b, p})
    requires p in c.actors && !c.actors[p].departed
    ensures Leads(Careful, Sys(c, others), Sys(d, others)) && Edited(c, d, o)
    ensures forall x :: x in c.orgs[o].members && x != p ==> d.orgs[o].members[x] == c.orgs[o].members[x]
    ensures ActiveMember(d.orgs[o], p) && !ActiveOwner(d.orgs[o], p)
  {
    var m := SetsRole(c, others, o, b, p, OrganizationRole.Member);
    d := Reactivates(m, others, o, b, p);
    LeadsOn(Careful, Sys(c, others), Sys(m, others), Sys(d, others));
  }

  /** While the blind reactivation waits, an owner arranges the memberships. */
  lemma Arranges(c: Db, p: ActorId, o: OrgId, a: ActorId, b: ActorId) returns (d: Db)
    requires p != a && o in c.orgs && p in c.orgs[o].members && a in c.orgs[o].members
    requires c.orgs[o].members[p].status.Suspended? && !c.orgs[o].members[a].status.Left?
    requires b != a && b != p && b in c.actors && ActiveOwner(c.orgs[o], b) && p in c.actors && !c.actors[p].departed
    ensures Leads(Careful, Sys(c, map[0 := Waiting(p, o, a)]), Sys(d, map[0 := Waiting(p, o, a)]))
    ensures Primed(c, d, p, o, a, b)
  {
    var others := map[0 := Waiting(p, o, a)];
    var m := PrimesTarget(c, others, o, a, b);
    var n := PrimesPerformer(m, others, o, p, b);
    LeadsOn(Careful, Sys(c, others), Sys(m, others), Sys(n, others));
    d := DemotesRest(n, others, o, b);
    LeadsOn(Careful, Sys(c, others), Sys(n, others), Sys(d, others));
  }

  /** The target's departure begins: it is active in other organizations only, and last owner in none. */
  lemma Departs(c: Db, d: Db, p: ActorId, o: OrgId, a: ActorId, b: ActorId)
    requires Primed(c, d, p, o, a, b) && p != a && LastNowhere(c, a) && a in c.actors && !c.actors[a].departed
    ensures var others := map[0 := Waiting(p, o, a)];
            Leads(Careful, Sys(d, others), Sys(d, others[2 := ReadyToLeave(d, a)]))
    ensures o !in ActiveOrgs(d, a)
  {
    var others := map[0 := Waiting(p, o, a)];
    forall q | ActiveIn(d, a, q) ensures OwnersRemain(d, a, q) {
      assert q != o && ActiveIn(c, a, q);
    }
    CarefulIsLenient();
    DepartureReads(Careful, d, others, 2, a);
  }

  function Leaver(d: Db, a: ActorId): map<nat, Txn> {
    map[2 := ReadyToLeave(d, a)]
  }

  /** The blind reactivation commits: it never read that the member was leaving. */
  lemma BlindlyReactivates(c: Db, d: Db, p: ActorId, o: OrgId, a: ActorId, b: ActorId) returns (e: Db)
    requires Primed(c, d, p, o, a, b) && p != a && o !in ActiveOrgs(d, a)
    ensures Leads(Careful, Sys(d, Leaver(d, a)[0 := Waiting(p, o, a)]), Sys(e, Leaver(d, a)))
    ensures OneRow(d, e, o, a, d.orgs[o].members[a].(status := Active))
  {
    var op := Blind(p, o, a);
    CarefulIsLenient();
    LeaverAside(d, a, o, p);
    ChangeCommits(Careful, d, Leaver(d, a), 0, op, None, {Hold(ActorRow(p), Share)});
    e := Settle(d, o, p, op.change, Decided(d, op, None)).db;
    SettledRow(d, op, a, d.orgs[o].members[a].(status := Active), None);
  }

  lemma LeaverAside(d: Db, a: ActorId, o: OrgId, x: ActorId)
    requires x != a && o !in ActiveOrgs(d, a)
    ensures Aside(Leaver(d, a), o, {x})
  {
    assert forall q :: q in Sorted(ActiveOrgs(d, a)) <==> q in ActiveOrgs(d, a);
  }

  lemma TwoOwners(d: Db, e: Db, o: OrgId, a: ActorId, b: ActorId)
    requires SuspendedOwner(d, o, a) && OneRow(d, e, o, a, d.orgs[o].members[a].(status := Active))
    requires ActiveOwners(d.orgs[o]) == {b}
    ensures o in e.orgs && ActiveOwners(e.orgs[o]) == {a, b}
  {
    forall x ensures ActiveOwner(e.orgs[o], x) <==> x == a || x == b {
      assert ActiveOwner(d.orgs[o], x) <==> x in ActiveOwners(d.orgs[o]);
    }
  }

  /** The last other owner steps down: the member just reactivated counts as the owner that remains. */
  lemma StepsDown(d: Db, e: Db, o: OrgId, a: ActorId, b: ActorId) returns (f: Db)
    requires SuspendedOwner(d, o, a) && OneRow(d, e, o, a, d.orgs[o].members[a].(status := Active))
    requires b != a && b in d.actors && o !in ActiveOrgs(d, a) && ActiveOwners(d.orgs[o]) == {b}
    ensures Leads(Careful, Sys(e, Leaver(d, a)), Sys(f, Leaver(d, a))) && o in f.orgs
    ensures ActiveOwners(f.orgs[o]) == {a}
  {
    LeaverAside(d, a, o, b);
    TwoOwners(d, e, o, a, b);
    assert a in ActiveOwners(e.orgs[o]) && b in ActiveOwners(e.orgs[o]);
    f := SetsRole(e, Leaver(d, a), o, b, b, OrganizationRole.Member);
    DemotedOwners(e, f, o, b);
  }

  lemma LeadsKeepsOk(ok: (Sys, Step) -> bool, s: Sys, n: Sys)
    requires SysOk(s) && Leads(ok, s, n)
    ensures SysOk(n)
  {
    var steps :| IsRun(s, steps) && Always(ok, s, steps) && Reached(s, steps) == n;
    InterleavingsAreSerial(s, steps);
  }

  /** The departure commits and takes the last owner with it. */
  lemma LeavesNoOwner(s: Sys, d: Db, f: Db, o: OrgId, a: ActorId)
    requires SysOk(s) && Leads(Careful, s, Sys(f, Leaver(d, a))) && o in f.orgs
    requires ActiveOwners(f.orgs[o]) == {a}
    ensures exists n :: Leads(Careful, s, n) && !AllOwned(n.db)
  {
    LeadsKeepsOk(Careful, s, Sys(f, Leaver(d, a)));
    CarefulIsLenient();
    assert map[][2 := ReadyToLeave(d, a)] == Leaver(d, a);
    assert 2 in Leaver(d, a) && Knows(f, ReadyToLeave(d, a));
    var g := DepartureFinishes(Careful, f, 2, ReadyToLeave(d, a));
    LeadsOn(Careful, s, Sys(f, Leaver(d, a)), Sys(g, map[]));
    NoOwnerLeft(f, o, a);
  }

  lemma NoOwnerLeft(f: Db, o: OrgId, a: ActorId)
    requires o in f.orgs && ActiveOwners(f.orgs[o]) == {a} && Land(f, LeaveService(a)).reply.Done?
    ensures !AllOwned(Land(f, LeaveService(a)).db)
  {
    assert Land(f, LeaveService(a)).db.orgs[o] == LeaveOrg(f.orgs[o], a);
    forall x ensures !ActiveOwner(LeaveOrg(f.orgs[o], a), x) {
      assert ActiveOwner(f.orgs[o], x) <==> x in ActiveOwners(f.orgs[o]);
    }
    assert !Owned(LeaveOrg(f.orgs[o], a));
  }

  // ---- the start, and what it leads to ----

  /** The system once the first statement of a lone reactivation has run. */
  ghost function Begun(c: Db, p: ActorId, o: OrgId, a: ActorId): Sys {
    var s := Do(Sys(c, map[]), Begin(0, Blind(p, o, a)));
    Do(s, Run(0))
  }

  lemma BegunIs(c: Db, p: ActorId, o: OrgId, a: ActorId)
    ensures var visible := VisibleActors(c, p, a);
            Begun(c, p, o, a) == Sys(c, map[][0 := Txn(Blind(p, o, a).(sighted := a in visible),
                                                      ActorLocks(Sorted(visible), None), {})])
  {
    var t := Txn(Blind(p, o, a), Start, {});
    assert Do(Sys(c, map[]), Begin(0, Blind(p, o, a))) == Sys(c, map[][0 := t]);
    assert Taken(c, t) == {} && t.held + Taken(c, t) == {};
    assert forall n: Txn {:trigger map[][0 := n]} :: map[][0 := t][0 := n] == map[][0 := n];
  }

  lemma BlindlyWaits(c: Db, p: ActorId, o: OrgId, a: ActorId)
    requires p in c.actors && VisibleActors(c, p, a) == {p} && p != a
    ensures Leads(Careful, Begun(c, p, o, a), Sys(c, map[0 := Waiting(p, o, a)]))
  {
    BegunIs(c, p, o, a);
    CarefulIsLenient();
    assert Sorted({p}) == [p] by { assert Least({p}) == p && {p} - {p} == {}; }
    Goes(Careful, c, map[], 0, Txn(Blind(p, o, a), ActorLocks([p], None), {}), Waiting(p, o, a));
    assert map[][0 := Waiting(p, o, a)] == map[0 := Waiting(p, o, a)];
  }

  lemma BegunOk(c: Db, p: ActorId, o: OrgId, a: ActorId)
    requires Sound(c)
    ensures SysOk(Begun(c, p, o, a))
  {
    var s := Sys(c, map[]);
    StepKeeps(s, Begin(0, Blind(p, o, a)));
    StepKeeps(Do(s, Begin(0, Blind(p, o, a))), Run(0));
  }

  /** From the arranged memberships to the moment only the departing member is left as an owner. */
  lemma Unravels(c: Db, d: Db, p: ActorId, o: OrgId, a: ActorId, b: ActorId) returns (f: Db)
    requires Primed(c, d, p, o, a, b) && p != a && b != a && b in c.actors && LastNowhere(c, a)
    requires a in c.actors && !c.actors[a].departed
    ensures Leads(Careful, Sys(d, map[0 := Waiting(p, o, a)]), Sys(f, Leaver(d, a)))
    ensures o in f.orgs && ActiveOwners(f.orgs[o]) == {a}
  {
    var w := map[0 := Waiting(p, o, a)];
    Departs(c, d, p, o, a, b);
    assert w[2 := ReadyToLeave(d, a)] == Leaver(d, a)[0 := Waiting(p, o, a)];
    var e := BlindlyReactivates(c, d, p, o, a, b);
    LeadsOn(Careful, Sys(d, w), Sys(d, w[2 := ReadyToLeave(d, a)]), Sys(e, Leaver(d, a)));
    f := StepsDown(d, e, o, a, b);
    LeadsOn(Careful, Sys(d, w), Sys(e, Leaver(d, a)), Sys(f, Leaver(d, a)));
  }

  /** From an unsafe start, a run careful in everything else leaves an organization without an active owner. */
  lemma UnsafeStartLosesOwner(c: Db, p: ActorId, o: OrgId, a: ActorId)
    requires Ok(c) && p in c.actors && a in c.actors && LastNowhere(c, a)
    requires !(a in VisibleActors(c, p, a)) && !Futile(c, Blind(p, o, a))
    ensures exists n :: Leads(Careful, Begun(c, p, o, a), n) && !AllOwned(n.db)
  {
    var s, w := Begun(c, p, o, a), map[0 := Waiting(p, o, a)];
    UnsafeMeans(c, p, o, a);
    var b :| b != a && b != p && b in c.actors && ActiveOwner(c.orgs[o], b);
    BlindlyWaits(c, p, o, a);
    var d := Arranges(c, p, o, a, b);
    LeadsOn(Careful, s, Sys(c, w), Sys(d, w));
    var f := Unravels(c, d, p, o, a, b);
    LeadsOn(Careful, s, Sys(d, w), Sys(f, Leaver(d, a)));
    BegunOk(c, p, o, a);
    LeavesNoOwner(s, d, f, o, a);
  }

  lemma SafeStartKeepsOwners(c: Db, p: ActorId, o: OrgId, a: ActorId, steps: seq<Step>)
    requires Ok(c) && (a in VisibleActors(c, p, a) || Futile(c, Blind(p, o, a)))
    requires IsRun(Begun(c, p, o, a), steps) && Always(Careful, Begun(c, p, o, a), steps)
    ensures AllOwned(Reached(Begun(c, p, o, a), steps).db)
  {
    var s := Sys(c, map[]);
    var m := Do(s, Begin(0, Blind(p, o, a)));
    StepKeeps(s, Begin(0, Blind(p, o, a)));
    CarefulStep(s, Begin(0, Blind(p, o, a)));
    StepKeeps(m, Run(0));
    CarefulStep(m, Run(0));
    OwnersSurvive(Begun(c, p, o, a), steps);
  }

  /** Owners are kept by everything that can follow a reactivation's start, all later starts being safe. */
  ghost predicate OwnersKeptAfter(c: Db, p: ActorId, o: OrgId, a: ActorId) {
    forall steps :: IsRun(Begun(c, p, o, a), steps) && Always(Careful, Begun(c, p, o, a), steps) ==>
      AllOwned(Reached(Begun(c, p, o, a), steps).db)
  }

  /** In every sound state, for every performer, organization and member who is nowhere a last owner: starting the
      reactivation keeps owners, whatever else then happens carefully, if and only if the performer sees the member or
      the two can never be members together. */
  lemma OwnersKeptIffStartSafe(c: Db, p: ActorId, o: OrgId, a: ActorId)
    requires Ok(c) && p in c.actors && a in c.actors && LastNowhere(c, a)
    ensures OwnersKeptAfter(c, p, o, a) <==> a in VisibleActors(c, p, a) || Futile(c, Blind(p, o, a))
  {
    if a in VisibleActors(c, p, a) || Futile(c, Blind(p, o, a)) {
      forall steps | IsRun(Begun(c, p, o, a), steps) && Always(Careful, Begun(c, p, o, a), steps)
        ensures AllOwned(Reached(Begun(c, p, o, a), steps).db)
      {
        SafeStartKeepsOwners(c, p, o, a, steps);
      }
    } else {
      UnsafeStartLosesOwner(c, p, o, a);
      var n :| Leads(Careful, Begun(c, p, o, a), n) && !AllOwned(n.db);
      var steps :| IsRun(Begun(c, p, o, a), steps) && Always(Careful, Begun(c, p, o, a), steps)
                   && Reached(Begun(c, p, o, a), steps) == n;
    }
  }
}
