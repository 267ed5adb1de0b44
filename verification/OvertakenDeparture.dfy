/** A departure whose actor is suspended in an organization between listing its organizations and locking that one is
    refused as if it were the last owner there, though nothing stands in its way. */
module OvertakenDeparture {
  import opened Domain
  import opened Store
  import opened Operations
  import opened Integrity
  import opened Transactions
  import opened Rely
  import opened Serial
  import opened Owners
  import opened Scripts
  import opened BlindReactivation
  import opened Refusals
  import A = Alone

  /** A departure's owner checks go on to the one of `o`. */
  lemma {:induction false} ReachesCheck(d: Db, a: ActorId, orgs: seq<OrgId>, all: set<OrgId>, held: set<Hold>, o: OrgId)
    returns (rest: seq<OrgId>)
    requires o in orgs && forall q :: q in orgs && q != o ==> ActiveIn(d, a, q) && OwnersRemain(d, a, q)
    ensures Leads(Careful, Sys(d, map[][2 := LeaveTxn(a, Checks(orgs, all), held)]),
                  Sys(d, map[][2 := LeaveTxn(a, Checks([o] + rest, all), held)]))
    decreases |orgs|
  {
    var t, n := LeaveTxn(a, Checks(orgs, all), held), LeaveTxn(a, Checks(orgs[1..], all), held);
    if orgs[0] == o {
      rest := orgs[1..];
      assert orgs == [o] + rest;
      LeadsNowhere(Careful, Sys(d, map[][2 := t]));
    } else {
      CarefulIsLenient();
      assert orgs[0] in orgs && Taken(d, t) == {};
      Goes(Careful, d, map[], 2, t, n);
      rest := ReachesCheck(d, a, orgs[1..], all, held, o);
      LeadsOn(Careful, Sys(d, map[][2 := t]), Sys(d, map[][2 := n]),
              Sys(d, map[][2 := LeaveTxn(a, Checks([o] + rest, all), held)]));
    }
  }

  /** Suspending `a` in `o` changes nothing about the other organizations. */
  lemma OthersAsBefore(c: Db, d: Db, o: OrgId, a: ActorId)
    requires o in c.orgs && a in c.orgs[o].members && LastNowhere(c, a)
    requires OneRow(c, d, o, a, c.orgs[o].members[a].(status := Suspended))
    ensures !ActiveIn(d, a, o) && LastNowhere(d, a)
    ensures forall q :: q in ActiveOrgs(c, a) && q != o ==> ActiveIn(d, a, q) && OwnersRemain(d, a, q)
  {
    forall q | q in d.orgs && q != o ensures ActiveIn(d, a, q) <==> ActiveIn(c, a, q)
      ensures ActiveIn(c, a, q) ==> OwnersRemain(d, a, q)
    {
      assert d.orgs[q] == c.orgs[q];
      if ActiveIn(c, a, q) { assert OwnersRemain(c, a, q); }
    }
    assert d.orgs[o].members[a].status.Suspended?;
  }

  /** The departure has listed its organizations, and the owner `b` suspends its actor in `o`. */
  lemma SuspendedMeanwhile(c: Db, o: OrgId, a: ActorId, b: ActorId) returns (d: Db)
    requires a in c.actors && !c.actors[a].departed && ActiveIn(c, a, o)
    requires b != a && b in c.actors && ActiveOwner(c.orgs[o], b)
    ensures OneRow(c, d, o, a, c.orgs[o].members[a].(status := Suspended))
    ensures Leads(Careful, Sys(c, map[]),
                  Sys(d, map[][2 := LeaveTxn(a, OrgLocks(Sorted(ActiveOrgs(c, a)), ActiveOrgs(c, a)),
                                             {Hold(ActorRow(a), Update)})]))
  {
    var none: map<nat, Txn> := map[];
    var t := LeaveTxn(a, OrgLocks(Sorted(ActiveOrgs(c, a)), ActiveOrgs(c, a)), {Hold(ActorRow(a), Update)});
    CarefulIsLenient();
    DepartureStarts(Careful, c, none, 2, a);
    d := Suspends(c, none[2 := t], o, b, a);
    LeadsOn(Careful, Sys(c, none), Sys(c, none[2 := t]), Sys(d, none[2 := t]));
  }

  /** From its organization locks to the check in the organization it is no longer active in. */
  lemma ReachesRefusal(d: Db, a: ActorId, o: OrgId, all: set<OrgId>) returns (t: Txn)
    requires o in all && !ActiveIn(d, a, o)
    requires forall q :: q in all && q != o ==> ActiveIn(d, a, q) && OwnersRemain(d, a, q)
    ensures Leads(Careful, Sys(d, map[][2 := LeaveTxn(a, OrgLocks(Sorted(all), all), {Hold(ActorRow(a), Update)})]),
                  Sys(d, map[][2 := t]))
    ensures t.op == LeaveService(a) && Advance(d, t).Abort? && Overtaken(d, t)
  {
    var held := {Hold(ActorRow(a), Update)};
    var more := held + OrgUpdates(Sorted(all));
    CarefulIsLenient();
    LocksAllOrgs(Careful, d, map[], 2, a, all, held);
    var rest := ReachesCheck(d, a, Sorted(all), all, more, o);
    t := LeaveTxn(a, Checks([o] + rest, all), more);
    LeadsOn(Careful, Sys(d, map[][2 := LeaveTxn(a, OrgLocks(Sorted(all), all), held)]),
            Sys(d, map[][2 := LeaveTxn(a, Checks(Sorted(all), all), more)]), Sys(d, map[][2 := t]));
  }

  /** In every sound state, for every actor that is nowhere a last owner and every organization it is active in beside
      another owner: some run brings its departure to an owner check that refuses it, where alone it would succeed. */
  lemma SuspensionOvertakesDeparture(c: Db, o: OrgId, a: ActorId, b: ActorId)
    requires a in c.actors && !c.actors[a].departed && ActiveIn(c, a, o) && LastNowhere(c, a)
    requires b != a && b in c.actors && ActiveOwner(c.orgs[o], b)
    ensures exists d, t ::
              && Leads(Careful, Sys(c, map[]), Sys(d, map[][2 := t])) && t.op == LeaveService(a)
              && Advance(d, t).Abort? && Overtaken(d, t) && Apply(d, t.op).reply.Done?
  {
    var all := ActiveOrgs(c, a);
    var d := SuspendedMeanwhile(c, o, a, b);
    OthersAsBefore(c, d, o, a);
    var t := ReachesRefusal(d, a, o, all);
    LeadsOn(Careful, Sys(c, map[]),
            Sys(d, map[][2 := LeaveTxn(a, OrgLocks(Sorted(all), all), {Hold(ActorRow(a), Update)})]),
            Sys(d, map[][2 := t]));
    A.AllChecked(d, a);
  }
}
