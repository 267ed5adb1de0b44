/** A transaction that runs alone goes through all its statements and ends as its operation is specified to: it commits
    exactly when the operation succeeds, and leaves exactly its tables. */
module Alone {
  import opened Domain
  import opened Store
  import opened Operations
  import opened Integrity
  import opened Transactions
  import opened Rely
  import opened Serial
  import opened Outcomes
  import S = Scripts

  // ---- statement after statement ----

  /** After `n` more statements and a last one the transaction has committed the tables of `r`, or aborted if `r` is a
      refusal. */
  ghost predicate EndsIn(c: Db, t: Txn, n: nat, op: Op, r: Result)
    decreases n
  {
    match Advance(c, t)
    case Continue(next, phase) => n > 0 && EndsIn(c, Txn(next, phase, t.held + Taken(c, t)), n - 1, op, r)
    case Commit(d) => t.op == op && r == Result(Done, d)
    case Abort => r.reply.Refused? && r.db == c
  }

  ghost predicate Ends(c: Db, t: Txn, op: Op, r: Result) {
    exists n: nat :: EndsIn(c, t, n, op, r)
  }

  lemma GoesOn(c: Db, t: Txn, op: Op, r: Result)
    requires Advance(c, t).Continue?
    requires Ends(c, Txn(Advance(c, t).op, Advance(c, t).phase, t.held + Taken(c, t)), op, r)
    ensures Ends(c, t, op, r)
  {
    var n: nat :| EndsIn(c, Txn(Advance(c, t).op, Advance(c, t).phase, t.held + Taken(c, t)), n, op, r);
    assert EndsIn(c, t, n + 1, op, r);
  }

  lemma EndsNow(c: Db, t: Txn, op: Op, r: Result)
    requires EndsIn(c, t, 0, op, r)
    ensures Ends(c, t, op, r)
  {}

  // ---- changes ----

  lemma WritingEnds(c: Db, op: Op, departed: Option<bool>, held: set<Hold>)
    requires op.InOrg? && op.org in c.orgs
    ensures Ends(c, Txn(op, Writing(departed, c.orgs[op.org], ActiveOwners(c.orgs[op.org])), held), op,
                 Settle(c, op.org, op.performer, op.change, S.Decided(c, op, departed)))
  {
    var d := S.Decided(c, op, departed);
    if Settle(c, op.org, op.performer, op.change, d).reply.Refused? {
      SettledOrNot(c, op.org, op.performer, op.change, d);
    }
    EndsNow(c, Txn(op, Writing(departed, c.orgs[op.org], ActiveOwners(c.orgs[op.org])), held), op,
            Settle(c, op.org, op.performer, op.change, d));
  }

  lemma ReadingEnds(c: Db, op: Op, departed: Option<bool>, held: set<Hold>)
    requires op.InOrg? && ActiveIn(c, op.performer, op.org)
    ensures Ends(c, Txn(op, Rows(departed), held), op,
                 Settle(c, op.org, op.performer, op.change, S.Decided(c, op, departed)))
  {
    var rows := c.orgs[op.org];
    var r := Settle(c, op.org, op.performer, op.change, S.Decided(c, op, departed));
    var t := Txn(op, Rows(departed), held);
    var u := Txn(op, Owners(departed, rows), held + Taken(c, t));
    WritingEnds(c, op, departed, u.held + Taken(c, u));
    GoesOn(c, u, op, r);
    GoesOn(c, t, op, r);
  }

  /** From the last actor lock on. */
  lemma LockedEnds(c: Db, op: Op, held: set<Hold>)
    requires op.InOrg?
    ensures Ends(c, Txn(op, ActorLocks([], Departed(c, op)), held), op, ApplyInOrg(c, op))
  {
    var t := Txn(op, ActorLocks([], Departed(c, op)), held);
    if ActiveIn(c, op.performer, op.org) {
      var u := Txn(op, OrgLock(Departed(c, op)), held + Taken(c, t));
      ReadingEnds(c, op, Departed(c, op), u.held + Taken(c, u));
      GoesOn(c, u, op, ApplyInOrg(c, op));
      GoesOn(c, t, op, ApplyInOrg(c, op));
    } else {
      EndsNow(c, t, op, ApplyInOrg(c, op));
    }
  }

  lemma {:induction false} LockingEnds(c: Db, op: Op, todo: seq<ActorId>, departed: Option<bool>, held: set<Hold>)
    requires op.InOrg? && S.SeenDeparted(c, op.change, todo, departed) == Departed(c, op)
    ensures Ends(c, Txn(op, ActorLocks(todo, departed), held), op, ApplyInOrg(c, op))
    decreases |todo|
  {
    var t := Txn(op, ActorLocks(todo, departed), held);
    if todo == [] {
      LockedEnds(c, op, held);
    } else {
      assert forall x :: x in todo <==> x == todo[0] || x in todo[1..];
      LockingEnds(c, op, todo[1..], S.SeenDeparted(c, op.change, [todo[0]], departed), held + Taken(c, t));
      GoesOn(c, t, op, ApplyInOrg(c, op));
    }
  }

  /** The operation with what lock_actor's first look at the tables finds. */
  function Sighted(c: Db, op: Op): Op {
    if op.InOrg? && op.change.LocksTarget() then
      op.(sighted := op.change.target in c.actors && Sees(c, op.performer, op.change.target))
    else op
  }

  lemma ChangeEnds(c: Db, op: Op)
    requires op.InOrg?
    ensures Ends(c, Txn(op, Start, {}), Sighted(c, op), ApplyInOrg(c, Sighted(c, op)))
  {
    var t, seen := Txn(op, Start, {}), Sighted(c, op);
    var phase := Advance(c, t).phase;
    assert S.SeenDeparted(c, seen.change, phase.todo, phase.departed) == Departed(c, seen);
    LockingEnds(c, seen, phase.todo, phase.departed, t.held + Taken(c, t));
    GoesOn(c, t, seen, ApplyInOrg(c, seen));
  }

  // ---- invites ----

  lemma AuthorizingEnds(c: Db, op: Op, held: set<Hold>)
    requires (op.CreateInvite? || op.RevokeInvite?) && ActiveIn(c, op.performer, op.org)
    ensures Ends(c, Txn(op, Authorizing, held), op, Apply(c, op))
  {
    var t, r := Txn(op, Authorizing, held), Apply(c, op);
    if Advance(c, t).Continue? {
      var u := Txn(op, Advance(c, t).phase, held + Taken(c, t));
      if Advance(c, u).Continue? {
        EndsNow(c, Txn(op, Revoking, u.held + Taken(c, u)), op, r);
        GoesOn(c, u, op, r);
      } else {
        EndsNow(c, u, op, r);
      }
      GoesOn(c, t, op, r);
    } else {
      EndsNow(c, t, op, r);
    }
  }

  lemma {:induction false} InviteLocksEnd(c: Db, op: Op, todo: seq<ActorId>, departed: Option<bool>, held: set<Hold>)
    requires op.CreateInvite? || op.RevokeInvite?
    ensures Ends(c, Txn(op, ActorLocks(todo, departed), held), op, Apply(c, op))
    decreases |todo|
  {
    var t, r := Txn(op, ActorLocks(todo, departed), held), Apply(c, op);
    if todo != [] {
      InviteLocksEnd(c, op, todo[1..], departed, held + Taken(c, t));
      GoesOn(c, t, op, r);
    } else if ActiveIn(c, op.performer, op.org) {
      var u := Txn(op, OrgLock(departed), held + Taken(c, t));
      AuthorizingEnds(c, op, u.held + Taken(c, u));
      GoesOn(c, u, op, r);
      GoesOn(c, t, op, r);
    } else {
      EndsNow(c, t, op, r);
    }
  }

  lemma InviteEnds(c: Db, op: Op)
    requires op.CreateInvite? || op.RevokeInvite?
    ensures Ends(c, Txn(op, Start, {}), op, Apply(c, op))
  {
    var t := Txn(op, Start, {});
    InviteLocksEnd(c, op, Advance(c, t).phase.todo, Some(false), t.held + Taken(c, t));
    GoesOn(c, t, op, Apply(c, op));
  }

  // ---- people ----

  lemma JoiningEnds(c: Db, op: Op, o: OrgId, i: InviteId, held: set<Hold>)
    requires op.AcceptInvite? && Locate(c, op.presented) == At(o, i) && Usable(c.orgs[o].invites[i], op.now)
    requires c.orgs[o].invites[i].kind.ForOrganization?
    ensures Ends(c, Txn(op, NewPerson(o, i), held), op, ApplyAccept(c, op))
  {
    var t, r := Txn(op, NewPerson(o, i), held), ApplyAccept(c, op);
    if op.actor in c.actors || EmailTaken(c, op.email) {
      EndsNow(c, t, op, r);
    } else {
      WelcomeEnds(c, op, o, i, held + Taken(c, t));
      GoesOn(c, t, op, r);
    }
  }

  lemma WelcomeEnds(c: Db, op: Op, o: OrgId, i: InviteId, held: set<Hold>)
    requires op.AcceptInvite? && Locate(c, op.presented) == At(o, i) && Usable(c.orgs[o].invites[i], op.now)
    requires c.orgs[o].invites[i].kind.ForOrganization? && op.actor !in c.actors && !EmailTaken(c, op.email)
    ensures Ends(c, Txn(op, Joining(o, i), held), op, ApplyAccept(c, op))
  {
    var t, r := Txn(op, Joining(o, i), held), ApplyAccept(c, op);
    EndsNow(c, Txn(op, Welcoming(o, i), held + Taken(c, t)), op, r);
    GoesOn(c, t, op, r);
  }

  lemma AcceptanceEnds(c: Db, op: Op)
    requires op.AcceptInvite?
    ensures Ends(c, Txn(op, Start, {}), op, ApplyAccept(c, op))
  {
    var t, r, l := Txn(op, Start, {}), ApplyAccept(c, op), Locate(c, op.presented);
    if l.At? && Usable(c.orgs[l.org].invites[l.invite], op.now) {
      var u := Txn(op, Using(l.org, l.invite), t.held + Taken(c, t));
      if c.orgs[l.org].invites[l.invite].kind.ForOrganization? {
        JoiningEnds(c, op, l.org, l.invite, u.held + Taken(c, u));
        GoesOn(c, u, op, r);
      } else {
        EndsNow(c, u, op, r);
      }
      GoesOn(c, t, op, r);
    } else {
      EndsNow(c, t, op, r);
    }
  }

  lemma FoundingEnds(c: Db, op: Op)
    requires op.CreateOrganization?
    ensures Ends(c, Txn(op, Start, {}), op, Apply(c, op))
  {
    var t, r := Txn(op, Start, {}), Apply(c, op);
    if Advance(c, t).Continue? {
      EndsNow(c, Txn(op, Founding, t.held + Taken(c, t)), op, r);
      GoesOn(c, t, op, r);
    } else {
      EndsNow(c, t, op, r);
    }
  }

  lemma VerifiedEnds(c: Db, op: Op, a: ActorId, held: set<Hold>)
    requires op.SignIn? && op.verified && PersonAt(c, op.email) == Some(a)
    ensures Ends(c, Txn(op, PasswordAccepted(a), held), op, ApplySignIn(c, op))
  {
    var t, r := Txn(op, PasswordAccepted(a), held), ApplySignIn(c, op);
    if a in c.actors && !c.actors[a].departed {
      var u := Txn(op, Rereading(a), held + Taken(c, t));
      EndsNow(c, Txn(op, Present(a), u.held + Taken(c, u)), op, r);
      GoesOn(c, u, op, r);
      GoesOn(c, t, op, r);
    } else {
      EndsNow(c, t, op, r);
    }
  }

  lemma SignInEnds(c: Db, op: Op)
    requires op.SignIn?
    ensures Ends(c, Txn(op, Start, {}), op, ApplySignIn(c, op))
  {
    var t, r, person := Txn(op, Start, {}), ApplySignIn(c, op), PersonAt(c, op.email);
    if person.Some? && op.verified {
      VerifiedEnds(c, op, person.value, t.held + Taken(c, t));
      GoesOn(c, t, op, r);
    } else {
      EndsNow(c, t, op, r);
    }
  }

  // ---- departures ----

  lemma {:induction false} RemovalEnds(c: Db, t: Txn)
    requires Sound(c) && t.op.LeaveService? && S.Removing(t.phase) && Knows(c, t)
    requires Apply(c, t.op) == Land(c, t.op)
    ensures Ends(c, t, t.op, Apply(c, t.op))
    decreases S.Passes(t.phase), S.Left(t.phase)
  {
    S.RemovalGoesOn(c, t);
    if t.phase.Finish? {
      AlwaysSerializes(c, t);
      EndsNow(c, t, t.op, Apply(c, t.op));
    } else {
      AlwaysProceeds(c, t);
      RemovalEnds(c, Txn(t.op, Advance(c, t).phase, t.held + Taken(c, t)));
      GoesOn(c, t, t.op, Apply(c, t.op));
    }
  }

  /** Once every owner check has passed. */
  lemma CheckedEnds(c: Db, t: Txn)
    requires Sound(c) && t.op.LeaveService? && Knows(c, t) && Apply(c, t.op) == Land(c, t.op)
    requires t.phase.Memberships? || t.phase.ListedOrgs?
    ensures Ends(c, t, t.op, Apply(c, t.op))
    decreases t.phase.Memberships?
  {
    AlwaysProceeds(c, t);
    var n := Txn(t.op, Advance(c, t).phase, t.held + Taken(c, t));
    if t.phase.Memberships? { CheckedEnds(c, n); } else { RemovalEnds(c, n); }
    GoesOn(c, t, t.op, Apply(c, t.op));
  }

  lemma AllChecked(c: Db, a: ActorId)
    requires a in c.actors && !c.actors[a].departed && forall o :: ActiveIn(c, a, o) ==> OwnersRemain(c, a, o)
    ensures ApplyLeave(c, a) == Result(Done, Leaving(c, a))
  {
    assert Abandoned(c, a) == {};
  }

  lemma CheckFails(c: Db, a: ActorId, o: OrgId)
    requires a in c.actors && ActiveIn(c, a, o) && !OwnersRemain(c, a, o)
    ensures ApplyLeave(c, a).reply.Refused? && ApplyLeave(c, a).db == c
  {
    assert o in Abandoned(c, a);
  }

  lemma {:induction false} ChecksEnd(c: Db, t: Txn)
    requires Sound(c) && t.op.LeaveService? && Knows(c, t) && t.phase.Checks?
    requires t.phase.all == ActiveOrgs(c, t.op.actor) && forall o :: o in t.phase.orgs ==> o in t.phase.all
    requires forall o :: o in t.phase.all && o !in t.phase.orgs ==> o in c.orgs && OwnersRemain(c, t.op.actor, o)
    ensures Ends(c, t, t.op, Apply(c, t.op))
    decreases |t.phase.orgs|
  {
    var a, orgs, r := t.op.actor, t.phase.orgs, Apply(c, t.op);
    if orgs == [] {
      AllChecksPassed(c, t);
    } else {
      assert orgs[0] in t.phase.all && ActiveIn(c, a, orgs[0]);
      if OwnersRemain(c, a, orgs[0]) {
        var n := CheckPassed(c, t);
        assert forall o :: o in orgs <==> o == orgs[0] || o in n.phase.orgs;
        ChecksEnd(c, n);
        GoesOn(c, t, t.op, r);
      } else {
        CheckRefused(c, t);
      }
    }
  }

  lemma CheckRefused(c: Db, t: Txn)
    requires t.op.LeaveService? && t.op.actor in c.actors && t.phase.Checks? && t.phase.orgs != []
    requires ActiveIn(c, t.op.actor, t.phase.orgs[0]) && !OwnersRemain(c, t.op.actor, t.phase.orgs[0])
    ensures Ends(c, t, t.op, Apply(c, t.op))
  {
    CheckFails(c, t.op.actor, t.phase.orgs[0]);
    EndsNow(c, t, t.op, Apply(c, t.op));
  }

  lemma CheckPassed(c: Db, t: Txn) returns (n: Txn)
    requires Identities(c) && t.op.LeaveService? && Knows(c, t) && t.phase.Checks? && t.phase.orgs != []
    requires ActiveIn(c, t.op.actor, t.phase.orgs[0]) && OwnersRemain(c, t.op.actor, t.phase.orgs[0])
    ensures n == Txn(t.op, Checks(t.phase.orgs[1..], t.phase.all), t.held + Taken(c, t)) && Knows(c, n)
    ensures Advance(c, t) == Continue(n.op, n.phase)
  {
    AlwaysProceeds(c, t);
    n := Txn(t.op, Checks(t.phase.orgs[1..], t.phase.all), t.held + Taken(c, t));
  }

  lemma AllChecksPassed(c: Db, t: Txn)
    requires Sound(c) && t.op.LeaveService? && Knows(c, t) && t.phase.Checks? && t.phase.orgs == []
    requires t.phase.all == ActiveOrgs(c, t.op.actor)
    requires forall o :: o in t.phase.all ==> o in c.orgs && OwnersRemain(c, t.op.actor, o)
    ensures Ends(c, t, t.op, Apply(c, t.op))
  {
    AlwaysProceeds(c, t);
    AllChecked(c, t.op.actor);
    CheckedEnds(c, Txn(t.op, Memberships(t.phase.all), t.held + Taken(c, t)));
    GoesOn(c, t, t.op, Apply(c, t.op));
  }

  lemma {:induction false} OrgLocksEnd(c: Db, t: Txn)
    requires Sound(c) && t.op.LeaveService? && Knows(c, t) && t.phase.OrgLocks?
    requires t.phase.all == ActiveOrgs(c, t.op.actor)
    ensures Ends(c, t, t.op, Apply(c, t.op))
    decreases |t.phase.orgs|
  {
    AlwaysProceeds(c, t);
    var n := Txn(t.op, Advance(c, t).phase, t.held + Taken(c, t));
    if t.phase.orgs == [] { ChecksEnd(c, n); } else { OrgLocksEnd(c, n); }
    GoesOn(c, t, t.op, Apply(c, t.op));
  }

  lemma DepartureEnds(c: Db, a: ActorId)
    requires Sound(c)
    ensures Ends(c, Txn(LeaveService(a), Start, {}), LeaveService(a), ApplyLeave(c, a))
  {
    var op := LeaveService(a);
    var t := Txn(op, Start, {});
    if a in c.actors && !c.actors[a].departed {
      AlwaysProceeds(c, t);
      var u := Txn(op, Scan, t.held + Taken(c, t));
      AlwaysProceeds(c, u);
      OrgLocksEnd(c, Txn(op, Advance(c, u).phase, u.held + Taken(c, u)));
      GoesOn(c, u, op, ApplyLeave(c, a));
      GoesOn(c, t, op, ApplyLeave(c, a));
    } else {
      EndsNow(c, t, op, ApplyLeave(c, a));
    }
  }

  // ---- every operation ----

  lemma EveryOperationEnds(c: Db, op: Op)
    requires Sound(c)
    ensures Ends(c, Txn(op, Start, {}), Sighted(c, op), Apply(c, Sighted(c, op)))
  {
    match op
    case InOrg(_, _, _, _) => ChangeEnds(c, op);
    case CreateInvite(_, _, _, _, _, _) => InviteEnds(c, op);
    case RevokeInvite(_, _, _) => InviteEnds(c, op);
    case AcceptInvite(_, _, _, _, _, _) => AcceptanceEnds(c, op);
    case CreatePerson(_, _, _, _) => EndsNow(c, Txn(op, Start, {}), op, Apply(c, op));
    case CreateOrganization(_, _, _) => FoundingEnds(c, op);
    case LeaveService(a) => DepartureEnds(c, a);
    case SignIn(_, _, _, _) => SignInEnds(c, op);
  }

  /** The transaction's own statements, and no crash. */
  predicate OnlyRuns(steps: seq<Step>) {
    forall k :: 0 <= k < |steps| ==> steps[k] == Run(0)
  }

  ghost predicate Leaves(c: Db, t: Txn, steps: seq<Step>, op: Op, r: Result) {
    && IsRun(Sys(c, map[0 := t]), steps) && OnlyRuns(steps)
    && Reached(Sys(c, map[0 := t]), steps) == Sys(r.db, map[])
    && Committed(Sys(c, map[0 := t]), steps) == if r.reply.Done? then [op] else []
  }

  lemma {:induction false} EndsIsRun(c: Db, t: Txn, n: nat, op: Op, r: Result) returns (steps: seq<Step>)
    requires EndsIn(c, t, n, op, r)
    ensures Leaves(c, t, steps, op, r)
    decreases n
  {
    var s := Sys(c, map[0 := t]);
    assert Enabled(s, Run(0));
    if Advance(c, t).Continue? {
      var u := Txn(Advance(c, t).op, Advance(c, t).phase, t.held + Taken(c, t));
      var rest := EndsIsRun(c, u, n - 1, op, r);
      assert map[0 := t][0 := u] == map[0 := u];
      assert Do(s, Run(0)) == Sys(c, map[0 := u]);
      steps := [Run(0)] + rest;
      assert steps[1..] == rest && CommittedBy(s, Run(0)) == [];
    } else {
      steps := [Run(0)];
      assert map[0 := t] - {0} == map[];
      var e := Do(s, Run(0));
      assert steps[1..] == [] && e == Sys(r.db, map[]);
      assert IsRun(e, []) && Reached(e, []) == e && Committed(e, []) == [];
    }
  }

  /** From any sound tables, the operation's transaction run alone to its end leaves the tables the operation is
      specified to leave, and commits exactly if the operation succeeds. */
  lemma AloneIsApply(c: Db, op: Op) returns (steps: seq<Step>)
    requires Sound(c)
    ensures Leaves(c, Txn(op, Start, {}), steps, Sighted(c, op), Apply(c, Sighted(c, op)))
  {
    EveryOperationEnds(c, op);
    var n: nat :| EndsIn(c, Txn(op, Start, {}), n, Sighted(c, op), Apply(c, Sighted(c, op)));
    steps := EndsIsRun(c, Txn(op, Start, {}), n, Sighted(c, op), Apply(c, Sighted(c, op)));
  }
}
