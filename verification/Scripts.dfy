/** Building runs: one statement after another, a whole change, or a departure as far as it is to go. */
module Scripts {
  import opened Domain
  import opened Store
  import opened Operations
  import opened Integrity
  import opened Transactions
  import opened Rely
  import opened Serial

  /** Some run whose every step `ok` allows leads from `s` to `n`. */
  ghost predicate Leads(ok: (Sys, Step) -> bool, s: Sys, n: Sys) {
    exists steps :: IsRun(s, steps) && Always(ok, s, steps) && Reached(s, steps) == n
  }

  /** `ok` restricts nothing but the first statements of transactions. */
  ghost predicate Lenient(ok: (Sys, Step) -> bool) {
    forall s: Sys, step: Step ::
      !(step.Run? && step.id in s.txns && s.txns[step.id].phase.Start?) ==> ok(s, step)
  }

  lemma LeadsStep(ok: (Sys, Step) -> bool, s: Sys, step: Step, n: Sys)
    requires Enabled(s, step) && Do(s, step) == n && ok(s, step)
    ensures Leads(ok, s, n)
  {
    assert [step][1..] == [];
    assert IsRun(n, []) && Reached(n, []) == n && Always(ok, n, []);
    assert IsRun(s, [step]) && Reached(s, [step]) == n;
  }

  lemma LeadsNowhere(ok: (Sys, Step) -> bool, s: Sys)
    ensures Leads(ok, s, s)
  {
    assert IsRun(s, []) && Reached(s, []) == s && Always(ok, s, []);
  }

  lemma {:induction false} RunsCompose(ok: (Sys, Step) -> bool, s: Sys, a: seq<Step>, b: seq<Step>)
    requires IsRun(s, a) && IsRun(Reached(s, a), b) && Always(ok, s, a) && Always(ok, Reached(s, a), b)
    ensures IsRun(s, a + b) && Reached(s, a + b) == Reached(Reached(s, a), b) && Always(ok, s, a + b)
    decreases |a|
  {
    if a == [] {
      assert a + b == b;
    } else {
      assert (a + b)[1..] == a[1..] + b;
      RunsCompose(ok, Do(s, a[0]), a[1..], b);
    }
  }

  lemma LeadsOn(ok: (Sys, Step) -> bool, s: Sys, m: Sys, n: Sys)
    requires Leads(ok, s, m) && Leads(ok, m, n)
    ensures Leads(ok, s, n)
  {
    var a :| IsRun(s, a) && Always(ok, s, a) && Reached(s, a) == m;
    var b :| IsRun(m, b) && Always(ok, m, b) && Reached(m, b) == n;
    RunsCompose(ok, s, a, b);
  }

  // ---- one statement ----

  ghost predicate Free(others: map<nat, Txn>, h: set<Hold>) {
    forall i :: i in others ==> Compatible(h, others[i].held)
  }

  lemma Starts(ok: (Sys, Step) -> bool, c: Db, others: map<nat, Txn>, id: nat, op: Op)
    requires id !in others && Lenient(ok)
    ensures Leads(ok, Sys(c, others), Sys(c, others[id := Txn(op, Start, {})]))
  {
    LeadsStep(ok, Sys(c, others), Begin(id, op), Sys(c, others[id := Txn(op, Start, {})]));
  }

  /** One statement of `t` beside `others`. */
  lemma Goes(ok: (Sys, Step) -> bool, c: Db, others: map<nat, Txn>, id: nat, t: Txn, n: Txn)
    requires id !in others && Free(others, Taken(c, t)) && Lenient(ok)
    requires t.phase.Start? ==> ok(Sys(c, others[id := t]), Run(id))
    requires Advance(c, t) == Continue(n.op, n.phase) && n.held == t.held + Taken(c, t)
    ensures Leads(ok, Sys(c, others[id := t]), Sys(c, others[id := n]))
  {
    var m := Sys(c, others[id := t]);
    assert others[id := t][id := n] == others[id := n];
    LeadsStep(ok, m, Run(id), Sys(c, others[id := n]));
  }

  /** A run reaching transaction `t` beside `others` goes on by one statement of `t`. */
  lemma Then(ok: (Sys, Step) -> bool, s: Sys, c: Db, others: map<nat, Txn>, id: nat, t: Txn, n: Txn)
    requires id !in others && Leads(ok, s, Sys(c, others[id := t])) && Free(others, Taken(c, t)) && Lenient(ok)
    requires t.phase.Start? ==> ok(Sys(c, others[id := t]), Run(id))
    requires Advance(c, t) == Continue(n.op, n.phase) && n.held == t.held + Taken(c, t)
    ensures Leads(ok, s, Sys(c, others[id := n]))
  {
    Goes(ok, c, others, id, t, n);
    LeadsOn(ok, s, Sys(c, others[id := t]), Sys(c, others[id := n]));
  }

  /** The last statement of `t`. */
  lemma Commits(ok: (Sys, Step) -> bool, c: Db, others: map<nat, Txn>, id: nat, t: Txn, d: Db)
    requires id !in others && Free(others, Taken(c, t)) && Lenient(ok) && !t.phase.Start?
    requires Advance(c, t) == Commit(d)
    ensures Leads(ok, Sys(c, others[id := t]), Sys(d, others))
  {
    assert others[id := t] - {id} == others;
    LeadsStep(ok, Sys(c, others[id := t]), Run(id), Sys(d, others));
  }

  // ---- lock_actor ----

  function Shares(ids: seq<ActorId>): set<Hold> {
    set x | x in ids :: Hold(ActorRow(x), Share)
  }

  /** deleted_at of the target once the rows of `todo` are locked. */
  function SeenDeparted(c: Db, change: Change, todo: seq<ActorId>, departed: Option<bool>): Option<bool>
  {
    if change.LocksTarget() && change.target in todo && change.target in c.actors then
      Some(c.actors[change.target].departed)
    else departed
  }

  lemma {:induction false} LocksActors(ok: (Sys, Step) -> bool, c: Db, others: map<nat, Txn>, id: nat, op: Op,
                                       todo: seq<ActorId>, departed: Option<bool>, held: set<Hold>)
    requires id !in others && Lenient(ok) && op.InOrg? && Free(others, Shares(todo))
    ensures Leads(ok, Sys(c, others[id := Txn(op, ActorLocks(todo, departed), held)]),
                  Sys(c, others[id := Txn(op, ActorLocks([], SeenDeparted(c, op.change, todo, departed)),
                                          held + Shares(todo))]))
    decreases |todo|
  {
    if todo == [] {
      assert held + Shares(todo) == held;
      LeadsNowhere(ok, Sys(c, others[id := Txn(op, ActorLocks(todo, departed), held)]));
    } else {
      var t := Txn(op, ActorLocks(todo, departed), held);
      var seen := SeenDeparted(c, op.change, [todo[0]], departed);
      var n := Txn(op, ActorLocks(todo[1..], seen), held + {Hold(ActorRow(todo[0]), Share)});
      assert Taken(c, t) == {Hold(ActorRow(todo[0]), Share)} && Hold(ActorRow(todo[0]), Share) in Shares(todo);
      Goes(ok, c, others, id, t, n);
      assert Shares(todo[1..]) <= Shares(todo);
      LocksActors(ok, c, others, id, op, todo[1..], seen, n.held);
      assert n.held + Shares(todo[1..]) == held + Shares(todo);
      assert forall x :: x in todo <==> x == todo[0] || x in todo[1..];
      LeadsOn(ok, Sys(c, others[id := t]), Sys(c, others[id := n]),
              Sys(c, others[id := Txn(op, ActorLocks([], SeenDeparted(c, op.change, todo, departed)),
                                      held + Shares(todo))]));
    }
  }

  // ---- a whole change of a membership ----

  /** Others lock no row a change in `o` needs: actors at most in SHARE or for departures of somebody else, and only
      other organizations. */
  ghost predicate Aside(others: map<nat, Txn>, o: OrgId, actors: set<ActorId>) {
    forall i, h :: i in others && h in others[i].held ==>
      (h.resource.ActorRow? && (h.mode.Share? || (h.mode.Update? && h.resource.actor !in actors)))
      || (h.resource.OrgRow? && h.resource.org != o)
  }

  /** A member change that the owner rule and the statuses let through. */
  ghost predicate Succeeds(c: Db, op: Op, departed: Option<bool>) {
    && op.InOrg? && (op.change.ChangeRole? || op.change.SuspendMember? || op.change.ReactivateMember?)
    && ActiveIn(c, op.performer, op.org)
    && Settle(c, op.org, op.performer, op.change, Decided(c, op, departed)).reply.Done?
  }

  function Decided(c: Db, op: Op, departed: Option<bool>): Decision
    requires op.InOrg? && op.org in c.orgs
  {
    Decide(c.orgs[op.org], ActiveOwners(c.orgs[op.org]), departed, op.performer, op.change)
  }

  /** From its organization lock to its commit. */
  lemma ChangeCommits(ok: (Sys, Step) -> bool, c: Db, others: map<nat, Txn>, id: nat, op: Op, departed: Option<bool>,
                      held: set<Hold>)
    requires id !in others && Lenient(ok) && Succeeds(c, op, departed) && Aside(others, op.org, {op.performer})
    ensures Leads(ok, Sys(c, others[id := Txn(op, ActorLocks([], departed), held)]),
                  Sys(Settle(c, op.org, op.performer, op.change, Decided(c, op, departed)).db, others))
  {
    var more := held + {Hold(OrgRow(op.org), Update)};
    ChangeLocks(ok, c, others, id, op, departed, held);
    ChangeWrites(ok, c, others, id, op, departed, more);
    LeadsOn(ok, Sys(c, others[id := Txn(op, ActorLocks([], departed), held)]),
            Sys(c, others[id := Txn(op, Rows(departed), more)]),
            Sys(Settle(c, op.org, op.performer, op.change, Decided(c, op, departed)).db, others));
  }

  lemma ChangeLocks(ok: (Sys, Step) -> bool, c: Db, others: map<nat, Txn>, id: nat, op: Op, departed: Option<bool>,
                    held: set<Hold>)
    requires id !in others && Lenient(ok) && op.InOrg? && ActiveIn(c, op.performer, op.org)
    requires Free(others, {Hold(OrgRow(op.org), Update)})
    ensures Leads(ok, Sys(c, others[id := Txn(op, ActorLocks([], departed), held)]),
                  Sys(c, others[id := Txn(op, Rows(departed), held + {Hold(OrgRow(op.org), Update)})]))
  {
    var s := Sys(c, others[id := Txn(op, ActorLocks([], departed), held)]);
    Goes(ok, c, others, id, Txn(op, ActorLocks([], departed), held), Txn(op, OrgLock(departed), held));
    Then(ok, s, c, others, id, Txn(op, OrgLock(departed), held),
         Txn(op, Rows(departed), held + {Hold(OrgRow(op.org), Update)}));
  }

  lemma ChangeReads(ok: (Sys, Step) -> bool, c: Db, others: map<nat, Txn>, id: nat, op: Op, departed: Option<bool>,
                    held: set<Hold>)
    requires id !in others && Lenient(ok) && op.InOrg? && ActiveIn(c, op.performer, op.org)
    ensures Leads(ok, Sys(c, others[id := Txn(op, Rows(departed), held)]),
                  Sys(c, others[id := Txn(op, Writing(departed, c.orgs[op.org], ActiveOwners(c.orgs[op.org])), held)]))
  {
    var s, rows := Sys(c, others[id := Txn(op, Rows(departed), held)]), c.orgs[op.org];
    Goes(ok, c, others, id, Txn(op, Rows(departed), held), Txn(op, Owners(departed, rows), held));
    Then(ok, s, c, others, id, Txn(op, Owners(departed, rows), held),
         Txn(op, Writing(departed, rows, ActiveOwners(rows)), held));
  }

  lemma ChangeWrites(ok: (Sys, Step) -> bool, c: Db, others: map<nat, Txn>, id: nat, op: Op, departed: Option<bool>,
                     held: set<Hold>)
    requires id !in others && Lenient(ok) && Succeeds(c, op, departed) && Aside(others, op.org, {op.performer})
    ensures Leads(ok, Sys(c, others[id := Txn(op, Rows(departed), held)]),
                  Sys(Settle(c, op.org, op.performer, op.change, Decided(c, op, departed)).db, others))
  {
    var rows := c.orgs[op.org];
    var t := Txn(op, Writing(departed, rows, ActiveOwners(rows)), held);
    var d := Settle(c, op.org, op.performer, op.change, Decided(c, op, departed)).db;
    ChangeReads(ok, c, others, id, op, departed, held);
    WritesFreely(c, others, t, departed);
    Commits(ok, c, others, id, t, d);
    LeadsOn(ok, Sys(c, others[id := Txn(op, Rows(departed), held)]), Sys(c, others[id := t]), Sys(d, others));
  }

  lemma WritesFreely(c: Db, others: map<nat, Txn>, t: Txn, departed: Option<bool>)
    requires Succeeds(c, t.op, departed) && Aside(others, t.op.org, {t.op.performer})
    requires t.phase == Writing(departed, c.orgs[t.op.org], ActiveOwners(c.orgs[t.op.org]))
    ensures Free(others, Taken(c, t))
  {
    forall x | x in Taken(c, t)
      ensures x.resource.MemberRow? || x in AuditLocks(t.op.org, t.op.performer)
    {}
  }

  /** The member change of a performer who sees its target, run alone beside `others`. */
  lemma ChangeRuns(ok: (Sys, Step) -> bool, c: Db, others: map<nat, Txn>, id: nat, op: Op)
    requires id !in others && Lenient(ok) && op.InOrg? && op.performer in c.actors
    requires op.sighted == op.change.LocksTarget()
    requires op.change.ReactivateMember? ==> op.change.target in c.actors && Sees(c, op.performer, op.change.target)
    requires Succeeds(c, op, Departed(c, op)) && Aside(others, op.org, Named(op))
    requires ok(Sys(c, others[id := Txn(op, Start, {})]), Run(id))
    ensures var decided := Decided(c, op, Departed(c, op));
            Leads(ok, Sys(c, others), Sys(Settle(c, op.org, op.performer, op.change, decided).db, others))
  {
    var seen := VisibleActors(c, op.performer, if op.change.LocksTarget() then op.change.target else op.performer);
    var todo := Sorted(seen);
    var first: Option<bool> := if op.change.LocksTarget() then None else Some(false);
    var start, locking := Txn(op, Start, {}), Txn(op, ActorLocks(todo, first), {});
    var ready := Txn(op, ActorLocks([], Departed(c, op)), {} + Shares(todo));
    var n := Sys(Settle(c, op.org, op.performer, op.change, Decided(c, op, Departed(c, op))).db, others);
    Starts(ok, c, others, id, op);
    Goes(ok, c, others, id, start, locking);
    SharesAside(others, op, todo);
    LocksActors(ok, c, others, id, op, todo, first, {});
    assert SeenDeparted(c, op.change, todo, first) == Departed(c, op);
    ChangeCommits(ok, c, others, id, op, Departed(c, op), {} + Shares(todo));
    LeadsOn(ok, Sys(c, others), Sys(c, others[id := start]), Sys(c, others[id := locking]));
    LeadsOn(ok, Sys(c, others), Sys(c, others[id := locking]), Sys(c, others[id := ready]));
    LeadsOn(ok, Sys(c, others), Sys(c, others[id := ready]), n);
  }

  /** The actors a member change locks. */
  function Named(op: Op): set<ActorId>
    requires op.InOrg?
  {
    {op.performer} + if op.change.ReactivateMember? then {op.change.target} else {}
  }

  lemma SharesAside(others: map<nat, Txn>, op: Op, todo: seq<ActorId>)
    requires op.InOrg? && Aside(others, op.org, Named(op)) && forall x :: x in todo ==> x in Named(op)
    ensures Free(others, Shares(todo))
  {}

  // ---- a departure ----

  function LeaveTxn(a: ActorId, phase: Phase, held: set<Hold>): Txn {
    Txn(LeaveService(a), phase, held)
  }

  function OrgUpdates(orgs: seq<OrgId>): set<Hold> {
    set o | o in orgs :: Hold(OrgRow(o), Update)
  }

  lemma DepartureStarts(ok: (Sys, Step) -> bool, c: Db, others: map<nat, Txn>, id: nat, a: ActorId)
    requires id !in others && Lenient(ok) && a in c.actors && !c.actors[a].departed
    requires Free(others, {Hold(ActorRow(a), Update)})
    requires ok(Sys(c, others[id := LeaveTxn(a, Start, {})]), Run(id))
    ensures Leads(ok, Sys(c, others),
                  Sys(c, others[id := LeaveTxn(a, OrgLocks(Sorted(ActiveOrgs(c, a)), ActiveOrgs(c, a)),
                                               {Hold(ActorRow(a), Update)})]))
  {
    var s, held := Sys(c, others), {Hold(ActorRow(a), Update)};
    Starts(ok, c, others, id, LeaveService(a));
    Then(ok, s, c, others, id, LeaveTxn(a, Start, {}), LeaveTxn(a, Scan, held));
    var n := LeaveTxn(a, OrgLocks(Sorted(ActiveOrgs(c, a)), ActiveOrgs(c, a)), held);
    ScanGoes(ok, c, others, id, a, held);
    LeadsOn(ok, s, Sys(c, others[id := LeaveTxn(a, Scan, held)]), Sys(c, others[id := n]));
  }

  lemma ScanGoes(ok: (Sys, Step) -> bool, c: Db, others: map<nat, Txn>, id: nat, a: ActorId, held: set<Hold>)
    requires id !in others && Lenient(ok)
    ensures Leads(ok, Sys(c, others[id := LeaveTxn(a, Scan, held)]),
                  Sys(c, others[id := LeaveTxn(a, OrgLocks(Sorted(ActiveOrgs(c, a)), ActiveOrgs(c, a)), held)]))
  {
    Goes(ok, c, others, id, LeaveTxn(a, Scan, held),
         LeaveTxn(a, OrgLocks(Sorted(ActiveOrgs(c, a)), ActiveOrgs(c, a)), held));
  }

  /** A departure locks the first `k` of its organizations. */
  lemma {:induction false} LocksOrgs(ok: (Sys, Step) -> bool, c: Db, others: map<nat, Txn>, id: nat, a: ActorId,
                                     orgs: seq<OrgId>, all: set<OrgId>, held: set<Hold>, k: nat)
    requires id !in others && Lenient(ok) && k <= |orgs| && Free(others, OrgUpdates(orgs[..k]))
    ensures Leads(ok, Sys(c, others[id := LeaveTxn(a, OrgLocks(orgs, all), held)]),
                  Sys(c, others[id := LeaveTxn(a, OrgLocks(orgs[k..], all), held + OrgUpdates(orgs[..k]))]))
    decreases k
  {
    if k == 0 {
      assert held + OrgUpdates(orgs[..0]) == held && orgs[0..] == orgs;
      LeadsNowhere(ok, Sys(c, others[id := LeaveTxn(a, OrgLocks(orgs, all), held)]));
    } else {
      var t := LeaveTxn(a, OrgLocks(orgs, all), held);
      var n := LeaveTxn(a, OrgLocks(orgs[1..], all), held + {Hold(OrgRow(orgs[0]), Update)});
      assert Taken(c, t) == {Hold(OrgRow(orgs[0]), Update)} && orgs[0] in orgs[..k];
      assert Hold(OrgRow(orgs[0]), Update) in OrgUpdates(orgs[..k]);
      Goes(ok, c, others, id, t, n);
      assert orgs[1..][..k - 1] == orgs[1..k] && orgs[1..][k - 1..] == orgs[k..];
      assert forall o :: o in orgs[..k] <==> o == orgs[0] || o in orgs[1..k];
      LocksOrgs(ok, c, others, id, a, orgs[1..], all, n.held, k - 1);
      assert n.held + OrgUpdates(orgs[1..k]) == held + OrgUpdates(orgs[..k]);
      LeadsOn(ok, Sys(c, others[id := t]), Sys(c, others[id := n]),
              Sys(c, others[id := LeaveTxn(a, OrgLocks(orgs[k..], all), held + OrgUpdates(orgs[..k]))]));
    }
  }

  lemma {:induction false} ChecksOrgs(ok: (Sys, Step) -> bool, c: Db, others: map<nat, Txn>, id: nat, a: ActorId,
                                      orgs: seq<OrgId>, all: set<OrgId>, held: set<Hold>)
    requires id !in others && Lenient(ok)
    requires forall o :: o in orgs ==> ActiveIn(c, a, o) && OwnersRemain(c, a, o)
    ensures Leads(ok, Sys(c, others[id := LeaveTxn(a, Checks(orgs, all), held)]),
                  Sys(c, others[id := LeaveTxn(a, Checks([], all), held)]))
    decreases |orgs|
  {
    if orgs == [] {
      LeadsNowhere(ok, Sys(c, others[id := LeaveTxn(a, Checks(orgs, all), held)]));
    } else {
      var t, n := LeaveTxn(a, Checks(orgs, all), held), LeaveTxn(a, Checks(orgs[1..], all), held);
      assert orgs[0] in orgs && Taken(c, t) == {};
      Goes(ok, c, others, id, t, n);
      ChecksOrgs(ok, c, others, id, a, orgs[1..], all, held);
      LeadsOn(ok, Sys(c, others[id := t]), Sys(c, others[id := n]),
              Sys(c, others[id := LeaveTxn(a, Checks([], all), held)]));
    }
  }

  /** What a departure has read once it is about to remove rows. */
  function ReadsOf(c: Db, a: ActorId, all: set<OrgId>): Gathered {
    Gathered(all, map o | o in c.orgs && a in c.orgs[o].members :: c.orgs[o].members[a].status,
             set o | o in c.orgs && ListedIn(c.orgs[o], a) != {}, map[], map[])
  }

  lemma ReadsMemberships(ok: (Sys, Step) -> bool, c: Db, others: map<nat, Txn>, id: nat, a: ActorId, all: set<OrgId>,
                         held: set<Hold>)
    requires id !in others && Lenient(ok)
    ensures Leads(ok, Sys(c, others[id := LeaveTxn(a, Memberships(all), held)]),
                  Sys(c, others[id := LeaveTxn(a, ListedOrgs(all, ReadsOf(c, a, all).statuses), held)]))
  {
    Goes(ok, c, others, id, LeaveTxn(a, Memberships(all), held),
         LeaveTxn(a, ListedOrgs(all, ReadsOf(c, a, all).statuses), held));
  }

  lemma ReadsListings(ok: (Sys, Step) -> bool, c: Db, others: map<nat, Txn>, id: nat, a: ActorId, got: Gathered,
                      held: set<Hold>)
    requires id !in others && Lenient(ok) && got == ReadsOf(c, a, got.locked)
    ensures Leads(ok, Sys(c, others[id := LeaveTxn(a, ListedOrgs(got.locked, got.statuses), held)]),
                  Sys(c, others[id := LeaveTxn(a, Sweep(Sorted(got.statuses.Keys), got), held)]))
  {
    Goes(ok, c, others, id, LeaveTxn(a, ListedOrgs(got.locked, got.statuses), held),
         LeaveTxn(a, Sweep(Sorted(got.statuses.Keys), got), held));
  }

  lemma ReadsRows(ok: (Sys, Step) -> bool, c: Db, others: map<nat, Txn>, id: nat, a: ActorId, got: Gathered,
                  held: set<Hold>)
    requires id !in others && Lenient(ok) && got == ReadsOf(c, a, got.locked)
    ensures Leads(ok, Sys(c, others[id := LeaveTxn(a, Checks([], got.locked), held)]),
                  Sys(c, others[id := LeaveTxn(a, Sweep(Sorted(got.statuses.Keys), got), held)]))
  {
    var s, all := Sys(c, others[id := LeaveTxn(a, Checks([], got.locked), held)]), got.locked;
    Goes(ok, c, others, id, LeaveTxn(a, Checks([], all), held), LeaveTxn(a, Memberships(all), held));
    ReadsMemberships(ok, c, others, id, a, all, held);
    ReadsListings(ok, c, others, id, a, got, held);
    LeadsOn(ok, s, Sys(c, others[id := LeaveTxn(a, Memberships(all), held)]),
            Sys(c, others[id := LeaveTxn(a, ListedOrgs(all, got.statuses), held)]));
    LeadsOn(ok, s, Sys(c, others[id := LeaveTxn(a, ListedOrgs(all, got.statuses), held)]),
            Sys(c, others[id := LeaveTxn(a, Sweep(Sorted(got.statuses.Keys), got), held)]));
  }

  lemma LocksAllOrgs(ok: (Sys, Step) -> bool, c: Db, others: map<nat, Txn>, id: nat, a: ActorId, all: set<OrgId>,
                     held: set<Hold>)
    requires id !in others && Lenient(ok) && Free(others, OrgUpdates(Sorted(all)))
    ensures Leads(ok, Sys(c, others[id := LeaveTxn(a, OrgLocks(Sorted(all), all), held)]),
                  Sys(c, others[id := LeaveTxn(a, Checks(Sorted(all), all), held + OrgUpdates(Sorted(all)))]))
  {
    var orgs := Sorted(all);
    var more := held + OrgUpdates(orgs);
    assert orgs[..|orgs|] == orgs && orgs[|orgs|..] == [];
    LocksOrgs(ok, c, others, id, a, orgs, all, held, |orgs|);
    Goes(ok, c, others, id, LeaveTxn(a, OrgLocks([], all), more), LeaveTxn(a, Checks(orgs, all), more));
    LeadsOn(ok, Sys(c, others[id := LeaveTxn(a, OrgLocks(orgs, all), held)]),
            Sys(c, others[id := LeaveTxn(a, OrgLocks([], all), more)]),
            Sys(c, others[id := LeaveTxn(a, Checks(orgs, all), more)]));
  }

  lemma ChecksAllOrgs(ok: (Sys, Step) -> bool, c: Db, others: map<nat, Txn>, id: nat, a: ActorId, held: set<Hold>)
    requires id !in others && Lenient(ok) && forall o :: ActiveIn(c, a, o) ==> OwnersRemain(c, a, o)
    ensures var got := ReadsOf(c, a, ActiveOrgs(c, a));
            Leads(ok, Sys(c, others[id := LeaveTxn(a, Checks(Sorted(got.locked), got.locked), held)]),
                  Sys(c, others[id := LeaveTxn(a, Sweep(Sorted(got.statuses.Keys), got), held)]))
  {
    var got := ReadsOf(c, a, ActiveOrgs(c, a));
    var all := got.locked;
    ChecksOrgs(ok, c, others, id, a, Sorted(all), all, held);
    ReadsRows(ok, c, others, id, a, got, held);
    LeadsOn(ok, Sys(c, others[id := LeaveTxn(a, Checks(Sorted(all), all), held)]),
            Sys(c, others[id := LeaveTxn(a, Checks([], all), held)]),
            Sys(c, others[id := LeaveTxn(a, Sweep(Sorted(got.statuses.Keys), got), held)]));
  }

  /** A departure that no owner rule refuses runs until it is about to remove rows. */
  lemma DepartureReads(ok: (Sys, Step) -> bool, c: Db, others: map<nat, Txn>, id: nat, a: ActorId)
    requires id !in others && Lenient(ok) && a in c.actors && !c.actors[a].departed
    requires forall o :: ActiveIn(c, a, o) ==> OwnersRemain(c, a, o)
    requires Free(others, {Hold(ActorRow(a), Update)}) && Free(others, OrgUpdates(Sorted(ActiveOrgs(c, a))))
    requires ok(Sys(c, others[id := LeaveTxn(a, Start, {})]), Run(id))
    ensures Leads(ok, Sys(c, others), Sys(c, others[id := ReadyToLeave(c, a)]))
  {
    var s, all, held := Sys(c, others), ActiveOrgs(c, a), {Hold(ActorRow(a), Update)};
    var more := held + OrgUpdates(Sorted(all));
    DepartureStarts(ok, c, others, id, a);
    LocksAllOrgs(ok, c, others, id, a, all, held);
    ChecksAllOrgs(ok, c, others, id, a, more);
    LeadsOn(ok, s, Sys(c, others[id := LeaveTxn(a, OrgLocks(Sorted(all), all), held)]),
            Sys(c, others[id := LeaveTxn(a, Checks(Sorted(all), all), more)]));
    LeadsOn(ok, s, Sys(c, others[id := LeaveTxn(a, Checks(Sorted(all), all), more)]),
            Sys(c, others[id := ReadyToLeave(c, a)]));
  }

  function ReadyToLeave(c: Db, a: ActorId): Txn {
    var got := ReadsOf(c, a, ActiveOrgs(c, a));
    LeaveTxn(a, Sweep(Sorted(got.statuses.Keys), got), {Hold(ActorRow(a), Update)} + OrgUpdates(Sorted(got.locked)))
  }

  // ---- a departure finishing alone ----

  function Passes(phase: Phase): nat {
    match phase
    case Sweep(_, _) => 3
    case SweepAudit(_, _) => 3
    case Listings(_, _) => 2
    case ListingAudit(_, _, _) => 2
    case _ => 1
  }

  function Left(phase: Phase): nat {
    match phase
    case Sweep(orgs, _) => 2 * |orgs| + 1
    case SweepAudit(orgs, _) => 2 * |orgs|
    case Listings(orgs, _) => 2 * |orgs| + 1
    case ListingAudit(orgs, _, _) => 2 * |orgs|
    case _ => 0
  }

  predicate Removing(phase: Phase) {
    phase.Sweep? || phase.SweepAudit? || phase.Listings? || phase.ListingAudit? || phase.Finish?
  }

  /** A departure already removing rows never fails. */
  lemma RemovalGoesOn(c: Db, t: Txn)
    requires t.op.LeaveService? && Removing(t.phase) && Knows(c, t)
    ensures !Advance(c, t).Abort? && (Advance(c, t).Commit? <==> t.phase.Finish?)
    ensures Advance(c, t).Continue? ==>
              var n := Advance(c, t).phase;
              Removing(n) && Advance(c, t).op == t.op
              && (Passes(n) < Passes(t.phase) || (Passes(n) == Passes(t.phase) && Left(n) < Left(t.phase)))
  {}

  /** Left alone, it commits. */
  lemma {:induction false} DepartureFinishes(ok: (Sys, Step) -> bool, c: Db, id: nat, t: Txn)
    returns (d: Db)
    requires Lenient(ok) && Sound(c) && t.op.LeaveService? && Removing(t.phase) && Knows(c, t)
    ensures Land(c, t.op) == Result(Done, d) && Leads(ok, Sys(c, map[][id := t]), Sys(d, map[]))
    decreases Passes(t.phase), Left(t.phase)
  {
    if t.phase.Finish? {
      d := DepartureCommits(ok, c, id, t);
    } else {
      var n := RemovalStep(ok, c, id, t);
      d := DepartureFinishes(ok, c, id, n);
      LeadsOn(ok, Sys(c, map[][id := t]), Sys(c, map[][id := n]), Sys(d, map[]));
    }
  }

  lemma DepartureCommits(ok: (Sys, Step) -> bool, c: Db, id: nat, t: Txn) returns (d: Db)
    requires Lenient(ok) && Sound(c) && t.op.LeaveService? && t.phase.Finish? && Knows(c, t)
    ensures Land(c, t.op) == Result(Done, d) && Leads(ok, Sys(c, map[][id := t]), Sys(d, map[]))
  {
    RemovalGoesOn(c, t);
    AlwaysSerializes(c, t);
    d := Advance(c, t).db;
    Commits(ok, c, map[], id, t, d);
  }

  lemma RemovalStep(ok: (Sys, Step) -> bool, c: Db, id: nat, t: Txn) returns (n: Txn)
    requires Lenient(ok) && Sound(c) && t.op.LeaveService? && Removing(t.phase) && !t.phase.Finish? && Knows(c, t)
    ensures n.op == t.op && Removing(n.phase) && Knows(c, n)
    ensures Passes(n.phase) < Passes(t.phase) || (Passes(n.phase) == Passes(t.phase) && Left(n.phase) < Left(t.phase))
    ensures Leads(ok, Sys(c, map[][id := t]), Sys(c, map[][id := n]))
  {
    RemovalGoesOn(c, t);
    n := Txn(t.op, Advance(c, t).phase, t.held + Taken(c, t));
    AlwaysProceeds(c, t);
    Goes(ok, c, map[], id, t, n);
  }
}
