/** Exactly when interleavings never deadlock. */
module DeadlockFreedom {
  import opened Domain
  import opened Store
  import opened Operations
  import opened Integrity
  import opened Transactions
  import opened Rely
  import opened Serial
  import opened Owners
  import opened Scripts
  import opened Deadlock
  import E = EmailDeadlock
  import R = RecordDeadlock

  /** In no orderly state that a proper run reaches from any sound tables does a ring of transactions wait. */
  ghost predicate DeadlockFree(emails: (OrgId, OrgId) -> bool, records: (OrgId, OrgId) -> bool) {
    forall c, n, ring :: Sound(c) && Leads(Proper, Sys(c, map[]), n) && Orderly(n, emails, records) ==> !Ring(n, ring)
  }

  lemma ClimbingIsFree(c: Db, n: Sys, ring: seq<nat>, emails: (OrgId, OrgId) -> bool,
                       records: (OrgId, OrgId) -> bool)
    requires Climbing(emails, records) && Sound(c) && Leads(Proper, Sys(c, map[]), n) && Orderly(n, emails, records)
    ensures !Ring(n, ring)
  {
    var steps :| IsRun(Sys(c, map[]), steps) && Always(Proper, Sys(c, map[]), steps)
                 && Reached(Sys(c, map[]), steps) == n;
    RunsNeverDeadlock(c, steps, ring, emails, records);
  }

  lemma FreeIsClimbing(emails: (OrgId, OrgId) -> bool, records: (OrgId, OrgId) -> bool)
    requires DeadlockFree(emails, records)
    ensures Climbing(emails, records)
  {
    forall hi: OrgId, lo: OrgId | emails(hi, lo) ensures hi <= lo {
      if lo < hi { E.EmailsDeadlock(lo, hi, emails, records); }
    }
    forall hi: OrgId, lo: OrgId | records(hi, lo) ensures hi < lo {
      if lo < hi { R.DeparturesDeadlock(lo, hi, emails, records); }
      else if lo == hi { R.TeamRowsDeadlock(lo, emails, records); }
    }
  }

  /** Whatever is allowed of acceptances that meet over one email and of departures that await a record, proper
      interleavings never deadlock if and only if no acceptance awaits the email of one into an earlier organization,
      and no departure awaits a record in an organization while it holds a row of that or a later one. */
  lemma DeadlockFreeIffClimbing(emails: (OrgId, OrgId) -> bool, records: (OrgId, OrgId) -> bool)
    ensures DeadlockFree(emails, records) <==> Climbing(emails, records)
  {
    if Climbing(emails, records) {
      forall c, n, ring | Sound(c) && Leads(Proper, Sys(c, map[]), n) && Orderly(n, emails, records)
        ensures !Ring(n, ring)
      {
        ClimbingIsFree(c, n, ring, emails, records);
      }
    } else if DeadlockFree(emails, records) {
      FreeIsClimbing(emails, records);
    }
  }

  /** In particular, acceptances of one email into one organization never deadlock. */
  lemma OneOrganizationNeverDeadlocks()
    ensures DeadlockFree((o, o') => o == o', (o, o') => false)
  {
    DeadlockFreeIffClimbing((o, o') => o == o', (o, o') => false);
  }

  // ---- departures that await nothing ----

  /** The departing actor is an active member wherever it is a member or listed. */
  ghost predicate ActiveEverywhere(c: Db, a: ActorId) {
    forall o :: o in c.orgs && (a in c.orgs[o].members || ListedIn(c.orgs[o], a) != {}) ==> ActiveIn(c, a, o)
  }

  /** It has locked every organization it gathers rows from. */
  lemma GathererLocks(c: Db, a: ActorId, held: set<Hold>, got: Gathered, sweeping: seq<OrgId>, dropping: seq<OrgId>,
                      o: OrgId)
    requires Gathering(c, a, held, got, sweeping, dropping) && Watched(c, a, got.locked, [])
    requires ActiveEverywhere(c, a) && (o in got.statuses || (o in c.orgs && ListedIn(c.orgs[o], a) != {}))
    ensures Hold(OrgRow(o), Update) in held
  {
    assert ActiveIn(c, a, o) && o in got.locked;
  }

  /** In a careful run, a departing actor active wherever it has rows never awaits a record. */
  lemma ActiveLeaversAwaitNothing(c: Db, t: Txn)
    requires Knows(c, t) && Watches(c, t) && t.op.LeaveService? && ActiveEverywhere(c, t.op.actor)
    ensures !AwaitsRecord(t)
  {
    if AwaitsRecord(t) {
      var a, o := t.op.actor, t.phase.orgs[0];
      if t.phase.SweepAudit? { GathererLocks(c, a, t.held, t.phase.got, t.phase.orgs, Sorted(t.phase.got.listed), o); }
      else { GathererLocks(c, a, t.held, t.phase.got, [], t.phase.orgs, o); }
    }
  }
}
