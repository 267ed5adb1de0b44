/** Two acceptances that register one email close a ring of waits when the one that waits for the email joins a later
    organization: the email's index entry is locked between the invite and the organization. */
module EmailDeadlock {
  import opened Domain
  import opened Store
  import opened Operations
  import opened Integrity
  import opened Transactions
  import opened Rely
  import opened Serial
  import opened Owners
  import opened Scripts
  import opened Deadlock

  const LEAVER: ActorId := 1
  const BOSS: ActorId := 2
  const FIRST: ActorId := 10
  const SECOND: ActorId := 11

  const PEOPLE := map[LEAVER := Membership(OrganizationRole.Member, Active, None),
                      BOSS := Membership(OrganizationRole.Owner, Active, None)]

  function Team(slug: string, token: TokenHash): Org {
    Org(slug, PEOPLE, {}, map[], map[], {}, map[0 := Invite(ForOrganization, token, 9, 1, 0, false)], [])
  }

  const PERSON := Actor(None, false)

  /** Two organizations of the same two people, an invite to each. */
  function Scene(lo: OrgId, hi: OrgId): Db {
    Db(map[LEAVER := PERSON, BOSS := PERSON], map[], map[], map[lo := Team("low", "l"), hi := Team("high", "h")])
  }

  const JOIN_HIGH := AcceptInvite("h", 0, "e", "", "", FIRST)
  const JOIN_LOW := AcceptInvite("l", 0, "e", "", "", SECOND)

  lemma TeamOk(c: Db, slug: string, token: TokenHash)
    requires c.actors == map[LEAVER := PERSON, BOSS := PERSON]
    ensures OrgOk(c.actors, Team(slug, token)) && Owned(Team(slug, token))
  {
    var org := Team(slug, token);
    assert ActiveOwner(org, BOSS);
    forall i ensures InviteSpent(org, i) {}
  }

  lemma StartOk(lo: OrgId, hi: OrgId)
    requires lo < hi
    ensures Ok(Scene(lo, hi))
  {
    TeamOk(Scene(lo, hi), "low", "l");
    TeamOk(Scene(lo, hi), "high", "h");
    TokensApart(lo, hi);
  }

  lemma TokensApart(lo: OrgId, hi: OrgId)
    requires lo < hi
    ensures TokensUnique(Scene(lo, hi))
    ensures Locate(Scene(lo, hi), "l") == At(lo, 0) && Locate(Scene(lo, hi), "h") == At(hi, 0)
  {
    var c := Scene(lo, hi);
    assert "l"[0] != "h"[0];
    assert forall t, o, i :: Presents(c, t, o, i) ==> i == 0 && ((o == lo && t == "l") || (o == hi && t == "h"));
    assert Presents(c, "l", lo, 0) && Presents(c, "h", hi, 0);
  }

  // ---- the four transactions, each run until it waits ----

  function Counting(o: OrgId): set<Hold> {
    {Hold(InviteRow(o, 0), NoKeyUpdate)}
  }

  lemma Counts(c: Db, others: map<nat, Txn>, id: nat, op: Op, o: OrgId)
    requires id !in others && op.AcceptInvite? && Locate(c, op.presented) == At(o, 0)
    requires Usable(c.orgs[o].invites[0], op.now) && c.orgs[o].invites[0].kind.ForOrganization?
    requires Free(others, Counting(o))
    ensures Leads(Proper, Sys(c, others), Sys(c, others[id := Txn(op, NewPerson(o, 0), Counting(o))]))
  {
    var s := Sys(c, others);
    ProperIsLenient();
    Starts(Proper, c, others, id, op);
    Then(Proper, s, c, others, id, Txn(op, Start, {}), Txn(op, Using(o, 0), {}));
    Then(Proper, s, c, others, id, Txn(op, Using(o, 0), {}), Txn(op, NewPerson(o, 0), Counting(o)));
  }

  function Registering(op: Op, o: OrgId): set<Hold>
    requires op.AcceptInvite?
  {
    Counting(o) + {Hold(ActorRow(op.actor), Update), Hold(EmailKey(Lower(op.email)), Update)}
  }

  lemma Registers(c: Db, op: Op, o: OrgId)
    requires op.AcceptInvite? && Locate(c, op.presented) == At(o, 0) && op.actor !in c.actors && c.users == map[]
    requires Usable(c.orgs[o].invites[0], op.now) && c.orgs[o].invites[0].kind.ForOrganization?
    ensures Leads(Proper, Sys(c, map[]), Sys(c, map[][2 := Txn(op, Joining(o, 0), Registering(op, o))]))
  {
    Counts(c, map[], 2, op, o);
    ProperIsLenient();
    Then(Proper, Sys(c, map[]), c, map[], 2, Txn(op, NewPerson(o, 0), Counting(o)),
         Txn(op, Joining(o, 0), Registering(op, o)));
  }

  const LEAVING := {Hold(ActorRow(LEAVER), Update)}

  function LockedLow(lo: OrgId): set<Hold> {
    LEAVING + {Hold(OrgRow(lo), Update)}
  }

  lemma SortedBoth(lo: OrgId, hi: OrgId)
    requires lo < hi
    ensures ActiveOrgs(Scene(lo, hi), LEAVER) == {lo, hi} && Sorted({lo, hi}) == [lo, hi]
  {
    assert {lo, hi} - {lo} == {hi} && {hi} - {hi} == {};
    assert Least({hi}) == hi && Sorted({hi}) == [hi];
  }

  lemma LocksLow(lo: OrgId, hi: OrgId, others: map<nat, Txn>)
    requires lo < hi && 3 !in others && Free(others, LEAVING) && Free(others, {Hold(OrgRow(lo), Update)})
    ensures Leads(Proper, Sys(Scene(lo, hi), others),
                  Sys(Scene(lo, hi), others[3 := LeaveTxn(LEAVER, OrgLocks([hi], {lo, hi}), LockedLow(lo))]))
  {
    var c := Scene(lo, hi);
    ProperIsLenient();
    SortedBoth(lo, hi);
    DepartureStarts(Proper, c, others, 3, LEAVER);
    assert OrgUpdates([lo, hi][..1]) == {Hold(OrgRow(lo), Update)} && [lo, hi][1..] == [hi];
    LocksOrgs(Proper, c, others, 3, LEAVER, [lo, hi], {lo, hi}, LEAVING, 1);
    LeadsOn(Proper, Sys(c, others), Sys(c, others[3 := LeaveTxn(LEAVER, OrgLocks([lo, hi], {lo, hi}), LEAVING)]),
            Sys(c, others[3 := LeaveTxn(LEAVER, OrgLocks([hi], {lo, hi}), LockedLow(lo))]));
  }

  const SHARED := {Hold(ActorRow(BOSS), Share)}

  function SharedHigh(hi: OrgId): set<Hold> {
    SHARED + {Hold(OrgRow(hi), Share)}
  }

  function AuthorizedHigh(hi: OrgId): set<Hold> {
    SharedHigh(hi) + {Hold(MemberRow(hi, BOSS), Share)}
  }

  function RevokeTxn(hi: OrgId, phase: Phase, held: set<Hold>): Txn {
    Txn(RevokeInvite(BOSS, hi, Some(0)), phase, held)
  }

  lemma SharesBoss(lo: OrgId, hi: OrgId, others: map<nat, Txn>)
    requires lo < hi && 4 !in others && Free(others, SHARED)
    ensures Leads(Proper, Sys(Scene(lo, hi), others),
                  Sys(Scene(lo, hi), others[4 := RevokeTxn(hi, ActorLocks([], Some(false)), SHARED)]))
  {
    var c := Scene(lo, hi);
    var s := Sys(c, others);
    ProperIsLenient();
    Starts(Proper, c, others, 4, RevokeInvite(BOSS, hi, Some(0)));
    BossSeesItself(lo, hi);
    Then(Proper, s, c, others, 4, RevokeTxn(hi, Start, {}), RevokeTxn(hi, ActorLocks([BOSS], Some(false)), {}));
    Then(Proper, s, c, others, 4, RevokeTxn(hi, ActorLocks([BOSS], Some(false)), {}),
         RevokeTxn(hi, ActorLocks([], Some(false)), SHARED));
  }

  lemma BossSeesItself(lo: OrgId, hi: OrgId)
    ensures Sorted(VisibleActors(Scene(lo, hi), BOSS, BOSS)) == [BOSS]
  {
    assert VisibleActors(Scene(lo, hi), BOSS, BOSS) == {BOSS};
    assert Least({BOSS}) == BOSS && {BOSS} - {BOSS} == {};
  }

  lemma Authorizes(lo: OrgId, hi: OrgId, others: map<nat, Txn>)
    requires lo < hi && 4 !in others && Free(others, AuthorizedHigh(hi))
    ensures Leads(Proper, Sys(Scene(lo, hi), others[4 := RevokeTxn(hi, ActorLocks([], Some(false)), SHARED)]),
                  Sys(Scene(lo, hi), others[4 := RevokeTxn(hi, RevokeLock, AuthorizedHigh(hi))]))
  {
    var c := Scene(lo, hi);
    var s := Sys(c, others[4 := RevokeTxn(hi, ActorLocks([], Some(false)), SHARED)]);
    ProperIsLenient();
    Goes(Proper, c, others, 4, RevokeTxn(hi, ActorLocks([], Some(false)), SHARED),
         RevokeTxn(hi, OrgLock(Some(false)), SHARED));
    Then(Proper, s, c, others, 4, RevokeTxn(hi, OrgLock(Some(false)), SHARED),
         RevokeTxn(hi, Authorizing, SharedHigh(hi)));
    Then(Proper, s, c, others, 4, RevokeTxn(hi, Authorizing, SharedHigh(hi)),
         RevokeTxn(hi, RevokeLock, AuthorizedHigh(hi)));
  }

  // ---- together ----

  function Second(lo: OrgId): Txn {
    Txn(JOIN_LOW, Joining(lo, 0), Registering(JOIN_LOW, lo))
  }

  function First(hi: OrgId): Txn {
    Txn(JOIN_HIGH, NewPerson(hi, 0), Counting(hi))
  }

  function Leaver(lo: OrgId, hi: OrgId): Txn {
    LeaveTxn(LEAVER, OrgLocks([hi], {lo, hi}), LockedLow(lo))
  }

  function Boss(hi: OrgId): Txn {
    RevokeTxn(hi, RevokeLock, AuthorizedHigh(hi))
  }

  function Two(lo: OrgId): map<nat, Txn> {
    map[2 := Second(lo)]
  }

  function Three(lo: OrgId, hi: OrgId): map<nat, Txn> {
    Two(lo)[1 := First(hi)]
  }

  function Four(lo: OrgId, hi: OrgId): map<nat, Txn> {
    Three(lo, hi)[3 := Leaver(lo, hi)]
  }

  function Stuck(lo: OrgId, hi: OrgId): Sys {
    Sys(Scene(lo, hi), Four(lo, hi)[4 := Boss(hi)])
  }

  lemma SecondMeets(lo: OrgId, hi: OrgId)
    requires lo < hi
    ensures Leads(Proper, Sys(Scene(lo, hi), map[]), Sys(Scene(lo, hi), Two(lo)))
  {
    TokensApart(lo, hi);
    Registers(Scene(lo, hi), JOIN_LOW, lo);
    assert map[][2 := Second(lo)] == Two(lo);
  }

  lemma FirstMeets(lo: OrgId, hi: OrgId)
    requires lo < hi
    ensures Leads(Proper, Sys(Scene(lo, hi), Two(lo)), Sys(Scene(lo, hi), Three(lo, hi)))
  {
    TokensApart(lo, hi);
    Counts(Scene(lo, hi), Two(lo), 1, JOIN_HIGH, hi);
  }

  lemma LeaverMeets(lo: OrgId, hi: OrgId)
    requires lo < hi
    ensures Leads(Proper, Sys(Scene(lo, hi), Three(lo, hi)), Sys(Scene(lo, hi), Four(lo, hi)))
  {
    LocksLow(lo, hi, Three(lo, hi));
  }

  lemma BossMeets(lo: OrgId, hi: OrgId)
    requires lo < hi
    ensures Leads(Proper, Sys(Scene(lo, hi), Four(lo, hi)), Stuck(lo, hi))
  {
    BossWaits(lo, hi, Four(lo, hi));
  }

  lemma BossWaits(lo: OrgId, hi: OrgId, others: map<nat, Txn>)
    requires lo < hi && 4 !in others && Free(others, SHARED) && Free(others, AuthorizedHigh(hi))
    ensures Leads(Proper, Sys(Scene(lo, hi), others), Sys(Scene(lo, hi), others[4 := Boss(hi)]))
  {
    SharesBoss(lo, hi, others);
    Authorizes(lo, hi, others);
    LeadsOn(Proper, Sys(Scene(lo, hi), others),
            Sys(Scene(lo, hi), others[4 := RevokeTxn(hi, ActorLocks([], Some(false)), SHARED)]),
            Sys(Scene(lo, hi), others[4 := Boss(hi)]));
  }

  lemma Meet(lo: OrgId, hi: OrgId)
    requires lo < hi
    ensures Leads(Proper, Sys(Scene(lo, hi), map[]), Stuck(lo, hi))
  {
    var c := Scene(lo, hi);
    SecondMeets(lo, hi);
    FirstMeets(lo, hi);
    LeaverMeets(lo, hi);
    BossMeets(lo, hi);
    LeadsOn(Proper, Sys(c, map[]), Sys(c, Two(lo)), Sys(c, Three(lo, hi)));
    LeadsOn(Proper, Sys(c, map[]), Sys(c, Three(lo, hi)), Sys(c, Four(lo, hi)));
    LeadsOn(Proper, Sys(c, map[]), Sys(c, Four(lo, hi)), Stuck(lo, hi));
  }

  const RING := [4, 1, 2, 3]

  lemma RingOfFour(s: Sys, a: nat, b: nat, c: nat, d: nat)
    requires Waits(s, a, b) && Waits(s, b, c) && Waits(s, c, d) && Waits(s, d, a)
    ensures Ring(s, [a, b, c, d])
  {
    var ring := [a, b, c, d];
    forall k {:trigger After(ring, k)} | 0 <= k < |ring| ensures Waits(s, ring[k], After(ring, k)) {
      assert k == 0 || k == 1 || k == 2 || k == 3;
    }
  }

  lemma AllWait(lo: OrgId, hi: OrgId)
    requires lo < hi
    ensures Ring(Stuck(lo, hi), RING)
  {
    RevokerWaits(lo, hi);
    AcceptancesWait(lo, hi);
    LeaverWaits(lo, hi);
    RingOfFour(Stuck(lo, hi), 4, 1, 2, 3);
  }

  lemma RevokerWaits(lo: OrgId, hi: OrgId)
    ensures Waits(Stuck(lo, hi), 4, 1)
  {
    Clashes(Stuck(lo, hi), 4, 1, Hold(InviteRow(hi, 0), Update), Hold(InviteRow(hi, 0), NoKeyUpdate));
  }

  lemma AcceptancesWait(lo: OrgId, hi: OrgId)
    ensures Waits(Stuck(lo, hi), 1, 2) && Waits(Stuck(lo, hi), 2, 3)
  {
    Clashes(Stuck(lo, hi), 1, 2, Hold(EmailKey(Lower("e")), Update), Hold(EmailKey(Lower("e")), Update));
    Clashes(Stuck(lo, hi), 2, 3, Hold(OrgRow(lo), KeyShare), Hold(OrgRow(lo), Update));
  }

  lemma LeaverWaits(lo: OrgId, hi: OrgId)
    ensures Waits(Stuck(lo, hi), 3, 4)
  {
    Clashes(Stuck(lo, hi), 3, 4, Hold(OrgRow(hi), Update), Hold(OrgRow(hi), Share));
  }

  /** The actor rows a transaction locks or is about to lock are `a`'s. */
  ghost predicate Names(s: Sys, t: nat, a: ActorId) {
    && t in s.txns && (s.txns[t].op.AcceptInvite? ==> s.txns[t].op.actor == a)
    && forall h :: h in s.txns[t].held + Taken(s.db, s.txns[t]) && h.resource.ActorRow? ==> h.resource.actor == a
  }

  lemma FreshByName(s: Sys, names: map<nat, ActorId>, t: nat)
    requires s.txns.Keys == names.Keys && t in names && forall u :: u in names ==> Names(s, u, names[u])
    requires forall u :: u in names && u != t ==> names[u] != names[t]
    ensures FreshId(s, t)
  {
    forall u, h | u in s.txns && u != t && h in s.txns[u].held + Taken(s.db, s.txns[u])
      ensures h.resource != ActorRow(names[t])
    {
      assert Names(s, u, names[u]);
    }
    assert Names(s, t, names[t]);
  }

  const NAMES: map<nat, ActorId> := map[1 := FIRST, 2 := SECOND, 3 := LEAVER, 4 := BOSS]

  lemma NamesDiffer(t: nat, u: nat)
    requires t in NAMES && u in NAMES && t != u
    ensures NAMES[t] != NAMES[u]
  {}

  lemma AllNamed(lo: OrgId, hi: OrgId)
    ensures forall u :: u in NAMES ==> Names(Stuck(lo, hi), u, NAMES[u])
  {
    forall u | u in NAMES ensures Names(Stuck(lo, hi), u, NAMES[u]) {
      NamesFour(u);
      NamesActors(lo, hi, u, NAMES[u]);
    }
  }

  lemma NamesFour(u: nat)
    requires u in NAMES
    ensures (u == 1 && NAMES[u] == FIRST) || (u == 2 && NAMES[u] == SECOND)
            || (u == 3 && NAMES[u] == LEAVER) || (u == 4 && NAMES[u] == BOSS)
  {}

  lemma NamesActors(lo: OrgId, hi: OrgId, t: nat, a: ActorId)
    requires (t == 1 && a == FIRST) || (t == 2 && a == SECOND) || (t == 3 && a == LEAVER) || (t == 4 && a == BOSS)
    ensures Names(Stuck(lo, hi), t, a)
  {}

  lemma IdsAreFresh(lo: OrgId, hi: OrgId, t: nat)
    requires t in NAMES
    ensures FreshId(Stuck(lo, hi), t)
  {
    AllNamed(lo, hi);
    StuckKeys(lo, hi);
    forall u | u in NAMES && u != t ensures NAMES[u] != NAMES[t] { NamesDiffer(t, u); }
    FreshByName(Stuck(lo, hi), NAMES, t);
  }

  lemma StuckKeys(lo: OrgId, hi: OrgId)
    ensures Stuck(lo, hi).txns.Keys == NAMES.Keys
  {}

  /** The one email two acceptances meet over is awaited by the one into the later organization. */
  lemma OnlyThisEmail(lo: OrgId, hi: OrgId, emails: (OrgId, OrgId) -> bool)
    requires emails(hi, lo)
    ensures EmailsMeet(Stuck(lo, hi), emails)
  {
    var txns := Stuck(lo, hi).txns;
    forall t, u | t in txns && u in txns && SameEmail(txns[t], txns[u]) ensures t == 1 && u == 2 {}
  }

  lemma StuckIsOrderly(lo: OrgId, hi: OrgId, emails: (OrgId, OrgId) -> bool, records: (OrgId, OrgId) -> bool)
    requires emails(hi, lo)
    ensures Orderly(Stuck(lo, hi), emails, records)
  {
    var s := Stuck(lo, hi);
    StuckKeys(lo, hi);
    forall t | t in s.txns ensures FreshId(s, t) { IdsAreFresh(lo, hi, t); }
    OnlyThisEmail(lo, hi, emails);
    NoRecords(lo, hi, records);
  }

  lemma NoRecords(lo: OrgId, hi: OrgId, records: (OrgId, OrgId) -> bool)
    ensures RecordsMeet(Stuck(lo, hi), records)
  {
    StuckKeys(lo, hi);
    forall t | t in NAMES ensures !AwaitsRecord(Stuck(lo, hi).txns[t]) { NamesFour(t); }
  }

  /** For every two organizations, an email awaited by an acceptance into the later one closes a ring. */
  lemma EmailsDeadlock(lo: OrgId, hi: OrgId, emails: (OrgId, OrgId) -> bool, records: (OrgId, OrgId) -> bool)
    requires lo < hi && emails(hi, lo)
    ensures exists n :: Leads(Proper, Sys(Scene(lo, hi), map[]), n) && Orderly(n, emails, records) && Ring(n, RING)
    ensures Ok(Scene(lo, hi))
  {
    StartOk(lo, hi);
    Meet(lo, hi);
    AllWait(lo, hi);
    StuckIsOrderly(lo, hi, emails, records);
  }
}
