/** A departure taken apart: its three passes over the organizations, and the order of its refusals. */
module Departure {
  import opened Domain
  import opened Store
  import opened Operations
  import opened Integrity

  datatype Pass = Sweeping | Unlisting | Ending

  function Leaves(org: Org, a: ActorId): bool {
    a in org.members && !org.members[a].status.Left?
  }

  function WithRecords(org: Org, more: seq<Record>): Org {
    org.(audit := org.audit + more)
  }

  lemma OneMoreRecord(org: Org, more: seq<Record>, r: Record)
    ensures WithRecords(org, more + [r]) == WithRecords(WithRecords(org, more), [r])
    ensures WithRecords(org, []) == org
  {
    assert org.audit + (more + [r]) == (org.audit + more) + [r];
    assert org.audit + [] == org.audit;
  }

  lemma PutSame(db: Db, o: OrgId)
    requires o in db.orgs
    ensures PutOrg(db, o, db.orgs[o]) == db
  {
    assert db.orgs[o := db.orgs[o]] == db.orgs;
  }

  /** leave_organization: the actor's team rows go, one record each. */
  function WithoutTeamRows(org: Org, a: ActorId): Org {
    WithRecords(org.(teamMembers := WithoutTeams(org.teamMembers, a, TeamsOf(org, a))),
                TeamRemovals(a, Sorted(TeamsOf(org, a))))
  }

  /** One organization after the pass has been through it. */
  function Through(pass: Pass, org: Org, a: ActorId): Org {
    match pass
    case Sweeping =>
      WithRecords(WithoutTeamRows(org, a), if Leaves(org, a) then [Record(a, MemberLeft(a))] else [])
    case Unlisting =>
      WithRecords(org.(listings := WithoutListings(org.listings, a, ListedIn(org, a))),
                  ListingRemovals(a, Sorted(ListedIn(org, a))))
    case Ending =>
      if a in org.members then org.(members := org.members[a := org.members[a].(status := Left, name := None)]) else org
  }

  /** The organizations once the pass has been through those in `done`. */
  function Over(orgs: map<OrgId, Org>, a: ActorId, pass: Pass, done: seq<OrgId>): map<OrgId, Org> {
    map o | o in orgs :: if o in done then Through(pass, orgs[o], a) else orgs[o]
  }

  lemma OverNext(orgs: map<OrgId, Org>, a: ActorId, pass: Pass, done: seq<OrgId>, o: OrgId)
    requires o in orgs && o !in done
    ensures o in Over(orgs, a, pass, done) && Over(orgs, a, pass, done)[o] == orgs[o]
    ensures Over(orgs, a, pass, done + [o]) == Over(orgs, a, pass, done)[o := Through(pass, orgs[o], a)]
  {}

  lemma OverNone(orgs: map<OrgId, Org>, a: ActorId, pass: Pass)
    ensures Over(orgs, a, pass, []) == orgs
  {}

  lemma OverKeepsMembers(orgs: map<OrgId, Org>, a: ActorId, pass: Pass, done: seq<OrgId>)
    requires !pass.Ending?
    ensures forall o :: o in orgs <==> o in Over(orgs, a, pass, done)
    ensures forall o :: o in orgs ==> Over(orgs, a, pass, done)[o].members == orgs[o].members
  {}

  function MembershipsOf(orgs: map<OrgId, Org>, a: ActorId): (r: set<OrgId>)
    ensures forall o :: o in r <==> o in orgs && a in orgs[o].members
  {
    set o | o in orgs && a in orgs[o].members
  }

  function ListingsOf(orgs: map<OrgId, Org>, a: ActorId): (r: set<OrgId>)
    ensures forall o :: o in r <==> o in orgs && ListedIn(orgs[o], a) != {}
  {
    set o | o in orgs && ListedIn(orgs[o], a) != {}
  }

  // ---- the passes together ----

  lemma NothingToSweep(org: Org, a: ActorId)
    requires a !in org.members && forall k :: k in org.teamMembers ==> k.1 in org.members
    ensures Through(Sweeping, org, a) == org
  {
    assert TeamsOf(org, a) == {};
    assert WithoutTeams(org.teamMembers, a, {}) == org.teamMembers;
    assert TeamRemovals(a, []) == [] && org.audit + [] == org.audit;
  }

  lemma NothingToUnlist(org: Org, a: ActorId)
    requires ListedIn(org, a) == {}
    ensures Through(Unlisting, org, a) == org
  {
    assert WithoutListings(org.listings, a, {}) == org.listings;
    assert ListingRemovals(a, []) == [] && org.audit + [] == org.audit;
  }

  lemma RecordsInOrder(audit: seq<Record>, teams: seq<Record>, left: seq<Record>, more: seq<Record>)
    ensures ((audit + teams) + left) + more == audit + (teams + left + more)
  {}

  lemma SameListings(org: Org, other: Org, a: ActorId)
    requires org.listings == other.listings
    ensures ListedIn(org, a) == ListedIn(other, a)
  {}

  lemma PassesAreDeparture(org: Org, a: ActorId)
    ensures Through(Ending, Through(Unlisting, Through(Sweeping, org, a), a), a) == LeaveOrg(org, a)
  {
    var swept := Through(Sweeping, org, a);
    SameListings(swept, org, a);
    RecordsInOrder(org.audit, TeamRemovals(a, Sorted(TeamsOf(org, a))),
                   if Leaves(org, a) then [Record(a, MemberLeft(a))] else [],
                   ListingRemovals(a, Sorted(ListedIn(org, a))));
    assert Through(Unlisting, swept, a).audit == LeaveOrg(org, a).audit;
  }

  /** Every organization without the actor. */
  function Vacated(orgs: map<OrgId, Org>, a: ActorId): map<OrgId, Org> {
    map o | o in orgs :: LeaveOrg(orgs[o], a)
  }

  function AllThree(orgs: map<OrgId, Org>, a: ActorId, memberships: seq<OrgId>, listed: seq<OrgId>): map<OrgId, Org> {
    Over(Over(Over(orgs, a, Sweeping, memberships), a, Unlisting, listed), a, Ending, memberships)
  }

  lemma EachPass(orgs: map<OrgId, Org>, a: ActorId, memberships: seq<OrgId>, listed: seq<OrgId>, o: OrgId)
    requires o in orgs && References(orgs[o])
    requires o in memberships <==> a in orgs[o].members
    requires o in listed <==> ListedIn(orgs[o], a) != {}
    ensures o in AllThree(orgs, a, memberships, listed)
    ensures AllThree(orgs, a, memberships, listed)[o] == LeaveOrg(orgs[o], a)
  {
    var org := orgs[o];
    PassesAreDeparture(org, a);
    if o !in memberships { NothingToSweep(org, a); }
    if o !in listed { NothingToUnlist(Through(Sweeping, org, a), a); }
  }

  /** The three passes together make every organization what it is without the actor. */
  lemma AllPasses(orgs: map<OrgId, Org>, a: ActorId, memberships: seq<OrgId>, listed: seq<OrgId>)
    requires forall o :: o in orgs ==> References(orgs[o])
    requires forall o :: o in memberships <==> o in orgs && a in orgs[o].members
    requires forall o :: o in listed <==> o in orgs && ListedIn(orgs[o], a) != {}
    ensures AllThree(orgs, a, memberships, listed) == Vacated(orgs, a)
  {
    forall o | o in orgs
      ensures o in AllThree(orgs, a, memberships, listed)
      ensures AllThree(orgs, a, memberships, listed)[o] == LeaveOrg(orgs[o], a)
    {
      EachPass(orgs, a, memberships, listed, o);
    }
  }

  /** The first organization, by id, that the actor would leave without an owner. */
  lemma FirstAbandoned(db: Db, a: ActorId, orgs: seq<OrgId>, k: nat)
    requires orgs == Sorted(ActiveOrgs(db, a)) && k < |orgs|
    requires forall j :: 0 <= j < k ==> orgs[j] in db.orgs && OwnersRemain(db, a, orgs[j])
    requires orgs[k] in db.orgs && !OwnersRemain(db, a, orgs[k])
    ensures Abandoned(db, a) != {} && Least(Abandoned(db, a)) == orgs[k]
  {
    assert orgs[k] in orgs && orgs[k] in Abandoned(db, a);
    var m := Least(Abandoned(db, a));
    assert m in orgs;
    var j :| 0 <= j < |orgs| && orgs[j] == m;
  }

  lemma NoneAbandoned(db: Db, a: ActorId, orgs: seq<OrgId>)
    requires orgs == Sorted(ActiveOrgs(db, a))
    requires forall j :: 0 <= j < |orgs| ==> orgs[j] in db.orgs && OwnersRemain(db, a, orgs[j])
    ensures Abandoned(db, a) == {}
  {
    forall o | o in db.orgs ensures o !in Abandoned(db, a) {
      if ActiveIn(db, a, o) { assert o in orgs; }
    }
  }

  // ---- the records ----

  /** The records a departure may write about its actor. */
  predicate Concerns(e: Event, a: ActorId) {
    match e
    case TeamMemberRemoved(b, _, _) => b == a
    case MemberLeft(b) => b == a
    case ChannelMemberLeft(b, _) => b == a
    case _ => false
  }

  lemma RecordsOf(a: ActorId, teams: seq<TeamId>, leaves: bool, channels: seq<ChannelId>)
    requires Ascending(teams) && Ascending(channels)
    ensures var more := Records(a, teams, leaves, channels);
            && (forall t: TeamId :: Record(a, TeamMemberRemoved(a, t, LeftService)) in more <==> t in teams)
            && (forall c: ChannelId :: Record(a, ChannelMemberLeft(a, c)) in more <==> c in channels)
            && (Record(a, MemberLeft(a)) in more <==> leaves)
            && (forall r :: r in more ==> r.performer == a && Concerns(r.event, a))
            && (forall i, j :: 0 <= i < j < |more| ==> more[i] != more[j])
  {
    var more := Records(a, teams, leaves, channels);
    var n := |teams|;
    var m := n + if leaves then 1 else 0;
    assert forall k :: 0 <= k < n ==> more[k] == Record(a, TeamMemberRemoved(a, teams[k], LeftService));
    assert forall k :: n <= k < m ==> more[k] == Record(a, MemberLeft(a));
    forall k | m <= k < |more| ensures more[k] == Record(a, ChannelMemberLeft(a, channels[k - m])) {}
    forall t | t in teams ensures Record(a, TeamMemberRemoved(a, t, LeftService)) in more {
      var k :| 0 <= k < n && teams[k] == t;
      assert more[k] in more;
    }
    forall c | c in channels ensures Record(a, ChannelMemberLeft(a, c)) in more {
      var k :| 0 <= k < |channels| && channels[k] == c;
      assert more[m + k] in more;
    }
    if leaves { assert more[n] in more; }
  }

  /** A departure records each removed team row, each removed listing and each membership it ends exactly once, and
      nothing else. */
  lemma OneRecordEach(org: Org, a: ActorId)
    ensures org.audit <= LeaveOrg(org, a).audit
    ensures var more := LeaveOrg(org, a).audit[|org.audit|..];
            && (forall t: TeamId ::
                  Record(a, TeamMemberRemoved(a, t, LeftService)) in more <==> (t, a) in org.teamMembers)
            && (forall c: ChannelId :: Record(a, ChannelMemberLeft(a, c)) in more <==> (c, a) in org.listings)
            && (Record(a, MemberLeft(a)) in more <==> Leaves(org, a))
            && (forall r :: r in more ==> r.performer == a && Concerns(r.event, a))
            && (forall i, j :: 0 <= i < j < |more| ==> more[i] != more[j])
  {
    var teams, channels := Sorted(TeamsOf(org, a)), Sorted(ListedIn(org, a));
    RecordsOf(a, teams, Leaves(org, a), channels);
    assert LeaveOrg(org, a).audit[|org.audit|..] == Records(a, teams, Leaves(org, a), channels);
  }
}
