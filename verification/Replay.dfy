/** The audit log of an organization, replayed strictly, rebuilds the organization. */
module Replay {
  import opened Domain
  import opened Store
  import opened Operations
  import opened Integrity

  datatype Standing = Standing(role: OrganizationRole, status: MemberStatus)
  datatype Ticket = Ticket(maxUses: int, used: int, revoked: bool)

  /** What an auditor knows of an organization. */
  datatype Picture = Picture(
    founded: bool,
    members: map<ActorId, Standing>,
    teams: set<TeamId>,
    teamMembers: map<(TeamId, ActorId), TeamRole>,
    channels: map<ChannelId, ChannelScope>,
    listings: set<(ChannelId, ActorId)>,
    invites: map<InviteId, Ticket>)

  const BLANK := Picture(false, map[], {}, map[], map[], {}, map[])

  function PictureOf(org: Org): Picture {
    Picture(true,
            map a | a in org.members :: Standing(org.members[a].role, org.members[a].status),
            org.teams,
            org.teamMembers,
            map c | c in org.channels :: org.channels[c].scope,
            org.listings,
            map i | i in org.invites :: Ticket(org.invites[i].maxUses, org.invites[i].used, org.invites[i].revoked))
  }

  predicate Owns(p: Picture, a: ActorId) {
    a in p.members && p.members[a] == Standing(OrganizationRole.Owner, Active)
  }

  predicate OwnerRemainsWithout(p: Picture, a: ActorId) {
    Owns(p, a) ==> exists b :: b in p.members && b != a && Owns(p, b)
  }

  /** The rows each kind of record needs: nothing is created twice, removed when absent or changed from a value it does
      not have. */
  predicate RowsAdmit(p: Picture, e: Event) {
    match e
    case OrganizationCreated => p == BLANK
    case MemberAdded(a, _) => p.founded && a !in p.members
    case MemberInvited(a, i) =>
      p.founded && a !in p.members && i in p.invites && p.invites[i].used < p.invites[i].maxUses
      && !p.invites[i].revoked
    case MemberRoleChanged(a, from, to) =>
      a in p.members && !p.members[a].status.Left? && p.members[a].role == from && from != to
    case MemberSuspended(a) => a in p.members && p.members[a].status.Active?
    case MemberReactivated(a) => a in p.members && p.members[a].status.Suspended?
    case MemberLeft(a) =>
      a in p.members && !p.members[a].status.Left? && forall k :: k in p.teamMembers ==> k.1 != a
    case TeamCreated(t) => p.founded && t !in p.teams
    case TeamMemberAdded(a, t, _) =>
      t in p.teams && a in p.members && p.members[a].status.Active? && (t, a) !in p.teamMembers
    case TeamMemberRoleChanged(a, t, from, to) =>
      (t, a) in p.teamMembers && p.teamMembers[(t, a)] == from && from != to
    case TeamMemberRemoved(a, t, _) => (t, a) in p.teamMembers
    case ChannelCreated(c, scope) => p.founded && c !in p.channels && (scope.OfTeam? ==> scope.team in p.teams)
    case ChannelMemberAdded(a, c) => c in p.channels && p.channels[c].OfTeam? && (c, a) !in p.listings
    case ChannelMemberLeft(a, c) => (c, a) in p.listings
    case InviteCreated(i, maxUses) => p.founded && i !in p.invites && maxUses > 0
    case InviteRevoked(i) => i in p.invites && !p.invites[i].revoked
  }

  /** The record does not end the last active owner. */
  predicate OwnerStays(p: Picture, e: Event) {
    match e
    case MemberRoleChanged(a, _, _) => OwnerRemainsWithout(p, a)
    case MemberSuspended(a) => OwnerRemainsWithout(p, a)
    case MemberLeft(a) => OwnerRemainsWithout(p, a)
    case _ => true
  }

  /** The precondition of a record; with `owners`, the owner rule is part of it. */
  predicate Admissible(owners: bool, p: Picture, e: Event) {
    RowsAdmit(p, e) && (owners ==> OwnerStays(p, e))
  }

  function Next(p: Picture, e: Event): Picture
    requires RowsAdmit(p, e)
  {
    match e
    case OrganizationCreated => p.(founded := true)
    case MemberAdded(a, role) => p.(members := p.members[a := Standing(role, Active)])
    case MemberInvited(a, i) =>
      p.(members := p.members[a := Standing(OrganizationRole.Member, Active)],
         invites := p.invites[i := p.invites[i].(used := p.invites[i].used + 1)])
    case MemberRoleChanged(a, _, to) => p.(members := p.members[a := p.members[a].(role := to)])
    case MemberSuspended(a) => p.(members := p.members[a := p.members[a].(status := Suspended)])
    case MemberReactivated(a) => p.(members := p.members[a := p.members[a].(status := Active)])
    case MemberLeft(a) => p.(members := p.members[a := p.members[a].(status := Left)])
    case TeamCreated(t) => p.(teams := p.teams + {t})
    case TeamMemberAdded(a, t, role) => p.(teamMembers := p.teamMembers[(t, a) := role])
    case TeamMemberRoleChanged(a, t, _, to) => p.(teamMembers := p.teamMembers[(t, a) := to])
    case TeamMemberRemoved(a, t, _) => p.(teamMembers := p.teamMembers - {(t, a)})
    case ChannelCreated(c, scope) => p.(channels := p.channels[c := scope])
    case ChannelMemberAdded(a, c) => p.(listings := p.listings + {(c, a)})
    case ChannelMemberLeft(a, c) => p.(listings := p.listings - {(c, a)})
    case InviteCreated(i, maxUses) => p.(invites := p.invites[i := Ticket(maxUses, 0, false)])
    case InviteRevoked(i) => p.(invites := p.invites[i := p.invites[i].(revoked := true)])
  }

  /** Replay a log from a picture; None when some record's precondition fails. */
  function Replayed(owners: bool, start: Picture, audit: seq<Record>): Option<Picture>
    decreases |audit|
  {
    if audit == [] then Some(start)
    else
      match Replayed(owners, start, audit[..|audit| - 1])
      case None => None
      case Some(p) =>
        var e := audit[|audit| - 1].event;
        if Admissible(owners, p, e) then Some(Next(p, e)) else None
  }

  lemma ReplayAppend(owners: bool, start: Picture, audit: seq<Record>, r: Record)
    ensures Replayed(owners, start, audit + [r]) ==
            match Replayed(owners, start, audit)
            case None => None
            case Some(p) => if Admissible(owners, p, r.event) then Some(Next(p, r.event)) else None
  {
    assert (audit + [r])[..|audit|] == audit;
  }

  lemma {:induction false} ReplayConcat(owners: bool, start: Picture, audit: seq<Record>, more: seq<Record>)
    ensures Replayed(owners, start, audit + more) ==
            match Replayed(owners, start, audit) case None => None case Some(p) => Replayed(owners, p, more)
    decreases |more|
  {
    if more == [] {
      assert audit + more == audit;
    } else {
      var init := more[..|more| - 1];
      ReplayConcat(owners, start, audit, init);
      ReplayAppend(owners, start, audit + init, more[|more| - 1]);
      assert audit + more == (audit + init) + [more[|more| - 1]];
    }
  }

  ghost predicate Faithful(owners: bool, org: Org) {
    Replayed(owners, BLANK, org.audit) == Some(PictureOf(org))
  }

  ghost predicate AllFaithful(owners: bool, db: Db) {
    forall o :: o in db.orgs ==> Faithful(owners, db.orgs[o])
  }

  // ---- one change, one record ----

  lemma OwnersPictured(org: Org, a: ActorId)
    requires OthersOwn(org, a)
    ensures OwnerRemainsWithout(PictureOf(org), a)
  {
    var p := PictureOf(org);
    if Owns(p, a) {
      assert ActiveOwner(org, a);
      var b :| b != a && ActiveOwner(org, b);
      assert Owns(p, b);
    }
  }

  /** The record describes the write: it is admissible before, and yields the picture after. */
  ghost predicate Describes(owners: bool, e: Event, before: Org, after: Org) {
    Admissible(owners, PictureOf(before), e) && Next(PictureOf(before), e) == PictureOf(after)
  }

  lemma DecisionDescribed(owners: bool, org: Org, departed: Option<bool>, performer: ActorId, change: Change,
                          d: Decision)
    requires d == Decide(org, ActiveOwners(org), departed, performer, change)
    requires d.Proceed? && Violation(org, change).None?
    ensures if d.event.None? then d.write.Keep? else Describes(owners, d.event.value, org, Perform(org, d.write))
  {
    if change.ChangeRole? {
      if d.event.Some? { RoleDescribed(owners, org, departed, performer, change, d); }
    } else if change.SuspendMember? || change.ReactivateMember? {
      StatusDescribed(owners, org, departed, performer, change, d);
    } else if change.CreateChannel? || change.AddChannelMember? {
      ChannelDescribed(owners, org, departed, performer, change, d);
    } else {
      TeamDescribed(owners, org, departed, performer, change, d);
    }
  }

  lemma TeamDescribed(owners: bool, org: Org, departed: Option<bool>, performer: ActorId, change: Change,
                      d: Decision)
    requires change.CreateTeam? || change.AddTeamMember? || change.ChangeTeamRole? || change.RemoveTeamMember?
    requires d == Decide(org, {}, departed, performer, change) && d.Proceed? && Violation(org, change).None?
    ensures if d.event.None? then d.write.Keep? else Describes(owners, d.event.value, org, Perform(org, d.write))
  {
    var after := Perform(org, d.write);
    assert PictureOf(after) == PictureOf(org).(teams := after.teams, teamMembers := after.teamMembers);
    match change
    case CreateTeam(_) =>
    case AddTeamMember(_, _, _) =>
    case ChangeTeamRole(_, _, _) =>
    case RemoveTeamMember(_, _) =>
  }

  lemma ChannelDescribed(owners: bool, org: Org, departed: Option<bool>, performer: ActorId, change: Change,
                         d: Decision)
    requires change.CreateChannel? || change.AddChannelMember?
    requires d == Decide(org, {}, departed, performer, change) && d.Proceed? && Violation(org, change).None?
    ensures d.event.Some? && Describes(owners, d.event.value, org, Perform(org, d.write))
  {
    var after := Perform(org, d.write);
    if change.CreateChannel? {
      assert PictureOf(after).channels == PictureOf(org).channels[change.channel := change.scope];
    }
  }

  lemma RoleDescribed(owners: bool, org: Org, departed: Option<bool>, performer: ActorId, change: Change,
                      d: Decision)
    requires change.ChangeRole?
    requires d == Decide(org, ActiveOwners(org), departed, performer, change) && d.Proceed? && d.event.Some?
    ensures Describes(owners, d.event.value, org, Perform(org, d.write))
  {
    var a := change.target;
    if ActiveOwner(org, a) { var b :| b in ActiveOwners(org) && b != a; assert OthersOwn(org, a); }
    OwnersPictured(org, a);
    var after := Perform(org, d.write);
    assert PictureOf(after).members == PictureOf(org).members[a := PictureOf(org).members[a].(role := change.role)];
  }

  lemma SuspensionLeavesOwners(org: Org, departed: Option<bool>, performer: ActorId, a: ActorId)
    requires Decide(org, ActiveOwners(org), departed, performer, Change.SuspendMember(a)).Proceed?
    ensures OthersOwn(org, a)
  {
    if ActiveOwner(org, a) { var b :| b in ActiveOwners(org) && b != a; }
  }

  lemma StatusDescribed(owners: bool, org: Org, departed: Option<bool>, performer: ActorId, change: Change,
                        d: Decision)
    requires change.SuspendMember? || change.ReactivateMember?
    requires d == Decide(org, ActiveOwners(org), departed, performer, change) && d.Proceed?
    ensures d.event.Some? && Describes(owners, d.event.value, org, Perform(org, d.write))
  {
    var a := change.target;
    if change.SuspendMember? {
      SuspensionLeavesOwners(org, departed, performer, a);
      OwnersPictured(org, a);
    }
    var after := Perform(org, d.write);
    assert PictureOf(after).members ==
           PictureOf(org).members[a := PictureOf(org).members[a].(status := d.write.status)];
  }

  /** Appending the record that describes a write keeps the log faithful. */
  lemma LogFaithful(owners: bool, org: Org, after: Org, performer: ActorId, e: Event)
    requires Faithful(owners, org) && Describes(owners, e, org, after) && after.audit == org.audit
    ensures Faithful(owners, Logged(after, performer, Some(e)))
  {
    ReplayAppend(owners, BLANK, org.audit, Record(performer, e));
    assert PictureOf(Logged(after, performer, Some(e))) == PictureOf(after);
  }

  // ---- a departure ----

  function Ids(s: seq<nat>): set<nat> {
    set x | x in s
  }

  lemma AscendingSplits(s: seq<nat>)
    requires Ascending(s) && s != []
    ensures var init, last := s[..|s| - 1], s[|s| - 1];
            Ascending(init) && last !in init && s == init + [last] && Ids(s) == Ids(init) + {last}
            && forall x :: x in init ==> x in s
  {
    var init, last := s[..|s| - 1], s[|s| - 1];
    assert s == init + [last];
  }

  lemma OneTeamLess(rows: map<(TeamId, ActorId), TeamRole>, a: ActorId, gone: set<TeamId>, t: TeamId)
    ensures WithoutTeams(rows, a, gone) - {(t, a)} == WithoutTeams(rows, a, gone + {t})
  {}

  lemma OneListingLess(rows: set<(ChannelId, ActorId)>, a: ActorId, gone: set<ChannelId>, c: ChannelId)
    ensures WithoutListings(rows, a, gone) - {(c, a)} == WithoutListings(rows, a, gone + {c})
  {}

  lemma {:induction false} TeamRemovalsReplay(owners: bool, p: Picture, a: ActorId, teams: seq<TeamId>)
    requires Ascending(teams) && forall t :: t in teams ==> (t, a) in p.teamMembers
    ensures Replayed(owners, p, TeamRemovals(a, teams)) ==
            Some(p.(teamMembers := WithoutTeams(p.teamMembers, a, Ids(teams))))
    decreases |teams|
  {
    if teams == [] {
      assert Ids(teams) == {} && WithoutTeams(p.teamMembers, a, {}) == p.teamMembers;
      assert TeamRemovals(a, teams) == [];
    } else {
      var init, t := teams[..|teams| - 1], teams[|teams| - 1];
      var r := Record(a, TeamMemberRemoved(a, t, LeftService));
      AscendingSplits(teams);
      TeamRemovalsReplay(owners, p, a, init);
      ReplayAppend(owners, p, TeamRemovals(a, init), r);
      OneTeamLess(p.teamMembers, a, Ids(init), t);
      assert TeamRemovals(a, teams) == TeamRemovals(a, init) + [r];
    }
  }

  lemma {:induction false} ListingRemovalsReplay(owners: bool, p: Picture, a: ActorId, channels: seq<ChannelId>)
    requires Ascending(channels) && forall c :: c in channels ==> (c, a) in p.listings
    ensures Replayed(owners, p, ListingRemovals(a, channels)) ==
            Some(p.(listings := WithoutListings(p.listings, a, Ids(channels))))
    decreases |channels|
  {
    if channels == [] {
      assert Ids(channels) == {} && WithoutListings(p.listings, a, {}) == p.listings;
      assert ListingRemovals(a, channels) == [];
    } else {
      var init, c := channels[..|channels| - 1], channels[|channels| - 1];
      var r := Record(a, ChannelMemberLeft(a, c));
      AscendingSplits(channels);
      ListingRemovalsReplay(owners, p, a, init);
      ReplayAppend(owners, p, ListingRemovals(a, init), r);
      OneListingLess(p.listings, a, Ids(init), c);
      assert ListingRemovals(a, channels) == ListingRemovals(a, init) + [r];
    }
  }

  lemma MemberLeftReplay(owners: bool, p: Picture, a: ActorId)
    requires Admissible(owners, p, MemberLeft(a))
    ensures Replayed(owners, p, [Record(a, MemberLeft(a))]) == Some(Next(p, MemberLeft(a)))
  {
    assert [] + [Record(a, MemberLeft(a))] == [Record(a, MemberLeft(a))];
    ReplayAppend(owners, p, [], Record(a, MemberLeft(a)));
  }

  /** The picture after a departure's records. */
  function Departure(p: Picture, a: ActorId, teams: set<TeamId>, leaves: bool, channels: set<ChannelId>): Picture
    requires leaves ==> a in p.members
  {
    p.(teamMembers := WithoutTeams(p.teamMembers, a, teams),
       members := if leaves then p.members[a := p.members[a].(status := Left)] else p.members,
       listings := WithoutListings(p.listings, a, channels))
  }

  lemma DepartureReplays(owners: bool, p: Picture, a: ActorId, teams: set<TeamId>, leaves: bool,
                         channels: set<ChannelId>)
    requires forall t :: t in teams <==> (t, a) in p.teamMembers
    requires forall c :: c in channels ==> (c, a) in p.listings
    requires leaves ==> a in p.members && !p.members[a].status.Left? && (owners ==> OwnerRemainsWithout(p, a))
    ensures Replayed(owners, p, DepartureRecords(a, teams, leaves, channels)) ==
            Some(Departure(p, a, teams, leaves, channels))
  {
    var p1 := p.(teamMembers := WithoutTeams(p.teamMembers, a, teams));
    var p2 := if leaves then p1.(members := p1.members[a := p1.members[a].(status := Left)]) else p1;
    assert Ids(Sorted(teams)) == teams && Ids(Sorted(channels)) == channels;
    TeamRemovalsReplay(owners, p, a, Sorted(teams));
    if leaves {
      if owners { SameOwners(p, p1, a); }
      MemberLeftReplay(owners, p1, a);
    }
    ListingRemovalsReplay(owners, p2, a, Sorted(channels));
    LeaveRecordsReplay(owners, p, a, teams, leaves, channels, p1, p2);
  }

  lemma LeftPicture(org: Org, a: ActorId)
    ensures var leaves := a in org.members && !org.members[a].status.Left?;
            PictureOf(LeaveOrg(org, a)) ==
            Departure(PictureOf(org), a, TeamsOf(org, a), leaves, ListedIn(org, a))
  {
    var leaves := a in org.members && !org.members[a].status.Left?;
    assert PictureOf(LeaveOrg(org, a)).members ==
           Departure(PictureOf(org), a, TeamsOf(org, a), leaves, ListedIn(org, a)).members;
  }

  lemma LeaveOrgFaithful(owners: bool, org: Org, a: ActorId)
    requires Faithful(owners, org) && (owners ==> OthersOwn(org, a))
    ensures Faithful(owners, LeaveOrg(org, a))
  {
    var teams, channels := TeamsOf(org, a), ListedIn(org, a);
    var leaves := a in org.members && !org.members[a].status.Left?;
    if owners { OwnersPictured(org, a); }
    DepartureReplays(owners, PictureOf(org), a, teams, leaves, channels);
    ReplayConcat(owners, BLANK, org.audit, DepartureRecords(a, teams, leaves, channels));
    LeftPicture(org, a);
  }

  lemma SameOwners(p: Picture, q: Picture, a: ActorId)
    requires p.members == q.members && OwnerRemainsWithout(p, a)
    ensures OwnerRemainsWithout(q, a)
  {
    if Owns(q, a) {
      assert Owns(p, a);
      var b :| b in p.members && b != a && Owns(p, b);
      assert Owns(q, b);
    }
  }

  /** The three groups of records replay one after another. */
  lemma LeaveRecordsReplay(owners: bool, p: Picture, a: ActorId, teams: set<TeamId>, leaves: bool,
                           channels: set<ChannelId>,
                           p1: Picture, p2: Picture)
    requires Replayed(owners, p, TeamRemovals(a, Sorted(teams))) == Some(p1)
    requires if leaves then Replayed(owners, p1, [Record(a, MemberLeft(a))]) == Some(p2) else p2 == p1
    ensures Replayed(owners, p, DepartureRecords(a, teams, leaves, channels)) ==
            Replayed(owners, p2, ListingRemovals(a, Sorted(channels)))
  {
    var first := TeamRemovals(a, Sorted(teams));
    var second := if leaves then [Record(a, MemberLeft(a))] else [];
    ReplayConcat(owners, p, first, second);
    ReplayConcat(owners, p, first + second, ListingRemovals(a, Sorted(channels)));
  }

  // ---- every operation, every run ----

  lemma PutFaithful(owners: bool, db: Db, o: OrgId, org: Org)
    requires AllFaithful(owners, db) && Faithful(owners, org)
    ensures AllFaithful(owners, PutOrg(db, o, org))
  {}

  lemma DescribedFaithful(owners: bool, org: Org, performer: ActorId, write: Write, event: Option<Event>)
    requires Faithful(owners, org) && Perform(org, write).audit == org.audit
    requires if event.None? then write.Keep? else Describes(owners, event.value, org, Perform(org, write))
    ensures Faithful(owners, Logged(Perform(org, write), performer, event))
  {
    if event.Some? { LogFaithful(owners, org, Perform(org, write), performer, event.value); }
  }

  lemma WritesNoRecord(org: Org, write: Write)
    ensures Perform(org, write).audit == org.audit
  {}

  lemma DecisionFaithful(owners: bool, org: Org, departed: Option<bool>, performer: ActorId, change: Change,
                         d: Decision)
    requires Faithful(owners, org) && d == Decide(org, ActiveOwners(org), departed, performer, change)
    requires d.Proceed? && Violation(org, change).None?
    ensures Faithful(owners, Logged(Perform(org, d.write), performer, d.event))
  {
    DecisionDescribed(owners, org, departed, performer, change, d);
    WritesNoRecord(org, d.write);
    DescribedFaithful(owners, org, performer, d.write, d.event);
  }

  lemma InOrgFaithful(owners: bool, db: Db, op: Op)
    requires AllFaithful(owners, db) && op.InOrg?
    ensures AllFaithful(owners, Apply(db, op).db)
  {
    if ApplyInOrg(db, op).reply.Done? {
      var org := db.orgs[op.org];
      var d := Decide(org, ActiveOwners(org), Departed(db, op), op.performer, op.change);
      DecisionFaithful(owners, org, Departed(db, op), op.performer, op.change, d);
      PutFaithful(owners, db, op.org, Logged(Perform(org, d.write), op.performer, d.event));
    }
  }

  lemma InvitedFaithful(owners: bool, org: Org, performer: ActorId, i: InviteId, row: Invite)
    requires Faithful(owners, org) && i !in org.invites && row.maxUses > 0 && row.used == 0 && !row.revoked
    ensures Faithful(owners, Logged(org.(invites := org.invites[i := row]), performer,
                                    Some(InviteCreated(i, row.maxUses))))
  {
    var after := org.(invites := org.invites[i := row]);
    assert PictureOf(after).invites == PictureOf(org).invites[i := Ticket(row.maxUses, 0, false)];
    LogFaithful(owners, org, after, performer, InviteCreated(i, row.maxUses));
  }

  lemma CreateInviteFaithful(owners: bool, db: Db, op: Op)
    requires AllFaithful(owners, db) && op.CreateInvite?
    ensures AllFaithful(owners, Apply(db, op).db)
  {
    if ApplyCreateInvite(db, op).reply.Done? {
      var row := Invite(ForOrganization, op.token.value, op.expires, op.maxUses, 0, false);
      InvitedFaithful(owners, db.orgs[op.org], op.performer, op.invite, row);
    }
  }

  lemma RevokedFaithful(owners: bool, org: Org, performer: ActorId, i: InviteId)
    requires Faithful(owners, org) && i in org.invites && !org.invites[i].revoked
    ensures Faithful(owners, Logged(Revoke(org, i), performer, Some(InviteRevoked(i))))
  {
    var after := Revoke(org, i);
    assert PictureOf(after).invites == PictureOf(org).invites[i := PictureOf(org).invites[i].(revoked := true)];
    LogFaithful(owners, org, after, performer, InviteRevoked(i));
  }

  lemma RevokeInviteFaithful(owners: bool, db: Db, op: Op)
    requires AllFaithful(owners, db) && op.RevokeInvite?
    ensures AllFaithful(owners, Apply(db, op).db)
  {
    var r := ApplyRevokeInvite(db, op);
    if r.reply.Done? && r.db != db {
      var org, i := db.orgs[op.org], op.revoked.value;
      RevokedFaithful(owners, org, op.performer, i);
      PutFaithful(owners, db, op.org, Logged(Revoke(org, i), op.performer, Some(InviteRevoked(i))));
    }
  }

  lemma JoinedFaithful(owners: bool, org: Org, i: InviteId, a: ActorId)
    requires Faithful(owners, org) && i in org.invites && a !in org.members
    requires org.invites[i].used < org.invites[i].maxUses && !org.invites[i].revoked
    ensures Faithful(owners, Joined(org, i, a))
  {
    var p := PictureOf(org);
    var after := org.(invites := org.invites[i := org.invites[i].(used := org.invites[i].used + 1)],
                      members := org.members[a := Membership(OrganizationRole.Member, Active, None)]);
    assert PictureOf(after).invites == p.invites[i := p.invites[i].(used := p.invites[i].used + 1)];
    assert PictureOf(after).members == p.members[a := Standing(OrganizationRole.Member, Active)];
    LogFaithful(owners, org, after, a, MemberInvited(a, i));
  }

  lemma AcceptFaithful(owners: bool, db: Db, op: Op)
    requires AllFaithful(owners, db) && op.AcceptInvite?
    requires forall o :: o in db.orgs ==> op.actor in db.orgs[o].members ==> op.actor in db.actors
    ensures AllFaithful(owners, Apply(db, op).db)
  {
    if ApplyAccept(db, op).reply.Done? {
      var At(o, i) := Locate(db, op.presented);
      JoinedFaithful(owners, db.orgs[o], i, op.actor);
    }
  }

  lemma FoundedFaithful(owners: bool, a: ActorId, slug: string)
    ensures Faithful(owners, Founded(a, slug))
  {
    var org := Founded(a, slug);
    var r0, r1 := Record(a, OrganizationCreated), Record(a, MemberAdded(a, OrganizationRole.Owner));
    ReplayAppend(owners, BLANK, [], r0);
    ReplayAppend(owners, BLANK, [r0], r1);
    assert [] + [r0] == [r0] && [r0] + [r1] == org.audit;
    assert PictureOf(org) == BLANK.(founded := true, members := map[a := Standing(OrganizationRole.Owner, Active)]);
  }

  lemma LeavingFaithful(owners: bool, db: Db, a: ActorId)
    requires AllFaithful(owners, db) && a in db.actors
    requires owners ==> forall o :: o in db.orgs ==> OthersOwn(db.orgs[o], a)
    ensures AllFaithful(owners, Leaving(db, a))
  {
    forall o | o in db.orgs ensures Faithful(owners, LeaveOrg(db.orgs[o], a)) {
      LeaveOrgFaithful(owners, db.orgs[o], a);
    }
  }

  lemma LeaveFaithful(owners: bool, db: Db, op: Op)
    requires AllFaithful(owners, db) && op.LeaveService?
    ensures AllFaithful(owners, Apply(db, op).db)
  {
    var a := op.actor;
    if ApplyLeave(db, a).reply.Done? {
      forall o | o in db.orgs ensures OthersOwn(db.orgs[o], a) {
        assert o !in Abandoned(db, a);
        LeaverReady(db.orgs[o], a);
      }
      LeavingFaithful(owners, db, a);
    }
  }

  lemma LeaverReady(org: Org, a: ActorId)
    requires ActiveMember(org, a) ==> CheckOwnerChange(ActiveOwners(org), OwnerChange.Leave(a))
    ensures OthersOwn(org, a)
  {
    if ActiveOwner(org, a) { var b :| b in ActiveOwners(org) && b != a; assert ActiveOwner(org, b); }
  }

  lemma CreateOrganizationFaithful(owners: bool, db: Db, op: Op)
    requires AllFaithful(owners, db) && op.CreateOrganization?
    ensures AllFaithful(owners, Apply(db, op).db)
  {
    FoundedFaithful(owners, op.actor, op.slug);
    PutFaithful(owners, db, op.org, Founded(op.actor, op.slug));
  }

  lemma OtherFaithful(owners: bool, db: Db, op: Op)
    requires AllFaithful(owners, db) && (op.CreatePerson? || op.SignIn?)
    ensures AllFaithful(owners, Apply(db, op).db)
  {
    assert Apply(db, op).db.orgs == db.orgs;
  }

  lemma ApplyFaithful(owners: bool, db: Db, op: Op)
    requires Sound(db) && AllFaithful(owners, db)
    ensures AllFaithful(owners, Apply(db, op).db)
  {
    if op.InOrg? { InOrgFaithful(owners, db, op); }
    else if op.CreateInvite? { CreateInviteFaithful(owners, db, op); }
    else if op.RevokeInvite? { RevokeInviteFaithful(owners, db, op); }
    else if op.AcceptInvite? {
      assert forall o :: o in db.orgs ==> People(db.actors, db.orgs[o]);
      AcceptFaithful(owners, db, op);
    }
    else if op.CreateOrganization? { CreateOrganizationFaithful(owners, db, op); }
    else if op.LeaveService? { LeaveFaithful(owners, db, op); }
    else { OtherFaithful(owners, db, op); }
  }

  /** A commit's records describe its rows, even where a departure's owner check was out of date. */
  lemma LandFaithful(db: Db, op: Op)
    requires Sound(db) && AllFaithful(false, db)
    ensures AllFaithful(false, Land(db, op).db)
  {
    if Land(db, op) == Apply(db, op) { ApplyFaithful(false, db, op); } else { LeavingFaithful(false, db, op.actor); }
  }

  /** After every run of operations, each organization's log replays from nothing, every record's precondition met and
      no record ending the last active owner, to exactly the organization's roles, statuses, teams, channels, listings
      and invites. */
  lemma {:induction false} LogsRebuildOrganizations(db: Db, ops: seq<Op>)
    requires Sound(db) && AllFaithful(true, db)
    ensures AllFaithful(true, Execute(db, ops))
    decreases |ops|
  {
    if ops != [] {
      ApplySound(db, ops[0]);
      ApplyFaithful(true, db, ops[0]);
      LogsRebuildOrganizations(Apply(db, ops[0]).db, ops[1..]);
    }
  }
}
