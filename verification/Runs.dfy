/** What whole runs of operations preserve: departure, revocation, tenants and the places of an invite. */
module Runs {
  import opened Domain
  import opened Store
  import opened Operations
  import opened Integrity

  // ---- departure is permanent ----

  ghost predicate HasDeparted(db: Db, a: ActorId) {
    a in db.actors && db.actors[a].departed
  }

  /** Nothing of the person is left but the actor row and ended memberships. */
  ghost predicate Erased(db: Db, a: ActorId) {
    && (forall o :: o in db.orgs ==>
          && (a in db.orgs[o].members ==> db.orgs[o].members[a].status.Left? && db.orgs[o].members[a].name.None?)
          && (forall t :: (t, a) !in db.orgs[o].teamMembers)
          && (forall c :: (c, a) !in db.orgs[o].listings))
    && (a in db.actors ==> db.actors[a].name.None?)
    && a !in db.users
    && (forall k :: k in db.sessions ==> db.sessions[k].actor != a)
  }

  lemma DepartedAreErased(db: Db, a: ActorId)
    requires Sound(db) && HasDeparted(db, a)
    ensures Erased(db, a)
  {
    forall o | o in db.orgs
      ensures a in db.orgs[o].members ==> db.orgs[o].members[a].status.Left? && db.orgs[o].members[a].name.None?
      ensures forall t :: (t, a) !in db.orgs[o].teamMembers
      ensures forall c :: (c, a) !in db.orgs[o].listings
    {
      assert People(db.actors, db.orgs[o]);
    }
  }

  lemma StaysDeparted(db: Db, op: Op, a: ActorId)
    requires HasDeparted(db, a)
    ensures HasDeparted(Apply(db, op).db, a) && HasDeparted(Land(db, op).db, a)
  {
    match op
    case InOrg(_, _, _, _) => assert Apply(db, op).db.actors == db.actors;
    case _ =>
  }

  /** Once departed, an actor is departed and erased after every further run of operations. */
  lemma {:induction false} DepartureIsPermanent(db: Db, ops: seq<Op>, a: ActorId)
    requires Sound(db) && HasDeparted(db, a)
    ensures HasDeparted(Execute(db, ops), a) && Erased(Execute(db, ops), a)
    decreases |ops|
  {
    if ops == [] {
      DepartedAreErased(db, a);
    } else {
      ApplySound(db, ops[0]);
      StaysDeparted(db, ops[0], a);
      DepartureIsPermanent(Apply(db, ops[0]).db, ops[1..], a);
    }
  }

  // ---- the owner rule ----

  /** Alone, a departure is refused exactly for a missing or departed actor, or for the first organization
      whose only active owner it is. */
  lemma LeaveRefusals(db: Db, a: ActorId)
    requires Ok(db)
    ensures ApplyLeave(db, a).reply.Done? <==>
            && a in db.actors && !db.actors[a].departed
            && (forall o :: ActiveIn(db, a, o) ==> exists b :: b != a && ActiveOwner(db.orgs[o], b))
    ensures forall o :: ApplyLeave(db, a).reply == Refused(LastOwnerOf(o)) ==>
              && ActiveIn(db, a, o) && ActiveOwners(db.orgs[o]) == {a}
              && forall p :: p < o && ActiveIn(db, a, p) ==> exists b :: b != a && ActiveOwner(db.orgs[p], b)
  {
    forall o | ActiveIn(db, a, o)
      ensures o !in Abandoned(db, a) <==> exists b :: b != a && ActiveOwner(db.orgs[o], b)
    {
      assert forall b :: b in ActiveOwners(db.orgs[o]) <==> ActiveOwner(db.orgs[o], b);
    }
    forall o | ApplyLeave(db, a).reply == Refused(LastOwnerOf(o)) ensures ActiveOwners(db.orgs[o]) == {a} {
      assert o in Abandoned(db, a) && Owned(db.orgs[o]);
      var b :| ActiveOwner(db.orgs[o], b);
      assert b in ActiveOwners(db.orgs[o]) && b == a;
    }
  }

  // ---- a revoked invite admits nobody ----

  ghost predicate RevokedAt(db: Db, o: OrgId, i: InviteId, used: int) {
    o in db.orgs && i in db.orgs[o].invites && db.orgs[o].invites[i].revoked && db.orgs[o].invites[i].used == used
  }

  lemma StaysRevoked(db: Db, op: Op, o: OrgId, i: InviteId, used: int)
    requires RevokedAt(db, o, i, used)
    ensures RevokedAt(Apply(db, op).db, o, i, used) && RevokedAt(Land(db, op).db, o, i, used)
  {
    match op
    case InOrg(_, _, _, _) => InvitesUntouched(db, op);
    case _ =>
  }

  lemma InvitesUntouched(db: Db, op: Op)
    requires op.InOrg?
    ensures ApplyInOrg(db, op).db.orgs.Keys == db.orgs.Keys
    ensures forall o :: o in db.orgs ==> ApplyInOrg(db, op).db.orgs[o].invites == db.orgs[o].invites
  {
    if ActiveIn(db, op.performer, op.org) {
      var org := db.orgs[op.org];
      SettledInvites(db, op.org, op.performer, op.change,
                     Decide(org, ActiveOwners(org), Departed(db, op), op.performer, op.change));
    }
  }

  lemma WritesKeepInvites(org: Org, write: Write, performer: ActorId, event: Option<Event>)
    ensures Logged(Perform(org, write), performer, event).invites == org.invites
  {}

  lemma SettledInvites(db: Db, o: OrgId, performer: ActorId, change: Change, d: Decision)
    requires o in db.orgs
    ensures Settle(db, o, performer, change, d).db.orgs.Keys == db.orgs.Keys
    ensures forall p :: p in db.orgs ==> Settle(db, o, performer, change, d).db.orgs[p].invites == db.orgs[p].invites
  {
    if d.Proceed? {
      WritesKeepInvites(db.orgs[o], d.write, performer, d.event);
      PutKeepsInvites(db, o, Logged(Perform(db.orgs[o], d.write), performer, d.event));
    }
  }

  lemma PutKeepsInvites(db: Db, o: OrgId, org: Org)
    requires o in db.orgs && org.invites == db.orgs[o].invites
    ensures PutOrg(db, o, org).orgs.Keys == db.orgs.Keys
    ensures forall p :: p in db.orgs ==> PutOrg(db, o, org).orgs[p].invites == db.orgs[p].invites
  {}

  /** The use count of a revoked invite never changes again, nor does the set of members it admitted. */
  lemma {:induction false} RevocationIsFinal(db: Db, ops: seq<Op>, o: OrgId, i: InviteId, used: int)
    requires Sound(db) && RevokedAt(db, o, i, used)
    ensures RevokedAt(Execute(db, ops), o, i, used)
    ensures |Admitted(Execute(db, ops).orgs[o].audit, i)| == used
    decreases |ops|
  {
    if ops == [] {
      assert OrgOk(db.actors, db.orgs[o]);
      assert InviteSpent(db.orgs[o], i);
    } else {
      ApplySound(db, ops[0]);
      StaysRevoked(db, ops[0], o, i, used);
      RevocationIsFinal(Apply(db, ops[0]).db, ops[1..], o, i, used);
    }
  }

  // ---- an organization one is not active in ----

  /** The operation names an organization its performer must be active in. */
  predicate Scoped(op: Op) {
    op.InOrg? || op.CreateInvite? || op.RevokeInvite?
  }

  /** The same operation, naming organization `o`. */
  function Elsewhere(op: Op, o: OrgId): Op {
    match op
    case InOrg(p, _, change, sighted) => InOrg(p, o, change, sighted)
    case CreateInvite(p, _, i, token, expires, maxUses) => CreateInvite(p, o, i, token, expires, maxUses)
    case RevokeInvite(p, _, i) => RevokeInvite(p, o, i)
    case _ => op
  }

  /** Naming an organization the performer is not active in gives the same answer as naming one that does not exist,
      and changes nothing. */
  lemma UnseenLooksMissing(db: Db, op: Op, missing: OrgId)
    requires Scoped(op) && !ActiveIn(db, op.performer, op.org) && missing !in db.orgs
    ensures Apply(db, op) == Apply(db, Elsewhere(op, missing)) && Apply(db, op).db == db
  {}

  // ---- tenants ----

  /** The operation names organization `o`, or its actor has rows there. */
  ghost predicate Addresses(db: Db, op: Op, o: OrgId)
    requires o in db.orgs
  {
    match op
    case InOrg(_, p, _, _) => p == o
    case CreateInvite(_, p, _, _, _, _) => p == o
    case RevokeInvite(_, p, _) => p == o
    case AcceptInvite(token, _, _, _, _, _) => exists i :: Presents(db, token, o, i)
    case LeaveService(a) => a in db.orgs[o].members || a in Listed(db.orgs[o])
    case _ => false
  }

  ghost function Listed(org: Org): set<ActorId> {
    set k | k in org.listings :: k.1
  }

  lemma LeaveElsewhere(org: Org, a: ActorId)
    requires References(org) && a !in org.members && a !in Listed(org)
    ensures LeaveOrg(org, a) == org
  {
    assert forall k :: k in org.teamMembers ==> k.1 != a;
    assert forall k :: k in org.listings ==> k.1 in Listed(org);
    assert TeamsOf(org, a) == {} && ListedIn(org, a) == {};
    assert WithoutTeams(org.teamMembers, a, {}) == org.teamMembers;
    assert WithoutListings(org.listings, a, {}) == org.listings;
    assert DepartureRecords(a, {}, false, {}) == [];
  }

  lemma InOrgElsewhere(db: Db, op: Op, o: OrgId)
    requires op.InOrg? && o in db.orgs && op.org != o
    ensures o in ApplyInOrg(db, op).db.orgs && ApplyInOrg(db, op).db.orgs[o] == db.orgs[o]
  {}

  lemma AcceptElsewhere(db: Db, op: Op, o: OrgId)
    requires op.AcceptInvite? && o in db.orgs && forall i :: !Presents(db, op.presented, o, i)
    ensures o in ApplyAccept(db, op).db.orgs && ApplyAccept(db, op).db.orgs[o] == db.orgs[o]
  {
    var l := Locate(db, op.presented);
    assert l.At? ==> l.org != o;
  }

  lemma UnaddressedElsewhere(db: Db, op: Op, o: OrgId)
    requires Sound(db) && o in db.orgs && !Addresses(db, op, o)
    ensures o in Apply(db, op).db.orgs && Apply(db, op).db.orgs[o] == db.orgs[o]
  {
    if op.LeaveService? {
      assert OrgOk(db.actors, db.orgs[o]);
      LeaveElsewhere(db.orgs[o], op.actor);
    } else {
      NonLeaverElsewhere(db, op, o);
    }
  }

  lemma NonLeaverElsewhere(db: Db, op: Op, o: OrgId)
    requires o in db.orgs && !Addresses(db, op, o) && !op.LeaveService?
    ensures o in Apply(db, op).db.orgs && Apply(db, op).db.orgs[o] == db.orgs[o]
  {
    match op
    case InOrg(_, _, _, _) => InOrgElsewhere(db, op, o);
    case AcceptInvite(_, _, _, _, _, _) => AcceptElsewhere(db, op, o);
    case _ =>
  }

  ghost predicate NeverAddresses(db: Db, ops: seq<Op>, o: OrgId)
    requires o in db.orgs
    decreases |ops|
  {
    ops != [] ==>
      && !Addresses(db, ops[0], o)
      && o in Apply(db, ops[0]).db.orgs
      && NeverAddresses(Apply(db, ops[0]).db, ops[1..], o)
  }

  /** A run that never addresses an organization changes none of its rows, audit records included. */
  lemma {:induction false} TenantFrame(db: Db, ops: seq<Op>, o: OrgId)
    requires Sound(db) && o in db.orgs && NeverAddresses(db, ops, o)
    ensures o in Execute(db, ops).orgs && Execute(db, ops).orgs[o] == db.orgs[o]
    decreases |ops|
  {
    if ops != [] {
      ApplySound(db, ops[0]);
      UnaddressedElsewhere(db, ops[0], o);
      TenantFrame(Apply(db, ops[0]).db, ops[1..], o);
    }
  }

  /** `after` differs from `before` in rows of `a` only, and adds only audit records by and about `a`. */
  ghost predicate OnlyRowsOf(a: ActorId, before: Org, after: Org) {
    && after.members.Keys == before.members.Keys
    && (forall b :: b in before.members && b != a ==> after.members[b] == before.members[b])
    && (forall k :: k in after.teamMembers ==> k in before.teamMembers)
    && (forall k :: k in before.teamMembers && k.1 != a ==>
          k in after.teamMembers && after.teamMembers[k] == before.teamMembers[k])
    && (forall c, b :: b != a ==> ((c, b) in after.listings <==> (c, b) in before.listings))
    && after.teams == before.teams && after.channels == before.channels && after.invites == before.invites
    && before.audit <= after.audit
    && (forall k :: |before.audit| <= k < |after.audit| ==> ByAndAbout(after.audit[k], a))
  }

  ghost predicate ByAndAbout(r: Record, a: ActorId) {
    r.performer == a && (r.event.TeamMemberRemoved? || r.event.MemberLeft? || r.event.ChannelMemberLeft?)
    && r.event.actor == a
  }

  lemma RecordsAreOwn(a: ActorId, teams: set<TeamId>, leaves: bool, channels: set<ChannelId>)
    ensures forall r :: r in DepartureRecords(a, teams, leaves, channels) ==> ByAndAbout(r, a)
  {}

  lemma LeaveOrgFrame(org: Org, a: ActorId)
    ensures OnlyRowsOf(a, org, LeaveOrg(org, a))
  {
    var leaves := a in org.members && !org.members[a].status.Left?;
    var more := DepartureRecords(a, TeamsOf(org, a), leaves, ListedIn(org, a));
    RecordsAreOwn(a, TeamsOf(org, a), leaves, ListedIn(org, a));
    var audit := LeaveOrg(org, a).audit;
    assert audit == org.audit + more;
    forall k | |org.audit| <= k < |audit| ensures ByAndAbout(audit[k], a) {
      assert audit[k] == more[k - |org.audit|];
    }
  }

  /** A departure changes no membership, team row, listing, channel, team or invite of anybody else. */
  lemma LeaveFrame(db: Db, a: ActorId, o: OrgId)
    requires o in db.orgs
    ensures o in ApplyLeave(db, a).db.orgs && OnlyRowsOf(a, db.orgs[o], ApplyLeave(db, a).db.orgs[o])
  {
    LeaveOrgFrame(db.orgs[o], a);
  }

  // ---- acceptance ----

  ghost predicate InviteIsUsable(db: Db, token: TokenHash, now: Time) {
    exists o, i :: Presents(db, token, o, i) && db.orgs[o].invites[i].kind.ForOrganization?
                   && Usable(db.orgs[o].invites[i], now)
  }

  /** The read-only filter answers exactly as the conditional use decides. */
  lemma FilterAgrees(db: Db, op: Op)
    requires TokensUnique(db) && op.AcceptInvite?
    ensures InviteIsUsable(db, op.presented, op.now) <==> ApplyAccept(db, op).reply != Refused(InviteUnusable)
  {
    var l := Locate(db, op.presented);
    if InviteIsUsable(db, op.presented, op.now) {
      var o, i :| Presents(db, op.presented, o, i) && db.orgs[o].invites[i].kind.ForOrganization?
                  && Usable(db.orgs[o].invites[i], op.now);
      assert l == At(o, i);
    }
  }

  /** Acceptances of one usable invite by people with fresh ids and distinct, unregistered emails. */
  ghost predicate Contenders(db: Db, o: OrgId, i: InviteId, ops: seq<Op>) {
    && o in db.orgs && i in db.orgs[o].invites
    && db.orgs[o].invites[i].kind.ForOrganization? && !db.orgs[o].invites[i].revoked
    && (forall k :: 0 <= k < |ops| ==>
          && ops[k].AcceptInvite? && ops[k].presented == db.orgs[o].invites[i].token
          && ops[k].now < db.orgs[o].invites[i].expires
          && ops[k].actor !in db.actors && !EmailTaken(db, ops[k].email))
    && (forall j, k :: 0 <= j < k < |ops| ==>
          ops[j].actor != ops[k].actor && Lower(ops[j].email) != Lower(ops[k].email))
  }

  ghost function Accepted(db: Db, ops: seq<Op>): nat
    decreases |ops|
  {
    if ops == [] then 0
    else (if Apply(db, ops[0]).reply.Done? then 1 else 0) + Accepted(Apply(db, ops[0]).db, ops[1..])
  }

  ghost function Places(db: Db, o: OrgId, i: InviteId): int
    requires o in db.orgs && i in db.orgs[o].invites
  {
    db.orgs[o].invites[i].maxUses - db.orgs[o].invites[i].used
  }

  /** The tables after `op` joins through invite `i`. */
  function JoinedDb(db: Db, o: OrgId, i: InviteId, op: Op): Db
    requires op.AcceptInvite? && o in db.orgs && i in db.orgs[o].invites
  {
    PutOrg(WithPerson(db, op.actor, op.email, op.passwordHash, op.name), o, Joined(db.orgs[o], i, op.actor))
  }

  lemma FirstContender(db: Db, o: OrgId, i: InviteId, ops: seq<Op>)
    requires TokensUnique(db) && Contenders(db, o, i, ops) && ops != []
    ensures ApplyAccept(db, ops[0]) ==
            if Places(db, o, i) > 0 then Result(Done, JoinedDb(db, o, i, ops[0]))
            else Result(Refused(InviteUnusable), db)
  {
    assert Presents(db, ops[0].presented, o, i);
    assert Locate(db, ops[0].presented) == At(o, i);
  }

  lemma OtherContenders(db: Db, o: OrgId, i: InviteId, ops: seq<Op>)
    requires Contenders(db, o, i, ops) && ops != []
    ensures Contenders(JoinedDb(db, o, i, ops[0]), o, i, ops[1..])
    ensures Places(JoinedDb(db, o, i, ops[0]), o, i) == Places(db, o, i) - 1
  {
    var next := JoinedDb(db, o, i, ops[0]);
    forall k | 0 <= k < |ops| - 1
      ensures ops[1..][k].actor !in next.actors && !EmailTaken(next, ops[1..][k].email)
    {
      assert ops[1..][k] == ops[k + 1];
      assert !EmailTaken(db, ops[k + 1].email);
    }
  }

  lemma FewerContenders(db: Db, o: OrgId, i: InviteId, ops: seq<Op>)
    requires Contenders(db, o, i, ops) && ops != []
    ensures Contenders(db, o, i, ops[1..])
  {}

  lemma PlacesLeft(db: Db, o: OrgId, i: InviteId)
    requires Sound(db) && o in db.orgs && i in db.orgs[o].invites
    ensures Places(db, o, i) >= 0
  {
    assert OrgOk(db.actors, db.orgs[o]) && InviteSpent(db.orgs[o], i);
  }

  lemma FirstAccepted(db: Db, o: OrgId, i: InviteId, ops: seq<Op>)
    requires TokensUnique(db) && Contenders(db, o, i, ops) && ops != []
    ensures var r := Apply(db, ops[0]);
            && Contenders(r.db, o, i, ops[1..]) && (r.reply.Done? <==> Places(db, o, i) > 0)
            && Places(r.db, o, i) == Places(db, o, i) - if Places(db, o, i) > 0 then 1 else 0
  {
    FirstContender(db, o, i, ops);
    if Places(db, o, i) > 0 { OtherContenders(db, o, i, ops); } else { FewerContenders(db, o, i, ops); }
  }

  /** n contenders for r places: exactly min(n, r) are admitted, in whatever order they run. */
  lemma {:induction false} PlacesAreFilledExactly(db: Db, o: OrgId, i: InviteId, ops: seq<Op>)
    requires Sound(db) && Contenders(db, o, i, ops)
    ensures Accepted(db, ops) == if |ops| <= Places(db, o, i) then |ops| else Places(db, o, i)
    decreases |ops|
  {
    PlacesLeft(db, o, i);
    if ops != [] {
      FirstAccepted(db, o, i, ops);
      ApplySound(db, ops[0]);
      PlacesAreFilledExactly(Apply(db, ops[0]).db, o, i, ops[1..]);
    }
  }

  // ---- where the operations and their documentation differ ----

  /** A suspension by an active performer succeeds exactly for another active member who is not the last active owner:
      nobody can suspend themselves, because the record that must follow is refused to an inactive performer. */
  lemma SuspensionSucceeds(db: Db, performer: ActorId, o: OrgId, a: ActorId)
    requires ActiveIn(db, performer, o)
    ensures ApplyInOrg(db, InOrg(performer, o, Change.SuspendMember(a), false)).reply.Done? <==>
              ActiveMember(db.orgs[o], a) && a != performer
              && (ActiveOwner(db.orgs[o], a) ==> exists b :: b != a && ActiveOwner(db.orgs[o], b))
  {
    assert forall b :: b in ActiveOwners(db.orgs[o]) <==> ActiveOwner(db.orgs[o], b);
  }

  /** An actor with no membership in the organization is listed in one of its team channels exactly when the performer
      is active in some other organization the actor is a member of. */
  lemma OutsiderListedIffSeenElsewhere(db: Db, performer: ActorId, o: OrgId, c: ChannelId, a: ActorId)
    requires ActiveIn(db, performer, o) && c in db.orgs[o].channels && db.orgs[o].channels[c].scope.OfTeam?
    requires a in db.actors && !db.actors[a].departed && a !in db.orgs[o].members && (c, a) !in db.orgs[o].listings
    ensures ApplyInOrg(db, InOrg(performer, o, Change.AddChannelMember(c, a), Sees(db, performer, a))).reply.Done? <==>
              exists p :: p != o && ActiveIn(db, performer, p) && a in db.orgs[p].members
  {}

  const WORKER := Membership(OrganizationRole.Owner, Active, None)
  const FIRM := Org("firm", map[1 := WORKER], {5}, map[], map[6 := Channel(OfTeam(5), "plans")], {}, map[], [])
  const CLUB := Org("club", map[1 := WORKER, 2 := WORKER], {}, map[], map[], {}, map[], [])
  const TOWN := Db(map[1 := Actor(None, false), 2 := Actor(None, false)], map[], map[], map[0 := FIRM, 1 := CLUB])

  /** Such a listing exists: actor 1 lists actor 2, whom it knows from the club, in the firm's channel. */
  lemma OutsiderIsListed()
    ensures Ok(TOWN) && 2 !in TOWN.orgs[0].members
    ensures var r := ApplyInOrg(TOWN, InOrg(1, 0, Change.AddChannelMember(6, 2), Sees(TOWN, 1, 2)));
            r.reply.Done? && (6, 2) in r.db.orgs[0].listings
  {
    TownOk();
    KnownFromTheClub();
    assert InOrg(1, 0, Change.AddChannelMember(6, 2), true).change.target == 2;
  }

  lemma KnownFromTheClub()
    ensures Sees(TOWN, 1, 2) && ActiveIn(TOWN, 1, 0)
  {
    assert ActiveIn(TOWN, 1, 1) && 2 in TOWN.orgs[1].members;
  }

  lemma TownOk()
    ensures Ok(TOWN)
  {
    assert ActiveOwner(FIRM, 1) && ActiveOwner(CLUB, 1);
    OrgOkByParts(TOWN.actors, FIRM);
    OrgOkByParts(TOWN.actors, CLUB);
    forall t, o, i ensures !Presents(TOWN, t, o, i) {}
  }

  lemma OrgOkByParts(actors: map<ActorId, Actor>, org: Org)
    requires References(org) && People(actors, org)
    requires org.invites == map[] && org.audit == []
    ensures OrgOk(actors, org)
  {
    forall i ensures InviteSpent(org, i) {}
  }
}
