/** What callers and readers of the tables see of every operation: when it succeeds, which rows it leaves, and which
    refusal it gets otherwise, in terms of columns alone. */
module Outcomes {
  import opened Domain
  import opened Store
  import opened Operations
  import opened Integrity
  import opened Runs

  // ---- text ----

  /** The same character, or the two cases of one ASCII letter. */
  predicate SameLetter(x: char, y: char) {
    || x == y
    || ('A' <= x <= 'Z' && y as int == x as int + 32)
    || ('A' <= y <= 'Z' && x as int == y as int + 32)
  }

  predicate SameText(s: string, t: string) {
    |s| == |t| && forall k :: 0 <= k < |s| ==> SameLetter(s[k], t[k])
  }

  /** Emails and channel names are compared without regard to ASCII case, and to nothing else. */
  lemma LowerIgnoresCase(s: string, t: string)
    ensures Lower(s) == Lower(t) <==> SameText(s, t)
  {
    if Lower(s) == Lower(t) {
      assert |s| == |t|;
      forall k | 0 <= k < |s| ensures SameLetter(s[k], t[k]) { assert Lower(s)[k] == Lower(t)[k]; }
    }
    if SameText(s, t) {
      forall k | 0 <= k < |s| ensures Lower(s)[k] == Lower(t)[k] { assert SameLetter(s[k], t[k]); }
    }
  }

  predicate LetterOrDigit(c: char) {
    'a' <= c <= 'z' || '0' <= c <= '9'
  }

  /** A slug is 1 to 32 small letters, digits and hyphens, no hyphen at either end. */
  lemma SlugFormat(slug: string)
    ensures ValidSlug(slug) <==>
            1 <= |slug| <= 32
            && forall k :: 0 <= k < |slug| ==> LetterOrDigit(slug[k]) || (slug[k] == '-' && 0 < k < |slug| - 1)
  {
    if ValidSlug(slug) {
      forall k | 0 <= k < |slug| ensures LetterOrDigit(slug[k]) || (slug[k] == '-' && 0 < k < |slug| - 1) {
        assert slug[k] in slug;
      }
    }
  }

  // ---- success ----

  /** Somebody else owns the organization as well. */
  ghost predicate AnotherOwner(org: Org, a: ActorId) {
    exists b :: b != a && b in org.members && org.members[b].status == Active && org.members[b].role == Owner
  }

  ghost predicate OnlyOwner(org: Org, a: ActorId)
    requires a in org.members
  {
    org.members[a].status == Active && org.members[a].role == Owner && !AnotherOwner(org, a)
  }

  /** What a change that succeeded found in its organization and left there. */
  ghost predicate Changed(c: Db, org: Org, after: Org, p: ActorId, change: Change, sighted: bool) {
    match change
    case ChangeRole(a, role) =>
      && a in org.members && org.members[a].status != Left && (role != Owner ==> !OnlyOwner(org, a))
      && var row := org.members[a];
         after == if row.role == role then org
                  else org.(members := org.members[a := Membership(role, row.status, row.name)],
                            audit := org.audit + [Record(p, MemberRoleChanged(a, row.role, role))])
    case SuspendMember(a) =>
      && a in org.members && a != p && org.members[a].status == Active && !OnlyOwner(org, a)
      && after == org.(members := org.members[a := Membership(org.members[a].role, Suspended, org.members[a].name)],
                       audit := org.audit + [Record(p, MemberSuspended(a))])
    case ReactivateMember(a) =>
      && a in org.members && org.members[a].status == Suspended
      && (sighted && a in c.actors ==> !c.actors[a].departed)
      && after == org.(members := org.members[a := Membership(org.members[a].role, Active, org.members[a].name)],
                       audit := org.audit + [Record(p, MemberReactivated(a))])
    case CreateTeam(t) =>
      t !in org.teams && after == org.(teams := org.teams + {t}, audit := org.audit + [Record(p, TeamCreated(t))])
    case AddTeamMember(t, a, role) =>
      && t in org.teams && a in org.members && org.members[a].status == Active && (t, a) !in org.teamMembers
      && (sighted && a in c.actors ==> !c.actors[a].departed)
      && after == org.(teamMembers := org.teamMembers[(t, a) := role],
                       audit := org.audit + [Record(p, TeamMemberAdded(a, t, role))])
    case ChangeTeamRole(t, a, role) =>
      && (t, a) in org.teamMembers
      && var from := org.teamMembers[(t, a)];
         after == if from == role then org
                  else org.(teamMembers := org.teamMembers[(t, a) := role],
                            audit := org.audit + [Record(p, TeamMemberRoleChanged(a, t, from, role))])
    case RemoveTeamMember(t, a) =>
      && (t, a) in org.teamMembers
      && after == org.(teamMembers := org.teamMembers - {(t, a)},
                       audit := org.audit + [Record(p, TeamMemberRemoved(a, t, Removed))])
    case CreateChannel(ch, scope, name) =>
      && ch !in org.channels && 1 <= |name| <= 80 && (scope.OfTeam? ==> scope.team in org.teams)
      && (forall d :: d in org.channels && org.channels[d].scope == scope ==> !SameText(org.channels[d].name, name))
      && after == org.(channels := org.channels[ch := Channel(scope, name)],
                       audit := org.audit + [Record(p, ChannelCreated(ch, scope))])
    case AddChannelMember(ch, a) =>
      && ch in org.channels && org.channels[ch].scope != OrganizationWide && (ch, a) !in org.listings
      && sighted && a in c.actors && !c.actors[a].departed
      && after == org.(listings := org.listings + {(ch, a)},
                       audit := org.audit + [Record(p, ChannelMemberAdded(a, ch))])
  }

  ghost predicate MayInvite(c: Db, p: ActorId, o: OrgId) {
    && o in c.orgs && p in c.orgs[o].members && c.orgs[o].members[p].status == Active
    && c.orgs[o].members[p].role in {Owner, Admin}
  }

  ghost predicate InviteMade(c: Db, org: Org, after: Org, op: Op)
    requires op.CreateInvite?
  {
    && op.token.Some? && op.maxUses > 0 && op.invite !in org.invites
    && (forall o, i :: o in c.orgs && i in c.orgs[o].invites ==> c.orgs[o].invites[i].token != op.token.value)
    && after == org.(invites := org.invites[op.invite := Invite(ForOrganization, op.token.value, op.expires,
                                                                op.maxUses, 0, false)],
                     audit := org.audit + [Record(op.performer, InviteCreated(op.invite, op.maxUses))])
  }

  ghost predicate InviteEnded(org: Org, after: Org, p: ActorId, i: InviteId) {
    && i in org.invites
    && var row := org.invites[i];
       after == if row.revoked then org
                else org.(invites := org.invites[i := Invite(row.kind, row.token, row.expires, row.maxUses, row.used,
                                                             true)],
                          audit := org.audit + [Record(p, InviteRevoked(i))])
  }

  /** A new actor and its user, with the name, email and password hash they were given. */
  ghost predicate PersonMade(c: Db, d: Db, a: ActorId, email: string, passwordHash: string, name: string) {
    && a !in c.actors && (forall b :: b in c.users ==> !SameText(c.users[b].email, email))
    && d.actors == c.actors[a := Actor(Some(name), false)]
    && d.users == c.users[a := User(email, passwordHash)]
    && d.sessions == c.sessions
  }

  /** The new person joins, as an ordinary member, the organization that holds the presented token. */
  ghost predicate JoinedBy(org: Org, after: Org, op: Op, i: InviteId)
    requires op.AcceptInvite?
  {
    && i in org.invites
    && var row := org.invites[i];
       && row.token == op.presented && row.kind == ForOrganization
       && row.used < row.maxUses && !row.revoked && op.now < row.expires
       && after == org.(invites := org.invites[i := Invite(row.kind, row.token, row.expires, row.maxUses,
                                                           row.used + 1, false)],
                        members := org.members[op.actor := Membership(OrganizationRole.Member, Active, None)],
                        audit := org.audit + [Record(op.actor, MemberInvited(op.actor, i))])
  }

  /** One organization once `a` has left it, its records aside. */
  ghost predicate LeftBy(a: ActorId, org: Org, after: Org) {
    && after.members.Keys == org.members.Keys
    && (forall b :: b in org.members ==>
          after.members[b] == if b == a then Membership(org.members[a].role, Left, None) else org.members[b])
    && (forall t, b :: (t, b) in after.teamMembers <==> (t, b) in org.teamMembers && b != a)
    && (forall k :: k in after.teamMembers ==> k in org.teamMembers && after.teamMembers[k] == org.teamMembers[k])
    && (forall ch, b :: (ch, b) in after.listings <==> (ch, b) in org.listings && b != a)
    && after.slug == org.slug && after.teams == org.teams && after.channels == org.channels
    && after.invites == org.invites && org.audit <= after.audit
  }

  /** The departed actor keeps a nameless row; its user and sessions are gone, and nobody else's row has changed. */
  ghost predicate Gone(c: Db, d: Db, a: ActorId) {
    && a in c.actors && !c.actors[a].departed && d.actors == c.actors[a := Actor(None, true)]
    && d.users.Keys == c.users.Keys - {a} && (forall b :: b in d.users ==> d.users[b] == c.users[b])
    && (forall k :: k in d.sessions <==> k in c.sessions && c.sessions[k].actor != a)
    && (forall k :: k in d.sessions ==> d.sessions[k] == c.sessions[k])
    && d.orgs.Keys == c.orgs.Keys && (forall o :: o in c.orgs ==> LeftBy(a, c.orgs[o], d.orgs[o]))
  }

  /** The one session opened: a registered, present person's, after its password check, under an unused token. */
  ghost predicate SignedIn(c: Db, d: Db, op: Op, a: ActorId)
    requires op.SignIn?
  {
    && op.verified && op.token.Some? && op.token.value !in c.sessions
    && a in c.users && SameText(c.users[a].email, op.email) && a in c.actors && !c.actors[a].departed
    && d == c.(sessions := c.sessions[op.token.value := Session(a, op.expires)])
  }

  /** Nothing but the one organization has changed. */
  ghost predicate OnlyOrg(c: Db, d: Db, o: OrgId) {
    o in d.orgs && d == Db(c.actors, c.users, c.sessions, c.orgs[o := d.orgs[o]])
  }

  /** The rows an operation that succeeded found, and those it left; every other row is as it was. */
  ghost predicate Happened(op: Op, c: Db, d: Db) {
    match op
    case InOrg(p, o, change, sighted) =>
      && o in c.orgs && p in c.orgs[o].members && c.orgs[o].members[p].status == Active
      && OnlyOrg(c, d, o) && Changed(c, c.orgs[o], d.orgs[o], p, change, sighted)
    case CreateInvite(p, o, _, _, _, _) =>
      MayInvite(c, p, o) && OnlyOrg(c, d, o) && InviteMade(c, c.orgs[o], d.orgs[o], op)
    case RevokeInvite(p, o, i) =>
      MayInvite(c, p, o) && OnlyOrg(c, d, o) && i.Some? && InviteEnded(c.orgs[o], d.orgs[o], p, i.value)
    case AcceptInvite(_, _, email, hash, name, a) =>
      && PersonMade(c, d, a, email, hash, name)
      && exists o, i :: o in c.orgs && o in d.orgs && d.orgs == c.orgs[o := d.orgs[o]]
                        && JoinedBy(c.orgs[o], d.orgs[o], op, i)
    case CreatePerson(a, email, hash, name) => PersonMade(c, d, a, email, hash, name) && d.orgs == c.orgs
    case CreateOrganization(a, o, slug) =>
      && a in c.actors && !c.actors[a].departed && ValidSlug(slug)
      && o !in c.orgs && (forall q :: q in c.orgs ==> c.orgs[q].slug != slug) && OnlyOrg(c, d, o)
      && d.orgs[o] == Org(slug, map[a := Membership(OrganizationRole.Owner, Active, None)], {}, map[], map[], {},
                          map[], [Record(a, OrganizationCreated), Record(a, MemberAdded(a, OrganizationRole.Owner))])
    case LeaveService(a) => Gone(c, d, a)
    case SignIn(_, _, _, _) => exists a :: SignedIn(c, d, op, a)
  }

  // ---- what succeeded has happened ----

  lemma AnotherOwnerCounts(org: Org, a: ActorId, change: OwnerChange)
    requires change.actor == a
    ensures CheckOwnerChange(ActiveOwners(org), change) <==> AnotherOwner(org, a)
  {
    if AnotherOwner(org, a) {
      var b :| b != a && b in org.members && org.members[b].status == Active && org.members[b].role == Owner;
      assert b in ActiveOwners(org);
    }
  }

  lemma NamesTaken(org: Org, scope: ChannelScope, name: string)
    ensures NameTaken(org, scope, name) <==>
            exists d :: d in org.channels && org.channels[d].scope == scope && SameText(org.channels[d].name, name)
  {
    forall d | d in org.channels ensures Lower(org.channels[d].name) == Lower(name) <==>
                                         SameText(org.channels[d].name, name)
    {
      LowerIgnoresCase(org.channels[d].name, name);
    }
  }

  lemma EmailsTaken(c: Db, email: string)
    ensures EmailTaken(c, email) <==> exists b :: b in c.users && SameText(c.users[b].email, email)
  {
    forall b | b in c.users ensures Lower(c.users[b].email) == Lower(email) <==> SameText(c.users[b].email, email) {
      LowerIgnoresCase(c.users[b].email, email);
    }
  }

  lemma MemberChangeHappened(c: Db, op: Op, d: Db)
    requires op.InOrg? && (op.change.ChangeRole? || op.change.SuspendMember? || op.change.ReactivateMember?)
    requires ApplyInOrg(c, op) == Result(Done, d)
    ensures Happened(op, c, d)
  {
    var org, a := c.orgs[op.org], op.change.target;
    AnotherOwnerCounts(org, a, Demote(a));
    AnotherOwnerCounts(org, a, OwnerChange.Suspend(a));
    if d == c {
      assert c.orgs[op.org := c.orgs[op.org]] == c.orgs;
    }
  }

  lemma TeamChangeHappened(c: Db, op: Op, d: Db)
    requires op.InOrg? && (op.change.CreateTeam? || op.change.AddTeamMember? || op.change.ChangeTeamRole?
                           || op.change.RemoveTeamMember?)
    requires ApplyInOrg(c, op) == Result(Done, d)
    ensures Happened(op, c, d)
  {
    if d == c {
      assert c.orgs[op.org := c.orgs[op.org]] == c.orgs;
    }
  }

  lemma ChannelChangeHappened(c: Db, op: Op, d: Db)
    requires op.InOrg? && (op.change.CreateChannel? || op.change.AddChannelMember?)
    requires ApplyInOrg(c, op) == Result(Done, d)
    ensures Happened(op, c, d)
  {
    if op.change.CreateChannel? { NamesTaken(c.orgs[op.org], op.change.scope, op.change.name); }
  }

  lemma InviteHappened(c: Db, op: Op, d: Db)
    requires (op.CreateInvite? || op.RevokeInvite?) && Apply(c, op) == Result(Done, d)
    ensures Happened(op, c, d)
  {
    if d == c {
      assert c.orgs[op.org := c.orgs[op.org]] == c.orgs;
    }
    if op.CreateInvite? {
      assert forall o, i :: o in c.orgs && i in c.orgs[o].invites ==> c.orgs[o].invites[i].token != op.token.value;
    }
  }

  lemma JoinHappened(c: Db, op: Op, d: Db)
    requires op.AcceptInvite? && ApplyAccept(c, op) == Result(Done, d)
    ensures Happened(op, c, d)
  {
    EmailsTaken(c, op.email);
    var At(o, i) := Locate(c, op.presented);
    assert JoinedBy(c.orgs[o], d.orgs[o], op, i);
  }

  lemma DepartureHappened(c: Db, a: ActorId)
    requires a in c.actors && !c.actors[a].departed
    ensures Happened(LeaveService(a), c, Leaving(c, a))
  {
    forall o | o in c.orgs ensures LeftBy(a, c.orgs[o], LeaveOrg(c.orgs[o], a)) { OrgLeft(a, c.orgs[o]); }
  }

  lemma OrgLeft(a: ActorId, org: Org)
    ensures LeftBy(a, org, LeaveOrg(org, a))
  {}

  lemma SignInHappened(c: Db, op: Op, d: Db)
    requires op.SignIn? && ApplySignIn(c, op) == Result(Done, d)
    ensures Happened(op, c, d)
  {
    var a := PersonAt(c, op.email).value;
    LowerIgnoresCase(c.users[a].email, op.email);
    assert SignedIn(c, d, op, a);
  }

  /** An operation that commits, alone or among others, has found and left exactly these rows. */
  lemma WhatSucceedsHappened(c: Db, op: Op, d: Db)
    requires Land(c, op) == Result(Done, d)
    ensures Happened(op, c, d)
  {
    match op
    case InOrg(_, _, change, _) =>
      if change.ChangeRole? || change.SuspendMember? || change.ReactivateMember? { MemberChangeHappened(c, op, d); }
      else if change.CreateChannel? || change.AddChannelMember? { ChannelChangeHappened(c, op, d); }
      else { TeamChangeHappened(c, op, d); }
    case CreateInvite(_, _, _, _, _, _) => InviteHappened(c, op, d);
    case RevokeInvite(_, _, _) => InviteHappened(c, op, d);
    case AcceptInvite(_, _, _, _, _, _) => JoinHappened(c, op, d);
    case CreatePerson(_, email, _, _) => EmailsTaken(c, email);
    case CreateOrganization(_, _, _) =>
    case LeaveService(a) => DepartureHappened(c, a);
    case SignIn(_, _, _, _) => SignInHappened(c, op, d);
  }

  // ---- refusals ----

  lemma RefusalsChangeNothing(c: Db, op: Op)
    requires Apply(c, op).reply.Refused?
    ensures Apply(c, op).db == c
  {
    if op.InOrg? && ActiveIn(c, op.performer, op.org) {
      var org := c.orgs[op.org];
      SettledOrNot(c, op.org, op.performer, op.change,
                   Decide(org, ActiveOwners(org), Departed(c, op), op.performer, op.change));
    }
  }

  lemma SettledOrNot(c: Db, o: OrgId, p: ActorId, change: Change, d: Decision)
    requires o in c.orgs && Settle(c, o, p, change, d).reply.Refused?
    ensures Settle(c, o, p, change, d).db == c
  {}

  /** An actor that is no active member of the organization is answered NotFound, or NotAMember about invites. */
  lemma OutsidersAreRefused(c: Db, op: Op)
    requires Scoped(op)
    requires op.org !in c.orgs || op.performer !in c.orgs[op.org].members
             || c.orgs[op.org].members[op.performer].status != Active
    ensures Apply(c, op) == Result(Refused(if op.InOrg? then NotFound else NotAMember), c)
  {}

  /** The performer is an active member. */
  ghost predicate Acting(c: Db, p: ActorId, o: OrgId) {
    o in c.orgs && p in c.orgs[o].members && c.orgs[o].members[p].status == Active
  }

  function Asked(c: Db, p: ActorId, o: OrgId, change: Change, sighted: bool): Reply {
    ApplyInOrg(c, InOrg(p, o, change, sighted)).reply
  }

  /** lock_actor found the actor, and found it departed. */
  ghost predicate SeenDeparted(c: Db, sighted: bool, a: ActorId) {
    sighted && a in c.actors && c.actors[a].departed
  }

  lemma RoleReplies(c: Db, p: ActorId, o: OrgId, a: ActorId, role: OrganizationRole, sighted: bool)
    requires Acting(c, p, o)
    ensures var org, r := c.orgs[o], Asked(c, p, o, ChangeRole(a, role), sighted);
            && (r == Refused(NotFound) <==> a !in org.members || org.members[a].status == Left)
            && (r == Refused(LastOwner) <==> a in org.members && OnlyOwner(org, a) && role != Owner)
            && (r.Done? || r.error in {NotFound, LastOwner})
  {
    AnotherOwnerCounts(c.orgs[o], a, Demote(a));
  }

  lemma SuspensionReplies(c: Db, p: ActorId, o: OrgId, a: ActorId, sighted: bool)
    requires Acting(c, p, o)
    ensures var org, r := c.orgs[o], Asked(c, p, o, Change.SuspendMember(a), sighted);
            && (r == Refused(NotFound) <==> a !in org.members)
            && (r == Refused(NotActive) <==> a in org.members && org.members[a].status != Active)
            && (r == Refused(LastOwner) <==> a in org.members && OnlyOwner(org, a))
            && (r == Refused(Database) <==> a == p && !OnlyOwner(org, a))
            && (r.Done? || r.error in {NotFound, NotActive, LastOwner, Database})
  {
    AnotherOwnerCounts(c.orgs[o], a, OwnerChange.Suspend(a));
  }

  lemma ReactivationReplies(c: Db, p: ActorId, o: OrgId, a: ActorId, sighted: bool)
    requires Acting(c, p, o)
    ensures var org, r := c.orgs[o], Asked(c, p, o, Change.ReactivateMember(a), sighted);
            && (r == Refused(NotFound) <==> a !in org.members)
            && (r == Refused(ActorDeparted) <==> a in org.members && SeenDeparted(c, sighted, a))
            && (r == Refused(NotSuspended) <==>
                  a in org.members && !SeenDeparted(c, sighted, a) && org.members[a].status != Suspended)
            && (r.Done? || r.error in {NotFound, ActorDeparted, NotSuspended})
  {}

  lemma TeamReplies(c: Db, p: ActorId, o: OrgId, t: TeamId, sighted: bool)
    requires Acting(c, p, o)
    ensures var r := Asked(c, p, o, Change.CreateTeam(t), sighted);
            && (r == Refused(Database) <==> t in c.orgs[o].teams) && (r.Done? || r.error == Database)
  {}

  lemma TeamAdditionReplies(c: Db, p: ActorId, o: OrgId, t: TeamId, a: ActorId, role: TeamRole, sighted: bool)
    requires Acting(c, p, o)
    ensures var org, r := c.orgs[o], Asked(c, p, o, Change.AddTeamMember(t, a, role), sighted);
            var known := t in org.teams && a in org.members;
            && (r == Refused(NotFound) <==> !known)
            && (r == Refused(ActorDeparted) <==> known && SeenDeparted(c, sighted, a))
            && (r == Refused(NotAnActiveMember) <==>
                  known && !SeenDeparted(c, sighted, a) && org.members[a].status != Active)
            && (r == Refused(AlreadyMember) <==>
                  && known && !SeenDeparted(c, sighted, a) && org.members[a].status == Active
                  && (t, a) in org.teamMembers)
            && (r.Done? || r.error in {NotFound, ActorDeparted, NotAnActiveMember, AlreadyMember})
  {}

  lemma TeamRowReplies(c: Db, p: ActorId, o: OrgId, change: Change, sighted: bool)
    requires Acting(c, p, o) && (change.ChangeTeamRole? || change.RemoveTeamMember?)
    ensures var r := Asked(c, p, o, change, sighted);
            && (r == Refused(NotFound) <==> (change.team, change.target) !in c.orgs[o].teamMembers)
            && (r.Done? || r.error == NotFound)
  {}

  lemma ChannelReplies(c: Db, p: ActorId, o: OrgId, ch: ChannelId, scope: ChannelScope, name: string, sighted: bool)
    requires Acting(c, p, o)
    ensures var org, r := c.orgs[o], Asked(c, p, o, Change.CreateChannel(ch, scope, name), sighted);
            var known := scope.OfTeam? ==> scope.team in org.teams;
            var fits := ch !in org.channels && 1 <= |name| <= 80;
            var taken :=
              exists d :: d in org.channels && org.channels[d].scope == scope && SameText(org.channels[d].name, name);
            && (r == Refused(NotFound) <==> !known)
            && (r == Refused(Database) <==> known && !fits)
            && (r == Refused(NameInUse) <==> known && fits && taken)
            && (r.Done? || r.error in {NotFound, Database, NameInUse})
  {
    NamesTaken(c.orgs[o], scope, name);
  }

  lemma ListingReplies(c: Db, p: ActorId, o: OrgId, ch: ChannelId, a: ActorId, sighted: bool)
    requires Acting(c, p, o)
    ensures var org, r := c.orgs[o], Asked(c, p, o, Change.AddChannelMember(ch, a), sighted);
            var found := ch in org.channels && org.channels[ch].scope != OrganizationWide;
            && (r == Refused(OrganizationScoped) <==> ch in org.channels && org.channels[ch].scope == OrganizationWide)
            && (r == Refused(NotFound) <==> ch !in org.channels || (found && !(sighted && a in c.actors)))
            && (r == Refused(ActorDeparted) <==> found && SeenDeparted(c, sighted, a))
            && (r == Refused(AlreadyMember) <==>
                  found && sighted && a in c.actors && !c.actors[a].departed && (ch, a) in org.listings)
            && (r.Done? || r.error in {OrganizationScoped, NotFound, ActorDeparted, AlreadyMember})
  {}

  /** Owners and admins create invites, ordinary members are forbidden to; no token is asked for before that. */
  lemma InviteReplies(c: Db, op: Op)
    requires op.CreateInvite? && Acting(c, op.performer, op.org)
    ensures var org, r := c.orgs[op.org], Apply(c, op).reply;
            var member := org.members[op.performer].role == OrganizationRole.Member;
            var fits := op.maxUses > 0 && op.invite !in org.invites
                        && forall o, i :: o in c.orgs && i in c.orgs[o].invites ==>
                             Some(c.orgs[o].invites[i].token) != op.token;
            && (r == Refused(Forbidden) <==> member)
            && (r == Refused(TokenUnavailable) <==> !member && op.token.None?)
            && (r == Refused(Database) <==> !member && op.token.Some? && !fits)
            && (r.Done? || r.error in {Forbidden, TokenUnavailable, Database})
  {
    if op.token.Some? {
      assert InviteTokenTaken(c, op.token.value) <==>
             exists o, i :: o in c.orgs && i in c.orgs[o].invites && c.orgs[o].invites[i].token == op.token.value;
    }
  }

  lemma RevocationReplies(c: Db, op: Op)
    requires op.RevokeInvite? && Acting(c, op.performer, op.org)
    ensures var org, r := c.orgs[op.org], Apply(c, op).reply;
            var member := org.members[op.performer].role == OrganizationRole.Member;
            && (r == Refused(Forbidden) <==> member)
            && (r == Refused(NotFound) <==> !member && (op.revoked.None? || op.revoked.value !in org.invites))
            && (r.Done? || r.error in {Forbidden, NotFound})
  {}

  /** The invite of that token, if it still admits anyone. */
  ghost predicate Admitting(c: Db, op: Op, o: OrgId, i: InviteId)
    requires op.AcceptInvite?
  {
    && o in c.orgs && i in c.orgs[o].invites
    && var row := c.orgs[o].invites[i];
       row.token == op.presented && row.kind == ForOrganization && row.used < row.maxUses && !row.revoked
       && op.now < row.expires
  }

  lemma AdmittingIsUsable(c: Db, op: Op)
    requires op.AcceptInvite?
    ensures (exists o, i :: Admitting(c, op, o, i)) <==> InviteIsUsable(c, op.presented, op.now)
  {
    if o, i :| Admitting(c, op, o, i) {
      assert Presents(c, op.presented, o, i) && Usable(c.orgs[o].invites[i], op.now);
    }
    if InviteIsUsable(c, op.presented, op.now) {
      var o, i :| Presents(c, op.presented, o, i) && c.orgs[o].invites[i].kind.ForOrganization?
                  && Usable(c.orgs[o].invites[i], op.now);
      assert Admitting(c, op, o, i);
    }
  }

  lemma AcceptanceReplies(c: Db, op: Op)
    requires Sound(c) && op.AcceptInvite?
    ensures var r := Apply(c, op).reply;
            var admitting := exists o, i :: Admitting(c, op, o, i);
            var taken := exists b :: b in c.users && SameText(c.users[b].email, op.email);
            && (r == Refused(InviteUnusable) <==> !admitting)
            && (r == Refused(Database) <==> admitting && op.actor in c.actors)
            && (r == Refused(EmailInUse) <==> admitting && op.actor !in c.actors && taken)
            && (r.Done? || r.error in {InviteUnusable, Database, EmailInUse})
  {
    AdmittingIsUsable(c, op);
    FilterAgrees(c, op);
    EmailsTaken(c, op.email);
  }

  lemma PersonReplies(c: Db, op: Op)
    requires op.CreatePerson?
    ensures var r := Apply(c, op).reply;
            var taken := exists b :: b in c.users && SameText(c.users[b].email, op.email);
            && (r == Refused(Database) <==> op.actor in c.actors)
            && (r == Refused(EmailInUse) <==> op.actor !in c.actors && taken)
            && (r.Done? || r.error in {Database, EmailInUse})
  {
    EmailsTaken(c, op.email);
  }

  lemma FoundingReplies(c: Db, op: Op)
    requires op.CreateOrganization?
    ensures var r := Apply(c, op).reply;
            var present := op.actor in c.actors && !c.actors[op.actor].departed;
            var taken := exists q :: q in c.orgs && c.orgs[q].slug == op.slug;
            && (r == Refused(ActorNotFound) <==> op.actor !in c.actors)
            && (r == Refused(ActorDeparted) <==> op.actor in c.actors && c.actors[op.actor].departed)
            && (r == Refused(InvalidSlug) <==> present && !ValidSlug(op.slug))
            && (r == Refused(SlugInUse) <==> present && ValidSlug(op.slug) && taken)
            && (r == Refused(Database) <==> present && ValidSlug(op.slug) && !taken && op.org in c.orgs)
            && (r.Done? || r.error in {ActorNotFound, ActorDeparted, InvalidSlug, SlugInUse, Database})
  {}

  lemma DepartureReplies(c: Db, a: ActorId)
    requires Ok(c)
    ensures var r := Apply(c, LeaveService(a)).reply;
            && (r == Refused(NotFound) <==> a !in c.actors || c.actors[a].departed)
            && (r.Done? || r == Refused(NotFound) || (r.error.LastOwnerOf? && r.error.org in c.orgs
                && a in c.orgs[r.error.org].members && OnlyOwner(c.orgs[r.error.org], a)))
            && (r.Done? ==> forall o :: o in c.orgs && a in c.orgs[o].members ==> !OnlyOwner(c.orgs[o], a))
  {
    forall o | o in c.orgs && a in c.orgs[o].members
      ensures o in Abandoned(c, a) <==> OnlyOwner(c.orgs[o], a)
    {
      AnotherOwnerCounts(c.orgs[o], a, OwnerChange.Leave(a));
      if !AnotherOwner(c.orgs[o], a) { OwnerlessIsOwned(c, o, a); }
    }
  }

  lemma OwnerlessIsOwned(c: Db, o: OrgId, a: ActorId)
    requires AllOwned(c) && o in c.orgs && a in c.orgs[o].members && !AnotherOwner(c.orgs[o], a)
    ensures c.orgs[o].members[a].status == Active && c.orgs[o].members[a].role == Owner
  {
    assert Owned(c.orgs[o]);
  }

  /** A credential failure is answered InvalidCredentials whatever the token; only then is the token looked at. */
  lemma SignInReplies(c: Db, op: Op)
    requires Sound(c) && op.SignIn?
    ensures var r := Apply(c, op).reply;
            var person := op.verified && exists a :: a in c.users && SameText(c.users[a].email, op.email)
                                                     && a in c.actors && !c.actors[a].departed;
            && (r == Refused(InvalidCredentials) <==> !person)
            && (r == Refused(TokenUnavailable) <==> person && op.token.None?)
            && (r == Refused(Database) <==> person && op.token.Some? && op.token.value in c.sessions)
            && (r.Done? || r.error in {InvalidCredentials, TokenUnavailable, Database})
  {
    forall a | a in c.users ensures Registered(c, op.email, a) <==> SameText(c.users[a].email, op.email) {
      LowerIgnoresCase(c.users[a].email, op.email);
    }
    if a :| a in c.users && SameText(c.users[a].email, op.email) { assert Registered(c, op.email, a); }
  }
}
