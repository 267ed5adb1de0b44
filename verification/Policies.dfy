/** The row policies, triggers and constraints of the tables, as the answer each writing statement gets. */
module Policies {
  import opened Domain
  import opened Store
  import opened Operations
  import G = InviteGuard

  /** The settings a transaction carries: fukulow.actor_id, fukulow.invite_token_hash, fukulow.sign_in_email. */
  datatype Context = Context(actor: Option<ActorId>, token: Option<TokenHash>, email: Option<string>)

  /** `o` is among fukulow_active_organizations(). */
  predicate ActsIn(db: Db, cx: Context, o: OrgId) {
    cx.actor.Some? && ActiveIn(db, cx.actor.value, o)
  }

  predicate Self(cx: Context, a: ActorId) {
    cx.actor == Some(a)
  }

  predicate HasMember(db: Db, o: OrgId, a: ActorId) {
    o in db.orgs && a in db.orgs[o].members
  }

  // ---- row policies ----

  /** organization_members_select */
  predicate SeesMember(db: Db, cx: Context, o: OrgId, a: ActorId) {
    ActsIn(db, cx, o) || Self(cx, a)
  }

  /** actors_select */
  predicate SeesActor(db: Db, cx: Context, a: ActorId) {
    cx.actor.Some? && Sees(db, cx.actor.value, a)
  }

  predicate SeesInvite(db: Db, cx: Context, o: OrgId, i: InviteId) {
    && o in db.orgs && i in db.orgs[o].invites
    && (ActsIn(db, cx, o) || cx.token == Some(db.orgs[o].invites[i].token))
  }

  /** organization_members_insert_invite: an invite this very transaction has used admits its new member. */
  predicate InviteAdmits(db: Db, cx: Context, o: OrgId, written: set<(OrgId, InviteId)>, now: Time) {
    o in db.orgs && exists i ::
      && i in db.orgs[o].invites && SeesInvite(db, cx, o, i) && InviteProves(db.orgs[o].invites[i], cx)
      && (o, i) in written && db.orgs[o].invites[i].expires > now
  }

  predicate InviteProves(invite: Invite, cx: Context) {
    cx.token == Some(invite.token) && invite.kind.ForOrganization? && !invite.revoked && invite.used > 0
  }

  /** organization_members_insert and organization_members_insert_invite */
  predicate AdmitsMember(db: Db, cx: Context, o: OrgId, a: ActorId, row: Membership, written: set<(OrgId, InviteId)>,
                         now: Time)
    requires o in db.orgs
  {
    || ActsIn(db, cx, o)
    || (Self(cx, a) && row.role.Owner? && row.status.Active? && db.orgs[o].members == map[])
    || (Self(cx, a) && row.role == OrganizationRole.Member && row.status.Active?
        && InviteAdmits(db, cx, o, written, now))
  }

  /** organization_members_update's check on the new row, and the trigger on a self-update while inactive. */
  predicate AdmitsMemberUpdate(db: Db, cx: Context, o: OrgId, a: ActorId, before: Membership, after: Membership) {
    && (ActsIn(db, cx, o) || (Self(cx, a) && after.status.Left? && after.name.None?))
    && (!before.status.Active? && Self(cx, a) ==> after.role == before.role)
  }

  /** A departure's own records: about oneself, and while the membership or the listing still stands. */
  predicate DepartureRecord(db: Db, cx: Context, o: OrgId, r: Record)
    requires o in db.orgs
  {
    && Self(cx, r.performer)
    && match r.event
       case MemberLeft(a) => a == r.performer && HasMember(db, o, a)
       case TeamMemberRemoved(a, _, reason) => a == r.performer && reason.LeftService? && HasMember(db, o, a)
       case ChannelMemberLeft(a, c) => a == r.performer && (HasMember(db, o, a) || (c, a) in db.orgs[o].listings)
       case _ => false
  }

  /** audit_events_insert */
  predicate AdmitsRecord(db: Db, cx: Context, o: OrgId, r: Record)
    requires o in db.orgs
  {
    ActsIn(db, cx, o) || DepartureRecord(db, cx, o, r)
  }

  /** The columns of an invite the guard trigger compares. */
  function Guarded(i: Invite): G.Row {
    G.Row(i.maxUses, i.used, if i.revoked then Some(0) else None, i.expires)
  }

  // ---- writing statements ----

  datatype Statement =
    | InsertOrganization(org: OrgId, slug: string)
    | InsertMember(org: OrgId, actor: ActorId, member: Membership)
    | UpdateMember(org: OrgId, actor: ActorId, member: Membership)
    | InsertRecord(org: OrgId, record: Record)
    | InsertTeam(org: OrgId, team: TeamId)
    | InsertTeamMember(org: OrgId, team: TeamId, actor: ActorId, teamRole: TeamRole)
    | UpdateTeamRole(org: OrgId, team: TeamId, actor: ActorId, teamRole: TeamRole)
    | DeleteTeamMember(org: OrgId, team: TeamId, actor: ActorId)
    | DeleteTeamRows(org: OrgId, actor: ActorId)
    | InsertChannel(org: OrgId, channel: ChannelId, row: Channel)
    | InsertListing(org: OrgId, channel: ChannelId, actor: ActorId)
    | DeleteListings(org: OrgId, actor: ActorId)
    | InsertInvite(org: OrgId, id: InviteId, invite: Invite)
    | UpdateInvite(org: OrgId, id: InviteId, invite: Invite)
    | InsertActor(actor: ActorId, name: string)
    | EraseActor(actor: ActorId)
    | InsertUser(actor: ActorId, user: User)
    | DeleteUser(actor: ActorId)
    | InsertSession(token: TokenHash, session: Session)

  datatype Effect = Ran(db: Db) | Failed(error: Error)

  function Put(db: Db, o: OrgId, org: Org): Effect {
    Ran(db.(orgs := db.orgs[o := org]))
  }

  /** What a statement does, or the error it ends its transaction with. */
  function Run(db: Db, cx: Context, written: set<(OrgId, InviteId)>, now: Time, s: Statement): Effect {
    match s
    case InsertOrganization(o, slug) =>
      if cx.actor.None? then Failed(Database)
      else if !ValidSlug(slug) then Failed(InvalidSlug)
      else if SlugTaken(db, slug) then Failed(SlugInUse)
      else if o in db.orgs then Failed(Database)
      else Put(db, o, Org(slug, map[], {}, map[], map[], {}, map[], []))
    case InsertActor(a, name) =>
      if a in db.actors then Failed(Database) else Ran(db.(actors := db.actors[a := Actor(Some(name), false)]))
    case EraseActor(a) =>
      if a !in db.actors || !SeesActor(db, cx, a) then Ran(db)
      else Ran(db.(actors := db.actors[a := db.actors[a].(name := None, departed := true)]))
    case InsertUser(a, user) =>
      if !Self(cx, a) || a !in db.actors || a in db.users then Failed(Database)
      else if EmailTaken(db, user.email) then Failed(EmailInUse)
      else Ran(db.(users := db.users[a := user]))
    // sessions reference users ON DELETE CASCADE
    case DeleteUser(a) =>
      if !Self(cx, a) then Ran(db)
      else
        Ran(db.(users := db.users - {a},
                sessions := map k | k in db.sessions && db.sessions[k].actor != a :: db.sessions[k]))
    case InsertSession(token, session) =>
      if !Self(cx, session.actor) || session.actor !in db.users || token in db.sessions then Failed(Database)
      else Ran(db.(sessions := db.sessions[token := session]))
    case InsertMember(o, a, row) =>
      if o !in db.orgs || a !in db.actors || a in db.orgs[o].members then Failed(Database)
      else if !AdmitsMember(db, cx, o, a, row, written, now) then Failed(Database)
      else Put(db, o, db.orgs[o].(members := db.orgs[o].members[a := row]))
    case UpdateMember(o, a, row) =>
      if !HasMember(db, o, a) || !SeesMember(db, cx, o, a) then Ran(db)
      else if !AdmitsMemberUpdate(db, cx, o, a, db.orgs[o].members[a], row) then Failed(Database)
      else Put(db, o, db.orgs[o].(members := db.orgs[o].members[a := row]))
    case _ => if s.org in db.orgs then RunIn(db, cx, db.orgs[s.org], now, s) else RunNowhere(db, s)
  }

  /** Statements on tenant rows of an organization that does not exist: inserts break a foreign key. */
  function RunNowhere(db: Db, s: Statement): Effect {
    match s
    case UpdateTeamRole(_, _, _, _) => Ran(db)
    case DeleteTeamMember(_, _, _) => Ran(db)
    case DeleteTeamRows(_, _) => Ran(db)
    case DeleteListings(_, _) => Ran(db)
    case UpdateInvite(_, _, _) => Ran(db)
    case _ => Failed(Database)
  }

  /** Statements on the tenant rows of organization `s.org`, whose rows are `org`. */
  function RunIn(db: Db, cx: Context, org: Org, now: Time, s: Statement): Effect
    requires s.InsertRecord? || s.InsertTeam? || s.InsertTeamMember? || s.UpdateTeamRole? || s.DeleteTeamMember?
             || s.DeleteTeamRows? || s.InsertChannel? || s.InsertListing? || s.DeleteListings? || s.InsertInvite?
             || s.UpdateInvite?
    requires s.org in db.orgs && org == db.orgs[s.org]
  {
    var o := s.org;
    match s
    case InsertRecord(_, r) =>
      if !AdmitsRecord(db, cx, o, r) then Failed(Database) else Put(db, o, org.(audit := org.audit + [r]))
    case InsertTeam(_, t) =>
      if !ActsIn(db, cx, o) || t in org.teams then Failed(Database) else Put(db, o, org.(teams := org.teams + {t}))
    case InsertTeamMember(_, t, a, role) =>
      if !ActsIn(db, cx, o) then Failed(Database)
      else if (t, a) in org.teamMembers then Failed(AlreadyMember)
      else if t !in org.teams || a !in org.members then Failed(Database)
      else Put(db, o, org.(teamMembers := org.teamMembers[(t, a) := role]))
    case UpdateTeamRole(_, t, a, role) =>
      if !ActsIn(db, cx, o) || (t, a) !in org.teamMembers then Ran(db)
      else Put(db, o, org.(teamMembers := org.teamMembers[(t, a) := role]))
    case DeleteTeamMember(_, t, a) =>
      if !(ActsIn(db, cx, o) || Self(cx, a)) then Ran(db)
      else Put(db, o, org.(teamMembers := org.teamMembers - {(t, a)}))
    case DeleteTeamRows(_, a) =>
      if !(ActsIn(db, cx, o) || Self(cx, a)) then Ran(db)
      else Put(db, o, org.(teamMembers := WithoutTeams(org.teamMembers, a, TeamsOf(org, a))))
    case InsertChannel(_, c, row) =>
      if !ActsIn(db, cx, o) || c in org.channels || !(1 <= |row.name| <= 80) then Failed(Database)
      else if NameTaken(org, row.scope, row.name) then Failed(NameInUse)
      else Put(db, o, org.(channels := org.channels[c := row]))
    case InsertListing(_, c, a) =>
      if !ActsIn(db, cx, o) || c !in org.channels || !org.channels[c].scope.OfTeam? || a !in db.actors then
        Failed(Database)
      else if (c, a) in org.listings then Failed(AlreadyMember)
      else Put(db, o, org.(listings := org.listings + {(c, a)}))
    case DeleteListings(_, a) =>
      if !(ActsIn(db, cx, o) || Self(cx, a)) then Ran(db)
      else Put(db, o, org.(listings := WithoutListings(org.listings, a, ListedIn(org, a))))
    case InsertInvite(_, i, row) =>
      if !ActsIn(db, cx, o) || !G.AdmitsInsert(Guarded(row)) || row.maxUses <= 0 then Failed(Database)
      else if i in org.invites || InviteTokenTaken(db, row.token) then Failed(Database)
      else Put(db, o, org.(invites := org.invites[i := row]))
    case UpdateInvite(_, i, row) =>
      if !SeesInvite(db, cx, o, i) then Ran(db)
      else if !G.AdmitsUpdate(Guarded(org.invites[i]), Guarded(row), now) then Failed(Database)
      else Put(db, o, org.(invites := org.invites[i := row]))
  }

  /** xmin: the invite rows this transaction has written. */
  function Writes(written: set<(OrgId, InviteId)>, s: Statement): set<(OrgId, InviteId)> {
    if s.InsertInvite? || s.UpdateInvite? then written + {(s.org, s.id)} else written
  }

  predicate WritesTenantRow(s: Statement) {
    s.InsertTeam? || s.InsertTeamMember? || s.UpdateTeamRole? || s.DeleteTeamMember? || s.InsertChannel?
    || s.InsertListing? || s.InsertInvite? || s.UpdateInvite?
  }

  /** A statement that writes no membership leaves its performer acting in the organization. */
  lemma StillActs(db: Db, cx: Context, written: set<(OrgId, InviteId)>, now: Time, s: Statement)
    requires WritesTenantRow(s) && ActsIn(db, cx, s.org)
    ensures var r := Run(db, cx, written, now, s); r.Ran? ==> s.org in r.db.orgs && ActsIn(r.db, cx, s.org)
  {}

  // ---- tenant isolation ----

  /** The acting actor is an active member of the organization. */
  predicate Insider(db: Db, cx: Context, o: OrgId)
    requires o in db.orgs
  {
    cx.actor.Some? && cx.actor.value in db.orgs[o].members && db.orgs[o].members[cx.actor.value].status == Active
  }

  /** What an actor that is no active member may do to an organization's rows: end its own membership, remove its own
      rows and record its own departure, found the organization, use or revoke the invite it presents, and join through
      one used in the same transaction. */
  predicate OwnAffair(db: Db, cx: Context, written: set<(OrgId, InviteId)>, now: Time, s: Statement, o: OrgId)
    requires o in db.orgs
  {
    match s
    case UpdateMember(q, a, row) =>
      && q == o && cx.actor == Some(a) && a in db.orgs[o].members && row.role == db.orgs[o].members[a].role
      && row.status == Left && row.name == None
    case DeleteTeamMember(q, _, a) => q == o && cx.actor == Some(a)
    case DeleteTeamRows(q, a) => q == o && cx.actor == Some(a)
    case DeleteListings(q, a) => q == o && cx.actor == Some(a)
    case InsertRecord(q, r) =>
      && q == o && cx.actor == Some(r.performer)
      && (r.event.MemberLeft? || (r.event.TeamMemberRemoved? && r.event.reason == LeftService)
          || r.event.ChannelMemberLeft?)
      && r.event.actor == r.performer
      && (r.performer in db.orgs[o].members
          || (r.event.ChannelMemberLeft? && (r.event.channel, r.performer) in db.orgs[o].listings))
    case InsertMember(q, a, row) =>
      && q == o && cx.actor == Some(a) && row.status == Active
      && if row.role == Owner then db.orgs[o].members == map[]
         else row.role == OrganizationRole.Member && exists i ::
           && i in db.orgs[o].invites && (o, i) in written
           && var invite := db.orgs[o].invites[i];
              cx.token == Some(invite.token) && invite.kind == ForOrganization && !invite.revoked && invite.used > 0
              && now < invite.expires
    case UpdateInvite(q, i, row) =>
      && q == o && i in db.orgs[o].invites && cx.token == Some(db.orgs[o].invites[i].token)
      && var invite := db.orgs[o].invites[i];
         !invite.revoked && if row.revoked then row.used == invite.used
                            else row.used == invite.used + 1 <= invite.maxUses && now < invite.expires
    case _ => false
  }

  /** Row security keeps tenants apart: no statement changes a row of an organization for anyone but its active members,
      beyond one's own affairs. */
  lemma OnlyInsidersWrite(db: Db, cx: Context, written: set<(OrgId, InviteId)>, now: Time, s: Statement, o: OrgId)
    requires o in db.orgs
    requires Run(db, cx, written, now, s).Ran?
    ensures var d := Run(db, cx, written, now, s).db;
            o in d.orgs && (d.orgs[o] != db.orgs[o] && !Insider(db, cx, o) ==> OwnAffair(db, cx, written, now, s, o))
  {
    if s.InsertMember? || s.UpdateMember? { MembersAreInsiders(db, cx, written, now, s, o); }
    else if s.InsertOrganization? || s.InsertActor? || s.EraseActor? || s.InsertUser? || s.DeleteUser?
            || s.InsertSession? {}
    else if s.org in db.orgs { TenantRowsAreInsiders(db, cx, written, now, s, o); }
  }

  lemma MembersAreInsiders(db: Db, cx: Context, written: set<(OrgId, InviteId)>, now: Time, s: Statement, o: OrgId)
    requires o in db.orgs && (s.InsertMember? || s.UpdateMember?)
    requires Run(db, cx, written, now, s).Ran?
    ensures var d := Run(db, cx, written, now, s).db;
            o in d.orgs && (d.orgs[o] != db.orgs[o] && !Insider(db, cx, o) ==> OwnAffair(db, cx, written, now, s, o))
  {
    if s.InsertMember? && s.org == o && InviteAdmits(db, cx, o, written, now) {
      var i :| i in db.orgs[o].invites && SeesInvite(db, cx, o, i) && InviteProves(db.orgs[o].invites[i], cx)
               && (o, i) in written && db.orgs[o].invites[i].expires > now;
    }
  }

  lemma TenantRowsAreInsiders(db: Db, cx: Context, written: set<(OrgId, InviteId)>, now: Time, s: Statement, o: OrgId)
    requires s.InsertRecord? || s.InsertTeam? || s.InsertTeamMember? || s.UpdateTeamRole? || s.DeleteTeamMember?
             || s.DeleteTeamRows? || s.InsertChannel? || s.InsertListing? || s.DeleteListings? || s.InsertInvite?
             || s.UpdateInvite?
    requires o in db.orgs && s.org in db.orgs && RunIn(db, cx, db.orgs[s.org], now, s).Ran?
    ensures var d := RunIn(db, cx, db.orgs[s.org], now, s).db;
            o in d.orgs && (d.orgs[o] != db.orgs[o] && !Insider(db, cx, o) ==> OwnAffair(db, cx, written, now, s, o))
  {
    if s.org == o && ActsIn(db, cx, o) { assert Insider(db, cx, o); }
  }

  /** Nor does anyone but them read a membership or an invite of it, one's own membership and the invite whose token one
      presents aside. */
  lemma OnlyInsidersRead(db: Db, cx: Context, o: OrgId)
    requires o in db.orgs && !Insider(db, cx, o)
    ensures forall a: ActorId :: SeesMember(db, cx, o, a) <==> cx.actor == Some(a)
    ensures forall i: InviteId :: SeesInvite(db, cx, o, i) <==>
                        i in db.orgs[o].invites && cx.token == Some(db.orgs[o].invites[i].token)
  {}

  /** A person's user row and sessions are written by that person alone; a fresh actor row aside, the only change of an
      actor is its erasure, by an actor that sees it. */
  lemma OnlySelfIsWritten(db: Db, cx: Context, written: set<(OrgId, InviteId)>, now: Time, s: Statement, a: ActorId)
    requires Run(db, cx, written, now, s).Ran? && cx.actor != Some(a)
    ensures var d := Run(db, cx, written, now, s).db;
            && (a in d.users <==> a in db.users) && (a in db.users ==> d.users[a] == db.users[a])
            && (forall k :: k in d.sessions && d.sessions[k].actor == a ==>
                  k in db.sessions && db.sessions[k] == d.sessions[k])
            && (forall k :: k in db.sessions && db.sessions[k].actor == a ==>
                  k in d.sessions && d.sessions[k] == db.sessions[k])
            && (a in db.actors ==>
                  a in d.actors && (d.actors[a] == db.actors[a]
                                    || (d.actors[a] == Actor(None, true) && cx.actor.Some?
                                        && Sees(db, cx.actor.value, a))))
  {}

  /** A record an active performer writes is always admitted. */
  lemma ActiveRecords(db: Db, cx: Context, written: set<(OrgId, InviteId)>, now: Time, o: OrgId, r: Record)
    requires ActsIn(db, cx, o)
    ensures Run(db, cx, written, now, InsertRecord(o, r))
            == Ran(PutOrg(db, o, Logged(db.orgs[o], r.performer, Some(r.event))))
  {}

  /** Why a listing is recorded before it is deleted: for a departing actor with no membership in the organization,
      the record is admitted exactly while the listing stands. */
  lemma OutsideRecordNeedsListing(db: Db, cx: Context, written: set<(OrgId, InviteId)>, now: Time, o: OrgId,
                                  a: ActorId, c: ChannelId)
    requires cx.actor == Some(a) && o in db.orgs && a !in db.orgs[o].members
    ensures Run(db, cx, written, now, InsertRecord(o, Record(a, ChannelMemberLeft(a, c)))).Ran?
            <==> (c, a) in db.orgs[o].listings
  {}

  /** Why a self-suspension fails: once suspended, no statement of the performer may record it. */
  lemma SuspendedRecordsNothing(db: Db, cx: Context, written: set<(OrgId, InviteId)>, now: Time, o: OrgId, a: ActorId)
    requires cx.actor == Some(a) && HasMember(db, o, a) && !db.orgs[o].members[a].status.Active?
    ensures Run(db, cx, written, now, InsertRecord(o, Record(a, MemberSuspended(a)))) == Failed(Database)
  {}

  /** The invite policy admits a member only through an invite this transaction has itself used. */
  lemma AdmissionNeedsOwnUse(db: Db, cx: Context, written: set<(OrgId, InviteId)>, now: Time, o: OrgId, a: ActorId)
    requires o in db.orgs && a in db.actors && a !in db.orgs[o].members
    requires !ActsIn(db, cx, o) && forall i :: (o, i) !in written
    ensures Run(db, cx, written, now, InsertMember(o, a, Membership(OrganizationRole.Member, Active, None)))
            == Failed(Database)
  {}
}
