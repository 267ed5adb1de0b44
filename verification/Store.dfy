/** The committed tables. Rows that carry an organization_id are kept under their organization. */
module Store {
  import opened Domain

  datatype Actor = Actor(name: Option<string>, departed: bool)
  datatype User = User(email: string, passwordHash: string)
  datatype Session = Session(actor: ActorId, expires: Time)

  datatype Membership = Membership(role: OrganizationRole, status: MemberStatus, name: Option<string>)
  datatype Channel = Channel(scope: ChannelScope, name: string)
  datatype Invite = Invite(kind: InviteKind, token: TokenHash, expires: Time, maxUses: int, used: int,
                           revoked: bool)

  datatype RemovalReason = Removed | LeftService

  /** One constructor per action name the application writes to audit_events. */
  datatype Event =
    | OrganizationCreated
    | MemberAdded(actor: ActorId, role: OrganizationRole)
    | MemberInvited(actor: ActorId, invite: InviteId)
    | MemberRoleChanged(actor: ActorId, from: OrganizationRole, to: OrganizationRole)
    | MemberSuspended(actor: ActorId)
    | MemberReactivated(actor: ActorId)
    | MemberLeft(actor: ActorId)
    | TeamCreated(team: TeamId)
    | TeamMemberAdded(actor: ActorId, team: TeamId, teamRole: TeamRole)
    | TeamMemberRoleChanged(actor: ActorId, team: TeamId, fromRole: TeamRole, toRole: TeamRole)
    | TeamMemberRemoved(actor: ActorId, team: TeamId, reason: RemovalReason)
    | ChannelCreated(channel: ChannelId, scope: ChannelScope)
    | ChannelMemberAdded(actor: ActorId, channel: ChannelId)
    | ChannelMemberLeft(actor: ActorId, channel: ChannelId)
    | InviteCreated(invite: InviteId, maxUses: int)
    | InviteRevoked(invite: InviteId)

  datatype Record = Record(performer: ActorId, event: Event)

  datatype Org = Org(
    slug: string,
    members: map<ActorId, Membership>,
    teams: set<TeamId>,
    teamMembers: map<(TeamId, ActorId), TeamRole>,
    channels: map<ChannelId, Channel>,
    listings: set<(ChannelId, ActorId)>,
    invites: map<InviteId, Invite>,
    audit: seq<Record>)

  datatype Db = Db(
    actors: map<ActorId, Actor>,
    users: map<ActorId, User>,
    sessions: map<TokenHash, Session>,
    orgs: map<OrgId, Org>)

  /** fukulow_active_organizations() holds `o` for the acting actor `a`. */
  predicate ActiveIn(db: Db, a: ActorId, o: OrgId) {
    o in db.orgs && ActiveMember(db.orgs[o], a)
  }

  predicate ActiveMember(org: Org, a: ActorId) {
    a in org.members && org.members[a].status.Active?
  }

  predicate ActiveOwner(org: Org, a: ActorId) {
    ActiveMember(org, a) && org.members[a].role.Owner?
  }

  function ActiveOwners(org: Org): (owners: set<ActorId>)
    ensures forall a :: a in owners <==> ActiveOwner(org, a)
  {
    set a | a in org.members && ActiveOwner(org, a)
  }

  /** The actors policy: oneself, and every actor with a membership in an organization one is active in. */
  predicate Sees(db: Db, viewer: ActorId, a: ActorId) {
    a == viewer || exists o :: o in db.orgs && ActiveIn(db, viewer, o) && a in db.orgs[o].members
  }

  function TeamsOf(org: Org, a: ActorId): (teams: set<TeamId>)
    ensures forall t :: t in teams <==> (t, a) in org.teamMembers
  {
    set k | k in org.teamMembers && k.1 == a :: k.0
  }

  function ListedIn(org: Org, a: ActorId): (channels: set<ChannelId>)
    ensures forall c :: c in channels <==> (c, a) in org.listings
  {
    set k | k in org.listings && k.1 == a :: k.0
  }

  function ActiveOrgs(db: Db, a: ActorId): (orgs: set<OrgId>)
    ensures forall o :: o in orgs <==> ActiveIn(db, a, o)
  {
    set o | o in db.orgs && ActiveIn(db, a, o)
  }

  predicate EmailTaken(db: Db, email: string) {
    exists a :: a in db.users && Lower(db.users[a].email) == Lower(email)
  }

  predicate SlugTaken(db: Db, slug: string) {
    exists o :: o in db.orgs && db.orgs[o].slug == slug
  }

  predicate InviteTokenTaken(db: Db, token: TokenHash) {
    exists o :: o in db.orgs && exists i :: i in db.orgs[o].invites && db.orgs[o].invites[i].token == token
  }

  predicate NameTaken(org: Org, scope: ChannelScope, name: string) {
    exists c :: c in org.channels && org.channels[c].scope == scope && Lower(org.channels[c].name) == Lower(name)
  }
}
