/** What each operation does when it runs alone: one function from the committed tables to the next. */
module Operations {
  import opened Domain
  import opened Store

  datatype Error =
    | NotFound | NotActive | NotSuspended | LastOwner | LastOwnerOf(org: OrgId) | ActorNotFound | ActorDeparted
    | NotAnActiveMember | AlreadyMember | OrganizationScoped | NameInUse | InvalidSlug | SlugInUse
    | NotAMember | Forbidden | TokenUnavailable | InviteUnusable | EmailInUse | InvalidCredentials
    | Database

  datatype Reply = Done | Refused(error: Error)
  datatype Result = Result(reply: Reply, db: Db)

  /** The changes made under the organization's FOR UPDATE lock. */
  datatype Change =
    | ChangeRole(target: ActorId, role: OrganizationRole)
    | SuspendMember(target: ActorId)
    | ReactivateMember(target: ActorId)
    | CreateTeam(team: TeamId)
    | AddTeamMember(team: TeamId, target: ActorId, teamRole: TeamRole)
    | ChangeTeamRole(team: TeamId, target: ActorId, teamRole: TeamRole)
    | RemoveTeamMember(team: TeamId, target: ActorId)
    | CreateChannel(channel: ChannelId, scope: ChannelScope, name: string)
    | AddChannelMember(channel: ChannelId, target: ActorId)
  {
    /** The operations that pass their target, and not only the performer, to lock_actor. */
    predicate LocksTarget() {
      ReactivateMember? || AddTeamMember? || AddChannelMember?
    }
  }

  datatype Op =
    // sighted: lock_actor found the target's row, so its deleted_at was read
    | InOrg(performer: ActorId, org: OrgId, change: Change, sighted: bool)
    | CreateInvite(performer: ActorId, org: OrgId, invite: InviteId, token: Option<TokenHash>, expires: Time,
                   maxUses: int)
    | RevokeInvite(performer: ActorId, org: OrgId, revoked: Option<InviteId>)
    | AcceptInvite(presented: TokenHash, now: Time, email: string, passwordHash: string, name: string,
                   actor: ActorId)
    | CreatePerson(actor: ActorId, email: string, passwordHash: string, name: string)
    | CreateOrganization(actor: ActorId, org: OrgId, slug: string)
    | LeaveService(actor: ActorId)
    | SignIn(email: string, verified: bool, token: Option<TokenHash>, expires: Time)

  // ---- changes inside one organization ----

  /** A row written by one statement; unnamed columns keep their value. */
  datatype Write =
    | Keep
    | SetRole(actor: ActorId, role: OrganizationRole)
    | SetStatus(actor: ActorId, status: MemberStatus)
    | PutTeam(team: TeamId)
    | PutTeamMember(team: TeamId, actor: ActorId, teamRole: TeamRole)
    | DropTeamMember(team: TeamId, actor: ActorId)
    | PutChannel(channel: ChannelId, row: Channel)
    | PutListing(channel: ChannelId, actor: ActorId)

  datatype Decision = Refuse(error: Error) | Proceed(write: Write, event: Option<Event>)

  /** What the operation decides from the rows it reads. */
  function Decide(rows: Org, owners: set<ActorId>, departed: Option<bool>, performer: ActorId, change: Change)
    : Decision
  {
    match change
    case ChangeRole(a, role) =>
      if a !in rows.members || rows.members[a].status.Left? then Refuse(NotFound)
      else
        var from := rows.members[a].role;
        if from == role then Proceed(Keep, None)
        else if rows.members[a].status.Active? && from.Owner? && !CheckOwnerChange(owners, Demote(a)) then
          Refuse(LastOwner)
        else Proceed(SetRole(a, role), Some(MemberRoleChanged(a, from, role)))
    case SuspendMember(a) =>
      if a !in rows.members then Refuse(NotFound)
      else if !rows.members[a].status.Active? then Refuse(NotActive)
      else if rows.members[a].role.Owner? && !CheckOwnerChange(owners, OwnerChange.Suspend(a)) then
        Refuse(LastOwner)
      // The audit insert follows the update, and no policy admits it to a performer just suspended.
      else if a == performer then Refuse(Database)
      else Proceed(SetStatus(a, Suspended), Some(MemberSuspended(a)))
    case ReactivateMember(a) =>
      if a !in rows.members then Refuse(NotFound)
      else if departed == Some(true) then Refuse(ActorDeparted)
      else if !rows.members[a].status.Suspended? then Refuse(NotSuspended)
      else Proceed(SetStatus(a, Active), Some(MemberReactivated(a)))
    case CreateTeam(t) => Proceed(PutTeam(t), Some(TeamCreated(t)))
    case AddTeamMember(t, a, role) =>
      if t !in rows.teams || a !in rows.members then Refuse(NotFound)
      else if departed == Some(true) then Refuse(ActorDeparted)
      else if !rows.members[a].status.Active? then Refuse(NotAnActiveMember)
      else Proceed(PutTeamMember(t, a, role), Some(TeamMemberAdded(a, t, role)))
    case ChangeTeamRole(t, a, role) =>
      if (t, a) !in rows.teamMembers then Refuse(NotFound)
      else if rows.teamMembers[(t, a)] == role then Proceed(Keep, None)
      else Proceed(PutTeamMember(t, a, role), Some(TeamMemberRoleChanged(a, t, rows.teamMembers[(t, a)], role)))
    case RemoveTeamMember(t, a) =>
      if (t, a) !in rows.teamMembers then Refuse(NotFound)
      else Proceed(DropTeamMember(t, a), Some(TeamMemberRemoved(a, t, Removed)))
    case CreateChannel(c, scope, name) =>
      if scope.OfTeam? && scope.team !in rows.teams then Refuse(NotFound)
      else Proceed(PutChannel(c, Channel(scope, name)), Some(ChannelCreated(c, scope)))
    case AddChannelMember(c, a) =>
      if c !in rows.channels then Refuse(NotFound)
      else if rows.channels[c].scope.OrganizationWide? then Refuse(OrganizationScoped)
      else if departed.None? then Refuse(NotFound)
      else if departed == Some(true) then Refuse(ActorDeparted)
      else Proceed(PutListing(c, a), Some(ChannelMemberAdded(a, c)))
  }

  /** The constraint an insert would break, judged on the table at the moment of the insert. */
  function Violation(org: Org, change: Change): Option<Error> {
    match change
    case CreateTeam(t) => if t in org.teams then Some(Database) else None
    case AddTeamMember(t, a, _) => if (t, a) in org.teamMembers then Some(AlreadyMember) else None
    case CreateChannel(c, scope, name) =>
      if c in org.channels || !(1 <= |name| <= 80) then Some(Database)
      else if NameTaken(org, scope, name) then Some(NameInUse)
      else None
    case AddChannelMember(c, a) => if (c, a) in org.listings then Some(AlreadyMember) else None
    case _ => None
  }

  function Perform(org: Org, write: Write): Org {
    match write
    case Keep => org
    case SetRole(a, role) =>
      if a in org.members then org.(members := org.members[a := org.members[a].(role := role)]) else org
    case SetStatus(a, status) =>
      if a in org.members then org.(members := org.members[a := org.members[a].(status := status)]) else org
    case PutTeam(t) => org.(teams := org.teams + {t})
    case PutTeamMember(t, a, role) => org.(teamMembers := org.teamMembers[(t, a) := role])
    case DropTeamMember(t, a) => org.(teamMembers := org.teamMembers - {(t, a)})
    case PutChannel(c, row) => org.(channels := org.channels[c := row])
    case PutListing(c, a) => org.(listings := org.listings + {(c, a)})
  }

  function Logged(org: Org, performer: ActorId, event: Option<Event>): Org {
    match event
    case None => org
    case Some(e) => org.(audit := org.audit + [Record(performer, e)])
  }

  function PutOrg(db: Db, o: OrgId, org: Org): Db {
    db.(orgs := db.orgs[o := org])
  }

  /** Carry out a decision on the organization as it now is. */
  function Settle(db: Db, o: OrgId, performer: ActorId, change: Change, decision: Decision): Result
    requires o in db.orgs
  {
    match decision
    case Refuse(e) => Result(Refused(e), db)
    case Proceed(write, event) =>
      match Violation(db.orgs[o], change)
      case Some(e) => Result(Refused(e), db)
      case None => Result(Done, PutOrg(db, o, Logged(Perform(db.orgs[o], write), performer, event)))
  }

  /** deleted_at of the target as lock_actor reports it. */
  function Departed(db: Db, op: Op): Option<bool>
    requires op.InOrg?
  {
    if op.change.LocksTarget() then
      if op.sighted && op.change.target in db.actors then Some(db.actors[op.change.target].departed) else None
    else Some(false)
  }

  function ApplyInOrg(db: Db, op: Op): Result
    requires op.InOrg?
  {
    if !ActiveIn(db, op.performer, op.org) then Result(Refused(NotFound), db)
    else
      var org := db.orgs[op.org];
      Settle(db, op.org, op.performer, op.change,
             Decide(org, ActiveOwners(org), Departed(db, op), op.performer, op.change))
  }

  // ---- invites ----

  predicate Usable(invite: Invite, now: Time) {
    invite.used < invite.maxUses && !invite.revoked && invite.expires > now
  }

  predicate Presents(db: Db, token: TokenHash, o: OrgId, i: InviteId) {
    o in db.orgs && i in db.orgs[o].invites && db.orgs[o].invites[i].token == token
  }

  datatype Located = Nowhere | At(org: OrgId, invite: InviteId)

  /** The invite row a token hash names. */
  ghost function Locate(db: Db, token: TokenHash): (r: Located)
    ensures r.At? ==> Presents(db, token, r.org, r.invite)
    ensures r.Nowhere? ==> forall o, i :: !Presents(db, token, o, i)
  {
    if exists o, i :: Presents(db, token, o, i) then
      var o, i :| Presents(db, token, o, i);
      At(o, i)
    else Nowhere
  }

  /** create_invite's inserts, once the capability is granted. */
  function InsertInvite(db: Db, op: Op): Result
    requires op.CreateInvite? && op.org in db.orgs
  {
    var org := db.orgs[op.org];
    if op.token.None? then Result(Refused(TokenUnavailable), db)
    else if op.maxUses <= 0 || op.invite in org.invites || InviteTokenTaken(db, op.token.value) then
      Result(Refused(Database), db)
    else
      var row := Invite(ForOrganization, op.token.value, op.expires, op.maxUses, 0, false);
      Result(Done, PutOrg(db, op.org, Logged(org.(invites := org.invites[op.invite := row]), op.performer,
                                             Some(InviteCreated(op.invite, op.maxUses)))))
  }

  function ApplyCreateInvite(db: Db, op: Op): Result
    requires op.CreateInvite?
  {
    if !ActiveIn(db, op.performer, op.org) then Result(Refused(NotAMember), db)
    else if !Holds(db.orgs[op.org].members[op.performer].role, InviteMember) then Result(Refused(Forbidden), db)
    else InsertInvite(db, op)
  }

  function Revoke(org: Org, i: InviteId): Org
    requires i in org.invites
  {
    org.(invites := org.invites[i := org.invites[i].(revoked := true)])
  }

  function ApplyRevokeInvite(db: Db, op: Op): Result
    requires op.RevokeInvite?
  {
    if !ActiveIn(db, op.performer, op.org) then Result(Refused(NotAMember), db)
    else
      var org := db.orgs[op.org];
      if !Holds(org.members[op.performer].role, InviteMember) then Result(Refused(Forbidden), db)
      else if op.revoked.None? || op.revoked.value !in org.invites then Result(Refused(NotFound), db)
      else if org.invites[op.revoked.value].revoked then Result(Done, db)
      else
        Result(Done, PutOrg(db, op.org, Logged(Revoke(org, op.revoked.value), op.performer,
                                               Some(InviteRevoked(op.revoked.value)))))
  }

  /** The organization after `a` joined it through invite `i`. */
  function Joined(org: Org, i: InviteId, a: ActorId): Org
    requires i in org.invites
  {
    Logged(org.(invites := org.invites[i := org.invites[i].(used := org.invites[i].used + 1)],
                members := org.members[a := Membership(OrganizationRole.Member, Active, None)]),
           a, Some(MemberInvited(a, i)))
  }

  function WithPerson(db: Db, a: ActorId, email: string, passwordHash: string, name: string): Db {
    db.(actors := db.actors[a := Actor(Some(name), false)], users := db.users[a := User(email, passwordHash)])
  }

  function ApplyCreatePerson(db: Db, a: ActorId, email: string, passwordHash: string, name: string): Result {
    if a in db.actors then Result(Refused(Database), db)
    else if EmailTaken(db, email) then Result(Refused(EmailInUse), db)
    else Result(Done, WithPerson(db, a, email, passwordHash, name))
  }

  ghost function ApplyAccept(db: Db, op: Op): Result
    requires op.AcceptInvite?
  {
    match Locate(db, op.presented)
    case Nowhere => Result(Refused(InviteUnusable), db)
    case At(o, i) =>
      var invite := db.orgs[o].invites[i];
      if !Usable(invite, op.now) || !invite.kind.ForOrganization? then Result(Refused(InviteUnusable), db)
      else
        match ApplyCreatePerson(db, op.actor, op.email, op.passwordHash, op.name)
        case Result(Refused(e), _) => Result(Refused(e), db)
        case Result(Done, next) => Result(Done, PutOrg(next, o, Joined(db.orgs[o], i, op.actor)))
  }

  // ---- identity ----

  function Founded(a: ActorId, slug: string): Org {
    Org(slug, map[a := Membership(OrganizationRole.Owner, Active, None)], {}, map[], map[], {}, map[],
        [Record(a, OrganizationCreated), Record(a, MemberAdded(a, OrganizationRole.Owner))])
  }

  function ApplyCreateOrganization(db: Db, op: Op): Result
    requires op.CreateOrganization?
  {
    if op.actor !in db.actors then Result(Refused(ActorNotFound), db)
    else if db.actors[op.actor].departed then Result(Refused(ActorDeparted), db)
    else if !ValidSlug(op.slug) then Result(Refused(InvalidSlug), db)
    else if SlugTaken(db, op.slug) then Result(Refused(SlugInUse), db)
    else if op.org in db.orgs then Result(Refused(Database), db)
    else Result(Done, PutOrg(db, op.org, Founded(op.actor, op.slug)))
  }

  ghost predicate Registered(db: Db, email: string, a: ActorId) {
    a in db.users && Lower(db.users[a].email) == Lower(email)
  }

  ghost function PersonAt(db: Db, email: string): (r: Option<ActorId>)
    ensures r.Some? ==> Registered(db, email, r.value)
    ensures r.None? ==> forall a :: !Registered(db, email, a)
  {
    if exists a :: Registered(db, email, a) then
      var a :| Registered(db, email, a);
      Some(a)
    else None
  }

  ghost function ApplySignIn(db: Db, op: Op): Result
    requires op.SignIn?
  {
    var person := PersonAt(db, op.email);
    if person.None? || !op.verified || person.value !in db.actors || db.actors[person.value].departed then
      Result(Refused(InvalidCredentials), db)
    else if op.token.None? then Result(Refused(TokenUnavailable), db)
    else if op.token.value in db.sessions then Result(Refused(Database), db)
    else Result(Done, db.(sessions := db.sessions[op.token.value := Session(person.value, op.expires)]))
  }

  // ---- departure ----

  function TeamRemovals(a: ActorId, teams: seq<TeamId>): (r: seq<Record>) {
    seq(|teams|, k requires 0 <= k < |teams| => Record(a, TeamMemberRemoved(a, teams[k], LeftService)))
  }

  function ListingRemovals(a: ActorId, channels: seq<ChannelId>): (r: seq<Record>) {
    seq(|channels|, k requires 0 <= k < |channels| => Record(a, ChannelMemberLeft(a, channels[k])))
  }

  /** A departure's records in one organization, in the order it writes them. */
  function Records(a: ActorId, teams: seq<TeamId>, leaves: bool, channels: seq<ChannelId>): seq<Record> {
    TeamRemovals(a, teams) + (if leaves then [Record(a, MemberLeft(a))] else []) + ListingRemovals(a, channels)
  }

  function DepartureRecords(a: ActorId, teams: set<TeamId>, leaves: bool, channels: set<ChannelId>): seq<Record> {
    Records(a, Sorted(teams), leaves, Sorted(channels))
  }

  function WithoutTeams(rows: map<(TeamId, ActorId), TeamRole>, a: ActorId, teams: set<TeamId>)
    : map<(TeamId, ActorId), TeamRole>
  {
    map k | k in rows && !(k.1 == a && k.0 in teams) :: rows[k]
  }

  function WithoutListings(rows: set<(ChannelId, ActorId)>, a: ActorId, channels: set<ChannelId>)
    : set<(ChannelId, ActorId)>
  {
    set k | k in rows && !(k.1 == a && k.0 in channels)
  }

  /** One organization after `a` departs, given the team rows and listings it removes. */
  function Departing(org: Org, a: ActorId, teams: set<TeamId>, leaves: bool, channels: set<ChannelId>): Org {
    org.(members := if a in org.members then org.members[a := org.members[a].(status := Left, name := None)]
                    else org.members,
         teamMembers := WithoutTeams(org.teamMembers, a, teams),
         listings := WithoutListings(org.listings, a, channels),
         audit := org.audit + DepartureRecords(a, teams, leaves, channels))
  }

  function LeaveOrg(org: Org, a: ActorId): Org {
    Departing(org, a, TeamsOf(org, a), a in org.members && !org.members[a].status.Left?, ListedIn(org, a))
  }

  predicate OwnersRemain(db: Db, a: ActorId, o: OrgId)
    requires o in db.orgs
  {
    CheckOwnerChange(ActiveOwners(db.orgs[o]), OwnerChange.Leave(a))
  }

  function Abandoned(db: Db, a: ActorId): set<OrgId> {
    set o | o in db.orgs && ActiveIn(db, a, o) && !OwnersRemain(db, a, o)
  }

  function Leaving(db: Db, a: ActorId): Db
    requires a in db.actors
  {
    Db(db.actors[a := db.actors[a].(name := None, departed := true)],
       db.users - {a},
       map k | k in db.sessions && db.sessions[k].actor != a :: db.sessions[k],
       map o | o in db.orgs :: LeaveOrg(db.orgs[o], a))
  }

  function ApplyLeave(db: Db, a: ActorId): Result {
    if a !in db.actors || db.actors[a].departed then Result(Refused(NotFound), db)
    else if Abandoned(db, a) != {} then Result(Refused(LastOwnerOf(Least(Abandoned(db, a)))), db)
    else Result(Done, Leaving(db, a))
  }

  // ---- every operation ----

  ghost function Apply(db: Db, op: Op): Result {
    match op
    case InOrg(_, _, _, _) => ApplyInOrg(db, op)
    case CreateInvite(_, _, _, _, _, _) => ApplyCreateInvite(db, op)
    case RevokeInvite(_, _, _) => ApplyRevokeInvite(db, op)
    case AcceptInvite(_, _, _, _, _, _) => ApplyAccept(db, op)
    case CreatePerson(a, email, hash, name) => ApplyCreatePerson(db, a, email, hash, name)
    case CreateOrganization(_, _, _) => ApplyCreateOrganization(db, op)
    case LeaveService(a) => ApplyLeave(db, a)
    case SignIn(_, _, _, _) => ApplySignIn(db, op)
  }

  /** What an operation does when it commits among others: what it does alone, except that a departure may have
      checked the owners of an organization some statements earlier. */
  ghost function Land(db: Db, op: Op): Result {
    if op.LeaveService? && op.actor in db.actors && !db.actors[op.actor].departed then
      Result(Done, Leaving(db, op.actor))
    else Apply(db, op)
  }

  /** The tables after a sequence of operations, one at a time. */
  ghost function Execute(db: Db, ops: seq<Op>): Db
    decreases |ops|
  {
    if ops == [] then db else Execute(Apply(db, ops[0]).db, ops[1..])
  }
}
