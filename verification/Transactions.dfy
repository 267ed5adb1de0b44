/** Row locks, and every operation as a transaction that runs one statement at a time under READ COMMITTED. */
module Transactions {
  import opened Domain
  import opened Store
  import opened Operations

  // ---- row locks ----

  datatype Resource =
    | ActorRow(actor: ActorId)
    | OrgRow(org: OrgId)
    | MemberRow(org: OrgId, actor: ActorId)
    | TeamRow(org: OrgId, team: TeamId, actor: ActorId)
    | InviteRow(org: OrgId, invite: InviteId)
    | EmailKey(email: string)  // an uncommitted entry of the unique index users_email_lower_key

  datatype Mode = KeyShare | Share | NoKeyUpdate | Update

  /** PostgreSQL's row-level lock conflicts. */
  predicate Conflicts(m: Mode, n: Mode) {
    match m
    case KeyShare => n.Update?
    case Share => n.NoKeyUpdate? || n.Update?
    case NoKeyUpdate => !n.KeyShare?
    case Update => true
  }

  datatype Hold = Hold(resource: Resource, mode: Mode)

  predicate Clash(a: Hold, b: Hold) {
    a.resource == b.resource && Conflicts(a.mode, b.mode)
  }

  predicate Compatible(a: set<Hold>, b: set<Hold>) {
    forall x, y :: x in a && y in b ==> !Clash(x, y)
  }

  // ---- transactions ----

  /** What a departure has read and removed so far; nothing of it is visible to others before the commit. */
  datatype Gathered = Gathered(
    locked: set<OrgId>,
    statuses: map<OrgId, MemberStatus>,
    listed: set<OrgId>,
    teams: map<OrgId, set<TeamId>>,
    channels: map<OrgId, set<ChannelId>>)

  /** The next statement of a transaction, with what its earlier statements returned. */
  datatype Phase =
    | Start
    // lock_actor: the rows its snapshot saw and has still to lock, and the target's deleted_at once read
    | ActorLocks(todo: seq<ActorId>, departed: Option<bool>)
    | OrgLock(departed: Option<bool>)
    | Rows(departed: Option<bool>)
    | Owners(departed: Option<bool>, rows: Org)
    | Writing(departed: Option<bool>, rows: Org, owners: set<ActorId>)
    // create_invite and revoke_invite
    | Authorizing
    | Inviting
    | RevokeLock
    | Revoking
    // accept_invite
    | Using(org: OrgId, invite: InviteId)
    | NewPerson(org: OrgId, invite: InviteId)
    | Joining(org: OrgId, invite: InviteId)
    | Welcoming(org: OrgId, invite: InviteId)
    // create_organization
    | Founding
    // sign_in
    | PasswordAccepted(person: ActorId)
    | Rereading(person: ActorId)
    | Present(person: ActorId)
    // leave_service
    | Scan
    | OrgLocks(orgs: seq<OrgId>, all: set<OrgId>)
    | Checks(orgs: seq<OrgId>, all: set<OrgId>)
    | Memberships(all: set<OrgId>)
    | ListedOrgs(all: set<OrgId>, statuses: map<OrgId, MemberStatus>)
    | Sweep(orgs: seq<OrgId>, got: Gathered)
    | SweepAudit(orgs: seq<OrgId>, got: Gathered)
    | Listings(orgs: seq<OrgId>, got: Gathered)
    | ListingAudit(orgs: seq<OrgId>, found: set<ChannelId>, got: Gathered)
    | Finish(got: Gathered)

  datatype Txn = Txn(op: Op, phase: Phase, held: set<Hold>)

  datatype Outcome = Continue(op: Op, phase: Phase) | Commit(db: Db) | Abort

  /** The foreign keys of an audit record. */
  function AuditLocks(o: OrgId, performer: ActorId): set<Hold> {
    {Hold(OrgRow(o), KeyShare), Hold(ActorRow(performer), KeyShare)}
  }

  function RowLocks(o: OrgId, write: Write): set<Hold> {
    match write
    case SetRole(a, _) => {Hold(MemberRow(o, a), NoKeyUpdate)}
    case SetStatus(a, _) => {Hold(MemberRow(o, a), NoKeyUpdate)}
    case PutTeamMember(t, a, _) => {Hold(TeamRow(o, t, a), Update)}
    case DropTeamMember(t, a) => {Hold(TeamRow(o, t, a), Update)}
    case _ => {}
  }

  /** The rows an insert references by foreign key. */
  function ReferencedRows(o: OrgId, change: Change): set<Hold> {
    match change
    case CreateTeam(_) => {Hold(OrgRow(o), KeyShare)}
    case CreateChannel(_, _, _) => {Hold(OrgRow(o), KeyShare)}
    case AddTeamMember(_, a, _) =>
      {Hold(OrgRow(o), KeyShare), Hold(ActorRow(a), KeyShare), Hold(MemberRow(o, a), KeyShare)}
    case AddChannelMember(_, a) => {Hold(ActorRow(a), KeyShare)}
    case _ => {}
  }

  /** The locks of a change's writes; an insert that repeats a key is refused before it locks anything. */
  function WriteLocks(o: OrgId, performer: ActorId, change: Change, rows: Org, d: Decision): set<Hold> {
    match d
    case Refuse(_) => {}
    case Proceed(write, event) =>
      if Violation(rows, change).Some? then {}
      else RowLocks(o, write) + ReferencedRows(o, change) + if event.Some? then AuditLocks(o, performer) else {}
  }

  /** The locks the next statement waits for. */
  function Request(t: Txn): set<Hold> {
    match t.op
    case InOrg(p, o, change, _) => RequestInOrg(p, o, change, t.phase)
    case CreateInvite(p, o, i, _, _, _) => RequestInvite(p, o, i, t.phase)
    case RevokeInvite(p, o, i) => RequestInvite(p, o, if i.Some? then i.value else 0, t.phase)
    case AcceptInvite(_, _, email, _, _, a) => RequestAccept(email, a, t.phase)
    case CreatePerson(a, email, _, _) => {Hold(ActorRow(a), Update), Hold(EmailKey(Lower(email)), Update)}
    case CreateOrganization(a, _, _) => if t.phase.Start? then {Hold(ActorRow(a), Share)} else {}
    case LeaveService(a) => RequestLeave(a, t.phase)
    case SignIn(_, _, _, _) =>
      if t.phase.PasswordAccepted? then {Hold(ActorRow(t.phase.person), Share)}
      else if t.phase.Present? then {Hold(ActorRow(t.phase.person), KeyShare)} else {}
  }

  function RequestInOrg(p: ActorId, o: OrgId, change: Change, phase: Phase): set<Hold> {
    match phase
    case ActorLocks(todo, _) => if todo == [] then {} else {Hold(ActorRow(todo[0]), Share)}
    case OrgLock(_) => {Hold(OrgRow(o), Update)}
    case Writing(departed, rows, owners) => WriteLocks(o, p, change, rows, Decide(rows, owners, departed, p, change))
    case _ => {}
  }

  function RequestInvite(p: ActorId, o: OrgId, i: InviteId, phase: Phase): set<Hold> {
    match phase
    case ActorLocks(todo, _) => if todo == [] then {} else {Hold(ActorRow(todo[0]), Share)}
    case OrgLock(_) => {Hold(OrgRow(o), Share)}
    case Authorizing => {Hold(MemberRow(o, p), Share)}
    case RevokeLock => {Hold(InviteRow(o, i), Update)}
    case Inviting => AuditLocks(o, p)
    case Revoking => AuditLocks(o, p)
    case _ => {}
  }

  function RequestAccept(email: string, a: ActorId, phase: Phase): set<Hold> {
    match phase
    case Using(o, i) => {Hold(InviteRow(o, i), NoKeyUpdate)}
    case NewPerson(_, _) => {Hold(ActorRow(a), Update), Hold(EmailKey(Lower(email)), Update)}
    case Joining(o, _) => {Hold(OrgRow(o), KeyShare)}
    case Welcoming(o, _) => AuditLocks(o, a)
    case _ => {}
  }

  function RequestLeave(a: ActorId, phase: Phase): set<Hold> {
    match phase
    case Start => {Hold(ActorRow(a), Update)}
    case OrgLocks(orgs, _) => if orgs == [] then {} else {Hold(OrgRow(orgs[0]), Update)}
    case SweepAudit(orgs, got) => if orgs != [] && Audits(got, orgs[0]) then AuditLocks(orgs[0], a) else {}
    case ListingAudit(orgs, found, _) => if orgs != [] && found != {} then AuditLocks(orgs[0], a) else {}
    case Finish(got) => set o | o in got.statuses :: Hold(MemberRow(o, a), NoKeyUpdate)
    case _ => {}
  }

  /** leave_organization or member_left writes a record there. */
  predicate Audits(got: Gathered, o: OrgId) {
    (o in got.teams && got.teams[o] != {}) || (o in got.statuses && !got.statuses[o].Left?)
  }

  // ---- one statement ----

  /** The effect of the next statement, its locks granted, on the tables as committed at that moment. */
  ghost function Advance(c: Db, t: Txn): Outcome {
    match t.op
    case InOrg(_, _, _, _) => AdvanceInOrg(c, t.op, t.phase)
    case CreateInvite(_, _, _, _, _, _) => AdvanceInvite(c, t.op, t.phase)
    case RevokeInvite(_, _, _) => AdvanceInvite(c, t.op, t.phase)
    case AcceptInvite(_, _, _, _, _, _) => AdvanceAccept(c, t.op, t.phase)
    case CreatePerson(_, _, _, _) => Settled(Apply(c, t.op))
    case CreateOrganization(a, _, _) =>
      if t.phase.Start? then
        if a in c.actors && !c.actors[a].departed then Continue(t.op, Founding) else Abort
      else Settled(Apply(c, t.op))
    case LeaveService(_) => AdvanceLeave(c, t.op, t.phase)
    case SignIn(_, _, _, _) => AdvanceSignIn(c, t.op, t.phase)
  }

  function Settled(r: Result): Outcome {
    if r.reply.Done? then Commit(r.db) else Abort
  }

  /** lock_actor's snapshot: which of the two rows the performer can see. */
  function VisibleActors(c: Db, performer: ActorId, target: ActorId): set<ActorId> {
    set x | x in {performer, target} && x in c.actors && Sees(c, performer, x)
  }

  function AdvanceInOrg(c: Db, op: Op, phase: Phase): Outcome
    requires op.InOrg?
  {
    var p, o, change := op.performer, op.org, op.change;
    match phase
    case Start =>
      if change.LocksTarget() then
        var visible := VisibleActors(c, p, change.target);
        Continue(op.(sighted := change.target in visible), ActorLocks(Sorted(visible), None))
      else Continue(op, ActorLocks(Sorted(VisibleActors(c, p, p)), Some(false)))
    case ActorLocks(todo, departed) =>
      if todo == [] then if ActiveIn(c, p, o) then Continue(op, OrgLock(departed)) else Abort
      else if change.LocksTarget() && todo[0] == change.target && todo[0] in c.actors then
        Continue(op, ActorLocks(todo[1..], Some(c.actors[todo[0]].departed)))
      else Continue(op, ActorLocks(todo[1..], departed))
    case OrgLock(departed) => Continue(op, Rows(departed))
    // A performer who stopped being active while waiting sees nothing here and may write nothing.
    case Rows(departed) => if ActiveIn(c, p, o) then Continue(op, Owners(departed, c.orgs[o])) else Abort
    case Owners(departed, rows) =>
      if o in c.orgs then Continue(op, Writing(departed, rows, ActiveOwners(c.orgs[o]))) else Abort
    case Writing(departed, rows, owners) =>
      if o in c.orgs then Settled(Settle(c, o, p, change, Decide(rows, owners, departed, p, change))) else Abort
    case _ => Abort
  }

  ghost function AdvanceInvite(c: Db, op: Op, phase: Phase): Outcome
    requires op.CreateInvite? || op.RevokeInvite?
  {
    var p, o := op.performer, op.org;
    match phase
    case Start => Continue(op, ActorLocks(Sorted(VisibleActors(c, p, p)), Some(false)))
    case ActorLocks(todo, departed) =>
      if todo != [] then Continue(op, ActorLocks(todo[1..], departed))
      else if ActiveIn(c, p, o) then Continue(op, OrgLock(departed)) else Abort
    case OrgLock(_) => Continue(op, Authorizing)
    case Authorizing =>
      if !ActiveIn(c, p, o) || !Holds(c.orgs[o].members[p].role, InviteMember) then Abort
      else if op.CreateInvite? then Continue(op, Inviting)
      else if op.revoked.Some? then Continue(op, RevokeLock)
      else Abort
    case Inviting => if op.CreateInvite? && o in c.orgs then Settled(InsertInvite(c, op)) else Abort
    case RevokeLock =>
      if o !in c.orgs || op.CreateInvite? || op.revoked.None? || op.revoked.value !in c.orgs[o].invites then Abort
      else if c.orgs[o].invites[op.revoked.value].revoked then Commit(c)
      else Continue(op, Revoking)
    case Revoking =>
      if o !in c.orgs || op.CreateInvite? || op.revoked.None? || op.revoked.value !in c.orgs[o].invites then Abort
      else Commit(PutOrg(c, o, Logged(Revoke(c.orgs[o], op.revoked.value), p, Some(InviteRevoked(op.revoked.value)))))
    case _ => Abort
  }

  ghost function AdvanceAccept(c: Db, op: Op, phase: Phase): Outcome
    requires op.AcceptInvite?
  {
    match phase
    case Start =>
      (match Locate(c, op.presented)
       case Nowhere => Abort
       case At(o, i) => if Usable(c.orgs[o].invites[i], op.now) then Continue(op, Using(o, i)) else Abort)
    case Using(o, i) =>
      // the row is re-read under its lock, and the increment is refused if it no longer qualifies
      if Presents(c, op.presented, o, i) && Usable(c.orgs[o].invites[i], op.now)
         && c.orgs[o].invites[i].kind.ForOrganization?
      then Continue(op, NewPerson(o, i)) else Abort
    case NewPerson(o, i) =>
      if op.actor in c.actors || EmailTaken(c, op.email) then Abort else Continue(op, Joining(o, i))
    case Joining(o, i) => Continue(op, Welcoming(o, i))
    case Welcoming(o, i) =>
      if o in c.orgs && i in c.orgs[o].invites then
        Commit(PutOrg(WithPerson(c, op.actor, op.email, op.passwordHash, op.name), o,
                      Joined(c.orgs[o], i, op.actor)))
      else Abort
    case _ => Abort
  }

  ghost function AdvanceSignIn(c: Db, op: Op, phase: Phase): Outcome
    requires op.SignIn?
  {
    match phase
    case Start =>
      (match PersonAt(c, op.email)
       case None => Abort
       case Some(a) => if op.verified then Continue(op, PasswordAccepted(a)) else Abort)
    case PasswordAccepted(a) =>
      if a in c.actors && !c.actors[a].departed then Continue(op, Rereading(a)) else Abort
    case Rereading(a) => if a in c.users then Continue(op, Present(a)) else Abort
    case Present(a) =>
      if op.token.None? || op.token.value in c.sessions then Abort
      else Commit(c.(sessions := c.sessions[op.token.value := Session(a, op.expires)]))
    case _ => Abort
  }

  /** active_owners as the departing actor can read it. */
  function VisibleOwners(c: Db, a: ActorId, o: OrgId): set<ActorId> {
    if ActiveIn(c, a, o) then ActiveOwners(c.orgs[o]) else {}
  }

  function AdvanceLeave(c: Db, op: Op, phase: Phase): Outcome
    requires op.LeaveService?
  {
    var a := op.actor;
    match phase
    case Start => if a in c.actors && !c.actors[a].departed then Continue(op, Scan) else Abort
    case Scan => Continue(op, OrgLocks(Sorted(ActiveOrgs(c, a)), ActiveOrgs(c, a)))
    case OrgLocks(orgs, all) =>
      if orgs == [] then Continue(op, Checks(Sorted(all), all)) else Continue(op, OrgLocks(orgs[1..], all))
    case Checks(orgs, all) =>
      if orgs == [] then Continue(op, Memberships(all))
      else if CheckOwnerChange(VisibleOwners(c, a, orgs[0]), OwnerChange.Leave(a)) then
        Continue(op, Checks(orgs[1..], all))
      else Abort
    case Memberships(all) =>
      Continue(op, ListedOrgs(all, map o | o in c.orgs && a in c.orgs[o].members :: c.orgs[o].members[a].status))
    case ListedOrgs(all, statuses) =>
      Continue(op, Sweep(Sorted(statuses.Keys),
                         Gathered(all, statuses, set o | o in c.orgs && ListedIn(c.orgs[o], a) != {}, map[], map[])))
    case Sweep(orgs, got) =>
      if orgs == [] then Continue(op, Listings(Sorted(got.listed), got))
      else if orgs[0] in c.orgs then
        Continue(op, SweepAudit(orgs, got.(teams := got.teams[orgs[0] := TeamsOf(c.orgs[orgs[0]], a)])))
      else Abort
    case SweepAudit(orgs, got) => if orgs == [] then Abort else Continue(op, Sweep(orgs[1..], got))
    case Listings(orgs, got) =>
      if orgs == [] then Continue(op, Finish(got))
      else if orgs[0] in c.orgs then Continue(op, ListingAudit(orgs, ListedIn(c.orgs[orgs[0]], a), got))
      else Abort
    case ListingAudit(orgs, found, got) =>
      if orgs == [] then Abort
      else Continue(op, Listings(orgs[1..], got.(channels := got.channels[orgs[0] := found])))
    case Finish(got) => if a in c.actors then Commit(Gone(c, a, got)) else Abort
    case _ => Abort
  }

  /** The tables once a departure's deletes, updates and audit records are committed. */
  function Gone(c: Db, a: ActorId, got: Gathered): Db
    requires a in c.actors
  {
    Db(c.actors[a := c.actors[a].(name := None, departed := true)],
       c.users - {a},
       map k | k in c.sessions && c.sessions[k].actor != a :: c.sessions[k],
       map o | o in c.orgs :: GoneFrom(c.orgs[o], a, o, got))
  }

  function GoneFrom(org: Org, a: ActorId, o: OrgId, got: Gathered): Org {
    var teams := if o in got.teams then got.teams[o] else {};
    var channels := if o in got.channels then got.channels[o] else {};
    var leaves := o in got.statuses && !got.statuses[o].Left?;
    org.(members := if o in got.statuses && a in org.members then
                      org.members[a := org.members[a].(status := Left, name := None)]
                    else org.members,
         teamMembers := WithoutTeams(org.teamMembers, a, teams),
         listings := WithoutListings(org.listings, a, channels),
         audit := org.audit + DepartureRecords(a, teams, leaves, channels))
  }

  // ---- the system ----

  datatype Sys = Sys(db: Db, txns: map<nat, Txn>)

  datatype Step = Begin(id: nat, op: Op) | Run(id: nat) | Crash(id: nat)

  /** The locks the next statement takes: what it waits for, and the rows a DELETE finds as it runs. */
  function Taken(c: Db, t: Txn): set<Hold> {
    Request(t) + RowsFound(c, t)
  }

  /** DELETE FROM team_members ... RETURNING locks exactly the rows it finds. */
  function RowsFound(c: Db, t: Txn): set<Hold> {
    if t.op.LeaveService? && t.phase.Sweep? && t.phase.orgs != [] && t.phase.orgs[0] in c.orgs then
      set team | team in TeamsOf(c.orgs[t.phase.orgs[0]], t.op.actor) ::
        Hold(TeamRow(t.phase.orgs[0], team, t.op.actor), Update)
    else {}
  }

  predicate Grantable(s: Sys, id: nat)
    requires id in s.txns
  {
    forall other :: other in s.txns && other != id ==>
      Compatible(Taken(s.db, s.txns[id]), s.txns[other].held)
  }

  predicate Enabled(s: Sys, step: Step) {
    match step
    case Begin(id, _) => id !in s.txns
    case Run(id) => id in s.txns && Grantable(s, id)
    case Crash(id) => id in s.txns
  }

  ghost function Do(s: Sys, step: Step): Sys
    requires Enabled(s, step)
  {
    match step
    case Begin(id, op) => s.(txns := s.txns[id := Txn(op, Start, {})])
    case Crash(id) => s.(txns := s.txns - {id})
    case Run(id) =>
      var t := s.txns[id];
      match Advance(s.db, t)
      case Continue(op, phase) => s.(txns := s.txns[id := Txn(op, phase, t.held + Taken(s.db, t))])
      case Commit(db) => Sys(db, s.txns - {id})
      case Abort => s.(txns := s.txns - {id})
  }
}
