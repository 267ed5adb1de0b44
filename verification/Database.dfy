/** The operations as the application runs them, statement by statement, against tables that refuse what their
    policies do not admit. */
module Database {
  import opened Domain
  import opened Store
  import opened Operations
  import opened Integrity
  import opened Policies
  import opened Departure

  class Connection {
    // the tables
    var actors: map<ActorId, Actor>
    var users: map<ActorId, User>
    var sessions: map<TokenHash, Session>
    var orgs: map<OrgId, Org>
    // the transaction
    var cx: Context
    var now: Time
    var written: set<(OrgId, InviteId)>
    var begun: Db

    constructor ()
      ensures State() == EMPTY
    {
      actors, users, sessions, orgs := map[], map[], map[], map[];
      cx, now, written, begun := Context(None, None, None), 0, {}, Db(map[], map[], map[], map[]);
    }

    function State(): Db
      reads this
    {
      Db(actors, users, sessions, orgs)
    }

    method Restore(db: Db)
      modifies `actors, `users, `sessions, `orgs
      ensures State() == db
    {
      actors, users, sessions, orgs := db.actors, db.users, db.sessions, db.orgs;
    }

    method Begin(context: Context, at: Time)
      modifies `cx, `now, `written, `begun
      ensures cx == context && now == at && written == {} && begun == State()
    {
      cx, now, written, begun := context, at, {}, State();
    }

    /** A statement that fails leaves the tables to the rollback that follows. */
    method Do(s: Statement) returns (error: Option<Error>)
      modifies `actors, `users, `sessions, `orgs, `written
      ensures match Run(old(State()), cx, old(written), now, s)
              case Ran(db) => error == None && State() == db && written == Writes(old(written), s)
              case Failed(e) => error == Some(e) && State() == old(State()) && written == old(written)
    {
      match Run(State(), cx, written, now, s) {
        case Ran(db) =>
          Restore(db);
          written := Writes(written, s);
          error := None;
        case Failed(e) => error := Some(e);
      }
    }

    /** End the transaction: keep what it wrote if nothing failed, restore the tables otherwise. */
    method End(error: Option<Error>) returns (reply: Reply)
      modifies `actors, `users, `sessions, `orgs
      ensures error.None? ==> reply == Done && State() == old(State())
      ensures error.Some? ==> reply == Refused(error.value) && State() == begun
    {
      if error.Some? {
        Restore(begun);
        return Refused(error.value);
      }
      reply := Done;
    }

    // ---- reads, through the select policies ----

    /** lock_actor run alone: whether the actor departed, if the performer sees it. */
    function LockActor(a: ActorId): Option<bool>
      reads this
    {
      if a in actors && SeesActor(State(), cx, a) then Some(actors[a].departed) else None
    }

    /** lock_organization: the row is there for the actors active in it. */
    function LockOrganization(o: OrgId): (found: bool)
      reads this
    {
      ActsIn(State(), cx, o)
    }

    function MemberRow(o: OrgId, a: ActorId): Option<Membership>
      reads this
    {
      if HasMember(State(), o, a) && SeesMember(State(), cx, o, a) then Some(orgs[o].members[a]) else None
    }

    function OwnersOf(o: OrgId): set<ActorId>
      reads this
    {
      if o in orgs && ActsIn(State(), cx, o) then ActiveOwners(orgs[o]) else {}
    }

    /** A write in an organization the performer acts in, and the record of it, in one transaction. */
    method WriteAndRecord(s: Statement, r: Record) returns (reply: Reply)
      requires WritesTenantRow(s) && cx.actor == Some(r.performer) && ActsIn(State(), cx, s.org) && begun == State()
      modifies `actors, `users, `sessions, `orgs, `written
      ensures match Run(old(State()), cx, old(written), now, s)
              case Ran(db) =>
                reply == Done && s.org in db.orgs
                && State() == PutOrg(db, s.org, Logged(db.orgs[s.org], r.performer, Some(r.event)))
              case Failed(e) => reply == Refused(e) && State() == old(State())
    {
      StillActs(State(), cx, written, now, s);
      var error := Do(s);
      if error.None? {
        ActiveRecords(State(), cx, written, now, s.org, r);
        error := Do(InsertRecord(s.org, r));
      }
      reply := End(error);
    }

    /** A change of a membership, and the record of it. A performer who ended its own activity may record nothing. */
    method UpdateAndRecord(o: OrgId, a: ActorId, row: Membership, r: Record) returns (reply: Reply)
      requires cx.actor == Some(r.performer) && ActsIn(State(), cx, o) && HasMember(State(), o, a) && begun == State()
      requires r.event.MemberRoleChanged? || r.event.MemberSuspended? || r.event.MemberReactivated?
      modifies `actors, `users, `sessions, `orgs, `written
      ensures if r.performer == a && !row.status.Active? then reply == Refused(Database) && State() == old(State())
              else
                var org := old(orgs)[o].(members := old(orgs)[o].members[a := row]);
                reply == Done && State() == PutOrg(old(State()), o, Logged(org, r.performer, Some(r.event)))
    {
      var error := Do(UpdateMember(o, a, row));
      assert ActsIn(State(), cx, o) <==> !(r.performer == a && !row.status.Active?);
      if error.None? { error := Do(InsertRecord(o, r)); }
      reply := End(error);
    }

    // ---- membership.rs ----

    method ChangeMemberRole(performer: ActorId, o: OrgId, a: ActorId, role: OrganizationRole) returns (reply: Reply)
      modifies this
      ensures Result(reply, State()) == ApplyInOrg(old(State()), InOrg(performer, o, ChangeRole(a, role), false))
    {
      Begin(Context(Some(performer), None, None), 0);
      if !LockOrganization(o) { return Refused(NotFound); }
      var row := MemberRow(o, a);
      if row.None? || row.value.status.Left? { return Refused(NotFound); }
      var from := row.value.role;
      if from == role { return Done; }
      if row.value.status.Active? && from.Owner? && !role.Owner? && !CheckOwnerChange(OwnersOf(o), Demote(a)) {
        return Refused(LastOwner);
      }
      reply := UpdateAndRecord(o, a, row.value.(role := role), Record(performer, MemberRoleChanged(a, from, role)));
    }

    method SuspendMember(performer: ActorId, o: OrgId, a: ActorId) returns (reply: Reply)
      modifies this
      ensures Result(reply, State()) == ApplyInOrg(old(State()), InOrg(performer, o, Change.SuspendMember(a), false))
    {
      Begin(Context(Some(performer), None, None), 0);
      if !LockOrganization(o) { return Refused(NotFound); }
      var row := MemberRow(o, a);
      if row.None? { return Refused(NotFound); }
      if !row.value.status.Active? { return Refused(NotActive); }
      if row.value.role.Owner? && !CheckOwnerChange(OwnersOf(o), OwnerChange.Suspend(a)) { return Refused(LastOwner); }
      reply := UpdateAndRecord(o, a, row.value.(status := Suspended), Record(performer, MemberSuspended(a)));
    }

    method ReactivateMember(performer: ActorId, o: OrgId, a: ActorId) returns (reply: Reply)
      modifies this
      ensures Result(reply, State()) == ApplyInOrg(old(State()), Seeing(old(State()), performer, o,
                                                                        Change.ReactivateMember(a)))
    {
      Begin(Context(Some(performer), None, None), 0);
      var departed := LockActor(a);
      if !LockOrganization(o) { return Refused(NotFound); }
      var row := MemberRow(o, a);
      if row.None? { return Refused(NotFound); }
      if departed == Some(true) { return Refused(ActorDeparted); }
      if !row.value.status.Suspended? { return Refused(NotSuspended); }
      reply := UpdateAndRecord(o, a, row.value.(status := Active), Record(performer, MemberReactivated(a)));
    }

    // ---- teams.rs ----

    method CreateTeam(performer: ActorId, o: OrgId, t: TeamId) returns (reply: Reply)
      modifies this
      ensures Result(reply, State()) == ApplyInOrg(old(State()), InOrg(performer, o, Change.CreateTeam(t), false))
    {
      Begin(Context(Some(performer), None, None), 0);
      if !LockOrganization(o) { return Refused(NotFound); }
      reply := WriteAndRecord(InsertTeam(o, t), Record(performer, TeamCreated(t)));
    }

    method AddTeamMember(performer: ActorId, o: OrgId, t: TeamId, a: ActorId, role: TeamRole) returns (reply: Reply)
      modifies this
      ensures Result(reply, State()) == ApplyInOrg(old(State()), Seeing(old(State()), performer, o,
                                                                        Change.AddTeamMember(t, a, role)))
    {
      Begin(Context(Some(performer), None, None), 0);
      var departed := LockActor(a);
      if !LockOrganization(o) { return Refused(NotFound); }
      var member := MemberRow(o, a);
      if t !in orgs[o].teams { return Refused(NotFound); }
      if member.None? { return Refused(NotFound); }
      if departed == Some(true) { return Refused(ActorDeparted); }
      if !member.value.status.Active? { return Refused(NotAnActiveMember); }
      assert Decide(orgs[o], ActiveOwners(orgs[o]), departed, performer, Change.AddTeamMember(t, a, role))
             == Proceed(PutTeamMember(t, a, role), Some(TeamMemberAdded(a, t, role)));
      reply := WriteAndRecord(InsertTeamMember(o, t, a, role), Record(performer, TeamMemberAdded(a, t, role)));
    }

    method ChangeTeamMemberRole(performer: ActorId, o: OrgId, t: TeamId, a: ActorId, role: TeamRole)
      returns (reply: Reply)
      modifies this
      ensures Result(reply, State()) == ApplyInOrg(old(State()), InOrg(performer, o, ChangeTeamRole(t, a, role), false))
    {
      Begin(Context(Some(performer), None, None), 0);
      if !LockOrganization(o) { return Refused(NotFound); }
      if (t, a) !in orgs[o].teamMembers { return Refused(NotFound); }
      var from := orgs[o].teamMembers[(t, a)];
      if from == role { return Done; }
      var r := Record(performer, TeamMemberRoleChanged(a, t, from, role));
      reply := WriteAndRecord(UpdateTeamRole(o, t, a, role), r);
    }

    method RemoveTeamMember(performer: ActorId, o: OrgId, t: TeamId, a: ActorId) returns (reply: Reply)
      modifies this
      ensures Result(reply, State())
              == ApplyInOrg(old(State()), InOrg(performer, o, Change.RemoveTeamMember(t, a), false))
    {
      Begin(Context(Some(performer), None, None), 0);
      if !LockOrganization(o) { return Refused(NotFound); }
      // the DELETE affects no row
      if (t, a) !in orgs[o].teamMembers { return Refused(NotFound); }
      reply := WriteAndRecord(DeleteTeamMember(o, t, a), Record(performer, TeamMemberRemoved(a, t, Removed)));
    }

    // ---- channels.rs ----

    method CreateChannel(performer: ActorId, o: OrgId, c: ChannelId, scope: ChannelScope, name: string)
      returns (reply: Reply)
      modifies this
      ensures Result(reply, State())
              == ApplyInOrg(old(State()), InOrg(performer, o, Change.CreateChannel(c, scope, name), false))
    {
      Begin(Context(Some(performer), None, None), 0);
      if !LockOrganization(o) { return Refused(NotFound); }
      if scope.OfTeam? && scope.team !in orgs[o].teams { return Refused(NotFound); }
      reply := WriteAndRecord(InsertChannel(o, c, Channel(scope, name)), Record(performer, ChannelCreated(c, scope)));
    }

    method AddChannelMember(performer: ActorId, o: OrgId, c: ChannelId, a: ActorId) returns (reply: Reply)
      modifies this
      ensures Result(reply, State()) == ApplyInOrg(old(State()), Seeing(old(State()), performer, o,
                                                                        Change.AddChannelMember(c, a)))
    {
      Begin(Context(Some(performer), None, None), 0);
      var departed := LockActor(a);
      if !LockOrganization(o) { return Refused(NotFound); }
      if c !in orgs[o].channels { return Refused(NotFound); }
      if orgs[o].channels[c].scope.OrganizationWide? { return Refused(OrganizationScoped); }
      if departed.None? { return Refused(NotFound); }
      if departed.value { return Refused(ActorDeparted); }
      assert Decide(orgs[o], ActiveOwners(orgs[o]), departed, performer, Change.AddChannelMember(c, a))
             == Proceed(PutListing(c, a), Some(ChannelMemberAdded(a, c)));
      reply := WriteAndRecord(InsertListing(o, c, a), Record(performer, ChannelMemberAdded(a, c)));
    }

    // ---- authorization.rs and invites.rs ----

    /** authorize: None when allowed. */
    function Authorize(a: ActorId, o: OrgId): Option<Error>
      reads this
    {
      var row := MemberRow(o, a);
      if row.None? || !row.value.status.Active? then Some(NotAMember)
      else if Holds(row.value.role, InviteMember) then None
      else Some(Forbidden)
    }

    method CreateInvite(performer: ActorId, o: OrgId, i: InviteId, token: Option<TokenHash>, expires: Time,
                        maxUses: int) returns (reply: Reply)
      modifies this
      ensures Result(reply, State())
              == ApplyCreateInvite(old(State()), Op.CreateInvite(performer, o, i, token, expires, maxUses))
    {
      Begin(Context(Some(performer), None, None), 0);
      if !LockOrganization(o) { return Refused(NotAMember); }
      var refusal := Authorize(performer, o);
      if refusal.Some? { return Refused(refusal.value); }
      if token.None? { return Refused(TokenUnavailable); }
      var row := Invite(ForOrganization, token.value, expires, maxUses, 0, false);
      reply := WriteAndRecord(InsertInvite(o, i, row), Record(performer, InviteCreated(i, maxUses)));
    }

    method RevokeInvite(performer: ActorId, o: OrgId, revoked: Option<InviteId>) returns (reply: Reply)
      modifies this
      ensures Result(reply, State()) == ApplyRevokeInvite(old(State()), Op.RevokeInvite(performer, o, revoked))
    {
      Begin(Context(Some(performer), None, None), 0);
      if !LockOrganization(o) { return Refused(NotAMember); }
      var refusal := Authorize(performer, o);
      if refusal.Some? { return Refused(refusal.value); }
      if revoked.None? || revoked.value !in orgs[o].invites { return Refused(NotFound); }
      var i := revoked.value;
      var row := orgs[o].invites[i];
      if row.revoked { return Done; }
      reply := WriteAndRecord(UpdateInvite(o, i, row.(revoked := true)), Record(performer, InviteRevoked(i)));
    }

    /** create_person's inserts; the savepoint's rollback is part of the caller's. */
    method InsertPerson(a: ActorId, email: string, passwordHash: string, name: string) returns (error: Option<Error>)
      requires forall u :: u in users ==> u in actors
      modifies `actors, `users, `sessions, `orgs, `written, `cx
      ensures cx == old(cx).(actor := Some(a)) && written == old(written)
      ensures match ApplyCreatePerson(old(State()), a, email, passwordHash, name)
              case Result(Done, db) => error == None && State() == db
              case Result(Refused(e), _) => error == Some(e)
    {
      error := Do(InsertActor(a, name));
      cx := cx.(actor := Some(a));
      if error.None? { error := Do(InsertUser(a, User(email, passwordHash))); }
    }

    method CreatePerson(a: ActorId, email: string, passwordHash: string, name: string) returns (reply: Reply)
      requires Identities(State())
      modifies this
      ensures Result(reply, State()) == ApplyCreatePerson(old(State()), a, email, passwordHash, name)
    {
      Begin(Context(None, None, None), 0);
      var error := InsertPerson(a, email, passwordHash, name);
      reply := End(error);
    }

    /** The conditional increment of accept_invite: the invite it used, if one qualified. */
    method UseInvite(token: TokenHash) returns (used: Located)
      requires TokensUnique(State()) && cx.token == Some(token) && cx.actor.None?
      modifies `actors, `users, `sessions, `orgs, `written
      ensures used.Nowhere? ==> State() == old(State()) && InviteUnused(old(State()), token, now)
      ensures used.At? ==> Presents(old(State()), token, used.org, used.invite)
      ensures used.At? ==> Usable(old(orgs)[used.org].invites[used.invite], now)
      ensures used.At? ==> written == old(written) + {(used.org, used.invite)}
                           && State() == Counted(old(State()), used.org, used.invite)
    {
      if o, i :| o in orgs && i in orgs[o].invites && orgs[o].invites[i].token == token
                 && Usable(orgs[o].invites[i], now)
      {
        var row := orgs[o].invites[i];
        var error := Do(UpdateInvite(o, i, row.(used := row.used + 1)));
        assert Presents(old(State()), token, o, i);
        used := At(o, i);
      } else {
        forall o, i | Presents(State(), token, o, i) ensures !Usable(orgs[o].invites[i], now) {}
        used := Nowhere;
      }
    }

    /** The membership a used invite admits, and its record. */
    method Admit(o: OrgId, i: InviteId, a: ActorId) returns (error: Option<Error>)
      requires HasInvite(State(), o, i) && a in actors && a !in orgs[o].members && (o, i) in written
      requires InviteProves(orgs[o].invites[i], cx) && orgs[o].invites[i].expires > now && cx.actor == Some(a)
      modifies `actors, `users, `sessions, `orgs, `written
      ensures error == None && State() == Welcomed(old(State()), o, i, a)
    {
      assert InviteAdmits(State(), cx, o, written, now) by { assert SeesInvite(State(), cx, o, i); }
      error := Do(InsertMember(o, a, Membership(OrganizationRole.Member, Active, None)));
      assert ActsIn(State(), cx, o);
      if error.None? { error := Do(InsertRecord(o, Record(a, MemberInvited(a, i)))); }
    }

    /** The new person, its membership and its record, after the invite's use. */
    method Join(o: OrgId, i: InviteId, email: string, passwordHash: string, name: string, a: ActorId)
      returns (reply: Reply)
      requires HasInvite(begun, o, i) && State() == Counted(begun, o, i) && (o, i) in written
      requires cx == Context(None, Some(orgs[o].invites[i].token), None)
      requires InviteProves(orgs[o].invites[i], cx) && orgs[o].invites[i].expires > now
      requires (forall u :: u in users ==> u in actors) && (forall m :: m in orgs[o].members ==> m in actors)
      modifies `actors, `users, `sessions, `orgs, `written, `cx
      ensures match ApplyCreatePerson(begun, a, email, passwordHash, name)
              case Result(Done, next) =>
                reply == Done && State() == PutOrg(next, o, Joined(begun.orgs[o], i, a))
              case Result(Refused(e), _) => reply == Refused(e) && State() == begun
    {
      var error := InsertPerson(a, email, passwordHash, name);
      if error.None? {
        error := Admit(o, i, a);
        WelcomedIsJoined(begun, o, i, a, email, passwordHash, name);
      }
      reply := End(error);
    }

    method AcceptInvite(token: TokenHash, at: Time, email: string, passwordHash: string, name: string, a: ActorId)
      returns (reply: Reply)
      requires TokensUnique(State()) && Identities(State())
      requires forall o :: o in orgs ==> People(actors, orgs[o]) && InvitesSpent(orgs[o])
      modifies this
      ensures Result(reply, State())
              == ApplyAccept(old(State()), Op.AcceptInvite(token, at, email, passwordHash, name, a))
    {
      Begin(Context(None, Some(token), None), at);
      var used := UseInvite(token);
      if used.Nowhere? { return Refused(InviteUnusable); }
      var o, i := used.org, used.invite;
      assert Locate(old(State()), token) == used;
      if !orgs[o].invites[i].kind.ForOrganization? {
        reply := End(Some(InviteUnusable));
      } else {
        assert InviteSpent(begun.orgs[o], i);
        reply := Join(o, i, email, passwordHash, name, a);
      }
    }

    // ---- identity.rs ----

    /** The founder's membership and the organization's first records. */
    method Found(o: OrgId, a: ActorId) returns (error: Option<Error>)
      requires o in orgs && orgs[o].members == map[] && a in actors && cx.actor == Some(a)
      modifies `actors, `users, `sessions, `orgs, `written
      ensures error == None
      ensures State() == PutOrg(old(State()), o, old(orgs)[o].(
                members := map[a := Membership(OrganizationRole.Owner, Active, None)],
                audit := old(orgs)[o].audit + [Record(a, OrganizationCreated)]
                         + [Record(a, MemberAdded(a, OrganizationRole.Owner))]))
    {
      error := Do(InsertMember(o, a, Membership(OrganizationRole.Owner, Active, None)));
      assert ActsIn(State(), cx, o);
      if error.None? { error := Do(InsertRecord(o, Record(a, OrganizationCreated))); }
      if error.None? { error := Do(InsertRecord(o, Record(a, MemberAdded(a, OrganizationRole.Owner)))); }
    }

    method CreateOrganization(a: ActorId, o: OrgId, slug: string) returns (reply: Reply)
      modifies this
      ensures Result(reply, State()) == ApplyCreateOrganization(old(State()), Op.CreateOrganization(a, o, slug))
    {
      Begin(Context(Some(a), None, None), 0);
      var departed := LockActor(a);
      if departed.None? { return Refused(ActorNotFound); }
      if departed.value { return Refused(ActorDeparted); }
      var error := Do(InsertOrganization(o, slug));
      if error.None? {
        error := Found(o, a);
        assert orgs[o] == Founded(a, slug);
      }
      reply := End(error);
    }

    // ---- sessions.rs ----

    /** sign_in from lock_actor on: the actor and its user are read again before the session is inserted. */
    method OpenSession(a: ActorId, token: Option<TokenHash>, expires: Time) returns (reply: Reply)
      requires cx.actor == Some(a) && begun == State()
      modifies `actors, `users, `sessions, `orgs, `written
      ensures Result(reply, State()) ==
              if a !in old(actors) || old(actors)[a].departed || a !in old(users) then
                Result(Refused(InvalidCredentials), old(State()))
              else if token.None? then Result(Refused(TokenUnavailable), old(State()))
              else if token.value in old(sessions) then Result(Refused(Error.Database), old(State()))
              else Result(Done, old(State()).(sessions := old(sessions)[token.value := Session(a, expires)]))
    {
      if LockActor(a) != Some(false) || a !in users { return Refused(InvalidCredentials); }
      if token.None? { return Refused(TokenUnavailable); }
      var error := Do(InsertSession(token.value, Session(a, expires)));
      reply := End(error);
    }

    /** `verified` is the password check's answer. */
    method SignIn(email: string, verified: bool, token: Option<TokenHash>, expires: Time) returns (reply: Reply)
      requires Identities(State())
      modifies this
      ensures Result(reply, State()) == ApplySignIn(old(State()), Op.SignIn(email, verified, token, expires))
    {
      Begin(Context(None, None, Some(email)), 0);
      if a :| a in users && Lower(users[a].email) == Lower(email) {
        assert Registered(State(), email, a);
        if !verified { return Refused(InvalidCredentials); }
        cx := cx.(actor := Some(a));
        reply := OpenSession(a, token, expires);
      } else {
        forall a ensures !Registered(State(), email, a) {}
        return Refused(InvalidCredentials);
      }
    }

    // ---- leaving.rs ----

    /** leave_organization: every record is admitted, because the membership still stands. */
    method LeaveOrganization(o: OrgId, a: ActorId) returns (error: Option<Error>)
      requires cx.actor == Some(a) && HasMember(State(), o, a)
      modifies `actors, `users, `sessions, `orgs, `written
      ensures error == None && State() == PutOrg(old(State()), o, WithoutTeamRows(old(orgs)[o], a))
    {
      var removed := Sorted(TeamsOf(orgs[o], a));
      error := Do(DeleteTeamRows(o, a));
      if error.None? { error := RecordRemovals(o, a, removed); }
    }

    method RecordRemovals(o: OrgId, a: ActorId, removed: seq<TeamId>) returns (error: Option<Error>)
      requires cx.actor == Some(a) && HasMember(State(), o, a)
      modifies `actors, `users, `sessions, `orgs, `written
      ensures error == None
      ensures State() == PutOrg(old(State()), o, WithRecords(old(orgs)[o], TeamRemovals(a, removed)))
    {
      ghost var kept := orgs[o];
      error := None;
      assert TeamRemovals(a, removed[..0]) == [] && WithRecords(kept, []) == kept by {
        OneMoreRecord(kept, [], Record(a, MemberLeft(a)));
      }
      PutSame(State(), o);
      var k := 0;
      while k < |removed| && error.None?
        invariant k <= |removed| && error == None
        invariant State() == PutOrg(old(State()), o, WithRecords(kept, TeamRemovals(a, removed[..k])))
      {
        var r := Record(a, TeamMemberRemoved(a, removed[k], LeftService));
        error := Do(InsertRecord(o, r));
        OneMoreRecord(kept, TeamRemovals(a, removed[..k]), r);
        assert TeamRemovals(a, removed[..k + 1]) == TeamRemovals(a, removed[..k]) + [r];
        k := k + 1;
      }
      assert removed[..|removed|] == removed;
    }

    method SweepOne(o: OrgId, a: ActorId, status: MemberStatus) returns (error: Option<Error>)
      requires cx.actor == Some(a) && HasMember(State(), o, a) && status == orgs[o].members[a].status
      modifies `actors, `users, `sessions, `orgs, `written
      ensures error == None && State() == PutOrg(old(State()), o, Through(Sweeping, old(orgs)[o], a))
    {
      error := LeaveOrganization(o, a);
      OneMoreRecord(orgs[o], [], Record(a, MemberLeft(a)));
      if error.None? && !status.Left? { error := Do(InsertRecord(o, Record(a, MemberLeft(a)))); }
    }

    /** The loop over the actor's memberships: team rows, and one record unless the membership had already ended. */
    method SweepMemberships(a: ActorId, memberships: seq<OrgId>, statuses: map<OrgId, MemberStatus>)
      returns (error: Option<Error>)
      requires cx.actor == Some(a) && Ascending(memberships)
      requires forall o :: o in memberships ==>
                 HasMember(State(), o, a) && o in statuses && statuses[o] == orgs[o].members[a].status
      modifies `actors, `users, `sessions, `orgs, `written
      ensures error == None && State() == old(State()).(orgs := Over(old(orgs), a, Sweeping, memberships))
    {
      error := None;
      OverNone(orgs, a, Sweeping);
      assert memberships[..0] == [];
      var k := 0;
      while k < |memberships| && error.None?
        invariant k <= |memberships| && error == None
        invariant State() == old(State()).(orgs := Over(old(orgs), a, Sweeping, memberships[..k]))
      {
        var o := memberships[k];
        assert o in memberships && memberships[..k + 1] == memberships[..k] + [o];
        OverNext(old(orgs), a, Sweeping, memberships[..k], o);
        error := SweepOne(o, a, statuses[o]);
        k := k + 1;
      }
      assert memberships[..|memberships|] == memberships;
    }

    /** leave_channels: recorded before they are deleted, while the listing itself admits the record. */
    method LeaveChannels(o: OrgId, a: ActorId) returns (error: Option<Error>)
      requires cx.actor == Some(a) && o in orgs
      modifies `actors, `users, `sessions, `orgs, `written
      ensures error == None && State() == PutOrg(old(State()), o, Through(Unlisting, old(orgs)[o], a))
    {
      var listings := Sorted(ListedIn(orgs[o], a));
      error := RecordListings(o, a, listings);
      SameListings(orgs[o], old(orgs)[o], a);
      if error.None? { error := Do(DeleteListings(o, a)); }
    }

    method RecordListings(o: OrgId, a: ActorId, listings: seq<ChannelId>) returns (error: Option<Error>)
      requires cx.actor == Some(a) && o in orgs && forall c :: c in listings ==> (c, a) in orgs[o].listings
      modifies `actors, `users, `sessions, `orgs, `written
      ensures error == None
      ensures State() == PutOrg(old(State()), o, WithRecords(old(orgs)[o], ListingRemovals(a, listings)))
    {
      ghost var org := orgs[o];
      error := None;
      assert ListingRemovals(a, listings[..0]) == [] && WithRecords(org, []) == org by {
        OneMoreRecord(org, [], Record(a, MemberLeft(a)));
      }
      PutSame(State(), o);
      var k := 0;
      while k < |listings| && error.None?
        invariant k <= |listings| && error == None
        invariant State() == PutOrg(old(State()), o, WithRecords(org, ListingRemovals(a, listings[..k])))
      {
        var r := Record(a, ChannelMemberLeft(a, listings[k]));
        error := Do(InsertRecord(o, r));
        OneMoreRecord(org, ListingRemovals(a, listings[..k]), r);
        assert ListingRemovals(a, listings[..k + 1]) == ListingRemovals(a, listings[..k]) + [r];
        k := k + 1;
      }
      assert listings[..|listings|] == listings;
    }

    method UnlistChannels(a: ActorId, listed: seq<OrgId>) returns (error: Option<Error>)
      requires cx.actor == Some(a) && Ascending(listed) && forall o :: o in listed ==> o in orgs
      modifies `actors, `users, `sessions, `orgs, `written
      ensures error == None && State() == old(State()).(orgs := Over(old(orgs), a, Unlisting, listed))
    {
      error := None;
      OverNone(orgs, a, Unlisting);
      assert listed[..0] == [];
      var k := 0;
      while k < |listed| && error.None?
        invariant k <= |listed| && error == None
        invariant State() == old(State()).(orgs := Over(old(orgs), a, Unlisting, listed[..k]))
      {
        var o := listed[k];
        assert o in listed && listed[..k + 1] == listed[..k] + [o];
        OverNext(old(orgs), a, Unlisting, listed[..k], o);
        error := LeaveChannels(o, a);
        k := k + 1;
      }
      assert listed[..|listed|] == listed;
    }

    /** The memberships end last: the role trigger and the update policy let an actor end its own, active or not. */
    method EndMemberships(a: ActorId, memberships: seq<OrgId>) returns (error: Option<Error>)
      requires cx.actor == Some(a) && Ascending(memberships)
      requires forall o :: o in memberships ==> HasMember(State(), o, a)
      modifies `actors, `users, `sessions, `orgs, `written
      ensures error == None && State() == old(State()).(orgs := Over(old(orgs), a, Ending, memberships))
    {
      error := None;
      OverNone(orgs, a, Ending);
      assert memberships[..0] == [];
      var k := 0;
      while k < |memberships| && error.None?
        invariant k <= |memberships| && error == None
        invariant State() == old(State()).(orgs := Over(old(orgs), a, Ending, memberships[..k]))
      {
        var o := memberships[k];
        assert o in memberships && memberships[..k + 1] == memberships[..k] + [o];
        OverNext(old(orgs), a, Ending, memberships[..k], o);
        error := Do(UpdateMember(o, a, orgs[o].members[a].(status := Left, name := None)));
        k := k + 1;
      }
      assert memberships[..|memberships|] == memberships;
    }

    /** The three loops of leave_service. */
    method LeaveOrganizations(a: ActorId) returns (error: Option<Error>)
      requires cx.actor == Some(a) && forall o :: o in orgs ==> References(orgs[o])
      modifies `actors, `users, `sessions, `orgs, `written
      ensures error == None
      ensures State() == old(State()).(orgs := Vacated(old(orgs), a))
    {
      var memberships, listed := Sorted(MembershipsOf(orgs, a)), Sorted(ListingsOf(orgs, a));
      AllPasses(orgs, a, memberships, listed);
      error := RunPasses(a, memberships, listed);
    }

    method RunPasses(a: ActorId, memberships: seq<OrgId>, listed: seq<OrgId>) returns (error: Option<Error>)
      requires cx.actor == Some(a) && Ascending(memberships) && Ascending(listed)
      requires (forall o :: o in memberships ==> HasMember(State(), o, a)) && forall o :: o in listed ==> o in orgs
      modifies `actors, `users, `sessions, `orgs, `written
      ensures error == None
      ensures State() == old(State()).(orgs := AllThree(old(orgs), a, memberships, listed))
    {
      var statuses := map o | o in memberships :: orgs[o].members[a].status;
      OverKeepsMembers(orgs, a, Sweeping, memberships);
      error := SweepMemberships(a, memberships, statuses);
      OverKeepsMembers(orgs, a, Unlisting, listed);
      if error.None? { error := UnlistChannels(a, listed); }
      if error.None? { error := EndMemberships(a, memberships); }
    }

    /** Everything a departure writes once it has passed the owner rule: no statement of it is refused. */
    method Depart(a: ActorId) returns (error: Option<Error>)
      requires cx.actor == Some(a) && a in actors && forall o :: o in orgs ==> References(orgs[o])
      modifies `actors, `users, `sessions, `orgs, `written
      ensures error == None && State() == Leaving(old(State()), a)
    {
      error := LeaveOrganizations(a);
      if error.None? { error := Do(DeleteUser(a)); }
      if error.None? { error := Do(EraseActor(a)); }
    }

    method LeaveService(a: ActorId) returns (reply: Reply)
      requires forall o :: o in orgs ==> References(orgs[o])
      modifies this
      ensures Result(reply, State()) == ApplyLeave(old(State()), a)
    {
      Begin(Context(Some(a), None, None), 0);
      if a !in actors || actors[a].departed { return Refused(NotFound); }
      var organizations := Sorted(ActiveOrgs(State(), a));
      var k := 0;
      while k < |organizations|
        invariant k <= |organizations| && State() == begun == old(State()) && cx.actor == Some(a)
        invariant forall j :: 0 <= j < k ==> organizations[j] in orgs && OwnersRemain(State(), a, organizations[j])
      {
        var o := organizations[k];
        assert o in organizations && ActiveIn(State(), a, o);
        if !CheckOwnerChange(OwnersOf(o), OwnerChange.Leave(a)) {
          FirstAbandoned(State(), a, organizations, k);
          return Refused(LastOwnerOf(o));
        }
        k := k + 1;
      }
      NoneAbandoned(State(), a, organizations);
      var error := Depart(a);
      reply := End(error);
    }
  }

  /** An operation that locks its target, as it starts when run alone. */
  function Seeing(db: Db, performer: ActorId, o: OrgId, change: Change): Op
    requires change.LocksTarget()
  {
    InOrg(performer, o, change, Sees(db, performer, change.target))
  }

  /** No invite with this token can be used. */
  ghost predicate InviteUnused(db: Db, token: TokenHash, now: Time) {
    forall o, i :: Presents(db, token, o, i) ==> !Usable(db.orgs[o].invites[i], now)
  }

  /** The tables with one more use counted. */
  function Counted(db: Db, o: OrgId, i: InviteId): Db
    requires o in db.orgs && i in db.orgs[o].invites
  {
    var row := db.orgs[o].invites[i];
    PutOrg(db, o, db.orgs[o].(invites := db.orgs[o].invites[i := row.(used := row.used + 1)]))
  }

  predicate HasInvite(db: Db, o: OrgId, i: InviteId) {
    o in db.orgs && i in db.orgs[o].invites
  }

  /** The tables with the member the invite's use admits. */
  function Welcomed(db: Db, o: OrgId, i: InviteId, a: ActorId): Db
    requires o in db.orgs
  {
    var org := db.orgs[o];
    PutOrg(db, o, Logged(org.(members := org.members[a := Membership(OrganizationRole.Member, Active, None)]), a,
                         Some(MemberInvited(a, i))))
  }

  lemma WelcomedIsJoined(db: Db, o: OrgId, i: InviteId, a: ActorId, email: string, passwordHash: string, name: string)
    requires HasInvite(db, o, i)
    ensures Welcomed(WithPerson(Counted(db, o, i), a, email, passwordHash, name), o, i, a)
            == PutOrg(WithPerson(db, a, email, passwordHash, name), o, Joined(db.orgs[o], i, a))
  {}
}
