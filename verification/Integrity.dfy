/** The invariants every operation keeps, and what they say about whole runs of operations. */
module Integrity {
  import opened Domain
  import opened Store
  import opened Operations

  // ---- the invariant ----

  ghost predicate Owned(org: Org) {
    exists a :: ActiveOwner(org, a)
  }

  /** The composite foreign keys inside one organization. */
  ghost predicate References(org: Org) {
    && (forall k :: k in org.teamMembers ==> k.0 in org.teams && k.1 in org.members)
    && (forall k :: k in org.listings ==> k.0 in org.channels && org.channels[k.0].scope.OfTeam?)
    && (forall c :: c in org.channels && org.channels[c].scope.OfTeam? ==> org.channels[c].scope.team in org.teams)
  }

  /** The actors whose membership the audit log credits to invite `i`. */
  ghost function Admitted(audit: seq<Record>, i: InviteId): set<ActorId> {
    if audit == [] then {}
    else
      var last := audit[|audit| - 1].event;
      Admitted(audit[..|audit| - 1], i)
      + if last.MemberInvited? && last.invite == i then {last.actor} else {}
  }

  ghost predicate InviteSpent(org: Org, i: InviteId) {
    && Admitted(org.audit, i) <= org.members.Keys
    && if i in org.invites then
         0 <= org.invites[i].used <= org.invites[i].maxUses && |Admitted(org.audit, i)| == org.invites[i].used
       else Admitted(org.audit, i) == {}
  }

  ghost predicate InvitesSpent(org: Org) {
    forall i :: InviteSpent(org, i)
  }

  /** Departed actors hold nothing here, and nobody else has left. */
  ghost predicate People(actors: map<ActorId, Actor>, org: Org) {
    && (forall a :: a in org.members ==>
          && a in actors
          && (actors[a].departed <==> org.members[a].status.Left?)
          && (org.members[a].status.Left? ==> org.members[a].name.None?))
    && (forall k :: k in org.teamMembers ==> k.1 in actors && !actors[k.1].departed)
    && (forall k :: k in org.listings ==> k.1 in actors && !actors[k.1].departed)
  }

  ghost predicate OrgOk(actors: map<ActorId, Actor>, org: Org) {
    References(org) && InvitesSpent(org) && People(actors, org)
  }

  ghost predicate Identities(db: Db) {
    && (forall a :: a in db.users ==> a in db.actors && !db.actors[a].departed)
    && (forall k :: k in db.sessions ==> db.sessions[k].actor in db.users)
    && (forall a, b :: a in db.users && b in db.users && Lower(db.users[a].email) == Lower(db.users[b].email)
          ==> a == b)
    && (forall a :: a in db.actors && db.actors[a].departed ==> db.actors[a].name.None?)
  }

  ghost predicate TokensUnique(db: Db) {
    forall t, o, i, p, j :: Presents(db, t, o, i) && Presents(db, t, p, j) ==> o == p && i == j
  }

  /** Everything the tables keep whatever their callers do. */
  ghost predicate Sound(db: Db) {
    && (forall o :: o in db.orgs ==> OrgOk(db.actors, db.orgs[o]))
    && Identities(db)
    && TokensUnique(db)
  }

  ghost predicate AllOwned(db: Db) {
    forall o :: o in db.orgs ==> Owned(db.orgs[o])
  }

  ghost predicate Ok(db: Db) {
    Sound(db) && AllOwned(db)
  }

  // ---- changes inside one organization ----

  ghost predicate NoAdmission(event: Option<Event>) {
    event.Some? ==> !event.value.MemberInvited?
  }

  lemma AdmittedAppend(audit: seq<Record>, r: Record, i: InviteId)
    ensures Admitted(audit + [r], i) ==
            Admitted(audit, i) + if r.event.MemberInvited? && r.event.invite == i then {r.event.actor} else {}
  {
    assert (audit + [r])[..|audit|] == audit;
  }

  lemma LoggedSpent(org: Org, performer: ActorId, event: Option<Event>, i: InviteId)
    requires InviteSpent(org, i) && NoAdmission(event)
    ensures InviteSpent(Logged(org, performer, event), i)
  {
    if event.Some? { AdmittedAppend(org.audit, Record(performer, event.value), i); }
  }

  /** Replacing one organization, with invites untouched, keeps the database sound. */
  lemma PutOrgSound(db: Db, o: OrgId, org: Org)
    requires Sound(db) && o in db.orgs && OrgOk(db.actors, org)
    requires org.invites.Keys == db.orgs[o].invites.Keys
    requires forall i :: i in org.invites ==> org.invites[i].token == db.orgs[o].invites[i].token
    ensures Sound(PutOrg(db, o, org))
  {
    var next := PutOrg(db, o, org);
    forall t, p, i | Presents(next, t, p, i) ensures Presents(db, t, p, i) {}
  }

  /** What the operations establish before they write. */
  ghost predicate Safe(actors: map<ActorId, Actor>, org: Org, write: Write) {
    match write
    case Keep => true
    case SetRole(a, role) =>
      a in org.members && !org.members[a].status.Left? && (role.Owner? || OthersOwn(org, a))
    case SetStatus(a, status) =>
      a in org.members && !org.members[a].status.Left? && !status.Left? && (status.Active? || OthersOwn(org, a))
    case PutTeam(t) => true
    case PutTeamMember(t, a, _) => t in org.teams && a in org.members && !org.members[a].status.Left?
    case DropTeamMember(t, a) => true
    case PutChannel(c, row) => c !in org.channels && (row.scope.OfTeam? ==> row.scope.team in org.teams)
    case PutListing(c, a) =>
      c in org.channels && org.channels[c].scope.OfTeam? && a in actors && !actors[a].departed
  }

  /** Either `a` is not an active owner, or somebody else is. */
  ghost predicate OthersOwn(org: Org, a: ActorId) {
    ActiveOwner(org, a) ==> exists b :: b != a && ActiveOwner(org, b)
  }

  lemma DecideSafe(db: Db, op: Op, org: Org, d: Decision)
    requires op.InOrg? && References(org) && People(db.actors, org)
    requires d == Decide(org, ActiveOwners(org), Departed(db, op), op.performer, op.change)
    requires d.Proceed? && Violation(org, op.change).None?
    ensures Safe(db.actors, org, d.write) && NoAdmission(d.event)
  {
    match op.change
    case ChangeRole(a, role) =>
      if ActiveOwner(org, a) && !role.Owner? { var b :| b in ActiveOwners(org) && b != a; }
    case SuspendMember(a) =>
      if ActiveOwner(org, a) { var b :| b in ActiveOwners(org) && b != a; }
    case ReactivateMember(a) =>
    case CreateTeam(t) =>
    case AddTeamMember(t, a, _) =>
    case ChangeTeamRole(t, a, _) =>
    case RemoveTeamMember(t, a) =>
    case CreateChannel(c, _, _) =>
    case AddChannelMember(c, a) =>
  }

  lemma PerformOwned(actors: map<ActorId, Actor>, org: Org, write: Write)
    requires Owned(org) && Safe(actors, org, write)
    ensures Owned(Perform(org, write))
  {
    var b :| ActiveOwner(org, b);
    var c: ActorId := b;
    if (write.SetRole? || write.SetStatus?) && write.actor == b {
      if !(write == SetStatus(b, Active) || write == SetRole(b, OrganizationRole.Owner)) {
        c :| c != b && ActiveOwner(org, c);
      }
    }
    assert ActiveOwner(Perform(org, write), c);
  }

  lemma PerformRest(actors: map<ActorId, Actor>, org: Org, write: Write)
    requires References(org) && People(actors, org) && Safe(actors, org, write)
    ensures References(Perform(org, write)) && People(actors, Perform(org, write))
    ensures Perform(org, write).invites == org.invites && Perform(org, write).audit == org.audit
    ensures org.members.Keys <= Perform(org, write).members.Keys
  {
    match write
    case Keep =>
    case SetRole(a, role) =>
    case SetStatus(a, status) =>
    case PutTeam(t) =>
    case PutTeamMember(t, a, _) =>
    case DropTeamMember(t, a) =>
    case PutChannel(c, row) =>
    case PutListing(c, a) =>
  }

  lemma PerformOk(actors: map<ActorId, Actor>, org: Org, write: Write, performer: ActorId, event: Option<Event>)
    requires OrgOk(actors, org) && Safe(actors, org, write) && NoAdmission(event)
    ensures OrgOk(actors, Logged(Perform(org, write), performer, event))
    ensures Logged(Perform(org, write), performer, event).invites == org.invites
  {
    PerformRest(actors, org, write);
    var done := Perform(org, write);
    forall i ensures InviteSpent(Logged(done, performer, event), i) {
      assert InviteSpent(org, i);
      LoggedSpent(done, performer, event, i);
    }
  }

  lemma InOrgSound(db: Db, op: Op)
    requires Sound(db) && op.InOrg?
    ensures Sound(ApplyInOrg(db, op).db)
  {
    if ApplyInOrg(db, op).reply.Done? {
      var org := db.orgs[op.org];
      var d := Decide(org, ActiveOwners(org), Departed(db, op), op.performer, op.change);
      DecideSafe(db, op, org, d);
      PerformOk(db.actors, org, d.write, op.performer, d.event);
      PutOrgSound(db, op.org, Logged(Perform(org, d.write), op.performer, d.event));
    }
  }

  lemma LoggedOwned(org: Org, performer: ActorId, event: Option<Event>)
    requires Owned(org)
    ensures Owned(Logged(org, performer, event))
  {
    var a :| ActiveOwner(org, a);
    assert ActiveOwner(Logged(org, performer, event), a);
  }

  lemma PutOwned(db: Db, o: OrgId, org: Org)
    requires AllOwned(db) && Owned(org)
    ensures AllOwned(PutOrg(db, o, org))
  {}

  lemma InOrgOwned(db: Db, op: Op)
    requires Ok(db) && op.InOrg?
    ensures AllOwned(ApplyInOrg(db, op).db)
  {
    if ApplyInOrg(db, op).reply.Done? {
      var org := db.orgs[op.org];
      var d := Decide(org, ActiveOwners(org), Departed(db, op), op.performer, op.change);
      DecideSafe(db, op, org, d);
      PerformOwned(db.actors, org, d.write);
      LoggedOwned(Perform(org, d.write), op.performer, d.event);
      PutOwned(db, op.org, Logged(Perform(org, d.write), op.performer, d.event));
    }
  }

  // ---- invites ----

  lemma CreateInviteSound(db: Db, op: Op)
    requires Sound(db) && op.CreateInvite?
    ensures Sound(ApplyCreateInvite(db, op).db)
  {
    if ApplyCreateInvite(db, op).reply.Done? {
      var org := db.orgs[op.org];
      var row := Invite(ForOrganization, op.token.value, op.expires, op.maxUses, 0, false);
      var kept := org.(invites := org.invites[op.invite := row]);
      var next := Logged(kept, op.performer, Some(InviteCreated(op.invite, op.maxUses)));
      forall i ensures InviteSpent(next, i) {
        assert InviteSpent(org, i);
        LoggedSpent(kept, op.performer, Some(InviteCreated(op.invite, op.maxUses)), i);
      }
      assert References(next) && People(db.actors, next);
      PutInviteTokens(db, op.org, op.invite, next);
    }
  }

  lemma PutInviteTokens(db: Db, o: OrgId, i: InviteId, org: Org)
    requires TokensUnique(db) && o in db.orgs && i in org.invites && i !in db.orgs[o].invites
    requires org.invites == db.orgs[o].invites[i := org.invites[i]]
    requires !InviteTokenTaken(db, org.invites[i].token)
    ensures TokensUnique(PutOrg(db, o, org))
  {
    var next := PutOrg(db, o, org);
    forall t, p, j | Presents(next, t, p, j) && !(p == o && j == i) ensures Presents(db, t, p, j) {}
    forall p, j ensures !Presents(db, org.invites[i].token, p, j) {}
  }

  lemma RevokeInviteSound(db: Db, op: Op)
    requires Sound(db) && op.RevokeInvite?
    ensures Sound(ApplyRevokeInvite(db, op).db)
  {
    var r := ApplyRevokeInvite(db, op);
    if r.reply.Done? && r.db != db {
      var org := db.orgs[op.org];
      var revoked := Revoke(org, op.revoked.value);
      var next := Logged(revoked, op.performer, Some(InviteRevoked(op.revoked.value)));
      forall i ensures InviteSpent(next, i) {
        assert InviteSpent(org, i);
        LoggedSpent(revoked, op.performer, Some(InviteRevoked(op.revoked.value)), i);
      }
      assert References(next) && People(db.actors, next);
      PutOrgSound(db, op.org, next);
    }
  }

  /** A new actor row touches no organization. */
  lemma PersonSound(db: Db, a: ActorId, email: string, passwordHash: string, name: string)
    requires Sound(db) && a !in db.actors && !EmailTaken(db, email)
    ensures Sound(WithPerson(db, a, email, passwordHash, name))
  {
    var next := WithPerson(db, a, email, passwordHash, name);
    forall o | o in next.orgs ensures OrgOk(next.actors, next.orgs[o]) {
      assert OrgOk(db.actors, db.orgs[o]);
    }
    forall t, o, i | Presents(next, t, o, i) ensures Presents(db, t, o, i) {}
    IdentitiesGrow(db, a, email, passwordHash, name);
  }

  lemma IdentitiesGrow(db: Db, a: ActorId, email: string, passwordHash: string, name: string)
    requires Identities(db) && a !in db.actors && !EmailTaken(db, email)
    ensures Identities(WithPerson(db, a, email, passwordHash, name))
  {}

  lemma JoinedOk(actors: map<ActorId, Actor>, org: Org, i: InviteId, a: ActorId)
    requires OrgOk(actors, org) && i in org.invites && org.invites[i].used < org.invites[i].maxUses
    requires a in actors && !actors[a].departed && a !in org.members
    ensures OrgOk(actors, Joined(org, i, a))
  {
    var next := Joined(org, i, a);
    forall j ensures InviteSpent(next, j) {
      assert InviteSpent(org, j);
      AdmittedAppend(org.audit, Record(a, MemberInvited(a, i)), j);
      if j == i { assert a !in Admitted(org.audit, i); }
    }
  }

  lemma JoinSound(db: Db, o: OrgId, i: InviteId, a: ActorId)
    requires Sound(db) && o in db.orgs && i in db.orgs[o].invites
    requires db.orgs[o].invites[i].used < db.orgs[o].invites[i].maxUses
    requires a in db.actors && !db.actors[a].departed && a !in db.orgs[o].members
    ensures Sound(PutOrg(db, o, Joined(db.orgs[o], i, a)))
  {
    JoinedOk(db.actors, db.orgs[o], i, a);
    PutOrgSound(db, o, Joined(db.orgs[o], i, a));
  }

  lemma AcceptSound(db: Db, op: Op)
    requires Sound(db) && op.AcceptInvite?
    ensures Sound(ApplyAccept(db, op).db)
  {
    if ApplyAccept(db, op).reply.Done? {
      var At(o, i) := Locate(db, op.presented);
      PersonSound(db, op.actor, op.email, op.passwordHash, op.name);
      assert OrgOk(db.actors, db.orgs[o]);
      JoinSound(WithPerson(db, op.actor, op.email, op.passwordHash, op.name), o, i, op.actor);
    }
  }

  // ---- identity ----

  lemma FoundedOk(actors: map<ActorId, Actor>, a: ActorId, slug: string)
    requires a in actors && !actors[a].departed
    ensures OrgOk(actors, Founded(a, slug)) && Owned(Founded(a, slug))
  {
    var org := Founded(a, slug);
    assert ActiveOwner(org, a);
    forall i ensures InviteSpent(org, i) {
      AdmittedConcat([], org.audit, i);
      assert [] + org.audit == org.audit;
    }
  }

  lemma CreateOrganizationSound(db: Db, op: Op)
    requires Sound(db) && op.CreateOrganization?
    ensures Sound(ApplyCreateOrganization(db, op).db)
  {
    if ApplyCreateOrganization(db, op).reply.Done? {
      FoundedOk(db.actors, op.actor, op.slug);
      AddOrgSound(db, op.org, Founded(op.actor, op.slug));
    }
  }

  lemma AddOrgSound(db: Db, o: OrgId, org: Org)
    requires Sound(db) && o !in db.orgs && OrgOk(db.actors, org) && org.invites == map[]
    ensures Sound(PutOrg(db, o, org))
  {
    forall t, p, i | Presents(PutOrg(db, o, org), t, p, i) ensures Presents(db, t, p, i) {}
  }

  lemma SignInSound(db: Db, op: Op)
    requires Sound(db) && op.SignIn?
    ensures Sound(ApplySignIn(db, op).db)
  {
    var r := ApplySignIn(db, op);
    forall t, p, i | Presents(r.db, t, p, i) ensures Presents(db, t, p, i) {}
  }

  // ---- departure ----

  lemma {:induction false} AdmittedConcat(audit: seq<Record>, more: seq<Record>, i: InviteId)
    requires forall k :: 0 <= k < |more| ==> !more[k].event.MemberInvited?
    ensures Admitted(audit + more, i) == Admitted(audit, i)
    decreases |more|
  {
    if more == [] {
      assert audit + more == audit;
    } else {
      var init := more[..|more| - 1];
      AdmittedConcat(audit, init, i);
      AdmittedAppend(audit + init, more[|more| - 1], i);
      assert audit + more == (audit + init) + [more[|more| - 1]];
    }
  }

  lemma LeaveOrgOwned(org: Org, a: ActorId)
    requires Owned(org)
    requires ActiveMember(org, a) ==> CheckOwnerChange(ActiveOwners(org), OwnerChange.Leave(a))
    ensures Owned(LeaveOrg(org, a))
  {
    var owner: ActorId :| ActiveOwner(org, owner);
    if owner == a { owner :| owner in ActiveOwners(org) && owner != a; }
    assert ActiveOwner(LeaveOrg(org, a), owner);
  }

  lemma LeaveOrgPeople(actors: map<ActorId, Actor>, org: Org, a: ActorId)
    requires References(org) && People(actors, org) && a in actors && !actors[a].departed
    ensures References(LeaveOrg(org, a))
    ensures People(actors[a := actors[a].(name := None, departed := true)], LeaveOrg(org, a))
  {}

  lemma LeaveOrgSpent(org: Org, a: ActorId)
    requires InvitesSpent(org)
    ensures InvitesSpent(LeaveOrg(org, a))
  {
    var next := LeaveOrg(org, a);
    var more := DepartureRecords(a, TeamsOf(org, a), a in org.members && !org.members[a].status.Left?,
                                 ListedIn(org, a));
    forall i ensures InviteSpent(next, i) {
      assert InviteSpent(org, i);
      AdmittedConcat(org.audit, more, i);
    }
  }

  lemma LeaveOrgOk(actors: map<ActorId, Actor>, org: Org, a: ActorId)
    requires OrgOk(actors, org) && a in actors && !actors[a].departed
    ensures OrgOk(actors[a := actors[a].(name := None, departed := true)], LeaveOrg(org, a))
  {
    LeaveOrgPeople(actors, org, a);
    LeaveOrgSpent(org, a);
  }

  /** A departure keeps the tables sound even where it leaves no owner. */
  lemma LeavingSound(db: Db, a: ActorId)
    requires Sound(db) && a in db.actors && !db.actors[a].departed
    ensures Sound(Leaving(db, a))
  {
    var d := Leaving(db, a);
    forall o | o in db.orgs ensures OrgOk(d.actors, d.orgs[o]) {
      LeaveOrgOk(db.actors, db.orgs[o], a);
    }
    forall t, o, i | Presents(d, t, o, i) ensures Presents(db, t, o, i) {}
  }

  lemma LeaveOwned(db: Db, a: ActorId)
    requires AllOwned(db)
    ensures AllOwned(ApplyLeave(db, a).db)
  {
    var r := ApplyLeave(db, a);
    if r.reply.Done? {
      forall o | o in db.orgs ensures Owned(r.db.orgs[o]) {
        assert o !in Abandoned(db, a);
        LeaveOrgOwned(db.orgs[o], a);
      }
    }
  }

  // ---- every operation, every run ----

  lemma ApplySound(db: Db, op: Op)
    requires Sound(db)
    ensures Sound(Apply(db, op).db)
  {
    match op
    case InOrg(_, _, _, _) => InOrgSound(db, op);
    case CreateInvite(_, _, _, _, _, _) => CreateInviteSound(db, op);
    case RevokeInvite(_, _, _) => RevokeInviteSound(db, op);
    case AcceptInvite(_, _, _, _, _, _) => AcceptSound(db, op);
    case CreatePerson(a, email, hash, name) =>
      if a !in db.actors && !EmailTaken(db, email) { PersonSound(db, a, email, hash, name); }
    case CreateOrganization(_, _, _) => CreateOrganizationSound(db, op);
    case LeaveService(a) => if ApplyLeave(db, a).reply.Done? { LeavingSound(db, a); }
    case SignIn(_, _, _, _) => SignInSound(db, op);
  }

  /** Commits keep the tables sound, whatever a departure last saw of the owners. */
  lemma LandSound(db: Db, op: Op)
    requires Sound(db)
    ensures Sound(Land(db, op).db)
  {
    if Land(db, op) == Apply(db, op) { ApplySound(db, op); } else { LeavingSound(db, op.actor); }
  }

  /** Every active owner of `before` is one of `after`. */
  ghost predicate KeepsOwners(before: Org, after: Org) {
    forall a :: ActiveOwner(before, a) ==> ActiveOwner(after, a)
  }

  lemma PutKeepsOwners(db: Db, o: OrgId, org: Org)
    requires AllOwned(db) && o in db.orgs && KeepsOwners(db.orgs[o], org)
    ensures AllOwned(PutOrg(db, o, org))
  {
    assert Owned(db.orgs[o]);
  }

  lemma InviteOwned(db: Db, op: Op)
    requires AllOwned(db) && (op.CreateInvite? || op.RevokeInvite?)
    ensures AllOwned(Apply(db, op).db)
  {
    var d := Apply(db, op).db;
    if d != db { PutKeepsOwners(db, op.org, d.orgs[op.org]); }
  }

  lemma JoinedKeepsOwners(db: Db, o: OrgId, i: InviteId, a: ActorId)
    requires Sound(db) && o in db.orgs && i in db.orgs[o].invites && a !in db.actors
    ensures KeepsOwners(db.orgs[o], Joined(db.orgs[o], i, a))
  {
    assert OrgOk(db.actors, db.orgs[o]);
  }

  lemma AcceptOwned(db: Db, op: Op)
    requires Sound(db) && AllOwned(db) && op.AcceptInvite?
    ensures AllOwned(ApplyAccept(db, op).db)
  {
    if ApplyAccept(db, op).reply.Done? {
      var At(o, i) := Locate(db, op.presented);
      JoinedKeepsOwners(db, o, i, op.actor);
      PutKeepsOwners(WithPerson(db, op.actor, op.email, op.passwordHash, op.name), o, Joined(db.orgs[o], i, op.actor));
    }
  }

  lemma CreateOrganizationOwned(db: Db, op: Op)
    requires AllOwned(db) && op.CreateOrganization?
    ensures AllOwned(ApplyCreateOrganization(db, op).db)
  {
    if ApplyCreateOrganization(db, op).reply.Done? {
      FoundedOk(db.actors, op.actor, op.slug);
      PutOwned(db, op.org, Founded(op.actor, op.slug));
    }
  }

  lemma ApplyOwned(db: Db, op: Op)
    requires Ok(db)
    ensures AllOwned(Apply(db, op).db)
  {
    if op.InOrg? { InOrgOwned(db, op); }
    else if op.CreateInvite? || op.RevokeInvite? { InviteOwned(db, op); }
    else if op.AcceptInvite? { AcceptOwned(db, op); }
    else if op.CreateOrganization? { CreateOrganizationOwned(db, op); }
    else if op.LeaveService? { LeaveOwned(db, op.actor); }
  }

  /** Every operation run alone keeps the tables sound and every organization owned. */
  lemma ApplyOk(db: Db, op: Op)
    requires Ok(db)
    ensures Ok(Apply(db, op).db)
  {
    ApplySound(db, op);
    ApplyOwned(db, op);
  }

  const EMPTY := Db(map[], map[], map[], map[])

  lemma EmptyOk()
    ensures Ok(EMPTY)
  {
    forall t, o, i ensures !Presents(EMPTY, t, o, i) {}
  }

  lemma {:induction false} ExecuteOk(db: Db, ops: seq<Op>)
    requires Ok(db)
    ensures Ok(Execute(db, ops))
    decreases |ops|
  {
    if ops != [] {
      ApplyOk(db, ops[0]);
      ExecuteOk(Apply(db, ops[0]).db, ops[1..]);
    }
  }
}
