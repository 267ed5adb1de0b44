/** What a transaction knows between its statements, and why other transactions cannot falsify it. */
module Rely {
  import opened Domain
  import opened Store
  import opened Operations
  import opened Integrity
  import opened Transactions

  // ---- what a transaction knows ----

  ghost predicate KnowsTarget(c: Db, op: Op, held: set<Hold>, departed: Option<bool>)
    requires op.InOrg?
  {
    if !op.change.LocksTarget() then departed == Some(false)
    else if !op.sighted then departed == None
    else
      && op.change.target in c.actors
      && departed == Some(c.actors[op.change.target].departed)
      && Hold(ActorRow(op.change.target), Share) in held
  }

  ghost predicate LockingActors(c: Db, op: Op, held: set<Hold>, todo: seq<ActorId>, departed: Option<bool>)
    requires op.InOrg?
  {
    && Ascending(todo)
    && (op.change.LocksTarget() && !op.sighted ==> op.change.target !in todo)
    && if op.change.LocksTarget() && op.sighted && op.change.target in todo then op.change.target in c.actors
       else KnowsTarget(c, op, held, departed)
  }

  ghost predicate InOrgKnows(c: Db, op: Op, phase: Phase, held: set<Hold>)
    requires op.InOrg?
  {
    match phase
    case Start => true
    case ActorLocks(todo, departed) => LockingActors(c, op, held, todo, departed)
    case OrgLock(departed) => KnowsTarget(c, op, held, departed)
    case Rows(departed) => KnowsTarget(c, op, held, departed) && Hold(OrgRow(op.org), Update) in held
    case Owners(departed, rows) =>
      && KnowsTarget(c, op, held, departed) && Hold(OrgRow(op.org), Update) in held
      && ActiveIn(c, op.performer, op.org) && rows == c.orgs[op.org]
    case Writing(departed, rows, owners) =>
      && KnowsTarget(c, op, held, departed) && Hold(OrgRow(op.org), Update) in held
      && ActiveIn(c, op.performer, op.org) && rows == c.orgs[op.org] && owners == ActiveOwners(rows)
    case _ => false
  }

  ghost predicate Authorized(c: Db, op: Op, held: set<Hold>)
    requires op.CreateInvite? || op.RevokeInvite?
  {
    && Hold(OrgRow(op.org), Share) in held && Hold(MemberRow(op.org, op.performer), Share) in held
    && ActiveIn(c, op.performer, op.org) && Holds(c.orgs[op.org].members[op.performer].role, InviteMember)
  }

  ghost predicate InviteKnows(c: Db, op: Op, phase: Phase, held: set<Hold>)
    requires op.CreateInvite? || op.RevokeInvite?
  {
    match phase
    case Start => true
    case ActorLocks(_, _) => true
    case OrgLock(_) => true
    case Authorizing => Hold(OrgRow(op.org), Share) in held
    case Inviting => op.CreateInvite? && Authorized(c, op, held)
    case RevokeLock => op.RevokeInvite? && op.revoked.Some? && Authorized(c, op, held)
    case Revoking =>
      && op.RevokeInvite? && op.revoked.Some? && Authorized(c, op, held)
      && Hold(InviteRow(op.org, op.revoked.value), Update) in held
      && op.revoked.value in c.orgs[op.org].invites && !c.orgs[op.org].invites[op.revoked.value].revoked
    case _ => false
  }

  ghost predicate Counted(c: Db, op: Op, held: set<Hold>, o: OrgId, i: InviteId)
    requires op.AcceptInvite?
  {
    && Hold(InviteRow(o, i), NoKeyUpdate) in held
    && Presents(c, op.presented, o, i)
    && Usable(c.orgs[o].invites[i], op.now) && c.orgs[o].invites[i].kind.ForOrganization?
  }

  ghost predicate Newcomer(c: Db, op: Op, held: set<Hold>)
    requires op.AcceptInvite?
  {
    && Hold(ActorRow(op.actor), Update) in held && Hold(EmailKey(Lower(op.email)), Update) in held
    && op.actor !in c.actors && !EmailTaken(c, op.email)
  }

  ghost predicate AcceptKnows(c: Db, op: Op, phase: Phase, held: set<Hold>)
    requires op.AcceptInvite?
  {
    match phase
    case Start => true
    case Using(o, i) => Presents(c, op.presented, o, i)
    case NewPerson(o, i) => Counted(c, op, held, o, i)
    case Joining(o, i) => Counted(c, op, held, o, i) && Newcomer(c, op, held)
    case Welcoming(o, i) =>
      Counted(c, op, held, o, i) && Newcomer(c, op, held) && Hold(OrgRow(o), KeyShare) in held
    case _ => false
  }

  ghost predicate FoundKnows(c: Db, op: Op, phase: Phase, held: set<Hold>)
    requires op.CreateOrganization?
  {
    match phase
    case Start => true
    case Founding =>
      Hold(ActorRow(op.actor), Share) in held && op.actor in c.actors && !c.actors[op.actor].departed
    case _ => false
  }

  ghost predicate WasRegistered(c: Db, op: Op, a: ActorId)
    requires op.SignIn?
  {
    && op.verified && a in c.actors
    && if a in c.users then Lower(c.users[a].email) == Lower(op.email) else c.actors[a].departed
  }

  ghost predicate SignInKnows(c: Db, op: Op, phase: Phase, held: set<Hold>)
    requires op.SignIn?
  {
    match phase
    case Start => true
    case PasswordAccepted(a) => WasRegistered(c, op, a)
    case Rereading(a) =>
      WasRegistered(c, op, a) && Hold(ActorRow(a), Share) in held && !c.actors[a].departed
    case Present(a) =>
      WasRegistered(c, op, a) && Hold(ActorRow(a), Share) in held && !c.actors[a].departed && a in c.users
    case _ => false
  }

  /** The departing actor's row is locked. */
  ghost predicate Closing(c: Db, a: ActorId, held: set<Hold>, all: set<OrgId>) {
    && Hold(ActorRow(a), Update) in held
    && a in c.actors && !c.actors[a].departed
    && (forall o :: o in all ==> o in c.orgs)
  }

  ghost predicate LockedExcept(held: set<Hold>, all: set<OrgId>, rest: seq<OrgId>) {
    forall o :: o in all && o !in rest ==> Hold(OrgRow(o), Update) in held
  }

  ghost predicate Cleared(c: Db, a: ActorId, held: set<Hold>, all: set<OrgId>) {
    Closing(c, a, held, all) && LockedExcept(held, all, [])
  }

  /** The memberships as read are still the memberships, and the same ones have already ended. */
  ghost predicate StatusesHold(c: Db, a: ActorId, statuses: map<OrgId, MemberStatus>) {
    && (forall o :: o in statuses ==> o in c.orgs)
    && (forall o :: o in c.orgs ==> (a in c.orgs[o].members <==> o in statuses))
    && (forall o :: o in statuses ==> (statuses[o].Left? <==> c.orgs[o].members[a].status.Left?))
  }

  ghost predicate ListedHold(c: Db, a: ActorId, listed: set<OrgId>) {
    && (forall o :: o in listed ==> o in c.orgs)
    && (forall o :: o in c.orgs && o !in listed ==> ListedIn(c.orgs[o], a) == {})
  }

  /** The team rows removed so far are exactly the actor's rows there, each of them locked. */
  ghost predicate SweptHold(c: Db, a: ActorId, held: set<Hold>, got: Gathered, rest: seq<OrgId>) {
    && (forall o :: o in got.statuses ==> o in rest || o in got.teams)
    && (forall o :: o in got.teams ==> o in c.orgs && got.teams[o] == TeamsOf(c.orgs[o], a))
    && (forall o, t :: o in got.teams && t in got.teams[o] ==> Hold(TeamRow(o, t, a), Update) in held)
  }

  ghost predicate DroppedHold(c: Db, a: ActorId, got: Gathered, rest: seq<OrgId>) {
    && (forall o :: o in got.listed ==> o in rest || o in got.channels)
    && (forall o :: o in got.channels ==> o in c.orgs && got.channels[o] == ListedIn(c.orgs[o], a))
  }

  /** An organization where the departure has written a record is locked by the record's foreign key. */
  ghost predicate AuditedHold(held: set<Hold>, got: Gathered, sweeping: seq<OrgId>, dropping: seq<OrgId>) {
    && (forall o :: o in got.statuses && o !in sweeping && Audits(got, o) ==> HoldsRow(held, OrgRow(o)))
    && (forall o :: o in got.channels && o !in dropping && got.channels[o] != {} ==> HoldsRow(held, OrgRow(o)))
  }

  ghost predicate Gathering(c: Db, a: ActorId, held: set<Hold>, got: Gathered, sweeping: seq<OrgId>,
                            dropping: seq<OrgId>) {
    && Cleared(c, a, held, got.locked)
    && StatusesHold(c, a, got.statuses)
    && ListedHold(c, a, got.listed)
    && SweptHold(c, a, held, got, sweeping)
    && DroppedHold(c, a, got, dropping)
    && AuditedHold(held, got, sweeping, dropping)
  }

  ghost predicate LeaveKnows(c: Db, op: Op, phase: Phase, held: set<Hold>)
    requires op.LeaveService?
  {
    var a := op.actor;
    match phase
    case Start => true
    case Scan => Hold(ActorRow(a), Update) in held && a in c.actors && !c.actors[a].departed
    case OrgLocks(orgs, all) => Ascending(orgs) && Closing(c, a, held, all) && LockedExcept(held, all, orgs)
    case Checks(orgs, all) => Cleared(c, a, held, all) && forall o :: o in orgs ==> o in all
    case Memberships(all) => Cleared(c, a, held, all)
    case ListedOrgs(all, statuses) => Cleared(c, a, held, all) && StatusesHold(c, a, statuses)
    case Sweep(orgs, got) =>
      Gathering(c, a, held, got, orgs, Sorted(got.listed)) && forall o :: o in orgs ==> o in got.statuses
    case SweepAudit(orgs, got) =>
      orgs != [] && orgs[0] in got.teams
      && Gathering(c, a, held, got, orgs, Sorted(got.listed)) && forall o :: o in orgs ==> o in got.statuses
    case Listings(orgs, got) => Gathering(c, a, held, got, [], orgs) && forall o :: o in orgs ==> o in got.listed
    case ListingAudit(orgs, found, got) =>
      orgs != [] && orgs[0] in c.orgs && found == ListedIn(c.orgs[orgs[0]], a)
      && Gathering(c, a, held, got, [], orgs) && forall o :: o in orgs ==> o in got.listed
    case Finish(got) => Gathering(c, a, held, got, [], [])
    case _ => false
  }

  ghost predicate Knows(c: Db, t: Txn) {
    match t.op
    case InOrg(_, _, _, _) => InOrgKnows(c, t.op, t.phase, t.held)
    case CreateInvite(_, _, _, _, _, _) => InviteKnows(c, t.op, t.phase, t.held)
    case RevokeInvite(_, _, _) => InviteKnows(c, t.op, t.phase, t.held)
    case AcceptInvite(_, _, _, _, _, _) => AcceptKnows(c, t.op, t.phase, t.held)
    case CreatePerson(_, _, _, _) => t.phase.Start?
    case CreateOrganization(_, _, _) => FoundKnows(c, t.op, t.phase, t.held)
    case LeaveService(_) => LeaveKnows(c, t.op, t.phase, t.held)
    case SignIn(_, _, _, _) => SignInKnows(c, t.op, t.phase, t.held)
  }

  // ---- people who never meet ----

  /** `x` is no member of the organization, or one that has left it for good. */
  predicate Out(org: Org, x: ActorId) {
    x !in org.members || org.members[x].status.Left?
  }

  /** Both exist and, only newcomers joining organizations, will never both be members of `o`. */
  predicate Strangers(c: Db, p: ActorId, o: OrgId, a: ActorId) {
    p in c.actors && a in c.actors && p != a && (o in c.orgs ==> Out(c.orgs[o], p) || Out(c.orgs[o], a))
  }

  // ---- what a commit may change, given the locks it holds ----

  ghost predicate HoldsRow(h: set<Hold>, r: Resource) {
    exists m :: Hold(r, m) in h
  }

  /** The committer holds the actor's row in SHARE or UPDATE. */
  ghost predicate HoldsActor(h: set<Hold>, a: ActorId) {
    Hold(ActorRow(a), Share) in h || Hold(ActorRow(a), Update) in h
  }

  ghost predicate HoldsInvite(h: set<Hold>, o: OrgId, i: InviteId) {
    Hold(InviteRow(o, i), NoKeyUpdate) in h || Hold(InviteRow(o, i), Update) in h
  }

  ghost predicate MembersStep(before: Org, after: Org, o: OrgId, h: set<Hold>) {
    && (forall a :: a in before.members ==> a in after.members)
    && (forall a :: a in before.members && after.members[a] != before.members[a]
          ==> Hold(MemberRow(o, a), NoKeyUpdate) in h)
    && (forall a :: a in before.members && before.members[a].status.Left? ==> after.members[a].status.Left?)
    && (forall a :: a in before.members && (before.members[a].status.Left? != after.members[a].status.Left?)
          ==> Hold(ActorRow(a), Update) in h)
    && (forall a :: a in after.members && a !in before.members ==> HoldsActor(h, a))
  }

  ghost predicate TeamsStep(before: Org, after: Org, o: OrgId, h: set<Hold>) {
    && (forall t, a :: (t, a) in before.teamMembers && (t, a) !in after.teamMembers
          ==> Hold(TeamRow(o, t, a), Update) in h)
    && (forall t, a :: (t, a) !in before.teamMembers && (t, a) in after.teamMembers ==> HoldsRow(h, ActorRow(a)))
  }

  ghost predicate ListingsStep(before: Org, after: Org, h: set<Hold>) {
    forall c, a :: ((c, a) in before.listings <==> (c, a) in after.listings) || HoldsActor(h, a)
  }

  ghost predicate InvitesStep(before: Org, after: Org, o: OrgId, h: set<Hold>) {
    forall i :: i in before.invites ==>
      && i in after.invites && after.invites[i].token == before.invites[i].token
      && (after.invites[i] == before.invites[i] || HoldsInvite(h, o, i))
  }

  ghost predicate OrgStep(before: Org, after: Org, o: OrgId, h: set<Hold>) {
    before == after
    || (&& HoldsRow(h, OrgRow(o))
        && MembersStep(before, after, o, h) && TeamsStep(before, after, o, h)
        && ListingsStep(before, after, h) && InvitesStep(before, after, o, h))
  }

  ghost predicate NewOrgStep(after: Org, h: set<Hold>) {
    && (forall a :: a in after.members ==> HoldsActor(h, a))
    && (forall a, b :: a in after.members && b in after.members ==> a == b)
    && after.teamMembers == map[] && after.listings == {} && after.invites == map[]
  }

  ghost predicate ActorsStep(c: Db, d: Db, h: set<Hold>) {
    && (forall a :: a in c.actors ==> a in d.actors && (d.actors[a] == c.actors[a] || Hold(ActorRow(a), Update) in h))
    && (forall a :: a in d.actors && a !in c.actors ==> Hold(ActorRow(a), Update) in h)
    && (forall a :: a in c.actors && c.actors[a].departed ==> a in d.actors && d.actors[a].departed)
  }

  ghost predicate UsersStep(c: Db, d: Db, h: set<Hold>) {
    && (forall a :: a in c.users ==> a !in d.users || d.users[a] == c.users[a])
    && (forall a :: a in c.users && a !in d.users ==>
          Hold(ActorRow(a), Update) in h && a in d.actors && d.actors[a].departed)
    && (forall a :: a in d.users && a !in c.users ==>
          a !in c.actors && Hold(EmailKey(Lower(d.users[a].email)), Update) in h)
  }

  ghost predicate OrgsStep(c: Db, d: Db, h: set<Hold>) {
    && (forall o :: o in c.orgs ==> o in d.orgs && OrgStep(c.orgs[o], d.orgs[o], o, h))
    && (forall o :: o in d.orgs && o !in c.orgs ==> NewOrgStep(d.orgs[o], h))
  }

  /** Only people who were nobody before join an organization that already exists. */
  ghost predicate JoinersStep(c: Db, d: Db) {
    forall o, a :: o in c.orgs && o in d.orgs && a in d.orgs[o].members && a !in c.orgs[o].members ==> a !in c.actors
  }

  ghost predicate Guarantee(c: Db, d: Db, h: set<Hold>) {
    ActorsStep(c, d, h) && UsersStep(c, d, h) && OrgsStep(c, d, h) && JoinersStep(c, d)
  }

  // ---- stability ----

  /** Strangers stay strangers. */
  lemma StrangersStable(c: Db, d: Db, h: set<Hold>, p: ActorId, o: OrgId, a: ActorId)
    requires Guarantee(c, d, h) && Strangers(c, p, o, a)
    ensures Strangers(d, p, o, a)
  {
    if o in c.orgs { assert OrgStep(c.orgs[o], d.orgs[o], o, h); }
  }

  /** An organization whose row is locked FOR UPDATE is changed by nobody else. */
  lemma LockedOrgStable(c: Db, d: Db, h: set<Hold>, held: set<Hold>, o: OrgId)
    requires OrgsStep(c, d, h) && Compatible(h, held) && Hold(OrgRow(o), Update) in held && o in c.orgs
    ensures o in d.orgs && d.orgs[o] == c.orgs[o]
  {
    if d.orgs[o] != c.orgs[o] {
      var m :| Hold(OrgRow(o), m) in h;
      assert Clash(Hold(OrgRow(o), m), Hold(OrgRow(o), Update));
    }
  }

  lemma SharedActorStable(c: Db, d: Db, h: set<Hold>, held: set<Hold>, a: ActorId)
    requires ActorsStep(c, d, h) && Compatible(h, held) && a in c.actors
    requires HoldsActor(held, a)
    ensures a in d.actors && d.actors[a] == c.actors[a]
  {
    if d.actors[a] != c.actors[a] {
      var mine := if Hold(ActorRow(a), Share) in held then Share else Update;
      assert Clash(Hold(ActorRow(a), Update), Hold(ActorRow(a), mine));
    }
  }

  /** No committer holds in SHARE or UPDATE the actor row this transaction holds FOR UPDATE. */
  lemma ActorIsOurs(h: set<Hold>, held: set<Hold>, a: ActorId)
    requires Compatible(h, held) && Hold(ActorRow(a), Update) in held
    ensures !HoldsActor(h, a)
  {
    if Hold(ActorRow(a), Share) in h { assert Clash(Hold(ActorRow(a), Share), Hold(ActorRow(a), Update)); }
    if Hold(ActorRow(a), Update) in h { assert Clash(Hold(ActorRow(a), Update), Hold(ActorRow(a), Update)); }
  }

  lemma KnowsTargetStable(c: Db, d: Db, h: set<Hold>, op: Op, held: set<Hold>, departed: Option<bool>)
    requires ActorsStep(c, d, h) && Compatible(h, held) && op.InOrg? && KnowsTarget(c, op, held, departed)
    ensures KnowsTarget(d, op, held, departed)
  {
    if op.change.LocksTarget() && op.sighted { SharedActorStable(c, d, h, held, op.change.target); }
  }

  lemma InOrgStable(c: Db, d: Db, h: set<Hold>, op: Op, phase: Phase, held: set<Hold>)
    requires Guarantee(c, d, h) && Compatible(h, held) && op.InOrg? && InOrgKnows(c, op, phase, held)
    ensures InOrgKnows(d, op, phase, held)
  {
    match phase
    case Start =>
    case ActorLocks(todo, departed) =>
      if !(op.change.LocksTarget() && op.sighted && op.change.target in todo) {
        KnowsTargetStable(c, d, h, op, held, departed);
      }
    case OrgLock(departed) => KnowsTargetStable(c, d, h, op, held, departed);
    case Rows(departed) => KnowsTargetStable(c, d, h, op, held, departed);
    case Owners(departed, rows) =>
      KnowsTargetStable(c, d, h, op, held, departed);
      LockedOrgStable(c, d, h, held, op.org);
    case Writing(departed, rows, owners) =>
      KnowsTargetStable(c, d, h, op, held, departed);
      LockedOrgStable(c, d, h, held, op.org);
  }

  /** The SHARE lock on the membership read by authorize keeps the performer authorized. */
  lemma AuthorizedStable(c: Db, d: Db, h: set<Hold>, op: Op, held: set<Hold>)
    requires OrgsStep(c, d, h) && Compatible(h, held)
    requires (op.CreateInvite? || op.RevokeInvite?) && Authorized(c, op, held)
    ensures Authorized(d, op, held)
    ensures d.orgs[op.org].members[op.performer].role in {Owner, Admin}
  {
    var o, p := op.org, op.performer;
    assert OrgStep(c.orgs[o], d.orgs[o], o, h);
    if Hold(MemberRow(o, p), NoKeyUpdate) in h {
      assert Clash(Hold(MemberRow(o, p), NoKeyUpdate), Hold(MemberRow(o, p), Share));
    }
  }

  lemma LockedInviteStable(c: Db, d: Db, h: set<Hold>, held: set<Hold>, o: OrgId, i: InviteId)
    requires OrgsStep(c, d, h) && Compatible(h, held) && o in c.orgs && i in c.orgs[o].invites
    requires HoldsInvite(held, o, i)
    ensures o in d.orgs && i in d.orgs[o].invites && d.orgs[o].invites[i] == c.orgs[o].invites[i]
  {
    assert OrgStep(c.orgs[o], d.orgs[o], o, h);
    if HoldsInvite(h, o, i) {
      var m := if Hold(InviteRow(o, i), Update) in h then Update else NoKeyUpdate;
      var n := if Hold(InviteRow(o, i), Update) in held then Update else NoKeyUpdate;
      assert Clash(Hold(InviteRow(o, i), m), Hold(InviteRow(o, i), n));
    }
  }

  lemma InviteStable(c: Db, d: Db, h: set<Hold>, op: Op, phase: Phase, held: set<Hold>)
    requires Guarantee(c, d, h) && Compatible(h, held)
    requires (op.CreateInvite? || op.RevokeInvite?) && InviteKnows(c, op, phase, held)
    ensures InviteKnows(d, op, phase, held)
  {
    if phase.Inviting? || phase.RevokeLock? || phase.Revoking? { AuthorizedStable(c, d, h, op, held); }
    if phase.Revoking? { LockedInviteStable(c, d, h, held, op.org, op.revoked.value); }
  }

  lemma NewcomerStable(c: Db, d: Db, h: set<Hold>, op: Op, held: set<Hold>)
    requires ActorsStep(c, d, h) && UsersStep(c, d, h) && Compatible(h, held)
    requires op.AcceptInvite? && Newcomer(c, op, held)
    ensures Newcomer(d, op, held)
  {
    if op.actor in d.actors { assert Clash(Hold(ActorRow(op.actor), Update), Hold(ActorRow(op.actor), Update)); }
    if EmailTaken(d, op.email) {
      var b :| b in d.users && Lower(d.users[b].email) == Lower(op.email);
      var key := EmailKey(Lower(op.email));
      assert b !in c.users;
      assert Clash(Hold(key, Update), Hold(key, Update));
    }
  }

  lemma AcceptStable(c: Db, d: Db, h: set<Hold>, op: Op, phase: Phase, held: set<Hold>)
    requires Guarantee(c, d, h) && Compatible(h, held) && op.AcceptInvite? && AcceptKnows(c, op, phase, held)
    ensures AcceptKnows(d, op, phase, held)
  {
    match phase
    case Start =>
    case Using(o, i) => assert OrgStep(c.orgs[o], d.orgs[o], o, h);
    case NewPerson(o, i) => LockedInviteStable(c, d, h, held, o, i);
    case Joining(o, i) => LockedInviteStable(c, d, h, held, o, i); NewcomerStable(c, d, h, op, held);
    case Welcoming(o, i) => LockedInviteStable(c, d, h, held, o, i); NewcomerStable(c, d, h, op, held);
  }

  lemma SignInStable(c: Db, d: Db, h: set<Hold>, op: Op, phase: Phase, held: set<Hold>)
    requires Guarantee(c, d, h) && Compatible(h, held) && op.SignIn? && SignInKnows(c, op, phase, held)
    ensures SignInKnows(d, op, phase, held)
  {
    if phase.Rereading? || phase.Present? {
      var a := phase.person;
      SharedActorStable(c, d, h, held, a);
    }
  }

  lemma FoundStable(c: Db, d: Db, h: set<Hold>, op: Op, phase: Phase, held: set<Hold>)
    requires Guarantee(c, d, h) && Compatible(h, held) && op.CreateOrganization? && FoundKnows(c, op, phase, held)
    ensures FoundKnows(d, op, phase, held)
  {
    if phase.Founding? { SharedActorStable(c, d, h, held, op.actor); }
  }

  // ---- stability of a departure ----

  lemma ClosingStable(c: Db, d: Db, h: set<Hold>, a: ActorId, held: set<Hold>, all: set<OrgId>)
    requires Guarantee(c, d, h) && Compatible(h, held) && Closing(c, a, held, all)
    ensures Closing(d, a, held, all)
  {
    SharedActorStable(c, d, h, held, a);
  }

  lemma StatusesStable(c: Db, d: Db, h: set<Hold>, a: ActorId, held: set<Hold>, statuses: map<OrgId, MemberStatus>)
    requires OrgsStep(c, d, h) && Compatible(h, held) && Hold(ActorRow(a), Update) in held
    requires StatusesHold(c, a, statuses)
    ensures StatusesHold(d, a, statuses)
  {
    ActorIsOurs(h, held, a);
    forall o | o in d.orgs
      ensures a in d.orgs[o].members <==> o in statuses
      ensures o in statuses ==> (statuses[o].Left? <==> d.orgs[o].members[a].status.Left?)
    {
      if o in c.orgs { assert OrgStep(c.orgs[o], d.orgs[o], o, h); }
    }
  }

  lemma ListedInStable(c: Db, d: Db, h: set<Hold>, a: ActorId, held: set<Hold>, o: OrgId)
    requires OrgsStep(c, d, h) && Compatible(h, held) && Hold(ActorRow(a), Update) in held && o in d.orgs
    ensures if o in c.orgs then ListedIn(d.orgs[o], a) == ListedIn(c.orgs[o], a) else ListedIn(d.orgs[o], a) == {}
  {
    ActorIsOurs(h, held, a);
    if o in c.orgs {
      assert OrgStep(c.orgs[o], d.orgs[o], o, h);
      forall ch: ChannelId ensures ch in ListedIn(d.orgs[o], a) <==> ch in ListedIn(c.orgs[o], a) {
        assert (ch, a) in c.orgs[o].listings <==> (ch, a) in d.orgs[o].listings;
      }
    }
  }

  lemma ListedStable(c: Db, d: Db, h: set<Hold>, a: ActorId, held: set<Hold>, got: Gathered, rest: seq<OrgId>)
    requires OrgsStep(c, d, h) && Compatible(h, held) && Hold(ActorRow(a), Update) in held
    requires ListedHold(c, a, got.listed) && DroppedHold(c, a, got, rest)
    ensures ListedHold(d, a, got.listed) && DroppedHold(d, a, got, rest)
  {
    forall o | o in d.orgs && o !in got.listed ensures ListedIn(d.orgs[o], a) == {} {
      ListedInStable(c, d, h, a, held, o);
    }
    forall o | o in got.channels ensures o in d.orgs && got.channels[o] == ListedIn(d.orgs[o], a) {
      ListedInStable(c, d, h, a, held, o);
    }
  }

  /** Removed rows stay locked, and a row added for the actor would reference its locked row. */
  lemma SweptStable(c: Db, d: Db, h: set<Hold>, a: ActorId, held: set<Hold>, got: Gathered, rest: seq<OrgId>)
    requires OrgsStep(c, d, h) && Compatible(h, held) && Hold(ActorRow(a), Update) in held
    requires SweptHold(c, a, held, got, rest)
    ensures SweptHold(d, a, held, got, rest)
  {
    forall o | o in got.teams ensures o in d.orgs && got.teams[o] == TeamsOf(d.orgs[o], a) {
      TeamRowsStable(c, d, h, a, held, got, o);
    }
  }

  lemma TeamRowsStable(c: Db, d: Db, h: set<Hold>, a: ActorId, held: set<Hold>, got: Gathered, o: OrgId)
    requires OrgsStep(c, d, h) && Compatible(h, held) && Hold(ActorRow(a), Update) in held
    requires o in c.orgs && o in got.teams && got.teams[o] == TeamsOf(c.orgs[o], a)
    requires forall t :: t in got.teams[o] ==> Hold(TeamRow(o, t, a), Update) in held
    ensures o in d.orgs && got.teams[o] == TeamsOf(d.orgs[o], a)
  {
    assert OrgStep(c.orgs[o], d.orgs[o], o, h);
    forall t: TeamId ensures t in TeamsOf(d.orgs[o], a) <==> t in got.teams[o] {
      if (t, a) in c.orgs[o].teamMembers && (t, a) !in d.orgs[o].teamMembers {
        assert t in got.teams[o];
        assert Clash(Hold(TeamRow(o, t, a), Update), Hold(TeamRow(o, t, a), Update));
      }
      if (t, a) !in c.orgs[o].teamMembers && (t, a) in d.orgs[o].teamMembers {
        var m :| Hold(ActorRow(a), m) in h;
        assert Clash(Hold(ActorRow(a), m), Hold(ActorRow(a), Update));
      }
    }
  }

  lemma GatheringStable(c: Db, d: Db, h: set<Hold>, a: ActorId, held: set<Hold>, got: Gathered,
                        sweeping: seq<OrgId>, dropping: seq<OrgId>)
    requires Guarantee(c, d, h) && Compatible(h, held) && Gathering(c, a, held, got, sweeping, dropping)
    ensures Gathering(d, a, held, got, sweeping, dropping)
  {
    ClosingStable(c, d, h, a, held, got.locked);
    StatusesStable(c, d, h, a, held, got.statuses);
    ListedStable(c, d, h, a, held, got, dropping);
    SweptStable(c, d, h, a, held, got, sweeping);
  }

  lemma LeaveStable(c: Db, d: Db, h: set<Hold>, op: Op, phase: Phase, held: set<Hold>)
    requires Guarantee(c, d, h) && Compatible(h, held) && op.LeaveService? && LeaveKnows(c, op, phase, held)
    ensures LeaveKnows(d, op, phase, held)
  {
    var a := op.actor;
    match phase
    case Start =>
    case Scan => SharedActorStable(c, d, h, held, a);
    case OrgLocks(orgs, all) => ClosingStable(c, d, h, a, held, all);
    case Checks(orgs, all) => ClosingStable(c, d, h, a, held, all);
    case Memberships(all) => ClosingStable(c, d, h, a, held, all);
    case ListedOrgs(all, statuses) =>
      ClosingStable(c, d, h, a, held, all);
      StatusesStable(c, d, h, a, held, statuses);
    case Sweep(orgs, got) => GatheringStable(c, d, h, a, held, got, orgs, Sorted(got.listed));
    case SweepAudit(orgs, got) => GatheringStable(c, d, h, a, held, got, orgs, Sorted(got.listed));
    case Listings(orgs, got) => GatheringStable(c, d, h, a, held, got, [], orgs);
    case ListingAudit(orgs, found, got) =>
      GatheringStable(c, d, h, a, held, got, [], orgs);
      ListedInStable(c, d, h, a, held, orgs[0]);
    case Finish(got) => GatheringStable(c, d, h, a, held, got, [], []);
  }

  /** What a transaction knows survives every commit made under compatible locks. */
  lemma Stable(c: Db, d: Db, h: set<Hold>, t: Txn)
    requires Guarantee(c, d, h) && Compatible(h, t.held) && Knows(c, t)
    ensures Knows(d, t)
  {
    match t.op
    case InOrg(_, _, _, _) => InOrgStable(c, d, h, t.op, t.phase, t.held);
    case CreateInvite(_, _, _, _, _, _) => InviteStable(c, d, h, t.op, t.phase, t.held);
    case RevokeInvite(_, _, _) => InviteStable(c, d, h, t.op, t.phase, t.held);
    case AcceptInvite(_, _, _, _, _, _) => AcceptStable(c, d, h, t.op, t.phase, t.held);
    case CreatePerson(_, _, _, _) =>
    case CreateOrganization(_, _, _) => FoundStable(c, d, h, t.op, t.phase, t.held);
    case LeaveService(_) => LeaveStable(c, d, h, t.op, t.phase, t.held);
    case SignIn(_, _, _, _) => SignInStable(c, d, h, t.op, t.phase, t.held);
  }
}
