/** Every interleaving of the transactions commits what the operations do one at a time. */
module Serial {
  import opened Domain
  import opened Store
  import opened Operations
  import opened Integrity
  import opened Runs
  import opened Transactions
  import opened Rely

  // ---- a statement that does not commit ----

  /** The next statement, if it neither commits nor fails, leaves its transaction knowing what it must. */
  ghost predicate Proceeds(c: Db, t: Txn) {
    var r := Advance(c, t);
    r.Continue? ==> Knows(c, Txn(r.op, r.phase, t.held + Taken(c, t)))
  }

  lemma InOrgProceeds(c: Db, t: Txn)
    requires t.op.InOrg? && Knows(c, t)
    ensures Proceeds(c, t)
  {
    match t.phase
    case Start => StartContinues(c, t);
    case ActorLocks(todo, departed) =>
      if todo != [] { assert forall x :: x in todo <==> x == todo[0] || x in todo[1..]; }
    case OrgLock(departed) =>
    case Rows(departed) =>
    case Owners(departed, rows) =>
    case _ =>
  }

  lemma StartContinues(c: Db, t: Txn)
    requires t.op.InOrg? && t.phase.Start?
    ensures var r := Advance(c, t); r.Continue? && r.op.InOrg? && InOrgKnows(c, r.op, r.phase, t.held + Request(t))
  {
    if t.op.change.LocksTarget() {
      var visible := VisibleActors(c, t.op.performer, t.op.change.target);
      assert forall x :: x in Sorted(visible) <==> x in visible;
    }
  }

  lemma InviteProceeds(c: Db, t: Txn)
    requires (t.op.CreateInvite? || t.op.RevokeInvite?) && Knows(c, t)
    ensures Proceeds(c, t)
  {}

  lemma AcceptProceeds(c: Db, t: Txn)
    requires t.op.AcceptInvite? && Knows(c, t)
    ensures Proceeds(c, t)
  {
    match t.phase
    case Start =>
    case Using(o, i) =>
    case NewPerson(o, i) =>
    case Joining(o, i) =>
    case _ =>
  }

  lemma OtherProceeds(c: Db, t: Txn)
    requires (t.op.CreateOrganization? || t.op.SignIn? || t.op.CreatePerson?) && Knows(c, t) && Identities(c)
    ensures Proceeds(c, t)
  {}

  // ---- a departure's statements ----

  lemma MoreHeld(c: Db, a: ActorId, held: set<Hold>, more: set<Hold>, got: Gathered, sweeping: seq<OrgId>,
                 dropping: seq<OrgId>)
    requires Gathering(c, a, held, got, sweeping, dropping)
    ensures Gathering(c, a, held + more, got, sweeping, dropping)
  {
    forall o | HoldsRow(held, OrgRow(o)) ensures HoldsRow(held + more, OrgRow(o)) {
      var m :| Hold(OrgRow(o), m) in held;
      assert Hold(OrgRow(o), m) in held + more;
    }
  }

  lemma OrgLocksContinue(c: Db, t: Txn)
    requires t.op.LeaveService? && t.phase.OrgLocks? && Knows(c, t)
    ensures var r := Advance(c, t); r.Continue? && LeaveKnows(c, t.op, r.phase, t.held + Taken(c, t))
  {
    var orgs, all := t.phase.orgs, t.phase.all;
    if orgs == [] {
      assert forall o :: o in Sorted(all) <==> o in all;
    } else {
      forall o | o in all && o !in orgs[1..] ensures Hold(OrgRow(o), Update) in t.held + Taken(c, t) {
        assert o == orgs[0] || o !in orgs;
      }
    }
  }

  lemma ChecksContinue(c: Db, t: Txn)
    requires t.op.LeaveService? && t.phase.Checks? && Knows(c, t) && Advance(c, t).Continue?
    ensures LeaveKnows(c, t.op, Advance(c, t).phase, t.held + Taken(c, t))
  {}

  lemma ReadsContinue(c: Db, t: Txn)
    requires t.op.LeaveService? && (t.phase.Memberships? || t.phase.ListedOrgs?) && Knows(c, t)
    ensures var r := Advance(c, t); r.Continue? && LeaveKnows(c, t.op, r.phase, t.held + Taken(c, t))
  {
    if t.phase.ListedOrgs? {
      var got := Advance(c, t).phase.got;
      assert forall o :: o in Sorted(got.statuses.Keys) <==> o in got.statuses;
      assert forall o :: o in Sorted(got.listed) <==> o in got.listed;
    }
  }

  lemma SweepContinues(c: Db, t: Txn)
    requires t.op.LeaveService? && t.phase.Sweep? && Knows(c, t) && Advance(c, t).Continue?
    ensures LeaveKnows(c, t.op, Advance(c, t).phase, t.held + Taken(c, t))
  {
    var a, orgs, got := t.op.actor, t.phase.orgs, t.phase.got;
    var dropping := Sorted(got.listed);
    MoreHeld(c, a, t.held, Taken(c, t), got, orgs, dropping);
    if orgs != [] {
      var next := got.(teams := got.teams[orgs[0] := TeamsOf(c.orgs[orgs[0]], a)]);
      SweptOne(c, a, t.held + Taken(c, t), got, orgs, dropping, next);
    }
  }

  lemma SweptOne(c: Db, a: ActorId, held: set<Hold>, got: Gathered, orgs: seq<OrgId>, dropping: seq<OrgId>,
                 next: Gathered)
    requires Gathering(c, a, held, got, orgs, dropping) && orgs != [] && orgs[0] in c.orgs
    requires next == got.(teams := got.teams[orgs[0] := TeamsOf(c.orgs[orgs[0]], a)])
    requires forall t :: t in TeamsOf(c.orgs[orgs[0]], a) ==> Hold(TeamRow(orgs[0], t, a), Update) in held
    ensures Gathering(c, a, held, next, orgs, dropping)
  {
    forall o | o in next.statuses && o !in orgs && Audits(next, o) ensures HoldsRow(held, OrgRow(o)) {
      assert o != orgs[0];
      assert Audits(got, o);
    }
  }

  lemma SweepAuditContinues(c: Db, t: Txn)
    requires t.op.LeaveService? && t.phase.SweepAudit? && Knows(c, t)
    ensures var r := Advance(c, t); r.Continue? && LeaveKnows(c, t.op, r.phase, t.held + Taken(c, t))
  {
    var a, orgs, got := t.op.actor, t.phase.orgs, t.phase.got;
    var held := t.held + Taken(c, t);
    MoreHeld(c, a, t.held, Taken(c, t), got, orgs, Sorted(got.listed));
    forall o | o in got.statuses && o !in orgs[1..] ensures o in got.teams {
      assert o == orgs[0] || o !in orgs;
    }
    forall o | o in got.statuses && o !in orgs[1..] && Audits(got, o) ensures HoldsRow(held, OrgRow(o)) {
      if o == orgs[0] { assert Hold(OrgRow(o), KeyShare) in held; } else { assert o !in orgs; }
    }
  }

  lemma ListingsContinue(c: Db, t: Txn)
    requires t.op.LeaveService? && t.phase.Listings? && Knows(c, t) && Advance(c, t).Continue?
    ensures LeaveKnows(c, t.op, Advance(c, t).phase, t.held + Taken(c, t))
  {
    MoreHeld(c, t.op.actor, t.held, Taken(c, t), t.phase.got, [], t.phase.orgs);
  }

  lemma ListingAuditContinues(c: Db, t: Txn)
    requires t.op.LeaveService? && t.phase.ListingAudit? && Knows(c, t)
    ensures var r := Advance(c, t); r.Continue? && LeaveKnows(c, t.op, r.phase, t.held + Taken(c, t))
  {
    var a, orgs, got, found := t.op.actor, t.phase.orgs, t.phase.got, t.phase.found;
    MoreHeld(c, a, t.held, Taken(c, t), got, [], orgs);
    DroppedOne(c, a, t.held + Taken(c, t), got, orgs, found);
  }

  lemma DroppedAudits(held: set<Hold>, got: Gathered, orgs: seq<OrgId>, found: set<ChannelId>)
    requires AuditedHold(held, got, [], orgs) && orgs != []
    requires found != {} ==> Hold(OrgRow(orgs[0]), KeyShare) in held
    ensures AuditedHold(held, got.(channels := got.channels[orgs[0] := found]), [], orgs[1..])
  {
    var next := got.(channels := got.channels[orgs[0] := found]);
    assert forall o :: o in orgs <==> o == orgs[0] || o in orgs[1..];
    assert forall o :: o in next.statuses && Audits(next, o) ==> Audits(got, o);
    forall o | o in next.channels && o !in orgs[1..] && next.channels[o] != {} ensures HoldsRow(held, OrgRow(o)) {
      if o == orgs[0] { assert Hold(OrgRow(o), KeyShare) in held; }
    }
  }

  lemma DroppedOne(c: Db, a: ActorId, held: set<Hold>, got: Gathered, orgs: seq<OrgId>, found: set<ChannelId>)
    requires Gathering(c, a, held, got, [], orgs) && orgs != [] && orgs[0] in c.orgs
    requires found == ListedIn(c.orgs[orgs[0]], a)
    requires found != {} ==> Hold(OrgRow(orgs[0]), KeyShare) in held
    ensures Gathering(c, a, held, got.(channels := got.channels[orgs[0] := found]), [], orgs[1..])
  {
    var next := got.(channels := got.channels[orgs[0] := found]);
    assert forall o :: o in orgs <==> o == orgs[0] || o in orgs[1..];
    DroppedAudits(held, got, orgs, found);
    assert DroppedHold(c, a, next, orgs[1..]) && SweptHold(c, a, held, next, []);
  }

  lemma EntersContinue(c: Db, t: Txn)
    requires t.op.LeaveService? && (t.phase.Start? || t.phase.Scan?) && Knows(c, t) && Advance(c, t).Continue?
    ensures LeaveKnows(c, t.op, Advance(c, t).phase, t.held + Taken(c, t))
  {
    if t.phase.Scan? {
      assert forall o :: o in Sorted(ActiveOrgs(c, t.op.actor)) <==> ActiveIn(c, t.op.actor, o);
    }
  }

  lemma LocksProceed(c: Db, t: Txn)
    requires t.op.LeaveService? && (t.phase.Start? || t.phase.Scan? || t.phase.OrgLocks? || t.phase.Checks?)
    requires Knows(c, t) && Advance(c, t).Continue?
    ensures LeaveKnows(c, t.op, Advance(c, t).phase, t.held + Taken(c, t))
  {
    if t.phase.OrgLocks? { OrgLocksContinue(c, t); }
    else if t.phase.Checks? { ChecksContinue(c, t); }
    else { EntersContinue(c, t); }
  }

  lemma GathersProceed(c: Db, t: Txn)
    requires t.op.LeaveService? && Knows(c, t) && Advance(c, t).Continue?
    requires t.phase.Sweep? || t.phase.SweepAudit? || t.phase.Listings? || t.phase.ListingAudit?
    ensures LeaveKnows(c, t.op, Advance(c, t).phase, t.held + Taken(c, t))
  {
    if t.phase.Sweep? { SweepContinues(c, t); }
    else if t.phase.SweepAudit? { SweepAuditContinues(c, t); }
    else if t.phase.Listings? { ListingsContinue(c, t); }
    else { ListingAuditContinues(c, t); }
  }

  lemma LeaveProceeds(c: Db, t: Txn)
    requires t.op.LeaveService? && Knows(c, t)
    ensures Proceeds(c, t)
  {
    if Advance(c, t).Continue? {
      if t.phase.Start? || t.phase.Scan? || t.phase.OrgLocks? || t.phase.Checks? { LocksProceed(c, t); }
      else if t.phase.Memberships? || t.phase.ListedOrgs? { ReadsContinue(c, t); }
      else { GathersProceed(c, t); }
    }
  }

  lemma AlwaysProceeds(c: Db, t: Txn)
    requires Identities(c) && Knows(c, t)
    ensures Proceeds(c, t)
  {
    if t.op.InOrg? { InOrgProceeds(c, t); }
    else if t.op.CreateInvite? || t.op.RevokeInvite? { InviteProceeds(c, t); }
    else if t.op.AcceptInvite? { AcceptProceeds(c, t); }
    else if t.op.LeaveService? { LeaveProceeds(c, t); }
    else { OtherProceeds(c, t); }
  }

  // ---- a statement that commits ----

  /** A commit is the operation on the tables as they are now, and changes only what its locks cover. */
  ghost predicate Serializes(c: Db, t: Txn) {
    var r := Advance(c, t);
    r.Commit? ==> Land(c, t.op) == Result(Done, r.db) && Guarantee(c, r.db, t.held + Taken(c, t))
  }

  lemma MemberWriteStep(org: Org, o: OrgId, p: ActorId, a: ActorId, row: Membership, event: Option<Event>, h: set<Hold>)
    requires Hold(OrgRow(o), Update) in h && Hold(MemberRow(o, a), NoKeyUpdate) in h && a in org.members
    requires org.members[a].status.Left? <==> row.status.Left?
    ensures OrgStep(org, Logged(org.(members := org.members[a := row]), p, event), o, h)
  {
    assert HoldsRow(h, OrgRow(o));
  }

  lemma TeamWriteStep(org: Org, o: OrgId, p: ActorId, write: Write, event: Option<Event>, h: set<Hold>)
    requires write.PutTeamMember? || write.DropTeamMember?
    requires Hold(OrgRow(o), Update) in h && Hold(TeamRow(o, write.team, write.actor), Update) in h
    requires write.PutTeamMember? ==>
               HoldsRow(h, ActorRow(write.actor)) || (write.team, write.actor) in org.teamMembers
    ensures OrgStep(org, Logged(Perform(org, write), p, event), o, h)
  {
    assert HoldsRow(h, OrgRow(o));
  }

  lemma OtherWriteStep(org: Org, o: OrgId, p: ActorId, write: Write, event: Option<Event>, h: set<Hold>)
    requires write.Keep? || write.PutTeam? || write.PutChannel? || write.PutListing?
    requires Hold(OrgRow(o), Update) in h && (write.PutListing? ==> HoldsActor(h, write.actor))
    ensures OrgStep(org, Logged(Perform(org, write), p, event), o, h)
  {
    assert HoldsRow(h, OrgRow(o));
  }

  lemma WriteStep(org: Org, o: OrgId, p: ActorId, write: Write, event: Option<Event>, h: set<Hold>)
    requires Hold(OrgRow(o), Update) in h && forall x :: x in RowLocks(o, write) ==> x in h
    requires write.SetRole? ==> write.actor in org.members
    requires write.SetStatus? ==>
               write.actor in org.members && !org.members[write.actor].status.Left? && !write.status.Left?
    requires write.PutTeamMember? ==>
               HoldsRow(h, ActorRow(write.actor)) || (write.team, write.actor) in org.teamMembers
    requires write.PutListing? ==> HoldsActor(h, write.actor)
    ensures OrgStep(org, Logged(Perform(org, write), p, event), o, h)
  {
    match write
    case SetRole(a, role) =>
      assert Hold(MemberRow(o, a), NoKeyUpdate) in RowLocks(o, write);
      MemberWriteStep(org, o, p, a, org.members[a].(role := role), event, h);
    case SetStatus(a, status) =>
      assert Hold(MemberRow(o, a), NoKeyUpdate) in RowLocks(o, write);
      MemberWriteStep(org, o, p, a, org.members[a].(status := status), event, h);
    case PutTeamMember(t, a, _) =>
      assert Hold(TeamRow(o, t, a), Update) in RowLocks(o, write);
      TeamWriteStep(org, o, p, write, event, h);
    case DropTeamMember(t, a) =>
      assert Hold(TeamRow(o, t, a), Update) in RowLocks(o, write);
      TeamWriteStep(org, o, p, write, event, h);
    case _ => OtherWriteStep(org, o, p, write, event, h);
  }

  lemma PutOrgStep(c: Db, o: OrgId, org: Org, h: set<Hold>)
    requires o in c.orgs && OrgStep(c.orgs[o], org, o, h) && org.members.Keys == c.orgs[o].members.Keys
    ensures Guarantee(c, PutOrg(c, o, org), h)
  {}

  lemma InOrgApplies(c: Db, t: Txn)
    requires t.op.InOrg? && t.phase.Writing? && Knows(c, t) && Advance(c, t).Commit?
    ensures Apply(c, t.op) == Result(Done, Advance(c, t).db)
    ensures var d := Decide(t.phase.rows, t.phase.owners, t.phase.departed, t.op.performer, t.op.change);
            && d.Proceed? && t.op.org in c.orgs && t.phase.rows == c.orgs[t.op.org]
            && Violation(t.phase.rows, t.op.change).None?
            && Advance(c, t).db == PutOrg(c, t.op.org, Logged(Perform(t.phase.rows, d.write), t.op.performer, d.event))
  {
    assert t.phase.departed == Departed(c, t.op);
  }

  /** What a write rests on: the rows it names, and the locks of its foreign keys. */
  ghost predicate WriteHolds(org: Org, write: Write, h: set<Hold>) {
    && (write.SetRole? ==> write.actor in org.members)
    && (write.SetStatus? ==>
          write.actor in org.members && !org.members[write.actor].status.Left? && !write.status.Left?)
    && (write.PutTeamMember? ==>
          HoldsRow(h, ActorRow(write.actor)) || (write.team, write.actor) in org.teamMembers)
    && (write.PutListing? ==> HoldsActor(h, write.actor))
  }

  lemma DecisionHolds(c: Db, t: Txn, d: Decision)
    requires t.op.InOrg? && t.phase.Writing? && Knows(c, t) && d.Proceed?
    requires d == Decide(t.phase.rows, t.phase.owners, t.phase.departed, t.op.performer, t.op.change)
    requires Violation(t.phase.rows, t.op.change).None?
    ensures WriteHolds(t.phase.rows, d.write, t.held + Taken(c, t))
  {
    if t.op.change.AddTeamMember? { assert Hold(ActorRow(t.op.change.target), KeyShare) in Request(t); }
  }

  lemma InOrgGuarantees(c: Db, t: Txn, d: Decision)
    requires t.op.InOrg? && t.phase.Writing? && Knows(c, t) && d.Proceed?
    requires d == Decide(t.phase.rows, t.phase.owners, t.phase.departed, t.op.performer, t.op.change)
    requires Violation(t.phase.rows, t.op.change).None?
    ensures Guarantee(c, PutOrg(c, t.op.org, Logged(Perform(t.phase.rows, d.write), t.op.performer, d.event)),
                      t.held + Taken(c, t))
  {
    var op, rows, h := t.op, t.phase.rows, t.held + Taken(c, t);
    assert forall x :: x in RowLocks(op.org, d.write) ==> x in Request(t);
    DecisionHolds(c, t, d);
    WriteStep(rows, op.org, op.performer, d.write, d.event, h);
    SameMembers(rows, d.write, op.performer, d.event);
    PutOrgStep(c, op.org, Logged(Perform(rows, d.write), op.performer, d.event), h);
  }

  lemma SameMembers(org: Org, write: Write, p: ActorId, event: Option<Event>)
    ensures Logged(Perform(org, write), p, event).members.Keys == org.members.Keys
  {}

  lemma InOrgCommits(c: Db, t: Txn)
    requires t.op.InOrg? && Knows(c, t)
    ensures Serializes(c, t)
  {
    if Advance(c, t).Commit? {
      InOrgApplies(c, t);
      InOrgGuarantees(c, t, Decide(t.phase.rows, t.phase.owners, t.phase.departed, t.op.performer, t.op.change));
    }
  }

  lemma InvitedStep(org: Org, o: OrgId, i: InviteId, row: Invite, r: Record, h: set<Hold>)
    requires HoldsRow(h, OrgRow(o)) && (i in org.invites ==> HoldsInvite(h, o, i) && org.invites[i].token == row.token)
    ensures OrgStep(org, org.(invites := org.invites[i := row], audit := org.audit + [r]), o, h)
  {}

  lemma SameGuarantee(c: Db, h: set<Hold>)
    ensures Guarantee(c, c, h)
  {}

  lemma InviteCommits(c: Db, t: Txn)
    requires (t.op.CreateInvite? || t.op.RevokeInvite?) && Knows(c, t)
    ensures Serializes(c, t)
  {
    if Advance(c, t).Commit? {
      var o, h, d := t.op.org, t.held + Taken(c, t), Advance(c, t).db;
      assert Hold(OrgRow(o), Share) in h;
      if t.phase.RevokeLock? {
        SameGuarantee(c, h);
      } else {
        var i := if t.op.CreateInvite? then t.op.invite else t.op.revoked.value;
        var org, next := c.orgs[o], d.orgs[o];
        InvitedStep(org, o, i, next.invites[i], next.audit[|org.audit|], h);
        PutOrgStep(c, o, next, h);
      }
    }
  }

  lemma JoinedOrgStep(org: Org, o: OrgId, i: InviteId, a: ActorId, h: set<Hold>)
    requires i in org.invites && a !in org.members
    requires Hold(ActorRow(a), Update) in h && HoldsInvite(h, o, i) && HoldsRow(h, OrgRow(o))
    ensures OrgStep(org, Joined(org, i, a), o, h)
  {}

  lemma JoinedStep(c: Db, op: Op, o: OrgId, i: InviteId, h: set<Hold>)
    requires op.AcceptInvite? && o in c.orgs && i in c.orgs[o].invites
    requires Newcomer(c, op, h) && OrgStep(c.orgs[o], Joined(c.orgs[o], i, op.actor), o, h)
    requires op.actor !in c.users
    ensures Guarantee(c, JoinedDb(c, o, i, op), h)
  {}

  lemma AcceptCommits(c: Db, t: Txn)
    requires t.op.AcceptInvite? && Knows(c, t) && TokensUnique(c) && Identities(c)
    requires forall o :: o in c.orgs ==> People(c.actors, c.orgs[o])
    ensures Serializes(c, t)
  {
    if Advance(c, t).Commit? {
      var o, i, h := t.phase.org, t.phase.invite, t.held + Taken(c, t);
      assert Locate(c, t.op.presented) == At(o, i);
      assert Hold(OrgRow(o), KeyShare) in h;
      JoinedOrgStep(c.orgs[o], o, i, t.op.actor, h);
      JoinedStep(c, t.op, o, i, h);
    }
  }

  lemma PersonCommits(c: Db, t: Txn)
    requires t.op.CreatePerson? && Knows(c, t) && Identities(c)
    ensures Serializes(c, t)
  {}

  lemma FoundCommits(c: Db, t: Txn)
    requires t.op.CreateOrganization? && Knows(c, t)
    ensures Serializes(c, t)
  {}

  lemma SignInCommits(c: Db, t: Txn)
    requires t.op.SignIn? && Knows(c, t) && Identities(c)
    ensures Serializes(c, t)
  {
    if Advance(c, t).Commit? {
      var a := t.phase.person;
      assert Registered(c, t.op.email, a);
      assert PersonAt(c, t.op.email) == Some(a);
    }
  }

  // ---- a departure commits ----

  lemma GoneFromIsLeaving(org: Org, a: ActorId, o: OrgId, got: Gathered)
    requires TeamsOf(org, a) == if o in got.teams then got.teams[o] else {}
    requires ListedIn(org, a) == if o in got.channels then got.channels[o] else {}
    requires a in org.members <==> o in got.statuses
    requires o in got.statuses ==> (got.statuses[o].Left? <==> org.members[a].status.Left?)
    ensures GoneFrom(org, a, o, got) == LeaveOrg(org, a)
  {}

  lemma GatheredRows(c: Db, a: ActorId, held: set<Hold>, got: Gathered, o: OrgId)
    requires Gathering(c, a, held, got, [], []) && o in c.orgs && References(c.orgs[o])
    ensures TeamsOf(c.orgs[o], a) == if o in got.teams then got.teams[o] else {}
    ensures ListedIn(c.orgs[o], a) == if o in got.channels then got.channels[o] else {}
  {
    var org := c.orgs[o];
    if o !in got.teams {
      assert a !in org.members;
      assert forall k :: k in org.teamMembers ==> k.1 in org.members;
    }
  }

  lemma LeaveMembersStep(org: Org, a: ActorId, o: OrgId, held: set<Hold>)
    requires Hold(ActorRow(a), Update) in held && (a in org.members ==> Hold(MemberRow(o, a), NoKeyUpdate) in held)
    ensures MembersStep(org, LeaveOrg(org, a), o, held)
  {}

  lemma LeaveRowsStep(org: Org, a: ActorId, o: OrgId, held: set<Hold>)
    requires Hold(ActorRow(a), Update) in held
    requires forall t :: t in TeamsOf(org, a) ==> Hold(TeamRow(o, t, a), Update) in held
    ensures TeamsStep(org, LeaveOrg(org, a), o, held)
    ensures ListingsStep(org, LeaveOrg(org, a), held) && InvitesStep(org, LeaveOrg(org, a), o, held)
  {}

  lemma NotListed(org: Org, a: ActorId)
    requires ListedIn(org, a) == {}
    ensures a !in Listed(org)
  {
    forall k | k in org.listings ensures k.1 != a { assert k.1 == a ==> k.0 in ListedIn(org, a); }
  }

  lemma LeaveOrgStep(c: Db, a: ActorId, held: set<Hold>, got: Gathered, o: OrgId)
    requires Gathering(c, a, held, got, [], []) && o in c.orgs
    requires o in got.statuses ==> Hold(MemberRow(o, a), NoKeyUpdate) in held
    requires References(c.orgs[o]) && People(c.actors, c.orgs[o])
    ensures OrgStep(c.orgs[o], LeaveOrg(c.orgs[o], a), o, held)
  {
    var org := c.orgs[o];
    GatheredRows(c, a, held, got, o);
    if a !in org.members && ListedIn(org, a) == {} {
      NotListed(org, a);
      LeaveElsewhere(org, a);
    } else {
      assert a in org.members ==> Audits(got, o);
      assert HoldsRow(held, OrgRow(o));
      LeaveMembersStep(org, a, o, held);
      LeaveRowsStep(org, a, o, held);
    }
  }

  lemma GoneOneOrg(c: Db, a: ActorId, held: set<Hold>, got: Gathered, o: OrgId)
    requires Gathering(c, a, held, got, [], []) && o in c.orgs && References(c.orgs[o])
    ensures GoneFrom(c.orgs[o], a, o, got) == LeaveOrg(c.orgs[o], a)
  {
    GatheredRows(c, a, held, got, o);
    GoneFromIsLeaving(c.orgs[o], a, o, got);
  }

  lemma GoneAt(c: Db, a: ActorId, got: Gathered)
    requires a in c.actors
    ensures Gone(c, a, got).orgs.Keys == c.orgs.Keys && Leaving(c, a).orgs.Keys == c.orgs.Keys
    ensures forall o :: o in c.orgs ==> Gone(c, a, got).orgs[o] == GoneFrom(c.orgs[o], a, o, got)
    ensures forall o :: o in c.orgs ==> Leaving(c, a).orgs[o] == LeaveOrg(c.orgs[o], a)
  {}

  lemma MapsAgree<K, V>(m: map<K, V>, n: map<K, V>)
    requires m.Keys == n.Keys && forall k :: k in m ==> m[k] == n[k]
    ensures m == n
  {}

  lemma GonePeople(c: Db, a: ActorId, got: Gathered)
    requires a in c.actors
    ensures Gone(c, a, got).actors == Leaving(c, a).actors && Gone(c, a, got).users == Leaving(c, a).users
    ensures Gone(c, a, got).sessions == Leaving(c, a).sessions
  {}

  lemma SameTables(d: Db, e: Db)
    requires d.actors == e.actors && d.users == e.users && d.sessions == e.sessions && d.orgs == e.orgs
    ensures d == e
  {}

  lemma GoneIsLeaving(c: Db, a: ActorId, held: set<Hold>, got: Gathered)
    requires Gathering(c, a, held, got, [], []) && a in c.actors
    requires forall o :: o in c.orgs ==> References(c.orgs[o])
    ensures Gone(c, a, got) == Leaving(c, a)
  {
    forall o | o in c.orgs ensures GoneFrom(c.orgs[o], a, o, got) == LeaveOrg(c.orgs[o], a) {
      GoneOneOrg(c, a, held, got, o);
    }
    GoneAt(c, a, got);
    MapsAgree(Gone(c, a, got).orgs, Leaving(c, a).orgs);
    GonePeople(c, a, got);
    SameTables(Gone(c, a, got), Leaving(c, a));
  }

  lemma LeavingGuarantee(c: Db, a: ActorId, held: set<Hold>, got: Gathered)
    requires Gathering(c, a, held, got, [], [])
    requires forall o :: o in got.statuses ==> Hold(MemberRow(o, a), NoKeyUpdate) in held
    requires forall o :: o in c.orgs ==> References(c.orgs[o]) && People(c.actors, c.orgs[o])
    ensures Guarantee(c, Leaving(c, a), held)
  {
    forall o | o in c.orgs ensures OrgStep(c.orgs[o], Leaving(c, a).orgs[o], o, held) {
      LeaveOrgStep(c, a, held, got, o);
    }
  }

  lemma LeaveCommits(c: Db, t: Txn)
    requires t.op.LeaveService? && Knows(c, t)
    requires forall o :: o in c.orgs ==> References(c.orgs[o]) && People(c.actors, c.orgs[o])
    ensures Serializes(c, t)
  {
    if Advance(c, t).Commit? {
      var a, got, h := t.op.actor, t.phase.got, t.held + Taken(c, t);
      MoreHeld(c, a, t.held, Taken(c, t), got, [], []);
      forall o | o in got.statuses ensures Hold(MemberRow(o, a), NoKeyUpdate) in h {
        assert Hold(MemberRow(o, a), NoKeyUpdate) in Request(t);
      }
      GoneIsLeaving(c, a, h, got);
      LeavingGuarantee(c, a, h, got);
    }
  }

  lemma AlwaysSerializes(c: Db, t: Txn)
    requires Sound(c) && Knows(c, t)
    ensures Serializes(c, t)
  {
    assert forall o :: o in c.orgs ==> OrgOk(c.actors, c.orgs[o]);
    CommitsByKind(c, t);
  }

  lemma TenantCommits(c: Db, t: Txn)
    requires t.op.InOrg? || t.op.CreateInvite? || t.op.RevokeInvite?
    requires Knows(c, t)
    ensures Serializes(c, t)
  {
    if t.op.InOrg? { InOrgCommits(c, t); } else { InviteCommits(c, t); }
  }

  lemma PersonalCommits(c: Db, t: Txn)
    requires t.op.CreatePerson? || t.op.CreateOrganization? || t.op.SignIn?
    requires Identities(c) && Knows(c, t)
    ensures Serializes(c, t)
  {
    if t.op.CreatePerson? { PersonCommits(c, t); }
    else if t.op.CreateOrganization? { FoundCommits(c, t); }
    else { SignInCommits(c, t); }
  }

  lemma CommitsByKind(c: Db, t: Txn)
    requires Identities(c) && TokensUnique(c) && Knows(c, t)
    requires forall o :: o in c.orgs ==> References(c.orgs[o]) && People(c.actors, c.orgs[o])
    ensures Serializes(c, t)
  {
    if t.op.InOrg? || t.op.CreateInvite? || t.op.RevokeInvite? { TenantCommits(c, t); }
    else if t.op.AcceptInvite? { AcceptCommits(c, t); }
    else if t.op.LeaveService? { LeaveCommits(c, t); }
    else { PersonalCommits(c, t); }
  }

  // ---- every interleaving ----

  ghost predicate SysOk(s: Sys) {
    && Sound(s.db)
    && (forall id :: id in s.txns ==> Knows(s.db, s.txns[id]))
    && (forall i, j :: i in s.txns && j in s.txns && i != j ==> Compatible(s.txns[i].held, s.txns[j].held))
  }

  lemma LocksStayCompatible(s: Sys, step: Step)
    requires Enabled(s, step)
    requires forall i, j :: i in s.txns && j in s.txns && i != j ==> Compatible(s.txns[i].held, s.txns[j].held)
    ensures var n := Do(s, step);
            forall i, j :: i in n.txns && j in n.txns && i != j ==> Compatible(n.txns[i].held, n.txns[j].held)
  {
    var n := Do(s, step);
    forall i, j | i in n.txns && j in n.txns && i != j ensures Compatible(n.txns[i].held, n.txns[j].held) {
      if step.Run? && i == step.id { TakenCompatible(s, i, j); }
      if step.Run? && j == step.id { TakenCompatible(s, j, i); }
    }
  }

  lemma TakenCompatible(s: Sys, id: nat, other: nat)
    requires id in s.txns && other in s.txns && id != other && Grantable(s, id)
    requires Compatible(s.txns[id].held, s.txns[other].held)
    ensures Compatible(s.txns[id].held + Taken(s.db, s.txns[id]), s.txns[other].held)
    ensures Compatible(s.txns[other].held, s.txns[id].held + Taken(s.db, s.txns[id]))
  {
    var mine, theirs := s.txns[id].held + Taken(s.db, s.txns[id]), s.txns[other].held;
    assert Compatible(mine, theirs);
    forall x, y | x in theirs && y in mine ensures !Clash(x, y) {
      assert !Clash(y, x);
      ConflictsSymmetric(x.mode, y.mode);
    }
  }

  lemma ConflictsSymmetric(m: Mode, n: Mode)
    ensures Conflicts(m, n) == Conflicts(n, m)
  {}

  /** The operation a step commits, if it commits one. */
  ghost function CommittedBy(s: Sys, step: Step): seq<Op>
    requires Enabled(s, step)
  {
    if step.Run? && Advance(s.db, s.txns[step.id]).Commit? then [s.txns[step.id].op] else []
  }

  lemma StepKeeps(s: Sys, step: Step)
    requires SysOk(s) && Enabled(s, step)
    ensures SysOk(Do(s, step))
    ensures Do(s, step).db == Landings(s.db, CommittedBy(s, step))
    ensures forall op :: op in CommittedBy(s, step) ==> Land(s.db, op).reply == Done
  {
    LocksStayCompatible(s, step);
    match step
    case Begin(id, op) =>
    case Crash(id) =>
    case Run(id) =>
      var t := s.txns[id];
      match Advance(s.db, t)
      case Continue(_, _) => AlwaysProceeds(s.db, t);
      case Abort =>
      case Commit(d) => CommitKeeps(s, id, d);
  }

  lemma CommitKeeps(s: Sys, id: nat, d: Db)
    requires SysOk(s) && id in s.txns && Grantable(s, id) && Advance(s.db, s.txns[id]) == Commit(d)
    ensures Sound(d) && Land(s.db, s.txns[id].op) == Result(Done, d) && Landings(s.db, [s.txns[id].op]) == d
    ensures forall j :: j in s.txns && j != id ==> Knows(d, s.txns[j])
    ensures Guarantee(s.db, d, s.txns[id].held + Taken(s.db, s.txns[id]))
  {
    var t := s.txns[id];
    AlwaysSerializes(s.db, t);
    LandSound(s.db, t.op);
    LandOne(s.db, t.op);
    forall j | j in s.txns && j != id ensures Knows(d, s.txns[j]) {
      TakenCompatible(s, id, j);
      Stable(s.db, d, t.held + Taken(s.db, t), s.txns[j]);
    }
  }

  /** The tables after the operations committed one after another. */
  ghost function Landings(db: Db, ops: seq<Op>): Db
    decreases |ops|
  {
    if ops == [] then db else Landings(Land(db, ops[0]).db, ops[1..])
  }

  ghost predicate AllLand(db: Db, ops: seq<Op>)
    decreases |ops|
  {
    ops != [] ==> Land(db, ops[0]).reply.Done? && AllLand(Land(db, ops[0]).db, ops[1..])
  }

  lemma LandOne(db: Db, op: Op)
    ensures Landings(db, [op]) == Land(db, op).db
  {
    assert [op][1..] == [];
  }

  lemma {:induction false} LandingsConcat(db: Db, ops: seq<Op>, more: seq<Op>)
    ensures Landings(db, ops + more) == Landings(Landings(db, ops), more)
    decreases |ops|
  {
    if ops == [] {
      assert ops + more == more;
    } else {
      assert (ops + more)[1..] == ops[1..] + more;
      LandingsConcat(Land(db, ops[0]).db, ops[1..], more);
    }
  }

  ghost predicate IsRun(s: Sys, steps: seq<Step>)
    decreases |steps|
  {
    steps != [] ==> Enabled(s, steps[0]) && IsRun(Do(s, steps[0]), steps[1..])
  }

  ghost function Reached(s: Sys, steps: seq<Step>): Sys
    requires IsRun(s, steps)
    decreases |steps|
  {
    if steps == [] then s else Reached(Do(s, steps[0]), steps[1..])
  }

  /** Every step of the run is one `ok` allows. */
  ghost predicate Always(ok: (Sys, Step) -> bool, s: Sys, steps: seq<Step>)
    requires IsRun(s, steps)
    decreases |steps|
  {
    steps != [] ==> ok(s, steps[0]) && Always(ok, Do(s, steps[0]), steps[1..])
  }

  /** The operations a run commits, in commit order. */
  ghost function Committed(s: Sys, steps: seq<Step>): seq<Op>
    requires IsRun(s, steps)
    decreases |steps|
  {
    if steps == [] then [] else CommittedBy(s, steps[0]) + Committed(Do(s, steps[0]), steps[1..])
  }

  /** Every interleaving, whatever its callers do, commits what its committed operations do one after another in commit
      order, a departure's owner check alone being as old as the statement that made it. */
  lemma {:induction false} InterleavingsAreSerial(s: Sys, steps: seq<Step>)
    requires SysOk(s) && IsRun(s, steps)
    ensures SysOk(Reached(s, steps))
    ensures Reached(s, steps).db == Landings(s.db, Committed(s, steps)) && AllLand(s.db, Committed(s, steps))
    decreases |steps|
  {
    if steps != [] {
      StepKeeps(s, steps[0]);
      var next, first := Do(s, steps[0]), CommittedBy(s, steps[0]);
      var later := Committed(next, steps[1..]);
      InterleavingsAreSerial(next, steps[1..]);
      LandingsConcat(s.db, first, later);
      if first != [] {
        LandOne(s.db, first[0]);
        assert (first + later)[1..] == later;
      } else {
        assert first + later == later;
      }
    }
  }

  /** What every commit keeps, every interleaving keeps. */
  lemma {:induction false} RunsKeep(inv: Db -> bool, s: Sys, steps: seq<Step>)
    requires SysOk(s) && IsRun(s, steps) && inv(s.db)
    requires forall c, op :: Sound(c) && inv(c) ==> inv(Land(c, op).db)
    ensures inv(Reached(s, steps).db) && Sound(Reached(s, steps).db)
    decreases |steps|
  {
    if steps != [] {
      StepKeeps(s, steps[0]);
      var next, first := Do(s, steps[0]), CommittedBy(s, steps[0]);
      if first != [] { LandOne(s.db, first[0]); }
      RunsKeep(inv, next, steps[1..]);
    }
  }
}
