/** What every interleaving guarantees, and what careful ones guarantee beyond it. */
module Interleavings {
  import opened Domain
  import opened Store
  import opened Operations
  import opened Integrity
  import R = Runs
  import P = Replay
  import opened Transactions
  import opened Rely
  import opened Serial
  import opened Owners

  // ---- every interleaving ----

  /** A committed departure stays committed and erased, whatever was in flight when it committed, a reactivation or
      sign-in of the departed actor included. */
  lemma DepartureSurvives(s: Sys, steps: seq<Step>, a: ActorId)
    requires SysOk(s) && IsRun(s, steps) && R.HasDeparted(s.db, a)
    ensures var db := Reached(s, steps).db; R.HasDeparted(db, a) && R.Erased(db, a)
  {
    forall c, op | Sound(c) && R.HasDeparted(c, a) ensures R.HasDeparted(Land(c, op).db, a) {
      R.StaysDeparted(c, op, a);
    }
    RunsKeep(c => R.HasDeparted(c, a), s, steps);
    R.DepartedAreErased(Reached(s, steps).db, a);
  }

  /** The committed audit log of every organization replays to the committed organization. */
  lemma LogsSurvive(s: Sys, steps: seq<Step>)
    requires SysOk(s) && IsRun(s, steps) && P.AllFaithful(false, s.db)
    ensures P.AllFaithful(false, Reached(s, steps).db)
  {
    forall c, op | Sound(c) && P.AllFaithful(false, c) ensures P.AllFaithful(false, Land(c, op).db) {
      P.LandFaithful(c, op);
    }
    RunsKeep(c => P.AllFaithful(false, c), s, steps);
  }

  /** used_count is the number of members the log credits to the invite, within the limit, at every moment. */
  lemma InvitesAreConserved(s: Sys, steps: seq<Step>, o: OrgId, i: InviteId)
    requires SysOk(s) && IsRun(s, steps)
    requires var db := Reached(s, steps).db; o in db.orgs && i in db.orgs[o].invites
    ensures var org := Reached(s, steps).db.orgs[o];
            && 0 <= org.invites[i].used <= org.invites[i].maxUses
            && Admitted(org.audit, i) <= org.members.Keys && |Admitted(org.audit, i)| == org.invites[i].used
  {
    InterleavingsAreSerial(s, steps);
    var db := Reached(s, steps).db;
    assert OrgOk(db.actors, db.orgs[o]);
    assert InviteSpent(db.orgs[o], i);
  }

  /** A revoked invite keeps its use count through every later interleaving. */
  lemma RevocationSurvives(s: Sys, steps: seq<Step>, o: OrgId, i: InviteId, used: int)
    requires SysOk(s) && IsRun(s, steps) && R.RevokedAt(s.db, o, i, used)
    ensures R.RevokedAt(Reached(s, steps).db, o, i, used)
  {
    forall c, op | Sound(c) && R.RevokedAt(c, o, i, used) ensures R.RevokedAt(Land(c, op).db, o, i, used) {
      R.StaysRevoked(c, op, o, i, used);
    }
    RunsKeep(c => R.RevokedAt(c, o, i, used), s, steps);
  }

  /** When the creation or revocation of an invite commits, its performer is at that moment an active member
      holding the capability. */
  lemma AuthorityAtCommit(s: Sys, id: nat)
    requires SysOk(s) && id in s.txns && (s.txns[id].op.CreateInvite? || s.txns[id].op.RevokeInvite?)
    requires Advance(s.db, s.txns[id]).Commit?
    ensures var op := s.txns[id].op;
            ActiveIn(s.db, op.performer, op.org)
            && s.db.orgs[op.org].members[op.performer].status == Active
            && s.db.orgs[op.org].members[op.performer].role in {Owner, Admin}
  {
    AlwaysSerializes(s.db, s.txns[id]);
  }

  /** Every organization-scoped operation that commits has a performer active in that organization at that moment. */
  lemma ActivityAtCommit(s: Sys, id: nat)
    requires SysOk(s) && id in s.txns && R.Scoped(s.txns[id].op) && Advance(s.db, s.txns[id]).Commit?
    ensures ActiveIn(s.db, s.txns[id].op.performer, s.txns[id].op.org)
  {
    AlwaysSerializes(s.db, s.txns[id]);
  }

  // ---- careful interleavings ----

  /** In every state a careful run reaches, with any transactions in flight, every organization has an active owner. */
  lemma OwnersSurvive(s: Sys, steps: seq<Step>)
    requires SysOk(s) && Vigilant(s) && IsRun(s, steps) && Always(Careful, s, steps)
    ensures AllOwned(Reached(s, steps).db)
  {
    CarefulRunsAreSerial(s, steps);
  }

  /** In careful runs no committed record ends an organization's last active owner. */
  lemma OwnerRecordsSurvive(s: Sys, steps: seq<Step>)
    requires SysOk(s) && Vigilant(s) && IsRun(s, steps) && Always(Careful, s, steps) && P.AllFaithful(true, s.db)
    ensures P.AllFaithful(true, Reached(s, steps).db)
  {
    CarefulRunsAreSerial(s, steps);
    P.LogsRebuildOrganizations(s.db, Committed(s, steps));
  }

  // ---- from an empty installation ----

  lemma FreshInstallation()
    ensures SysOk(Sys(EMPTY, map[])) && Vigilant(Sys(EMPTY, map[]))
    ensures P.AllFaithful(true, EMPTY) && P.AllFaithful(false, EMPTY)
  {
    EmptyOk();
  }

  /** Whatever interleaving leads from an empty installation, its tables are sound and every log replays to its
      organization; a careful one owns every organization and has no record that ended a last owner. */
  lemma FromEmpty(steps: seq<Step>)
    requires IsRun(Sys(EMPTY, map[]), steps)
    ensures var db := Reached(Sys(EMPTY, map[]), steps).db; Sound(db) && P.AllFaithful(false, db)
    ensures Always(Careful, Sys(EMPTY, map[]), steps) ==>
              var db := Reached(Sys(EMPTY, map[]), steps).db; AllOwned(db) && P.AllFaithful(true, db)
  {
    FreshInstallation();
    InterleavingsAreSerial(Sys(EMPTY, map[]), steps);
    LogsSurvive(Sys(EMPTY, map[]), steps);
    if Always(Careful, Sys(EMPTY, map[]), steps) {
      OwnersSurvive(Sys(EMPTY, map[]), steps);
      OwnerRecordsSurvive(Sys(EMPTY, map[]), steps);
    }
  }
}
