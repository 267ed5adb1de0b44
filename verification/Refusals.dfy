/** Aborts among interleaved transactions: a transaction gives up only where its operation, run alone at that moment,
    would be refused as well, or where another commit has overtaken what it read. */
module Refusals {
  import opened Domain
  import opened Store
  import opened Operations
  import opened Integrity
  import opened Transactions
  import opened Rely
  import opened Serial

  /** Suspended in an organization after it listed it and before it locked it, a departing actor no longer sees its
      owners; and a person that departs after its password check has no account to sign in to. */
  ghost predicate Overtaken(c: Db, t: Txn) {
    || (t.op.LeaveService? && t.phase.Checks? && t.phase.orgs != [] && !ActiveIn(c, t.op.actor, t.phase.orgs[0]))
    || (t.op.SignIn? && t.phase.PasswordAccepted? && t.phase.person in c.actors && c.actors[t.phase.person].departed)
  }

  /** If the statement aborts, the operation is refused on the tables as they are, or was overtaken. */
  ghost predicate Justified(c: Db, t: Txn) {
    Advance(c, t).Abort? ==> Apply(c, t.op).reply.Refused? || Overtaken(c, t)
  }

  lemma ChangeJustified(c: Db, t: Txn)
    requires t.op.InOrg? && Knows(c, t)
    ensures Justified(c, t)
  {}

  lemma InviteJustified(c: Db, t: Txn)
    requires (t.op.CreateInvite? || t.op.RevokeInvite?) && Knows(c, t)
    ensures Justified(c, t)
  {}

  lemma AcceptanceJustified(c: Db, t: Txn)
    requires TokensUnique(c) && t.op.AcceptInvite? && Knows(c, t)
    ensures Justified(c, t)
  {
    if (t.phase.Using? || t.phase.NewPerson?) && Presents(c, t.op.presented, t.phase.org, t.phase.invite) {
      assert Locate(c, t.op.presented) == At(t.phase.org, t.phase.invite);
    }
  }

  lemma DepartureJustified(c: Db, t: Txn)
    requires t.op.LeaveService? && Knows(c, t)
    ensures Justified(c, t)
  {
    if t.phase.Checks? && t.phase.orgs != [] && ActiveIn(c, t.op.actor, t.phase.orgs[0])
       && !OwnersRemain(c, t.op.actor, t.phase.orgs[0])
    {
      assert t.phase.orgs[0] in Abandoned(c, t.op.actor);
    }
  }

  lemma OtherJustified(c: Db, t: Txn)
    requires Identities(c) && (t.op.CreatePerson? || t.op.CreateOrganization? || t.op.SignIn?) && Knows(c, t)
    ensures Justified(c, t)
  {
    if t.op.SignIn? && !t.phase.Start? { assert WasRegistered(c, t.op, t.phase.person); }
  }

  lemma AbortsAreRefusals(c: Db, t: Txn)
    requires Sound(c) && Knows(c, t)
    ensures Advance(c, t).Abort? ==> Apply(c, t.op).reply.Refused? || Overtaken(c, t)
    ensures Overtaken(c, t) ==> Advance(c, t).Abort?
  {
    if t.op.InOrg? { ChangeJustified(c, t); }
    else if t.op.CreateInvite? || t.op.RevokeInvite? { InviteJustified(c, t); }
    else if t.op.AcceptInvite? { AcceptanceJustified(c, t); }
    else if t.op.LeaveService? { DepartureJustified(c, t); }
    else { OtherJustified(c, t); }
  }
}
