/** The trigger that guards an invite's row, and why the row's last writer proves a use in the same transaction. */
module InviteGuard {
  import opened Domain

  /** The columns the trigger compares. */
  datatype Row = Row(maxUses: int, used: int, revokedAt: Option<Time>, expires: Time)

  predicate AdmitsInsert(row: Row) {
    row.used == 0
  }

  /** A bounded increment that changes nothing about the revocation, or the first revocation. */
  predicate AdmitsUpdate(old_: Row, new_: Row, now: Time) {
    if new_.used != old_.used then
      && new_.used == old_.used + 1 && old_.used < old_.maxUses
      && old_.revokedAt.None? && old_.expires > now && new_.revokedAt == old_.revokedAt
    else old_.revokedAt.None? && new_.revokedAt.Some?
  }

  /** One write of the row: the version it produces, its transaction (xmin) and when it ran. */
  datatype Write = Write(row: Row, writer: nat, now: Time)

  /** The versions of one row, oldest first, each let through by the trigger. */
  ghost predicate Guarded(versions: seq<Write>) {
    && |versions| > 0
    && AdmitsInsert(versions[0].row)
    && forall k :: 0 < k < |versions| ==> AdmitsUpdate(versions[k - 1].row, versions[k].row, versions[k].now)
  }

  function Last(versions: seq<Write>): Write
    requires |versions| > 0
  {
    versions[|versions| - 1]
  }

  /** What organization_members_insert_invite asks of the row: unrevoked, used, last written by this transaction. */
  predicate Proves(v: Write, tx: nat) {
    v.row.revokedAt.None? && v.row.used > 0 && v.writer == tx
  }

  /** Version `k` is a use: one more than the version before it, within the limit, before expiry and revocation. */
  predicate IsUse(versions: seq<Write>, k: nat) {
    && 0 < k < |versions|
    && var old_ := versions[k - 1].row;
       && versions[k].row.used == old_.used + 1 && 0 <= old_.used < old_.maxUses
       && old_.revokedAt.None? && versions[k].row.revokedAt.None? && old_.expires > versions[k].now
  }

  function Uses(versions: seq<Write>): nat {
    if |versions| == 0 then 0
    else (if IsUse(versions, |versions| - 1) then 1 else 0) + Uses(versions[..|versions| - 1])
  }

  /** used_count is the number of uses the row has seen. */
  lemma {:induction false} CountIsUses(versions: seq<Write>)
    requires Guarded(versions)
    ensures Last(versions).row.used == Uses(versions)
    decreases |versions|
  {
    var init := versions[..|versions| - 1];
    if |versions| == 1 {
      assert Uses(init) == 0;
    } else {
      CountIsUses(init);
      assert AdmitsUpdate(Last(init).row, Last(versions).row, Last(versions).now);
    }
  }

  /** The membership policy accepts a row exactly when this transaction's own write of it was a use: a past use, a
      fresh row, a no-op or a revocation is no proof. */
  lemma ProofIsAUse(versions: seq<Write>, tx: nat)
    requires Guarded(versions)
    ensures Proves(Last(versions), tx) <==> IsUse(versions, |versions| - 1) && Last(versions).writer == tx
  {
    CountIsUses(versions);
    if |versions| > 1 {
      var init := versions[..|versions| - 1];
      CountIsUses(init);
      assert AdmitsUpdate(Last(init).row, Last(versions).row, Last(versions).now);
    }
  }

  /** No write follows a revocation: only the last version of a row can be a revoked one, and the use count it was
      revoked with is final. */
  lemma RevokedIsLast(versions: seq<Write>, k: nat)
    requires Guarded(versions) && k < |versions| - 1
    ensures versions[k].row.revokedAt.None?
    ensures versions[k + 1].row.revokedAt.Some? ==> versions[k + 1].row.used == versions[k].row.used
                                                    && k + 1 == |versions| - 1
  {
    assert AdmitsUpdate(versions[k].row, versions[k + 1].row, versions[k + 1].now);
    if k + 1 < |versions| - 1 { assert AdmitsUpdate(versions[k + 1].row, versions[k + 2].row, versions[k + 2].now); }
  }
}
