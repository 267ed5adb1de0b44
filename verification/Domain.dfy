/** Identities, enumerations and the membership rules that need no storage. */
module Domain {

  // A Uuid is modelled by its 128-bit value, so that `ORDER BY id` is the order of naturals.
  type ActorId = nat
  type OrgId = nat
  type TeamId = nat
  type ChannelId = nat
  type InviteId = nat

  type TokenHash = string
  type Time = int

  datatype Option<+T> = None | Some(value: T)

  datatype OrganizationRole = Owner | Admin | Member
  datatype MemberStatus = Active | Suspended | Left
  datatype TeamRole = Manager | Member
  datatype InviteKind = ForOrganization | ForTeam(team: TeamId)
  datatype ChannelScope = OrganizationWide | OfTeam(team: TeamId)

  datatype Capability = InviteMember

  predicate Holds(role: OrganizationRole, capability: Capability) {
    match capability
    case InviteMember => role.Owner? || role.Admin?
  }

  datatype OwnerChange = Demote(actor: ActorId) | Suspend(actor: ActorId) | Leave(actor: ActorId)

  /** True iff the change leaves an active owner other than the actor it concerns. */
  predicate CheckOwnerChange(activeOwners: set<ActorId>, change: OwnerChange) {
    exists owner :: owner in activeOwners && owner != change.actor
  }

  /** lower(... COLLATE "C"): ASCII letters only, the same on every server. */
  function Lower(s: string): (r: string)
    ensures |r| == |s|
  {
    seq(|s|, i requires 0 <= i < |s| => if 'A' <= s[i] <= 'Z' then s[i] - 'A' + 'a' else s[i])
  }

  /** The slug format the organizations table checks. */
  predicate ValidSlug(slug: string) {
    && 1 <= |slug| <= 32
    && slug[0] != '-' && slug[|slug| - 1] != '-'
    && forall c :: c in slug ==> 'a' <= c <= 'z' || '0' <= c <= '9' || c == '-'
  }

  // ---- ORDER BY id over a finite set of ids ----

  predicate IsLeast(m: nat, ids: set<nat>) {
    m in ids && forall x :: x in ids ==> m <= x
  }

  lemma LeastOfMore(m: nat, ids: set<nat>, a: nat)
    requires a in ids && (ids == {a} || IsLeast(m, ids - {a}))
    ensures IsLeast(if ids == {a} || a <= m then a else m, ids)
  {
    var least := if ids == {a} || a <= m then a else m;
    forall x | x in ids ensures least <= x {
      assert x == a || x in ids - {a};
    }
  }

  lemma {:induction false} MinExists(ids: set<nat>)
    requires ids != {}
    ensures exists m :: IsLeast(m, ids)
  {
    var a :| a in ids;
    if ids == {a} {
      LeastOfMore(a, ids, a);
    } else {
      MinExists(ids - {a});
      var m :| IsLeast(m, ids - {a});
      LeastOfMore(m, ids, a);
    }
  }

  function Least(ids: set<nat>): (m: nat)
    requires ids != {}
    ensures m in ids && forall x :: x in ids ==> m <= x
  {
    MinExists(ids);
    var m :| IsLeast(m, ids);
    m
  }

  predicate Ascending(s: seq<nat>) {
    forall i, j :: 0 <= i < j < |s| ==> s[i] < s[j]
  }

  /** The ids of a set, smallest first. */
  function Sorted(ids: set<nat>): (r: seq<nat>)
    ensures forall x :: x in r <==> x in ids
    ensures Ascending(r)
    decreases ids
  {
    if ids == {} then []
    else
      var m := Least(ids);
      Prepend(m, Sorted(ids - {m}))
  }

  function Prepend(m: nat, rest: seq<nat>): (r: seq<nat>)
    requires Ascending(rest) && forall x :: x in rest ==> m < x
    ensures Ascending(r)
    ensures forall x :: x in r <==> x == m || x in rest
  {
    var r := [m] + rest;
    assert forall i :: 0 < i < |r| ==> r[i] == rest[i - 1] && r[i] in rest;
    r
  }
}
