/** Where rows come from: after any interleaving, every session, user, membership and departed actor is accounted for
    by an operation the interleaving committed, with the very columns that operation was given. */
module Origins {
  import opened Domain
  import opened Store
  import opened Operations
  import opened Integrity
  import opened Transactions
  import opened Rely
  import opened Serial
  import opened Outcomes

  // ---- every commit ----

  /** If the step commits, its operation has found and left the rows it is to find and leave. */
  ghost predicate Shows(s: Sys, step: Step) {
    Enabled(s, step) && forall op :: op in CommittedBy(s, step) ==> Happened(op, s.db, Do(s, step).db)
  }

  lemma StepShows(s: Sys, step: Step)
    requires SysOk(s) && Enabled(s, step)
    ensures Shows(s, step)
  {
    StepKeeps(s, step);
    forall op | op in CommittedBy(s, step) ensures Happened(op, s.db, Do(s, step).db) {
      LandOne(s.db, op);
      WhatSucceedsHappened(s.db, op, Do(s, step).db);
    }
  }

  /** In every interleaving each commit leaves, of the tables as they are at that moment, exactly what its operation is
      to leave. */
  lemma {:induction false} CommitsHappened(s: Sys, steps: seq<Step>)
    requires SysOk(s) && IsRun(s, steps)
    ensures Always(Shows, s, steps)
    decreases |steps|
  {
    if steps != [] {
      StepShows(s, steps[0]);
      StepKeeps(s, steps[0]);
      CommitsHappened(Do(s, steps[0]), steps[1..]);
    }
  }

  // ---- rows that stay ----

  lemma LandHappened(c: Db, op: Op)
    requires Sound(c) && Land(c, op).reply.Done?
    ensures Happened(op, c, Land(c, op).db) && Sound(Land(c, op).db)
  {
    WhatSucceedsHappened(c, op, Land(c, op).db);
    LandSound(c, op);
  }

  lemma ActorStays(c: Db, op: Op, d: Db, a: ActorId)
    requires Happened(op, c, d) && a in c.actors
    ensures a in d.actors && (!d.actors[a].departed ==> d.actors[a] == c.actors[a])
    ensures Identities(c) && a in d.users ==> a in c.users && d.users[a] == c.users[a]
  {}

  /** Actors are never removed, a person's row stays as it was made until the person departs, and nobody's id is made a
      person's again. */
  lemma {:induction false} PersonStays(c: Db, ops: seq<Op>, a: ActorId)
    requires Sound(c) && AllLand(c, ops) && a in c.actors
    ensures var d := Landings(c, ops);
            && a in d.actors && (!d.actors[a].departed ==> d.actors[a] == c.actors[a])
            && (a in d.users ==> a in c.users && d.users[a] == c.users[a])
    decreases |ops|
  {
    if ops != [] {
      var d := Land(c, ops[0]).db;
      LandHappened(c, ops[0]);
      ActorStays(c, ops[0], d, a);
      PersonStays(d, ops[1..], a);
    }
  }

  lemma LandingsSound(c: Db, ops: seq<Op>)
    requires Sound(c)
    ensures Sound(Landings(c, ops))
    decreases |ops|
  {
    if ops != [] {
      LandSound(c, ops[0]);
      LandingsSound(Land(c, ops[0]).db, ops[1..]);
    }
  }

  // ---- users ----

  predicate MakesUser(op: Op, a: ActorId) {
    (op.AcceptInvite? || op.CreatePerson?) && op.actor == a
  }

  /** The user and actor rows of `a` are those the operation was asked to make. */
  predicate MadeAs(d: Db, op: Op, a: ActorId)
    requires MakesUser(op, a)
  {
    a in d.users && d.users[a] == User(op.email, op.passwordHash) && a in d.actors
    && d.actors[a] == Actor(Some(op.name), false)
  }

  lemma NewUser(c: Db, op: Op, d: Db, a: ActorId)
    requires Happened(op, c, d) && a in d.users && a !in c.users
    ensures MakesUser(op, a) && MadeAs(d, op, a)
  {}

  lemma {:induction false} UserOrigin(c: Db, ops: seq<Op>, a: ActorId)
    requires Sound(c) && AllLand(c, ops) && a in Landings(c, ops).users
    ensures (a in c.users && Landings(c, ops).users[a] == c.users[a])
            || exists op :: op in ops && MakesUser(op, a) && MadeAs(Landings(c, ops), op, a)
    decreases |ops|
  {
    if ops != [] {
      var d, end := Land(c, ops[0]).db, Landings(c, ops);
      LandHappened(c, ops[0]);
      LandingsSound(c, ops);
      UserOrigin(d, ops[1..], a);
      if a in d.users {
        PersonStays(d, ops[1..], a);
        assert !end.actors[a].departed;
        if a in c.users { ActorStays(c, ops[0], d, a); } else { NewUser(c, ops[0], d, a); assert ops[0] in ops; }
      } else {
        var op :| op in ops[1..] && MakesUser(op, a) && MadeAs(end, op, a);
        assert op in ops;
      }
    }
  }

  /** Every user was there before, unchanged, or was made by a committed acceptance or creation, with exactly the email,
      password hash and name submitted. */
  lemma UsersComeFromJoins(s: Sys, steps: seq<Step>, a: ActorId)
    requires SysOk(s) && IsRun(s, steps) && a in Reached(s, steps).db.users
    ensures var d := Reached(s, steps).db;
            || (a in s.db.users && d.users[a] == s.db.users[a])
            || exists op :: op in Committed(s, steps) && MakesUser(op, a) && MadeAs(d, op, a)
  {
    InterleavingsAreSerial(s, steps);
    UserOrigin(s.db, Committed(s, steps), a);
  }

  // ---- sessions ----

  /** The session under `k` is the one the sign-in was asked for, of the person with that email. */
  predicate OpenedBy(d: Db, op: Op, k: TokenHash)
    requires k in d.sessions
  {
    && op.SignIn? && op.verified && op.token == Some(k) && d.sessions[k].expires == op.expires
    && d.sessions[k].actor in d.users && SameText(d.users[d.sessions[k].actor].email, op.email)
  }

  lemma NewSession(c: Db, op: Op, d: Db, k: TokenHash)
    requires Happened(op, c, d) && k in d.sessions
    ensures if k in c.sessions then d.sessions[k] == c.sessions[k] else OpenedBy(d, op, k)
  {
    if op.SignIn? { var a :| SignedIn(c, d, op, a); }
  }

  lemma OpenedStays(d: Db, end: Db, op: Op, k: TokenHash)
    requires k in d.sessions && OpenedBy(d, op, k) && k in end.sessions && end.sessions[k] == d.sessions[k]
    requires d.sessions[k].actor in end.users && end.users[d.sessions[k].actor] == d.users[d.sessions[k].actor]
    ensures OpenedBy(end, op, k)
  {}

  lemma {:induction false} SessionOrigin(c: Db, ops: seq<Op>, k: TokenHash)
    requires Sound(c) && AllLand(c, ops) && k in Landings(c, ops).sessions
    ensures (k in c.sessions && Landings(c, ops).sessions[k] == c.sessions[k])
            || exists op :: op in ops && OpenedBy(Landings(c, ops), op, k)
    decreases |ops|
  {
    if ops != [] {
      var d, end := Land(c, ops[0]).db, Landings(c, ops);
      LandHappened(c, ops[0]);
      LandingsSound(c, ops);
      SessionOrigin(d, ops[1..], k);
      if k in d.sessions && end.sessions[k] == d.sessions[k] {
        NewSession(c, ops[0], d, k);
        if k !in c.sessions {
          PersonStays(d, ops[1..], d.sessions[k].actor);
          OpenedStays(d, end, ops[0], k);
          assert ops[0] in ops;
        }
      } else {
        var op :| op in ops[1..] && OpenedBy(end, op, k);
        assert op in ops;
      }
    }
  }

  /** Every session was there before, unchanged, or was opened by a committed sign-in whose password check passed, under
      that sign-in's token and expiry, for the person with its email. */
  lemma SessionsComeFromSignIns(s: Sys, steps: seq<Step>, k: TokenHash)
    requires SysOk(s) && IsRun(s, steps) && k in Reached(s, steps).db.sessions
    ensures var d := Reached(s, steps).db;
            || (k in s.db.sessions && d.sessions[k] == s.db.sessions[k])
            || exists op :: op in Committed(s, steps) && OpenedBy(d, op, k)
  {
    InterleavingsAreSerial(s, steps);
    SessionOrigin(s.db, Committed(s, steps), k);
  }

  // ---- members ----

  ghost predicate IsMember(c: Db, o: OrgId, a: ActorId) {
    o in c.orgs && a in c.orgs[o].members
  }

  ghost predicate HoldsToken(c: Db, o: OrgId, token: TokenHash) {
    o in c.orgs && exists i :: i in c.orgs[o].invites && c.orgs[o].invites[i].token == token
  }

  /** The operation founds the organization, or accepts an invite of it. */
  ghost predicate Admits(d: Db, op: Op, o: OrgId, a: ActorId) {
    || (op.CreateOrganization? && op.actor == a && op.org == o)
    || (op.AcceptInvite? && op.actor == a && HoldsToken(d, o, op.presented))
  }

  lemma NewMember(c: Db, op: Op, d: Db, o: OrgId, a: ActorId)
    requires Happened(op, c, d) && IsMember(d, o, a) && !IsMember(c, o, a)
    ensures Admits(d, op, o, a)
  {
    if op.AcceptInvite? {
      var q, i :| q in c.orgs && q in d.orgs && d.orgs == c.orgs[q := d.orgs[q]]
                  && JoinedBy(c.orgs[q], d.orgs[q], op, i);
      assert q == o && i in d.orgs[o].invites && d.orgs[o].invites[i].token == op.presented;
    }
  }

  /** An invite's row and token stay. */
  lemma TokenStays(c: Db, op: Op, d: Db, o: OrgId, token: TokenHash)
    requires Happened(op, c, d) && HoldsToken(c, o, token)
    ensures HoldsToken(d, o, token)
  {
    var i :| i in c.orgs[o].invites && c.orgs[o].invites[i].token == token;
    assert o in d.orgs && i in d.orgs[o].invites && d.orgs[o].invites[i].token == token;
  }

  lemma {:induction false} TokenKept(c: Db, ops: seq<Op>, o: OrgId, token: TokenHash)
    requires Sound(c) && AllLand(c, ops) && HoldsToken(c, o, token)
    ensures HoldsToken(Landings(c, ops), o, token)
    decreases |ops|
  {
    if ops != [] {
      LandHappened(c, ops[0]);
      TokenStays(c, ops[0], Land(c, ops[0]).db, o, token);
      TokenKept(Land(c, ops[0]).db, ops[1..], o, token);
    }
  }

  lemma {:induction false} MemberOrigin(c: Db, ops: seq<Op>, o: OrgId, a: ActorId)
    requires Sound(c) && AllLand(c, ops) && IsMember(Landings(c, ops), o, a)
    ensures IsMember(c, o, a) || exists op :: op in ops && Admits(Landings(c, ops), op, o, a)
    decreases |ops|
  {
    if ops != [] {
      var d, end := Land(c, ops[0]).db, Landings(c, ops);
      LandHappened(c, ops[0]);
      MemberOrigin(d, ops[1..], o, a);
      if IsMember(d, o, a) {
        if !IsMember(c, o, a) {
          NewMember(c, ops[0], d, o, a);
          if ops[0].AcceptInvite? { TokenKept(d, ops[1..], o, ops[0].presented); }
          assert ops[0] in ops;
        }
      } else {
        var op :| op in ops[1..] && Admits(end, op, o, a);
        assert op in ops;
      }
    }
  }

  /** Every member was one before, founded the organization, or accepted one of its invites. */
  lemma MembersComeByInvite(s: Sys, steps: seq<Step>, o: OrgId, a: ActorId)
    requires SysOk(s) && IsRun(s, steps) && IsMember(Reached(s, steps).db, o, a)
    ensures IsMember(s.db, o, a)
            || exists op :: op in Committed(s, steps) && Admits(Reached(s, steps).db, op, o, a)
  {
    InterleavingsAreSerial(s, steps);
    MemberOrigin(s.db, Committed(s, steps), o, a);
  }
}
