# A verified model of fukulow's transactions

fukulow is a self-hosted team chat server. Its rules live in short PostgreSQL transactions over a handful of tables:
actors, users, sessions, organizations, memberships, teams, channels, listings, messages, invites and an append-only
audit log. This project models those transactions, the row policies and triggers they run against, and the row locks
they take, and proves what the code and its documentation promise of them, for every state, every run and every
interleaving.

Check it with `dafny verify dfyconfig.toml`.

## How it is built

| module | what it is |
|---|---|
| `Domain`, `Store` | ids, roles, the owner rule; the committed tables, rows kept under their organization |
| `Operations` | what each operation does alone: `Apply(db, op)` gives the reply and the next tables |
| `Integrity` | the invariant `Ok(db)` every operation keeps: `Sound` (references, spent invites, departed people) and an active owner everywhere |
| `Outcomes` | what callers and readers see of every operation, in columns alone: when it succeeds, the rows it leaves, and when it gets which refusal |
| `Runs` | whole runs: departure, revocation, tenants, acceptance, and where behaviour and documentation differ |
| `Replay` | a strict replay of an organization's audit log |
| `Policies`, `InviteGuard` | row policies, triggers and constraints as the answer each writing statement gets |
| `Departure`, `Database` | the operations as imperative code: a `Connection` whose methods run statement by statement against those policies, each proved to do exactly what `Apply` says |
| `Transactions` | the same operations as READ COMMITTED transactions of one statement a step, with KEY SHARE, SHARE, NO KEY UPDATE and UPDATE row locks, foreign-key locks and the unique index on emails |
| `Rely`, `Serial` | what a transaction knows between statements, why no other commit falsifies it, and the theorem that every interleaving commits what the operations do one at a time |
| `Alone` | a transaction run alone, statement by statement, commits exactly when its operation succeeds, with exactly its tables |
| `Refusals`, `OvertakenDeparture` | when an interleaved transaction aborts: where its operation would be refused at that moment, or where a commit has overtaken what it read |
| `Origins` | which committed operation every user, session and membership of an interleaving comes from |
| `Owners` | what else a transaction knows of owners when reactivations start safely, and the serial theorem with owner checks included |
| `Interleavings`, `Contest` | the consequences for interleavings: departures, logs, invites, authority, owners, places |
| `Scripts`, `BlindReactivation` | building runs statement by statement; the reactivation whose start lets an organization lose its last owner, and exactly when |
| `Deadlock`, `EmailDeadlock`, `RecordDeadlock`, `DeadlockFreedom` | waits climb a rank, so no ring of them exists; the rings of emails and of departures' records that do, and exactly when |
| `BlindTeamAddition` | the team addition whose start lets a ring of waits close, and exactly when |
| `Messages`, `Posting`, `MessageStore` | channel counters, message ids, retries, and readers paging while others post |
| `Text` | the path-segment reader for UUIDs and the hexadecimal lookup keys |

An interleaving is a run of `Begin`, `Run` (one statement) and `Crash` steps of any number of transactions, from any
sound tables. Soundness, departures, logs, invites and authority hold in all of them. Two results need their callers to
start some operations safely, which shows at the operation's first statement, on the committed tables:

- a run is *careful* (for owners) if a reactivation starts only when its performer sees the member, is that member, or
  can never be a member beside it (one of the two is no member of the organization or has left it, and only new people
  join);
- a run is *proper* (for deadlocks) if an `add_team_member` starts only when its performer sees the actor or can never
  be a member beside it, and an operation in an organization starts for a performer that exists.

## What the proofs found

1. **A reactivation that starts blind can lose the last owner.** `lock_actor` reads through row security. A performer
   who is suspended when it runs does not see the member, so the member's row is not locked and its departure is not
   noticed; if the performer is reactivated before `lock_organization`, the operation goes on. Meanwhile the member
   departs without locking the organization (it is active nowhere), another owner is demoted, and the organization is
   left with no active owner. `BlindReactivation.OwnersKeptIffStartSafe` proves for every sound state, performer,
   organization and member who is nowhere a last owner: owners are kept in every run that follows the start, and is
   careful from there on, if and only if the start was safe.
2. **Two acceptances with one email can deadlock.** The unique index entry of an email is locked after the invite and
   before the organization, so revocation, acceptance, acceptance and departure can wait in a ring
   (`EmailDeadlock.EmailsDeadlock`).
3. **A departure can deadlock in organizations it is not active in.** It locks FOR UPDATE only the organizations the
   actor is active in, but writes records in all it has rows in, and each record's foreign key waits for whoever holds
   that organization FOR UPDATE. Two departures can so wait for each other, one of an actor suspended where the other is
   active (`RecordDeadlock.DeparturesDeadlock`); so can the departure of a suspended actor and the removal of its team
   row (`RecordDeadlock.TeamRowsDeadlock`).
   `DeadlockFreedom.DeadlockFreeIffClimbing` gives the exact condition for 2 and 3: proper runs hold no ring of waits,
   of any length, if and only if no acceptance awaits the email of one into an organization with a smaller id, and no
   departure awaits a record in an organization it has not locked while it holds a row of that organization or of one
   with a larger id. Two acceptances of one email into one organization are harmless
   (`OneOrganizationNeverDeadlocks`), and a departing actor active wherever it has rows awaits no record
   (`ActiveLeaversAwaitNothing`).
4. **A team addition that starts blind can deadlock.** The suspended performer does not see the actor it adds, so
   `lock_actor` locks only the performer. Reactivated before `lock_organization`, it takes the organization FOR UPDATE;
   its insert then waits for the foreign key's KEY SHARE on the added actor's row, which that actor's departure holds
   FOR UPDATE while it waits for the organization. `BlindTeamAddition.DeadlocksIffStartUnsafe` proves for every sound
   state, performer and member who can be added: a ring can follow the start, with everything else proper and neither
   an email nor a record awaited, if and only if the start was unsafe.
5. **Nobody can suspend themselves.** The audit insert that follows is refused to a performer who is no longer active,
   so the whole transaction rolls back with a database error (`Runs.SuspensionSucceeds`).
6. **Outside actors can be listed in a channel.** docs/architecture/invariants.md line 195 says an outside actor's
   listing cannot be added through the application. It can, exactly when the performer is active in another
   organization the actor is a member of (`Runs.OutsiderListedIffSeenElsewhere`, and `OutsiderIsListed` for a concrete
   case).
7. **A departure can be refused as last owner where it is none.** It lists its organizations before it locks them. An
   actor suspended in one of them in between no longer sees that organization's owners, so the owner check fails and the
   departure answers LastOwner, though alone it would succeed. `Refusals.AbortsAreRefusals` proves that this, and a
   person departing after its password check, are the only aborts that the operation run alone at that moment would not
   share; `OvertakenDeparture.SuspensionOvertakesDeparture` reaches it from every state where the actor is nowhere a last
   owner and active beside another owner.

## Model

| member | source | states |
|---|---|---|
| Domain.Sorted | crates/db/src/operations/leaving.rs:23 | `ORDER BY id` yields exactly the ids of the set, strictly ascending |
| Integrity.ApplyOk | crates/db/src/operations/membership.rs:29-137 | every operation keeps the invariant: an active owner everywhere, references inside their organization, use counts equal to credited members, departed actors nameless and holding nothing, unique emails and tokens |
| Integrity.ExecuteOk | crates/db/src/operations/mod.rs:26-49 | the invariant holds after any run of operations from a sound state |
| Integrity.LandSound | crates/db/src/operations/leaving.rs:33-68 | every commit keeps the tables sound, whatever a departure last saw of the owners |
| Integrity.PerformOwned | crates/domain/src/lib.rs:67-75 | a write the owner rule allowed leaves an active owner |
| Integrity.LeaveOrgOwned | crates/db/src/operations/leaving.rs:24-32 | a departure the owner rule allowed leaves an active owner |
| Outcomes.LowerIgnoresCase | migrations/202609170001_identity.up.sql:17 | two texts are the same key iff they differ at most in the case of ASCII letters |
| Outcomes.SlugFormat | migrations/202609170001_identity.up.sql:21 | a slug is valid iff it has 1 to 32 small letters, digits and hyphens, no hyphen at either end |
| Outcomes.WhatSucceedsHappened | crates/db/src/operations/mod.rs:12-18 | whatever commits, alone or among others, found the rows it needs and left exactly its own columns: a new person's email, hash and name, a departed actor's empty name, one session of a verified person, an invite by an owner or admin, roles, listings, names and records; every other row is unchanged |
| Outcomes.RefusalsChangeNothing | crates/db/src/operations/mod.rs:12-18 | an operation that is refused leaves the tables as they were |
| Outcomes.OutsidersAreRefused | crates/db/src/operations/mod.rs:26-49 | without an active membership every organization-scoped operation is answered NotFound, or NotAMember about invites |
| Outcomes.RoleReplies | crates/db/src/operations/membership.rs:36-63 | exactly when a role change is NotFound, LastOwner or done |
| Outcomes.SuspensionReplies | crates/db/src/operations/membership.rs:84-106 | exactly when a suspension is NotFound, NotActive, LastOwner, refused to its own performer, or done |
| Outcomes.ReactivationReplies | crates/db/src/operations/membership.rs:116-129 | exactly when a reactivation is NotFound, ActorDeparted, NotSuspended or done |
| Outcomes.TeamReplies | crates/db/src/operations/teams.rs:17-35 | exactly when a team is created |
| Outcomes.TeamAdditionReplies | crates/db/src/operations/teams.rs:46-80 | exactly when a team addition is NotFound, ActorDeparted, NotAnActiveMember, AlreadyMember or done |
| Outcomes.TeamRowReplies | crates/db/src/operations/teams.rs:96-139 | a team role change or removal is NotFound iff the row is missing, and done otherwise |
| Outcomes.ChannelReplies | crates/db/src/operations/channels.rs:17-50 | exactly when a channel is NotFound for its team, refused by its columns, NameTaken ignoring case in its scope, or created |
| Outcomes.ListingReplies | crates/db/src/operations/channels.rs:61-89 | exactly when a listing is OrganizationScoped, NotFound, ActorDeparted, AlreadyMember or done |
| Outcomes.InviteReplies | crates/db/src/operations/invites.rs:18-55 | an active member is Forbidden to create invites iff it is neither owner nor admin; only then is the token asked for, and a fresh one succeeds |
| Outcomes.RevocationReplies | crates/db/src/operations/invites.rs:59-105 | an active member is Forbidden to revoke iff it is neither owner nor admin; NotFound iff the invite is missing or its id invalid |
| Outcomes.AcceptanceReplies | crates/db/src/operations/invites.rs:115-141 | exactly when an acceptance is InviteUnusable, EmailTaken, in conflict over its id, or done |
| Outcomes.PersonReplies | crates/db/src/operations/identity.rs:8-31 | a person is refused iff the email is taken, ignoring case, or the id is |
| Outcomes.FoundingReplies | crates/db/src/operations/identity.rs:33-72 | exactly when founding is ActorNotFound, ActorDeparted, InvalidSlug, SlugTaken, in conflict over its id, or done |
| Outcomes.DepartureReplies | crates/db/src/operations/leaving.rs:9-32 | a departure is NotFound iff the actor is missing or departed, LastOwner only of an organization whose one active owner it is, and done only if there is none |
| Outcomes.SignInReplies | crates/db/src/operations/sessions.rs:16-69 | a sign-in is InvalidCredentials iff no present person has the email or the password check failed, whatever the token; only then is the token looked at |
| Runs.LeaveRefusals | crates/db/src/operations/leaving.rs:9-32 | alone, a departure succeeds iff the actor exists, has not departed and is nowhere the only active owner; the refusal names the first such organization by id |
| Runs.DepartureIsPermanent | crates/db/src/operations/leaving.rs:50-66 | once departed, after any further run the actor is departed and its row nameless, its memberships are left and nameless, and it has no team row, listing, user or session |
| Runs.RevocationIsFinal | crates/db/src/operations/invites.rs:82-102 | after a revocation neither the use count nor the number of members it admitted changes in any run |
| Runs.TenantFrame | crates/db/src/operations/teams.rs:38-146 | a run that never names an organization, by operation, token or departing member, changes none of its rows or records |
| Runs.LeaveFrame | crates/db/src/operations/leaving.rs:53-111 | a departure changes no membership, team row, listing, team, channel or invite of anyone else, and adds only records by and about the actor |
| Runs.UnseenLooksMissing | crates/db/src/operations/mod.rs:26-49 | naming an organization the performer is not active in, in any change, invite creation or revocation, answers as naming one that does not exist, and changes nothing |
| Runs.FilterAgrees | crates/db/src/operations/invites.rs:107-141 | the read-only filter is true exactly when acceptance on the same state does not answer InviteUnusable |
| Runs.PlacesAreFilledExactly | crates/db/src/operations/invites.rs:115-141 | n new people accepting one invite with r places left, in any order: exactly min(n, r) succeed |
| Runs.SuspensionSucceeds | crates/db/src/operations/membership.rs:78-108 | a suspension succeeds iff its target is another active member who is not the last active owner; a self-suspension never does |
| Runs.OutsiderListedIffSeenElsewhere | crates/db/src/operations/channels.rs:53-90 | an actor with no membership is listed iff the performer is active in another organization it belongs to |
| Runs.OutsiderIsListed | crates/db/src/operations/channels.rs:53-90 | a sound state in which such a listing succeeds |
| Replay.ApplyFaithful | crates/db/src/audit.rs:22-186 | each operation appends records whose strict replay gives exactly the rows it leaves |
| Replay.LogsRebuildOrganizations | crates/db/src/audit.rs:22-186 | after any run every log replays strictly, from nothing, to the members, teams, roles, channels, listings and invite counts as they are |
| Policies.OutsideRecordNeedsListing | migrations/202609170005_channel_member_organization.up.sql:13-28 | without a membership, the departure's record is admitted iff the listing still stands |
| Policies.SuspendedRecordsNothing | migrations/202609170005_channel_member_organization.up.sql:13-19 | a performer no longer active may not record its own suspension |
| Policies.AdmissionNeedsOwnUse | migrations/202609180001_invite_acceptance.up.sql:33-40 | an outsider's membership insert fails unless this transaction wrote an invite of the organization |
| Policies.OnlyInsidersWrite | migrations/202609170004_row_level_security.up.sql:51-120 | no statement of the operations changes a row of an organization for anyone but its active members, beyond leaving it, removing and recording one's own rows, founding it, using or revoking the invite one presents, and joining through an invite used in the same transaction |
| Policies.OnlyInsidersRead | migrations/202609170004_row_level_security.up.sql:49-105 | others read of it only their own membership and the invite whose token they present |
| Policies.OnlySelfIsWritten | migrations/202609170004_row_level_security.up.sql:123-139 | a person's user row and sessions are written by that person alone, and an actor row only to erase it |
| InviteGuard.CountIsUses | migrations/202609180001_invite_acceptance.up.sql:4-27 | over any writes the trigger lets through, used_count is the number of bounded uses |
| InviteGuard.ProofIsAUse | migrations/202609180001_invite_acceptance.up.sql:31-40 | the row satisfies the membership policy iff its last write was a bounded use by the current transaction |
| InviteGuard.RevokedIsLast | migrations/202609180001_invite_acceptance.up.sql:20-25 | no write follows a revocation, and the revocation itself keeps the use count |
| Departure.AllPasses | crates/db/src/operations/leaving.rs:39-57 | the three loops of a departure together leave every organization as the departure specifies |
| Departure.FirstAbandoned | crates/db/src/operations/leaving.rs:22-32 | the first failing check, in id order, names the least organization that would lose its last owner |
| Departure.OneRecordEach | crates/db/src/operations/leaving.rs:70-111 | exactly one record for each removed team row, removed listing and membership ended, and no other record |
| Database.Connection.ChangeMemberRole | crates/db/src/operations/membership.rs:29-76 | statement by statement under the policies: the reply and the tables are the specified ones |
| Database.Connection.SuspendMember | crates/db/src/operations/membership.rs:78-108 | as specified, including the refusal of a self-suspension by the audit policy |
| Database.Connection.ReactivateMember | crates/db/src/operations/membership.rs:110-137 | as specified, with the target's departure read as lock_actor sees it |
| Database.Connection.CreateTeam | crates/db/src/operations/teams.rs:11-36 | as specified; every statement admitted |
| Database.Connection.AddTeamMember | crates/db/src/operations/teams.rs:38-86 | as specified, errors in the order the code decides them |
| Database.Connection.ChangeTeamMemberRole | crates/db/src/operations/teams.rs:88-116 | as specified; an unchanged role writes nothing |
| Database.Connection.RemoveTeamMember | crates/db/src/operations/teams.rs:118-146 | as specified; a missing row is NotFound |
| Database.Connection.CreateChannel | crates/db/src/operations/channels.rs:10-51 | as specified, name conflicts per scope |
| Database.Connection.AddChannelMember | crates/db/src/operations/channels.rs:53-90 | as specified, errors in the order the code decides them |
| Database.Connection.CreateInvite | crates/db/src/operations/invites.rs:18-55 | as specified; no token is needed before the capability is granted |
| Database.Connection.RevokeInvite | crates/db/src/operations/invites.rs:59-105 | as specified; a second revocation writes nothing |
| Database.Connection.UseInvite | crates/db/src/operations/invites.rs:123-124 | one more use of the one usable invite with that token, or proof that none is usable |
| Database.Connection.Admit | crates/db/src/operations/invites.rs:136-139 | the use just made admits the membership and its record; neither insert is refused |
| Database.Connection.AcceptInvite | crates/db/src/operations/invites.rs:115-141 | as specified; a refusal after the increment restores every table |
| Database.Connection.CreatePerson | crates/db/src/operations/identity.rs:8-31 | an actor and its user, or neither |
| Database.Connection.CreateOrganization | crates/db/src/operations/identity.rs:33-72 | as specified; the founder's membership and both records are admitted |
| Database.Connection.SignIn | crates/db/src/operations/sessions.rs:16-69 | as specified; every credential failure precedes the token |
| Database.Connection.LeaveOrganization | crates/db/src/operations/leaving.rs:70-88 | removes exactly the actor's team rows, one record each, none refused |
| Database.Connection.LeaveChannels | crates/db/src/operations/leaving.rs:90-111 | records every listing and then removes them, none refused, with or without a membership |
| Database.Connection.EndMemberships | crates/db/src/operations/leaving.rs:53-57 | ends active, suspended and left memberships alike; the update policy and the role trigger admit each |
| Database.Connection.Depart | crates/db/src/operations/leaving.rs:33-68 | no statement of a departure is refused and the tables are those of the departure |
| Database.Connection.LeaveService | crates/db/src/operations/leaving.rs:9-68 | the whole departure is the specified one, refusals included |
| Rely.Stable | crates/db/src/operations/mod.rs:26-77 | what a transaction knows between statements survives every commit made under compatible locks |
| Rely.GatheringStable | crates/db/src/operations/leaving.rs:39-57 | while its actor row is locked FOR UPDATE, the memberships, team rows and listings a departure has read or removed stay exactly the actor's |
| Rely.AuthorizedStable | crates/db/src/operations/authorization.rs:11-34 | the SHARE lock on the performer's membership keeps it an owner or admin, active, until commit |
| Serial.AlwaysSerializes | crates/db/src/operations/leaving.rs:9-68 | the statement that commits leaves what the operation does alone on the tables as they then are, a departure's owner check apart |
| Serial.InterleavingsAreSerial | crates/db/src/operations/mod.rs:58-77 | every interleaving commits exactly what its committed operations do one after another in commit order, each succeeding; only the owner check of a departure is as old as its statement |
| Alone.AloneIsApply | crates/db/src/operations/mod.rs:12-18 | from any sound tables every transaction run alone goes through to its end, commits exactly if the operation succeeds on what lock_actor sees, and leaves exactly the operation's tables |
| Refusals.AbortsAreRefusals | crates/db/src/operations/leaving.rs:22-32 | in an interleaving a transaction aborts only where its operation run alone on the tables as they are would be refused, or where it was overtaken: a departing actor suspended where it has yet to check owners, or a person that departed after its password check; and those do abort |
| OvertakenDeparture.SuspensionOvertakesDeparture | crates/db/src/operations/leaving.rs:22-32 | from every state, an actor nowhere a last owner and active beside another owner: some run refuses its departure at an owner check where alone it would succeed |
| Origins.CommitsHappened | crates/db/src/operations/mod.rs:12-18 | in every interleaving each commit found and left, of the tables as they then are, exactly the rows and columns of its operation |
| Origins.UsersComeFromJoins | crates/db/src/operations/identity.rs:8-31 | after any interleaving every user was there before, unchanged, or carries exactly the email, password hash and name some committed acceptance or creation submitted |
| Origins.SessionsComeFromSignIns | crates/db/src/operations/sessions.rs:16-69 | after any interleaving every session was there before or was opened by a committed sign-in whose password check passed, under its token and expiry, for the person with its email |
| Origins.MembersComeByInvite | crates/db/src/operations/invites.rs:115-141 | after any interleaving every member was one before, founded the organization, or accepted one of its invites |
| Owners.WatchedStable | crates/db/src/operations/leaving.rs:22-23 | while its actor row is locked FOR UPDATE, no careful commit makes a departing actor active in a further organization, and each organization it checked keeps another owner |
| Owners.WatchStable | crates/db/src/operations/leaving.rs:22-32 | what any transaction knows of owners survives every careful commit made under compatible locks |
| Owners.CarefulRunsAreSerial | crates/db/src/operations/leaving.rs:10-32 | a careful interleaving commits what its operations do one after another, owner checks included, and leaves every organization owned |
| Interleavings.OwnersSurvive | crates/db/src/operations/leaving.rs:10-32 | in every state a careful interleaving reaches every organization has an active owner |
| Interleavings.DepartureSurvives | crates/db/src/operations/sessions.rs:37-66 | in every interleaving a committed departure stays committed and erased whatever was in flight, blind reactivations and sign-ins past their password check included |
| Interleavings.LogsSurvive | crates/db/src/audit.rs:173-186 | committed logs replay strictly to committed rows in every interleaving |
| Interleavings.OwnerRecordsSurvive | crates/db/src/audit.rs:22-186 | in careful interleavings, besides, no committed record ends an organization's last active owner |
| Interleavings.InvitesAreConserved | crates/db/src/operations/invites.rs:115-141 | at every moment of every interleaving used_count is the number of members the log credits to the invite, within its limit |
| Interleavings.RevocationSurvives | crates/db/src/operations/invites.rs:82-102 | a committed revocation freezes the use count in every interleaving |
| Interleavings.AuthorityAtCommit | crates/db/src/operations/invites.rs:26-53 | when an invite creation or revocation commits its performer is an active owner or admin |
| Interleavings.ActivityAtCommit | crates/db/src/operations/mod.rs:26-49 | every organization-scoped operation that commits has a performer active there at that moment |
| Interleavings.FromEmpty | crates/db/src/operations/identity.rs:33-72 | whatever run leads from an empty installation, its tables are sound and every log replays to its organization; a careful one leaves every organization owned |
| Contest.AbortsWhenFull | crates/db/src/operations/invites.rs:122-124 | a concurrent acceptance is refused only when every place is taken |
| Contest.PlacesFillConcurrently | crates/db/src/operations/invites.rs:115-141 | n acceptances of one invite interleaved with each other and with anything that neither uses nor revokes it, c crashing, r places left: exactly min(n - c, r) commit |
| BlindReactivation.UnsafeStartLosesOwner | crates/db/src/operations/membership.rs:116-131 | from every unsafe start, in any sound state whose member is nowhere a last owner, a run careful in everything else leaves an organization with no active owner |
| BlindReactivation.OwnersKeptIffStartSafe | crates/db/src/operations/mod.rs:61-77 | for every sound state, performer, organization and member who is nowhere a last owner: everything careful that can follow the start keeps owners iff the performer sees the member, is it, or can never be a member beside it |
| Deadlock.WaitClimbs | crates/db/src/operations/mod.rs:58-77 | between waits, a wait goes up: actors, then organizations by id, in each its row before a team row or a revoked invite; a wait for an email goes to a later organization, or within one to an acceptance that can join |
| Deadlock.RevokeWaitClimbs | crates/db/src/operations/mod.rs:39-41 | a revocation that waits for an acceptance holds that acceptance's organization in SHARE only, so the wait it causes goes up |
| Deadlock.RunsNeverDeadlock | crates/db/src/operations/mod.rs:26-77 | no state a proper run reaches from sound tables holds a ring of waits, given that emails are awaited only within an organization or into later ones, and records only in organizations after all those with rows held |
| EmailDeadlock.EmailsDeadlock | crates/db/src/operations/invites.rs:122-138 | for any two organizations, a proper run from a sound state to one where a revocation, two acceptances with one email and a departure wait in a ring |
| RecordDeadlock.DeparturesDeadlock | crates/db/src/operations/leaving.rs:22-49 | for any two organizations, a proper run from a sound state to one where two departures wait for each other, one of an actor suspended in the earlier organization |
| RecordDeadlock.TeamRowsDeadlock | crates/db/src/operations/leaving.rs:70-88 | in any organization, a proper run from a sound state to one where the departure of a suspended actor and the removal of its team row wait for each other |
| DeadlockFreedom.DeadlockFreeIffClimbing | crates/db/src/operations/mod.rs:26-77 | proper interleavings never deadlock iff no acceptance awaits the email of one into an earlier organization and no departure awaits a record beside a row it holds of the same or a later organization |
| DeadlockFreedom.OneOrganizationNeverDeadlocks | crates/db/src/operations/invites.rs:122-138 | the same email submitted twice to one organization never deadlocks |
| DeadlockFreedom.ActiveLeaversAwaitNothing | crates/db/src/operations/leaving.rs:22-57 | in a careful run the departure of an actor active wherever it has rows never waits for a record's foreign key |
| BlindTeamAddition.UnsafeStartDeadlocks | crates/db/src/operations/teams.rs:46-76 | from every unsafe start of a team addition a proper run leads to the addition and the member's departure waiting for each other |
| BlindTeamAddition.DeadlocksIffStartUnsafe | crates/db/src/operations/teams.rs:38-86 | for every sound state, performer and member who can be added: a ring can follow the start iff the performer neither sees the member nor can never be a member beside it |
| Messages.PageAfterIsSlice | crates/db/src/operations/messages.rs:138-158 | a forward page is exactly the next slice of the channel, at most the clamped limit |
| Messages.PageBeforeIsSlice | crates/db/src/operations/messages.rs:112-136 | a backward page is exactly the newest messages before the cursor, newest first |
| Messages.PageSizes | crates/db/src/operations/messages.rs:124-158 | a page holds as many messages as asked for, at least 1 and at most 200, unless fewer are left |
| Messages.PostReplies | crates/db/src/operations/messages.rs:62-95 | exactly when a post is InvalidBody, NotFound, AlreadyPosted, IdConflict or posted: a stored id is AlreadyPosted iff its organization, channel and sender are the post's, and is answered with the stored message |
| Messages.PostStores | crates/db/src/operations/messages.rs:73-83 | a post stores exactly what was sent under the channel's next number and advances that counter alone |
| Messages.UnseenPostLooksMissing | crates/db/src/operations/messages.rs:73-75 | a post to an organization the sender is not active in answers as one to an organization that does not exist, and stores nothing |
| Messages.UnseenReadsLookMissing | crates/db/src/operations/messages.rs:97-123 | both ways of reading there answer as where nothing exists, whatever the channel, cursor and limit |
| Posting.RunsKeepChannels | crates/db/src/operations/messages.rs:62-95 | in every interleaving sequences are exactly 1 to the counter, ids are unique and stored messages never change |
| Posting.SnapshotsArePrefixes | crates/db/src/operations/messages.rs:73-85 | every committed snapshot of a channel is a prefix of every later one |
| Posting.RetriesAreIdempotent | crates/db/src/operations/messages.rs:76-95 | one id is posted at most once and every successful answer about it carries that one message |
| Posting.RetriesFindTheirOwn | crates/db/src/operations/messages.rs:84-95 | in every interleaving a retry of a stored id is AlreadyPosted with the stored message iff its sender is active and organization, channel and sender are its own, IdConflict otherwise |
| Posting.RetriesSucceed | crates/db/src/operations/messages.rs:84-95 | a post once answered with success is answered with the same message whenever its active sender retries it |
| Posting.AnswersAreRight | crates/db/src/operations/messages.rs:70-83 | every other statement answers exactly InvalidBody, NotFound, a refused insert, or the message as sent under the next number, or nothing yet |
| Posting.PostsAloneAnswer | crates/db/src/operations/messages.rs:62-95 | with no other post in flight the statements go through to the specified answer and tables |
| Posting.LosersChangeNothing | crates/db/src/operations/messages.rs:84-87 | only a commit changes what is stored, by one message at the next number; by construction, as the machine keeps an uncommitted counter in its transaction |
| Posting.PostsNeverDeadlock | crates/db/src/operations/messages.rs:84-87 | posts in flight never all wait for each other |
| Posting.ForwardReadersCollectPrefixes | crates/db/src/operations/messages.rs:138-158 | a reader from BEGINNING has collected exactly sequences 1 to its cursor, whatever was posted meanwhile |
| Posting.ForwardReadingCatchesUp | crates/db/src/operations/messages.rs:138-158 | a forward page is empty iff the reader has the whole channel |
| Posting.BackwardReadersCollectSuffixes | crates/db/src/operations/messages.rs:112-136 | backward paging has collected, newest first, the newest of the messages present at its first page |
| Posting.BackwardReadingEnds | crates/db/src/operations/messages.rs:112-136 | each backward page brings the end strictly nearer, and the empty page comes exactly when all are collected |
| MessageStore.MessageTables.PostMessage | crates/db/src/operations/messages.rs:62-95 | the exact reply and tables of a post run alone, the sender's sight taken from the memberships; one's own retry is AlreadyPosted with the stored message, and a losing insert gives its number back |
| Text.PathIdentifier | crates/app/src/invites.rs:154-183 | the loop with its early stop agrees with decoding the whole segment and then checking it |
| Text.IdentifierReads | crates/app/src/invites.rs:185-194 | a text reads as a UUID iff it is that UUID's hyphenated form in some letter case |
| Text.SpelledInGroups | crates/app/src/invites.rs:185-194 | the hyphenated form is the 32 digits in groups of 8, 4, 4, 4 and 12 |
| Text.DigitsAreHexadecimal | crates/app/src/invites.rs:165-176 | a byte is the digit n iff it is the n-th of 0-9a-f or of 0-9A-F |
| Text.SegmentReads | crates/app/src/invites.rs:154-194 | a segment reads as a UUID iff it writes that UUID's text in any mix of case and percent-encoding |
| Text.KeysAreEncodings | crates/db/src/context.rs:12-39 | from_hex accepts exactly the strings from_bytes produces, unchanged |
| Text.KeysAreDistinct | crates/db/src/context.rs:12-27 | distinct digests encode differently |
| Text.KeysSpellBytes | crates/db/src/context.rs:12-27 | a key spells each byte as two lowercase digits, the high one first |

## Left out

- HTTP routing, JSON bodies, cookies, configuration, password hashing, random generation, the connection pool and
  telemetry: plumbing and foreign libraries. A password check, a generated token and the clock are inputs.
- `resolve_session`, `revoke_session` and `me`: they touch one session row and would add only easy members.
- Names of organizations and teams, and the syntax of emails and display names: only uniqueness keys and the slug and
  channel-name formats are modelled.
- Ids are naturals. That an id is fresh is decided inside its organization, not across organizations, for teams,
  channels and invites.
- The log is kept in commit order, and the team rows a departure deletes are recorded in id order, where the database
  may return them in any order.
- Direct conversations and connections to other organizations: the source does not have them yet.
- The update and the audit insert of one change are one step of a transaction; the insert never waits
  (`Deadlock.WritingKeysHeld`).
- A change that names its own performer and finds it inactive after waiting for the organization is refused in the
  interleaved model where the code may answer with another refusal; neither writes anything.
- `create_person` is also modelled as a transaction of its own, which is how a person who joins through no invite is
  made.
- Deadlock.RunsNeverDeadlock: besides the exact condition on emails and records it asks for proper runs, because of the
  fourth finding above, and that nobody else names the id an acceptance makes up. Posts, which lock no actor first, have
  their own result in `Posting`.
- Interleavings.OwnersSurvive: asks for careful runs, because of the first finding above.
- BlindReactivation.OwnersKeptIffStartSafe: is stated for a member who is nowhere a last owner, whose departure is
  therefore not refused; for a member who is one, only the direction from safe starts is proved (`OwnersSurvive`).
- BlindTeamAddition.DeadlocksIffStartUnsafe: adds with the team role member; the role plays no part in the locks.
- Posting.RunsKeepChannels: the memberships change arbitrarily between the statements of a post, in place of being
  driven by the transactions of `Serial`.
- Overflow of the 64-bit message counter.
- Text.PathIdentifier: the UTF-8 check is not modelled; invalid UTF-8 contains a byte that is neither a hexadecimal
  digit nor a hyphen, so the check that follows refuses it too.
