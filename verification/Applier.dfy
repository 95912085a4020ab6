/** The transition function of the replicated state machine: one function per operation, in the
    order of branches the applier takes, and the rule for which errors do not block the log. */
module Applier {
  import opened Commands
  import opened Tables

  ghost function ApplyCreatePersonal(env: Env, db: Db, c: Command): Result
    requires c.CreatePersonal?
  {
    var found := FindAppointment(db.appts, c.owner, None, c.start, c.end, c.title);
    if found.Some? then
      EnrolOwner(env, db, found.value, c.owner)
    else
      var id := AppointmentId(env, db, c.owner, None, c.start, c.end, c.title);
      if id in db.appts then Fail(db, UniqueViolation)
      else EnrolOwner(env, InsertAppointment(db, id, c.title, c.description, c.owner, None, c.start, c.end,
                                             c.privacy, ACCEPTED), id, c.owner)
  }

  function InsertAppointment(db: Db, id: Id, title: string, description: string, owner: Id, group: Option<Id>,
                             start: int, end: int, privacy: string, status: Status): Db {
    db.(appts := db.appts[id := Appointment(title, description, owner, group, start, end, privacy, status, false, db.clock)],
        clock := db.clock + 1)
  }

  /** A colliding participant id counts as already enrolled. */
  function EnrolOwner(env: Env, db: Db, appointment: Id, owner: Id): Result {
    if (appointment, owner) in db.parts then Ok(db)
    else Ok(InsertParticipant(env, db, appointment, owner, ACCEPTED, false).db)
  }

  // ----- group appointments ---------------------------------------------------------------------

  function MemberStatus(db: Db, group: Id, owner: Id, user: Id): Status
    requires group in db.groups && (group, user) in db.members
  {
    if db.groups[group].kind == NON_HIERARCHICAL then (if user == owner then AUTO else PENDING)
    else if (group, owner) in db.members && db.members[(group, user)] > db.members[(group, owner)] then PENDING
    else AUTO
  }

  function Invitation(env: Env, db: Db, c: Command, id: Id, status: Status): string
    requires c.CreateGroupAppointment?
  {
    env.json(InviteBody(id, c.title, c.description, c.start, c.end, c.group,
                        if c.group in db.groups then db.groups[c.group].name else "",
                        c.owner, UsernameOf(db, c.owner), DisplayNameOf(db, c.owner), status, c.privacy))
  }

  /** No insert of the member loop meets a row that is already there, its own included. */
  predicate Fits(env: Env, db: Db, id: Id, users: set<Id>) {
    && (forall u :: u in users ==>
          && (id, u) !in db.parts && !ParticipantIdUsed(db, env.id(PartKey(id, u)))
          && env.id(InviteKey(u, id)) !in db.notes)
    && (forall u, v :: u in users && v in users && u != v ==>
          env.id(PartKey(id, u)) != env.id(PartKey(id, v)) && env.id(InviteKey(u, id)) != env.id(InviteKey(v, id)))
  }

  ghost predicate AllMembers(db: Db, c: Command, users: set<Id>)
    requires c.CreateGroupAppointment?
  {
    c.group in db.groups && forall u :: u in users ==> (c.group, u) in db.members
  }

  ghost function PartRows(env: Env, db: Db, c: Command, id: Id, users: set<Id>): map<(Id, Id), Participant>
    requires c.CreateGroupAppointment? && AllMembers(db, c, users)
  {
    map u | u in users :: (id, u) := Participant(env.id(PartKey(id, u)), MemberStatus(db, c.group, c.owner, u), false)
  }

  ghost function NoteRows(env: Env, db: Db, c: Command, id: Id, users: set<Id>): map<Id, Notification>
    requires c.CreateGroupAppointment? && AllMembers(db, c, users) && Fits(env, db, id, users)
  {
    map u | u in users :: env.id(InviteKey(u, id)) :=
      Notification(u, "invite", Invitation(env, db, c, id, MemberStatus(db, c.group, c.owner, u)))
  }

  /** The rows the member loop writes: a participant and an invitation for every user. */
  ghost function Enrol(env: Env, db: Db, c: Command, id: Id, users: set<Id>): Db
    requires c.CreateGroupAppointment? && AllMembers(db, c, users) && Fits(env, db, id, users)
  {
    db.(parts := db.parts + PartRows(env, db, c, id, users), notes := db.notes + NoteRows(env, db, c, id, users))
  }

  ghost function ApplyCreateGroupAppointment(env: Env, db: Db, c: Command): Result
    requires c.CreateGroupAppointment?
  {
    if FindAppointment(db.appts, c.owner, Some(c.group), c.start, c.end, c.title).Some? then Ok(db)
    else InsertGroupAppointment(env, db, c)
  }

  /** All or nothing: any failure rolls the transaction back. */
  ghost function InsertGroupAppointment(env: Env, db: Db, c: Command): Result
    requires c.CreateGroupAppointment?
  {
    var id := AppointmentId(env, db, c.owner, Some(c.group), c.start, c.end, c.title);
    var users := InGroup(db, c.group);
    if id in db.appts then Fail(db, UniqueViolation)
    else if c.group !in db.groups then Fail(db, NoRows)
    else if db.groups[c.group].kind != NON_HIERARCHICAL && users != {} && (c.group, c.owner) !in db.members
    then Fail(db, NoRows)
    else if !Fits(env, db, id, users) then Fail(db, UniqueViolation)
    else Ok(InsertAppointment(Enrol(env, db, c, id, users), id, c.title, c.description, c.owner, Some(c.group),
                              c.start, c.end, c.privacy, PENDING))
  }

  // ----- appointments -----------------------------------------------------------------------------

  function Or<T>(o: Option<T>, default: T): T { if o.Some? then o.value else default }

  function Edited(a: Appointment, c: Command): Appointment
    requires c.UpdateAppointment?
  {
    a.(title := Or(c.newTitle, a.title), description := Or(c.newDescription, a.description),
       start := Or(c.newStart, a.start), end := Or(c.newEnd, a.end), privacy := Or(c.newPrivacy, a.privacy))
  }

  function ApplyUpdateAppointment(db: Db, c: Command): Result
    requires c.UpdateAppointment?
  {
    if !Live(db, c.appointment) then Fail(db, NoRows)
    else Ok(db.(appts := db.appts[c.appointment := Edited(db.appts[c.appointment], c)]))
  }

  function ApplyDeleteAppointment(db: Db, appointment: Id): Result {
    if appointment !in db.appts then Ok(db)
    else Ok(db.(appts := db.appts[appointment := db.appts[appointment].(deleted := true)]))
  }

  // ----- users ------------------------------------------------------------------------------------

  function ApplyCreateUser(env: Env, db: Db, c: Command): Result
    requires c.CreateUser?
  {
    if FoundByUsername(db, c.username) then Ok(db)
    else if c.email != "" && EmailTaken(db, c.email) then Fail(db, ApplyConflict)
    else InsertUser(env, db, c.userId, User(c.username, Some(c.email), c.passwordHash, c.displayName))
  }

  /** A taken name or email is checked again after the failed update, and is a conflict. */
  function ApplyUpdateProfile(db: Db, c: Command): Result
    requires c.UpdateProfile?
  {
    if !Readable(db, c.user) then Fail(db, NoRows)
    else
      var u := db.users[c.user];
      var username, email, displayName :=
        Or(c.newUsername, u.username), Or(c.newEmail, u.email.value), Or(c.newDisplayName, u.displayName);
      if username == u.username && email == u.email.value && displayName == u.displayName then Ok(db)
      else
        var r := UpdateUserRow(db, c.user, username, email, displayName);
        if r.error.Some? then Fail(db, ApplyConflict) else r
  }

  function ApplyUpdatePassword(db: Db, user: Id, passwordHash: string): Result {
    if user !in db.users then Ok(db)
    else Ok(db.(users := db.users[user := db.users[user].(passwordHash := passwordHash)]))
  }

  function ApplyClearEmail(db: Db, user: Id, email: string): Result {
    if user in db.users && db.users[user].email == Some(email)
    then Ok(db.(users := db.users[user := db.users[user].(email := None)]))
    else Ok(db)
  }

  /** A readable row with this username, respectively email, and every other field as asked. */
  predicate SameUserByName(db: Db, c: Command)
    requires c.EnsureUser?
  {
    exists u :: u in db.users && db.users[u] == User(c.username, Some(c.email), c.passwordHash, c.displayName)
  }

  function ApplyEnsureUser(env: Env, db: Db, c: Command): Result
    requires c.EnsureUser?
  {
    if c.passwordHash == "" && !FoundByUsername(db, c.username) then Fail(db, ApplyConflict)
    else EnsureUserRow(env, db, c)
  }

  function EnsureUserRow(env: Env, db: Db, c: Command): Result
    requires c.EnsureUser?
  {
    if Blank(c.username) && Blank(c.email) then Fail(db, MissingName)
    else if c.username != "" && FoundByUsername(db, c.username) then
      (if SameUserByName(db, c) then Ok(db) else Fail(db, EnsureConflict))
    else if c.email != "" && EmailTaken(db, c.email) then
      (if SameUserByName(db, c) then Ok(db) else Fail(db, EnsureConflict))
    else
      // The id in the payload is ignored; a failed insert meets the same lookups again and none of them can hit.
      InsertUser(env, db, "", User(c.username, Some(c.email), c.passwordHash, c.displayName))
  }

  // ----- groups -----------------------------------------------------------------------------------

  function ApplyCreateGroup(env: Env, db: Db, c: Command): Result
    requires c.CreateGroup?
  {
    var id := env.id(GroupKey(c.kind, c.creatorUsername, c.name));
    if id in db.groups then Ok(db)
    else Ok(PutMember(db.(groups := db.groups[id := Group(c.name, c.description, c.creator, c.creatorUsername, c.kind)]),
                      id, c.creator, if c.kind == NON_HIERARCHICAL then 0 else 5))
  }

  function ApplyUpdateGroup(db: Db, c: Command): Result
    requires c.UpdateGroup?
  {
    if c.group !in db.groups then Fail(db, NoRows)
    else
      var g := db.groups[c.group];
      Ok(db.(groups := db.groups[c.group := g.(name := Or(c.newName, g.name), description := Or(c.newDescription, g.description))]))
  }

  function ApplyDeleteGroup(db: Db, group: Id): Result {
    if group !in db.groups then Ok(db) else Ok(DropGroup(db, group))
  }

  function ApplyUpdateMember(db: Db, group: Id, user: Id, rank: int): Result {
    if (group, user) !in db.members then Ok(db) else Ok(PutMember(db, group, user, rank))
  }

  /** Removing somebody who is not a member is a success. */
  function ApplyRemoveMember(db: Db, group: Id, user: Id): Result {
    Ok(DropMember(db, group, user).db)
  }

  // ----- invitations and repairs ---------------------------------------------------------------

  function Answer(env: Env, db: Db, appointment: Id, user: Id, status: Status): string
    requires appointment in db.appts
  {
    var a := db.appts[appointment];
    env.json(AnswerBody(appointment, a.title, user, UsernameOf(db, user), DisplayNameOf(db, user),
                        if status == DECLINED then "declined" else "accepted", a.start, a.end))
  }

  /** The status is written first; the owner's notification may then collide and fail. */
  function ApplyInvitation(env: Env, db: Db, appointment: Id, user: Id, status: Status): Result {
    if (appointment, user) in db.parts && db.parts[(appointment, user)].status == status then Ok(db)
    else
      var marked := SetStatus(db, appointment, user, status);
      if !Live(marked, appointment) then Ok(marked)
      else InsertNotification(env, marked, db.appts[appointment].owner,
                              if status == DECLINED then "invitation_declined" else "invitation_accepted",
                              Answer(env, db, appointment, user, status))
  }

  function ApplyEnsureParticipant(env: Env, db: Db, c: Command): Result
    requires c.EnsureParticipant?
  {
    if (c.appointment, c.user) in db.parts then Ok(SetStatus(db, c.appointment, c.user, c.status))
    else Ok(InsertParticipant(env, db, c.appointment, c.user, c.status, c.optional).db)
  }

  function ApplyEnsureNotification(env: Env, db: Db, c: Command): Result
    requires c.EnsureNotification?
  {
    if NotificationExists(db, c.user, c.kind, c.payload) then Ok(db)
    else InsertNotification(env, db, c.user, c.kind, c.payload)
  }

  // ----- the applier ---------------------------------------------------------------------------

  ghost function Apply(env: Env, db: Db, c: Command): Result {
    match c
    case CreatePersonal(_, _, _, _, _, _) => ApplyCreatePersonal(env, db, c)
    case CreateGroupAppointment(_, _, _, _, _, _, _) => ApplyCreateGroupAppointment(env, db, c)
    case UpdateAppointment(_, _, _, _, _, _) => ApplyUpdateAppointment(db, c)
    case DeleteAppointment(a) => ApplyDeleteAppointment(db, a)
    case CreateUser(_, _, _, _, _) => ApplyCreateUser(env, db, c)
    case UpdateProfile(_, _, _, _) => ApplyUpdateProfile(db, c)
    case UpdatePassword(u, hash) => ApplyUpdatePassword(db, u, hash)
    case CreateGroup(_, _, _, _, _) => ApplyCreateGroup(env, db, c)
    case UpdateGroup(_, _, _) => ApplyUpdateGroup(db, c)
    case DeleteGroup(g) => ApplyDeleteGroup(db, g)
    case AddMember(g, u, rank) => Ok(PutMember(db, g, u, rank))
    case UpdateMember(g, u, rank) => ApplyUpdateMember(db, g, u, rank)
    case RemoveMember(g, u) => ApplyRemoveMember(db, g, u)
    case AcceptInvitation(a, u, status) => ApplyInvitation(env, db, a, u, status)
    case RejectInvitation(a, u, status) => ApplyInvitation(env, db, a, u, status)
    case ClearEmailIfMatches(u, email) => ApplyClearEmail(db, u, email)
    case EnsureUser(_, _, _, _, _) => ApplyEnsureUser(env, db, c)
    case EnsureMember(g, u, rank) => Ok(PutMember(db, g, u, rank))
    case EnsureParticipant(_, _, _, _) => ApplyEnsureParticipant(env, db, c)
    case EnsureNotification(_, _, _) => ApplyEnsureNotification(env, db, c)
    case Malformed(_) => Fail(db, BadPayload)
    case Unsupported(_) => Fail(db, UnsupportedOp)
  }

  /** Errors treated as a no-op that still completes the entry. */
  predicate Ignorable(c: Command, e: Error) {
    || e == ApplyConflict
    || (e == MemberNotFound && c.RemoveMember?)
    || (e == UniqueViolation &&
          (c.CreateUser? || c.UpdateProfile? || c.CreatePersonal? || c.CreateGroupAppointment? || c.CreateGroup?
           || c.EnsureParticipant? || c.EnsureMember? || c.EnsureNotification?))
  }

  predicate Completes(c: Command, r: Result) {
    r.error.None? || Ignorable(c, r.error.value)
  }
}
