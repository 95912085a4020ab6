/** The calendar's tables and the statements the applier issues on them.  Primary keys are map
    keys; the other unique indexes are checked by each insert.  Timestamps, appointment versions
    and the events table are left out, except that appointments remember their insertion order,
    which is all that `created_at` is used for. */
module Tables {
  import opened Commands

  datatype User = User(username: string, email: Option<string>, passwordHash: string, displayName: string)

  datatype Group = Group(name: string, description: string, creator: Id, creatorUsername: string, kind: string)

  datatype Appointment = Appointment(
    title: string, description: string, owner: Id, group: Option<Id>, start: int, end: int,
    privacy: string, status: Status, deleted: bool, created: nat)

  datatype Participant = Participant(id: Id, status: Status, optional: bool)

  datatype Notification = Notification(user: Id, kind: string, payload: string)

  /** `members` is keyed by (group, user) and `parts` by (appointment, user); `clock` counts
      appointment inserts. */
  datatype Db = Db(
    users: map<Id, User>,
    groups: map<Id, Group>,
    members: map<(Id, Id), int>,
    appts: map<Id, Appointment>,
    parts: map<(Id, Id), Participant>,
    notes: map<Id, Notification>,
    clock: nat)

  const EMPTY := Db(map[], map[], map[], map[], map[], map[], 0)

  datatype Error =
    | NoRows | UniqueViolation | ApplyConflict | EnsureConflict | MissingName | MemberNotFound
    | BadPayload | UnsupportedOp

  datatype Result = Result(db: Db, error: Option<Error>)

  function Ok(db: Db): Result { Result(db, None) }

  function Fail(db: Db, error: Error): Result { Result(db, Some(error)) }

  /** What a stable id is derived from. */
  datatype Key =
    | UserKey(username: string)
    | GroupKey(kind: string, creatorUsername: string, name: string)
    | ApptKey(ownerUsername: string, groupSignature: string, start: int, end: int, title: string)
    | PartKey(appointment: Id, user: Id)
    | NoteKey(user: Id, kind: string, payload: string)
    | InviteKey(user: Id, appointment: Id)

  datatype Body =
    | InviteBody(appointment: Id, title: string, description: string, start: int, end: int, group: Id,
                 groupName: string, creator: Id, creatorUsername: string, creatorDisplayName: string,
                 status: Status, privacy: string)
    | AnswerBody(appointment: Id, title: string, user: Id, username: string, displayName: string,
                 answer: string, start: int, end: int)

  /** The hash behind stable ids, which may collide, and the JSON encoder.  Both are arbitrary. */
  datatype Env = Env(id: Key -> Id, json: Body -> string)

  predicate IsSpace(c: char) {
    c in {' ', '\t', '\n', '\r', '\U{0b}', '\U{0c}', '\U{85}', '\U{a0}', '\U{1680}', '\U{2028}', '\U{2029}',
          '\U{202f}', '\U{205f}', '\U{3000}'} || '\U{2000}' <= c <= '\U{200a}'
  }

  /** Nothing is left after trimming. */
  predicate Blank(s: string) {
    forall i :: 0 <= i < |s| ==> IsSpace(s[i])
  }

  // ----- users ------------------------------------------------------------------------------

  /** A row whose email is NULL cannot be scanned, so every lookup treats it as absent. */
  predicate Readable(db: Db, user: Id) {
    user in db.users && db.users[user].email.Some?
  }

  predicate UsernameTaken(db: Db, name: string) {
    exists u :: u in db.users && db.users[u].username == name
  }

  predicate EmailTaken(db: Db, email: string) {
    exists u :: u in db.users && db.users[u].email == Some(email)
  }

  predicate FoundByUsername(db: Db, name: string) {
    exists u :: Readable(db, u) && u in db.users && db.users[u].username == name
  }

  function UsernameOf(db: Db, user: Id): string {
    if Readable(db, user) then db.users[user].username else ""
  }

  function DisplayNameOf(db: Db, user: Id): string {
    if Readable(db, user) then db.users[user].displayName else ""
  }

  function InsertUser(env: Env, db: Db, id: Id, u: User): Result {
    var key := if Blank(id) then env.id(UserKey(u.username)) else id;
    if key in db.users || UsernameTaken(db, u.username) || (u.email.Some? && EmailTaken(db, u.email.value))
    then Fail(db, UniqueViolation)
    else Ok(db.(users := db.users[key := u]))
  }

  /** Another row already has the name or the email. */
  predicate NameOrEmailElsewhere(db: Db, user: Id, username: string, email: string) {
    exists u :: u in db.users && u != user && (db.users[u].username == username || db.users[u].email == Some(email))
  }

  function UpdateUserRow(db: Db, user: Id, username: string, email: string, displayName: string): Result {
    if user !in db.users then Ok(db)
    else if NameOrEmailElsewhere(db, user, username, email) then Fail(db, UniqueViolation)
    else Ok(db.(users := db.users[user :=
      db.users[user].(username := username, email := Some(email), displayName := displayName)]))
  }

  // ----- groups -----------------------------------------------------------------------------

  function PutMember(db: Db, group: Id, user: Id, rank: int): Db {
    db.(members := db.members[(group, user) := rank])
  }

  function InGroup(db: Db, group: Id): set<Id> {
    set k | k in db.members && k.0 == group :: k.1
  }

  predicate OfGroup(appts: map<Id, Appointment>, appointment: Id, group: Id) {
    appointment in appts && appts[appointment].group == Some(group)
  }

  function MembersOutside(members: map<(Id, Id), int>, group: Id): map<(Id, Id), int> {
    members - set k | k in members && k.0 == group
  }

  function PartsOutside(parts: map<(Id, Id), Participant>, appts: map<Id, Appointment>, group: Id): map<(Id, Id), Participant> {
    parts - set k | k in parts && OfGroup(appts, k.0, group)
  }

  function ApptsOutside(appts: map<Id, Appointment>, group: Id): map<Id, Appointment> {
    appts - set a | a in appts && OfGroup(appts, a, group)
  }

  /** Members first, then the group's participants, its appointments, and the group itself. */
  function DropGroup(db: Db, group: Id): Db {
    db.(members := MembersOutside(db.members, group),
        parts := PartsOutside(db.parts, db.appts, group),
        appts := ApptsOutside(db.appts, group),
        groups := db.groups - {group})
  }

  function DropMember(db: Db, group: Id, user: Id): Result {
    if (group, user) !in db.members then Fail(db, MemberNotFound)
    else Ok(db.(members := db.members - {(group, user)},
                parts := db.parts - set k | k in db.parts && k.1 == user && OfGroup(db.appts, k.0, group)))
  }

  // ----- appointments and participants --------------------------------------------------------

  predicate Live(db: Db, appointment: Id) {
    appointment in db.appts && !db.appts[appointment].deleted
  }

  predicate Matches(a: Appointment, owner: Id, group: Option<Id>, start: int, end: int, title: string) {
    a.owner == owner && a.group == group && a.start == start && a.end == end && a.title == title && !a.deleted
  }

  predicate IsNewest(appts: map<Id, Appointment>, id: Id, owner: Id, group: Option<Id>, start: int, end: int, title: string) {
    && id in appts && Matches(appts[id], owner, group, start, end, title)
    && forall a :: a in appts && Matches(appts[a], owner, group, start, end, title) ==>
         appts[a].created <= appts[id].created
  }

  /** The newest live appointment with the given signature. */
  ghost function FindAppointment(appts: map<Id, Appointment>, owner: Id, group: Option<Id>,
                                 start: int, end: int, title: string): Option<Id> {
    if id :| IsNewest(appts, id, owner, group, start, end, title) then Some(id) else None
  }

  function OwnerSignature(db: Db, owner: Id): string {
    if Readable(db, owner) && !Blank(db.users[owner].username) then db.users[owner].username else owner
  }

  function AppointmentId(env: Env, db: Db, owner: Id, group: Option<Id>, start: int, end: int, title: string): Id {
    env.id(ApptKey(OwnerSignature(db, owner), if group.Some? then group.value else "", start, end, title))
  }

  predicate ParticipantIdUsed(db: Db, id: Id) {
    exists k :: k in db.parts && db.parts[k].id == id
  }

  function InsertParticipant(env: Env, db: Db, appointment: Id, user: Id, status: Status, optional: bool): Result {
    var id := env.id(PartKey(appointment, user));
    if (appointment, user) in db.parts || ParticipantIdUsed(db, id) then Fail(db, UniqueViolation)
    else Ok(db.(parts := db.parts[(appointment, user) := Participant(id, status, optional)]))
  }

  function SetStatus(db: Db, appointment: Id, user: Id, status: Status): Db {
    if (appointment, user) in db.parts
    then db.(parts := db.parts[(appointment, user) := db.parts[(appointment, user)].(status := status)])
    else db
  }

  function InsertNotification(env: Env, db: Db, user: Id, kind: string, payload: string): Result {
    var id := env.id(NoteKey(user, kind, payload));
    if id in db.notes then Fail(db, UniqueViolation)
    else Ok(db.(notes := db.notes[id := Notification(user, kind, payload)]))
  }

  predicate NotificationExists(db: Db, user: Id, kind: string, payload: string) {
    exists n :: n in db.notes && db.notes[n] == Notification(user, kind, payload)
  }

  // ----- conflicts ----------------------------------------------------------------------------

  /** The code's interval test: neither ends before the other starts. */
  predicate Overlaps(start1: int, end1: int, start2: int, end2: int) {
    !(end1 <= start2 || start1 >= end2)
  }

  /** The user attends this undeleted appointment, by acceptance or automatically. */
  predicate Busy(db: Db, user: Id, appointment: Id) {
    && Live(db, appointment) && (appointment, user) in db.parts
    && (db.parts[(appointment, user)].status == ACCEPTED || db.parts[(appointment, user)].status == AUTO)
  }

  // ----- schema constraints -------------------------------------------------------------------

  ghost predicate UsersOk(users: map<Id, User>) {
    && (forall u, v :: u in users && v in users && users[u].username == users[v].username ==> u == v)
    && (forall u, v :: u in users && v in users && users[u].email.Some? && users[u].email == users[v].email ==> u == v)
  }

  ghost predicate PartsOk(parts: map<(Id, Id), Participant>) {
    forall k, l :: k in parts && l in parts && parts[k].id == parts[l].id ==> k == l
  }

  ghost predicate ApptsOk(appts: map<Id, Appointment>, clock: nat) {
    && (forall a :: a in appts ==> appts[a].created < clock)
    && (forall a, b :: a in appts && b in appts && appts[a].created == appts[b].created ==> a == b)
  }

  /** What the unique indexes and the insertion order keep true of the tables. */
  ghost predicate SchemaOk(db: Db) {
    UsersOk(db.users) && PartsOk(db.parts) && ApptsOk(db.appts, db.clock)
  }
}
