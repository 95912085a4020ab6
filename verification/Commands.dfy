/** The vocabulary of the replicated log: identifiers, the commands a log entry can carry,
    and the log entry itself.  A command is the decoded form of an entry's operation name and
    JSON payload; a payload that does not decode is `Malformed`, a name the applier does not
    know is `Unsupported`. */
module Commands {

  datatype Option<+T> = None | Some(value: T)

  type Id = string

  /** A participant's status is any text; these four have a meaning. */
  type Status = string

  const PENDING: Status := "pending"
  const ACCEPTED: Status := "accepted"
  const DECLINED: Status := "declined"
  const AUTO: Status := "auto"

  const NON_HIERARCHICAL := "non_hierarchical"

  datatype Command =
    | CreatePersonal(title: string, description: string, owner: Id, start: int, end: int, privacy: string)
    | CreateGroupAppointment(title: string, description: string, owner: Id, group: Id,
                             start: int, end: int, privacy: string)
    | UpdateAppointment(appointment: Id, newTitle: Option<string>, newDescription: Option<string>,
                        newStart: Option<int>, newEnd: Option<int>, newPrivacy: Option<string>)
    | DeleteAppointment(appointment: Id)
    | CreateUser(userId: Id, username: string, email: string, passwordHash: string, displayName: string)
    | UpdateProfile(user: Id, newUsername: Option<string>, newEmail: Option<string>, newDisplayName: Option<string>)
    | UpdatePassword(user: Id, passwordHash: string)
    | CreateGroup(name: string, description: string, creator: Id, creatorUsername: string, kind: string)
    | UpdateGroup(group: Id, newName: Option<string>, newDescription: Option<string>)
    | DeleteGroup(group: Id)
    | AddMember(group: Id, user: Id, rank: int)
    | UpdateMember(group: Id, user: Id, rank: int)
    | RemoveMember(group: Id, user: Id)
    | AcceptInvitation(appointment: Id, user: Id, status: Status)
    | RejectInvitation(appointment: Id, user: Id, status: Status)
    | ClearEmailIfMatches(user: Id, email: string)
    | EnsureUser(userId: Id, username: string, email: string, passwordHash: string, displayName: string)
    | EnsureMember(group: Id, user: Id, rank: int)
    | EnsureParticipant(appointment: Id, user: Id, status: Status, optional: bool)
    | EnsureNotification(user: Id, kind: string, payload: string)
    | Malformed(op: string)
    | Unsupported(op: string)

  datatype Entry = Entry(term: int, index: int, eventId: string, command: Command)
}
