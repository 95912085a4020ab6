/** The applier as it runs: each operation reads and writes the store step by step, and ends
    where the transition function says. */
module ApplierRun {
  import opened Commands
  import opened Tables
  import opened Applier
  import opened Integrity
  import opened Store

  /** One log entry's command against the store. */
  method ApplyEntry(store: Storage, c: Command) returns (error: Option<Error>)
    requires store.Valid()
    modifies store
    ensures Result(store.Db(), error) == Apply(store.env, old(store.Db()), c)
    ensures store.Valid() && store.applied == old(store.applied)
  {
    hide Apply, SchemaOk;
    ApplyKeepsSchema(store.env, store.Db(), c);
    error := Dispatch(store, c);
  }

  method Dispatch(store: Storage, c: Command) returns (error: Option<Error>)
    requires store.Valid()
    modifies store`users, store`groups, store`members, store`appts, store`parts, store`notes, store`clock
    ensures Result(store.Db(), error) == Apply(store.env, old(store.Db()), c)
  {
    hide Apply, SchemaOk, OnRow, OnGroup, OnUser;
    if OnRow(c) {
      error := RunRowOperation(store, c);
    } else if OnGroup(c) {
      error := RunGroupOperation(store, c);
    } else if OnUser(c) {
      error := RunUserOperation(store, c);
    } else {
      error := RunAppointmentOperation(store, c);
    }
  }

  predicate OnRow(c: Command) {
    c.DeleteAppointment? || c.UpdatePassword? || c.ClearEmailIfMatches? || c.Malformed? || c.Unsupported?
  }

  predicate OnGroup(c: Command) {
    c.CreateGroup? || c.UpdateGroup? || c.DeleteGroup? || c.AddMember? || c.UpdateMember? || c.RemoveMember? || c.EnsureMember?
  }

  predicate OnUser(c: Command) {
    c.CreateUser? || c.UpdateProfile? || c.EnsureUser?
  }

  method RunUserOperation(store: Storage, c: Command) returns (error: Option<Error>)
    requires store.Valid() && OnUser(c)
    modifies store`users
    ensures Result(store.Db(), error) == Apply(store.env, old(store.Db()), c)
  {
    hide SchemaOk, ApplyEnsureUser, ApplyCreateUser, ApplyUpdateProfile;
    match c {
      case CreateUser(_, _, _, _, _) => error := RunCreateUser(store, c);
      case UpdateProfile(_, _, _, _) => error := RunUpdateProfile(store, c);
      case EnsureUser(_, _, _, _, _) => error := RunEnsureUser(store, c);
    }
  }

  /** The operations that involve participants or notifications. */
  method RunAppointmentOperation(store: Storage, c: Command) returns (error: Option<Error>)
    requires store.Valid() && !OnRow(c) && !OnGroup(c) && !OnUser(c)
    modifies store`appts, store`parts, store`notes, store`clock
    ensures Result(store.Db(), error) == Apply(store.env, old(store.Db()), c)
  {
    hide SchemaOk, ApplyCreatePersonal, ApplyCreateGroupAppointment, ApplyInvitation, ApplyEnsureParticipant,
         ApplyUpdateAppointment, ApplyEnsureNotification;
    match c {
      case CreatePersonal(_, _, _, _, _, _) => error := RunCreatePersonal(store, c);
      case CreateGroupAppointment(_, _, _, _, _, _, _) => error := RunCreateGroupAppointment(store, c);
      case UpdateAppointment(_, _, _, _, _, _) => error := RunUpdateAppointment(store, c);
      case AcceptInvitation(a, u, status) => error := RunInvitation(store, a, u, status);
      case RejectInvitation(a, u, status) => error := RunInvitation(store, a, u, status);
      case EnsureParticipant(_, _, _, _) => error := RunEnsureParticipant(store, c);
      case EnsureNotification(_, _, _) => error := RunEnsureNotification(store, c);
    }
  }

  method RunCreatePersonal(store: Storage, c: Command) returns (error: Option<Error>)
    requires store.Valid() && c.CreatePersonal?
    modifies store`appts, store`parts, store`clock
    ensures Result(store.Db(), error) == ApplyCreatePersonal(store.env, old(store.Db()), c)
  {
    var existing := store.FindAppointmentBySignature(c.owner, None, c.start, c.end, c.title);
    if existing.Some? {
      error := EnrolUnlessThere(store, existing.value, c.owner);
      return;
    }
    var id, failed := store.CreateAppointment(c.title, c.description, c.owner, None, c.start, c.end, c.privacy, ACCEPTED);
    if failed.Some? { return failed; }
    error := EnrolUnlessThere(store, id, c.owner);
  }

  /** A unique violation means somebody enrolled the owner first. */
  method EnrolUnlessThere(store: Storage, appointment: Id, owner: Id) returns (error: Option<Error>)
    modifies store`parts
    ensures Result(store.Db(), error) == EnrolOwner(store.env, old(store.Db()), appointment, owner)
  {
    var there := store.GetParticipant(appointment, owner);
    if there.Some? { return None; }
    error := store.AddParticipant(appointment, owner, ACCEPTED, false);
    if error == Some(UniqueViolation) { return None; }
  }

  method RunCreateGroupAppointment(store: Storage, c: Command) returns (error: Option<Error>)
    requires store.Valid() && c.CreateGroupAppointment?
    modifies store`appts, store`parts, store`notes, store`clock
    ensures Result(store.Db(), error) == ApplyCreateGroupAppointment(store.env, old(store.Db()), c)
  {
    hide InsertGroupAppointment;
    var existing := store.FindAppointmentBySignature(c.owner, Some(c.group), c.start, c.end, c.title);
    if existing.Some? { return None; }
    error := store.CreateGroupAppointment(c);
  }

  method RunUpdateAppointment(store: Storage, c: Command) returns (error: Option<Error>)
    requires c.UpdateAppointment?
    modifies store`appts
    ensures Result(store.Db(), error) == ApplyUpdateAppointment(old(store.Db()), c)
  {
    var a := store.GetAppointmentByID(c.appointment);
    if a.None? { return Some(NoRows); }
    var edited := a.value;
    if c.newTitle.Some? { edited := edited.(title := c.newTitle.value); }
    if c.newDescription.Some? { edited := edited.(description := c.newDescription.value); }
    if c.newStart.Some? { edited := edited.(start := c.newStart.value); }
    if c.newEnd.Some? { edited := edited.(end := c.newEnd.value); }
    if c.newPrivacy.Some? { edited := edited.(privacy := c.newPrivacy.value); }
    store.UpdateAppointment(c.appointment, edited);
    return None;
  }

  /** A failed insert looks again before it reports the violation. */
  method RunCreateUser(store: Storage, c: Command) returns (error: Option<Error>)
    requires c.CreateUser?
    modifies store`users
    ensures Result(store.Db(), error) == ApplyCreateUser(store.env, old(store.Db()), c)
  {
    var existing := store.GetUserByUsername(c.username);
    if existing.Some? { return None; }
    if c.email != "" {
      var byEmail := store.GetUserByEmail(c.email);
      if byEmail.Some? {
        if byEmail.value.username == c.username { return None; }
        return Some(ApplyConflict);
      }
    }
    error := store.CreateUser(c.userId, User(c.username, Some(c.email), c.passwordHash, c.displayName));
    if error == Some(UniqueViolation) {
      existing := store.GetUserByUsername(c.username);
      if existing.Some? { return None; }
      if c.email != "" {
        var byEmail := store.GetUserByEmail(c.email);
        if byEmail.Some? && byEmail.value.username == c.username { return None; }
      }
    }
  }

  method RunUpdateProfile(store: Storage, c: Command) returns (error: Option<Error>)
    requires c.UpdateProfile?
    modifies store`users
    ensures Result(store.Db(), error) == ApplyUpdateProfile(old(store.Db()), c)
  {
    hide NameOrEmailElsewhere;
    var u := store.GetUserByID(c.user);
    if u.None? { return Some(NoRows); }
    var username, email, displayName := u.value.username, u.value.email.value, u.value.displayName;
    if c.newUsername.Some? { username := c.newUsername.value; }
    if c.newEmail.Some? { email := c.newEmail.value; }
    if c.newDisplayName.Some? { displayName := c.newDisplayName.value; }
    if username == u.value.username && email == u.value.email.value && displayName == u.value.displayName { return None; }
    error := store.UpdateUser(c.user, username, email, displayName);
    if error == Some(UniqueViolation) {
      var again := store.GetUserByID(c.user);
      if again.Some? && again.value.username == username && again.value.email == Some(email)
         && again.value.displayName == displayName {
        return None;
      }
      return Some(ApplyConflict);
    }
  }

  /** A repair never creates a user without a password. */
  method RunEnsureUser(store: Storage, c: Command) returns (error: Option<Error>)
    requires store.Valid() && c.EnsureUser?
    modifies store`users
    ensures Result(store.Db(), error) == ApplyEnsureUser(store.env, old(store.Db()), c)
  {
    hide EnsureUserRow, FoundByUsername;
    if c.passwordHash == "" {
      var u := store.GetUserByUsername(c.username);
      if u.None? { return Some(ApplyConflict); }
    }
    error := store.EnsureUser(c);
  }

  method RunCreateGroup(store: Storage, c: Command) returns (error: Option<Error>)
    requires c.CreateGroup?
    modifies store`groups, store`members
    ensures Result(store.Db(), error) == ApplyCreateGroup(store.env, old(store.Db()), c)
  {
    var id := store.env.id(GroupKey(c.kind, c.creatorUsername, c.name));
    var existing := store.GetGroupByID(id);
    if existing.Some? { return None; }
    var created, failed := store.CreateGroup(Group(c.name, c.description, c.creator, c.creatorUsername, c.kind));
    if failed.Some? { return None; }
    store.AddGroupMember(created, c.creator, if c.kind == NON_HIERARCHICAL then 0 else 5);
    return None;
  }

  method RunInvitation(store: Storage, appointment: Id, user: Id, status: Status) returns (error: Option<Error>)
    modifies store`parts, store`notes
    ensures Result(store.Db(), error) == ApplyInvitation(store.env, old(store.Db()), appointment, user, status)
  {
    var existing := store.GetParticipant(appointment, user);
    if existing.Some? && existing.value.status == status { return None; }
    store.UpdateParticipantStatus(appointment, user, status);
    var a := store.GetAppointmentByID(appointment);
    if a.None? { return None; }
    var u := store.GetUserByID(user);
    var username, displayName := "", "";
    if u.Some? { username, displayName := u.value.username, u.value.displayName; }
    var answer, kind := "accepted", "invitation_accepted";
    if status == DECLINED { answer, kind := "declined", "invitation_declined"; }
    var payload := store.env.json(
      AnswerBody(appointment, a.value.title, user, username, displayName, answer, a.value.start, a.value.end));
    error := store.AddNotification(a.value.owner, kind, payload);
  }

  method RunEnsureParticipant(store: Storage, c: Command) returns (error: Option<Error>)
    requires c.EnsureParticipant?
    modifies store`parts
    ensures Result(store.Db(), error) == ApplyEnsureParticipant(store.env, old(store.Db()), c)
  {
    error := store.EnsureParticipant(c.appointment, c.user, c.status, c.optional);
    if error == Some(UniqueViolation) { return None; }
  }

  method RunEnsureNotification(store: Storage, c: Command) returns (error: Option<Error>)
    requires c.EnsureNotification?
    modifies store`notes
    ensures Result(store.Db(), error) == ApplyEnsureNotification(store.env, old(store.Db()), c)
  {
    error := store.EnsureNotification(c.user, c.kind, c.payload);
  }

  /** The operations on groups and memberships. */
  method RunGroupOperation(store: Storage, c: Command) returns (error: Option<Error>)
    requires OnGroup(c)
    modifies store`groups, store`members, store`appts, store`parts
    ensures Result(store.Db(), error) == Apply(store.env, old(store.Db()), c)
  {
    hide ApplyCreatePersonal, ApplyCreateGroupAppointment, ApplyInvitation, ApplyEnsureUser, ApplyCreateUser,
         ApplyUpdateProfile, ApplyCreateGroup, ApplyEnsureNotification, ApplyEnsureParticipant, ApplyUpdateAppointment,
         ApplyDeleteAppointment, ApplyUpdatePassword, ApplyUpdateGroup, ApplyDeleteGroup, ApplyUpdateMember,
         ApplyRemoveMember, ApplyClearEmail;
    error := None;
    match c {
      case CreateGroup(_, _, _, _, _) => error := RunCreateGroup(store, c);
      case UpdateGroup(_, _, _) => error := RunUpdateGroup(store, c);
      case DeleteGroup(g) => RunDeleteGroup(store, g);
      case AddMember(g, u, rank) => store.AddGroupMember(g, u, rank);
      case UpdateMember(g, u, rank) => store.UpdateGroupMember(g, u, rank);
      case RemoveMember(g, u) => RunRemoveMember(store, g, u);
      case EnsureMember(g, u, rank) => store.AddGroupMember(g, u, rank);
    }
  }

  /** The other operations of one statement on the store, or none. */
  method RunRowOperation(store: Storage, c: Command) returns (error: Option<Error>)
    requires OnRow(c)
    modifies store`users, store`appts
    ensures Result(store.Db(), error) == Apply(store.env, old(store.Db()), c)
  {
    hide ApplyCreatePersonal, ApplyCreateGroupAppointment, ApplyInvitation, ApplyEnsureUser, ApplyCreateUser,
         ApplyUpdateProfile, ApplyCreateGroup, ApplyEnsureNotification, ApplyEnsureParticipant, ApplyUpdateAppointment,
         ApplyDeleteAppointment, ApplyUpdatePassword, ApplyUpdateGroup, ApplyDeleteGroup, ApplyUpdateMember,
         ApplyRemoveMember, ApplyClearEmail;
    match c {
      case DeleteAppointment(a) => store.DeleteAppointment(a);
      case UpdatePassword(u, hash) => RunUpdatePassword(store, u, hash);
      case ClearEmailIfMatches(u, email) => store.ClearUserEmailIfMatches(u, email);
      case Malformed(_) => return Some(BadPayload);
      case Unsupported(_) => return Some(UnsupportedOp);
    }
    return None;
  }

  method RunUpdatePassword(store: Storage, user: Id, passwordHash: string)
    modifies store`users
    ensures Ok(store.Db()) == ApplyUpdatePassword(old(store.Db()), user, passwordHash)
  {
    var u := store.GetUserByID(user);
    if u.Some? && u.value.passwordHash == passwordHash {
      assert store.users[user := store.users[user].(passwordHash := passwordHash)] == store.users;
      return;
    }
    store.UpdatePassword(user, passwordHash);
  }

  method RunDeleteGroup(store: Storage, group: Id)
    modifies store`groups, store`members, store`appts, store`parts
    ensures Ok(store.Db()) == ApplyDeleteGroup(old(store.Db()), group)
  {
    var g := store.GetGroupByID(group);
    if g.None? { return; }
    store.DeleteGroup(group);
  }

  /** Somebody who is not a member counts as removed. */
  method RunRemoveMember(store: Storage, group: Id, user: Id)
    modifies store`members, store`parts
    ensures Ok(store.Db()) == ApplyRemoveMember(old(store.Db()), group, user)
  {
    var error := store.RemoveGroupMember(group, user);
  }

  method RunUpdateGroup(store: Storage, c: Command) returns (error: Option<Error>)
    requires c.UpdateGroup?
    modifies store`groups
    ensures Result(store.Db(), error) == ApplyUpdateGroup(old(store.Db()), c)
  {
    var g := store.GetGroupByID(c.group);
    if g.None? { return Some(NoRows); }
    var name, description := g.value.name, g.value.description;
    if c.newName.Some? { name := c.newName.value; }
    if c.newDescription.Some? { description := c.newDescription.value; }
    store.UpdateGroup(c.group, name, description);
    return None;
  }
}
