/** Membership integrity and the schema's constraints over every sequence of operations. */
module Integrity {
  import opened Commands
  import opened Tables
  import opened Applier

  /** Who may take part in an appointment: a group's members, or the owner alone. */
  ghost predicate MayAttend(db: Db, appointment: Id, user: Id) {
    && appointment in db.appts
    && match db.appts[appointment].group
       case Some(g) => (g, user) in db.members
       case None => user == db.appts[appointment].owner
  }

  /** Every participant's appointment row exists, group-appointment participants are members of
      the group, and a personal appointment's only participant is its owner. */
  ghost predicate Integral(db: Db) {
    forall k :: k in db.parts ==> MayAttend(db, k.0, k.1)
  }

  ghost function ApplyAll(env: Env, db: Db, cs: seq<Command>): Db
    decreases |cs|
  {
    if cs == [] then db else ApplyAll(env, Apply(env, db, cs[0]).db, cs[1..])
  }

  lemma EnrolOwnerKeeps(env: Env, db: Db, appointment: Id, owner: Id)
    requires Integral(db) && MayAttend(db, appointment, owner)
    ensures Integral(EnrolOwner(env, db, appointment, owner).db)
  {
    var after := EnrolOwner(env, db, appointment, owner).db;
    forall k | k in after.parts ensures MayAttend(after, k.0, k.1) {
      assert MayAttend(db, k.0, k.1) || k == (appointment, owner);
    }
  }

  lemma CreatePersonalKeeps(env: Env, db: Db, c: Command)
    requires Integral(db) && c.CreatePersonal?
    ensures Integral(Apply(env, db, c).db)
  {
    var found := FindAppointment(db.appts, c.owner, None, c.start, c.end, c.title);
    if found.Some? {
      EnrolOwnerKeeps(env, db, found.value, c.owner);
    } else {
      var id := AppointmentId(env, db, c.owner, None, c.start, c.end, c.title);
      if id !in db.appts {
        var inserted := InsertAppointment(db, id, c.title, c.description, c.owner, None, c.start, c.end, c.privacy, ACCEPTED);
        InsertKeeps(db, id, inserted);
        EnrolOwnerKeeps(env, inserted, id, c.owner);
      }
    }
  }

  lemma InsertKeeps(db: Db, id: Id, inserted: Db)
    requires Integral(db) && id !in db.appts
    requires inserted.parts == db.parts && inserted.members == db.members
    requires forall a :: a in db.appts ==> a in inserted.appts && inserted.appts[a] == db.appts[a]
    ensures Integral(inserted)
  {
    forall k | k in inserted.parts ensures MayAttend(inserted, k.0, k.1) {
      assert MayAttend(db, k.0, k.1);
    }
  }

  lemma CreateGroupAppointmentKeeps(env: Env, db: Db, c: Command)
    requires Integral(db) && c.CreateGroupAppointment?
    ensures Integral(Apply(env, db, c).db)
  {
    var after := Apply(env, db, c).db;
    var id := AppointmentId(env, db, c.owner, Some(c.group), c.start, c.end, c.title);
    if after != db {
      forall k | k in after.parts ensures MayAttend(after, k.0, k.1) {
        if k in db.parts {
          assert MayAttend(db, k.0, k.1);
        } else {
          assert k.0 == id && k.1 in InGroup(db, c.group);
        }
      }
    }
  }

  /** Rows that are edited in place keep their owner and group. */
  lemma EditKeeps(db: Db, after: Db)
    requires Integral(db) && after.parts.Keys == db.parts.Keys && after.appts.Keys == db.appts.Keys
    requires forall a :: a in db.appts ==>
      after.appts[a].group == db.appts[a].group && after.appts[a].owner == db.appts[a].owner
    requires forall k :: k in db.members ==> k in after.members
    ensures Integral(after)
  {
    forall k | k in after.parts ensures MayAttend(after, k.0, k.1) {
      assert MayAttend(db, k.0, k.1);
    }
  }

  lemma DeleteGroupKeeps(db: Db, group: Id)
    requires Integral(db)
    ensures Integral(DropGroup(db, group))
  {
    var after := DropGroup(db, group);
    forall k | k in after.parts ensures MayAttend(after, k.0, k.1) {
      assert MayAttend(db, k.0, k.1);
    }
  }

  lemma RemoveMemberKeeps(db: Db, group: Id, user: Id)
    requires Integral(db)
    ensures Integral(DropMember(db, group, user).db)
  {
    var after := DropMember(db, group, user).db;
    forall k | k in after.parts ensures MayAttend(after, k.0, k.1) {
      assert MayAttend(db, k.0, k.1);
    }
  }

  /** These leave participants, appointments and memberships alone. */
  predicate OnUsersOrNotes(c: Command) {
    c.CreateUser? || c.EnsureUser? || c.UpdateProfile? || c.UpdatePassword? || c.ClearEmailIfMatches?
    || c.EnsureNotification? || c.Malformed? || c.Unsupported?
  }

  lemma UserOperationKeeps(env: Env, db: Db, c: Command)
    requires Integral(db) && OnUsersOrNotes(c)
    ensures Integral(Apply(env, db, c).db)
  {
    UserOperationWrites(env, db, c);
    hide Apply, Integral;
    EditKeeps(db, Apply(env, db, c).db);
  }

  ghost predicate OnlyUsersAndNotes(db: Db, after: Db) {
    after == db.(users := after.users, notes := after.notes)
  }

  lemma UserOperationWrites(env: Env, db: Db, c: Command)
    requires OnUsersOrNotes(c)
    ensures OnlyUsersAndNotes(db, Apply(env, db, c).db)
  {
    hide FoundByUsername, EmailTaken, UsernameTaken, NotificationExists, SameUserByName, NameOrEmailElsewhere, Blank,
         ApplyCreatePersonal, ApplyCreateGroupAppointment, ApplyInvitation, ApplyEnsureParticipant, ApplyDeleteGroup,
         ApplyRemoveMember, ApplyUpdateAppointment, ApplyDeleteAppointment, ApplyCreateGroup, ApplyUpdateGroup,
         ApplyUpdateMember, InsertUser, UpdateUserRow, InsertNotification, EnsureUserRow;
    match c
    case CreateUser(_, _, _, _, _) =>
      InsertUserWrites(env, db, c.userId, User(c.username, Some(c.email), c.passwordHash, c.displayName));
    case EnsureUser(_, _, _, _, _) => EnsureUserWrites(env, db, c);
    case UpdateProfile(_, _, _, _) =>
      if Readable(db, c.user) {
        var u := db.users[c.user];
        UpdateUserWrites(db, c.user, Or(c.newUsername, u.username), Or(c.newEmail, u.email.value), Or(c.newDisplayName, u.displayName));
      }
    case EnsureNotification(u, kind, payload) => NotificationWrites(env, db, u, kind, payload);
    case _ =>
  }

  lemma EnsureUserWrites(env: Env, db: Db, c: Command)
    requires c.EnsureUser?
    ensures OnlyUsersAndNotes(db, EnsureUserRow(env, db, c).db)
  {
    InsertUserWrites(env, db, "", User(c.username, Some(c.email), c.passwordHash, c.displayName));
    hide FoundByUsername, EmailTaken, SameUserByName, Blank, InsertUser;
  }

  lemma InsertUserWrites(env: Env, db: Db, id: Id, u: User)
    ensures OnlyUsersAndNotes(db, InsertUser(env, db, id, u).db)
  {
  }

  lemma UpdateUserWrites(db: Db, user: Id, username: string, email: string, displayName: string)
    ensures OnlyUsersAndNotes(db, UpdateUserRow(db, user, username, email, displayName).db)
  {
  }

  predicate OnGroups(c: Command) {
    c.CreateGroup? || c.UpdateGroup? || c.AddMember? || c.UpdateMember? || c.EnsureMember?
  }

  lemma GroupOperationWrites(env: Env, db: Db, c: Command)
    requires OnGroups(c)
    ensures var after := Apply(env, db, c).db;
      && after.users == db.users && after.parts == db.parts && after.clock == db.clock && after.appts == db.appts
      && db.members.Keys <= after.members.Keys
  {
    hide ApplyCreatePersonal, ApplyCreateGroupAppointment, ApplyInvitation, ApplyEnsureUser, ApplyCreateUser,
         ApplyUpdateProfile, ApplyEnsureNotification, ApplyEnsureParticipant, ApplyDeleteGroup, ApplyRemoveMember,
         ApplyUpdatePassword, ApplyClearEmail, ApplyUpdateAppointment, ApplyDeleteAppointment;
  }

  lemma GroupOperationKeeps(env: Env, db: Db, c: Command)
    requires Integral(db) && OnGroups(c)
    ensures Integral(Apply(env, db, c).db)
  {
    GroupOperationWrites(env, db, c);
    hide Apply, Integral;
    EditKeeps(db, Apply(env, db, c).db);
  }

  /** An appointment edited or marked deleted keeps its owner, its group and its place. */
  lemma EditWrites(env: Env, db: Db, c: Command)
    requires c.UpdateAppointment? || c.DeleteAppointment?
    ensures SameRoles(db, Apply(env, db, c).db)
  {
    UpdateWrites(db, c);
    DeleteWrites(db, c);
    hide ApplyCreatePersonal, ApplyCreateGroupAppointment, ApplyInvitation, ApplyEnsureUser, ApplyCreateUser,
         ApplyUpdateProfile, ApplyEnsureNotification, ApplyEnsureParticipant, ApplyDeleteGroup, ApplyRemoveMember,
         ApplyUpdatePassword, ApplyClearEmail, ApplyCreateGroup, ApplyUpdateGroup, ApplyUpdateMember,
         ApplyUpdateAppointment, ApplyDeleteAppointment;
  }

  ghost predicate SameRoles(db: Db, after: Db) {
    && after == db.(appts := after.appts) && after.appts.Keys == db.appts.Keys
    && forall a :: a in db.appts ==>
         && after.appts[a].created == db.appts[a].created
         && after.appts[a].group == db.appts[a].group && after.appts[a].owner == db.appts[a].owner
  }

  lemma UpdateWrites(db: Db, c: Command)
    ensures c.UpdateAppointment? ==> SameRoles(db, ApplyUpdateAppointment(db, c).db)
  {
    if c.UpdateAppointment? {
      var after := ApplyUpdateAppointment(db, c).db;
      assert after.appts.Keys == db.appts.Keys;
    }
  }

  lemma DeleteWrites(db: Db, c: Command)
    ensures c.DeleteAppointment? ==> SameRoles(db, ApplyDeleteAppointment(db, c.appointment).db)
  {
    if c.DeleteAppointment? {
      var after := ApplyDeleteAppointment(db, c.appointment).db;
      assert after.appts.Keys == db.appts.Keys;
    }
  }

  lemma AppointmentOperationKeeps(env: Env, db: Db, c: Command)
    requires Integral(db) && (c.UpdateAppointment? || c.DeleteAppointment?)
    ensures Integral(Apply(env, db, c).db)
  {
    EditWrites(env, db, c);
    hide Apply, Integral;
    EditKeeps(db, Apply(env, db, c).db);
  }

  /** An answer writes at most one participant's status and one notification. */
  lemma InvitationWrites(env: Env, db: Db, appointment: Id, user: Id, status: Status)
    ensures var after := ApplyInvitation(env, db, appointment, user, status).db;
      && (after.parts == db.parts || after.parts == SetStatus(db, appointment, user, status).parts)
      && after == db.(parts := after.parts, notes := after.notes)
  {
    var marked := SetStatus(db, appointment, user, status);
    SetStatusWrites(db, appointment, user, status);
    if Live(marked, appointment) {
      NotificationWrites(env, marked, db.appts[appointment].owner,
                         if status == DECLINED then "invitation_declined" else "invitation_accepted",
                         Answer(env, db, appointment, user, status));
    }
    hide Answer, SetStatus, InsertNotification;
  }

  lemma NotificationWrites(env: Env, db: Db, user: Id, kind: string, payload: string)
    ensures var after := InsertNotification(env, db, user, kind, payload).db; after == db.(notes := after.notes)
  {
  }

  lemma SetStatusWrites(db: Db, appointment: Id, user: Id, status: Status)
    ensures var after := SetStatus(db, appointment, user, status);
      && after.parts.Keys == db.parts.Keys && after == db.(parts := after.parts)
      && forall k :: k in db.parts ==> after.parts[k].id == db.parts[k].id
  {
  }

  lemma InvitationKeeps(env: Env, db: Db, appointment: Id, user: Id, status: Status)
    requires Integral(db)
    ensures Integral(ApplyInvitation(env, db, appointment, user, status).db)
  {
    InvitationWrites(env, db, appointment, user, status);
    SetStatusWrites(db, appointment, user, status);
    hide Integral, ApplyInvitation, SetStatus;
    EditKeeps(db, ApplyInvitation(env, db, appointment, user, status).db);
  }

  lemma ApplyKeepsIntegrity(env: Env, db: Db, c: Command)
    requires Integral(db) && !c.EnsureParticipant?
    ensures Integral(Apply(env, db, c).db)
  {
    hide Integral, ApplyCreatePersonal, ApplyCreateGroupAppointment, ApplyInvitation, DropGroup, DropMember;
    match c
    case CreatePersonal(_, _, _, _, _, _) => CreatePersonalKeeps(env, db, c);
    case CreateGroupAppointment(_, _, _, _, _, _, _) => CreateGroupAppointmentKeeps(env, db, c);
    case UpdateAppointment(_, _, _, _, _, _) => AppointmentOperationKeeps(env, db, c);
    case DeleteAppointment(_) => AppointmentOperationKeeps(env, db, c);
    case DeleteGroup(g) => DeleteGroupKeeps(db, g);
    case RemoveMember(g, u) => RemoveMemberKeeps(db, g, u);
    case AcceptInvitation(a, u, status) => InvitationKeeps(env, db, a, u, status);
    case RejectInvitation(a, u, status) => InvitationKeeps(env, db, a, u, status);
    case _ => if OnGroups(c) { GroupOperationKeeps(env, db, c); } else { UserOperationKeeps(env, db, c); }
  }

  /** Through member removal, group deletion and re-creation. */
  lemma {:induction false} IntegrityOverRuns(env: Env, db: Db, cs: seq<Command>)
    requires Integral(db) && forall i :: 0 <= i < |cs| ==> !cs[i].EnsureParticipant?
    ensures Integral(ApplyAll(env, db, cs))
    decreases |cs|
  {
    if cs != [] {
      ApplyKeepsIntegrity(env, db, cs[0]);
      IntegrityOverRuns(env, Apply(env, db, cs[0]).db, cs[1..]);
    }
  }

  /** The one operation left out: it keeps integrity exactly when it adds nobody, or somebody
      who may attend. */
  lemma EnsureParticipantKeepsIff(env: Env, db: Db, c: Command)
    requires Integral(db) && c.EnsureParticipant?
    ensures Integral(Apply(env, db, c).db) <==>
      (c.appointment, c.user) in db.parts || ParticipantIdUsed(db, env.id(PartKey(c.appointment, c.user)))
      || MayAttend(db, c.appointment, c.user)
  {
    hide ApplyCreatePersonal, ApplyCreateGroupAppointment, ApplyInvitation, ApplyEnsureUser, ApplyCreateUser,
         ApplyUpdateProfile, ApplyCreateGroup, ApplyEnsureNotification, ApplyUpdateAppointment, ApplyDeleteAppointment,
         ApplyUpdatePassword, ApplyUpdateGroup, ApplyUpdateMember, ApplyClearEmail;
    var after := Apply(env, db, c).db;
    var key := (c.appointment, c.user);
    if key in db.parts || ParticipantIdUsed(db, env.id(PartKey(c.appointment, c.user))) {
      EditKeeps(db, after);
    } else {
      assert key in after.parts && after.appts == db.appts && after.members == db.members;
      if MayAttend(db, key.0, key.1) {
        forall k | k in after.parts ensures MayAttend(after, k.0, k.1) {
          assert k != key ==> MayAttend(db, k.0, k.1);
        }
      } else {
        assert !MayAttend(after, key.0, key.1);
      }
    }
  }

  /** A repair enrols a stranger in somebody's personal appointment. */
  lemma StrangerBreaksIntegrity(env: Env) returns (db: Db, c: Command)
    ensures Integral(db) && c.EnsureParticipant? && !Integral(Apply(env, db, c).db)
  {
    db := EMPTY.(appts := map["a" := Appointment("", "", "owner", None, 0, 1, "", ACCEPTED, false, 0)], clock := 1);
    c := EnsureParticipant("a", "stranger", ACCEPTED, false);
    EnsureParticipantKeepsIff(env, db, c);
    assert !MayAttend(db, "a", "stranger");
    hide Apply;
  }

  // ----- the schema -----------------------------------------------------------------------------

  lemma InsertUserKeepsSchema(env: Env, db: Db, id: Id, u: User)
    requires UsersOk(db.users)
    ensures UsersOk(InsertUser(env, db, id, u).db.users)
  {
  }

  lemma UpdateUserKeepsSchema(db: Db, user: Id, username: string, email: string, displayName: string)
    requires UsersOk(db.users)
    ensures UsersOk(UpdateUserRow(db, user, username, email, displayName).db.users)
  {
    var after := UpdateUserRow(db, user, username, email, displayName).db.users;
    if user in db.users && !NameOrEmailElsewhere(db, user, username, email) {
      assert after == db.users[user := after[user]];
      assert after[user].username == username && after[user].email == Some(email);
    }
  }

  lemma InsertParticipantKeepsSchema(env: Env, db: Db, appointment: Id, user: Id, status: Status, optional: bool)
    requires PartsOk(db.parts)
    ensures PartsOk(InsertParticipant(env, db, appointment, user, status, optional).db.parts)
  {
    var r := InsertParticipant(env, db, appointment, user, status, optional);
    if r.error.None? {
      forall k | k in db.parts ensures db.parts[k].id != env.id(PartKey(appointment, user)) {
      }
    }
  }

  lemma SetStatusKeepsSchema(db: Db, appointment: Id, user: Id, status: Status)
    requires PartsOk(db.parts)
    ensures PartsOk(SetStatus(db, appointment, user, status).parts)
  {
    var after := SetStatus(db, appointment, user, status).parts;
    assert forall k :: k in after ==> k in db.parts && after[k].id == db.parts[k].id;
  }

  lemma EnrolKeepsSchema(env: Env, db: Db, c: Command, id: Id, users: set<Id>)
    requires PartsOk(db.parts) && c.CreateGroupAppointment? && c.group in db.groups
    requires forall u :: u in users ==> (c.group, u) in db.members
    requires Fits(env, db, id, users)
    ensures PartsOk(Enrol(env, db, c, id, users).parts)
  {
    hide MemberStatus, Invitation, NoteRows;
    var after := Enrol(env, db, c, id, users).parts;
    forall k | k in after && k !in db.parts
      ensures k.0 == id && k.1 in users && after[k].id == env.id(PartKey(id, k.1))
    {
    }
    forall k, l | k in after && l in after && after[k].id == after[l].id ensures k == l {
      assert l.1 in users ==> !ParticipantIdUsed(db, env.id(PartKey(id, l.1)));
      assert k.1 in users ==> !ParticipantIdUsed(db, env.id(PartKey(id, k.1)));
    }
  }

  /** Rows removed or edited in place. */
  lemma SubsetKeepsSchema(db: Db, after: Db)
    requires SchemaOk(db) && after.users == db.users && after.clock == db.clock
    requires forall k :: k in after.parts ==> k in db.parts && after.parts[k].id == db.parts[k].id
    requires forall a :: a in after.appts ==> a in db.appts && after.appts[a].created == db.appts[a].created
    ensures SchemaOk(after)
  {
  }

  /** No operation, failed or not, leaves the tables outside their constraints. */
  lemma ApplyKeepsSchema(env: Env, db: Db, c: Command)
    requires SchemaOk(db)
    ensures SchemaOk(Apply(env, db, c).db)
  {
    if c.CreatePersonal? || c.CreateGroupAppointment? || c.EnsureParticipant? {
      CreationKeepsSchema(env, db, c);
    } else if OnUsersOrNotes(c) {
      UserOperationKeepsSchema(env, db, c);
    } else if OnGroups(c) || c.UpdateAppointment? || c.DeleteAppointment? {
      RowOperationKeepsSchema(env, db, c);
    } else {
      RemovalKeepsSchema(env, db, c);
    }
  }

  lemma RowOperationKeepsSchema(env: Env, db: Db, c: Command)
    requires SchemaOk(db) && (OnGroups(c) || c.UpdateAppointment? || c.DeleteAppointment?)
    ensures SchemaOk(Apply(env, db, c).db)
  {
    hide SchemaOk, ApplyCreatePersonal, ApplyCreateGroupAppointment, ApplyInvitation, ApplyEnsureUser, ApplyCreateUser,
         ApplyUpdateProfile, ApplyEnsureNotification, ApplyEnsureParticipant, ApplyDeleteGroup, ApplyRemoveMember,
         ApplyUpdatePassword, ApplyClearEmail;
    if OnGroups(c) {
      GroupOperationWrites(env, db, c);
    } else {
      EditWrites(env, db, c);
    }
    hide Apply;
    SubsetKeepsSchema(db, Apply(env, db, c).db);
  }

  lemma RemovalKeepsSchema(env: Env, db: Db, c: Command)
    requires SchemaOk(db) && (c.DeleteGroup? || c.RemoveMember? || c.AcceptInvitation? || c.RejectInvitation?)
    ensures SchemaOk(Apply(env, db, c).db)
  {
    hide ApplyCreatePersonal, ApplyCreateGroupAppointment, ApplyInvitation, ApplyEnsureUser, ApplyCreateUser,
         ApplyUpdateProfile, ApplyCreateGroup, ApplyEnsureNotification, ApplyUpdateAppointment, ApplyDeleteAppointment,
         ApplyUpdatePassword, ApplyUpdateGroup, ApplyUpdateMember, ApplyClearEmail, SchemaOk;
    match c
    case DeleteGroup(g) => SubsetKeepsSchema(db, Apply(env, db, c).db);
    case RemoveMember(g, u) => SubsetKeepsSchema(db, Apply(env, db, c).db);
    case AcceptInvitation(a, u, status) => InvitationKeepsSchema(env, db, a, u, status);
    case RejectInvitation(a, u, status) => InvitationKeepsSchema(env, db, a, u, status);
  }

  lemma InvitationKeepsSchema(env: Env, db: Db, appointment: Id, user: Id, status: Status)
    requires SchemaOk(db)
    ensures SchemaOk(ApplyInvitation(env, db, appointment, user, status).db)
  {
    InvitationWrites(env, db, appointment, user, status);
    SetStatusWrites(db, appointment, user, status);
    hide SchemaOk, ApplyInvitation, SetStatus;
    SubsetKeepsSchema(db, ApplyInvitation(env, db, appointment, user, status).db);
  }

  lemma UserOperationKeepsSchema(env: Env, db: Db, c: Command)
    requires SchemaOk(db) && OnUsersOrNotes(c)
    ensures SchemaOk(Apply(env, db, c).db)
  {
    UserOperationWrites(env, db, c);
    hide FoundByUsername, EmailTaken, UsernameTaken, NotificationExists, SameUserByName, NameOrEmailElsewhere, Blank,
         PartsOk, ApptsOk, UsersOk, ApplyCreatePersonal, ApplyCreateGroupAppointment, ApplyInvitation, InsertUser;
    if c.CreateUser? {
      InsertUserKeepsSchema(env, db, c.userId, User(c.username, Some(c.email), c.passwordHash, c.displayName));
    } else if c.EnsureUser? {
      InsertUserKeepsSchema(env, db, "", User(c.username, Some(c.email), c.passwordHash, c.displayName));
    } else if c.UpdateProfile? {
      ProfileKeepsSchema(db, c);
    } else {
      PlainUserOperationKeepsSchema(env, db, c);
    }
  }

  lemma ProfileKeepsSchema(db: Db, c: Command)
    requires UsersOk(db.users) && c.UpdateProfile?
    ensures UsersOk(ApplyUpdateProfile(db, c).db.users)
  {
    if Readable(db, c.user) {
      var u := db.users[c.user];
      hide UsersOk;
      UpdateUserKeepsSchema(db, c.user, Or(c.newUsername, u.username), Or(c.newEmail, u.email.value),
                            Or(c.newDisplayName, u.displayName));
    }
  }

  lemma PlainUserOperationKeepsSchema(env: Env, db: Db, c: Command)
    requires UsersOk(db.users) && OnUsersOrNotes(c) && !c.CreateUser? && !c.EnsureUser? && !c.UpdateProfile?
    ensures UsersOk(Apply(env, db, c).db.users)
  {
    PasswordKeepsSchema(db, c);
    ClearEmailKeepsSchema(db, c);
    hide UsersOk, NotificationExists, ApplyCreatePersonal, ApplyCreateGroupAppointment, ApplyInvitation, ApplyEnsureUser,
         ApplyCreateUser, ApplyUpdateProfile, ApplyCreateGroup, ApplyEnsureParticipant, ApplyUpdateAppointment,
         ApplyDeleteAppointment, ApplyUpdatePassword, ApplyUpdateGroup, ApplyUpdateMember, ApplyClearEmail;
  }

  lemma PasswordKeepsSchema(db: Db, c: Command)
    requires UsersOk(db.users)
    ensures c.UpdatePassword? ==> UsersOk(ApplyUpdatePassword(db, c.user, c.passwordHash).db.users)
  {
    if c.UpdatePassword? {
      EditedUsersKeepSchema(db.users, ApplyUpdatePassword(db, c.user, c.passwordHash).db.users);
    }
  }

  lemma ClearEmailKeepsSchema(db: Db, c: Command)
    requires UsersOk(db.users)
    ensures c.ClearEmailIfMatches? ==> UsersOk(ApplyClearEmail(db, c.user, c.email).db.users)
  {
    if c.ClearEmailIfMatches? {
      EditedUsersKeepSchema(db.users, ApplyClearEmail(db, c.user, c.email).db.users);
    }
  }

  lemma EditedUsersKeepSchema(users: map<Id, User>, after: map<Id, User>)
    requires UsersOk(users)
    requires forall u :: u in after ==>
      u in users && after[u].username == users[u].username && (after[u].email.Some? ==> after[u].email == users[u].email)
    ensures UsersOk(after)
  {
  }

  lemma CreationKeepsSchema(env: Env, db: Db, c: Command)
    requires SchemaOk(db) && (c.CreatePersonal? || c.CreateGroupAppointment? || c.EnsureParticipant?)
    ensures SchemaOk(Apply(env, db, c).db)
  {
    hide ApplyCreatePersonal, ApplyCreateGroupAppointment, ApplyInvitation, ApplyEnsureUser, ApplyCreateUser,
         ApplyUpdateProfile, ApplyCreateGroup, ApplyEnsureNotification, ApplyUpdateAppointment, ApplyDeleteAppointment,
         ApplyUpdatePassword, ApplyUpdateGroup, ApplyUpdateMember, ApplyClearEmail;
    match c
    case EnsureParticipant(a, u, status, optional) =>
      InsertParticipantKeepsSchema(env, db, a, u, status, optional);
      SetStatusKeepsSchema(db, a, u, status);
      hide SchemaOk, PartsOk, ApptsOk, UsersOk;
      PartsChangeKeepsSchema(db, Apply(env, db, c).db);
    case CreatePersonal(_, _, _, _, _, _) => CreatePersonalKeepsSchema(env, db, c);
    case _ => GroupAppointmentKeepsSchema(env, db, c);
  }

  lemma PartsChangeKeepsSchema(db: Db, after: Db)
    requires SchemaOk(db) && after == db.(parts := after.parts) && PartsOk(after.parts)
    ensures SchemaOk(after)
  {
  }

  lemma InsertAppointmentKeepsSchema(db: Db, id: Id, after: Db)
    requires ApptsOk(db.appts, db.clock) && id !in db.appts
    requires after.clock == db.clock + 1 && after.appts.Keys == db.appts.Keys + {id}
    requires after.appts[id].created == db.clock
    requires forall a :: a in db.appts ==> after.appts[a] == db.appts[a]
    ensures ApptsOk(after.appts, after.clock)
  {
  }

  lemma EnrolOwnerKeepsSchema(env: Env, db: Db, appointment: Id, owner: Id)
    requires SchemaOk(db)
    ensures SchemaOk(EnrolOwner(env, db, appointment, owner).db)
  {
    InsertParticipantKeepsSchema(env, db, appointment, owner, ACCEPTED, false);
    hide UsersOk, PartsOk, ApptsOk;
    PartsChangeKeepsSchema(db, EnrolOwner(env, db, appointment, owner).db);
  }

  lemma CreatePersonalKeepsSchema(env: Env, db: Db, c: Command)
    requires SchemaOk(db) && c.CreatePersonal?
    ensures SchemaOk(Apply(env, db, c).db)
  {
    hide FindAppointment, EnrolOwner;
    var found := FindAppointment(db.appts, c.owner, None, c.start, c.end, c.title);
    if found.Some? {
      EnrolOwnerKeepsSchema(env, db, found.value, c.owner);
    } else {
      var id := AppointmentId(env, db, c.owner, None, c.start, c.end, c.title);
      if id !in db.appts {
        var inserted := InsertAppointment(db, id, c.title, c.description, c.owner, None, c.start, c.end, c.privacy, ACCEPTED);
        InsertAppointmentKeepsSchema(db, id, inserted);
        EnrolOwnerKeepsSchema(env, inserted, id, c.owner);
      }
    }
  }

  lemma GroupAppointmentKeepsSchema(env: Env, db: Db, c: Command)
    requires SchemaOk(db) && c.CreateGroupAppointment?
    ensures SchemaOk(Apply(env, db, c).db)
  {
    hide UsersOk, PartsOk, ApptsOk, FindAppointment, Fits, PartRows, NoteRows;
    var after := Apply(env, db, c).db;
    var id := AppointmentId(env, db, c.owner, Some(c.group), c.start, c.end, c.title);
    if Apply(env, db, c).error.None? && FindAppointment(db.appts, c.owner, Some(c.group), c.start, c.end, c.title).None? {
      EnrolKeepsSchema(env, db, c, id, InGroup(db, c.group));
      var enrolled := Enrol(env, db, c, id, InGroup(db, c.group));
      InsertAppointmentKeepsSchema(enrolled, id, after);
      assert after.users == db.users && after.parts == enrolled.parts;
    }
  }
}
