/** Applying any operation a second time changes nothing, whether it succeeded or failed: what
    retries and reproposing reconcilers rely on. */
module Idempotence {
  import opened Commands
  import opened Tables
  import opened Applier

  ghost predicate Settled(env: Env, db: Db, c: Command) {
    Apply(env, db, c).db == db
  }

  /** For every operation and every state of the tables. */
  lemma ApplyTwiceIsOnce(env: Env, db: Db, c: Command)
    ensures Settled(env, Apply(env, db, c).db, c)
  {
    hide ApplyCreatePersonal, ApplyCreateGroupAppointment, ApplyInvitation, ApplyEnsureUser, ApplyCreateUser,
         ApplyUpdateProfile, ApplyCreateGroup, ApplyEnsureNotification, ApplyEnsureParticipant, ApplyDeleteGroup,
         ApplyRemoveMember, ApplyUpdateAppointment, ApplyDeleteAppointment, ApplyUpdatePassword, ApplyUpdateGroup,
         ApplyUpdateMember, ApplyClearEmail;
    match c
    case CreatePersonal(_, _, _, _, _, _) => CreatePersonalTwice(env, db, c);
    case CreateGroupAppointment(_, _, _, _, _, _, _) => CreateGroupAppointmentTwice(env, db, c);
    case CreateUser(_, _, _, _, _) => CreateUserTwice(env, db, c);
    case UpdateProfile(_, _, _, _) => UpdateProfileTwice(env, db, c);
    case CreateGroup(_, _, _, _, _) => CreateGroupTwice(env, db, c);
    case DeleteGroup(g) => DeleteGroupTwice(env, db, c);
    case RemoveMember(g, u) => RemoveMemberTwice(env, db, c);
    case AcceptInvitation(a, u, status) => InvitationTwice(env, db, a, u, status);
    case RejectInvitation(a, u, status) => InvitationTwice(env, db, a, u, status);
    case EnsureUser(_, _, _, _, _) => EnsureUserTwice(env, db, c);
    case EnsureParticipant(_, _, _, _) => EnsureParticipantTwice(env, db, c);
    case EnsureNotification(_, _, _) => EnsureNotificationTwice(env, db, c);
    case _ => RowUpdateTwice(env, db, c);
  }

  lemma RowUpdateTwice(env: Env, db: Db, c: Command)
    requires c.UpdateAppointment? || c.DeleteAppointment? || c.UpdatePassword? || c.UpdateGroup? || c.AddMember?
             || c.UpdateMember? || c.ClearEmailIfMatches? || c.EnsureMember? || c.Malformed? || c.Unsupported?
    ensures Settled(env, Apply(env, db, c).db, c)
  {
    hide ApplyCreatePersonal, ApplyCreateGroupAppointment, ApplyInvitation, ApplyEnsureUser, ApplyCreateUser,
         ApplyUpdateProfile, ApplyCreateGroup, ApplyEnsureNotification, ApplyEnsureParticipant, ApplyDeleteGroup,
         ApplyRemoveMember, ApplyUpdateAppointment, ApplyDeleteAppointment, ApplyUpdatePassword, ApplyUpdateGroup,
         ApplyUpdateMember, ApplyClearEmail;
    if c.UpdateAppointment? {
      UpdateAppointmentTwice(db, c);
    } else if c.DeleteAppointment? {
      DeleteAppointmentTwice(db, c.appointment);
    } else if c.UpdatePassword? || c.ClearEmailIfMatches? {
      UserRowTwice(env, db, c);
    } else if c.UpdateGroup? {
      UpdateGroupTwice(db, c);
    } else if c.UpdateMember? {
      UpdateMemberTwice(db, c.group, c.user, c.rank);
    } else if c.AddMember? || c.EnsureMember? {
      assert PutMember(PutMember(db, c.group, c.user, c.rank), c.group, c.user, c.rank).members
        == PutMember(db, c.group, c.user, c.rank).members;
    }
  }

  lemma UpdateAppointmentTwice(db: Db, c: Command)
    requires c.UpdateAppointment?
    ensures ApplyUpdateAppointment(ApplyUpdateAppointment(db, c).db, c).db == ApplyUpdateAppointment(db, c).db
  {
    var once := ApplyUpdateAppointment(db, c).db;
    assert ApplyUpdateAppointment(once, c).db.appts == once.appts;
  }

  lemma DeleteAppointmentTwice(db: Db, appointment: Id)
    ensures ApplyDeleteAppointment(ApplyDeleteAppointment(db, appointment).db, appointment).db
         == ApplyDeleteAppointment(db, appointment).db
  {
    var once := ApplyDeleteAppointment(db, appointment).db;
    assert ApplyDeleteAppointment(once, appointment).db.appts == once.appts;
  }

  lemma UserRowTwice(env: Env, db: Db, c: Command)
    requires c.UpdatePassword? || c.ClearEmailIfMatches?
    ensures Settled(env, Apply(env, db, c).db, c)
  {
    hide ApplyCreatePersonal, ApplyCreateGroupAppointment, ApplyInvitation, ApplyEnsureUser, ApplyCreateUser,
         ApplyUpdateProfile, ApplyCreateGroup, ApplyEnsureNotification, ApplyEnsureParticipant;
    var once := Apply(env, db, c).db;
    assert Apply(env, once, c).db.users == once.users;
  }

  lemma UpdateGroupTwice(db: Db, c: Command)
    requires c.UpdateGroup?
    ensures ApplyUpdateGroup(ApplyUpdateGroup(db, c).db, c).db == ApplyUpdateGroup(db, c).db
  {
    var once := ApplyUpdateGroup(db, c).db;
    assert ApplyUpdateGroup(once, c).db.groups == once.groups;
  }

  lemma UpdateMemberTwice(db: Db, group: Id, user: Id, rank: int)
    ensures ApplyUpdateMember(ApplyUpdateMember(db, group, user, rank).db, group, user, rank).db
         == ApplyUpdateMember(db, group, user, rank).db
  {
    var once := ApplyUpdateMember(db, group, user, rank).db;
    assert ApplyUpdateMember(once, group, user, rank).db.members == once.members;
  }

  /** After an insert the only live row with the signature is the new one. */
  lemma InsertedIsFound(db: Db, id: Id, title: string, description: string, owner: Id, group: Option<Id>,
                        start: int, end: int, privacy: string, status: Status)
    requires FindAppointment(db.appts, owner, group, start, end, title).None? && id !in db.appts
    ensures FindAppointment(InsertAppointment(db, id, title, description, owner, group, start, end, privacy, status).appts,
                            owner, group, start, end, title) == Some(id)
  {
    var appts := InsertAppointment(db, id, title, description, owner, group, start, end, privacy, status).appts;
    NoneMeansNoMatch(db.appts, owner, group, start, end, title);
    assert IsNewest(appts, id, owner, group, start, end, title);
    assert forall a :: IsNewest(appts, a, owner, group, start, end, title) ==> a == id;
  }

  /** The search fails only when nothing matches. */
  lemma {:induction false} NoneMeansNoMatch(appts: map<Id, Appointment>, owner: Id, group: Option<Id>,
                                            start: int, end: int, title: string)
    requires FindAppointment(appts, owner, group, start, end, title).None?
    ensures forall a :: a in appts ==> !Matches(appts[a], owner, group, start, end, title)
  {
    var matching := set a | a in appts && Matches(appts[a], owner, group, start, end, title);
    if matching != {} {
      var newest := NewestOf(appts, matching);
      assert IsNewest(appts, newest, owner, group, start, end, title);
    }
    forall a | a in appts ensures !Matches(appts[a], owner, group, start, end, title) {
      assert a !in matching;
    }
  }

  lemma {:induction false} NewestOf(appts: map<Id, Appointment>, ids: set<Id>) returns (newest: Id)
    requires ids != {} && ids <= appts.Keys
    ensures newest in ids && forall a :: a in ids ==> appts[a].created <= appts[newest].created
    decreases ids
  {
    var first :| first in ids;
    var rest := ids - {first};
    newest := first;
    if rest != {} {
      var other := NewestOf(appts, rest);
      if appts[other].created > appts[first].created { newest := other; }
    }
    forall a | a in ids ensures appts[a].created <= appts[newest].created {
      assert a == first || a in rest;
    }
  }

  lemma EnrolledStays(env: Env, db: Db, appointment: Id, owner: Id)
    ensures var r := EnrolOwner(env, db, appointment, owner);
      r.error.None? && r.db.appts == db.appts && EnrolOwner(env, r.db, appointment, owner).db == r.db
  {
  }

  lemma CreatePersonalTwice(env: Env, db: Db, c: Command)
    requires c.CreatePersonal?
    ensures Settled(env, Apply(env, db, c).db, c)
  {
    var found := FindAppointment(db.appts, c.owner, None, c.start, c.end, c.title);
    if found.Some? {
      EnrolledStays(env, db, found.value, c.owner);
    } else {
      var id := AppointmentId(env, db, c.owner, None, c.start, c.end, c.title);
      if id !in db.appts {
        InsertedIsFound(db, id, c.title, c.description, c.owner, None, c.start, c.end, c.privacy, ACCEPTED);
        EnrolledStays(env, InsertAppointment(db, id, c.title, c.description, c.owner, None, c.start, c.end,
                                             c.privacy, ACCEPTED), id, c.owner);
      }
    }
  }

  lemma CreateGroupAppointmentTwice(env: Env, db: Db, c: Command)
    requires c.CreateGroupAppointment?
    ensures Settled(env, Apply(env, db, c).db, c)
  {
    var r := ApplyCreateGroupAppointment(env, db, c);
    var id := AppointmentId(env, db, c.owner, Some(c.group), c.start, c.end, c.title);
    if r.error.None? && FindAppointment(db.appts, c.owner, Some(c.group), c.start, c.end, c.title).None? {
      var enrolled := Enrol(env, db, c, id, InGroup(db, c.group));
      InsertedIsFound(enrolled, id, c.title, c.description, c.owner, Some(c.group), c.start, c.end, c.privacy, PENDING);
    }
  }

  lemma CreateUserTwice(env: Env, db: Db, c: Command)
    requires c.CreateUser?
    ensures Settled(env, Apply(env, db, c).db, c)
  {
    var r := ApplyCreateUser(env, db, c);
    if r.db != db {
      var id := if Blank(c.userId) then env.id(UserKey(c.username)) else c.userId;
      assert Readable(r.db, id) && r.db.users[id].username == c.username;
    }
  }

  lemma EnsureUserTwice(env: Env, db: Db, c: Command)
    requires c.EnsureUser?
    ensures ApplyEnsureUser(env, ApplyEnsureUser(env, db, c).db, c).db == ApplyEnsureUser(env, db, c).db
  {
    var r := ApplyEnsureUser(env, db, c);
    if r.db != db {
      BlankIsBlank();
      var id := env.id(UserKey(c.username));
      var u := User(c.username, Some(c.email), c.passwordHash, c.displayName);
      assert r.db.users == db.users[id := u];
      assert Readable(r.db, id) && r.db.users[id] == u;
    }
  }

  lemma BlankIsBlank()
    ensures Blank("")
  {
  }

  lemma UpdateProfileTwice(env: Env, db: Db, c: Command)
    requires c.UpdateProfile?
    ensures Settled(env, Apply(env, db, c).db, c)
  {
  }

  lemma CreateGroupTwice(env: Env, db: Db, c: Command)
    requires c.CreateGroup?
    ensures Settled(env, Apply(env, db, c).db, c)
  {
  }

  lemma DeleteGroupTwice(env: Env, db: Db, c: Command)
    requires c.DeleteGroup?
    ensures Settled(env, Apply(env, db, c).db, c)
  {
  }

  lemma RemoveMemberTwice(env: Env, db: Db, c: Command)
    requires c.RemoveMember?
    ensures Settled(env, Apply(env, db, c).db, c)
  {
  }

  /** The second attempt finds the status already set, or the notification already there. */
  lemma InvitationTwice(env: Env, db: Db, appointment: Id, user: Id, status: Status)
    ensures var once := ApplyInvitation(env, db, appointment, user, status).db;
      ApplyInvitation(env, once, appointment, user, status).db == once
  {
    var r := ApplyInvitation(env, db, appointment, user, status);
    if (appointment, user) !in db.parts && Live(db, appointment) {
      assert Answer(env, r.db, appointment, user, status) == Answer(env, db, appointment, user, status);
    }
  }

  lemma SetStatusTwice(db: Db, appointment: Id, user: Id, status: Status)
    ensures var once := SetStatus(db, appointment, user, status);
      SetStatus(once, appointment, user, status) == once
  {
    var once := SetStatus(db, appointment, user, status);
    assert SetStatus(once, appointment, user, status).parts == once.parts;
  }

  /** A fresh participant already has the status; a colliding id stays a collision. */
  lemma EnsureParticipantTwice(env: Env, db: Db, c: Command)
    requires c.EnsureParticipant?
    ensures ApplyEnsureParticipant(env, ApplyEnsureParticipant(env, db, c).db, c).db == ApplyEnsureParticipant(env, db, c).db
  {
    SetStatusTwice(db, c.appointment, c.user, c.status);
    if (c.appointment, c.user) !in db.parts {
      var r := InsertParticipant(env, db, c.appointment, c.user, c.status, c.optional);
      if r.error.None? {
        assert SetStatus(r.db, c.appointment, c.user, c.status).parts == r.db.parts;
      }
    }
  }

  lemma EnsureNotificationTwice(env: Env, db: Db, c: Command)
    requires c.EnsureNotification?
    ensures Settled(env, Apply(env, db, c).db, c)
  {
    var r := ApplyEnsureNotification(env, db, c);
    if r.db != db {
      var id := env.id(NoteKey(c.user, c.kind, c.payload));
      assert id in r.db.notes && r.db.notes[id] == Notification(c.user, c.kind, c.payload);
    }
  }

  /** A retry can still answer differently: an answer by somebody who is not a participant
      succeeds once and then meets its own notification, an error that blocks the log. */
  lemma RetryMayBlock(env: Env) returns (db: Db, c: Command)
    ensures Completes(c, Apply(env, db, c))
    ensures !Completes(c, Apply(env, Apply(env, db, c).db, c))
  {
    var a := Appointment("", "", "owner", None, 0, 1, "", ACCEPTED, false, 0);
    db := EMPTY.(appts := map["a" := a], clock := 1);
    c := AcceptInvitation("a", "guest", ACCEPTED);
    var note := Answer(env, db, "a", "guest", ACCEPTED);
    var once := Apply(env, db, c);
    assert Live(db, "a");
    assert once == InsertNotification(env, db, "owner", "invitation_accepted", note);
    assert Answer(env, once.db, "a", "guest", ACCEPTED) == note;
  }
}
