/** Which entries can stall the log, and why a log without them never stalls. */
module Progress {
  import opened Commands
  import opened Tables
  import opened Applier
  import opened Idempotence
  import opened ApplyLoop

  /** The user an ensure operation asks for collides with what is there: the name or the email
      belongs to a row that differs, or the insert meets a row no lookup finds. */
  predicate EnsureUserCollides(env: Env, db: Db, c: Command)
    requires c.EnsureUser?
  {
    if (c.username != "" && FoundByUsername(db, c.username)) || (c.email != "" && EmailTaken(db, c.email))
    then !SameUserByName(db, c)
    else UsernameTaken(db, c.username) || EmailTaken(db, c.email) || env.id(UserKey(c.username)) in db.users
  }

  /** What a caller can check before an entry is applied to know that it would stall the log. */
  ghost predicate Stalls(env: Env, db: Db, c: Command) {
    match c
    case CreateGroupAppointment(title, _, owner, group, start, end, _) =>
      && (forall a :: a in db.appts ==> !Matches(db.appts[a], owner, Some(group), start, end, title))
      && AppointmentId(env, db, owner, Some(group), start, end, title) !in db.appts
      && (group !in db.groups
          || (db.groups[group].kind != NON_HIERARCHICAL && (exists k :: k in db.members && k.0 == group)
              && (group, owner) !in db.members))
    case UpdateAppointment(a, _, _, _, _, _) => !Live(db, a)
    case UpdateProfile(u, _, _, _) => !Readable(db, u)
    case UpdateGroup(g, _, _) => g !in db.groups
    case AcceptInvitation(a, u, status) => AnswerStalls(env, db, a, u, status)
    case RejectInvitation(a, u, status) => AnswerStalls(env, db, a, u, status)
    case EnsureUser(_, username, email, hash, _) =>
      && (hash == "" ==> FoundByUsername(db, username))
      && ((Blank(username) && Blank(email)) || EnsureUserCollides(env, db, c))
    case Malformed(_) => true
    case Unsupported(_) => true
    case _ => false
  }

  /** The owner already has this very notification, and the participant another status. */
  predicate AnswerStalls(env: Env, db: Db, appointment: Id, user: Id, status: Status) {
    && ((appointment, user) in db.parts ==> db.parts[(appointment, user)].status != status)
    && Live(db, appointment)
    && env.id(NoteKey(db.appts[appointment].owner,
                      if status == DECLINED then "invitation_declined" else "invitation_accepted",
                      Answer(env, db, appointment, user, status))) in db.notes
  }

  lemma GroupAppointmentStalls(env: Env, db: Db, c: Command)
    requires c.CreateGroupAppointment?
    ensures Completes(c, Apply(env, db, c)) <==> !Stalls(env, db, c)
  {
    var found := FindAppointment(db.appts, c.owner, Some(c.group), c.start, c.end, c.title);
    if found.None? {
      NoneMeansNoMatch(db.appts, c.owner, Some(c.group), c.start, c.end, c.title);
      assert InGroup(db, c.group) != {} <==> exists k :: k in db.members && k.0 == c.group by {
        if k :| k in db.members && k.0 == c.group {
          assert k.1 in InGroup(db, c.group);
        }
      }
      hide Fits, Enrol, Matches;
    } else {
      assert IsNewest(db.appts, found.value, c.owner, Some(c.group), c.start, c.end, c.title);
    }
  }

  lemma AnswerCompletes(env: Env, db: Db, c: Command, appointment: Id, user: Id, status: Status)
    requires c == AcceptInvitation(appointment, user, status) || c == RejectInvitation(appointment, user, status)
    ensures Completes(c, Apply(env, db, c)) <==> !AnswerStalls(env, db, appointment, user, status)
  {
    hide Answer, ApplyCreatePersonal, ApplyCreateGroupAppointment, ApplyEnsureUser, ApplyCreateUser, ApplyCreateGroup,
         ApplyEnsureNotification, ApplyEnsureParticipant, ApplyUpdateProfile, ApplyUpdateAppointment;
  }

  lemma EnsureUserStalls(env: Env, db: Db, c: Command)
    requires c.EnsureUser?
    ensures Completes(c, Apply(env, db, c)) <==> !Stalls(env, db, c)
  {
    BlankIsBlank();
    hide FoundByUsername, UsernameTaken, EmailTaken, SameUserByName, Blank;
  }

  /** An entry completes in one attempt exactly when the state does not make it stall. */
  lemma CompletesUnlessStalled(env: Env, db: Db, c: Command)
    ensures Completes(c, Apply(env, db, c)) <==> !Stalls(env, db, c)
  {
    hide Apply, Completes, Stalls, AnswerStalls;
    match c
    case CreateGroupAppointment(_, _, _, _, _, _, _) => GroupAppointmentStalls(env, db, c);
    case AcceptInvitation(a, u, status) => InvitationStalls(env, db, c);
    case RejectInvitation(a, u, status) => InvitationStalls(env, db, c);
    case EnsureUser(_, _, _, _, _) => EnsureUserStalls(env, db, c);
    case _ => if Unstoppable(c) { UnstoppableCompletes(env, db, c); NeverStalls(env, db, c); } else { UpdateStalls(env, db, c); }
  }

  lemma InvitationStalls(env: Env, db: Db, c: Command)
    requires c.AcceptInvitation? || c.RejectInvitation?
    ensures Completes(c, Apply(env, db, c)) <==> !Stalls(env, db, c)
  {
    AnswerCompletes(env, db, c, c.appointment, c.user, c.status);
    hide Apply, Completes, AnswerStalls;
  }

  lemma UpdateStalls(env: Env, db: Db, c: Command)
    requires c.UpdateAppointment? || c.UpdateProfile? || c.UpdateGroup? || c.Malformed? || c.Unsupported?
    ensures Completes(c, Apply(env, db, c)) <==> !Stalls(env, db, c)
  {
    hide NameOrEmailElsewhere, ApplyCreatePersonal, ApplyCreateGroupAppointment, ApplyInvitation, ApplyEnsureUser,
         ApplyCreateUser, ApplyCreateGroup, ApplyEnsureNotification, ApplyEnsureParticipant, ApplyDeleteGroup,
         ApplyRemoveMember, ApplyDeleteAppointment, ApplyUpdatePassword, ApplyUpdateMember, ApplyClearEmail;
  }

  lemma NeverStalls(env: Env, db: Db, c: Command)
    requires Unstoppable(c)
    ensures !Stalls(env, db, c)
  {
  }

  /** Operations that complete from any state of the tables. */
  predicate Unstoppable(c: Command) {
    c.CreateUser? || c.UpdatePassword? || c.CreateGroup? || c.DeleteGroup? || c.AddMember? || c.UpdateMember?
    || c.RemoveMember? || c.CreatePersonal? || c.DeleteAppointment? || c.ClearEmailIfMatches? || c.EnsureMember?
    || c.EnsureParticipant? || c.EnsureNotification?
  }

  lemma UnstoppableCompletes(env: Env, db: Db, c: Command)
    requires Unstoppable(c)
    ensures Completes(c, Apply(env, db, c))
  {
    hide FoundByUsername, EmailTaken, UsernameTaken, Blank, NotificationExists, ParticipantIdUsed,
         ApplyCreateGroupAppointment, ApplyInvitation, ApplyEnsureUser, ApplyUpdateProfile, ApplyUpdateAppointment;
  }

  /** An answer by somebody who is not a participant of a live appointment. */
  predicate StrangerAnswers(db: Db, c: Command) {
    (c.AcceptInvitation? || c.RejectInvitation?) && (c.appointment, c.user) !in db.parts && Live(db, c.appointment)
  }

  lemma AnswerAgain(env: Env, db: Db, c: Command, appointment: Id, user: Id, status: Status)
    requires c == AcceptInvitation(appointment, user, status) || c == RejectInvitation(appointment, user, status)
    requires Completes(c, Apply(env, db, c))
    ensures Completes(c, Apply(env, Apply(env, db, c).db, c)) <==> !StrangerAnswers(db, c)
  {
    AnswerIsApplied(env, db, c, appointment, user, status);
    AnswerCompletes(env, db, c, appointment, user, status);
    AnswerCompletes(env, Apply(env, db, c).db, c, appointment, user, status);
    AnswerIsThere(env, db, appointment, user, status);
    hide Answer, Completes, Apply, ApplyInvitation, AnswerStalls, Live;
  }

  lemma AnswerIsApplied(env: Env, db: Db, c: Command, appointment: Id, user: Id, status: Status)
    requires c == AcceptInvitation(appointment, user, status) || c == RejectInvitation(appointment, user, status)
    ensures Apply(env, db, c) == ApplyInvitation(env, db, appointment, user, status)
  {
    hide ApplyInvitation;
  }

  /** An answer that went through stands in its own way unless it changed a participant. */
  lemma AnswerIsThere(env: Env, db: Db, appointment: Id, user: Id, status: Status)
    requires !AnswerStalls(env, db, appointment, user, status)
    ensures AnswerStalls(env, ApplyInvitation(env, db, appointment, user, status).db, appointment, user, status)
      <==> (appointment, user) !in db.parts && Live(db, appointment)
  {
    var once := ApplyInvitation(env, db, appointment, user, status).db;
    if (appointment, user) !in db.parts && Live(db, appointment) {
      assert Answer(env, once, appointment, user, status) == Answer(env, db, appointment, user, status);
    }
    hide Answer;
  }

  lemma EnsureUserAgain(env: Env, db: Db, c: Command)
    requires c.EnsureUser? && Completes(c, Apply(env, db, c))
    ensures Completes(c, Apply(env, Apply(env, db, c).db, c))
  {
    hide ApplyCreatePersonal, ApplyCreateGroupAppointment, ApplyInvitation, ApplyCreateUser, ApplyCreateGroup,
         ApplyEnsureNotification, ApplyEnsureParticipant, ApplyUpdateProfile, ApplyUpdateAppointment;
    var once := ApplyEnsureUser(env, db, c).db;
    if once != db {
      BlankIsBlank();
      var id := env.id(UserKey(c.username));
      var u := User(c.username, Some(c.email), c.passwordHash, c.displayName);
      assert once.users == db.users[id := u];
      assert Readable(once, id) && once.users[id] == u;
    }
  }

  lemma GroupAppointmentAgain(env: Env, db: Db, c: Command)
    requires c.CreateGroupAppointment? && Completes(c, Apply(env, db, c))
    ensures Completes(c, Apply(env, Apply(env, db, c).db, c))
  {
    var r := ApplyCreateGroupAppointment(env, db, c);
    var id := AppointmentId(env, db, c.owner, Some(c.group), c.start, c.end, c.title);
    if r.error.None? && FindAppointment(db.appts, c.owner, Some(c.group), c.start, c.end, c.title).None? {
      var enrolled := Enrol(env, db, c, id, InGroup(db, c.group));
      InsertedIsFound(enrolled, id, c.title, c.description, c.owner, Some(c.group), c.start, c.end, c.privacy, PENDING);
    }
  }

  lemma ProfileAgain(env: Env, db: Db, c: Command)
    requires c.UpdateProfile? && Completes(c, Apply(env, db, c))
    ensures Completes(c, Apply(env, Apply(env, db, c).db, c))
  {
    hide NameOrEmailElsewhere;
  }

  /** An entry that completed completes again when it is retried, with one exception: the answer
      of somebody who is not a participant then meets its own notification and stalls. */
  lemma RetryCompletesIff(env: Env, db: Db, c: Command)
    requires Completes(c, Apply(env, db, c))
    ensures Completes(c, Apply(env, Apply(env, db, c).db, c)) <==> !StrangerAnswers(db, c)
  {
    hide Apply, Completes, EnsureUserCollides, AnswerStalls;
    match c
    case AcceptInvitation(a, u, status) => AnswerAgain(env, db, c, a, u, status);
    case RejectInvitation(a, u, status) => AnswerAgain(env, db, c, a, u, status);
    case EnsureUser(_, _, _, _, _) => EnsureUserAgain(env, db, c);
    case CreateGroupAppointment(_, _, _, _, _, _, _) => GroupAppointmentAgain(env, db, c);
    case UpdateProfile(_, _, _, _) => ProfileAgain(env, db, c);
    case _ =>
      CompletesUnlessStalled(env, db, c);
      CompletesUnlessStalled(env, Apply(env, db, c).db, c);
      RowsStay(env, db, c);
  }

  /** What an update changed is still there. */
  lemma RowsStay(env: Env, db: Db, c: Command)
    ensures c.UpdateAppointment? && Live(db, c.appointment) ==> Live(Apply(env, db, c).db, c.appointment)
    ensures c.UpdateGroup? && c.group in db.groups ==> c.group in Apply(env, db, c).db.groups
  {
  }

  /** Without faults a pass over rows that never stall applies them all. */
  lemma {:induction false} PassAppliesAll(env: Env, m: Machine, rows: seq<Entry>)
    requires forall i :: 0 <= i < |rows| ==> Unstoppable(rows[i].command) && !Blank(rows[i].eventId)
    ensures var after := ApplyRows(env, m, rows, []);
      && (forall i :: 0 <= i < |rows| ==> rows[i].eventId in after.applied)
      && (forall id :: id in m.applied ==> id in after.applied)
      && after.lastApplied == (if rows == [] then m.lastApplied else rows[|rows| - 1].index)
      && (m.error.None? ==> after.error.None?)
    decreases |rows|
  {
    if rows != [] {
      UnstoppableCompletes(env, m.db, rows[0].command);
      hide Apply, Completes, Blank;
      var (next, go) := ApplyRow(env, m, rows[0], NoFault);
      assert go;
      PassAppliesAll(env, next, rows[1..]);
    }
  }

  /** Whatever faults a pass meets, rows that never stall leave no error behind. */
  lemma {:induction false} PassLeavesNoError(env: Env, m: Machine, rows: seq<Entry>, faults: seq<Fault>)
    requires (forall i :: 0 <= i < |rows| ==> Unstoppable(rows[i].command)) && m.error.None?
    ensures ApplyRows(env, m, rows, faults).error.None?
    decreases |rows|
  {
    if rows != [] {
      UnstoppableCompletes(env, m.db, rows[0].command);
      hide Apply, Completes, Blank;
      var (next, go) := ApplyRow(env, m, rows[0], FaultAt(faults, 0));
      PassLeavesNoError(env, next, rows[1..], if faults == [] then [] else faults[1..]);
    }
  }

  /** One pass fully applies a contiguous committed log of operations that never stall, from any
      state of the tables and whatever was applied before. */
  lemma CommittedLogIsApplied(env: Env, m: Machine, log: seq<Entry>, commit: int)
    requires Numbered(log) && 0 <= m.lastApplied <= commit <= |log|
    requires forall i :: m.lastApplied <= i < commit ==> Unstoppable(log[i].command) && !Blank(log[i].eventId)
    ensures var after := ApplyCommitted(env, m, log, commit, []);
      && after.lastApplied == commit
      && forall i :: m.lastApplied <= i < commit ==> log[i].eventId in after.applied
  {
    var rows := Due(log, m.lastApplied, commit);
    forall i | 0 <= i < |rows| ensures rows[i] == log[m.lastApplied + i] {
    }
    PassAppliesAll(env, m, rows);
    var after := ApplyCommitted(env, m, log, commit, []);
    forall i | m.lastApplied <= i < commit ensures log[i].eventId in after.applied {
      assert rows[i - m.lastApplied].eventId in after.applied;
    }
  }
}
