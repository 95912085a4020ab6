/** The store as it runs: tables held in fields, changed in place by one statement after another,
    and the multi-statement operations of the calendar, each tied to the function that specifies
    it. */
module Store {
  import opened Commands
  import opened Tables
  import opened Applier
  import opened Idempotence

  // ----- the rows of an enrolment, one member at a time ------------------------------------------

  lemma OneMorePart(env: Env, before: Db, c: Command, id: Id, done: set<Id>, user: Id)
    requires c.CreateGroupAppointment? && AllMembers(before, c, done + {user}) && AllMembers(before, c, done) && user !in done
    ensures PartRows(env, before, c, id, done + {user}) == PartRows(env, before, c, id, done)[(id, user) :=
      Participant(env.id(PartKey(id, user)), MemberStatus(before, c.group, c.owner, user), false)]
  {
    hide MemberStatus;
    var now, next := PartRows(env, before, c, id, done), PartRows(env, before, c, id, done + {user});
    assert user in done + {user} && forall u :: u in done ==> u in done + {user};
    assert next.Keys == now.Keys + {(id, user)};
  }

  lemma NotesApart(env: Env, before: Db, id: Id, done: set<Id>, user: Id)
    requires Fits(env, before, id, done + {user}) && user !in done
    ensures forall u :: u in done ==> env.id(InviteKey(u, id)) != env.id(InviteKey(user, id))
  {
    assert user in done + {user} && forall u :: u in done ==> u in done + {user};
  }

  lemma NoteRowsAt(env: Env, before: Db, c: Command, id: Id, users: set<Id>, u: Id)
    requires c.CreateGroupAppointment? && AllMembers(before, c, users) && Fits(env, before, id, users) && u in users
    ensures (c.group, u) in before.members && c.group in before.groups
    ensures env.id(InviteKey(u, id)) in NoteRows(env, before, c, id, users)
    ensures NoteRows(env, before, c, id, users)[env.id(InviteKey(u, id))] ==
      Notification(u, "invite", Invitation(env, before, c, id, MemberStatus(before, c.group, c.owner, u)))
  {
    hide Invitation, MemberStatus;
  }

  lemma NoteRowsKey(env: Env, before: Db, c: Command, id: Id, users: set<Id>, k: Id) returns (u: Id)
    requires c.CreateGroupAppointment? && AllMembers(before, c, users) && Fits(env, before, id, users)
    requires k in NoteRows(env, before, c, id, users)
    ensures u in users && k == env.id(InviteKey(u, id))
  {
    u :| u in users && k == env.id(InviteKey(u, id));
  }

  lemma OneMoreNote(env: Env, before: Db, c: Command, id: Id, done: set<Id>, user: Id)
    requires c.CreateGroupAppointment? && AllMembers(before, c, done + {user}) && AllMembers(before, c, done) && user !in done
    requires Fits(env, before, id, done) && Fits(env, before, id, done + {user})
    ensures (c.group, user) in before.members
    ensures NoteRows(env, before, c, id, done + {user}) == NoteRows(env, before, c, id, done)[env.id(InviteKey(user, id)) :=
      Notification(user, "invite", Invitation(env, before, c, id, MemberStatus(before, c.group, c.owner, user)))]
  {
    var all := done + {user};
    var now, next := NoteRows(env, before, c, id, done), NoteRows(env, before, c, id, all);
    NotesApart(env, before, id, done, user);
    NoteRowsAt(env, before, c, id, all, user);
    hide MemberStatus, Invitation, Fits, AllMembers, NoteRows;
    var want := now[env.id(InviteKey(user, id)) := next[env.id(InviteKey(user, id))]];
    forall k | k in next ensures k in want && want[k] == next[k] {
      var u := NoteRowsKey(env, before, c, id, all, k);
      if u != user {
        NoteRowsAt(env, before, c, id, all, u);
        NoteRowsAt(env, before, c, id, done, u);
      }
    }
    forall k | k in now ensures k in next {
      var u := NoteRowsKey(env, before, c, id, done, k);
      NoteRowsAt(env, before, c, id, all, u);
    }
    assert next == want;
  }

  lemma UnionUpdate<K, V>(a: map<K, V>, b: map<K, V>, k: K, v: V)
    ensures (a + b)[k := v] == a + b[k := v]
  {
  }

  lemma OneMoreRow(env: Env, before: Db, c: Command, id: Id, done: set<Id>, user: Id)
    requires c.CreateGroupAppointment? && AllMembers(before, c, done + {user}) && AllMembers(before, c, done) && user !in done
    requires Fits(env, before, id, done) && Fits(env, before, id, done + {user})
    ensures var now, next := Enrol(env, before, c, id, done), Enrol(env, before, c, id, done + {user});
      && next.parts == now.parts[(id, user) :=
           Participant(env.id(PartKey(id, user)), MemberStatus(before, c.group, c.owner, user), false)]
      && next.notes == now.notes[env.id(InviteKey(user, id)) :=
           Notification(user, "invite", Invitation(env, before, c, id, MemberStatus(before, c.group, c.owner, user)))]
  {
    assert (c.group, user) in before.members by { assert user in done + {user}; }
    hide MemberStatus, Invitation, Fits, PartRows, NoteRows, AllMembers;
    OneMorePart(env, before, c, id, done, user);
    OneMoreNote(env, before, c, id, done, user);
    UnionUpdate(before.parts, PartRows(env, before, c, id, done), (id, user),
                Participant(env.id(PartKey(id, user)), MemberStatus(before, c.group, c.owner, user), false));
    UnionUpdate(before.notes, NoteRows(env, before, c, id, done), env.id(InviteKey(user, id)),
                Notification(user, "invite", Invitation(env, before, c, id, MemberStatus(before, c.group, c.owner, user))));
  }

  lemma NobodyEnrolled(env: Env, before: Db, c: Command, id: Id, nobody: set<Id>)
    requires c.CreateGroupAppointment? && c.group in before.groups && nobody == {}
    ensures AllMembers(before, c, nobody) && Fits(env, before, id, nobody)
    ensures Enrol(env, before, c, id, nobody).parts == before.parts && Enrol(env, before, c, id, nobody).notes == before.notes
  {
  }

  ghost predicate Split(all: set<Id>, done: set<Id>, todo: set<Id>) {
    done !! todo && done + todo == all
  }

  lemma MoveOne(all: set<Id>, done: set<Id>, todo: set<Id>, user: Id)
    requires Split(all, done, todo) && user in todo
    ensures user !in done && done + {user} <= all && Split(all, done + {user}, todo - {user})
  {
  }

  lemma SplitEnds(all: set<Id>, todo: set<Id>)
    ensures Split(all, {}, todo) <==> todo == all
    ensures forall done :: Split(all, done, {}) ==> done == all
  {
  }

  class Storage {
    const env: Env
    var users: map<Id, User>
    var groups: map<Id, Group>
    var members: map<(Id, Id), int>
    var appts: map<Id, Appointment>
    var parts: map<(Id, Id), Participant>
    var notes: map<Id, Notification>
    var clock: nat
    var applied: map<string, int>

    constructor (env: Env)
      ensures this.env == env && Db() == EMPTY && applied == map[] && Valid()
    {
      this.env := env;
      users, groups, members, appts, parts, notes, clock, applied := map[], map[], map[], map[], map[], map[], 0, map[];
    }

    function Db(): Db
      reads this
    {
      Tables.Db(users, groups, members, appts, parts, notes, clock)
    }

    ghost predicate Valid()
      reads this
    {
      SchemaOk(Db())
    }

    // ----- users --------------------------------------------------------------------------

    method GetUserByUsername(name: string) returns (u: Option<User>)
      ensures u.Some? <==> FoundByUsername(Db(), name)
      ensures u.Some? ==> exists id :: Readable(Db(), id) && users[id] == u.value && u.value.username == name
    {
      if id :| id in users && users[id].email.Some? && users[id].username == name {
        assert Readable(Db(), id);
        return Some(users[id]);
      }
      return None;
    }

    method GetUserByEmail(email: string) returns (u: Option<User>)
      ensures u.Some? <==> EmailTaken(Db(), email)
      ensures u.Some? ==> u.value.email == Some(email) && exists id :: Readable(Db(), id) && users[id] == u.value
    {
      if id :| id in users && users[id].email == Some(email) {
        assert Readable(Db(), id);
        return Some(users[id]);
      }
      return None;
    }

    method GetUserByID(id: Id) returns (u: Option<User>)
      ensures u == if Readable(Db(), id) then Some(users[id]) else None
    {
      if id in users && users[id].email.Some? { return Some(users[id]); }
      return None;
    }

    method CreateUser(id: Id, u: User) returns (error: Option<Error>)
      modifies this`users
      ensures Result(Db(), error) == InsertUser(env, old(Db()), id, u)
    {
      var key := if Blank(id) then env.id(UserKey(u.username)) else id;
      if key in users || UsernameTaken(Db(), u.username) || (u.email.Some? && EmailTaken(Db(), u.email.value)) {
        return Some(UniqueViolation);
      }
      users := users[key := u];
      return None;
    }

    method UpdateUser(user: Id, username: string, email: string, displayName: string) returns (error: Option<Error>)
      modifies this`users
      ensures Result(Db(), error) == UpdateUserRow(old(Db()), user, username, email, displayName)
    {
      if user in users {
        if NameOrEmailElsewhere(Db(), user, username, email) { return Some(UniqueViolation); }
        users := users[user := users[user].(username := username, email := Some(email), displayName := displayName)];
      }
      return None;
    }

    method UpdatePassword(user: Id, passwordHash: string)
      modifies this`users
      ensures Ok(Db()) == ApplyUpdatePassword(old(Db()), user, passwordHash)
    {
      if user in users {
        users := users[user := users[user].(passwordHash := passwordHash)];
      }
    }

    method ClearUserEmailIfMatches(user: Id, email: string)
      modifies this`users
      ensures Ok(Db()) == ApplyClearEmail(old(Db()), user, email)
    {
      if user in users && users[user].email == Some(email) {
        users := users[user := users[user].(email := None)];
      }
    }

    /** Insert if neither the name nor the email is known; the payload's id is ignored, and a failed
        insert looks both up again. */
    method EnsureUser(c: Command) returns (error: Option<Error>)
      requires Valid() && c.EnsureUser?
      modifies this`users
      ensures Result(Db(), error) == EnsureUserRow(env, old(Db()), c)
    {
      if Blank(c.username) && Blank(c.email) { return Some(MissingName); }
      var wanted := User(c.username, Some(c.email), c.passwordHash, c.displayName);
      if c.username != "" {
        var existing := GetUserByUsername(c.username);
        if existing.Some? {
          SameUserIffEqual(c, existing.value, wanted);
          if existing.value == wanted { return None; }
          return Some(EnsureConflict);
        }
      }
      if c.email != "" {
        var existing := GetUserByEmail(c.email);
        if existing.Some? {
          SameUserIffEqual(c, existing.value, wanted);
          if existing.value == wanted { return None; }
          return Some(EnsureConflict);
        }
      }
      error := CreateUser("", wanted);
      BlankIsBlank();
      if error == Some(UniqueViolation) {
        if c.username != "" {
          var existing := GetUserByUsername(c.username);
          if existing.Some? { return if existing == Some(wanted) then None else Some(EnsureConflict); }
        }
        if c.email != "" {
          var existing := GetUserByEmail(c.email);
          if existing.Some? { return if existing == Some(wanted) then None else Some(EnsureConflict); }
        }
      }
    }

    lemma SameUserIffEqual(c: Command, existing: User, wanted: User)
      requires Valid() && c.EnsureUser? && wanted == User(c.username, Some(c.email), c.passwordHash, c.displayName)
      requires exists id :: Readable(Db(), id) && users[id] == existing
      requires existing.username == c.username || existing.email == Some(c.email)
      ensures existing == wanted <==> SameUserByName(Db(), c)
    {
      var id :| Readable(Db(), id) && users[id] == existing;
      if SameUserByName(Db(), c) {
        var u :| u in users && users[u] == wanted;
        assert u == id;
      }
    }

    // ----- groups -------------------------------------------------------------------------

    method GetGroupByID(id: Id) returns (g: Option<Group>)
      ensures g == if id in groups then Some(groups[id]) else None
    {
      if id in groups { return Some(groups[id]); }
      return None;
    }

    method CreateGroup(g: Group) returns (id: Id, error: Option<Error>)
      modifies this`groups
      ensures id == env.id(GroupKey(g.kind, g.creatorUsername, g.name))
      ensures error == if id in old(groups) then Some(UniqueViolation) else None
      ensures groups == if id in old(groups) then old(groups) else old(groups)[id := g]
    {
      id := env.id(GroupKey(g.kind, g.creatorUsername, g.name));
      if id in groups { return id, Some(UniqueViolation); }
      groups := groups[id := g];
      return id, None;
    }

    method UpdateGroup(id: Id, name: string, description: string)
      modifies this`groups
      ensures id in old(groups) ==> groups == old(groups)[id := old(groups)[id].(name := name, description := description)]
      ensures id !in old(groups) ==> groups == old(groups)
    {
      if id in groups {
        groups := groups[id := groups[id].(name := name, description := description)];
      }
    }

    method AddGroupMember(group: Id, user: Id, rank: int)
      modifies this`members
      ensures Db() == PutMember(old(Db()), group, user, rank)
    {
      members := members[(group, user) := rank];
    }

    method UpdateGroupMember(group: Id, user: Id, rank: int)
      modifies this`members
      ensures Ok(Db()) == ApplyUpdateMember(old(Db()), group, user, rank)
    {
      if (group, user) in members {
        members := members[(group, user) := rank];
      }
    }

    method GetMemberRank(group: Id, user: Id) returns (rank: Option<int>)
      ensures rank == if (group, user) in members then Some(members[(group, user)]) else None
    {
      if (group, user) in members { return Some(members[(group, user)]); }
      return None;
    }

    method IsSuperior(group: Id, a: Id, b: Id) returns (superior: Option<bool>)
      ensures superior.Some? <==> (group, a) in members && (group, b) in members
      ensures superior.Some? ==> superior.value == (members[(group, a)] > members[(group, b)])
    {
      var rankA := GetMemberRank(group, a);
      if rankA.None? { return None; }
      var rankB := GetMemberRank(group, b);
      if rankB.None? { return None; }
      return Some(rankA.value > rankB.value);
    }

    /** One transaction, one statement for each table. */
    method DeleteGroup(group: Id)
      modifies this`members, this`parts, this`appts, this`groups
      ensures Db() == DropGroup(old(Db()), group)
    {
      members := MembersOutside(members, group);
      parts := PartsOutside(parts, appts, group);
      appts := ApptsOutside(appts, group);
      groups := groups - {group};
    }

    method RemoveGroupMember(group: Id, user: Id) returns (error: Option<Error>)
      modifies this`members, this`parts
      ensures Result(Db(), error) == DropMember(old(Db()), group, user)
    {
      if (group, user) !in members { return Some(MemberNotFound); }
      members := members - {(group, user)};
      parts := parts - set k | k in parts && k.1 == user && OfGroup(appts, k.0, group);
      return None;
    }

    // ----- appointments and participants ----------------------------------------------------

    method GetAppointmentByID(id: Id) returns (a: Option<Appointment>)
      ensures a == if Live(Db(), id) then Some(appts[id]) else None
    {
      if id in appts && !appts[id].deleted { return Some(appts[id]); }
      return None;
    }

    method FindAppointmentBySignature(owner: Id, group: Option<Id>, start: int, end: int, title: string)
      returns (id: Option<Id>)
      requires Valid()
      ensures id == FindAppointment(appts, owner, group, start, end, title)
    {
      if newest :| newest in appts && IsNewest(appts, newest, owner, group, start, end, title) {
        assert FindAppointment(appts, owner, group, start, end, title).Some?;
        return Some(newest);
      }
      return None;
    }

    method GetParticipant(appointment: Id, user: Id) returns (p: Option<Participant>)
      ensures p == if (appointment, user) in parts then Some(parts[(appointment, user)]) else None
    {
      if (appointment, user) in parts { return Some(parts[(appointment, user)]); }
      return None;
    }

    method CreateAppointment(title: string, description: string, owner: Id, group: Option<Id>, start: int, end: int,
                             privacy: string, status: Status) returns (id: Id, error: Option<Error>)
      modifies this`appts, this`clock
      ensures id == AppointmentId(env, old(Db()), owner, group, start, end, title)
      ensures error == if id in old(appts) then Some(UniqueViolation) else None
      ensures Db() == if id in old(appts) then old(Db())
                      else InsertAppointment(old(Db()), id, title, description, owner, group, start, end, privacy, status)
    {
      id := AppointmentId(env, Db(), owner, group, start, end, title);
      if id in appts { return id, Some(UniqueViolation); }
      appts := appts[id := Appointment(title, description, owner, group, start, end, privacy, status, false, clock)];
      clock := clock + 1;
      return id, None;
    }

    method UpdateAppointment(id: Id, a: Appointment)
      modifies this`appts
      ensures Live(old(Db()), id) ==> appts == old(appts)[id := old(appts)[id].(title := a.title,
        description := a.description, start := a.start, end := a.end, privacy := a.privacy)]
      ensures !Live(old(Db()), id) ==> appts == old(appts)
    {
      if id in appts && !appts[id].deleted {
        appts := appts[id := appts[id].(title := a.title, description := a.description, start := a.start,
                                        end := a.end, privacy := a.privacy)];
      }
    }

    method DeleteAppointment(id: Id)
      modifies this`appts
      ensures Ok(Db()) == ApplyDeleteAppointment(old(Db()), id)
    {
      if id in appts {
        appts := appts[id := appts[id].(deleted := true)];
      }
    }

    method AddParticipant(appointment: Id, user: Id, status: Status, optional: bool) returns (error: Option<Error>)
      modifies this`parts
      ensures Result(Db(), error) == InsertParticipant(env, old(Db()), appointment, user, status, optional)
    {
      var id := env.id(PartKey(appointment, user));
      if (appointment, user) in parts || ParticipantIdUsed(Db(), id) { return Some(UniqueViolation); }
      parts := parts[(appointment, user) := Participant(id, status, optional)];
      return None;
    }

    method UpdateParticipantStatus(appointment: Id, user: Id, status: Status)
      modifies this`parts
      ensures Db() == SetStatus(old(Db()), appointment, user, status)
    {
      if (appointment, user) in parts {
        parts := parts[(appointment, user) := parts[(appointment, user)].(status := status)];
      }
    }

    /** A colliding id is an error here; the applier forgives it. */
    method EnsureParticipant(appointment: Id, user: Id, status: Status, optional: bool) returns (error: Option<Error>)
      modifies this`parts
      ensures Result(Db(), error) ==
        if (appointment, user) in old(parts) then Ok(SetStatus(old(Db()), appointment, user, status))
        else InsertParticipant(env, old(Db()), appointment, user, status, optional)
    {
      var existing := GetParticipant(appointment, user);
      if existing.Some? {
        if existing.value.status != status { UpdateParticipantStatus(appointment, user, status); }
        assert parts == SetStatus(old(Db()), appointment, user, status).parts;
        return None;
      }
      error := AddParticipant(appointment, user, status, optional);
    }

    // ----- the transactional member loop ------------------------------------------------------

    method GetGroupMembers(group: Id) returns (users: set<Id>)
      ensures forall u :: u in users <==> (group, u) in members
      ensures users == InGroup(Db(), group)
    {
      users := {};
      var todo := members.Keys;
      while todo != {}
        invariant todo <= members.Keys
        invariant forall u :: u in users <==> (group, u) in members && (group, u) !in todo
        decreases todo
      {
        var k :| k in todo;
        if k.0 == group {
          assert k == (group, k.1);
          users := users + {k.1};
        }
        todo := todo - {k};
      }
      assert forall u :: u in InGroup(Db(), group) <==> (group, u) in members by {
        forall u | (group, u) in members ensures u in InGroup(Db(), group) {
          assert (group, u).0 == group && (group, u).1 == u;
        }
      }
    }

    /** Since the transaction began with the tables `before`, exactly the members in `done` have
        been enrolled. */
    ghost predicate Enrolled(before: Db, c: Command, id: Id, done: set<Id>)
      requires c.CreateGroupAppointment?
      reads this
    {
      && users == before.users && groups == before.groups && members == before.members
      && AllMembers(before, c, done) && Fits(env, before, id, done)
      && parts == Enrol(env, before, c, id, done).parts && notes == Enrol(env, before, c, id, done).notes
    }

    /** The status a member is invited with; no row for the creator is an error. */
    method InviteStatus(c: Command, kind: string, user: Id) returns (status: Option<Status>)
      requires c.CreateGroupAppointment? && c.group in groups && kind == groups[c.group].kind && (c.group, user) in members
      ensures status == if kind != NON_HIERARCHICAL && (c.group, c.owner) !in members then None
                        else Some(MemberStatus(Db(), c.group, c.owner, user))
    {
      if kind == NON_HIERARCHICAL {
        return Some(if user == c.owner then AUTO else PENDING);
      }
      var creatorRank := GetMemberRank(c.group, c.owner);
      if creatorRank.None? { return None; }
      return Some(if members[(c.group, user)] > creatorRank.value then PENDING else AUTO);
    }

    /** Participant first, then its invitation: a failure may leave the participant behind. */
    method InsertInvited(c: Command, id: Id, user: Id, status: Status) returns (error: Option<Error>)
      requires c.CreateGroupAppointment?
      modifies this`parts, this`notes
      ensures error.None? <==>
        && (id, user) !in old(parts) && !ParticipantIdUsed(old(Db()), env.id(PartKey(id, user)))
        && env.id(InviteKey(user, id)) !in old(notes)
      ensures error.Some? ==> error.value == UniqueViolation
      ensures error.None? ==>
        && parts == old(parts)[(id, user) := Participant(env.id(PartKey(id, user)), status, false)]
        && notes == old(notes)[env.id(InviteKey(user, id)) :=
             Notification(user, "invite", Invitation(env, old(Db()), c, id, status))]
    {
      var text := Invitation(env, Db(), c, id, status);
      error := AddParticipant(id, user, status, false);
      if error.Some? { return error; }
      var noteId := env.id(InviteKey(user, id));
      if noteId in notes { return Some(UniqueViolation); }
      notes := notes[noteId := Notification(user, "invite", text)];
      return None;
    }

    /** One turn of the loop: work out the member's status, insert the participant, then the
        invitation. */
    method InviteMember(c: Command, id: Id, kind: string, user: Id, ghost before: Db, ghost done: set<Id>)
      returns (error: Option<Error>)
      requires c.CreateGroupAppointment? && c.group in groups && kind == groups[c.group].kind
      requires Enrolled(before, c, id, done) && user !in done && AllMembers(before, c, done + {user})
      modifies this`parts, this`notes
      ensures error == if kind != NON_HIERARCHICAL && (c.group, c.owner) !in members then Some(NoRows)
                       else if Fits(env, before, id, done + {user}) then None
                       else Some(UniqueViolation)
      ensures error.None? ==> Enrolled(before, c, id, done + {user})
    {
      StatusSinceBegin(before, c, id, done, user);
      hide Fits, Enrolled, MemberStatus, AllMembers;
      var status := InviteStatus(c, kind, user);
      if status.None? { return Some(NoRows); }
      error := EnrolOne(c, id, user, status.value, before, done);
    }

    lemma StatusSinceBegin(before: Db, c: Command, id: Id, done: set<Id>, user: Id)
      requires c.CreateGroupAppointment? && Enrolled(before, c, id, done) && AllMembers(before, c, done + {user})
      ensures (c.group, user) in before.members && c.group in before.groups && (c.group, user) in members && c.group in groups
      ensures MemberStatus(Db(), c.group, c.owner, user) == MemberStatus(before, c.group, c.owner, user)
    {
      assert user in done + {user};
      hide Fits, Enrol;
    }

    method EnrolOne(c: Command, id: Id, user: Id, status: Status, ghost before: Db, ghost done: set<Id>)
      returns (error: Option<Error>)
      requires c.CreateGroupAppointment? && Enrolled(before, c, id, done)
      requires user !in done && AllMembers(before, c, done + {user}) && (c.group, user) in before.members && c.group in before.groups
      requires status == MemberStatus(before, c.group, c.owner, user)
      modifies this`parts, this`notes
      ensures error == if Fits(env, before, id, done + {user}) then None else Some(UniqueViolation)
      ensures error.None? ==> Enrolled(before, c, id, done + {user})
    {
      hide Fits, Enrol, Enrolled, Invitation, MemberStatus, ParticipantIdUsed, AllMembers;
      WhoFits(before, c, id, done, user, status);
      ghost var parts0, notes0 := parts, notes;
      error := InsertInvited(c, id, user, status);
      if error.None? {
        EnrolledNext(before, c, id, done, user, parts0, notes0);
      }
    }

    lemma WhoFits(before: Db, c: Command, id: Id, done: set<Id>, user: Id, status: Status)
      requires c.CreateGroupAppointment? && (c.group, user) in before.members && c.group in before.groups
      requires Enrolled(before, c, id, done) && user !in done
      ensures Fits(env, before, id, done + {user}) <==>
        && (id, user) !in parts && !ParticipantIdUsed(Db(), env.id(PartKey(id, user)))
        && env.id(InviteKey(user, id)) !in notes
      ensures parts == Enrol(env, before, c, id, done).parts && notes == Enrol(env, before, c, id, done).notes
      ensures users == before.users && groups == before.groups && members == before.members
      ensures AllMembers(before, c, done) && Fits(env, before, id, done)
      ensures (c.group, user) in before.members && c.group in before.groups
      ensures Invitation(env, Db(), c, id, status) == Invitation(env, before, c, id, status)
    {
      OneMoreFits(before, c, id, done, user);
      hide Fits, Enrol;
    }

    lemma EnrolledNext(before: Db, c: Command, id: Id, done: set<Id>, user: Id,
                       parts0: map<(Id, Id), Participant>, notes0: map<Id, Notification>)
      requires c.CreateGroupAppointment? && user !in done && AllMembers(before, c, done + {user})
      requires users == before.users && groups == before.groups && members == before.members
      requires AllMembers(before, c, done) && Fits(env, before, id, done) && Fits(env, before, id, done + {user})
      requires (c.group, user) in before.members
      requires parts0 == Enrol(env, before, c, id, done).parts && notes0 == Enrol(env, before, c, id, done).notes
      requires parts == parts0[(id, user) :=
        Participant(env.id(PartKey(id, user)), MemberStatus(before, c.group, c.owner, user), false)]
      requires notes == notes0[env.id(InviteKey(user, id)) :=
        Notification(user, "invite", Invitation(env, before, c, id, MemberStatus(before, c.group, c.owner, user)))]
      ensures Enrolled(before, c, id, done + {user})
    {
      hide Fits, Enrol, Invitation, MemberStatus, AllMembers;
      OneMoreRow(env, before, c, id, done, user);
    }

    /** Insert the appointment and, member by member in any order, a participant and an
        invitation; any failure restores the tables as they were. */
    method CreateGroupAppointment(c: Command) returns (error: Option<Error>)
      requires c.CreateGroupAppointment?
      modifies this`appts, this`parts, this`notes, this`clock
      ensures Result(Db(), error) == InsertGroupAppointment(env, old(Db()), c)
    {
      hide Fits, FindAppointment, AppointmentId, AllMembers, Enrol;
      ghost var before := Db();
      var appts0, parts0, notes0, clock0 := appts, parts, notes, clock;
      var id, failed := CreateAppointment(c.title, c.description, c.owner, Some(c.group), c.start, c.end, c.privacy, PENDING);
      if failed.Some? { return failed; }
      error := EnrolGroup(c, id, before);
      if error.Some? {
        appts, parts, notes, clock := appts0, parts0, notes0, clock0;
      }
    }

    /** Everything of the transaction after the appointment's own row. */
    method EnrolGroup(c: Command, id: Id, ghost before: Db) returns (error: Option<Error>)
      requires c.CreateGroupAppointment?
      requires users == before.users && groups == before.groups && members == before.members
      requires parts == before.parts && notes == before.notes
      modifies this`parts, this`notes
      ensures error ==
        if c.group !in groups then Some(NoRows)
        else if groups[c.group].kind != NON_HIERARCHICAL && InGroup(before, c.group) != {} && (c.group, c.owner) !in members
        then Some(NoRows)
        else if Fits(env, before, id, InGroup(before, c.group)) then None
        else Some(UniqueViolation)
      ensures error.None? ==>
        && AllMembers(before, c, InGroup(before, c.group))
        && Enrol(env, before, c, id, InGroup(before, c.group)) == before.(parts := parts, notes := notes)
    {
      hide Fits, AllMembers, Enrol, Enrolled;
      var group := GetGroupByID(c.group);
      if group.None? { return Some(NoRows); }
      var everyone := GetGroupMembers(c.group);
      NobodyYet(before, c, id);
      error := InviteAll(c, id, group.value.kind, everyone, before);
      if error.None? {
        EnrolledFits(before, c, id, everyone);
      }
    }

    lemma NobodyYet(before: Db, c: Command, id: Id)
      requires c.CreateGroupAppointment? && c.group in groups
      requires users == before.users && groups == before.groups && members == before.members
      requires parts == before.parts && notes == before.notes
      ensures Enrolled(before, c, id, {}) && AllMembers(before, c, InGroup(Db(), c.group))
    {
      NobodyEnrolled(env, before, c, id, {});
    }

    /** The member loop; it stops at the first failure. */
    method InviteAll(c: Command, id: Id, kind: string, all: set<Id>, ghost before: Db) returns (error: Option<Error>)
      requires c.CreateGroupAppointment? && c.group in groups && kind == groups[c.group].kind
      requires Enrolled(before, c, id, {}) && AllMembers(before, c, all)
      modifies this`parts, this`notes
      ensures error == if kind != NON_HIERARCHICAL && all != {} && (c.group, c.owner) !in members then Some(NoRows)
                       else if Fits(env, before, id, all) then None
                       else Some(UniqueViolation)
      ensures error.None? ==> Enrolled(before, c, id, all)
    {
      hide Fits, Enrolled, AllMembers, Split;
      var todo := all;
      ghost var done := {};
      SplitEnds(all, todo);
      while todo != {}
        invariant Split(all, done, todo) && Enrolled(before, c, id, done)
        invariant done != {} && kind != NON_HIERARCHICAL ==> (c.group, c.owner) in members
        decreases todo
      {
        var user :| user in todo;
        MoveOne(all, done, todo, user);
        SomeMembers(before, c, done + {user}, all);
        var failure := InviteMember(c, id, kind, user, before, done);
        if failure.Some? {
          FitsIsMonotone(before, id, done + {user}, all);
          return failure;
        }
        todo, done := todo - {user}, done + {user};
      }
      EnrolledFits(before, c, id, done);
      return None;
    }

    lemma EnrolledFits(before: Db, c: Command, id: Id, done: set<Id>)
      requires c.CreateGroupAppointment? && Enrolled(before, c, id, done)
      ensures AllMembers(before, c, done) && Fits(env, before, id, done)
      ensures Enrol(env, before, c, id, done) == before.(parts := parts, notes := notes)
    {
    }

    lemma SomeMembers(before: Db, c: Command, users: set<Id>, all: set<Id>)
      requires c.CreateGroupAppointment? && AllMembers(before, c, all) && users <= all
      ensures AllMembers(before, c, users)
    {
    }

    /** One more member fits exactly when its rows clash with none of those present. */
    lemma OneMoreFits(before: Db, c: Command, id: Id, done: set<Id>, user: Id)
      requires c.CreateGroupAppointment? && c.group in before.groups && user !in done
      requires forall u :: u in done ==> (c.group, u) in before.members
      requires Fits(env, before, id, done)
      ensures var now := Enrol(env, before, c, id, done);
        Fits(env, before, id, done + {user}) <==>
          && (id, user) !in now.parts && !ParticipantIdUsed(now, env.id(PartKey(id, user)))
          && env.id(InviteKey(user, id)) !in now.notes
    {
      hide Enrol, Fits, ParticipantIdUsed;
      EnrolledRows(before, c, id, done);
      var now := Enrol(env, before, c, id, done);
      if Fits(env, before, id, done + {user}) {
        FittingMemberIsFree(before, id, done, user, now);
      } else if (id, user) !in now.parts && !ParticipantIdUsed(now, env.id(PartKey(id, user)))
                && env.id(InviteKey(user, id)) !in now.notes {
        FreeMemberFits(before, id, done, user, now);
      }
    }

    lemma FittingMemberIsFree(before: Db, id: Id, done: set<Id>, user: Id, now: Db)
      requires Fits(env, before, id, done + {user}) && user !in done
      requires forall k :: k in now.parts <==> k in before.parts || (k.0 == id && k.1 in done)
      requires forall k :: k in before.parts ==> now.parts[k] == before.parts[k]
      requires forall u :: u in done ==> (id, u) in now.parts && now.parts[(id, u)].id == env.id(PartKey(id, u))
      requires forall n :: n in now.notes <==> n in before.notes || exists u :: u in done && n == env.id(InviteKey(u, id))
      ensures (id, user) !in now.parts && !ParticipantIdUsed(now, env.id(PartKey(id, user)))
      ensures env.id(InviteKey(user, id)) !in now.notes
    {
      assert user in done + {user};
      forall k | k in now.parts ensures now.parts[k].id != env.id(PartKey(id, user)) {
        if k in before.parts {
          assert before.parts[k].id != env.id(PartKey(id, user));
        } else {
          assert k == (id, k.1) && k.1 in done + {user};
        }
      }
    }

    lemma FreeMemberFits(before: Db, id: Id, done: set<Id>, user: Id, now: Db)
      requires Fits(env, before, id, done) && user !in done
      requires forall k :: k in before.parts ==> k in now.parts && now.parts[k] == before.parts[k]
      requires forall u :: u in done ==> (id, u) in now.parts && now.parts[(id, u)].id == env.id(PartKey(id, u))
      requires forall n :: n in now.notes <==> n in before.notes || exists u :: u in done && n == env.id(InviteKey(u, id))
      requires (id, user) !in now.parts && !ParticipantIdUsed(now, env.id(PartKey(id, user)))
      requires env.id(InviteKey(user, id)) !in now.notes
      ensures Fits(env, before, id, done + {user})
    {
      forall u | u in done
        ensures env.id(PartKey(id, u)) != env.id(PartKey(id, user)) && env.id(InviteKey(u, id)) != env.id(InviteKey(user, id))
      {
        assert (id, u) in now.parts && now.parts[(id, u)].id == env.id(PartKey(id, u));
      }
    }

    /** What the rows of an enrolment are. */
    lemma EnrolledRows(before: Db, c: Command, id: Id, done: set<Id>)
      requires c.CreateGroupAppointment? && c.group in before.groups
      requires forall u :: u in done ==> (c.group, u) in before.members
      requires Fits(env, before, id, done)
      ensures var now := Enrol(env, before, c, id, done);
        && (forall k :: k in now.parts <==> k in before.parts || (k.0 == id && k.1 in done))
        && (forall k :: k in before.parts ==> now.parts[k] == before.parts[k])
        && (forall u :: u in done ==> (id, u) in now.parts && now.parts[(id, u)].id == env.id(PartKey(id, u)))
        && (forall n :: n in now.notes <==> n in before.notes || exists u :: u in done && n == env.id(InviteKey(u, id)))
    {
      var now := Enrol(env, before, c, id, done);
      forall k | k in before.parts ensures now.parts[k] == before.parts[k] {
        assert k.1 in done ==> (id, k.1) !in before.parts;
      }
    }

    lemma FitsIsMonotone(before: Db, id: Id, some: set<Id>, all: set<Id>)
      requires some <= all
      ensures Fits(env, before, id, all) ==> Fits(env, before, id, some)
    {
    }

    // ----- notifications ----------------------------------------------------------------------

    method AddNotification(user: Id, kind: string, payload: string) returns (error: Option<Error>)
      modifies this`notes
      ensures Result(Db(), error) == InsertNotification(env, old(Db()), user, kind, payload)
    {
      var id := env.id(NoteKey(user, kind, payload));
      if id in notes { return Some(UniqueViolation); }
      notes := notes[id := Notification(user, kind, payload)];
      return None;
    }

    method EnsureNotification(user: Id, kind: string, payload: string) returns (error: Option<Error>)
      modifies this`notes
      ensures Result(Db(), error) ==
        if NotificationExists(old(Db()), user, kind, payload) then Ok(old(Db()))
        else InsertNotification(env, old(Db()), user, kind, payload)
    {
      if n :| n in notes && notes[n] == Notification(user, kind, payload) { return None; }
      error := AddNotification(user, kind, payload);
    }

    // ----- conflicts --------------------------------------------------------------------------

    /** The appointments a user's booking in which would overlap the interval. */
    ghost function Conflicts(user: Id, start: int, end: int, except: Option<Id>): set<Id>
      reads this
    {
      set a | a in appts && Some(a) != except && Busy(Db(), user, a) && Overlaps(appts[a].start, appts[a].end, start, end)
    }

    /** SELECT COUNT(1) over participants joined with their appointments. */
    method CountConflicts(user: Id, start: int, end: int, except: Option<Id>) returns (count: nat)
      ensures count == |Conflicts(user, start, end, except)|
    {
      count := 0;
      var todo := parts.Keys;
      ghost var hits: set<Id> := {};
      while todo != {}
        invariant todo <= parts.Keys && count == |hits|
        invariant forall a :: a in hits <==> a in Conflicts(user, start, end, except) && (a, user) !in todo
        decreases todo
      {
        var k :| k in todo;
        if k.1 == user && k.0 in appts && Some(k.0) != except {
          var a := appts[k.0];
          var status := parts[k].status;
          if !a.deleted && (status == ACCEPTED || status == AUTO) && !(a.end <= start || a.start >= end) {
            assert k.0 in Conflicts(user, start, end, except) && k == (k.0, user);
            hits := hits + {k.0};
            count := count + 1;
          }
        }
        todo := todo - {k};
      }
      assert hits == Conflicts(user, start, end, except);
    }

    method HasConflict(user: Id, start: int, end: int) returns (conflict: bool)
      ensures conflict <==> exists a :: a in appts && Busy(Db(), user, a) && Overlaps(appts[a].start, appts[a].end, start, end)
    {
      var count := CountConflicts(user, start, end, None);
      assert forall a :: a in Conflicts(user, start, end, None) <==>
        a in appts && Busy(Db(), user, a) && Overlaps(appts[a].start, appts[a].end, start, end);
      assert count > 0 <==> exists a :: a in Conflicts(user, start, end, None);
      return count > 0;
    }

    method HasConflictExcluding(user: Id, start: int, end: int, except: Id) returns (conflict: bool)
      ensures conflict <==> exists a :: a in appts && a != except && Busy(Db(), user, a)
                                        && Overlaps(appts[a].start, appts[a].end, start, end)
    {
      var count := CountConflicts(user, start, end, Some(except));
      assert forall a :: a in Conflicts(user, start, end, Some(except)) <==>
        a in appts && a != except && Busy(Db(), user, a) && Overlaps(appts[a].start, appts[a].end, start, end);
      assert count > 0 <==> exists a :: a in Conflicts(user, start, end, Some(except));
      return count > 0;
    }

    // ----- applied events ---------------------------------------------------------------------

    method HasAppliedEvent(eventId: string, fault: bool) returns (applied: Option<bool>)
      ensures applied == if fault || Blank(eventId) then None else Some(eventId in this.applied)
    {
      if fault || Blank(eventId) { return None; }
      return Some(eventId in this.applied);
    }

    /** INSERT OR IGNORE. */
    method RecordAppliedEvent(eventId: string, index: int, fault: bool) returns (ok: bool)
      modifies this`applied
      ensures ok == !(fault || Blank(eventId))
      ensures applied == if ok && eventId !in old(applied) then old(applied)[eventId := if index < 0 then 0 else index]
                         else old(applied)
    {
      if fault || Blank(eventId) { return false; }
      if eventId !in applied {
        applied := applied[eventId := if index < 0 then 0 else index];
      }
      return true;
    }
  }
}
