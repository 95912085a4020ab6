/** What each operation leaves in the tables, row by row, and what it leaves alone.  Every lemma is
    about `Apply` and speaks of table rows only, not of the statements the applier issues. */
module Effects {
  import opened Commands
  import opened Tables
  import opened Applier
  import opened Idempotence

  /** No row but that of `k` differs. */
  ghost predicate SameBut<K, V>(was: map<K, V>, now: map<K, V>, k: K) {
    was - {k} == now - {k}
  }

  ghost predicate IsRow<K, V>(m: map<K, V>, k: K, v: V) {
    k in m && m[k] == v
  }

  /** Which of the transition functions an operation is. */
  lemma Dispatch(env: Env, db: Db, c: Command)
    ensures c.CreatePersonal? ==> Apply(env, db, c) == ApplyCreatePersonal(env, db, c)
    ensures c.AcceptInvitation? || c.RejectInvitation? ==>
      Apply(env, db, c) == ApplyInvitation(env, db, c.appointment, c.user, c.status)
    ensures c.UpdateProfile? ==> Apply(env, db, c) == ApplyUpdateProfile(db, c)
    ensures c.EnsureUser? ==> Apply(env, db, c) == ApplyEnsureUser(env, db, c)
    ensures c.EnsureParticipant? ==> Apply(env, db, c) == ApplyEnsureParticipant(env, db, c)
    ensures c.EnsureNotification? ==> Apply(env, db, c) == ApplyEnsureNotification(env, db, c)
  {
    hide ApplyCreatePersonal, ApplyInvitation, ApplyUpdateProfile, ApplyEnsureUser, ApplyEnsureParticipant, ApplyEnsureNotification;
  }

  // ----- group appointments ---------------------------------------------------------------------

  /** A member who need not be asked: the owner of a plain group, or in a hierarchy anybody
      ranked no higher than the owner. */
  ghost predicate NotAsked(db: Db, group: Id, owner: Id, user: Id) {
    && group in db.groups && (group, user) in db.members
    && if db.groups[group].kind == NON_HIERARCHICAL then user == owner
       else (group, owner) in db.members && db.members[(group, user)] <= db.members[(group, owner)]
  }

  ghost predicate Standing(db: Db, owner: Id, group: Option<Id>, start: int, end: int, title: string) {
    exists a :: a in db.appts && !db.appts[a].deleted
      && db.appts[a].owner == owner && db.appts[a].group == group && db.appts[a].title == title
      && db.appts[a].start == start && db.appts[a].end == end
  }

  /** The owner's username, if there is one that can be read, is part of the appointment's identity. */
  ghost predicate IsIdOf(env: Env, db: Db, id: Id, owner: Id, group: Id, start: int, end: int, title: string) {
    if owner in db.users && db.users[owner].email.Some? && !Blank(db.users[owner].username)
    then id == env.id(ApptKey(db.users[owner].username, group, start, end, title))
    else id == env.id(ApptKey(owner, group, start, end, title))
  }

  /** A group appointment that is created, and what holds of its group and of the rows it meets. */
  ghost predicate Creates(env: Env, db: Db, c: Command, id: Id)
    requires c.CreateGroupAppointment?
  {
    && IsIdOf(env, db, id, c.owner, c.group, c.start, c.end, c.title)
    && !Standing(db, c.owner, Some(c.group), c.start, c.end, c.title)
    && Apply(env, db, c).error.None?
  }

  lemma MembersOf(db: Db, group: Id)
    ensures forall u :: u in InGroup(db, group) <==> (group, u) in db.members
  {
    forall u | (group, u) in db.members ensures u in InGroup(db, group) {
      assert (group, u).1 in InGroup(db, group);
    }
  }

  /** Of the appointments that match there is a newest. */
  lemma Stands(db: Db, owner: Id, group: Option<Id>, start: int, end: int, title: string)
    requires Standing(db, owner, group, start, end, title)
    ensures FindAppointment(db.appts, owner, group, start, end, title).Some?
    ensures IsNewest(db.appts, FindAppointment(db.appts, owner, group, start, end, title).value, owner, group, start, end, title)
  {
    if FindAppointment(db.appts, owner, group, start, end, title).None? {
      NoneMeansNoMatch(db.appts, owner, group, start, end, title);
    }
  }

  lemma NoneStands(db: Db, c: Command)
    requires c.CreateGroupAppointment? && !Standing(db, c.owner, Some(c.group), c.start, c.end, c.title)
    ensures FindAppointment(db.appts, c.owner, Some(c.group), c.start, c.end, c.title).None?
  {
  }

  lemma Created(env: Env, db: Db, c: Command, id: Id)
    requires c.CreateGroupAppointment? && Creates(env, db, c, id)
    ensures AllMembers(db, c, InGroup(db, c.group)) && Fits(env, db, id, InGroup(db, c.group)) && id !in db.appts
    ensures db.groups[c.group].kind == NON_HIERARCHICAL || (c.group, c.owner) in db.members || InGroup(db, c.group) == {}
    ensures Apply(env, db, c).db == InsertAppointment(Enrol(env, db, c, id, InGroup(db, c.group)), id, c.title, c.description,
              c.owner, Some(c.group), c.start, c.end, c.privacy, PENDING)
  {
    hide Enrol, Fits, InsertAppointment;
    NoneStands(db, c);
    assert id == AppointmentId(env, db, c.owner, Some(c.group), c.start, c.end, c.title);
  }

  lemma GroupAppointmentRow(env: Env, db: Db, c: Command, id: Id)
    requires c.CreateGroupAppointment? && Creates(env, db, c, id)
    ensures var d := Apply(env, db, c).db;
      && d == db.(appts := d.appts, parts := d.parts, notes := d.notes, clock := db.clock + 1)
      && id !in db.appts && SameBut(db.appts, d.appts, id)
      && IsRow(d.appts, id, Appointment(c.title, c.description, c.owner, Some(c.group), c.start, c.end,
                                        c.privacy, PENDING, false, db.clock))
  {
    hide Apply, PartRows, NoteRows, Fits;
    Created(env, db, c, id);
  }

  lemma StatusOf(db: Db, group: Id, owner: Id, user: Id)
    requires group in db.groups && (group, user) in db.members
    requires db.groups[group].kind == NON_HIERARCHICAL || (group, owner) in db.members
    ensures MemberStatus(db, group, owner, user) == if NotAsked(db, group, owner, user) then AUTO else PENDING
  {
  }

  /** The rows the member loop writes, one for each user. */
  lemma Rows(env: Env, db: Db, c: Command, id: Id, users: set<Id>)
    requires c.CreateGroupAppointment? && AllMembers(db, c, users) && Fits(env, db, id, users)
    ensures forall k :: k in PartRows(env, db, c, id, users) <==> k.0 == id && k.1 in users
    ensures forall u :: u in users ==> IsRow(PartRows(env, db, c, id, users), (id, u),
              Participant(env.id(PartKey(id, u)), MemberStatus(db, c.group, c.owner, u), false))
    ensures forall n :: n in NoteRows(env, db, c, id, users) <==> exists u :: u in users && n == env.id(InviteKey(u, id))
    ensures forall u :: u in users ==> IsRow(NoteRows(env, db, c, id, users), env.id(InviteKey(u, id)),
              Notification(u, "invite", Invitation(env, db, c, id, MemberStatus(db, c.group, c.owner, u))))
  {
    hide MemberStatus, Invitation, ParticipantIdUsed;
  }

  lemma GroupParticipants(env: Env, db: Db, c: Command, id: Id)
    requires c.CreateGroupAppointment? && Creates(env, db, c, id)
    ensures var d := Apply(env, db, c).db;
      && (forall k :: k in d.parts <==> k in db.parts || (k.0 == id && (c.group, k.1) in db.members))
      && (forall k :: k in db.parts ==> IsRow(d.parts, k, db.parts[k]))
      && (forall u :: (c.group, u) in db.members ==>
            && (id, u) !in db.parts
            && IsRow(d.parts, (id, u), Participant(env.id(PartKey(id, u)),
                 if NotAsked(db, c.group, c.owner, u) then AUTO else PENDING, false)))
  {
    hide Apply, PartRows, NoteRows, MemberStatus, NotAsked, InGroup, ParticipantIdUsed, Creates;
    var d, users := Apply(env, db, c).db, InGroup(db, c.group);
    Created(env, db, c, id);
    MembersOf(db, c.group);
    Rows(env, db, c, id, users);
    var rows := PartRows(env, db, c, id, users);
    assert d.parts == db.parts + rows;
    forall k | k in db.parts ensures k !in rows {
      assert k.0 == id ==> k == (id, k.1);
    }
    forall u | (c.group, u) in db.members
      ensures MemberStatus(db, c.group, c.owner, u) == if NotAsked(db, c.group, c.owner, u) then AUTO else PENDING
    {
      assert u in users;
      StatusOf(db, c.group, c.owner, u);
    }
  }

  /** The body of an invitation, as text. */
  ghost function InviteText(env: Env, db: Db, c: Command, id: Id, status: Status): string
    requires c.CreateGroupAppointment? && c.group in db.groups
  {
    var known := c.owner in db.users && db.users[c.owner].email.Some?;
    env.json(InviteBody(id, c.title, c.description, c.start, c.end, c.group, db.groups[c.group].name, c.owner,
                        if known then db.users[c.owner].username else "",
                        if known then db.users[c.owner].displayName else "", status, c.privacy))
  }

  lemma GroupInvitations(env: Env, db: Db, c: Command, id: Id)
    requires c.CreateGroupAppointment? && Creates(env, db, c, id)
    ensures var d := Apply(env, db, c).db;
      && c.group in db.groups
      && (forall n :: n in d.notes <==>
            n in db.notes || exists u :: (c.group, u) in db.members && n == env.id(InviteKey(u, id)))
      && (forall n :: n in db.notes ==> IsRow(d.notes, n, db.notes[n]))
      && (forall u :: (c.group, u) in db.members ==>
            && env.id(InviteKey(u, id)) !in db.notes
            && IsRow(d.notes, env.id(InviteKey(u, id)), Notification(u, "invite",
                 InviteText(env, db, c, id, if NotAsked(db, c.group, c.owner, u) then AUTO else PENDING))))
  {
    hide Apply, PartRows, NoteRows, MemberStatus, NotAsked, InGroup, ParticipantIdUsed, Creates;
    var d, users := Apply(env, db, c).db, InGroup(db, c.group);
    Created(env, db, c, id);
    MembersOf(db, c.group);
    Rows(env, db, c, id, users);
    var rows := NoteRows(env, db, c, id, users);
    assert d.notes == db.notes + rows;
    forall u | (c.group, u) in db.members
      ensures MemberStatus(db, c.group, c.owner, u) == if NotAsked(db, c.group, c.owner, u) then AUTO else PENDING
    {
      assert u in users;
      StatusOf(db, c.group, c.owner, u);
    }
    forall status ensures Invitation(env, db, c, id, status) == InviteText(env, db, c, id, status) {
    }
    hide InviteText, Invitation;
  }

  /** The rows a group appointment inserts are new, and no two of them are the same. */
  ghost predicate RowsAreFree(env: Env, db: Db, group: Id, id: Id) {
    && (forall u :: (group, u) in db.members ==> (id, u) !in db.parts && env.id(InviteKey(u, id)) !in db.notes)
    && (forall u, k :: (group, u) in db.members && k in db.parts ==> db.parts[k].id != env.id(PartKey(id, u)))
    && (forall u, v :: (group, u) in db.members && (group, v) in db.members && u != v ==>
          env.id(PartKey(id, u)) != env.id(PartKey(id, v)) && env.id(InviteKey(u, id)) != env.id(InviteKey(v, id)))
  }

  lemma FreeRowsFit(env: Env, db: Db, group: Id, id: Id)
    ensures RowsAreFree(env, db, group, id) <==> Fits(env, db, id, InGroup(db, group))
  {
    hide InGroup;
    MembersOf(db, group);
    if Fits(env, db, id, InGroup(db, group)) {
      forall u, k | (group, u) in db.members && k in db.parts ensures db.parts[k].id != env.id(PartKey(id, u)) {
        assert u in InGroup(db, group);
        assert !ParticipantIdUsed(db, env.id(PartKey(id, u)));
      }
    }
  }

  /** All or nothing: in a hierarchy the owner must be a member, and every row must be free. */
  lemma GroupAppointmentIff(env: Env, db: Db, c: Command, id: Id, r: Result)
    requires c.CreateGroupAppointment? && r == Apply(env, db, c)
    requires IsIdOf(env, db, id, c.owner, c.group, c.start, c.end, c.title)
    ensures Standing(db, c.owner, Some(c.group), c.start, c.end, c.title) ==> r == Result(db, None)
    ensures !Standing(db, c.owner, Some(c.group), c.start, c.end, c.title) ==>
      (r.error.None? <==>
        && id !in db.appts && c.group in db.groups && RowsAreFree(env, db, c.group, id)
        && (db.groups[c.group].kind == NON_HIERARCHICAL || (c.group, c.owner) in db.members
            || forall u :: (c.group, u) !in db.members))
    ensures r.error.Some? ==> r.db == db
  {
    hide InGroup, Fits, RowsAreFree, InsertAppointment, Enrol, NotAsked;
    FreeRowsFit(env, db, c.group, id);
    MembersOf(db, c.group);
    assert id == AppointmentId(env, db, c.owner, Some(c.group), c.start, c.end, c.title);
    if Standing(db, c.owner, Some(c.group), c.start, c.end, c.title) {
      Stands(db, c.owner, Some(c.group), c.start, c.end, c.title);
    } else {
      NoneStands(db, c);
      assert InGroup(db, c.group) != {} <==> exists u :: u in InGroup(db, c.group);
    }
  }

  // ----- groups and memberships -------------------------------------------------------------------

  /** The group, its memberships, its appointments and their participants are gone, and nothing else. */
  lemma DeletedGroupIsGone(env: Env, db: Db, g: Id, r: Result)
    requires r == Apply(env, db, DeleteGroup(g))
    ensures r.error.None? && r.db == db.(groups := r.db.groups, members := r.db.members, appts := r.db.appts, parts := r.db.parts)
    ensures g !in db.groups ==> r.db == db
    ensures g !in r.db.groups && SameBut(db.groups, r.db.groups, g)
    ensures g in db.groups ==>
      && (forall k :: k in r.db.members <==> k in db.members && k.0 != g)
      && (forall a :: a in r.db.appts <==> a in db.appts && db.appts[a].group != Some(g))
      && (forall k :: k in r.db.parts <==> k in db.parts && (k.0 in db.appts ==> db.appts[k.0].group != Some(g)))
      && (forall k :: k in r.db.members ==> r.db.members[k] == db.members[k])
      && (forall a :: a in r.db.appts ==> r.db.appts[a] == db.appts[a])
      && (forall k :: k in r.db.parts ==> r.db.parts[k] == db.parts[k])
  {
  }

  /** The creator of a group is a member from the start, of rank 5 in a hierarchy. */
  lemma GroupHasItsCreator(env: Env, db: Db, c: Command, id: Id, r: Result)
    requires c.CreateGroup? && r == Apply(env, db, c) && id == env.id(GroupKey(c.kind, c.creatorUsername, c.name))
    ensures id in db.groups ==> r == Result(db, None)
    ensures id !in db.groups ==>
      && r.error.None? && r.db == db.(groups := r.db.groups, members := r.db.members)
      && IsRow(r.db.groups, id, Group(c.name, c.description, c.creator, c.creatorUsername, c.kind))
      && SameBut(db.groups, r.db.groups, id)
      && IsRow(r.db.members, (id, c.creator), if c.kind == "non_hierarchical" then 0 else 5)
      && SameBut(db.members, r.db.members, (id, c.creator))
  {
  }

  lemma GroupIsEdited(env: Env, db: Db, c: Command, r: Result)
    requires c.UpdateGroup? && r == Apply(env, db, c)
    ensures c.group !in db.groups ==> r == Result(db, Some(NoRows))
    ensures c.group in db.groups ==>
      && r.error.None? && r.db == db.(groups := r.db.groups) && SameBut(db.groups, r.db.groups, c.group)
      && c.group in r.db.groups
      && var was, now := db.groups[c.group], r.db.groups[c.group];
         && now.name == (match c.newName case Some(n) => n case None => was.name)
         && now.description == (match c.newDescription case Some(n) => n case None => was.description)
         && now.creator == was.creator && now.creatorUsername == was.creatorUsername && now.kind == was.kind
  {
  }

  /** A member is added whether or not there was one; an update finds only who is there. */
  lemma MembershipIsSet(env: Env, db: Db, g: Id, u: Id, rank: int, c: Command, r: Result)
    requires c == AddMember(g, u, rank) || c == EnsureMember(g, u, rank) || c == UpdateMember(g, u, rank)
    requires r == Apply(env, db, c)
    ensures r.error.None? && r.db == db.(members := r.db.members) && SameBut(db.members, r.db.members, (g, u))
    ensures (g, u) in db.members || !c.UpdateMember? ==> IsRow(r.db.members, (g, u), rank)
    ensures (g, u) !in db.members && c.UpdateMember? ==> r.db == db
  {
    if (g, u) !in db.members && c.UpdateMember? { assert r.db.members == db.members; }
  }

  /** Who leaves a group leaves its appointments. */
  lemma MemberLeaves(env: Env, db: Db, g: Id, u: Id, r: Result)
    requires r == Apply(env, db, RemoveMember(g, u))
    ensures r.error.None? && r.db == db.(members := r.db.members, parts := r.db.parts)
    ensures (g, u) !in db.members ==> r.db == db
    ensures (g, u) !in r.db.members && SameBut(db.members, r.db.members, (g, u))
    ensures (g, u) in db.members ==>
      && (forall k :: k in r.db.parts <==>
            k in db.parts && !(k.1 == u && k.0 in db.appts && db.appts[k.0].group == Some(g)))
      && (forall k :: k in r.db.parts ==> r.db.parts[k] == db.parts[k])
  {
  }

  // ----- users --------------------------------------------------------------------------------------

  lemma PasswordIsStored(env: Env, db: Db, user: Id, hash: string, r: Result)
    requires r == Apply(env, db, UpdatePassword(user, hash))
    ensures r.error.None? && r.db == db.(users := r.db.users) && SameBut(db.users, r.db.users, user)
    ensures user !in db.users ==> r.db == db
    ensures user in db.users ==>
      var was := db.users[user];
      IsRow(r.db.users, user, User(was.username, was.email, hash, was.displayName))
  {
  }

  /** Only the given address is cleared. */
  lemma EmailIsCleared(env: Env, db: Db, user: Id, email: string, r: Result)
    requires r == Apply(env, db, ClearEmailIfMatches(user, email))
    ensures r.error.None? && r.db == db.(users := r.db.users) && SameBut(db.users, r.db.users, user)
    ensures user in db.users && db.users[user].email == Some(email) ==>
      var was := db.users[user];
      IsRow(r.db.users, user, User(was.username, None, was.passwordHash, was.displayName))
    ensures user !in db.users || db.users[user].email != Some(email) ==> r.db == db
  {
  }

  /** Neither the name nor the address is used, nor the key. */
  ghost predicate UserIsNew(db: Db, id: Id, username: string, email: string) {
    id !in db.users && forall u :: u in db.users ==> db.users[u].username != username && db.users[u].email != Some(email)
  }

  /** A row with this name and an address is what a lookup by name can find. */
  ghost predicate NameFound(db: Db, username: string) {
    exists u :: u in db.users && db.users[u].username == username && db.users[u].email != None
  }

  lemma UserIsStored(env: Env, db: Db, c: Command, id: Id, r: Result)
    requires c.CreateUser? && r == Apply(env, db, c)
    requires id == if Blank(c.userId) then env.id(UserKey(c.username)) else c.userId
    ensures r.error.None? <==> NameFound(db, c.username) || UserIsNew(db, id, c.username, c.email)
    ensures r.error.None? && !NameFound(db, c.username) ==>
      && IsRow(r.db.users, id, User(c.username, Some(c.email), c.passwordHash, c.displayName))
      && r.db == db.(users := r.db.users) && SameBut(db.users, r.db.users, id)
    ensures r.error.Some? || NameFound(db, c.username) ==> r.db == db
    ensures r.error == Some(ApplyConflict) <==>
      !NameFound(db, c.username) && c.email != "" && exists u :: u in db.users && db.users[u].email == Some(c.email)
  {
    assert NameFound(db, c.username) == FoundByUsername(db, c.username);
  }

  lemma UserIsInserted(env: Env, db: Db, id: Id, key: Id, row: User)
    requires row.email.Some? && key == if Blank(id) then env.id(UserKey(row.username)) else id
    ensures var r := InsertUser(env, db, id, row);
      if UserIsNew(db, key, row.username, row.email.value)
      then r.error.None? && IsRow(r.db.users, key, row) && r.db == db.(users := r.db.users) && SameBut(db.users, r.db.users, key)
      else r == Result(db, Some(UniqueViolation))
  {
  }

  lemma LookupsAgree(db: Db, c: Command, id: Id)
    requires c.EnsureUser?
    ensures NameFound(db, c.username) == FoundByUsername(db, c.username)
    ensures SameUserByName(db, c) ==> NameFound(db, c.username) && EmailTaken(db, c.email)
    ensures NameFound(db, c.username) || EmailTaken(db, c.email) ==> !UserIsNew(db, id, c.username, c.email)
  {
  }

  /** A repair creates only a user that has a password, under an id of its own. */
  lemma UserIsRepaired(env: Env, db: Db, c: Command, id: Id, r: Result)
    requires c.EnsureUser? && r == Apply(env, db, c) && id == env.id(UserKey(c.username))
    ensures var row := User(c.username, Some(c.email), c.passwordHash, c.displayName);
      var there := exists u :: u in db.users && db.users[u] == row;
      && (r.error.None? <==>
            !(Blank(c.username) && Blank(c.email))
            && (there || (c.passwordHash != "" && UserIsNew(db, id, c.username, c.email))))
      && (r.error.None? && !there ==>
            IsRow(r.db.users, id, row) && r.db == db.(users := r.db.users) && SameBut(db.users, r.db.users, id))
      && (r.error.Some? || there ==> r.db == db)
  {
    hide Apply, InsertUser, UserIsNew, NameFound, FoundByUsername, EmailTaken;
    Dispatch(env, db, c);
    LookupsAgree(db, c, id);
    assert Blank("");
    UserIsInserted(env, db, "", id, User(c.username, Some(c.email), c.passwordHash, c.displayName));
  }

  ghost predicate TakenByAnother(db: Db, user: Id, username: string, email: string) {
    exists u :: u in db.users && u != user && (db.users[u].username == username || db.users[u].email == Some(email))
  }

  lemma RowIsUpdated(db: Db, user: Id, username: string, email: string, displayName: string)
    requires user in db.users
    ensures var r := UpdateUserRow(db, user, username, email, displayName);
      if TakenByAnother(db, user, username, email) then r == Result(db, Some(UniqueViolation))
      else && r.error.None? && r.db == db.(users := r.db.users) && SameBut(db.users, r.db.users, user)
           && IsRow(r.db.users, user, User(username, Some(email), db.users[user].passwordHash, displayName))
  {
    assert NameOrEmailElsewhere(db, user, username, email) == TakenByAnother(db, user, username, email);
  }

  lemma ProfileIsUpdated(env: Env, db: Db, c: Command, r: Result)
    requires c.UpdateProfile? && r == Apply(env, db, c)
    ensures c.user !in db.users || db.users[c.user].email.None? ==> r == Result(db, Some(NoRows))
    ensures c.user in db.users && db.users[c.user].email.Some? ==>
      var was := db.users[c.user];
      var now := User(match c.newUsername case Some(n) => n case None => was.username,
                      match c.newEmail case Some(e) => Some(e) case None => was.email,
                      was.passwordHash,
                      match c.newDisplayName case Some(n) => n case None => was.displayName);
      && now.email.Some?
      && (r.error.None? <==> now == was || !TakenByAnother(db, c.user, now.username, now.email.value))
      && (r.error.None? ==>
            IsRow(r.db.users, c.user, now) && r.db == db.(users := r.db.users) && SameBut(db.users, r.db.users, c.user))
      && (r.error.Some? ==> r == Result(db, Some(ApplyConflict)))
  {
    hide Apply, UpdateUserRow, TakenByAnother;
    Dispatch(env, db, c);
    if c.user in db.users && db.users[c.user].email.Some? {
      var was := db.users[c.user];
      RowIsUpdated(db, c.user, Or(c.newUsername, was.username), Or(c.newEmail, was.email.value),
                   Or(c.newDisplayName, was.displayName));
    }
  }

  // ----- appointments and participants ----------------------------------------------------------------

  /** A deleted appointment stays as a row that nothing looks at. */
  lemma AppointmentIsMarkedDeleted(env: Env, db: Db, a: Id, r: Result)
    requires r == Apply(env, db, DeleteAppointment(a))
    ensures r.error.None? && r.db == db.(appts := r.db.appts) && SameBut(db.appts, r.db.appts, a)
    ensures a !in db.appts ==> r.db == db
    ensures a in db.appts ==>
      var was := db.appts[a];
      IsRow(r.db.appts, a, Appointment(was.title, was.description, was.owner, was.group, was.start, was.end, was.privacy,
                                       was.status, true, was.created))
  {
  }

  lemma AppointmentIsEdited(env: Env, db: Db, c: Command, r: Result)
    requires c.UpdateAppointment? && r == Apply(env, db, c)
    ensures c.appointment !in db.appts || db.appts[c.appointment].deleted ==> r == Result(db, Some(NoRows))
    ensures c.appointment in db.appts && !db.appts[c.appointment].deleted ==>
      var was := db.appts[c.appointment];
      && r.error.None? && r.db == db.(appts := r.db.appts) && SameBut(db.appts, r.db.appts, c.appointment)
      && IsRow(r.db.appts, c.appointment, Appointment(
           match c.newTitle case Some(t) => t case None => was.title,
           match c.newDescription case Some(t) => t case None => was.description,
           was.owner, was.group,
           match c.newStart case Some(t) => t case None => was.start,
           match c.newEnd case Some(t) => t case None => was.end,
           match c.newPrivacy case Some(p) => p case None => was.privacy,
           was.status, was.deleted, was.created))
  {
  }

  lemma StatusIsSet(db: Db, a: Id, user: Id, status: Status)
    ensures var d := SetStatus(db, a, user, status);
      && d == db.(parts := d.parts) && SameBut(db.parts, d.parts, (a, user))
      && ((a, user) in d.parts <==> (a, user) in db.parts)
      && ((a, user) in db.parts ==>
            IsRow(d.parts, (a, user), Participant(db.parts[(a, user)].id, status, db.parts[(a, user)].optional)))
  {
  }

  lemma NotificationIsInserted(env: Env, db: Db, user: Id, kind: string, text: string)
    ensures var r, n := InsertNotification(env, db, user, kind, text), env.id(NoteKey(user, kind, text));
      if n in db.notes then r == Result(db, Some(UniqueViolation))
      else && r.error.None? && IsRow(r.db.notes, n, Notification(user, kind, text))
           && r.db == db.(notes := r.db.notes) && SameBut(db.notes, r.db.notes, n)
  {
  }

  lemma ParticipantIsInserted(env: Env, db: Db, a: Id, user: Id, status: Status, optional: bool)
    requires (a, user) !in db.parts
    ensures var r, id := InsertParticipant(env, db, a, user, status, optional), env.id(PartKey(a, user));
      if exists k :: k in db.parts && db.parts[k].id == id then r.db == db
      else && IsRow(r.db.parts, (a, user), Participant(id, status, optional))
           && r.db == db.(parts := r.db.parts) && SameBut(db.parts, r.db.parts, (a, user))
  {
  }

  /** The owner attends, in a row of his own unless there is one or its id is used. */
  ghost predicate OwnerAttends(env: Env, was: map<(Id, Id), Participant>, now: map<(Id, Id), Participant>, id: Id, owner: Id) {
    if (id, owner) in was || exists k :: k in was && was[k].id == env.id(PartKey(id, owner)) then now == was
    else && IsRow(now, (id, owner), Participant(env.id(PartKey(id, owner)), ACCEPTED, false))
         && SameBut(was, now, (id, owner))
  }

  lemma OwnerIsEnrolled(env: Env, db: Db, id: Id, owner: Id)
    ensures var r := EnrolOwner(env, db, id, owner);
      r.error.None? && r.db == db.(parts := r.db.parts) && OwnerAttends(env, db.parts, r.db.parts, id, owner)
  {
    hide InsertParticipant;
    if (id, owner) !in db.parts { ParticipantIsInserted(env, db, id, owner, ACCEPTED, false); }
  }

  lemma PersonalAppointmentIsBooked(env: Env, db: Db, c: Command, id: Id, r: Result)
    requires c.CreatePersonal? && r == Apply(env, db, c)
    requires IsIdOf(env, db, id, c.owner, "", c.start, c.end, c.title)
    requires !Standing(db, c.owner, None, c.start, c.end, c.title)
    ensures id in db.appts ==> r == Result(db, Some(UniqueViolation))
    ensures id !in db.appts ==>
      && r.error.None?
      && r.db == db.(appts := r.db.appts, parts := r.db.parts, clock := db.clock + 1)
      && SameBut(db.appts, r.db.appts, id)
      && IsRow(r.db.appts, id, Appointment(c.title, c.description, c.owner, None, c.start, c.end, c.privacy,
                                           ACCEPTED, false, db.clock))
      && OwnerAttends(env, db.parts, r.db.parts, id, c.owner)
  {
    hide Apply, EnrolOwner, OwnerAttends;
    Dispatch(env, db, c);
    assert FindAppointment(db.appts, c.owner, None, c.start, c.end, c.title).None?;
    assert id == AppointmentId(env, db, c.owner, None, c.start, c.end, c.title);
    var booked := InsertAppointment(db, id, c.title, c.description, c.owner, None, c.start, c.end, c.privacy, ACCEPTED);
    OwnerIsEnrolled(env, booked, id, c.owner);
  }

  ghost predicate IsNewestStanding(db: Db, id: Id, c: Command)
    requires c.CreatePersonal?
  {
    && id in db.appts && StandsFor(db.appts[id], c)
    && forall a :: a in db.appts && StandsFor(db.appts[a], c) ==> db.appts[a].created <= db.appts[id].created
  }

  ghost predicate StandsFor(a: Appointment, c: Command)
    requires c.CreatePersonal?
  {
    !a.deleted && a.owner == c.owner && a.group == None && a.title == c.title && a.start == c.start && a.end == c.end
  }

  /** A second booking of the same appointment is the first, the newest if there are several. */
  lemma PersonalAppointmentIsFound(env: Env, db: Db, c: Command, r: Result)
    requires c.CreatePersonal? && r == Apply(env, db, c)
    requires Standing(db, c.owner, None, c.start, c.end, c.title)
    ensures r.error.None? && r.db == db.(parts := r.db.parts)
    ensures exists id :: IsNewestStanding(db, id, c) && OwnerAttends(env, db.parts, r.db.parts, id, c.owner)
  {
    hide Apply, EnrolOwner, OwnerAttends;
    Dispatch(env, db, c);
    Stands(db, c.owner, None, c.start, c.end, c.title);
    var id := FindAppointment(db.appts, c.owner, None, c.start, c.end, c.title).value;
    OwnerIsEnrolled(env, db, id, c.owner);
    assert IsNewestStanding(db, id, c) && OwnerAttends(env, db.parts, r.db.parts, id, c.owner);
  }

  /** The text that tells an appointment's owner of an answer. */
  ghost function AnswerText(env: Env, db: Db, appointment: Id, user: Id, answer: string): string
    requires appointment in db.appts
  {
    var a, known := db.appts[appointment], user in db.users && db.users[user].email.Some?;
    env.json(AnswerBody(appointment, a.title, user, if known then db.users[user].username else "",
                        if known then db.users[user].displayName else "", answer, a.start, a.end))
  }

  lemma AnswerIsText(env: Env, db: Db, a: Id, user: Id, status: Status)
    requires a in db.appts
    ensures Answer(env, db, a, user, status) == AnswerText(env, db, a, user, if status == "declined" then "declined" else "accepted")
  {
  }

  /** The participant's status is the one given, whatever becomes of the notification. */
  lemma AnswerIsRecorded(env: Env, db: Db, a: Id, user: Id, status: Status, c: Command, r: Result)
    requires c == AcceptInvitation(a, user, status) || c == RejectInvitation(a, user, status)
    requires r == Apply(env, db, c)
    ensures r.db == db.(parts := r.db.parts, notes := r.db.notes) && SameBut(db.parts, r.db.parts, (a, user))
    ensures (a, user) in r.db.parts <==> (a, user) in db.parts
    ensures (a, user) in db.parts ==>
      var was := db.parts[(a, user)];
      IsRow(r.db.parts, (a, user), Participant(was.id, status, was.optional))
  {
    hide Apply, SetStatus, Answer;
    Dispatch(env, db, c);
    StatusIsSet(db, a, user, status);
  }

  /** The owner of a live appointment is told of a new answer, once; an owner who has been told already
      makes the operation fail after the status is written. */
  lemma OwnerIsTold(env: Env, db: Db, a: Id, user: Id, status: Status, c: Command, r: Result)
    requires c == AcceptInvitation(a, user, status) || c == RejectInvitation(a, user, status)
    requires r == Apply(env, db, c)
    ensures ((a, user) in db.parts && db.parts[(a, user)].status == status) || a !in db.appts || db.appts[a].deleted ==>
      r.error.None? && r.db.notes == db.notes
    ensures !((a, user) in db.parts && db.parts[(a, user)].status == status) && a in db.appts && !db.appts[a].deleted ==>
      var owner := db.appts[a].owner;
      var kind := if status == "declined" then "invitation_declined" else "invitation_accepted";
      var text := AnswerText(env, db, a, user, if status == "declined" then "declined" else "accepted");
      var n := env.id(NoteKey(owner, kind, text));
      if n in db.notes then r.error == Some(UniqueViolation) && r.db.notes == db.notes
      else r.error.None? && IsRow(r.db.notes, n, Notification(owner, kind, text)) && SameBut(db.notes, r.db.notes, n)
  {
    hide Apply, InsertNotification, SetStatus, Answer, AnswerText, SameBut, IsRow;
    Dispatch(env, db, c);
    StatusIsSet(db, a, user, status);
    if a in db.appts {
      var kind := if status == "declined" then "invitation_declined" else "invitation_accepted";
      var text := AnswerText(env, db, a, user, if status == "declined" then "declined" else "accepted");
      AnswerIsText(env, db, a, user, status);
      NotificationIsInserted(env, SetStatus(db, a, user, status), db.appts[a].owner, kind, text);
    }
  }

  /** A participant that is there gets the status; one that is not is added unless its id is used. */
  lemma ParticipantIsRepaired(env: Env, db: Db, c: Command, r: Result)
    requires c.EnsureParticipant? && r == Apply(env, db, c)
    ensures r.error.None? && r.db == db.(parts := r.db.parts) && SameBut(db.parts, r.db.parts, (c.appointment, c.user))
    ensures var k, id := (c.appointment, c.user), env.id(PartKey(c.appointment, c.user));
      if k in db.parts then IsRow(r.db.parts, k, Participant(db.parts[k].id, c.status, db.parts[k].optional))
      else if exists l :: l in db.parts && db.parts[l].id == id then r.db == db
      else IsRow(r.db.parts, k, Participant(id, c.status, c.optional))
  {
    hide Apply, InsertParticipant, SetStatus;
    Dispatch(env, db, c);
    StatusIsSet(db, c.appointment, c.user, c.status);
    if (c.appointment, c.user) !in db.parts {
      ParticipantIsInserted(env, db, c.appointment, c.user, c.status, c.optional);
    }
  }

  lemma NotificationIsRepaired(env: Env, db: Db, c: Command, r: Result)
    requires c.EnsureNotification? && r == Apply(env, db, c)
    ensures var row, n := Notification(c.user, c.kind, c.payload), env.id(NoteKey(c.user, c.kind, c.payload));
      if exists m :: m in db.notes && db.notes[m] == row then r == Result(db, None)
      else if n in db.notes then r == Result(db, Some(UniqueViolation))
      else r.error.None? && IsRow(r.db.notes, n, row) && r.db == db.(notes := r.db.notes) && SameBut(db.notes, r.db.notes, n)
  {
    hide Apply;
    Dispatch(env, db, c);
  }

  /** A payload that does not decode and an operation nobody knows change nothing, and say so. */
  lemma UnreadableFails(env: Env, db: Db, c: Command)
    requires c.Malformed? || c.Unsupported?
    ensures Apply(env, db, c) == Result(db, Some(if c.Malformed? then BadPayload else UnsupportedOp))
  {
  }
}
