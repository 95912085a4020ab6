/** The appointment service: check, then propose.  Serial runs of personal creation, update and
    deletion never book a user twice. */
module Services {
  import opened Commands
  import opened Tables
  import opened Applier
  import opened Idempotence
  import opened Integrity
  import opened Store
  import opened ApplierRun

  const SECOND := 1_000_000_000

  /** Requests carry times in nanoseconds; queries and rows keep whole seconds. */
  function Unix(nanos: int): int { nanos / SECOND }

  datatype Draft = Draft(title: string, description: string, start: int, end: int, privacy: string)

  datatype Request =
    | Create(owner: Id, draft: Draft)
    | Update(owner: Id, appointment: Id, draft: Draft)
    | Delete(owner: Id, appointment: Id)

  /** A proposal is applied and reported so, applied although an error is reported, or not applied. */
  datatype Outcome = Reported | Unreported | Dropped

  datatype ServiceError = InvalidInput | Conflict | NotFound | Unauthorized | ProposalFailed

  predicate ConflictExists(db: Db, user: Id, start: int, end: int) {
    exists a :: a in db.appts && Busy(db, user, a) && Overlaps(db.appts[a].start, db.appts[a].end, start, end)
  }

  predicate ConflictBeside(db: Db, user: Id, start: int, end: int, except: Id) {
    exists a :: a in db.appts && a != except && Busy(db, user, a) && Overlaps(db.appts[a].start, db.appts[a].end, start, end)
  }

  // ----- what each request may do ----------------------------------------------------------------

  /** The first check that fails, if one does. */
  function Refusal(db: Db, r: Request): Option<ServiceError> {
    match r
    case Create(owner, d) =>
      if d.start > d.end then Some(InvalidInput)
      else if ConflictExists(db, owner, Unix(d.start), Unix(d.end)) then Some(Conflict)
      else None
    case Update(owner, a, d) =>
      if !Live(db, a) then Some(NotFound)
      else if db.appts[a].owner != owner then Some(Unauthorized)
      else if d.start > d.end then Some(InvalidInput)
      else if ConflictBeside(db, owner, Unix(d.start), Unix(d.end), a) then Some(Conflict)
      else None
    case Delete(owner, a) =>
      if !Live(db, a) then Some(NotFound)
      else if db.appts[a].owner != owner then Some(Unauthorized)
      else None
  }

  function EntryFor(r: Request): Command {
    match r
    case Create(owner, d) => CreatePersonal(d.title, d.description, owner, Unix(d.start), Unix(d.end), d.privacy)
    case Update(_, a, d) =>
      UpdateAppointment(a, Some(d.title), Some(d.description), Some(Unix(d.start)), Some(Unix(d.end)), Some(d.privacy))
    case Delete(_, a) => DeleteAppointment(a)
  }

  ghost function Serve(env: Env, db: Db, r: Request, outcome: Outcome): (Db, Option<ServiceError>) {
    if Refusal(db, r).Some? then (db, Refusal(db, r))
    else if outcome.Dropped? then (db, Some(ProposalFailed))
    else (Apply(env, db, EntryFor(r)).db, if outcome.Reported? then None else Some(ProposalFailed))
  }

  // ----- who may do what --------------------------------------------------------------------------

  /** An undeleted appointment, not the excepted one, that the user attends at a time in between. */
  ghost predicate Booked(db: Db, user: Id, start: int, end: int, except: Option<Id>) {
    exists a :: a in db.appts && Some(a) != except && !db.appts[a].deleted && (a, user) in db.parts
      && (db.parts[(a, user)].status == "accepted" || db.parts[(a, user)].status == "auto")
      && db.appts[a].start < end && start < db.appts[a].end
  }

  /** The request names an appointment that is there, and comes from its owner. */
  ghost predicate ByOwner(db: Db, r: Request)
    requires !r.Create?
  {
    r.appointment in db.appts && !db.appts[r.appointment].deleted && db.appts[r.appointment].owner == r.owner
  }

  /** Only its owner changes or deletes an appointment.  Anybody else is told that he may not, or
      that there is none, and nothing is proposed. */
  lemma OnlyOwnersEdit(env: Env, db: Db, r: Request, outcome: Outcome)
    requires r.Update? || r.Delete?
    ensures r.appointment !in db.appts || db.appts[r.appointment].deleted ==>
      Serve(env, db, r, outcome) == (db, Some(NotFound))
    ensures r.appointment in db.appts && !db.appts[r.appointment].deleted && db.appts[r.appointment].owner != r.owner ==>
      Serve(env, db, r, outcome) == (db, Some(Unauthorized))
  {
  }

  /** What an authorised user books must not end before it starts, nor clash with what he attends. */
  lemma BadTimesAreRefused(env: Env, db: Db, r: Request, outcome: Outcome)
    requires r.Create? || (r.Update? && ByOwner(db, r))
    ensures r.draft.start > r.draft.end ==> Serve(env, db, r, outcome) == (db, Some(InvalidInput))
    ensures r.draft.start <= r.draft.end
      && Booked(db, r.owner, r.draft.start / 1_000_000_000, r.draft.end / 1_000_000_000,
                if r.Create? then None else Some(r.appointment))
      ==> Serve(env, db, r, outcome) == (db, Some(Conflict))
  {
    BookedMeans(db, r);
    hide Apply, ConflictExists, ConflictBeside, Booked;
  }

  lemma BookedMeans(db: Db, r: Request)
    requires !r.Delete?
    ensures Booked(db, r.owner, Unix(r.draft.start), Unix(r.draft.end), if r.Create? then None else Some(r.appointment)) ==
      if r.Create? then ConflictExists(db, r.owner, Unix(r.draft.start), Unix(r.draft.end))
      else ConflictBeside(db, r.owner, Unix(r.draft.start), Unix(r.draft.end), r.appointment)
  {
  }

  /** Whatever is not refused is proposed as it was asked for, in whole seconds, and applied to the
      tables unless the proposal is dropped. */
  lemma OthersAreProposed(env: Env, db: Db, r: Request, outcome: Outcome)
    requires !r.Create? ==> ByOwner(db, r)
    requires !r.Delete? ==>
      && r.draft.start <= r.draft.end
      && !Booked(db, r.owner, r.draft.start / 1_000_000_000, r.draft.end / 1_000_000_000,
                 if r.Create? then None else Some(r.appointment))
    ensures outcome.Dropped? ==> Serve(env, db, r, outcome) == (db, Some(ProposalFailed))
    ensures !outcome.Dropped? ==>
      && Serve(env, db, r, outcome).1 == (if outcome.Reported? then None else Some(ProposalFailed))
      && match r
         case Create(owner, d) =>
           Serve(env, db, r, outcome).0 == Apply(env, db, CreatePersonal(d.title, d.description, owner,
             d.start / 1_000_000_000, d.end / 1_000_000_000, d.privacy)).db
         case Update(_, a, d) =>
           Serve(env, db, r, outcome).0 == Apply(env, db, UpdateAppointment(a, Some(d.title), Some(d.description),
             Some(d.start / 1_000_000_000), Some(d.end / 1_000_000_000), Some(d.privacy))).db
         case Delete(_, a) => Serve(env, db, r, outcome).0 == Apply(env, db, DeleteAppointment(a)).db
  {
    hide Apply, ConflictExists, ConflictBeside, Booked;
    if !r.Delete? { BookedMeans(db, r); }
  }

  class AppointmentService {
    const store: Storage

    constructor (store: Storage)
      ensures this.store == store
    {
      this.store := store;
    }

    method CreatePersonalAppointment(owner: Id, draft: Draft, outcome: Outcome) returns (error: Option<ServiceError>)
      requires store.Valid()
      modifies store
      ensures store.Valid() && (store.Db(), error) == Serve(store.env, old(store.Db()), Create(owner, draft), outcome)
    {
      hide Busy;
      if draft.start > draft.end { return Some(InvalidInput); }
      var conflict := store.HasConflict(owner, Unix(draft.start), Unix(draft.end));
      if conflict { return Some(Conflict); }
      error := Propose(EntryFor(Create(owner, draft)), outcome);
    }

    method UpdateAppointment(owner: Id, appointment: Id, draft: Draft, outcome: Outcome) returns (error: Option<ServiceError>)
      requires store.Valid()
      modifies store
      ensures store.Valid() && (store.Db(), error) == Serve(store.env, old(store.Db()), Update(owner, appointment, draft), outcome)
    {
      hide Busy;
      var existing := store.GetAppointmentByID(appointment);
      if existing.None? { return Some(NotFound); }
      if existing.value.owner != owner { return Some(Unauthorized); }
      if draft.start > draft.end { return Some(InvalidInput); }
      var conflict := store.HasConflictExcluding(owner, Unix(draft.start), Unix(draft.end), appointment);
      if conflict { return Some(Conflict); }
      error := Propose(EntryFor(Update(owner, appointment, draft)), outcome);
    }

    method DeleteAppointment(owner: Id, appointment: Id, outcome: Outcome) returns (error: Option<ServiceError>)
      requires store.Valid()
      modifies store
      ensures store.Valid() && (store.Db(), error) == Serve(store.env, old(store.Db()), Delete(owner, appointment), outcome)
    {
      hide Busy;
      var existing := store.GetAppointmentByID(appointment);
      if existing.None? { return Some(NotFound); }
      if existing.value.owner != owner { return Some(Unauthorized); }
      error := Propose(Commands.DeleteAppointment(appointment), outcome);
    }

    /** The proposal as the service sees it: the command applied to this node's tables, or not. */
    method Propose(c: Command, outcome: Outcome) returns (error: Option<ServiceError>)
      requires store.Valid()
      modifies store
      ensures store.Valid()
      ensures store.Db() == if outcome.Dropped? then old(store.Db()) else Apply(store.env, old(store.Db()), c).db
      ensures error == if outcome.Reported? then None else Some(ProposalFailed)
    {
      hide Apply;
      if !outcome.Dropped? {
        var applied := ApplyEntry(store, c);
      }
      return if outcome.Reported? then None else Some(ProposalFailed);
    }
  }

  // ----- no double booking --------------------------------------------------------------------------

  predicate During(t: int, start: int, end: int) {
    start <= t < end
  }

  /** What the interval test means: a shared second, or a zero-length interval strictly inside
      the other.  Two zero-length intervals never overlap. */
  lemma OverlapMeans(start1: int, end1: int, start2: int, end2: int)
    requires start1 <= end1 && start2 <= end2
    ensures Overlaps(start1, end1, start2, end2) <==>
      || (exists t :: During(t, start1, end1) && During(t, start2, end2))
      || (start1 == end1 && start2 < start1 < end2)
      || (start2 == end2 && start1 < start2 < end1)
  {
    if Overlaps(start1, end1, start2, end2) && start1 < end1 && start2 < end2 {
      var t := if start1 < start2 then start2 else start1;
      assert During(t, start1, end1) && During(t, start2, end2);
    }
  }

  predicate Clash(db: Db, a: Id, b: Id)
    requires a in db.appts && b in db.appts
  {
    Overlaps(db.appts[a].start, db.appts[a].end, db.appts[b].start, db.appts[b].end)
  }

  /** No user is busy in two appointments that overlap. */
  ghost predicate NotDoubleBooked(db: Db) {
    forall u, a, b :: Busy(db, u, a) && Busy(db, u, b) && a != b ==> !Clash(db, a, b)
  }

  /** The one new booking a step may make does not overlap any other of the same user. */
  lemma OneNewBooking(db: Db, after: Db, user: Id, appointment: Id)
    requires NotDoubleBooked(db)
    requires forall u, a :: Busy(after, u, a) && (u, a) != (user, appointment) ==>
      Busy(db, u, a) && after.appts[a].start == db.appts[a].start && after.appts[a].end == db.appts[a].end
    requires appointment in after.appts &&
      !ConflictBeside(db, user, after.appts[appointment].start, after.appts[appointment].end, appointment)
    ensures NotDoubleBooked(after)
  {
    forall u, a, b | Busy(after, u, a) && Busy(after, u, b) && a != b ensures !Clash(after, a, b) {
      if (u, a) == (user, appointment) {
        assert Busy(db, u, b) && b in db.appts;
      } else if (u, b) == (user, appointment) {
        assert Busy(db, u, a) && a in db.appts;
      } else {
        assert Busy(db, u, a) && Busy(db, u, b) && !Clash(db, a, b);
      }
    }
  }

  lemma FewerBookings(db: Db, after: Db)
    requires NotDoubleBooked(db)
    requires forall u, a :: Busy(after, u, a) ==>
      Busy(db, u, a) && after.appts[a].start == db.appts[a].start && after.appts[a].end == db.appts[a].end
    ensures NotDoubleBooked(after)
  {
    forall u, a, b | Busy(after, u, a) && Busy(after, u, b) && a != b ensures !Clash(after, a, b) {
      assert Busy(db, u, a) && Busy(db, u, b) && !Clash(db, a, b);
    }
  }

  // ----- creation, whenever it is applied ---------------------------------------------------------

  /** The appointment a personal creation enrols its owner in: the one it finds, or a new one. */
  ghost function Target(env: Env, db: Db, c: Command): Id
    requires c.CreatePersonal?
  {
    var found := FindAppointment(db.appts, c.owner, None, c.start, c.end, c.title);
    if found.Some? then found.value else AppointmentId(env, db, c.owner, None, c.start, c.end, c.title)
  }

  /** The new row's id is taken, the owner already has a place, or the place's id is taken. */
  ghost predicate BooksNobody(env: Env, db: Db, c: Command)
    requires c.CreatePersonal?
  {
    var target := Target(env, db, c);
    || (FindAppointment(db.appts, c.owner, None, c.start, c.end, c.title).None? && target in db.appts)
    || (target, c.owner) in db.parts || ParticipantIdUsed(db, env.id(PartKey(target, c.owner)))
  }

  ghost predicate RowsStay(db: Db, after: Db) {
    forall a :: a in db.appts ==> a in after.appts && after.appts[a] == db.appts[a]
  }

  /** What a personal creation does to bookings: nothing, or one place with the asked interval. */
  lemma CreateBooks(env: Env, db: Db, c: Command)
    requires c.CreatePersonal?
    ensures var after, target := ApplyCreatePersonal(env, db, c).db, Target(env, db, c);
      && RowsStay(db, after)
      && if BooksNobody(env, db, c) then after.parts == db.parts
         else
           && Live(after, target) && after.appts[target].start == c.start && after.appts[target].end == c.end
           && after.parts == db.parts[(target, c.owner) := Participant(env.id(PartKey(target, c.owner)), ACCEPTED, false)]
  {
    hide FindAppointment, AppointmentId, IsNewest, ParticipantIdUsed, EnrolOwner;
    var found := FindAppointment(db.appts, c.owner, None, c.start, c.end, c.title);
    var target := Target(env, db, c);
    if found.Some? {
      FoundMatches(db, c);
      EnrolOwnerWrites(env, db, target, c.owner);
    } else if target !in db.appts {
      var inserted := InsertAppointment(db, target, c.title, c.description, c.owner, None, c.start, c.end, c.privacy, ACCEPTED);
      EnrolOwnerWrites(env, inserted, target, c.owner);
      SamePlaces(db, inserted, env.id(PartKey(target, c.owner)));
    }
  }

  lemma EnrolOwnerWrites(env: Env, db: Db, target: Id, owner: Id)
    ensures var after := EnrolOwner(env, db, target, owner).db;
      && after == db.(parts := after.parts)
      && after.parts == if (target, owner) in db.parts || ParticipantIdUsed(db, env.id(PartKey(target, owner))) then db.parts
                        else db.parts[(target, owner) := Participant(env.id(PartKey(target, owner)), ACCEPTED, false)]
  {
  }

  lemma SamePlaces(a: Db, b: Db, id: Id)
    requires a.parts == b.parts
    ensures ParticipantIdUsed(a, id) <==> ParticipantIdUsed(b, id)
  {
  }

  lemma FoundMatches(db: Db, c: Command)
    requires c.CreatePersonal? && FindAppointment(db.appts, c.owner, None, c.start, c.end, c.title).Some?
    ensures var id := FindAppointment(db.appts, c.owner, None, c.start, c.end, c.title).value;
      Live(db, id) && db.appts[id].start == c.start && db.appts[id].end == c.end
  {
    var id := FindAppointment(db.appts, c.owner, None, c.start, c.end, c.title).value;
    assert IsNewest(db.appts, id, c.owner, None, c.start, c.end, c.title);
  }

  /** Whatever was checked when it was proposed, a personal creation double-books nobody exactly
      when it books nobody, or its owner has no other booking that overlaps where it is applied. */
  lemma CreateKeepsIff(env: Env, db: Db, c: Command)
    requires Integral(db) && NotDoubleBooked(db) && c.CreatePersonal?
    ensures NotDoubleBooked(Apply(env, db, c).db) <==>
      BooksNobody(env, db, c) || !ConflictBeside(db, c.owner, c.start, c.end, Target(env, db, c))
  {
    var after, target := ApplyCreatePersonal(env, db, c).db, Target(env, db, c);
    assert after == Apply(env, db, c).db;
    hide Apply, ApplyCreatePersonal, NotDoubleBooked, Integral, Target, BooksNobody, ConflictBeside;
    CreateBooks(env, db, c);
    PartsHaveAppointments(db);
    if BooksNobody(env, db, c) {
      FewerBookings(db, after);
    } else if !ConflictBeside(db, c.owner, c.start, c.end, target) {
      OneNewBooking(db, after, c.owner, target);
    } else {
      BookedTwice(db, after, c.owner, target, c.start, c.end);
    }
  }

  /** A place in an appointment with this interval, beside a booking that overlaps it. */
  lemma BookedTwice(db: Db, after: Db, user: Id, target: Id, start: int, end: int)
    requires ConflictBeside(db, user, start, end, target)
    requires Busy(after, user, target) && after.appts[target].start == start && after.appts[target].end == end
    requires forall a :: a != target && Busy(db, user, a) ==> Busy(after, user, a) && after.appts[a].start == db.appts[a].start
                                                              && after.appts[a].end == db.appts[a].end
    ensures !NotDoubleBooked(after)
  {
    var a :| a in db.appts && a != target && Busy(db, user, a) && Overlaps(db.appts[a].start, db.appts[a].end, start, end);
    assert Busy(after, user, a) && Clash(after, a, target);
  }

  lemma CreateKeeps(env: Env, db: Db, r: Request)
    requires Integral(db) && NotDoubleBooked(db) && r.Create? && Refusal(db, r).None?
    ensures NotDoubleBooked(Apply(env, db, EntryFor(r)).db)
  {
    CreateKeepsIff(env, db, EntryFor(r));
    hide Apply, NotDoubleBooked, Integral, Target, BooksNobody, Busy;
  }

  lemma PartsHaveAppointments(db: Db)
    requires Integral(db)
    ensures forall k :: k in db.parts ==> k.0 in db.appts
  {
    forall k | k in db.parts ensures k.0 in db.appts {
      assert MayAttend(db, k.0, k.1);
    }
  }

  // ----- updates, whenever they are applied ---------------------------------------------------------

  /** An update of a live appointment moves the bookings of everybody who attends it.  It
      double-books nobody exactly when none of them has another booking that overlaps. */
  lemma EditKeepsIff(env: Env, db: Db, c: Command)
    requires NotDoubleBooked(db) && c.UpdateAppointment? && Live(db, c.appointment)
    ensures var edited := Edited(db.appts[c.appointment], c);
      NotDoubleBooked(Apply(env, db, c).db) <==>
        forall u :: Busy(db, u, c.appointment) ==> !ConflictBeside(db, u, edited.start, edited.end, c.appointment)
  {
    var after := Apply(env, db, c).db;
    var edited := Edited(db.appts[c.appointment], c);
    assert after.parts == db.parts && after.appts == db.appts[c.appointment := edited];
    hide Apply;
    SameBusy(db, after, c.appointment);
    if u :| Busy(db, u, c.appointment) && ConflictBeside(db, u, edited.start, edited.end, c.appointment) {
      hide Busy, NotDoubleBooked, ConflictBeside;
      BookedTwice(db, after, u, c.appointment, edited.start, edited.end);
    } else {
      forall u, a, b | Busy(after, u, a) && Busy(after, u, b) && a != b ensures !Clash(after, a, b) {
        assert Busy(db, u, a) && Busy(db, u, b) && !Clash(db, a, b);
      }
    }
  }

  lemma SameBusy(db: Db, after: Db, appointment: Id)
    requires Live(db, appointment) && Live(after, appointment) && after.parts == db.parts
    requires after.appts == db.appts[appointment := after.appts[appointment]]
    ensures forall u, a :: Busy(after, u, a) <==> Busy(db, u, a)
  {
  }

  /** The service checks the owner only: where its check holds, what remains is everybody else. */
  lemma UpdateKeepsIff(env: Env, db: Db, r: Request)
    requires NotDoubleBooked(db) && r.Update? && Refusal(db, r).None?
    ensures NotDoubleBooked(Apply(env, db, EntryFor(r)).db) <==>
      forall u :: Busy(db, u, r.appointment) && u != r.owner ==>
        !ConflictBeside(db, u, Unix(r.draft.start), Unix(r.draft.end), r.appointment)
  {
    EditKeepsIff(env, db, EntryFor(r));
    hide Apply, NotDoubleBooked, Busy;
  }

  /** Nobody but its owner attends a personal appointment. */
  lemma PersonalUpdateKeeps(env: Env, db: Db, r: Request)
    requires Integral(db) && NotDoubleBooked(db) && r.Update? && Refusal(db, r).None?
    requires db.appts[r.appointment].group.None?
    ensures NotDoubleBooked(Apply(env, db, EntryFor(r)).db)
  {
    forall u | Busy(db, u, r.appointment) ensures u == r.owner {
      assert MayAttend(db, r.appointment, u);
    }
    UpdateKeepsIff(env, db, r);
  }

  /** An update of an appointment that is gone by then changes nothing. */
  lemma LateUpdateOfNothing(env: Env, db: Db, c: Command)
    requires c.UpdateAppointment? && !Live(db, c.appointment)
    ensures Apply(env, db, c).db == db
  {
  }

  lemma DeleteKeeps(env: Env, db: Db, r: Request)
    requires NotDoubleBooked(db) && r.Delete?
    ensures NotDoubleBooked(Apply(env, db, EntryFor(r)).db)
  {
    var after := Apply(env, db, EntryFor(r)).db;
    assert after.parts == db.parts && after.appts.Keys == db.appts.Keys;
    hide NotDoubleBooked;
    FewerBookings(db, after);
  }

  // ----- serial runs --------------------------------------------------------------------------------

  datatype Call = Call(request: Request, outcome: Outcome)

  /** Every update in the run is of a personal appointment. */
  ghost predicate PersonalUpdates(env: Env, db: Db, calls: seq<Call>)
    decreases |calls|
  {
    calls == [] ||
    (var r := calls[0].request;
     (r.Update? && r.appointment in db.appts ==> db.appts[r.appointment].group.None?)
     && PersonalUpdates(env, Serve(env, db, r, calls[0].outcome).0, calls[1..]))
  }

  ghost function ServeAll(env: Env, db: Db, calls: seq<Call>): Db
    decreases |calls|
  {
    if calls == [] then db else ServeAll(env, Serve(env, db, calls[0].request, calls[0].outcome).0, calls[1..])
  }

  lemma CallKeeps(env: Env, db: Db, call: Call)
    requires Integral(db) && NotDoubleBooked(db) && PersonalUpdates(env, db, [call])
    ensures var after := Serve(env, db, call.request, call.outcome).0; Integral(after) && NotDoubleBooked(after)
  {
    var r := call.request;
    if Refusal(db, r).None? && !call.outcome.Dropped? {
      ApplyKeepsIntegrity(env, db, EntryFor(r));
      match r
      case Create(_, _) => CreateKeeps(env, db, r);
      case Update(_, _, _) => PersonalUpdateKeeps(env, db, r);
      case Delete(_, _) => DeleteKeeps(env, db, r);
    }
  }

  /** In any serial run of creations, updates of own personal appointments and deletions,
      whatever each proposal reports, no user's bookings ever overlap. */
  lemma {:induction false} NoDoubleBookingOverRuns(env: Env, db: Db, calls: seq<Call>)
    requires Integral(db) && NotDoubleBooked(db) && PersonalUpdates(env, db, calls)
    ensures NotDoubleBooked(ServeAll(env, db, calls)) && Integral(ServeAll(env, db, calls))
    decreases |calls|
  {
    if calls != [] {
      CallKeeps(env, db, calls[0]);
      NoDoubleBookingOverRuns(env, Serve(env, db, calls[0].request, calls[0].outcome).0, calls[1..]);
    }
  }

  // ----- instances ----------------------------------------------------------------------------------

  /** A proposal that is applied only after another request was checked books its owner twice,
      although each request alone passed its check. */
  lemma LateProposalDoubleBooks(env: Env) returns (db: Db, first: Request, second: Request)
    requires env.id(ApptKey("owner", "", 0, 10, "a")) != env.id(ApptKey("owner", "", 5, 15, "b"))
    requires env.id(PartKey(env.id(ApptKey("owner", "", 0, 10, "a")), "owner"))
          != env.id(PartKey(env.id(ApptKey("owner", "", 5, 15, "b")), "owner"))
    ensures Integral(db) && NotDoubleBooked(db) && Refusal(db, first).None? && Refusal(db, second).None?
    ensures !NotDoubleBooked(Apply(env, Apply(env, db, EntryFor(first)).db, EntryFor(second)).db)
  {
    db := EMPTY;
    first := Create("owner", Draft("a", "", 0, 10 * SECOND, ""));
    second := Create("owner", Draft("b", "", 5 * SECOND, 15 * SECOND, ""));
    var c1, c2 := CreatePersonal("a", "", "owner", 0, 10, ""), CreatePersonal("b", "", "owner", 5, 15, "");
    assert EntryFor(first) == c1 && EntryFor(second) == c2;
    var a, b := env.id(ApptKey("owner", "", 0, 10, "a")), env.id(ApptKey("owner", "", 5, 15, "b"));
    var one := Apply(env, db, c1).db;
    FreshPersonal(env, db, c1, a);
    FreshPersonal(env, one, c2, b);
    var two := Apply(env, one, c2).db;
    assert Busy(two, "owner", a) && Busy(two, "owner", b) && Clash(two, a, b);
  }

  lemma FreshPersonal(env: Env, db: Db, c: Command, id: Id)
    requires c.CreatePersonal? && db.users == map[] && id == env.id(ApptKey(c.owner, "", c.start, c.end, c.title))
    requires forall a :: a in db.appts ==> db.appts[a].title != c.title
    requires id !in db.appts && (id, c.owner) !in db.parts && !ParticipantIdUsed(db, env.id(PartKey(id, c.owner)))
    ensures var after := Apply(env, db, c).db;
      && after.users == map[]
      && after.appts == db.appts[id := Appointment(c.title, c.description, c.owner, None, c.start, c.end, c.privacy,
                                                   ACCEPTED, false, db.clock)]
      && after.parts == db.parts[(id, c.owner) := Participant(env.id(PartKey(id, c.owner)), ACCEPTED, false)]
  {
    assert FindAppointment(db.appts, c.owner, None, c.start, c.end, c.title).None?;
  }

  /** A group's owner moves the group's appointment onto a member's own. */
  lemma GroupUpdateDoubleBooks(env: Env) returns (db: Db, r: Request)
    ensures Integral(db) && NotDoubleBooked(db) && r.Update? && Refusal(db, r).None?
    ensures !NotDoubleBooked(Apply(env, db, EntryFor(r)).db)
  {
    var shared := Appointment("", "", "owner", Some("team"), 0, 10, "", PENDING, false, 0);
    var own := Appointment("", "", "guest", None, 20, 30, "", ACCEPTED, false, 1);
    var owner, guest, alone := Participant("1", AUTO, false), Participant("2", ACCEPTED, false), Participant("3", ACCEPTED, false);
    db := EMPTY.(appts := map["shared" := shared, "own" := own],
                 members := map[("team", "owner") := 5, ("team", "guest") := 0],
                 parts := map[("shared", "owner") := owner, ("shared", "guest") := guest, ("own", "guest") := alone],
                 clock := 2);
    r := Update("owner", "shared", Draft("", "", 15 * SECOND, 25 * SECOND, ""));
    forall k | k in db.parts ensures MayAttend(db, k.0, k.1) {
    }
    forall a | a in db.appts && Busy(db, "owner", a) ensures a == "shared" {
    }
    UpdateKeepsIff(env, db, r);
    assert Unix(r.draft.start) == 15 && Unix(r.draft.end) == 25;
    assert Busy(db, "guest", "shared") && Busy(db, "guest", "own");
    assert ConflictBeside(db, "guest", 15, 25, "shared");
  }
}
