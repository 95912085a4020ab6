/** Applying committed entries: cursors, the table of applied event ids, pending errors, and
    the database faults that may stop a pass at any row. */
module ApplyLoop {
  import opened Commands
  import opened Tables
  import opened Applier
  import opened Idempotence
  import opened LogTable
  import R = Raft

  /** What may go wrong at one row besides the operation itself: the lookup of the event id, or
      the record of its completion. */
  datatype Fault = NoFault | LookupFails | RecordFails

  /** `error` is the index of the entry whose error is pending; `trace` is history, the entries
      recorded as applied, oldest first. */
  datatype Machine = Machine(db: Db, applied: map<string, int>, lastApplied: int, error: Option<int>, trace: seq<Entry>)

  function Advance(m: Machine, index: int): Machine {
    m.(lastApplied := index,
       error := if m.error.Some? && m.error.value <= index then None else m.error)
  }

  function Record(m: Machine, e: Entry): Machine {
    m.(applied := m.applied[e.eventId := if e.index < 0 then 0 else e.index], trace := m.trace + [e])
  }

  /** One row, and whether the pass goes on. */
  ghost function ApplyRow(env: Env, m: Machine, e: Entry, fault: Fault): (Machine, bool) {
    if fault.LookupFails? || Blank(e.eventId) then (m, false)
    else if e.eventId in m.applied then (Advance(m, e.index), true)
    else
      var r := Apply(env, m.db, e.command);
      var tried := m.(db := r.db);
      if !Completes(e.command, r) then (tried.(error := Some(e.index)), false)
      else if fault.RecordFails? then (tried, false)
      else (Advance(Record(tried, e), e.index), true)
  }

  function FaultAt(faults: seq<Fault>, i: nat): Fault {
    if i < |faults| then faults[i] else NoFault
  }

  ghost function ApplyRows(env: Env, m: Machine, rows: seq<Entry>, faults: seq<Fault>): Machine
    decreases |rows|
  {
    if rows == [] then m
    else
      var (next, go) := ApplyRow(env, m, rows[0], FaultAt(faults, 0));
      if go then ApplyRows(env, next, rows[1..], if faults == [] then [] else faults[1..]) else next
  }

  /** The committed entries not yet applied. */
  function Due(log: seq<Entry>, lastApplied: int, commit: int): seq<Entry> {
    if 0 <= lastApplied < commit && lastApplied <= |log|
    then log[lastApplied..if commit <= |log| then commit else |log|]
    else []
  }

  ghost function ApplyCommitted(env: Env, m: Machine, log: seq<Entry>, commit: int, faults: seq<Fault>): Machine {
    ApplyRows(env, m, Due(log, m.lastApplied, commit), faults)
  }

  ghost predicate Numbered(log: seq<Entry>) {
    forall i :: 0 <= i < |log| ==> log[i].index == i + 1
  }

  // ----- exactly once, in order --------------------------------------------------------------

  /** The recorded event ids are distinct and are exactly the keys of the applied table. */
  ghost predicate OnceEach(m: Machine) {
    && (forall i, j :: 0 <= i < j < |m.trace| ==> m.trace[i].eventId != m.trace[j].eventId)
    && (forall i :: 0 <= i < |m.trace| ==> m.trace[i].eventId in m.applied)
    && (forall id :: id in m.applied ==> exists i :: 0 <= i < |m.trace| && m.trace[i].eventId == id)
  }

  /** While the error at index j is pending, the apply cursor is below j and nothing recorded
      from position `since` of the trace on is at or beyond j. */
  ghost predicate ErrorHolds(m: Machine, since: nat) {
    m.error.Some? ==>
      && m.lastApplied < m.error.value && since <= |m.trace|
      && forall i :: since <= i < |m.trace| ==> m.trace[i].index < m.error.value
  }

  lemma RecordKeepsOnce(m: Machine, e: Entry)
    requires OnceEach(m) && e.eventId !in m.applied
    ensures OnceEach(Record(m, e))
  {
    var after := Record(m, e);
    forall id | id in after.applied ensures exists i :: 0 <= i < |after.trace| && after.trace[i].eventId == id {
      if id in m.applied {
        var i :| 0 <= i < |m.trace| && m.trace[i].eventId == id;
        assert after.trace[i].eventId == id;
      } else {
        assert after.trace[|m.trace|].eventId == id;
      }
    }
  }

  /** Rows beyond the cursor in ascending order, none past `limit`. */
  ghost predicate Ahead(m: Machine, rows: seq<Entry>, limit: int) {
    && (forall i :: 0 <= i < |rows| ==> m.lastApplied < rows[i].index <= limit)
    && (forall i, j :: 0 <= i < j < |rows| ==> rows[i].index < rows[j].index)
  }

  /** When the pending error appeared: unchanged while it stays, now when it is new. */
  function Since(before: Machine, after: Machine, since: nat): nat {
    if after.error == before.error then since else |after.trace|
  }

  lemma RowKeepsOrder(env: Env, m: Machine, e: Entry, fault: Fault, since: nat)
    requires OnceEach(m) && ErrorHolds(m, since) && m.lastApplied < e.index
    ensures var (after, go) := ApplyRow(env, m, e, fault);
      && OnceEach(after) && ErrorHolds(after, Since(m, after, since))
      && (go ==> after.lastApplied == e.index
                 && after.error == if m.error.Some? && m.error.value > e.index then m.error else None)
      && (!go ==> after.lastApplied == m.lastApplied && after.trace == m.trace)
  {
    hide Apply, Completes, Blank, OnceEach;
    var (after, go) := ApplyRow(env, m, e, fault);
    var tried := m.(db := Apply(env, m.db, e.command).db);
    OnceSame(m, tried);
    if go && e.eventId !in m.applied {
      RecordKeepsOnce(tried, e);
      OnceSame(Record(tried, e), after);
    } else {
      OnceSame(m, after);
    }
  }

  lemma OnceSame(a: Machine, b: Machine)
    requires OnceEach(a) && a.trace == b.trace && a.applied == b.applied
    ensures OnceEach(b)
  {
  }

  lemma {:induction false} RowsKeepOrder(env: Env, m: Machine, rows: seq<Entry>, faults: seq<Fault>, limit: int, since: nat)
    requires OnceEach(m) && ErrorHolds(m, since) && Ahead(m, rows, limit) && m.lastApplied <= limit
    ensures var after := ApplyRows(env, m, rows, faults);
      && OnceEach(after) && ErrorHolds(after, Since(m, after, since))
      && m.lastApplied <= after.lastApplied <= limit
    decreases |rows|
  {
    hide OnceEach, Apply, Completes, Blank;
    if rows != [] {
      var (next, go) := ApplyRow(env, m, rows[0], FaultAt(faults, 0));
      RowKeepsOrder(env, m, rows[0], FaultAt(faults, 0), since);
      if go {
        var tail := if faults == [] then [] else faults[1..];
        RowsKeepOrder(env, next, rows[1..], tail, limit, Since(m, next, since));
        var after := ApplyRows(env, next, rows[1..], tail);
        ErrorOnlyMoves(env, next, rows[1..], tail);
      }
    }
  }

  /** A pending error that survives a pass unchanged was never cleared in between. */
  lemma {:induction false} ErrorOnlyMoves(env: Env, m: Machine, rows: seq<Entry>, faults: seq<Fault>)
    ensures var after := ApplyRows(env, m, rows, faults);
      m.error.None? && after.error.Some? ==> |rows| > 0 && exists i :: 0 <= i < |rows| && after.error.value == rows[i].index
    decreases |rows|
  {
    if rows != [] {
      var (next, go) := ApplyRow(env, m, rows[0], FaultAt(faults, 0));
      if go {
        var tail := if faults == [] then [] else faults[1..];
        ErrorOnlyMoves(env, next, rows[1..], tail);
        var after := ApplyRows(env, next, rows[1..], tail);
        if m.error.None? && after.error.Some? {
          var i :| 0 <= i < |rows[1..]| && after.error.value == rows[1..][i].index;
          assert rows[i + 1].index == after.error.value;
        }
      } else if m.error.None? && next.error.Some? {
        assert rows[0].index == next.error.value;
      }
    }
  }

  // ----- whole runs ----------------------------------------------------------------------------

  /** A node's apply state with its log, commit index, and the trace length when the pending
      error appeared. */
  datatype Site = Site(m: Machine, log: seq<Entry>, commit: int, since: nat)

  datatype Step =
    | RaiseCommit(index: int)
    | Rewrite(log: seq<Entry>)
    | RollBackTo(prev: int, log: seq<Entry>)
    | Pass(faults: seq<Fault>)

  ghost predicate Possible(s: Site, step: Step) {
    match step
    case RaiseCommit(index) => index >= s.commit
    case Rewrite(log) => Numbered(log)
    case RollBackTo(prev, log) => prev > 0 && Numbered(log)
    case Pass(_) => true
  }

  ghost function Take(env: Env, s: Site, step: Step): Site {
    match step
    case RaiseCommit(index) => s.(commit := index)
    case Rewrite(log) => s.(log := log)
    case RollBackTo(prev, log) =>
      s.(log := log, commit := if s.commit >= prev then prev - 1 else s.commit,
         m := s.m.(lastApplied := if s.m.lastApplied >= prev then prev - 1 else s.m.lastApplied))
    case Pass(faults) =>
      var after := ApplyCommitted(env, s.m, s.log, s.commit, faults);
      s.(m := after, since := Since(s.m, after, s.since))
  }

  ghost predicate AllPossible(env: Env, s: Site, steps: seq<Step>)
    decreases |steps|
  {
    steps == [] || (Possible(s, steps[0]) && AllPossible(env, Take(env, s, steps[0]), steps[1..]))
  }

  ghost function TakeAll(env: Env, s: Site, steps: seq<Step>): Site
    decreases |steps|
  {
    if steps == [] then s else TakeAll(env, Take(env, s, steps[0]), steps[1..])
  }

  ghost predicate OrderInv(s: Site) {
    && Numbered(s.log) && OnceEach(s.m) && ErrorHolds(s.m, s.since)
    && 0 <= s.m.lastApplied <= s.commit
  }

  lemma DueIsAhead(m: Machine, log: seq<Entry>, commit: int)
    requires Numbered(log) && 0 <= m.lastApplied <= commit
    ensures Ahead(m, Due(log, m.lastApplied, commit), commit)
  {
  }

  lemma StepKeepsOrder(env: Env, s: Site, step: Step)
    requires OrderInv(s) && Possible(s, step)
    ensures OrderInv(Take(env, s, step))
  {
    if step.Pass? {
      DueIsAhead(s.m, s.log, s.commit);
      RowsKeepOrder(env, s.m, Due(s.log, s.m.lastApplied, s.commit), step.faults, s.commit, s.since);
    }
  }

  /** Over any mix of commits, log rewrites, rollbacks, faults and retries: no event id is
      recorded twice, the apply cursor never passes the commit index, and a pending error keeps
      the cursor below it with nothing at or beyond it recorded since it appeared. */
  lemma {:induction false} ExactlyOnceInOrder(env: Env, s: Site, steps: seq<Step>)
    requires OrderInv(s) && AllPossible(env, s, steps)
    ensures OrderInv(TakeAll(env, s, steps))
    decreases |steps|
  {
    if steps != [] {
      StepKeepsOrder(env, s, steps[0]);
      ExactlyOnceInOrder(env, Take(env, s, steps[0]), steps[1..]);
    }
  }

  // ----- the AppendEntries handler as steps ------------------------------------------------------

  /** What a call of the handler does to log and cursors is one of these runs: nothing, a rollback
      below the request's previous index, or a rewrite followed by a commit. */
  lemma HandlerSteps(env: Env, s: Site, r: R.Replica, req: R.AppendReq) returns (steps: seq<Step>)
    requires OrderInv(s) && r.log == s.log && r.commitIndex == s.commit && r.lastApplied == s.m.lastApplied
    requires Numbered(R.HandleAppend(r, req).0.log)
    ensures AllPossible(env, s, steps)
    ensures var after, end := R.HandleAppend(r, req).0, TakeAll(env, s, steps);
      end.log == after.log && end.commit == after.commitIndex && end.m == s.m.(lastApplied := after.lastApplied)
  {
    hide OnceEach, ErrorHolds, R.Cut, R.Splice, Apply;
    var after := R.HandleAppend(r, req).0;
    if req.term < r.currentTerm {
      steps := [];
    } else if req.prevIndex > 0 && R.TermAt(r.log, req.prevIndex) != req.prevTerm {
      steps := [RollBackTo(req.prevIndex, after.log)];
      TakeOne(env, s, steps[0]);
    } else {
      steps := [Rewrite(after.log), RaiseCommit(after.commitIndex)];
      assert steps[1..] == [RaiseCommit(after.commitIndex)];
      TakeOne(env, Take(env, s, steps[0]), steps[1]);
    }
  }

  lemma TakeOne(env: Env, s: Site, step: Step)
    ensures TakeAll(env, s, [step]) == Take(env, s, step)
    ensures AllPossible(env, s, [step]) <==> Possible(s, step)
  {
    assert [step][1..] == [];
    assert TakeAll(env, Take(env, s, step), []) == Take(env, s, step);
  }
}
