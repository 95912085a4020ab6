/** A replica's tables are the fold of the applier over its applied log, however commits are
    batched and whatever is retried; and which entries can stall it. */
module ReplicaState {
  import opened Commands
  import opened Tables
  import opened Applier
  import opened Idempotence
  import opened LogTable
  import opened ApplyLoop

  /** Each entry applied once, to completion: a retry after the first attempt changes nothing. */
  ghost function Fold(env: Env, db: Db, log: seq<Entry>): Db
    decreases |log|
  {
    if log == [] then db
    else Apply(env, Fold(env, db, log[..|log| - 1]), log[|log| - 1].command).db
  }

  lemma FoldNext(env: Env, db: Db, log: seq<Entry>, k: nat)
    requires k < |log|
    ensures Fold(env, db, log[..k + 1]) == Apply(env, Fold(env, db, log[..k]), log[k].command).db
  {
    assert log[..k + 1][..k] == log[..k];
  }

  /** The tables are the fold through the cursor, or one entry further when an attempt at the next
      entry has been made but is not recorded. */
  ghost predicate Folded(env: Env, start: Db, m: Machine, log: seq<Entry>, tried: bool) {
    && 0 <= m.lastApplied && m.lastApplied + (if tried then 1 else 0) <= |log|
    && m.db == Fold(env, start, log[..m.lastApplied + (if tried then 1 else 0)])
  }

  ghost predicate AppliedPrefix(m: Machine, log: seq<Entry>) {
    && 0 <= m.lastApplied <= |log|
    && (forall i :: 0 <= i < m.lastApplied ==> log[i].eventId in m.applied)
    && (forall i :: m.lastApplied <= i < |log| ==> log[i].eventId !in m.applied)
  }

  ghost predicate FoldInv(env: Env, start: Db, m: Machine, log: seq<Entry>, tried: bool) {
    && Numbered(log) && DistinctEvents(log)
    && Folded(env, start, m, log, tried) && AppliedPrefix(m, log)
    && (m.error.Some? ==> tried && m.error.value == m.lastApplied + 1)
  }

  /** Whether an unrecorded attempt at the next entry is outstanding after a row. */
  function TriedAfterRow(m: Machine, after: Machine, go: bool, tried: bool, fault: Fault, e: Entry): bool {
    if go then false else tried || !(fault.LookupFails? || Blank(e.eventId))
  }

  /** First attempt or retry, the next entry's attempt yields the fold through it. */
  lemma AttemptYieldsFold(env: Env, start: Db, m: Machine, log: seq<Entry>, tried: bool)
    requires Folded(env, start, m, log, tried) && m.lastApplied < |log|
    ensures Apply(env, m.db, log[m.lastApplied].command).db == Fold(env, start, log[..m.lastApplied + 1])
  {
    var k := m.lastApplied;
    FoldNext(env, start, log, k);
    ApplyTwiceIsOnce(env, Fold(env, start, log[..k]), log[k].command);
    hide Apply, Fold;
    assert Settled(env, Fold(env, start, log[..k + 1]), log[k].command);
  }

  lemma RecordKeepsPrefix(m: Machine, log: seq<Entry>)
    requires AppliedPrefix(m, log) && DistinctEvents(log) && m.lastApplied < |log|
    ensures AppliedPrefix(Advance(Record(m, log[m.lastApplied]), m.lastApplied + 1), log)
  {
  }

  lemma RowKeepsFold(env: Env, start: Db, m: Machine, log: seq<Entry>, tried: bool, fault: Fault)
    requires FoldInv(env, start, m, log, tried) && m.lastApplied < |log|
    ensures var e := log[m.lastApplied];
            var (after, go) := ApplyRow(env, m, e, fault);
      && FoldInv(env, start, after, log, TriedAfterRow(m, after, go, tried, fault, e))
      && after.lastApplied == m.lastApplied + (if go then 1 else 0)
  {
    hide Apply, Completes, Blank, Fold, DistinctEvents, Numbered, AppliedPrefix;
    var e := log[m.lastApplied];
    NextIsNew(m, log);
    AttemptYieldsFold(env, start, m, log, tried);
    var attempted := m.(db := Apply(env, m.db, e.command).db);
    assert Folded(env, start, attempted, log, true);
    PrefixIgnoresTables(m, attempted, log);
    PrefixIgnoresTables(m, attempted.(error := Some(e.index)), log);
    RecordKeepsPrefix(attempted, log);
  }

  /** The next entry is numbered after the cursor and not yet recorded. */
  lemma NextIsNew(m: Machine, log: seq<Entry>)
    requires AppliedPrefix(m, log) && Numbered(log) && m.lastApplied < |log|
    ensures log[m.lastApplied].eventId !in m.applied && log[m.lastApplied].index == m.lastApplied + 1
  {
  }

  lemma PrefixIgnoresTables(m: Machine, other: Machine, log: seq<Entry>)
    requires AppliedPrefix(m, log) && other.applied == m.applied && other.lastApplied == m.lastApplied
    ensures AppliedPrefix(other, log)
  {
  }

  ghost function TriedAfter(env: Env, m: Machine, rows: seq<Entry>, faults: seq<Fault>, tried: bool): bool
    decreases |rows|
  {
    if rows == [] then tried
    else
      var (next, go) := ApplyRow(env, m, rows[0], FaultAt(faults, 0));
      var after := TriedAfterRow(m, next, go, tried, FaultAt(faults, 0), rows[0]);
      if go then TriedAfter(env, next, rows[1..], if faults == [] then [] else faults[1..], after) else after
  }

  lemma {:induction false} RowsKeepFold(env: Env, start: Db, m: Machine, log: seq<Entry>, upTo: int, tried: bool, faults: seq<Fault>)
    requires FoldInv(env, start, m, log, tried) && m.lastApplied <= upTo <= |log|
    ensures var rows := log[m.lastApplied..upTo];
            var after := ApplyRows(env, m, rows, faults);
      && FoldInv(env, start, after, log, TriedAfter(env, m, rows, faults, tried))
      && m.lastApplied <= after.lastApplied <= upTo
    decreases upTo - m.lastApplied
  {
    var rows := log[m.lastApplied..upTo];
    if rows != [] {
      RowKeepsFold(env, start, m, log, tried, FaultAt(faults, 0));
      var (next, go) := ApplyRow(env, m, rows[0], FaultAt(faults, 0));
      if go {
        assert log[next.lastApplied..upTo] == rows[1..];
        RowsKeepFold(env, start, next, log, upTo, false, if faults == [] then [] else faults[1..]);
      }
    }
  }

  /** Changing the log beyond the cursor (and beyond an outstanding attempt) changes no fold. */
  lemma LogBeyondCursor(env: Env, start: Db, m: Machine, log: seq<Entry>, longer: seq<Entry>, kept: int, tried: bool)
    requires FoldInv(env, start, m, log, tried)
    requires m.lastApplied + (if tried then 1 else 0) <= kept <= |log| && kept <= |longer| && log[..kept] == longer[..kept]
    requires Numbered(longer) && DistinctEvents(longer)
    requires forall i :: kept <= i < |longer| ==> longer[i].eventId !in m.applied
    ensures FoldInv(env, start, m, longer, tried)
  {
    var k := m.lastApplied + (if tried then 1 else 0);
    assert log[..k] == log[..kept][..k] && longer[..k] == longer[..kept][..k];
    forall i | 0 <= i < kept ensures longer[i] == log[i] {
      assert longer[..kept][i] == log[..kept][i];
    }
  }

  // ----- runs without rollback -----------------------------------------------------------------

  /** A node's apply state while its committed prefix stands: commits come in any batches, the
      log may change beyond the commit index, and passes meet any faults. */
  datatype Replica = Replica(m: Machine, log: seq<Entry>, commit: int, tried: bool)

  datatype Move = Commit(index: int) | Extend(log: seq<Entry>) | Pass(faults: seq<Fault>)

  ghost predicate Allowed(r: Replica, move: Move) {
    match move
    case Commit(index) => r.commit <= index <= |r.log|
    case Extend(log) =>
      && Numbered(log) && DistinctEvents(log) && 0 <= r.commit <= |log| && r.commit <= |r.log| && log[..r.commit] == r.log[..r.commit]
      && forall i :: r.commit <= i < |log| ==> log[i].eventId !in r.m.applied
    case Pass(_) => true
  }

  ghost function Do(env: Env, r: Replica, move: Move): Replica {
    match move
    case Commit(index) => r.(commit := index)
    case Extend(log) => r.(log := log)
    case Pass(faults) =>
      var rows := Due(r.log, r.m.lastApplied, r.commit);
      r.(m := ApplyRows(env, r.m, rows, faults), tried := TriedAfter(env, r.m, rows, faults, r.tried))
  }

  ghost predicate ReplicaInv(env: Env, start: Db, r: Replica) {
    && FoldInv(env, start, r.m, r.log, r.tried)
    && r.m.lastApplied + (if r.tried then 1 else 0) <= r.commit <= |r.log|
  }

  ghost predicate AllAllowed(env: Env, r: Replica, moves: seq<Move>)
    decreases |moves|
  {
    moves == [] || (Allowed(r, moves[0]) && AllAllowed(env, Do(env, r, moves[0]), moves[1..]))
  }

  ghost function DoAll(env: Env, r: Replica, moves: seq<Move>): Replica
    decreases |moves|
  {
    if moves == [] then r else DoAll(env, Do(env, r, moves[0]), moves[1..])
  }

  lemma {:induction false} TriedWithin(env: Env, start: Db, m: Machine, log: seq<Entry>, upTo: int, tried: bool, faults: seq<Fault>)
    requires FoldInv(env, start, m, log, tried) && m.lastApplied <= upTo <= |log|
    requires m.lastApplied + (if tried then 1 else 0) <= upTo
    ensures var rows := log[m.lastApplied..upTo];
      ApplyRows(env, m, rows, faults).lastApplied + (if TriedAfter(env, m, rows, faults, tried) then 1 else 0) <= upTo
    decreases upTo - m.lastApplied
  {
    var rows := log[m.lastApplied..upTo];
    if rows != [] {
      RowKeepsFold(env, start, m, log, tried, FaultAt(faults, 0));
      var (next, go) := ApplyRow(env, m, rows[0], FaultAt(faults, 0));
      if go {
        assert log[next.lastApplied..upTo] == rows[1..];
        TriedWithin(env, start, next, log, upTo, false, if faults == [] then [] else faults[1..]);
      }
    }
  }

  lemma MoveKeepsInv(env: Env, start: Db, r: Replica, move: Move)
    requires ReplicaInv(env, start, r) && Allowed(r, move)
    ensures ReplicaInv(env, start, Do(env, r, move))
  {
    match move
    case Commit(_) =>
    case Extend(log) => LogBeyondCursor(env, start, r.m, r.log, log, r.commit, r.tried);
    case Pass(faults) =>
      if r.m.lastApplied < r.commit {
        RowsKeepFold(env, start, r.m, r.log, r.commit, r.tried, faults);
        TriedWithin(env, start, r.m, r.log, r.commit, r.tried, faults);
      }
  }

  lemma {:induction false} RunKeepsReplica(env: Env, start: Db, r: Replica, moves: seq<Move>)
    requires ReplicaInv(env, start, r) && AllAllowed(env, r, moves)
    ensures ReplicaInv(env, start, DoAll(env, r, moves))
    decreases |moves|
  {
    if moves != [] {
      MoveKeepsInv(env, start, r, moves[0]);
      RunKeepsReplica(env, start, Do(env, r, moves[0]), moves[1..]);
    }
  }

  /** With no attempt outstanding, the tables are exactly the fold through the apply cursor. */
  lemma TablesAreTheFold(env: Env, start: Db, r: Replica, moves: seq<Move>)
    requires ReplicaInv(env, start, r) && AllAllowed(env, r, moves)
    ensures var end := DoAll(env, r, moves);
      && 0 <= end.m.lastApplied <= |end.log|
      && (end.m.error.Some? ==> end.tried)
      && (if end.tried then end.m.lastApplied < end.commit <= |end.log| && end.m.db == Fold(env, start, end.log[..end.m.lastApplied + 1])
          else end.m.db == Fold(env, start, end.log[..end.m.lastApplied]))
  {
    RunKeepsReplica(env, start, r, moves);
    hide Fold, DoAll, AllAllowed, Numbered, DistinctEvents, AppliedPrefix;
  }

  /** Without record faults the only outstanding attempt is the one whose error is pending. */
  ghost predicate NoRecordFaults(moves: seq<Move>) {
    forall i :: 0 <= i < |moves| && moves[i].Pass? ==> RecordFails !in moves[i].faults
  }

  lemma {:induction false} PassLeavesOnlyErrors(env: Env, m: Machine, rows: seq<Entry>, faults: seq<Fault>, tried: bool)
    requires RecordFails !in faults && (tried ==> m.error.Some?)
    requires forall i, j :: 0 <= i < j < |rows| ==> rows[i].index < rows[j].index
    ensures TriedAfter(env, m, rows, faults, tried) ==> ApplyRows(env, m, rows, faults).error.Some?
    decreases |rows|
  {
    if rows != [] {
      var (next, go) := ApplyRow(env, m, rows[0], FaultAt(faults, 0));
      if go {
        PassLeavesOnlyErrors(env, next, rows[1..], if faults == [] then [] else faults[1..], false);
      } else {
        assert FaultAt(faults, 0) != RecordFails;
      }
    }
  }

  lemma {:induction false} TriedMeansError(env: Env, start: Db, r: Replica, moves: seq<Move>)
    requires ReplicaInv(env, start, r) && AllAllowed(env, r, moves) && NoRecordFaults(moves)
    requires r.tried ==> r.m.error.Some?
    ensures DoAll(env, r, moves).tried ==> DoAll(env, r, moves).m.error.Some?
    decreases |moves|
  {
    if moves != [] {
      MoveKeepsInv(env, start, r, moves[0]);
      if moves[0].Pass? {
        PassLeavesOnlyErrors(env, r.m, Due(r.log, r.m.lastApplied, r.commit), moves[0].faults, r.tried);
      }
      TriedMeansError(env, start, Do(env, r, moves[0]), moves[1..]);
    }
  }

  /** Two replicas with no pending error, the same apply cursor and logs that agree through it
      have the same tables, whatever batches, retries and failed lookups each went through. */
  lemma ReplicasAgree(env: Env, start: Db, a: Replica, movesA: seq<Move>, b: Replica, movesB: seq<Move>)
    requires ReplicaInv(env, start, a) && AllAllowed(env, a, movesA) && NoRecordFaults(movesA) && (a.tried ==> a.m.error.Some?)
    requires ReplicaInv(env, start, b) && AllAllowed(env, b, movesB) && NoRecordFaults(movesB) && (b.tried ==> b.m.error.Some?)
    requires DoAll(env, a, movesA).m.error.None? && DoAll(env, b, movesB).m.error.None?
    requires DoAll(env, a, movesA).m.lastApplied == DoAll(env, b, movesB).m.lastApplied
    requires var k := DoAll(env, a, movesA).m.lastApplied;
      0 <= k <= |DoAll(env, a, movesA).log| && k <= |DoAll(env, b, movesB).log|
      && DoAll(env, a, movesA).log[..k] == DoAll(env, b, movesB).log[..k]
    ensures DoAll(env, a, movesA).m.db == DoAll(env, b, movesB).m.db
  {
    TablesAreTheFold(env, start, a, movesA);
    TablesAreTheFold(env, start, b, movesB);
    TriedMeansError(env, start, a, movesA);
    TriedMeansError(env, start, b, movesB);
  }

  /** A node that has applied nothing yet. */
  lemma FreshReplica(env: Env, start: Db, log: seq<Entry>)
    requires Numbered(log) && DistinctEvents(log)
    ensures ReplicaInv(env, start, Replica(Machine(start, map[], 0, None, []), log, 0, false))
  {
    assert log[..0] == [];
  }
}
