/** The raft_log table: rows with primary key (term, idx) and a unique event id, written with
    INSERT OR REPLACE and DELETE ... WHERE idx >= ?, and the sequence it stands for. */
module LogTable {
  import opened Commands
  import opened Raft

  type Rows = set<Entry>

  // ----- statements ---------------------------------------------------------------------

  predicate Clashes(r: Entry, e: Entry) {
    (r.term == e.term && r.index == e.index) || r.eventId == e.eventId
  }

  /** INSERT OR REPLACE drops every row that shares a unique key with the new one. */
  function InsertOrReplace(rows: Rows, e: Entry): Rows {
    (set r | r in rows && !Clashes(r, e)) + {e}
  }

  function DeleteFrom(rows: Rows, i: int): Rows {
    if i <= 0 then rows else set r | r in rows && r.index < i
  }

  /** The handler's loop: cut at each entry's index, then write the entry. */
  function WriteAll(rows: Rows, entries: seq<Entry>): Rows
    decreases |entries|
  {
    if entries == [] then rows
    else WriteAll(InsertOrReplace(DeleteFrom(rows, entries[0].index), entries[0]), entries[1..])
  }

  // ----- queries, as what they may answer --------------------------------------------------

  ghost predicate IsTermAt(rows: Rows, i: int, term: int) {
    if i <= 0 || forall r | r in rows :: r.index != i then term == 0
    else exists r :: r in rows && r.index == i && r.term == term
  }

  ghost predicate IsLast(rows: Rows, index: int, term: int) {
    if rows == {} then index == 0 && term == 0
    else exists r :: r in rows && r.index == index && r.term == term && forall q | q in rows :: q.index <= index
  }

  /** `out` lists the rows with lo <= idx <= hi once each, in ascending idx order. */
  ghost predicate IsScan(rows: Rows, lo: int, hi: int, out: seq<Entry>) {
    && (forall i :: 0 <= i < |out| ==> out[i] in rows && lo <= out[i].index <= hi)
    && (forall r | r in rows && lo <= r.index <= hi :: r in out)
    && (forall i, j :: 0 <= i < j < |out| ==> out[i] != out[j] && out[i].index <= out[j].index)
  }

  /** `out` lists every row from index lo on. */
  ghost predicate IsSuffix(rows: Rows, lo: int, out: seq<Entry>) {
    exists hi :: (forall r | r in rows :: r.index <= hi) && IsScan(rows, lo, hi, out)
  }

  // ----- the sequence the rows stand for ---------------------------------------------------

  /** The rows are one per index over exactly 1..n. */
  ghost predicate Represents(rows: Rows, log: seq<Entry>) {
    && (forall i :: 0 <= i < |log| ==> log[i].index == i + 1 && log[i] in rows)
    && (forall r | r in rows :: 1 <= r.index <= |log| && log[r.index - 1] == r)
  }

  ghost predicate DistinctEvents(log: seq<Entry>) {
    forall i, j :: 0 <= i < j < |log| ==> log[i].eventId != log[j].eventId
  }

  lemma RepresentsOne(rows: Rows, a: seq<Entry>, b: seq<Entry>)
    requires Represents(rows, a) && Represents(rows, b)
    ensures a == b
  {
    assert a != [] ==> a[|a| - 1] in rows;
    assert b != [] ==> b[|b| - 1] in rows;
    forall i | 0 <= i < |a| ensures a[i] == b[i] {
      assert a[i] in rows;
    }
  }

  lemma TermAtMatches(rows: Rows, log: seq<Entry>, i: int, term: int)
    requires Represents(rows, log)
    ensures IsTermAt(rows, i, term) <==> term == TermAt(log, i)
  {
    if 1 <= i <= |log| {
      assert log[i - 1] in rows;
      if IsTermAt(rows, i, term) {
        var r :| r in rows && r.index == i && r.term == term;
      }
    }
  }

  lemma LastMatches(rows: Rows, log: seq<Entry>, index: int, term: int)
    requires Represents(rows, log)
    ensures IsLast(rows, index, term) <==> index == |log| && term == LastTerm(log)
  {
    if log == [] {
      assert rows == {};
    } else {
      var last := log[|log| - 1];
      assert last in rows;
      if IsLast(rows, index, term) {
        var r :| r in rows && r.index == index && r.term == term && forall q | q in rows :: q.index <= index;
        assert last.index <= index;
      }
    }
  }

  lemma ScanMatches(rows: Rows, log: seq<Entry>, lo: int, hi: int, out: seq<Entry>)
    requires Represents(rows, log)
    requires 1 <= lo <= |log| + 1 && lo - 1 <= hi
    ensures IsScan(rows, lo, hi, out) <==> out == log[lo - 1..if hi <= |log| then hi else |log|]
  {
    var top := if hi <= |log| then hi else |log|;
    var want := log[lo - 1..top];
    if IsScan(rows, lo, hi, out) {
      ScanDense(rows, log, lo, hi, out, |out|);
      ScanCount(rows, log, lo, hi, out);
      forall i | 0 <= i < |out| ensures out[i] == want[i] {
        assert OnTrack(log, lo, out, i);
      }
      assert out == want;
    }
    forall r | r in rows && lo <= r.index <= hi ensures r in want {
      assert want[r.index - lo] == r;
    }
    assert IsScan(rows, lo, hi, want);
  }

  lemma SuffixMatches(rows: Rows, log: seq<Entry>, lo: int, out: seq<Entry>)
    requires Represents(rows, log) && 1 <= lo <= |log|
    ensures IsSuffix(rows, lo, out) <==> out == log[lo - 1..]
  {
    assert log[|log| - 1] in rows;
    assert log[lo - 1..|log|] == log[lo - 1..];
    if IsSuffix(rows, lo, out) {
      var hi :| (forall r | r in rows :: r.index <= hi) && IsScan(rows, lo, hi, out);
      ScanMatches(rows, log, lo, hi, out);
    } else {
      assert forall r | r in rows :: r.index <= |log|;
      ScanMatches(rows, log, lo, |log|, out);
    }
  }

  /** Position by position, a scan holds consecutive indexes starting at lo. */
  lemma {:induction false} ScanDense(rows: Rows, log: seq<Entry>, lo: int, hi: int, out: seq<Entry>, k: nat)
    requires Represents(rows, log) && IsScan(rows, lo, hi, out) && 1 <= lo && k <= |out|
    ensures forall i :: 0 <= i < k ==> OnTrack(log, lo, out, i)
  {
    if k > 0 {
      ScanDense(rows, log, lo, hi, out, k - 1);
      ScanStep(rows, log, lo, hi, out, k - 1);
    }
  }

  ghost predicate OnTrack(log: seq<Entry>, lo: int, out: seq<Entry>, i: int)
    requires 0 <= i < |out|
  {
    out[i].index == lo + i && 1 <= lo + i <= |log| && out[i] == log[lo + i - 1]
  }

  lemma ScanStep(rows: Rows, log: seq<Entry>, lo: int, hi: int, out: seq<Entry>, k: nat)
    requires Represents(rows, log) && IsScan(rows, lo, hi, out) && 1 <= lo && k < |out|
    requires forall i :: 0 <= i < k ==> OnTrack(log, lo, out, i)
    ensures OnTrack(log, lo, out, k)
  {
    hide Represents;
    var r := out[k];
    RowOf(rows, log, r);
    if k > 0 {
      assert OnTrack(log, lo, out, k - 1);
      assert out[k - 1].index <= r.index && out[k - 1] != r;
    }
    assert lo + k <= r.index;
    var here := log[lo + k - 1];
    RowAt(rows, log, lo + k - 1);
    var j :| 0 <= j < |out| && out[j] == here;
    assert j >= k;
  }

  lemma ScanCount(rows: Rows, log: seq<Entry>, lo: int, hi: int, out: seq<Entry>)
    requires Represents(rows, log) && IsScan(rows, lo, hi, out)
    requires 1 <= lo <= |log| + 1 && lo - 1 <= hi
    requires forall i :: 0 <= i < |out| ==> OnTrack(log, lo, out, i)
    ensures lo + |out| - 1 == if hi <= |log| then hi else |log|
  {
    var top := if hi <= |log| then hi else |log|;
    if top >= lo {
      assert log[top - 1] in rows && log[top - 1].index == top;
      var j :| 0 <= j < |out| && out[j] == log[top - 1];
      assert OnTrack(log, lo, out, j);
    }
    if out != [] {
      assert OnTrack(log, lo, out, |out| - 1);
      assert out[|out| - 1].index <= hi;
    }
  }

  lemma DeleteMatches(rows: Rows, log: seq<Entry>, i: int)
    requires Represents(rows, log)
    ensures Represents(DeleteFrom(rows, i), Cut(log, i))
  {
    var left, cut := DeleteFrom(rows, i), Cut(log, i);
    forall j | 0 <= j < |cut| ensures cut[j].index == j + 1 && cut[j] in left {
      assert cut[j] == log[j] && log[j] in rows && log[j].index == j + 1;
    }
    forall r | r in left ensures 1 <= r.index <= |cut| && cut[r.index - 1] == r {
      assert r in rows;
    }
    hide DeleteFrom, Cut;
  }

  /** Appending at the next index keeps the table a sequence exactly when the event id is new:
      a reused one makes REPLACE delete the earlier row and leaves a gap. */
  lemma InsertMatches(rows: Rows, log: seq<Entry>, e: Entry, after: seq<Entry>)
    requires Represents(rows, log) && e.index == |log| + 1
    ensures Represents(InsertOrReplace(rows, e), after) <==> after == log + [e] && NewEvent(log, e)
  {
    var table := InsertOrReplace(rows, e);
    if NewEvent(log, e) {
      AppendRow(rows, log, e);
      if Represents(table, after) {
        RepresentsOne(table, after, log + [e]);
      }
    } else if Represents(table, after) {
      NoGapMeansNewEvent(rows, log, e, after);
    }
  }

  ghost predicate NewEvent(log: seq<Entry>, e: Entry) {
    forall i :: 0 <= i < |log| ==> log[i].eventId != e.eventId
  }

  lemma AppendRow(rows: Rows, log: seq<Entry>, e: Entry)
    requires Represents(rows, log) && e.index == |log| + 1 && NewEvent(log, e)
    ensures Represents(InsertOrReplace(rows, e), log + [e])
  {
    forall r | r in rows ensures !Clashes(r, e) {
      assert log[r.index - 1] == r;
    }
  }

  lemma RowAt(rows: Rows, log: seq<Entry>, i: int)
    requires Represents(rows, log) && 0 <= i < |log|
    ensures log[i] in rows && log[i].index == i + 1
  {
  }

  lemma RowOf(rows: Rows, log: seq<Entry>, r: Entry)
    requires Represents(rows, log) && r in rows
    ensures 1 <= r.index <= |log| && log[r.index - 1] == r
  {
  }

  lemma NoGapMeansNewEvent(rows: Rows, log: seq<Entry>, e: Entry, after: seq<Entry>)
    requires Represents(rows, log) && e.index == |log| + 1
    requires Represents(InsertOrReplace(rows, e), after)
    ensures NewEvent(log, e)
  {
    hide Represents;
    var table := InsertOrReplace(rows, e);
    RowOf(table, after, e);
    forall i | 0 <= i < |log| ensures log[i].eventId != e.eventId {
      var r := after[i];
      RowAt(table, after, i);
      assert r in rows && !Clashes(r, e);
      RowOf(rows, log, r);
    }
  }

  /** The handler's write loop on a table that stands for `log` is the splice of the entries,
      when they are numbered from prev + 1 and reuse no event id. */
  lemma {:induction false} WriteAllMatches(rows: Rows, log: seq<Entry>, prev: int, entries: seq<Entry>)
    requires Represents(rows, log) && 0 <= prev <= |log|
    requires forall i :: 0 <= i < |entries| ==> entries[i].index == prev + 1 + i
    requires DistinctEvents(log[..prev] + entries)
    ensures Represents(WriteAll(rows, entries), Splice(log, prev, entries))
    decreases |entries|
  {
    if entries != [] {
      var e := entries[0];
      DeleteMatches(rows, log, e.index);
      var kept := log[..prev];
      assert Cut(log, e.index) == kept;
      var all := kept + entries;
      forall i | 0 <= i < |kept| ensures kept[i].eventId != e.eventId {
        assert all[i] == kept[i] && all[prev] == e;
      }
      AppendRow(DeleteFrom(rows, e.index), kept, e);
      var longer := kept + [e];
      assert longer[..prev + 1] + entries[1..] == all;
      WriteAllMatches(InsertOrReplace(DeleteFrom(rows, e.index), e), longer, prev + 1, entries[1..]);
      assert Splice(longer, prev + 1, entries[1..]) == all;
    }
  }
}
