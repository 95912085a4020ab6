/** One consensus node as it runs: volatile state in fields, the log in the rows of a table, the
    handlers and the leader's bookkeeping changing both in place, and the apply loop. */
module ConsensusNode {
  import opened Commands
  import opened Tables
  import opened Applier
  import opened Quorum
  import opened Raft
  import opened LogTable
  import opened TableNode
  import opened ApplyLoop
  import opened Store
  import opened ApplierRun

  class Consensus {
    const nodeId: NodeId
    const store: Storage
    var currentTerm: int
    var votedFor: NodeId
    var commitIndex: int
    var lastApplied: int
    var role: Role
    var leader: NodeId
    var rows: Rows
    var nextIdx: map<NodeId, int>
    var matchIdx: map<NodeId, int>
    var applyErr: Option<Error>
    var applyErrIndex: int
    ghost var trace: seq<Entry>

    constructor (nodeId: NodeId, store: Storage)
      ensures State() == NewNode(nodeId, {}) && this.store == store && applyErr.None? && trace == []
    {
      this.nodeId, this.store := nodeId, store;
      currentTerm, votedFor, commitIndex, lastApplied, role, leader := 0, "", 0, 0, Follower, "";
      rows, nextIdx, matchIdx := {}, map[], map[];
      applyErr, applyErrIndex, trace := None, 0, [];
    }

    function State(): TableReplica
      reads this
    {
      Node(nodeId, currentTerm, votedFor, commitIndex, lastApplied, role, leader, rows, nextIdx, matchIdx)
    }

    ghost function Applying(): Machine
      reads this, store
    {
      Machine(store.Db(), store.applied, lastApplied, if applyErr.Some? then Some(applyErrIndex) else None, trace)
    }

    // ----- the log table --------------------------------------------------------------------

    method AppendLog(e: Entry)
      modifies this`rows
      ensures rows == InsertOrReplace(old(rows), e)
    {
      rows := (set r | r in rows && !Clashes(r, e)) + {e};
    }

    method TruncateLogFrom(i: int)
      modifies this`rows
      ensures rows == DeleteFrom(old(rows), i)
    {
      if i <= 0 { return; }
      rows := set r | r in rows && r.index < i;
    }

    method LogTermAt(i: int) returns (term: int)
      ensures IsTermAt(rows, i, term)
    {
      if i <= 0 { return 0; }
      if r :| r in rows && r.index == i { return r.term; }
      return 0;
    }

    method LastIndexTerm() returns (index: int, term: int)
      ensures IsLast(rows, index, term)
    {
      if rows == {} { return 0, 0; }
      ghost var last := LastExists(rows);
      var r :| r in rows && forall q | q in rows :: q.index <= r.index;
      return r.index, r.term;
    }

    method NextIndex() returns (next: int)
      ensures next == RowLast(rows).0 + 1
    {
      var last, term := LastIndexTerm();
      LastIsOne(rows, last, term);
      return last + 1;
    }

    /** SELECT ... WHERE idx >= lo AND idx <= hi ORDER BY idx. */
    method Select(lo: int, hi: int) returns (out: seq<Entry>)
      ensures IsScan(rows, lo, hi, out)
    {
      out := [];
      var todo := set r | r in rows && lo <= r.index <= hi;
      while todo != {}
        invariant Selected(rows, lo, hi, out, todo)
        decreases todo
      {
        ghost var least := FirstExists(todo);
        var first :| first in todo && forall q | q in todo :: first.index <= q.index;
        SelectNext(rows, lo, hi, out, todo, first);
        out := out + [first];
        todo := todo - {first};
      }
    }

    /** The rows of the range taken so far, in order, and those still to take. */
    ghost predicate Selected(rows: Rows, lo: int, hi: int, out: seq<Entry>, todo: Rows) {
      && (forall r | r in todo :: r in rows && lo <= r.index <= hi)
      && (forall i :: 0 <= i < |out| ==> out[i] in rows && out[i] !in todo && lo <= out[i].index <= hi)
      && (forall i, r :: 0 <= i < |out| && r in todo ==> out[i].index <= r.index)
      && (forall i, j :: 0 <= i < j < |out| ==> out[i] != out[j] && out[i].index <= out[j].index)
      && (forall r | r in rows && lo <= r.index <= hi :: r in out || r in todo)
    }

    lemma StillListed(out: seq<Entry>, first: Entry, r: Entry)
      requires r in out || r == first
      ensures r in out + [first]
    {
      assert (out + [first])[|out|] == first;
      if r in out {
        var i :| 0 <= i < |out| && out[i] == r;
        assert (out + [first])[i] == r;
      }
    }

    lemma SelectNext(rows: Rows, lo: int, hi: int, out: seq<Entry>, todo: Rows, first: Entry)
      requires Selected(rows, lo, hi, out, todo) && first in todo && forall q | q in todo :: first.index <= q.index
      ensures Selected(rows, lo, hi, out + [first], todo - {first})
    {
      var more := out + [first];
      assert more[|out|] == first && forall i :: 0 <= i < |out| ==> more[i] == out[i];
      forall r | r in rows && lo <= r.index <= hi ensures r in more || r in todo - {first} {
        if r !in todo || r == first { StillListed(out, first, r); }
      }
      forall i, j | 0 <= i < j < |more| ensures more[i] != more[j] && more[i].index <= more[j].index {
        if j < |out| { assert out[i] != out[j]; }
      }
    }

    lemma {:induction false} FirstExists(rows: Rows) returns (first: Entry)
      requires rows != {}
      ensures first in rows && forall q | q in rows :: first.index <= q.index
      decreases rows
    {
      first :| first in rows;
      if rows != {first} {
        assert rows - {first} != {};
        var other := FirstExists(rows - {first});
        if other.index < first.index { first := other; }
      }
    }

    method LoadLogEntriesFrom(lo: int) returns (out: seq<Entry>)
      ensures IsSuffix(rows, lo, out)
    {
      var last, term := LastIndexTerm();
      out := Select(lo, last);
      assert forall r | r in rows :: r.index <= last;
    }

    // ----- handlers -------------------------------------------------------------------------

    /** `found` is the term the log held at the previous index. */
    method HandleAppendEntries(req: AppendReq) returns (resp: AppendResp, ghost found: int)
      modifies this`currentTerm, this`role, this`leader, this`rows, this`commitIndex, this`lastApplied
      ensures IsTermAt(old(rows), req.prevIndex, found)
      ensures (State(), resp) ==
        Append(old(State()), req, found, DeleteFrom(old(rows), req.prevIndex), WriteAll(old(rows), req.entries))
    {
      hide WriteAll, DeleteFrom, IsTermAt, LastSent;
      var term := LogTermAt(req.prevIndex);
      found := term;
      if req.term < currentTerm { return AppendResp(currentTerm, false, lastApplied), found; }
      var wasLeader := role.Leader?;
      if req.term > currentTerm {
        currentTerm, role, leader := req.term, Follower, req.leaderId;
      } else if wasLeader && req.leaderId != nodeId {
        role, leader := Follower, req.leaderId;
      } else if !wasLeader {
        leader := req.leaderId;
      }
      if req.prevIndex > 0 && term != req.prevTerm {
        TruncateLogFrom(req.prevIndex);
        if lastApplied >= req.prevIndex { lastApplied := req.prevIndex - 1; }
        if commitIndex >= req.prevIndex { commitIndex := req.prevIndex - 1; }
        return AppendResp(currentTerm, false, lastApplied), found;
      }
      var last := WriteEntries(req);
      if req.leaderCommit > commitIndex { commitIndex := req.leaderCommit; }
      return AppendResp(currentTerm, true, last), found;
    }

    /** Cut at every entry's index before writing it. */
    method WriteEntries(req: AppendReq) returns (last: int)
      modifies this`rows
      ensures rows == WriteAll(old(rows), req.entries) && last == LastSent(req)
    {
      last := req.prevIndex;
      var i := 0;
      while i < |req.entries|
        invariant 0 <= i <= |req.entries|
        invariant WriteAll(rows, req.entries[i..]) == WriteAll(old(rows), req.entries)
        invariant last == if i == 0 then req.prevIndex else req.entries[i - 1].index
      {
        assert req.entries[i..][1..] == req.entries[i + 1..];
        TruncateLogFrom(req.entries[i].index);
        AppendLog(req.entries[i]);
        last := req.entries[i].index;
        i := i + 1;
      }
    }

    method HandleRequestVote(req: VoteReq) returns (resp: VoteResp, ghost index: int, ghost term: int)
      modifies this`currentTerm, this`votedFor
      ensures IsLast(rows, index, term)
      ensures (State(), resp) == Vote(old(State()), req, index, term)
    {
      var lastIndex, lastTerm := LastIndexTerm();
      index, term := lastIndex, lastTerm;
      if req.term < currentTerm { return VoteResp(currentTerm, false), index, term; }
      var outdated := lastTerm > req.lastTerm || (lastTerm == req.lastTerm && lastIndex > req.lastIndex);
      if req.preVote { return VoteResp(currentTerm, !outdated), index, term; }
      if req.term > currentTerm { currentTerm, votedFor := req.term, ""; }
      if votedFor != "" && votedFor != req.candidate { return VoteResp(currentTerm, false), index, term; }
      if outdated { return VoteResp(currentTerm, false), index, term; }
      votedFor := req.candidate;
      return VoteResp(currentTerm, true), index, term;
    }

    // ----- the leader's bookkeeping -----------------------------------------------------------

    method Active(known: seq<NodeId>) returns (peers: seq<NodeId>)
      ensures peers == ActivePeers(known, nodeId)
    {
      peers := [];
      var i := 0;
      while i < |known|
        invariant 0 <= i <= |known|
        invariant peers + ActivePeers(known[i..], nodeId) == ActivePeers(known, nodeId)
      {
        assert known[i..][1..] == known[i + 1..];
        if known[i] != "" && known[i] != nodeId && known[i] != "node-unknown" {
          peers := peers + [known[i]];
        }
        i := i + 1;
      }
    }

    /** The index a majority of this node and its active peers has reached. */
    method RecalculateCommitIndex(known: seq<NodeId>)
      modifies this`commitIndex
      ensures State() == Recalculate(old(State()), known, RowLast(rows).0)
    {
      var lastIdx, lastTerm := LastIndexTerm();
      LastIsOne(rows, lastIdx, lastTerm);
      if !role.Leader? || lastIdx == 0 { return; }
      var peers := Active(known);
      var idxs := [lastIdx];
      var i := 0;
      while i < |peers|
        invariant 0 <= i <= |peers| && |idxs| == i + 1
        invariant idxs + MatchIndexes(State(), peers[i..]) == [lastIdx] + MatchIndexes(State(), peers)
      {
        assert peers[i..][1..] == peers[i + 1..];
        idxs := idxs + [if peers[i] in matchIdx then matchIdx[peers[i]] else 0];
        i := i + 1;
      }
      assert idxs == [lastIdx] + MatchIndexes(State(), peers);
      var ascending := Sorted(idxs);
      var majority := (|peers| + 1) / 2 + 1;
      var candidate := ascending[|ascending| - majority];
      if candidate > commitIndex { commitIndex := candidate; }
    }

    method OnTerm(sentTerm: int, replyTerm: int)
      modifies this`currentTerm, this`role, this`leader
      ensures State() == ObserveTerm(old(State()), sentTerm, replyTerm)
      ensures if replyTerm > sentTerm && replyTerm > old(currentTerm)
              then currentTerm == replyTerm && role.Follower? && leader == ""
              else currentTerm == old(currentTerm) && role == old(role) && leader == old(leader)
    {
      if replyTerm > sentTerm && replyTerm > currentTerm {
        currentTerm, role, leader := replyTerm, Follower, "";
      }
    }

    /** The reply of a peer to a replication request: newer term, success, or step back. */
    method OnAppendReply(peer: NodeId, sentTerm: int, lastIdx: int, resp: AppendResp)
      modifies this`currentTerm, this`role, this`leader, this`nextIdx, this`matchIdx
      ensures State() == OnReply(old(State()), peer, sentTerm, lastIdx, resp)
    {
      if resp.term > sentTerm {
        OnTerm(sentTerm, resp.term);
      } else if resp.success {
        var reached := if resp.matchIndex > 0 then resp.matchIndex else lastIdx;
        matchIdx := matchIdx[peer := reached];
        nextIdx := nextIdx[peer := reached + 1];
      } else {
        var current := if peer in nextIdx then nextIdx[peer] else 0;
        nextIdx := nextIdx[peer := if current <= 1 then 1 else current - 1];
      }
    }

    /** The request for one peer: its missing suffix, or an empty one, by the last index the
        broadcast read. */
    method BuildRequest(peer: NodeId, term: int, commit: int, lastIdx: int) returns (req: AppendReq)
      ensures req.term == term && MayBuild(State(), peer, commit, lastIdx, req.(term := currentTerm))
    {
      var next := if peer in nextIdx && nextIdx[peer] > 0 then nextIdx[peer] else lastIdx + 1;
      if next > lastIdx {
        var prevTerm := LogTermAt(lastIdx);
        return AppendReq(term, nodeId, lastIdx, prevTerm, [], commit);
      }
      var entries := LoadLogEntriesFrom(next);
      var prevTerm := LogTermAt(next - 1);
      return AppendReq(term, nodeId, next - 1, prevTerm, entries, commit);
    }

    lemma LastIsOne(rows: Rows, index: int, term: int)
      requires IsLast(rows, index, term)
      ensures RowLast(rows).0 == index
    {
    }

    method BeginElection()
      modifies this`currentTerm, this`role
      ensures State() == StartElection(old(State()))
      ensures role.Candidate? && currentTerm == old(currentTerm) + 1 && votedFor == old(votedFor)
    {
      currentTerm := currentTerm + 1;
      role := Candidate;
    }

    method BecomeLeader(peers: seq<NodeId>)
      modifies this`role, this`leader, this`nextIdx, this`matchIdx
      ensures State() == WinElection(old(State()), peers, RowLast(rows).0)
      ensures role.Leader? && leader == nodeId
      ensures forall p :: p in peers && p != nodeId ==>
        p in nextIdx && nextIdx[p] == RowLast(rows).0 + 1 && p in matchIdx && matchIdx[p] == 0
    {
      hide IsLast, RowLast, Uniform;
      role, leader := Leader, nodeId;
      var lastIdx, lastTerm := LastIndexTerm();
      LastIsOne(rows, lastIdx, lastTerm);
      nextIdx, matchIdx := map[], map[];
      var i := 0;
      NoPeers(peers, nodeId, lastIdx + 1);
      NoPeers(peers, nodeId, 0);
      while i < |peers|
        invariant 0 <= i <= |peers| && role == Leader && leader == nodeId
        invariant nextIdx == Uniform(peers[..i], nodeId, lastIdx + 1)
        invariant matchIdx == Uniform(peers[..i], nodeId, 0)
      {
        OneMorePeer(peers, i, nodeId, lastIdx + 1);
        OneMorePeer(peers, i, nodeId, 0);
        if peers[i] != nodeId {
          nextIdx := nextIdx[peers[i] := lastIdx + 1];
          matchIdx := matchIdx[peers[i] := 0];
        }
        i := i + 1;
      }
      assert peers[..i] == peers;
    }

    lemma NoPeers(peers: seq<NodeId>, self: NodeId, value: int)
      ensures Uniform(peers[..0], self, value) == map[]
    {
    }

    lemma OneMorePeer(peers: seq<NodeId>, i: nat, self: NodeId, value: int)
      requires i < |peers|
      ensures Uniform(peers[..i + 1], self, value) ==
        if peers[i] == self then Uniform(peers[..i], self, value) else Uniform(peers[..i], self, value)[peers[i] := value]
    {
      assert peers[..i + 1][..i] == peers[..i];
    }

    method Demote()
      modifies this`role, this`leader
      ensures State() == StepDown(old(State()))
      ensures role.Follower? && leader == "" && currentTerm == old(currentTerm)
    {
      role, leader := Follower, "";
    }

    // ----- the apply loop -----------------------------------------------------------------------

    method Advanced(index: int)
      modifies this`lastApplied, this`applyErr, this`applyErrIndex
      ensures Applying() == Advance(old(Applying()), index)
    {
      lastApplied := index;
      if applyErr.Some? && applyErrIndex <= lastApplied {
        applyErr, applyErrIndex := None, 0;
      }
    }

    /** One committed row: look its event up, apply, record, advance. */
    method ApplyOne(e: Entry, fault: Fault) returns (go: bool)
      requires store.Valid()
      modifies store, this`lastApplied, this`applyErr, this`applyErrIndex, this`trace
      ensures store.Valid()
      ensures (Applying(), go) == ApplyRow(store.env, old(Applying()), e, fault)
    {
      hide Apply, Blank, SchemaOk, Ignorable;
      var seen := store.HasAppliedEvent(e.eventId, fault.LookupFails?);
      if seen.None? { return false; }
      if !seen.value {
        var error := ApplyEntry(store, e.command);
        if error.Some? && !Ignorable(e.command, error.value) {
          applyErr, applyErrIndex := error, e.index;
          return false;
        }
        var recorded := store.RecordAppliedEvent(e.eventId, e.index, fault.RecordFails?);
        if !recorded { return false; }
        trace := trace + [e];
      }
      Advanced(e.index);
      return true;
    }

    /** `due` lists the committed rows not yet applied. */
    method ApplyCommitted(faults: seq<Fault>) returns (ghost due: seq<Entry>)
      requires store.Valid()
      modifies store, this`lastApplied, this`applyErr, this`applyErrIndex, this`trace
      ensures store.Valid()
      ensures if commitIndex <= old(lastApplied) then due == [] else IsScan(rows, old(lastApplied) + 1, commitIndex, due)
      ensures Applying() == ApplyRows(store.env, old(Applying()), due, faults)
    {
      hide ApplyRow, IsScan, SchemaOk;
      due := [];
      if commitIndex <= lastApplied { return; }
      var pending := Select(lastApplied + 1, commitIndex);
      due := pending;
      var i, rest := 0, faults;
      while i < |pending|
        invariant 0 <= i <= |pending| && store.Valid()
        invariant ApplyRows(store.env, Applying(), pending[i..], rest) == ApplyRows(store.env, old(Applying()), pending, faults)
      {
        assert pending[i..][1..] == pending[i + 1..];
        var go := ApplyOne(pending[i], FaultAt(rest, 0));
        if !go { return; }
        i, rest := i + 1, if rest == [] then [] else rest[1..];
      }
    }
  }
}
