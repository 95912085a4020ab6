/** The node as it runs, with its log in the raft_log table, and its refinement of the
    sequence-log node on every reachable step. */
module TableNode {
  import opened Commands
  import opened Raft
  import opened LogTable
  import opened Cluster
  import opened LogMatching

  type TableReplica = Node<Rows>

  // ----- queries as functions ---------------------------------------------------------------

  lemma {:induction false} LastExists(rows: Rows) returns (last: Entry)
    requires rows != {}
    ensures last in rows && forall q | q in rows :: q.index <= last.index
    decreases rows
  {
    last :| last in rows;
    if rows != {last} {
      assert rows - {last} != {};
      var other := LastExists(rows - {last});
      if other.index > last.index { last := other; }
    }
  }

  ghost function RowTermAt(rows: Rows, i: int): (term: int)
    ensures IsTermAt(rows, i, term)
  {
    if r :| r in rows && i > 0 && r.index == i then r.term else 0
  }

  ghost function RowLast(rows: Rows): (last: (int, int))
    ensures IsLast(rows, last.0, last.1)
  {
    if rows == {} then (0, 0)
    else
      assert exists r :: r in rows && forall q | q in rows :: q.index <= r.index by { var r := LastExists(rows); }
      var r :| r in rows && forall q | q in rows :: q.index <= r.index;
      (r.index, r.term)
  }

  // ----- transitions over rows ----------------------------------------------------------------

  ghost function TableAppend(n: TableReplica, req: AppendReq): (TableReplica, AppendResp) {
    Append(n, req, RowTermAt(n.log, req.prevIndex), DeleteFrom(n.log, req.prevIndex), WriteAll(n.log, req.entries))
  }

  ghost function TableVote(n: TableReplica, req: VoteReq): (TableReplica, VoteResp) {
    var (index, term) := RowLast(n.log);
    Vote(n, req, index, term)
  }

  /** The index is one past the greatest in the table, the term is the node's. */
  ghost function TablePropose(n: TableReplica, eventId: string, command: Command): TableReplica {
    n.(log := InsertOrReplace(n.log, Entry(n.currentTerm, RowLast(n.log).0 + 1, eventId, command)))
  }

  ghost function TableAct(n: TableReplica, ev: Event): TableReplica {
    match ev
    case ElectionStart(_) => StartElection(n)
    case ElectionWin(_, known) => WinElection(n, ActivePeers(known, n.id), RowLast(n.log).0)
    case RequestVote(_, vote) => TableVote(n, vote).0
    case ClientCommand(_, eventId, command) => TablePropose(n, eventId, command)
    case Replicate(_, _, _, _, _) => n
    case Heartbeat(_, _, _, _, _) => n
    case Deliver(packet) => TableAppend(n, packet.req).0
    case Reply(_, peer, sentTerm, lastIndex, resp) => OnReply(n, peer, sentTerm, lastIndex, resp)
    case HeartbeatReply(_, sentTerm, replyTerm) => ObserveTerm(n, sentTerm, replyTerm)
    case Demote(_) => StepDown(n)
    case CommitStep(_, known) => Recalculate(n, known, RowLast(n.log).0)
    case Apply(_, upTo) => n.(lastApplied := upTo)
  }

  /** What the replication path may build for a peer out of the table, by the last index its
      broadcast read. */
  ghost predicate MayBuild(n: TableReplica, peer: NodeId, commit: int, last: int, req: AppendReq) {
    var next := NextFor(n, peer, last);
    && req.term == n.currentTerm && req.leaderId == n.id && req.leaderCommit == commit
    && req.prevIndex == (if next > last then last else next - 1)
    && IsTermAt(n.log, req.prevIndex, req.prevTerm)
    && if next > last then req.entries == [] else IsSuffix(n.log, next, req.entries)
  }

  // ----- refinement ---------------------------------------------------------------------------

  function WithLog<L, M>(n: Node<L>, log: M): Node<M> {
    Node(n.id, n.currentTerm, n.votedFor, n.commitIndex, n.lastApplied, n.role, n.leader, log, n.nextIdx, n.matchIdx)
  }

  ghost predicate Refines(n: TableReplica, r: Replica) {
    WithLog(n, r.log) == r && Represents(n.log, r.log)
  }

  datatype Outcome = Refused | RolledBack | Written

  /** Which of its three ends a request reaches. */
  function OutcomeOf<L>(n: Node<L>, req: AppendReq, found: int): Outcome {
    if req.term < n.currentTerm then Refused
    else if req.prevIndex > 0 && found != req.prevTerm then RolledBack
    else Written
  }

  /** The handler treats the log as a black box: it returns it, its cut, or its extension. */
  lemma AppendIsUniform(n: TableReplica, r: Replica, req: AppendReq, found: int,
                        cut: Rows, extended: Rows, cutLog: seq<Entry>, extendedLog: seq<Entry>)
    requires WithLog(n, r.log) == r
    ensures var a := Append(n, req, found, cut, extended);
            var b := Append(r, req, found, cutLog, extendedLog);
      && WithLog(a.0, b.0.log) == b.0 && a.1 == b.1
      && match OutcomeOf(n, req, found)
         case Refused => a.0.log == n.log && b.0.log == r.log && !b.1.success
         case RolledBack => a.0.log == cut && b.0.log == cutLog && !b.1.success
         case Written => a.0.log == extended && b.0.log == extendedLog && b.1.success
  {
    var m := Adopt(n, req);
    assert WithLog(m, r.log) == Adopt(r, req) && m.log == n.log;
    hide Adopt, LastSent;
  }

  /** The table's handler does what the sequence's does, whenever the entries it may write are
      numbered from the previous index and reuse no event id of the part that is kept. */
  lemma AppendRefines(n: TableReplica, r: Replica, req: AppendReq)
    requires Refines(n, r)
    requires 0 <= req.prevIndex && forall i :: 0 <= i < |req.entries| ==> req.entries[i].index == req.prevIndex + 1 + i
    requires HandleAppend(r, req).1.success && req.entries != [] ==>
      req.prevIndex <= |r.log| && DistinctEvents(r.log[..req.prevIndex] + req.entries)
    ensures Refines(TableAppend(n, req).0, HandleAppend(r, req).0)
    ensures TableAppend(n, req).1 == HandleAppend(r, req).1
  {
    var found := TermAt(r.log, req.prevIndex);
    TermAtMatches(n.log, r.log, req.prevIndex, RowTermAt(n.log, req.prevIndex));
    DeleteMatches(n.log, r.log, req.prevIndex);
    AppendIsUniform(n, r, req, found, DeleteFrom(n.log, req.prevIndex), WriteAll(n.log, req.entries),
                    Cut(r.log, req.prevIndex), Splice(r.log, req.prevIndex, req.entries));
    if OutcomeOf(n, req, found).Written? {
      if req.entries != [] {
        WriteAllMatches(n.log, r.log, req.prevIndex, req.entries);
      }
      assert Represents(WriteAll(n.log, req.entries), Splice(r.log, req.prevIndex, req.entries));
    }
    hide Represents, Append, Cut, Splice, WriteAll, DeleteFrom;
  }

  /** Whatever row the handler's lookup finds, the outcome is the same. */
  lemma HandlerRefines(n: TableReplica, r: Replica, req: AppendReq, found: int)
    requires Refines(n, r) && IsTermAt(n.log, req.prevIndex, found)
    requires 0 <= req.prevIndex && forall i :: 0 <= i < |req.entries| ==> req.entries[i].index == req.prevIndex + 1 + i
    requires HandleAppend(r, req).1.success && req.entries != [] ==>
      req.prevIndex <= |r.log| && DistinctEvents(r.log[..req.prevIndex] + req.entries)
    ensures var (after, resp) := Append(n, req, found, DeleteFrom(n.log, req.prevIndex), WriteAll(n.log, req.entries));
      Refines(after, HandleAppend(r, req).0) && resp == HandleAppend(r, req).1
  {
    TermAtMatches(n.log, r.log, req.prevIndex, found);
    TermAtMatches(n.log, r.log, req.prevIndex, RowTermAt(n.log, req.prevIndex));
    AppendRefines(n, r, req);
    hide Append, HandleAppend, Refines, WriteAll, DeleteFrom, IsTermAt;
  }

  lemma VoterRefines(n: TableReplica, r: Replica, vote: VoteReq, index: int, term: int)
    requires Refines(n, r) && IsLast(n.log, index, term)
    ensures Refines(Vote(n, vote, index, term).0, HandleVote(r, vote).0)
    ensures Vote(n, vote, index, term).1 == HandleVote(r, vote).1
  {
    LastMatches(n.log, r.log, index, term);
    VoteIsUniform(n, r, vote, index, term);
    hide Vote, Represents, IsLast;
  }

  lemma BuildRefines(n: TableReplica, r: Replica, peer: NodeId, commit: int, last: int, req: AppendReq)
    requires Refines(n, r) && 0 <= last <= |r.log|
    ensures MayBuild(n, peer, commit, last, req) <==> req == BuildAppend(r, peer, commit, last)
  {
    hide Represents, IsTermAt, IsSuffix;
    TermAtMatches(n.log, r.log, req.prevIndex, req.prevTerm);
    var next := NextFor(r, peer, last);
    assert next == NextFor(n, peer, last);
    if next <= last {
      SuffixMatches(n.log, r.log, next, req.entries);
    }
  }

  lemma ProposeRefines(n: TableReplica, r: Replica, eventId: string, command: Command)
    requires Refines(n, r)
    requires forall i :: 0 <= i < |r.log| ==> r.log[i].eventId != eventId
    ensures Refines(TablePropose(n, eventId, command), Propose(r, eventId, command))
  {
    LastMatches(n.log, r.log, RowLast(n.log).0, RowLast(n.log).1);
    AppendRow(n.log, r.log, Entry(n.currentTerm, |r.log| + 1, eventId, command));
  }

  lemma HistoryDistinct(s: State, t: int)
    requires Inv(s) && t in s.history
    ensures DistinctEvents(s.history[t])
  {
    var log := s.history[t];
    forall i, j | 0 <= i < j < |log| ensures log[i].eventId != log[j].eventId {
      assert log[i].index == i + 1 && log[j].index == j + 1;
    }
  }

  /** Entries of a sent request are numbered from its previous index, and what an accepting
      receiver ends up with has distinct event ids. */
  lemma SentEntries(s: State, p: Packet)
    requires Inv(s) && OneLeaderPerTerm(s) && Enabled(s, Deliver(p))
    ensures 0 <= p.req.prevIndex
    ensures forall i :: 0 <= i < |p.req.entries| ==> p.req.entries[i].index == p.req.prevIndex + 1 + i
    ensures var r := s.nodes[p.dst];
      HandleAppend(r, p.req).1.success && p.req.entries != [] ==>
      p.req.prevIndex <= |r.log| && DistinctEvents(r.log[..p.req.prevIndex] + p.req.entries)
  {
    var r := s.nodes[p.dst];
    var req := p.req;
    assert NodeOk(s, p.dst) && PacketOk(s, p);
    SentLogOk(s, p);
    HandleShape(r, req);
    SentIndexes(p.sentLog, req.term, req.prevIndex);
    hide Inv, NodeOk, OneLeaderPerTerm, HandleAppend, Covered, WellFormed, DistinctEvents;
    if HandleAppend(r, req).1.success && req.entries != [] {
      AcceptedLog(r.log, p.sentLog, s.history, req.prevIndex);
      assert r.log[..req.prevIndex] + req.entries == p.sentLog;
      HistoryDistinct(s, req.term);
      DistinctPrefix(p.sentLog, s.history[req.term]);
    }
  }

  lemma SentIndexes(sent: seq<Entry>, term: int, prev: int)
    requires WellFormed(sent, term) && 0 <= prev <= |sent|
    ensures forall i :: 0 <= i < |sent[prev..]| ==> sent[prev..][i].index == prev + 1 + i
  {
  }

  lemma DistinctPrefix(part: seq<Entry>, log: seq<Entry>)
    requires DistinctEvents(log) && part <= log
    ensures DistinctEvents(part)
  {
  }

  lemma DeliverRefines(s: State, p: Packet, n: TableReplica)
    requires Inv(s) && OneLeaderPerTerm(s) && Enabled(s, Deliver(p))
    requires Refines(n, s.nodes[p.dst])
    ensures Refines(TableAppend(n, p.req).0, HandleAppend(s.nodes[p.dst], p.req).0)
  {
    SentEntries(s, p);
    hide *;
    AppendRefines(n, s.nodes[p.dst], p.req);
  }

  lemma NewEventId(s: State, n: NodeId, eventId: string)
    requires Inv(s) && n in s.nodes && eventId !in s.issued
    ensures forall i :: 0 <= i < |s.nodes[n].log| ==> s.nodes[n].log[i].eventId != eventId
  {
    var log := s.nodes[n].log;
    assert NodeOk(s, n);
    forall i | 0 <= i < |log| ensures log[i].eventId != eventId {
      assert CoveredAt(log, s.history, i);
      assert s.history[log[i].term][i] == log[..i + 1][i];
    }
  }

  lemma ActRefines(s: State, ev: Event, n: TableReplica)
    requires Inv(s) && OneLeaderPerTerm(s) && Enabled(s, ev)
    requires Refines(n, s.nodes[Actor(ev)])
    ensures Refines(TableAct(n, ev), Act(s.nodes[Actor(ev)], ev))
  {
    var r := s.nodes[Actor(ev)];
    if ev.Deliver? {
      DeliverRefines(s, ev.packet, n);
    } else if ev.ClientCommand? {
      NewEventId(s, ev.node, ev.eventId);
      ProposeRefines(n, r, ev.eventId, ev.command);
    } else {
      QuietActRefines(n, r, ev);
    }
    hide Inv, OneLeaderPerTerm, Refines, HandleAppend, TableAppend, TablePropose, HandleVote, TableVote, Recalculate, RowLast;
  }

  lemma QuietActRefines(n: TableReplica, r: Replica, ev: Event)
    requires Refines(n, r) && !ev.Deliver? && !ev.ClientCommand?
    ensures Refines(TableAct(n, ev), Act(r, ev))
  {
    hide Represents, IsLast, RowLast, Recalculate, ActivePeers, Vote, WinElection, OnReply;
    var (index, term) := RowLast(n.log);
    LastMatches(n.log, r.log, index, term);
    match ev
    case RequestVote(_, vote) => VoteIsUniform(n, r, vote, index, term);
    case ElectionWin(_, known) => WinIsUniform(n, r, ActivePeers(known, n.id), index);
    case Reply(_, peer, sentTerm, lastIndex, resp) => ReplyIsUniform(n, r, peer, sentTerm, lastIndex, resp);
    case CommitStep(_, known) => RecalculateRefines(n, r, known);
    case _ =>
  }

  lemma VoteIsUniform(n: TableReplica, r: Replica, vote: VoteReq, index: int, term: int)
    requires WithLog(n, r.log) == r
    ensures var a, b := Vote(n, vote, index, term), Vote(r, vote, index, term);
      WithLog(a.0, b.0.log) == b.0 && a.1 == b.1 && a.0.log == n.log && b.0.log == r.log
  {
    hide Outdated;
  }

  lemma WinIsUniform(n: TableReplica, r: Replica, peers: seq<NodeId>, last: int)
    requires WithLog(n, r.log) == r
    ensures var a, b := WinElection(n, peers, last), WinElection(r, peers, last);
      WithLog(a, b.log) == b && a.log == n.log && b.log == r.log
  {
    var a, b := WinElection(n, peers, last), WinElection(r, peers, last);
    assert a.nextIdx == b.nextIdx && a.matchIdx == b.matchIdx;
  }

  lemma ReplyIsUniform(n: TableReplica, r: Replica, peer: NodeId, sentTerm: int, last: int, resp: AppendResp)
    requires WithLog(n, r.log) == r
    ensures var a, b := OnReply(n, peer, sentTerm, last, resp), OnReply(r, peer, sentTerm, last, resp);
      WithLog(a, b.log) == b && a.log == n.log && b.log == r.log
  {
  }

  lemma RecalculateRefines(n: TableReplica, r: Replica, known: seq<NodeId>)
    requires Refines(n, r)
    ensures Refines(Recalculate(n, known, |r.log|), Recalculate(r, known, |r.log|))
  {
    SameMatchIndexes(n, r, ActivePeers(known, n.id));
  }

  lemma {:induction false} SameMatchIndexes(n: TableReplica, r: Replica, peers: seq<NodeId>)
    requires n.matchIdx == r.matchIdx
    ensures MatchIndexes(n, peers) == MatchIndexes(r, peers)
  {
    if peers != [] { SameMatchIndexes(n, r, peers[1..]); }
  }

  // ----- whole runs ---------------------------------------------------------------------------

  /** The tables of all nodes, moved by the same events. */
  ghost function TableRun(s: State, evs: seq<Event>): map<NodeId, TableReplica>
    requires IsRun(s, evs)
    ensures TableRun(s, evs).Keys == s.nodes.Keys
    decreases |evs|
  {
    if evs == [] then map n | n in s.nodes :: NewNode(n, {})
    else
      var before := evs[..|evs| - 1];
      var ev := evs[|evs| - 1];
      NodesStay(s, before);
      var tables := TableRun(s, before);
      tables[Actor(ev) := TableAct(tables[Actor(ev)], ev)]
  }

  lemma StepRefines(s: State, ev: Event, tables: map<NodeId, TableReplica>, n: NodeId)
    requires Inv(s) && OneLeaderPerTerm(s) && Enabled(s, ev) && tables.Keys == s.nodes.Keys
    requires n in s.nodes && Refines(tables[n], s.nodes[n])
    ensures Actor(ev) in tables && n in Next(s, ev).nodes
    ensures Refines(tables[Actor(ev) := TableAct(tables[Actor(ev)], ev)][n], Next(s, ev).nodes[n])
  {
    hide Inv, OneLeaderPerTerm, Refines, Act, TableAct, Next;
    NextNodes(s, ev);
    if n == Actor(ev) {
      ActRefines(s, ev, tables[n]);
    }
  }

  /** On every reachable step each node's rows are one per index over exactly 1..n, standing
      for the log the protocol reasons about, and all its other fields agree. */
  lemma {:induction false} TablesRefineLogs(s: State, evs: seq<Event>, n: NodeId)
    requires Init(s) && IsRun(s, evs) && OneLeaderPerTerm(After(s, evs)) && n in s.nodes
    ensures n in After(s, evs).nodes && Refines(TableRun(s, evs)[n], After(s, evs).nodes[n])
    decreases |evs|
  {
    NodesStay(s, evs);
    if evs != [] {
      var before := evs[..|evs| - 1];
      var ev := evs[|evs| - 1];
      NodesStay(s, before);
      LedGrows(After(s, before), ev);
      hide Refines, Next, Inv, OneLeaderPerTerm, TableAct, Enabled, Init;
      TablesRefineLogs(s, before, n);
      RunKeepsInv(s, before);
      StepRefines(After(s, before), ev, TableRun(s, before), n);
    }
  }
}
