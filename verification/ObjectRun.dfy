/** The node object driven through a run of the cluster: every event is one method call, and the
    object is at every step the table node the refinement speaks of. */
module ObjectRun {
  import opened Commands
  import opened Raft
  import opened LogTable
  import opened TableNode
  import opened ConsensusNode
  import opened Cluster
  import opened LogMatching

  /** One event of this node. */
  method Perform(node: Consensus, ev: Event, ghost log: seq<Entry>)
    requires Represents(node.rows, log)
    modifies node
    ensures node.State() == TableAct(old(node.State()), ev)
    ensures old(node.applyErr).None? ==> node.applyErr.None?
  {
    hide Represents, WriteAll, DeleteFrom, Recalculate, OnReply, WinElection, Vote, Append, IsTermAt, IsLast, ActivePeers;
    ghost var n := node.State();
    match ev {
      case ElectionStart(_) => node.BeginElection();
      case ElectionWin(_, known) =>
        var peers := node.Active(known);
        node.BecomeLeader(peers);
      case RequestVote(_, vote) =>
        var resp, index, term := node.HandleRequestVote(vote);
        LastIsRowLast(n.log, log, index, term);
      case ClientCommand(_, eventId, command) =>
        var next := node.NextIndex();
        node.AppendLog(Entry(node.currentTerm, next, eventId, command));
      case Deliver(packet) =>
        var resp, found := node.HandleAppendEntries(packet.req);
        FoundIsRowTerm(n.log, log, packet.req.prevIndex, found);
      case Reply(_, peer, sentTerm, lastIndex, resp) => node.OnAppendReply(peer, sentTerm, lastIndex, resp);
      case HeartbeatReply(_, sentTerm, replyTerm) => node.OnTerm(sentTerm, replyTerm);
      case Demote(_) => node.Demote();
      case CommitStep(_, known) => node.RecalculateCommitIndex(known);
      case Apply(_, upTo) => node.Advanced(upTo);
      case Replicate(_, _, _, _, _) =>
      case Heartbeat(_, _, _, _, _) =>
    }
  }

  lemma FoundIsRowTerm(rows: Rows, log: seq<Entry>, i: int, found: int)
    requires Represents(rows, log) && IsTermAt(rows, i, found)
    ensures found == RowTermAt(rows, i)
  {
    TermAtMatches(rows, log, i, found);
    TermAtMatches(rows, log, i, RowTermAt(rows, i));
  }

  lemma LastIsRowLast(rows: Rows, log: seq<Entry>, index: int, term: int)
    requires Represents(rows, log) && IsLast(rows, index, term)
    ensures (index, term) == RowLast(rows)
  {
    LastMatches(rows, log, index, term);
    LastMatches(rows, log, RowLast(rows).0, RowLast(rows).1);
  }

  lemma {:induction false} PrefixIsRun(s: State, evs: seq<Event>, i: nat)
    requires IsRun(s, evs) && i <= |evs| && OneLeaderPerTerm(After(s, evs))
    ensures IsRun(s, evs[..i]) && OneLeaderPerTerm(After(s, evs[..i]))
    decreases |evs|
  {
    if i == |evs| {
      assert evs[..i] == evs;
    } else {
      var before := evs[..|evs| - 1];
      LedGrows(After(s, before), evs[|evs| - 1]);
      hide Next, Enabled, OneLeaderPerTerm;
      PrefixIsRun(s, before, i);
      assert before[..i] == evs[..i];
    }
  }

  /** A node object that performs its own events of a run ends as the run's table node, so its
      rows stand for the log of the protocol model and its other fields agree. */
  method PerformAll(node: Consensus, n: NodeId, evs: seq<Event>, ghost s: State)
    requires Init(s) && n in s.nodes && node.State() == NewNode(n, {})
    requires IsRun(s, evs) && OneLeaderPerTerm(After(s, evs))
    modifies node
    ensures node.State() == TableRun(s, evs)[n]
    ensures old(node.applyErr).None? ==> node.applyErr.None?
    ensures n in After(s, evs).nodes && Refines(node.State(), After(s, evs).nodes[n])
  {
    hide Refines, TableAct, Next, Enabled, Init, OneLeaderPerTerm;
    var i := 0;
    assert evs[..0] == [];
    assert TableRun(s, [])[n] == NewNode(n, {});
    while i < |evs|
      invariant 0 <= i <= |evs| && IsRun(s, evs[..i])
      invariant node.State() == TableRun(s, evs[..i])[n]
      invariant old(node.applyErr).None? ==> node.applyErr.None?
    {
      PrefixIsRun(s, evs, i);
      PrefixIsRun(s, evs, i + 1);
      TablesRefineLogs(s, evs[..i], n);
      assert evs[..i + 1][..i] == evs[..i];
      if Actor(evs[i]) == n {
        ghost var log := After(s, evs[..i]).nodes[n].log;
        RefinesMeans(node.State(), After(s, evs[..i]).nodes[n]);
        Perform(node, evs[i], log);
      }
      NextTables(s, evs, i, n);
      i := i + 1;
    }
    assert evs[..i] == evs;
    TablesRefineLogs(s, evs, n);
  }

  lemma RefinesMeans(t: TableReplica, r: Replica)
    requires Refines(t, r)
    ensures Represents(t.log, r.log)
  {
  }

  lemma NextTables(s: State, evs: seq<Event>, i: nat, n: NodeId)
    requires i < |evs| && IsRun(s, evs[..i]) && IsRun(s, evs[..i + 1]) && n in s.nodes
    ensures TableRun(s, evs[..i + 1])[n] ==
      if Actor(evs[i]) == n then TableAct(TableRun(s, evs[..i])[n], evs[i]) else TableRun(s, evs[..i])[n]
  {
    assert evs[..i + 1][..i] == evs[..i];
    hide TableAct, Next, Enabled;
  }
}
