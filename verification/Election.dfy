/** The election tally, which never refuses. */
module Election {
  import opened Quorum
  import opened Raft
  import opened LogTable
  import opened TableNode
  import opened ConsensusNode

  /** What the candidate's wait receives next. */
  datatype Arrival = Reply(ok: bool) | Timeout

  function ArrivalAt(arrivals: seq<Arrival>, i: nat): Arrival {
    if i < |arrivals| then arrivals[i] else Timeout
  }

  /** The degraded mode for small clusters, when the only vote is the candidate's own. */
  predicate Degraded(votes: nat, peers: nat, reachable: nat) {
    votes == 1 && peers > 0 && (reachable == 2 || reachable == 3)
  }

  /** A majority of the peers heard from, the candidate included, or the degraded mode. */
  predicate Enough(votes: nat, peers: nat, reachable: nat) {
    votes >= Majority(reachable) || Degraded(votes, peers, reachable)
  }

  /** The outcome from a point of the count on. */
  function Outcome(peers: nat, votes: nat, reachable: nat, arrivals: seq<Arrival>, i: nat): bool
    decreases peers - i
  {
    if i >= peers then Enough(votes, peers, reachable)
    else
      match ArrivalAt(arrivals, i)
      case Timeout => Enough(votes, peers, reachable)
      case Reply(ok) =>
        var now := if ok then votes + 1 else votes;
        Enough(now, peers, reachable + 1) || Outcome(peers, now, reachable + 1, arrivals, i + 1)
  }

  /** Count the replies as they come, against a majority of those heard from. */
  method Tally(peers: nat, arrivals: seq<Arrival>) returns (won: bool)
    ensures won == Outcome(peers, 1, 1, arrivals, 0)
  {
    hide Enough;
    var votes, reachable, i := 1, 1, 0;
    while i < peers
      invariant 0 <= i <= peers
      invariant Outcome(peers, votes, reachable, arrivals, i) == Outcome(peers, 1, 1, arrivals, 0)
    {
      match ArrivalAt(arrivals, i) {
        case Reply(ok) =>
          reachable := reachable + 1;
          if ok { votes := votes + 1; }
          if Enough(votes, peers, reachable) { return true; }
        case Timeout => return Enough(votes, peers, reachable);
      }
      i := i + 1;
    }
    return Enough(votes, peers, reachable);
  }

  /** The candidate wins on whatever arrives first, a refusal or the timeout included: the first
      reply makes two nodes heard from, and its own vote alone is then enough. */
  lemma TallyNeverRefuses(peers: nat, arrivals: seq<Arrival>)
    ensures Outcome(peers, 1, 1, arrivals, 0)
  {
    if peers > 0 && ArrivalAt(arrivals, 0).Reply? {
      assert Enough(2, peers, 2) && Enough(1, peers, 2);
    }
  }

  /** A request that reaches the candidate while it waits. */
  datatype Call = VoteCall(vote: VoteReq) | AppendCall(req: AppendReq)

  ghost predicate Served(n: TableReplica, call: Call, after: TableReplica) {
    match call
    case VoteCall(vote) => exists index, term :: IsLast(n.log, index, term) && after == Vote(n, vote, index, term).0
    case AppendCall(req) =>
      var (cut, extended) := (DeleteFrom(n.log, req.prevIndex), WriteAll(n.log, req.entries));
      exists found :: IsTermAt(n.log, req.prevIndex, found) && after == Append(n, req, found, cut, extended).0
  }

  ghost predicate AllServed(states: seq<TableReplica>, calls: seq<Call>) {
    |states| == |calls| + 1 && forall i :: 0 <= i < |calls| ==> Served(states[i], calls[i], states[i + 1])
  }

  method Serve(node: Consensus, call: Call)
    modifies node
    ensures Served(old(node.State()), call, node.State())
  {
    hide Vote, Append, IsLast, IsTermAt, DeleteFrom, WriteAll;
    match call {
      case VoteCall(vote) => var resp, index, term := node.HandleRequestVote(vote);
      case AppendCall(req) => var resp, found := node.HandleAppendEntries(req);
    }
  }

  method ServeAll(node: Consensus, calls: seq<Call>) returns (ghost states: seq<TableReplica>)
    modifies node
    ensures AllServed(states, calls) && states[0] == old(node.State()) && states[|calls|] == node.State()
  {
    hide Served;
    states := [node.State()];
    var i := 0;
    while i < |calls|
      invariant 0 <= i <= |calls| && AllServed(states, calls[..i])
      invariant states[0] == old(node.State()) && states[i] == node.State()
    {
      Serve(node, calls[i]);
      states := states + [node.State()];
      i := i + 1;
    }
    assert calls[..i] == calls;
  }

  lemma {:induction false} ServingKeepsTerm(states: seq<TableReplica>, calls: seq<Call>)
    requires AllServed(states, calls)
    ensures states[0].id == states[|calls|].id && states[0].currentTerm <= states[|calls|].currentTerm
    decreases |calls|
  {
    if calls != [] {
      var k := |calls| - 1;
      ServingKeepsTerm(states[..k + 1], calls[..k]);
      OneServed(states[k], calls[k], states[k + 1]);
    }
  }

  lemma OneServed(n: TableReplica, call: Call, after: TableReplica)
    requires Served(n, call, after)
    ensures after.id == n.id && n.currentTerm <= after.currentTerm
  {
    hide IsLast, IsTermAt, DeleteFrom, WriteAll, Vote, Append;
    match call
    case VoteCall(vote) =>
      var index, term :| after == Vote(n, vote, index, term).0;
      VoteRaisesTerm(n, vote, index, term);
    case AppendCall(req) =>
      var (cut, extended) := (DeleteFrom(n.log, req.prevIndex), WriteAll(n.log, req.entries));
      var found :| after == Append(n, req, found, cut, extended).0;
      AppendRaisesTerm(n, req, found, cut, extended);
  }

  lemma VoteRaisesTerm(n: TableReplica, vote: VoteReq, index: int, term: int)
    ensures var after := Vote(n, vote, index, term).0; after.id == n.id && n.currentTerm <= after.currentTerm
  {
  }

  lemma AppendRaisesTerm(n: TableReplica, req: AppendReq, found: int, cut: Rows, extended: Rows)
    ensures var after := Append(n, req, found, cut, extended).0; after.id == n.id && n.currentTerm <= after.currentTerm
  {
  }

  /** An election that got past the pre-vote.  Requests are served while the candidate waits; role
      and term are not looked at again, so whoever voted and whatever it has heard of meanwhile,
      it leads the term it is in when the count ends. */
  method StartElection(node: Consensus, known: seq<NodeId>, calls: seq<Call>, arrivals: seq<Arrival>)
    returns (ghost states: seq<TableReplica>)
    modifies node
    ensures AllServed(states, calls) && states[0] == Raft.StartElection(old(node.State()))
    ensures node.State() == WinElection(states[|calls|], ActivePeers(known, node.nodeId), RowLast(node.rows).0)
    ensures node.role.Leader? && node.leader == node.nodeId && node.currentTerm >= old(node.currentTerm) + 1
    ensures calls == [] ==> node.currentTerm == old(node.currentTerm) + 1 && node.votedFor == old(node.votedFor)
  {
    hide Served, RowLast, ActivePeers;
    node.BeginElection();
    var peers := node.Active(known);
    states := ServeAll(node, calls);
    ServingKeepsTerm(states, calls);
    var won := Tally(|peers|, arrivals);
    TallyNeverRefuses(|peers|, arrivals);
    if won { node.BecomeLeader(peers); }
  }
}
