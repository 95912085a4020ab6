/** Runs of the cluster, from any fresh state, that show what does and does not hold. */
module Instances {
  import opened Commands
  import opened Quorum
  import opened Raft
  import opened Cluster
  import opened LogMatching
  import opened Commitment

  // ----- what each event does --------------------------------------------------------------------

  lemma Stands(s: State, evs: seq<Event>, n: NodeId) returns (next: State)
    requires IsRun(s, evs) && n in After(s, evs).nodes && !After(s, evs).nodes[n].role.Leader?
    ensures var ev := ElectionStart(n);
      IsRun(s, evs + [ev]) && next == After(s, evs + [ev])
    ensures var now := After(s, evs);
      next == now.(nodes := now.nodes[n := StartElection(now.nodes[n])])
  {
    hide IsRun, After;
    OneMore(s, evs, ElectionStart(n));
    next := Next(After(s, evs), ElectionStart(n));
  }

  lemma Wins(s: State, evs: seq<Event>, n: NodeId, known: seq<NodeId>) returns (next: State)
    requires IsRun(s, evs) && n in After(s, evs).nodes && After(s, evs).nodes[n].currentTerm >= 1
    ensures var ev := ElectionWin(n, known);
      IsRun(s, evs + [ev]) && next == After(s, evs + [ev])
    ensures var now := After(s, evs);
            var won := WinElection(now.nodes[n], ActivePeers(known, now.nodes[n].id), |now.nodes[n].log|);
      && next.nodes == now.nodes[n := won] && next.led == now.led + {(now.nodes[n].currentTerm, n)}
      && next.net == now.net && next.issued == now.issued
  {
    hide IsRun, After, ActivePeers, WinElection;
    OneMore(s, evs, ElectionWin(n, known));
    next := Next(After(s, evs), ElectionWin(n, known));
    assert WinElection(After(s, evs).nodes[n], ActivePeers(known, After(s, evs).nodes[n].id), |After(s, evs).nodes[n].log|).currentTerm
      == After(s, evs).nodes[n].currentTerm by { WinKeepsTerm(After(s, evs).nodes[n], ActivePeers(known, After(s, evs).nodes[n].id)); }
  }

  lemma WinKeepsTerm(r: Replica, peers: seq<NodeId>)
    ensures WinElection(r, peers, |r.log|).currentTerm == r.currentTerm
  {
  }

  lemma Asked(s: State, evs: seq<Event>, n: NodeId, vote: VoteReq) returns (next: State)
    requires IsRun(s, evs) && n in After(s, evs).nodes
    ensures var ev := RequestVote(n, vote);
      IsRun(s, evs + [ev]) && next == After(s, evs + [ev])
    ensures var now := After(s, evs);
      next.nodes == now.nodes[n := HandleVote(now.nodes[n], vote).0] && next.led == now.led
  {
    hide IsRun, After, HandleVote;
    OneMore(s, evs, RequestVote(n, vote));
    next := Next(After(s, evs), RequestVote(n, vote));
  }

  lemma Proposes(s: State, evs: seq<Event>, n: NodeId, eventId: string) returns (next: State)
    requires IsRun(s, evs) && n in After(s, evs).nodes
    requires After(s, evs).nodes[n].role.Leader? && eventId !in After(s, evs).issued
    ensures var ev := ClientCommand(n, eventId, Unsupported(""));
      IsRun(s, evs + [ev]) && next == After(s, evs + [ev])
    ensures var now := After(s, evs);
      && next.nodes == now.nodes[n := Propose(now.nodes[n], eventId, Unsupported(""))]
      && next.led == now.led + {(now.nodes[n].currentTerm, n)}
      && next.net == now.net && next.issued.Keys == now.issued.Keys + {eventId}
  {
    hide IsRun, After;
    OneMore(s, evs, ClientCommand(n, eventId, Unsupported("")));
    next := Next(After(s, evs), ClientCommand(n, eventId, Unsupported("")));
  }

  /** What a leader sends in its current term; `beat` chooses a heartbeat. */
  function Sending(r: Replica, peer: NodeId, commit: int, beat: bool): Event {
    if beat then Heartbeat(r.id, peer, r.currentTerm, commit, |r.log|)
    else Replicate(r.id, peer, r.currentTerm, commit, |r.log|)
  }

  lemma Sends(s: State, evs: seq<Event>, n: NodeId, peer: NodeId, commit: int, beat: bool) returns (next: State, p: Packet)
    requires IsRun(s, evs) && n in After(s, evs).nodes && After(s, evs).nodes[n].id == n
    requires After(s, evs).nodes[n].role.Leader? && n != peer
    ensures var r := After(s, evs).nodes[n];
            var ev := Sending(r, peer, commit, beat);
      IsRun(s, evs + [ev]) && next == After(s, evs + [ev]) && p == SentBy(r, ev)
    ensures var now := After(s, evs);
      && next.nodes == now.nodes && next.led == now.led + {(now.nodes[n].currentTerm, n)}
      && next.net == now.net + {p} && next.issued == now.issued
  {
    hide IsRun, After, SentBy;
    var now := After(s, evs);
    var ev := Sending(now.nodes[n], peer, commit, beat);
    p := SentBy(now.nodes[n], ev);
    OneMore(s, evs, ev);
    next := Next(now, ev);
  }

  lemma Arrives(s: State, evs: seq<Event>, p: Packet) returns (next: State)
    requires IsRun(s, evs) && p.dst in After(s, evs).nodes && p in After(s, evs).net
    ensures IsRun(s, evs + [Deliver(p)]) && next == After(s, evs + [Deliver(p)])
    ensures var now := After(s, evs);
      && next == now.(nodes := now.nodes[p.dst := HandleAppend(now.nodes[p.dst], p.req).0])
  {
    hide IsRun, After, HandleAppend;
    OneMore(s, evs, Deliver(p));
    next := Next(After(s, evs), Deliver(p));
  }

  lemma Credited(s: State, evs: seq<Event>, n: NodeId, peer: NodeId, term: int, last: int, resp: AppendResp) returns (next: State)
    requires IsRun(s, evs) && n in After(s, evs).nodes
    ensures var ev := Reply(n, peer, term, last, resp);
      IsRun(s, evs + [ev]) && next == After(s, evs + [ev])
    ensures var now := After(s, evs);
      next == now.(nodes := now.nodes[n := OnReply(now.nodes[n], peer, term, last, resp)])
  {
    hide IsRun, After, OnReply;
    OneMore(s, evs, Reply(n, peer, term, last, resp));
    next := Next(After(s, evs), Reply(n, peer, term, last, resp));
  }

  lemma CommitsAt(s: State, evs: seq<Event>, n: NodeId, known: seq<NodeId>) returns (next: State)
    requires IsRun(s, evs) && n in After(s, evs).nodes
    ensures var ev := CommitStep(n, known);
      IsRun(s, evs + [ev]) && next == After(s, evs + [ev])
    ensures var now := After(s, evs);
      next == now.(nodes := now.nodes[n := Recalculate(now.nodes[n], known, |now.nodes[n].log|)])
  {
    hide IsRun, After, Recalculate;
    OneMore(s, evs, CommitStep(n, known));
    next := Next(After(s, evs), CommitStep(n, known));
  }

  // ----- leaders ------------------------------------------------------------------------------------

  /** Two nodes can lead term 1: the tally stops neither. */
  lemma TwoLeadersInOneTerm(s: State, a: NodeId, b: NodeId, known: seq<NodeId>) returns (evs: seq<Event>)
    requires Init(s) && a in s.nodes && b in s.nodes && a != b
    ensures IsRun(s, evs) && !OneLeaderPerTerm(After(s, evs))
  {
    evs := [];
    var s1 := Stands(s, evs, a);
    evs := evs + [ElectionStart(a)];
    var s2 := Wins(s, evs, a, known);
    evs := evs + [ElectionWin(a, known)];
    hide IsRun, After, ActivePeers, WinElection;
    var s3 := Stands(s, evs, b);
    evs := evs + [ElectionStart(b)];
    var s4 := Wins(s, evs, b, known);
    evs := evs + [ElectionWin(b, known)];
    assert (1, a) in s4.led && (1, b) in s4.led;
  }

  /** The ordinary handover is no such case: a leads, b stands for the next term and wins it with
      the vote of a, who is raised to that term and still believes itself leader. */
  lemma HandoverHasOneLeaderPerTerm(s: State, a: NodeId, b: NodeId, known: seq<NodeId>) returns (evs: seq<Event>)
    requires Init(s) && a in s.nodes && b in s.nodes && a != b
    ensures IsRun(s, evs) && OneLeaderPerTerm(After(s, evs))
    ensures var end := After(s, evs);
      && a in end.nodes && b in end.nodes && end.nodes[a].role.Leader? && end.nodes[b].role.Leader?
      && end.nodes[a].currentTerm == end.nodes[b].currentTerm == 2
  {
    evs := [];
    var s1 := Stands(s, evs, a);
    evs := evs + [ElectionStart(a)];
    var s2 := Wins(s, evs, a, known);
    evs := evs + [ElectionWin(a, known)];
    hide IsRun, After, ActivePeers;
    var s3 := Stands(s, evs, b);
    evs := evs + [ElectionStart(b)];
    var s4 := Stands(s, evs, b);
    evs := evs + [ElectionStart(b)];
    var ask := VoteReq(2, b, 0, 0, false);
    var s5 := Asked(s, evs, a, ask);
    evs := evs + [RequestVote(a, ask)];
    var s6 := Wins(s, evs, b, known);
    evs := evs + [ElectionWin(b, known)];
    assert s6.led == {(1, a), (2, b)};
  }

  // ----- a late request --------------------------------------------------------------------------

  function E1(): Entry { Entry(1, 1, "x", Unsupported("")) }

  function E2(): Entry { Entry(1, 2, "y", Unsupported("")) }

  function Fresh(n: NodeId): Replica { NewNode(n, []) }

  /** Node a with what it has learnt about b. */
  function LeaderA(a: NodeId, b: NodeId, log: seq<Entry>, commit: int, next: int, matched: int): Replica {
    Node(a, 1, "", commit, 0, Leader, a, log, map[b := next], map[b := matched])
  }

  function FollowerB(a: NodeId, b: NodeId, log: seq<Entry>, commit: int): Replica {
    Node(b, 1, "", commit, 0, Follower, a, log, map[], map[])
  }

  function Ask(a: NodeId, prev: int, entries: seq<Entry>, commit: int): AppendReq {
    AppendReq(1, a, prev, if prev == 0 then 0 else 1, entries, commit)
  }

  lemma LeaderValues(a: NodeId, b: NodeId)
    requires a != b && b != "" && b != "node-unknown"
    ensures WinElection(StartElection(Fresh(a)), ActivePeers([b], a), 0) == LeaderA(a, b, [], 0, 1, 0)
    ensures Propose(LeaderA(a, b, [], 0, 1, 0), "x", Unsupported("")) == LeaderA(a, b, [E1()], 0, 1, 0)
    ensures Propose(LeaderA(a, b, [E1()], 0, 1, 0), "y", Unsupported("")) == LeaderA(a, b, [E1(), E2()], 0, 1, 0)
    ensures SentBy(LeaderA(a, b, [E1()], 0, 1, 0), Replicate(a, b, 1, 0, 1)) == Packet(b, Ask(a, 0, [E1()], 0), [E1()])
    ensures SentBy(LeaderA(a, b, [E1(), E2()], 0, 1, 0), Replicate(a, b, 1, 0, 2))
      == Packet(b, Ask(a, 0, [E1(), E2()], 0), [E1(), E2()])
    ensures SentBy(LeaderA(a, b, [E1(), E2()], 2, 3, 2), Heartbeat(a, b, 1, 2, 2)).req == Ask(a, 2, [], 2)
    ensures SentBy(LeaderA(a, b, [E1(), E2()], 2, 3, 2), Heartbeat(a, b, 1, 2, 2)).dst == b
  {
    assert [b][1..] == [];
    assert ActivePeers([b], a) == [b];
    OnePeerTable(a, b, 1);
    OnePeerTable(a, b, 0);
    assert [E1()][0..] == [E1()] && [E1(), E2()][0..] == [E1(), E2()];
    assert Propose(LeaderA(a, b, [], 0, 1, 0), "x", Unsupported("")).log == [E1()];
    assert Propose(LeaderA(a, b, [E1()], 0, 1, 0), "y", Unsupported("")).log == [E1(), E2()];
  }

  lemma OnePeerTable(a: NodeId, b: NodeId, value: int)
    requires a != b
    ensures Uniform([b], a, value) == map[b := value]
  {
    assert [b][..0] == [];
    assert Uniform([b][..0], a, value) == map[];
  }

  lemma FollowerValues(a: NodeId, b: NodeId)
    ensures HandleAppend(Fresh(b), Ask(a, 0, [E1(), E2()], 0)) == (FollowerB(a, b, [E1(), E2()], 0), AppendResp(1, true, 2))
    ensures HandleAppend(FollowerB(a, b, [E1(), E2()], 0), Ask(a, 2, [], 2)).0 == FollowerB(a, b, [E1(), E2()], 2)
    ensures HandleAppend(FollowerB(a, b, [E1(), E2()], 2), Ask(a, 0, [E1()], 0)).0 == FollowerB(a, b, [E1()], 2)
  {
    assert Splice([], 0, [E1(), E2()]) == [E1(), E2()];
    assert Splice([E1(), E2()], 0, [E1()]) == [E1()];
    assert TermAt([E1(), E2()], 2) == 1;
    hide Splice, TermAt;
  }

  lemma CommitValues(a: NodeId, b: NodeId)
    requires a != b && b != "" && b != "node-unknown"
    ensures OnReply(LeaderA(a, b, [E1(), E2()], 0, 1, 0), b, 1, 2, AppendResp(1, true, 2)) == LeaderA(a, b, [E1(), E2()], 0, 3, 2)
    ensures Recalculate(LeaderA(a, b, [E1(), E2()], 0, 3, 2), [b], 2) == LeaderA(a, b, [E1(), E2()], 2, 3, 2)
  {
    assert map[b := 1][b := 3] == map[b := 3] && map[b := 0][b := 2] == map[b := 2];
    var r := LeaderA(a, b, [E1(), E2()], 0, 3, 2);
    assert [b][1..] == [];
    assert ActivePeers([b], a) == [b];
    assert MatchIndexes(r, []) == [] && MatchFor(r, b) == 2;
    assert MatchIndexes(r, [b]) == [2] + MatchIndexes(r, []);
    var idxs := [2] + MatchIndexes(r, ActivePeers([b], r.id));
    MajorityIndexIsMember(idxs);
    assert idxs == [2, 2] && MajorityIndex(idxs) == 2;
    hide MajorityIndex, MatchIndexes, ActivePeers;
  }

  lemma Elected(s: State, a: NodeId, b: NodeId) returns (evs: seq<Event>)
    requires Init(s) && a in s.nodes && b in s.nodes && a != b && b != "" && b != "node-unknown"
    ensures IsRun(s, evs) && a in After(s, evs).nodes && b in After(s, evs).nodes
    ensures var now := After(s, evs);
      && now.nodes[a] == LeaderA(a, b, [], 0, 1, 0) && now.nodes[b] == Fresh(b)
      && now.led == {(1, a)} && now.issued == map[]
  {
    LeaderValues(a, b);
    hide IsRun, After, ActivePeers, WinElection, SentBy, Propose;
    evs := [];
    var s1 := Stands(s, evs, a);
    evs := evs + [ElectionStart(a)];
    var s2 := Wins(s, evs, a, [b]);
    evs := evs + [ElectionWin(a, [b])];
  }

  /** A first proposal, sent to b. */
  lemma OneSent(s: State, a: NodeId, b: NodeId) returns (evs: seq<Event>, early: Packet)
    requires Init(s) && a in s.nodes && b in s.nodes && a != b && b != "" && b != "node-unknown"
    ensures IsRun(s, evs) && a in After(s, evs).nodes && b in After(s, evs).nodes
    ensures var now := After(s, evs);
      && now.nodes[a] == LeaderA(a, b, [E1()], 0, 1, 0) && now.nodes[b] == Fresh(b)
      && now.led == {(1, a)} && early in now.net && "y" !in now.issued
    ensures early == Packet(b, Ask(a, 0, [E1()], 0), [E1()])
  {
    LeaderValues(a, b);
    hide IsRun, After, SentBy, Propose, Init, Ask, WinElection, StartElection;
    evs := Elected(s, a, b);
    var s3 := Proposes(s, evs, a, "x");
    evs := evs + [ClientCommand(a, "x", Unsupported(""))];
    var s4, p1 := Sends(s, evs, a, b, 0, false);
    evs := evs + [Replicate(a, b, 1, 0, 1)];
    early := p1;
  }

  /** Two proposals, each sent to b when it was appended. */
  lemma TwoSent(s: State, a: NodeId, b: NodeId) returns (evs: seq<Event>, early: Packet, later: Packet)
    requires Init(s) && a in s.nodes && b in s.nodes && a != b && b != "" && b != "node-unknown"
    ensures IsRun(s, evs) && a in After(s, evs).nodes && b in After(s, evs).nodes
    ensures var now := After(s, evs);
      && now.nodes[a] == LeaderA(a, b, [E1(), E2()], 0, 1, 0) && now.nodes[b] == Fresh(b)
      && now.led == {(1, a)} && early in now.net && later in now.net
    ensures early == Packet(b, Ask(a, 0, [E1()], 0), [E1()]) && later == Packet(b, Ask(a, 0, [E1(), E2()], 0), [E1(), E2()])
  {
    LeaderValues(a, b);
    hide IsRun, After, SentBy, Propose, Init, Ask;
    evs, early := OneSent(s, a, b);
    var s5 := Proposes(s, evs, a, "y");
    evs := evs + [ClientCommand(a, "y", Unsupported(""))];
    var s6, p2 := Sends(s, evs, a, b, 0, false);
    evs := evs + [Replicate(a, b, 1, 0, 2)];
    later := p2;
  }

  /** The later request is delivered and answered. */
  lemma LaterDelivered(s: State, a: NodeId, b: NodeId) returns (evs: seq<Event>, late: Packet)
    requires Init(s) && a in s.nodes && b in s.nodes && a != b && b != "" && b != "node-unknown"
    ensures IsRun(s, evs) && a in After(s, evs).nodes && b in After(s, evs).nodes
    ensures var now := After(s, evs);
      && now.nodes[a] == LeaderA(a, b, [E1(), E2()], 0, 3, 2) && now.nodes[b] == FollowerB(a, b, [E1(), E2()], 0)
      && now.led == {(1, a)} && late in now.net
    ensures late == Packet(b, Ask(a, 0, [E1()], 0), [E1()])
  {
    FollowerValues(a, b);
    CommitValues(a, b);
    hide IsRun, After, HandleAppend, OnReply, LeaderA, FollowerB, Ask, Init;
    var p;
    evs, late, p := TwoSent(s, a, b);
    var s7 := Arrives(s, evs, p);
    evs := evs + [Deliver(p)];
    var s8 := Credited(s, evs, a, b, 1, 2, AppendResp(1, true, 2));
    evs := evs + [Reply(a, b, 1, 2, AppendResp(1, true, 2))];
  }

  /** Both entries are committed, and a heartbeat takes the commit index to b. */
  lemma BothCommitted(s: State, a: NodeId, b: NodeId) returns (evs: seq<Event>, late: Packet)
    requires Init(s) && a in s.nodes && b in s.nodes && a != b && b != "" && b != "node-unknown"
    ensures IsRun(s, evs) && b in After(s, evs).nodes && After(s, evs).nodes[b] == FollowerB(a, b, [E1(), E2()], 2)
    ensures After(s, evs).led == {(1, a)} && late in After(s, evs).net && late == Packet(b, Ask(a, 0, [E1()], 0), [E1()])
  {
    LeaderValues(a, b);
    FollowerValues(a, b);
    CommitValues(a, b);
    hide IsRun, After, HandleAppend, Recalculate, SentBy, FollowerB, Ask, Init;
    evs, late := LaterDelivered(s, a, b);
    var s9 := CommitsAt(s, evs, a, [b]);
    evs := evs + [CommitStep(a, [b])];
    var s10, beat := Sends(s, evs, a, b, 2, true);
    evs := evs + [Heartbeat(a, b, 1, 2, 2)];
    var s11 := Arrives(s, evs, beat);
    evs := evs + [Deliver(beat)];
  }

  /** Two requests to one peer overtake each other: the later one is delivered, answered and
      committed, and the commit reaches the follower; then the earlier one arrives and takes the
      committed entry away, leaving the follower's commit index beyond its log. */
  lemma LateRequestShrinks(s: State, a: NodeId, b: NodeId) returns (evs: seq<Event>, late: Packet)
    requires Init(s) && a in s.nodes && b in s.nodes && a != b && b != "" && b != "node-unknown"
    ensures IsRun(s, evs) && b in After(s, evs).nodes && After(s, evs).nodes[b] == FollowerB(a, b, [E1(), E2()], 2)
    ensures IsRun(s, evs + [Deliver(late)]) && OneLeaderPerTerm(After(s, evs + [Deliver(late)]))
    ensures var end := After(s, evs + [Deliver(late)]);
      b in end.nodes && end.nodes[b] == FollowerB(a, b, [E1()], 2)
    ensures var (before, after) := (After(s, evs).nodes[b], After(s, evs + [Deliver(late)]).nodes[b]);
      !(before.log[..before.commitIndex] <= after.log) && after.commitIndex > |after.log|
  {
    FollowerValues(a, b);
    LateValues(a, b);
    hide IsRun, After, HandleAppend, FollowerB, Ask, Init, Spares, CoversCommit, Cluster.Inv;
    evs, late := BothCommitted(s, a, b);
    RunKeepsInv(s, evs);
    DeliverySparesIff(After(s, evs), late);
    CommitStaysCoveredIff(After(s, evs), late);
    var end := Arrives(s, evs, late);
  }

  lemma LateValues(a: NodeId, b: NodeId)
    ensures var (r, req) := (FollowerB(a, b, [E1(), E2()], 2), Ask(a, 0, [E1()], 0));
      r.commitIndex == 2 == |r.log| && !Spares(r, req) && !CoversCommit(r, req)
  {
  }

  // ----- a winner without a committed entry -------------------------------------------------------

  /** A leader that knows no peers commits alone. */
  lemma CommitsAlone(s: State, a: NodeId, b: NodeId) returns (evs: seq<Event>)
    requires Init(s) && a in s.nodes && b in s.nodes && a != b && b != "" && b != "node-unknown"
    ensures IsRun(s, evs) && a in After(s, evs).nodes && b in After(s, evs).nodes
    ensures var now := After(s, evs);
      && now.nodes[a] == LeaderA(a, b, [E1()], 1, 1, 0) && now.nodes[b] == Fresh(b) && now.led == {(1, a)}
  {
    LeaderValues(a, b);
    AloneValues(a, b);
    hide IsRun, After, Propose, Init, WinElection, Recalculate;
    evs := Elected(s, a, b);
    var s3 := Proposes(s, evs, a, "x");
    evs := evs + [ClientCommand(a, "x", Unsupported(""))];
    var s4 := CommitsAt(s, evs, a, []);
    evs := evs + [CommitStep(a, [])];
  }

  /** A leader commits alone, then b stands twice and may win, without the
      committed entry, in a term nobody has led, every cursor in order. */
  lemma WinnerLacksCommitted(s: State, a: NodeId, b: NodeId, known: seq<NodeId>) returns (evs: seq<Event>)
    requires Init(s) && a in s.nodes && b in s.nodes && a != b && b != "" && b != "node-unknown"
    ensures IsRun(s, evs + [ElectionWin(b, known)]) && OneLeaderPerTerm(After(s, evs + [ElectionWin(b, known)]))
    ensures IsRun(s, evs) && a in After(s, evs).nodes && b in After(s, evs).nodes
    ensures var now := After(s, evs);
      && (forall p :: p in now.led ==> p.0 < now.nodes[b].currentTerm)
      && CursorsOk(now.nodes[a]) && CursorsOk(now.nodes[b])
      && !(now.nodes[a].log[..now.nodes[a].commitIndex] <= now.nodes[b].log)
  {
    hide IsRun, After, Init, WinElection;
    evs := CommitsAlone(s, a, b);
    var s5 := Stands(s, evs, b);
    evs := evs + [ElectionStart(b)];
    var s6 := Stands(s, evs, b);
    evs := evs + [ElectionStart(b)];
    var s7 := Wins(s, evs, b, known);
  }

  lemma AloneValues(a: NodeId, b: NodeId)
    ensures Recalculate(LeaderA(a, b, [E1()], 0, 1, 0), [], 1) == LeaderA(a, b, [E1()], 1, 1, 0)
  {
    var r := LeaderA(a, b, [E1()], 0, 1, 0);
    var idxs := [1] + MatchIndexes(r, ActivePeers([], r.id));
    assert idxs == [1];
    MajorityIndexIsMember(idxs);
    hide MajorityIndex;
  }
}
