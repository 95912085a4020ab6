/** What a leadership guarantees: sound match indexes, committed prefixes that never disagree,
    cursors that never roll back, and commits backed by a majority. */
module Commitment {
  import opened Commands
  import opened Raft
  import opened Quorum
  import opened Leadership
  import Cluster
  import LogMatching

  // ----- where a leadership starts ---------------------------------------------------------

  ghost predicate CursorsOk(r: Replica) {
    0 <= r.lastApplied <= r.commitIndex <= |r.log|
  }

  /** A node that wins a term newer than any in which a leader has acted, with every node's
      committed prefix in its log and every node's cursors in order within its own, starts a
      leadership in which the invariant holds: Log Matching supplies the rest. */
  lemma ElectionStartsLeadership(s: Cluster.State, n: NodeId, known: seq<NodeId>, w: World)
    requires Cluster.Inv(s) && n in s.nodes && s.nodes[n].currentTerm >= 1
    requires forall p :: p in s.led ==> p.0 < s.nodes[n].currentTerm
    requires forall m :: m in s.nodes ==>
      CursorsOk(s.nodes[m]) && s.nodes[m].log[..s.nodes[m].commitIndex] <= s.nodes[n].log
    requires w == World(Cluster.Act(s.nodes[n], Cluster.ElectionWin(n, known)), s.nodes - {n}, {}, {}, s.nodes[n].currentTerm)
    ensures Inv(w)
  {
    assert Cluster.NodeOk(s, n);
    hide FollowerOk, SharesPrefix, MatchOk;
    forall m | m in w.peers ensures FollowerOk(w, m, w.peers[m]) && MatchOk(w, m) {
      WinnersFollower(s, n, known, w, m);
    }
  }

  lemma WinnersFollower(s: Cluster.State, n: NodeId, known: seq<NodeId>, w: World, m: NodeId)
    requires Cluster.Inv(s) && n in s.nodes && m in s.nodes && m != n
    requires forall p :: p in s.led ==> p.0 < s.nodes[n].currentTerm
    requires CursorsOk(s.nodes[m]) && s.nodes[m].log[..s.nodes[m].commitIndex] <= s.nodes[n].log
    requires w == World(Cluster.Act(s.nodes[n], Cluster.ElectionWin(n, known)), s.nodes - {n}, {}, {}, s.nodes[n].currentTerm)
    ensures m in w.peers && FollowerOk(w, m, w.peers[m]) && MatchOk(w, m)
  {
    hide ActivePeers, Cluster.HistoryOk, Cluster.PacketOk, Cluster.EventsOk;
    assert Cluster.NodeOk(s, n) && Cluster.NodeOk(s, m);
    var log := s.nodes[m].log;
    CoveredLogsAgree(log, w.leader.log, s.history);
    forall i | 0 <= i < |log| ensures log[i].term < w.since {
      TermWasLed(s, m, i);
    }
  }

  lemma TermWasLed(s: Cluster.State, m: NodeId, i: int)
    requires Cluster.Inv(s) && m in s.nodes && 0 <= i < |s.nodes[m].log|
    ensures exists p :: p in s.led && p.0 == s.nodes[m].log[i].term
  {
    assert Cluster.NodeOk(s, m) && Cluster.CoveredAt(s.nodes[m].log, s.history, i);
  }

  /** Log Matching also supplies what a leadership needs to know of the requests that older leaders
      have sent or still send, heartbeats included: only what they commit has to be assumed. */
  lemma OlderPacketsAgree(s: Cluster.State, p: Cluster.Packet, n: NodeId, w: World)
    requires Cluster.Inv(s) && p in s.net && p.dst in s.nodes && n in s.nodes
    requires w.leader == s.nodes[n] && p.req.term < w.since
    ensures OlderRequest(w, s.nodes[p.dst], p.req, p.sentLog)
  {
    assert Cluster.PacketOk(s, p) && Cluster.NodeOk(s, n) && Cluster.NodeOk(s, p.dst);
    var sent := p.sentLog;
    LogMatching.SentLogOk(s, p);
    CoveredLogsAgree(sent, s.nodes[n].log, s.history);
    CoveredLogsAgree(s.nodes[p.dst].log, sent, s.history);
    hide Cluster.Inv, Cluster.Covered, Agree;
  }

  lemma CoveredLogsAgree(a: seq<Entry>, b: seq<Entry>, history: map<int, seq<Entry>>)
    requires Cluster.Covered(a, history) && Cluster.Covered(b, history)
    ensures Agree(a, b)
  {
    forall i | 1 <= i <= |a| && i <= |b| && a[i - 1].term == b[i - 1].term ensures a[..i] == b[..i] {
      Cluster.AgreeThrough(a, b, history, i);
    }
  }

  // ----- match indexes ----------------------------------------------------------------------

  /** Throughout a leadership, whatever is lost, a follower's log agrees with the leader's
      through its match index. */
  lemma MatchIndexIsSound(w: World, evs: seq<Event>, p: NodeId)
    requires Inv(w) && IsRun(w, evs) && p in After(w, evs).peers
    ensures var end := After(w, evs);
            var m := MatchFor(end.leader, p);
      && 0 <= m <= |end.peers[p].log| && m <= |end.leader.log|
      && end.peers[p].log[..m] == end.leader.log[..m]
  {
    RunKeepsInv(w, evs);
    assert MatchOk(After(w, evs), p);
  }

  /** The request an event delivers, if it delivers one. */
  ghost predicate Delivers(w: World, ev: Event, p: NodeId, req: AppendReq) {
    match ev
    case Rpc(q, term, commit, last, fate) => q == p && !fate.Lost? && req == Request(w, p, term, commit, last)
    case BeatArrives(q, beat) => q == p && req == beat
    case _ => false
  }

  lemma DeliveredFromLeader(w: World, ev: Event, p: NodeId, req: AppendReq)
    requires Inv(w) && Enabled(w, ev) && Delivers(w, ev, p, req)
    ensures p in w.peers && FromLeader(w, req) && FollowerOk(w, p, w.peers[p]) && MatchOk(w, p)
    ensures Next(w, ev).peers[p] == HandleAppend(w.peers[p], req).0
  {
    if ev.BeatArrives? {
      BeatIsOk(w, (p, req));
    } else {
      BuiltFromLeader(w, p, ev.term, ev.commit, ev.last);
    }
  }

  /** No rejection cuts a follower's log at or below its match index or its commit index. */
  lemma NoRejectionCutsBelowMatch(w: World, ev: Event, p: NodeId, req: AppendReq)
    requires Inv(w) && Enabled(w, ev) && Delivers(w, ev, p, req)
    requires p in w.peers && !HandleAppend(w.peers[p], req).1.success
    ensures var after := Next(w, ev).peers[p];
            var m := MatchFor(w.leader, p);
      && m <= |after.log| && after.log[..m] == w.peers[p].log[..m]
      && w.peers[p].commitIndex <= |after.log|
      && after.log[..w.peers[p].commitIndex] == w.peers[p].log[..w.peers[p].commitIndex]
  {
    DeliveredFromLeader(w, ev, p, req);
    HandleKeepsFollower(w, p, w.peers[p], req);
    assert Holds(w, w.peers[p], MatchFor(w.leader, p)) && Holds(w, w.peers[p], w.peers[p].commitIndex);
  }

  /** Once anything has been proposed, a successful reply reports an index of at least the last one
      the broadcast read: the branch that assumes that one is never taken, nor is the one that
      finds nothing to send. */
  lemma FallbackUnreached(w: World, p: NodeId, term: int, commit: int, last: int)
    requires Inv(w) && p in w.peers && MaySend(w, term, commit, last) && last > 0
    ensures var req := Request(w, p, term, commit, last);
            var resp := HandleAppend(w.peers[p], req).1;
      && (resp.success ==> 0 < last <= resp.matchIndex <= |w.leader.log|)
      && (NextFor(w.leader, p, last) <= last ==> req.entries != [])
  {
    BuiltFromLeader(w, p, term, commit, last);
    PeerIsOk(w, p);
    HandleKeepsFollower(w, p, w.peers[p], Request(w, p, term, commit, last));
  }

  // ----- commit indexes ---------------------------------------------------------------------

  function Min(a: int, b: int): int { if a < b then a else b }

  function Max(a: int, b: int): int { if a < b then b else a }

  /** A follower takes the leader's commit index as it comes, without the clamp of Figure 2 of
      the Raft paper; within a leadership the clamp would change nothing. */
  lemma ClampChangesNothing(w: World, ev: Event, p: NodeId, req: AppendReq)
    requires Inv(w) && Enabled(w, ev) && Delivers(w, ev, p, req)
    ensures req.leaderCommit <= req.prevIndex + |req.entries| == LastSent(req)
    ensures p in w.peers && (HandleAppend(w.peers[p], req).1.success ==>
      Next(w, ev).peers[p].commitIndex == Max(w.peers[p].commitIndex, Min(req.leaderCommit, LastSent(req))))
  {
    DeliveredFromLeader(w, ev, p, req);
    SentCoversCommit(w, req);
    AcceptedCommitClamped(w.peers[p], req);
    hide Inv, FollowerOk, FromLeader, MatchOk, Next, Enabled, Delivers, HandleAppend, LastSent;
  }

  lemma AcceptedCommitClamped(r: Replica, req: AppendReq)
    requires req.leaderCommit <= LastSent(req)
    ensures HandleAppend(r, req).1.success ==>
      HandleAppend(r, req).0.commitIndex == Max(r.commitIndex, Min(req.leaderCommit, LastSent(req)))
  {
    hide TermAt, Cut, Splice, LastSent;
  }

  lemma SentCoversCommit(w: World, req: AppendReq)
    requires LeaderOk(w) && FromLeader(w, req)
    ensures req.leaderCommit <= req.prevIndex + |req.entries| == LastSent(req)
  {
    if req.entries != [] {
      assert req.entries[|req.entries| - 1] == w.leader.log[|w.leader.log| - 1];
    }
  }

  /** Neither the leader's nor any follower's commit or apply cursor ever falls: the rollback
      on a mismatch never fires. */
  lemma CursorsNeverFall(w: World, ev: Event, p: NodeId)
    requires Inv(w) && Enabled(w, ev) && p in w.peers
    ensures p in Next(w, ev).peers
    ensures w.leader.commitIndex <= Next(w, ev).leader.commitIndex
    ensures w.leader.lastApplied <= Next(w, ev).leader.lastApplied
    ensures w.peers[p].commitIndex <= Next(w, ev).peers[p].commitIndex
    ensures w.peers[p].lastApplied <= Next(w, ev).peers[p].lastApplied
  {
    LeaderCursorsRise(w, ev);
    PeerCursorsRise(w, ev, p);
    hide Next, Enabled, Inv;
  }

  lemma LeaderCursorsRise(w: World, ev: Event)
    requires Inv(w) && Enabled(w, ev)
    ensures w.leader.commitIndex <= Next(w, ev).leader.commitIndex && w.leader.lastApplied <= Next(w, ev).leader.lastApplied
  {
    hide HandleAppend, FollowerOk, FromLeader, MatchOk, BeatOk, Request, BuildEmpty, OlderRequest, CommitsSafely,
         MaySend;
  }

  predicate OnPeer(ev: Event) {
    ev.Rpc? || ev.BeatArrives? || ev.PeerApplies? || ev.PeerVotes? || ev.PeerStands? || ev.Straggle?
  }

  lemma OthersStay(w: World, ev: Event, p: NodeId)
    requires Enabled(w, ev) && p in w.peers && (OnPeer(ev) ==> ev.peer != p)
    ensures p in Next(w, ev).peers && Next(w, ev).peers[p] == w.peers[p]
  {
    hide HandleAppend, HandleVote, OnReply, Request, BuildEmpty, ObserveTerm, Recalculate, FollowerOk, MaySend,
         OlderRequest, CommitsSafely;
  }

  lemma PeerCursorsRise(w: World, ev: Event, p: NodeId)
    requires Inv(w) && Enabled(w, ev) && p in w.peers
    ensures p in Next(w, ev).peers
    ensures w.peers[p].commitIndex <= Next(w, ev).peers[p].commitIndex
    ensures w.peers[p].lastApplied <= Next(w, ev).peers[p].lastApplied
  {
    if OnPeer(ev) && ev.peer == p {
      MovedCursorsRise(w, ev);
    } else {
      OthersStay(w, ev, p);
    }
    hide Next, Enabled, Inv;
  }

  lemma MovedCursorsRise(w: World, ev: Event)
    requires Inv(w) && Enabled(w, ev) && OnPeer(ev)
    ensures ev.peer in w.peers && ev.peer in Next(w, ev).peers
    ensures w.peers[ev.peer].commitIndex <= Next(w, ev).peers[ev.peer].commitIndex
    ensures w.peers[ev.peer].lastApplied <= Next(w, ev).peers[ev.peer].lastApplied
  {
    hide HandleAppend, OnReply, Request, FollowerOk, FromLeader, MatchOk, OlderRequest, CommitsSafely, MaySend;
    if ev.Rpc? && !ev.fate.Lost? {
      var req := Request(w, ev.peer, ev.term, ev.commit, ev.last);
      DeliveredFromLeader(w, ev, ev.peer, req);
      CursorsRise(w, ev.peer, req);
    } else if ev.BeatArrives? {
      DeliveredFromLeader(w, ev, ev.peer, ev.beat);
      CursorsRise(w, ev.peer, ev.beat);
    } else if ev.Straggle? {
      PeerIsOk(w, ev.peer);
      OlderKeepsFollower(w, ev.peer, w.peers[ev.peer], ev.req, ev.sent);
    }
  }

  lemma CursorsRise(w: World, p: NodeId, req: AppendReq)
    requires Inv(w) && p in w.peers && FromLeader(w, req)
    ensures var after := HandleAppend(w.peers[p], req).0;
      w.peers[p].commitIndex <= after.commitIndex && w.peers[p].lastApplied <= after.lastApplied
  {
    PeerIsOk(w, p);
    HandleKeepsFollower(w, p, w.peers[p], req);
  }

  ghost function NodeOf(w: World, n: NodeId): Replica
    requires n == w.leader.id || n in w.peers
  {
    if n == w.leader.id then w.leader else w.peers[n]
  }

  ghost function Committed(w: World, n: NodeId): seq<Entry>
    requires n == w.leader.id || n in w.peers
  {
    var r := NodeOf(w, n);
    if 0 <= r.commitIndex <= |r.log| then r.log[..r.commitIndex] else r.log
  }

  /** Throughout a leadership every committed prefix is a prefix of the leader's log, so any two
      of them agree as far as both reach. */
  lemma CommittedPrefixesAgree(w: World, evs: seq<Event>, a: NodeId, b: NodeId)
    requires Inv(w) && IsRun(w, evs)
    requires var end := After(w, evs); (a == end.leader.id || a in end.peers) && (b == end.leader.id || b in end.peers)
    ensures var end := After(w, evs);
      && |Committed(end, a)| == NodeOf(end, a).commitIndex
      && Committed(end, a) <= end.leader.log && Committed(end, b) <= end.leader.log
      && (Committed(end, a) <= Committed(end, b) || Committed(end, b) <= Committed(end, a))
  {
    var end := After(w, evs);
    RunKeepsInv(w, evs);
    CommittedInLeader(end, a);
    CommittedInLeader(end, b);
  }

  lemma CommittedInLeader(w: World, n: NodeId)
    requires Inv(w) && (n == w.leader.id || n in w.peers)
    ensures Committed(w, n) <= w.leader.log && |Committed(w, n)| == NodeOf(w, n).commitIndex
  {
    if n != w.leader.id {
      assert FollowerOk(w, n, w.peers[n]);
    }
  }

  // ----- quorum -----------------------------------------------------------------------------

  predicate Distinct(s: seq<NodeId>) {
    forall i, j :: 0 <= i < j < |s| ==> s[i] != s[j]
  }

  /** The peers whose match index reaches i. */
  ghost function Reaching(r: Replica, peers: seq<NodeId>, i: int): set<NodeId> {
    set p | p in peers && MatchFor(r, p) >= i
  }

  lemma ReachingStep(r: Replica, p: NodeId, rest: seq<NodeId>, i: int)
    ensures Reaching(r, [p] + rest, i) == Reaching(r, rest, i) + (if MatchFor(r, p) >= i then {p} else {})
    ensures p !in rest ==> p !in Reaching(r, rest, i)
  {
    hide MatchFor;
  }

  lemma CountStep(r: Replica, p: NodeId, rest: seq<NodeId>, i: int)
    ensures CountAtLeast(MatchIndexes(r, [p] + rest), i) ==
            CountAtLeast(MatchIndexes(r, rest), i) + if MatchFor(r, p) >= i then 1 else 0
  {
    hide MatchFor;
    assert ([p] + rest)[1..] == rest;
    assert MatchIndexes(r, [p] + rest)[1..] == MatchIndexes(r, rest);
  }

  lemma {:induction false} ReachingCount(r: Replica, peers: seq<NodeId>, i: int)
    requires Distinct(peers)
    ensures |Reaching(r, peers, i)| == CountAtLeast(MatchIndexes(r, peers), i)
  {
    if peers != [] {
      var rest := peers[1..];
      RestIsDistinct(peers);
      ReachingCount(r, rest, i);
      ReachingStep(r, peers[0], rest, i);
      CountStep(r, peers[0], rest, i);
      assert peers == [peers[0]] + rest;
      hide MatchFor, Reaching, MatchIndexes, CountAtLeast, Distinct;
    }
  }

  lemma RestIsDistinct(s: seq<NodeId>)
    requires Distinct(s) && s != []
    ensures Distinct(s[1..]) && s[0] !in s[1..]
  {
    forall i, j | 0 <= i < j < |s[1..]| ensures s[1..][i] != s[1..][j] {
      assert s[i + 1] != s[j + 1];
    }
  }

  lemma {:induction false} ActiveIsDistinct(known: seq<NodeId>, self: NodeId)
    requires Distinct(known)
    ensures Distinct(ActivePeers(known, self)) && self !in ActivePeers(known, self)
    ensures forall p :: p in ActivePeers(known, self) <==> p in known && p != "" && p != self && p != "node-unknown"
  {
    if known != [] {
      var rest := known[1..];
      RestIsDistinct(known);
      ActiveIsDistinct(rest, self);
      assert known == [known[0]] + rest;
      PrependKeepsDistinct(known[0], ActivePeers(rest, self));
    }
  }

  lemma PrependKeepsDistinct(x: NodeId, s: seq<NodeId>)
    requires Distinct(s)
    ensures x !in s ==> Distinct([x] + s)
  {
  }

  lemma {:induction false} MatchIndexesLength(r: Replica, peers: seq<NodeId>)
    ensures |MatchIndexes(r, peers)| == |peers|
  {
    if peers != [] { MatchIndexesLength(r, peers[1..]); }
  }

  /** Node n is the leader, or holds the leader's log through index i for good. */
  ghost predicate HoldsThrough(w: World, n: NodeId, i: int) {
    0 <= i <= |w.leader.log| && (n == w.leader.id || (n in w.peers && HeldBy(w, w.peers[n], i)))
  }

  lemma HeldByMoved(w: World, ev: Event, i: int)
    requires Inv(w) && Enabled(w, ev) && OnPeer(ev) && HeldBy(w, w.peers[ev.peer], i)
    ensures ev.peer in Next(w, ev).peers && HeldBy(Next(w, ev), Next(w, ev).peers[ev.peer], i)
  {
    hide HandleAppend, OnReply, Request, FollowerOk, FromLeader, OlderRequest, CommitsSafely, MaySend, SharesPrefix, LeaderOk,
         Outdated, LastTerm;
    PeerIsOk(w, ev.peer);
    if ev.Rpc? && !ev.fate.Lost? {
      var req := Request(w, ev.peer, ev.term, ev.commit, ev.last);
      DeliveredFromLeader(w, ev, ev.peer, req);
      HandlingKeepsHeld(w, ev.peer, w.peers[ev.peer], req);
      ReplyKeepsLog(w, ev);
    } else if ev.BeatArrives? {
      DeliveredFromLeader(w, ev, ev.peer, ev.beat);
      HandlingKeepsHeld(w, ev.peer, w.peers[ev.peer], ev.beat);
    } else if ev.Straggle? {
      OlderKeepsHeld(w, ev.peer, w.peers[ev.peer], ev.req, ev.sent);
    }
  }

  lemma ReplyKeepsLog(w: World, ev: Event)
    requires ev.Rpc?
    ensures Next(w, ev).leader.log == w.leader.log && Next(w, ev).leader.id == w.leader.id && Next(w, ev).since == w.since
  {
    hide HandleAppend, BuildAppend;
  }

  lemma LogOnlyGrows(w: World, ev: Event)
    ensures w.leader.log <= Next(w, ev).leader.log && Next(w, ev).leader.id == w.leader.id && Next(w, ev).since == w.since
  {
    hide HandleAppend, Request, BuildEmpty, ActivePeers, MatchIndexes, MajorityIndex, Outdated, LastTerm;
  }

  /** What a node holds it keeps, whatever happens in the leadership. */
  lemma HolderStays(w: World, ev: Event, n: NodeId, i: int)
    requires Inv(w) && Enabled(w, ev) && HoldsThrough(w, n, i)
    ensures HoldsThrough(Next(w, ev), n, i)
  {
    LogOnlyGrows(w, ev);
    if n != w.leader.id {
      if OnPeer(ev) && ev.peer == n {
        HeldByMoved(w, ev, i);
      } else {
        OthersStay(w, ev, n);
        LongerLog(w, Next(w, ev));
      }
    }
    hide Inv, Enabled, Next, HeldBy, SharesPrefix;
  }

  /** A majority that holds an index holds it until the leadership ends. */
  lemma {:induction false} HoldersStay(w: World, evs: seq<Event>, n: NodeId, i: int)
    requires Inv(w) && IsRun(w, evs) && HoldsThrough(w, n, i)
    ensures HoldsThrough(After(w, evs), n, i)
    decreases |evs|
  {
    if evs != [] {
      HolderStays(w, evs[0], n, i);
      NextKeepsInv(w, evs[0]);
      hide Inv, Enabled, Next, HoldsThrough;
      HoldersStay(Next(w, evs[0]), evs[1..], n, i);
    }
  }

  /** The commit step commits index i > 0 exactly when the leader and the active peers whose
      match index reaches i make up a majority of itself plus its active peers; all of those
      hold the leader's log through i. */
  lemma CommitHasMajority(w: World, known: seq<NodeId>, i: int) returns (holders: set<NodeId>)
    requires Inv(w) && w.leader.role.Leader? && Distinct(known)
    requires w.leader.commitIndex < i <= |w.leader.log|
    ensures holders == {w.leader.id} + Reaching(w.leader, ActivePeers(known, w.leader.id), i)
    ensures i <= Next(w, Commit(known)).leader.commitIndex <==>
      |holders| >= Majority(|ActivePeers(known, w.leader.id)| + 1)
    ensures forall n :: n in holders ==> HoldsThrough(w, n, i)
  {
    var active := ActivePeers(known, w.leader.id);
    holders := {w.leader.id} + Reaching(w.leader, active, i);
    CommitPicks(w, known, i);
    forall n | n in holders ensures HoldsThrough(w, n, i) {
      MatchMeansHolds(w, n, i);
    }
    hide Inv, HoldsThrough, ActivePeers, MajorityIndex, MatchIndexes, Next, Distinct, MatchFor;
  }

  lemma CommitPicks(w: World, known: seq<NodeId>, i: int)
    requires w.leader.role.Leader? && Distinct(known) && 0 <= w.leader.commitIndex < i <= |w.leader.log|
    ensures i <= Next(w, Commit(known)).leader.commitIndex <==>
      |{w.leader.id} + Reaching(w.leader, ActivePeers(known, w.leader.id), i)| >= Majority(|ActivePeers(known, w.leader.id)| + 1)
  {
    hide Reaching, ActivePeers, MajorityIndex, MatchIndexes, Distinct;
    ActiveIsDistinct(known, w.leader.id);
    MemberCount(w.leader, ActivePeers(known, w.leader.id), i);
  }

  lemma MatchMeansHolds(w: World, n: NodeId, i: int)
    requires Inv(w) && 0 < i <= |w.leader.log| && (n == w.leader.id || MatchFor(w.leader, n) >= i)
    ensures HoldsThrough(w, n, i)
  {
    if n != w.leader.id {
      assert n in w.peers && MatchOk(w, n);
      HoldsLess(w, w.peers[n], MatchFor(w.leader, n), i);
    }
  }

  /** The sorted pick reaches i exactly when the members that reach i are a majority. */
  lemma MemberCount(r: Replica, active: seq<NodeId>, i: int)
    requires Distinct(active) && r.id !in active && i <= |r.log|
    ensures var idxs := [|r.log|] + MatchIndexes(r, active);
      i <= MajorityIndex(idxs) <==> |{r.id} + Reaching(r, active, i)| >= Majority(|active| + 1)
  {
    var idxs := [|r.log|] + MatchIndexes(r, active);
    ReachingCount(r, active, i);
    MatchIndexesLength(r, active);
    assert idxs[1..] == MatchIndexes(r, active);
    MajorityIndexIsGreatest(idxs, i);
    assert {r.id} !! Reaching(r, active, i);
  }
}
