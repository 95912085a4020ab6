/** The leader's per-peer loop: up to five attempts per broadcast, stepping the next index back
    on every rejection, and why it converges. */
module CatchUp {
  import opened Commands
  import opened Raft
  import opened Leadership

  const MAX_ATTEMPTS := 5

  datatype Verdict = Synced | GaveUp | Again

  /** One attempt: no reply or a newer term ends the loop, a rejection lets it go on. */
  function Attempt(w: World, p: NodeId, term: int, commit: int, last: int, fate: Fate): (World, Verdict) {
    if p !in w.peers then (w, GaveUp)
    else
      var req := Request(w, p, term, commit, last);
      var resp := HandleAppend(w.peers[p], req).1;
      (AfterRpc(w, p, term, commit, last, fate),
       if !fate.Replied? || resp.term > req.term then GaveUp
       else if resp.success then Synced
       else Again)
  }

  function FateAt(fates: seq<Fate>, i: nat): Fate {
    if i < |fates| then fates[i] else Replied
  }

  /** The loop over attempts i.., and whether the peer counts as a success. */
  function CatchUpFrom(w: World, p: NodeId, term: int, commit: int, last: int, fates: seq<Fate>, i: nat): (World, bool)
    decreases MAX_ATTEMPTS - i
  {
    if i >= MAX_ATTEMPTS then (w, false)
    else
      var (next, verdict) := Attempt(w, p, term, commit, last, FateAt(fates, i));
      if verdict.Again? then CatchUpFrom(next, p, term, commit, last, fates, i + 1) else (next, verdict.Synced?)
  }

  /** Successive broadcasts to one peer until one of them succeeds. */
  function Broadcasts(w: World, p: NodeId, term: int, commit: int, last: int, count: nat): (World, bool)
    decreases count
  {
    if count == 0 then (w, false)
    else
      var (next, ok) := CatchUpFrom(w, p, term, commit, last, [], 0);
      if ok then (next, true) else Broadcasts(next, p, term, commit, last, count - 1)
  }

  // ----- convergence -----------------------------------------------------------------------------

  function Distance(w: World, p: NodeId, last: int): int {
    NextFor(w.leader, p, last)
  }

  /** The leader may send, the peer is there and not in a newer term. */
  ghost predicate Reachable(w: World, p: NodeId, term: int, commit: int, last: int) {
    Inv(w) && p in w.peers && MaySend(w, term, commit, last) && w.peers[p].currentTerm <= term
  }

  /** A peer that is not in a newer term answers in the request's, and can reject only a request
      anchored after the start of the log. */
  lemma Answers(r: Replica, req: AppendReq)
    requires r.currentTerm <= req.term && 0 <= req.prevIndex
    ensures var (after, resp) := HandleAppend(r, req);
      && after.currentTerm == req.term == resp.term
      && (!resp.success ==> req.prevIndex > 0)
  {
    HandleShape(r, req);
    hide HandleAppend;
  }

  lemma ReachableAnswers(w: World, p: NodeId, term: int, commit: int, last: int)
    requires Reachable(w, p, term, commit, last)
    ensures var req := Request(w, p, term, commit, last);
            var (after, resp) := HandleAppend(w.peers[p], req);
      && after.currentTerm == req.term == resp.term == term
      && (!resp.success ==> req.prevIndex > 0)
  {
    hide HandleAppend, Request, FollowerOk, MatchOk, BeatOk, AnswerOk;
    BuiltFromLeader(w, p, term, commit, last);
    Answers(w.peers[p], Request(w, p, term, commit, last));
  }

  /** What a peer holds after a success: the leader's log through the last index of the broadcast,
      and all of it if anything had to be sent; and it has heard of the broadcast's commit index. */
  ghost predicate UpToDate(w: World, p: NodeId, commit: int, last: int, sent: bool) {
    && p in w.peers && Holds(w, w.peers[p], last) && w.peers[p].commitIndex >= commit
    && (sent ==> w.peers[p].log == w.leader.log)
  }

  lemma SuccessCommits(r: Replica, req: AppendReq)
    requires HandleAppend(r, req).1.success
    ensures HandleAppend(r, req).0.commitIndex >= req.leaderCommit
  {
    hide TermAt, Cut, Splice;
  }

  lemma SyncedPeer(w: World, p: NodeId, term: int, commit: int, last: int)
    requires Reachable(w, p, term, commit, last)
    ensures var req := Request(w, p, term, commit, last);
            var (after, resp) := HandleAppend(w.peers[p], req);
      resp.success ==>
        && Holds(w, after, last) && after.commitIndex >= commit
        && (Distance(w, p, last) <= last ==> after.log == w.leader.log)
  {
    hide Inv, FollowerOk, LeaderOk, FromLeader, HandleAppend, Request, Holds, MatchOk;
    var req := Request(w, p, term, commit, last);
    var (after, resp) := HandleAppend(w.peers[p], req);
    PeerIsOk(w, p);
    TablesBounded(w, p);
    BuiltFromLeader(w, p, term, commit, last);
    SomethingSent(w, p, term, commit, last);
    CommitIsSent(w, p, term, commit, last);
    HandleKeepsFollower(w, p, w.peers[p], req);
    if resp.success {
      HoldsLess(w, after, req.prevIndex + |req.entries|, last);
      SuccessCommits(w.peers[p], req);
    }
  }

  lemma CommitIsSent(w: World, p: NodeId, term: int, commit: int, last: int)
    ensures Request(w, p, term, commit, last).leaderCommit == commit
    ensures BuildEmpty(w.leader, commit, last).leaderCommit == commit
  {
  }

  lemma SomethingSent(w: World, p: NodeId, term: int, commit: int, last: int)
    requires MaySend(w, term, commit, last)
    ensures Distance(w, p, last) <= last ==> Request(w, p, term, commit, last).entries != []
  {
  }

  /** Backing off from a rejected request lowers the next index by one; one that is not in the table
      is set to 1. */
  lemma BackOffLowers(r: Replica, p: NodeId, last: int)
    requires p in r.nextIdx ==> 1 <= r.nextIdx[p]
    requires p !in r.nextIdx ==> last > 0
    requires NextFor(r, p, last) > 1
    ensures 1 <= NextFor(BackOff(r, p), p, last) < NextFor(r, p, last)
    ensures p in r.nextIdx ==> NextFor(BackOff(r, p), p, last) == NextFor(r, p, last) - 1
  {
  }

  lemma RejectedAbove(w: World, p: NodeId, term: int, commit: int, last: int)
    requires LeaderOk(w) && MaySend(w, term, commit, last) && Request(w, p, term, commit, last).prevIndex > 0
    ensures Distance(w, p, last) > 1 && last > 0
  {
  }

  /** An answered attempt whose reply is in the request's term. */
  lemma AttemptShape(w: World, p: NodeId, term: int, commit: int, last: int)
    requires p in w.peers && HandleAppend(w.peers[p], Request(w, p, term, commit, last)).1.term <= term
    ensures var (next, verdict) := Attempt(w, p, term, commit, last, Replied);
            var (after, resp) := HandleAppend(w.peers[p], Request(w, p, term, commit, last));
      && p in next.peers && next.peers[p] == after
      && if resp.success then verdict.Synced? else verdict.Again? && next.leader == BackOff(w.leader, p)
  {
    hide HandleAppend, BuildAppend, BackOff;
  }

  /** Without loss an attempt either brings the follower's log up to the leader's, or lowers the
      next index, by one if the table has one; at 1 it cannot be rejected. */
  lemma AttemptProgress(w: World, p: NodeId, term: int, commit: int, last: int)
    requires Reachable(w, p, term, commit, last)
    ensures var (next, verdict) := Attempt(w, p, term, commit, last, Replied);
      && Reachable(next, p, term, commit, last) && next.leader.log == w.leader.log && 1 <= Distance(w, p, last)
      && match verdict
         case Synced => UpToDate(next, p, commit, last, Distance(w, p, last) <= last)
         case Again =>
           && 1 <= Distance(next, p, last) < Distance(w, p, last)
           && (p in w.leader.nextIdx ==> Distance(next, p, last) == Distance(w, p, last) - 1)
         case GaveUp => false
  {
    var req := Request(w, p, term, commit, last);
    var resp := HandleAppend(w.peers[p], req).1;
    ReachableAnswers(w, p, term, commit, last);
    SyncedPeer(w, p, term, commit, last);
    AttemptShape(w, p, term, commit, last);
    ReachableStays(w, p, term, commit, last);
    assert LeaderOk(w);
    TablesBounded(w, p);
    hide Inv, HandleAppend, LeaderOk, Request, Attempt, SharesPrefix, BackOff;
    if !resp.success {
      RejectedAbove(w, p, term, commit, last);
      BackOffLowers(w.leader, p, last);
    }
  }

  lemma ReachableStays(w: World, p: NodeId, term: int, commit: int, last: int)
    requires Reachable(w, p, term, commit, last)
    ensures var next := Attempt(w, p, term, commit, last, Replied).0;
      Reachable(next, p, term, commit, last) && next.leader.log == w.leader.log && next.since == w.since
  {
    ReachableAnswers(w, p, term, commit, last);
    AttemptShape(w, p, term, commit, last);
    RpcKeepsInv(w, p, term, commit, last, Replied);
    AttemptStays(w, p, term, commit, last, Replied);
    hide Inv, HandleAppend, LeaderOk, Request, Attempt, MaySend;
  }

  lemma LessAsked(w: World, p: NodeId, commit: int, last: int, less: bool, more: bool)
    requires less ==> more
    ensures UpToDate(w, p, commit, last, more) ==> UpToDate(w, p, commit, last, less)
  {
  }

  /** One lossless broadcast succeeds or lowers the next index by at least five. */
  lemma {:induction false} BroadcastProgress(w: World, p: NodeId, term: int, commit: int, last: int, i: nat)
    requires Reachable(w, p, term, commit, last) && i <= MAX_ATTEMPTS
    ensures var (next, ok) := CatchUpFrom(w, p, term, commit, last, [], i);
      && Reachable(next, p, term, commit, last) && next.leader.log == w.leader.log
      && (ok ==> UpToDate(next, p, commit, last, Distance(w, p, last) <= last))
      && (!ok ==> 1 <= Distance(next, p, last) <= Distance(w, p, last) - (MAX_ATTEMPTS - i))
    decreases MAX_ATTEMPTS - i
  {
    hide Reachable, Attempt, Distance, UpToDate;
    AttemptProgress(w, p, term, commit, last);
    if i < MAX_ATTEMPTS {
      assert FateAt([], i) == Replied;
      var (next, verdict) := Attempt(w, p, term, commit, last, Replied);
      if verdict.Again? {
        BroadcastProgress(next, p, term, commit, last, i + 1);
        LessAsked(CatchUpFrom(next, p, term, commit, last, [], i + 1).0, p, commit, last,
                  Distance(w, p, last) <= last, Distance(next, p, last) <= last);
      }
    }
  }

  lemma NextIndexIsPositive(w: World, p: NodeId, term: int, commit: int, last: int)
    requires Reachable(w, p, term, commit, last)
    ensures Distance(w, p, last) >= 1
  {
    TablesBounded(w, p);
  }

  /** Without loss and without new proposals, one broadcast for every five steps of the next index
      is enough, and the follower then holds the leader's log through the broadcast's last index:
      exactly the leader's log, if anything had to be sent. */
  lemma {:induction false} CatchUpConverges(w: World, p: NodeId, term: int, commit: int, last: int, count: nat)
    requires Reachable(w, p, term, commit, last) && Distance(w, p, last) <= 5 * count
    ensures var (end, ok) := Broadcasts(w, p, term, commit, last, count);
      && ok && Reachable(end, p, term, commit, last) && end.leader.log == w.leader.log
      && UpToDate(end, p, commit, last, Distance(w, p, last) <= last)
    decreases count
  {
    hide Reachable, Distance, CatchUpFrom, UpToDate;
    NextIndexIsPositive(w, p, term, commit, last);
    BroadcastProgress(w, p, term, commit, last, 0);
    var (next, ok) := CatchUpFrom(w, p, term, commit, last, [], 0);
    if !ok {
      CatchUpConverges(next, p, term, commit, last, count - 1);
      LessAsked(Broadcasts(next, p, term, commit, last, count - 1).0, p, commit, last,
                Distance(w, p, last) <= last, Distance(next, p, last) <= last);
    }
  }

  /** Whatever is lost, the loop keeps the leadership's invariant and moves nothing of the leader
      but its term, role and tables. */
  lemma {:induction false} CatchUpKeepsInv(w: World, p: NodeId, term: int, commit: int, last: int, fates: seq<Fate>, i: nat)
    requires Inv(w) && MaySend(w, term, commit, last)
    ensures var end := CatchUpFrom(w, p, term, commit, last, fates, i).0;
      && Inv(end) && SameLog(w.leader, end.leader) && end.leader.commitIndex == w.leader.commitIndex
      && end.leader.lastApplied == w.leader.lastApplied
    decreases MAX_ATTEMPTS - i
  {
    if i < MAX_ATTEMPTS && p in w.peers {
      RpcKeepsInv(w, p, term, commit, last, FateAt(fates, i));
      AttemptStays(w, p, term, commit, last, FateAt(fates, i));
      hide Inv, Attempt, SameLog;
      var (next, verdict) := Attempt(w, p, term, commit, last, FateAt(fates, i));
      if verdict.Again? {
        CatchUpKeepsInv(next, p, term, commit, last, fates, i + 1);
        SameLogTransitive(w.leader, next.leader, CatchUpFrom(next, p, term, commit, last, fates, i + 1).0.leader);
      }
    } else {
      SameLogReflexive(w.leader);
    }
  }

  lemma AttemptStays(w: World, p: NodeId, term: int, commit: int, last: int, fate: Fate)
    requires p in w.peers && MaySend(w, term, commit, last)
    ensures var (next, verdict) := Attempt(w, p, term, commit, last, fate);
      && SameLog(w.leader, next.leader) && next == AfterRpc(w, p, term, commit, last, fate)
      && next.leader.commitIndex == w.leader.commitIndex && next.leader.lastApplied == w.leader.lastApplied
      && MaySend(next, term, commit, last)
  {
    hide HandleAppend, BuildAppend;
  }

  lemma SameLogReflexive(a: Replica)
    ensures SameLog(a, a)
  {
  }

  lemma SameLogTransitive(a: Replica, b: Replica, c: Replica)
    requires SameLog(a, b) && SameLog(b, c)
    ensures SameLog(a, c)
  {
  }

  /** No reply, and a reply in a newer term, end the loop; the newer term ends the leadership too. */
  lemma GivesUpIff(w: World, p: NodeId, term: int, commit: int, last: int, fate: Fate)
    requires Inv(w) && p in w.peers && MaySend(w, term, commit, last)
    ensures var (next, verdict) := Attempt(w, p, term, commit, last, fate);
      && (verdict.GaveUp? <==> !fate.Replied? || w.peers[p].currentTerm > term)
      && (!fate.Replied? ==> next.leader == w.leader)
      && (fate.Replied? && w.peers[p].currentTerm > term ==>
            next.leader == if w.peers[p].currentTerm <= w.leader.currentTerm then w.leader
                           else w.leader.(currentTerm := w.peers[p].currentTerm, role := Follower, leader := ""))
  {
    var req := Request(w, p, term, commit, last);
    if w.peers[p].currentTerm <= term { ReachableAnswers(w, p, term, commit, last); }
    BuiltFromLeader(w, p, term, commit, last);
    hide Inv, HandleAppend, Request, MaySend;
    HandleShape(w.peers[p], req);
  }

  /** A heartbeat that reaches a peer in no newer term which holds the log through the heartbeat's last
      index moves the peer's commit index to the leader's, whatever else the peer has. */
  lemma HeartbeatCommits(w: World, p: NodeId, term: int, commit: int, last: int)
    requires Reachable(w, p, term, commit, last) && Holds(w, w.peers[p], last)
    ensures var beat := BuildEmpty(w.leader, commit, last).(term := term);
            var sent := Next(w, Beat(p, term, commit, last));
            var next := Next(sent, BeatArrives(p, beat));
      && Enabled(w, Beat(p, term, commit, last)) && Enabled(sent, BeatArrives(p, beat))
      && p in next.peers && next.peers[p].log == w.peers[p].log
      && next.peers[p].commitIndex == if commit > w.peers[p].commitIndex then commit else w.peers[p].commitIndex
  {
    var beat := BuildEmpty(w.leader, commit, last).(term := term);
    BuiltFromLeader(w, p, term, commit, last);
    assert last > 0 ==> w.peers[p].log[..last][last - 1] == w.leader.log[..last][last - 1];
    hide Inv, FollowerOk, FromLeader;
  }
}
