/** A leadership that nothing interrupts: what one attempt at a peer leaves alone, and how near five
    attempts bring a peer that answers them. */
module Calm {
  import opened Commands
  import opened Raft
  import opened Leadership
  import opened CatchUp

  /** The leader leads in this term, and none of the peers it reads is in a newer one. */
  ghost predicate Undisputed(w: World, term: int, active: seq<NodeId>) {
    && w.leader.role.Leader? && w.leader.currentTerm == term
    && forall p :: p in active && p in w.peers ==> w.peers[p].currentTerm <= term
  }

  /** The next index is at most n beyond an index through which the peer shares the leader's log. */
  ghost predicate Near(w: World, p: NodeId, last: int, n: int) {
    p in w.peers && exists s :: Holds(w, w.peers[p], s) && NextFor(w.leader, p, last) <= s + n
  }

  /** Nothing differs but one peer, what the leader's tables say of it, and the answers sent. */
  ghost predicate Apart(w: World, v: World, q: NodeId) {
    && v.leader == w.leader.(nextIdx := v.leader.nextIdx, matchIdx := v.leader.matchIdx)
    && v.since == w.since && v.peers.Keys == w.peers.Keys
    && forall p :: p != q ==>
         && (p in w.peers ==> v.peers[p] == w.peers[p])
         && MatchFor(v.leader, p) == MatchFor(w.leader, p)
         && (p in v.leader.nextIdx <==> p in w.leader.nextIdx)
         && (p in w.leader.nextIdx ==> v.leader.nextIdx[p] == w.leader.nextIdx[p])
  }

  lemma ApartTwice(w: World, v: World, u: World, q: NodeId)
    requires Apart(w, v, q) && Apart(v, u, q)
    ensures Apart(w, u, q)
  {
    hide MatchFor;
  }

  /** What is near stays near while another peer is served. */
  lemma NearStays(w: World, v: World, q: NodeId, p: NodeId, last: int, n: int)
    requires Apart(w, v, q) && p != q && Near(w, p, last, n)
    ensures Near(v, p, last, n)
  {
    var s :| Holds(w, w.peers[p], s) && NextFor(w.leader, p, last) <= s + n;
    assert Holds(v, v.peers[p], s);
    hide Holds;
  }

  lemma NearLess(w: World, p: NodeId, last: int, n: int, m: int)
    requires Near(w, p, last, n) && n <= m
    ensures Near(w, p, last, m)
  {
    hide Holds;
    var s :| Holds(w, w.peers[p], s) && NextFor(w.leader, p, last) <= s + n;
    assert NextFor(w.leader, p, last) <= s + m;
  }

  /** A peer whose next index is low is near, whatever it holds; so is one that is up to date. */
  lemma LowOrCurrentIsNear(w: World, p: NodeId, n: int)
    requires Inv(w) && p in w.peers && n >= 2
    requires NextFor(w.leader, p, |w.leader.log| + 1) <= n || Holds(w, w.peers[p], |w.leader.log|)
    ensures Near(w, p, |w.leader.log| + 1, n)
  {
    TablesBounded(w, p);
    if NextFor(w.leader, p, |w.leader.log| + 1) <= n { assert Holds(w, w.peers[p], 0); }
  }

  // ----- one attempt ------------------------------------------------------------------------------

  ghost predicate TablesApart(r: Replica, m: Replica, q: NodeId) {
    && m == r.(nextIdx := m.nextIdx, matchIdx := m.matchIdx)
    && forall p :: p != q ==>
         && MatchFor(m, p) == MatchFor(r, p)
         && (p in m.nextIdx <==> p in r.nextIdx)
         && (p in r.nextIdx ==> m.nextIdx[p] == r.nextIdx[p])
  }

  /** A reply in the request's term is credited to its peer, or moves its next index. */
  lemma ReplyApart(r: Replica, q: NodeId, term: int, last: int, resp: AppendResp)
    requires resp.term <= term
    ensures TablesApart(r, OnReply(r, q, term, last, resp), q)
    ensures resp.success && resp.matchIndex >= last ==> MatchFor(OnReply(r, q, term, last, resp), q) >= last
  {
  }

  lemma RpcApart(w: World, q: NodeId, term: int, commit: int, last: int, fate: Fate)
    requires q in w.peers && HandleAppend(w.peers[q], Request(w, q, term, commit, last)).1.term <= term
    ensures var next := AfterRpc(w, q, term, commit, last, fate);
      && TablesApart(w.leader, next.leader, q) && next.since == w.since && next.peers.Keys == w.peers.Keys
      && (forall p :: p in w.peers && p != q ==> next.peers[p] == w.peers[p])
      && (next.peers[q] == w.peers[q]
          || next.peers[q] == HandleAppend(w.peers[q], Request(w, q, term, commit, last)).0)
  {
    hide HandleAppend, Request, OnReply, TablesApart, MatchFor;
    ReplyApart(w.leader, q, term, last, HandleAppend(w.peers[q], Request(w, q, term, commit, last)).1);
    assert TablesApart(w.leader, w.leader, q) by { NothingApart(w.leader, q); }
  }

  lemma NothingApart(r: Replica, q: NodeId)
    ensures TablesApart(r, r, q)
  {
  }

  /** An attempt at a peer in no newer term, whatever becomes of it, touches nothing else; a success is credited. */
  lemma AttemptApart(w: World, q: NodeId, term: int, commit: int, last: int, fate: Fate, active: seq<NodeId>)
    requires Inv(w) && MaySend(w, term, commit, last) && Undisputed(w, term, active) && q in active
    ensures var (next, verdict) := Attempt(w, q, term, commit, last, fate);
      && Inv(next) && MaySend(next, term, commit, last) && Undisputed(next, term, active) && Apart(w, next, q)
  {
    hide Inv, HandleAppend, Request, MaySend, AfterRpc, MatchFor;
    if q in w.peers {
      assert Reachable(w, q, term, commit, last);
      ReachableAnswers(w, q, term, commit, last);
      RpcIsSound(w, q, term, commit, last, fate);
      AttemptStays(w, q, term, commit, last, fate);
      RpcApart(w, q, term, commit, last, fate);
    }
  }

  lemma RpcIsSound(w: World, q: NodeId, term: int, commit: int, last: int, fate: Fate)
    requires Inv(w) && MaySend(w, term, commit, last) && q in w.peers
    ensures Inv(AfterRpc(w, q, term, commit, last, fate))
  {
    RpcKeepsInv(w, q, term, commit, last, fate);
    hide Inv, AfterRpc, MaySend;
  }

  /** A success is credited with the broadcast's last index at least. */
  lemma SyncedIsCredited(w: World, q: NodeId, term: int, commit: int, last: int, fate: Fate)
    requires q in w.peers ==> Reachable(w, q, term, commit, last)
    ensures var (next, verdict) := Attempt(w, q, term, commit, last, fate);
      verdict.Synced? ==> MatchFor(next.leader, q) >= last
  {
    hide Inv, HandleAppend, Request, OnReply, Reachable, MatchFor;
    if q in w.peers {
      Reports(w, q, term, commit, last);
      ReachableAnswers(w, q, term, commit, last);
      ReplyApart(w.leader, q, term, last, HandleAppend(w.peers[q], Request(w, q, term, commit, last)).1);
    }
  }

  lemma Reports(w: World, q: NodeId, term: int, commit: int, last: int)
    requires Reachable(w, q, term, commit, last)
    ensures var resp := HandleAppend(w.peers[q], Request(w, q, term, commit, last)).1;
      resp.success ==> resp.matchIndex >= last && last >= 0
  {
    hide Inv, FollowerOk, LeaderOk, FromLeader, HandleAppend, Request, Holds, MatchOk;
    PeerIsOk(w, q);
    BuiltFromLeader(w, q, term, commit, last);
    HandleKeepsFollower(w, q, w.peers[q], Request(w, q, term, commit, last));
  }

  /** A request anchored where the peer shares the leader's log is accepted. */
  lemma SharedIsAccepted(w: World, p: NodeId, term: int, commit: int, last: int, s: int)
    requires Reachable(w, p, term, commit, last) && last == |w.leader.log|
    requires Holds(w, w.peers[p], s) && NextFor(w.leader, p, last) <= s + 1
    ensures HandleAppend(w.peers[p], Request(w, p, term, commit, last)).1.success
  {
    var r, req := w.peers[p], Request(w, p, term, commit, last);
    TablesBounded(w, p);
    assert 0 <= req.prevIndex <= s && req.prevTerm == TermAt(w.leader.log, req.prevIndex);
    SharedTerm(r.log, w.leader.log, s, req.prevIndex);
    hide Inv, HandleAppend, MaySend, BuildAppend;
    HandleShape(r, req);
  }

  lemma SharedTerm(a: seq<Entry>, b: seq<Entry>, s: int, i: int)
    requires SharesPrefix(a, b, s) && 0 <= i <= s
    ensures TermAt(a, i) == TermAt(b, i)
  {
    if i > 0 { assert a[..s][i - 1] == b[..s][i - 1]; }
  }

  /** An answered attempt at a peer that is near succeeds, or brings it one nearer; a peer that was
      credited is as near as can be. */
  lemma AttemptNears(w: World, p: NodeId, term: int, commit: int, last: int, n: int)
    requires Reachable(w, p, term, commit, last) && last == |w.leader.log| && Near(w, p, last, n)
    ensures var (next, verdict) := Attempt(w, p, term, commit, last, Replied);
      && Reachable(next, p, term, commit, last) && next.leader.log == w.leader.log
      && match verdict
         case Synced => Near(next, p, last, 1)
         case Again => n > 1 && Near(next, p, last, n - 1)
         case GaveUp => false
  {
    hide HandleAppend, Request, Inv, Holds, MaySend, AfterRpc;
    var s :| Holds(w, w.peers[p], s) && NextFor(w.leader, p, last) <= s + n;
    var (next, verdict) := Attempt(w, p, term, commit, last, Replied);
    AttemptProgress(w, p, term, commit, last);
    match verdict
    case Synced =>
      NextIsBounded(next, p, last);
      assert Holds(next, next.peers[p], last);
    case Again =>
      if n <= 1 { SharedIsAccepted(w, p, term, commit, last, s); }
      StillHeld(w, p, term, commit, last, s);
      assert NextFor(next.leader, p, last) <= s + (n - 1);
    case GaveUp =>
  }

  lemma NextIsBounded(w: World, p: NodeId, last: int)
    requires Inv(w) && last == |w.leader.log|
    ensures NextFor(w.leader, p, last) <= last + 1
  {
    TablesBounded(w, p);
  }

  lemma StillHeld(w: World, p: NodeId, term: int, commit: int, last: int, s: int)
    requires Reachable(w, p, term, commit, last) && Holds(w, w.peers[p], s)
    ensures var next := Attempt(w, p, term, commit, last, Replied).0;
      p in next.peers && Holds(next, next.peers[p], s)
  {
    hide HandleAppend, Request, Inv, SharesPrefix, FollowerOk, FromLeader, OnReply, LeaderOk;
    PeerIsOk(w, p);
    BuiltFromLeader(w, p, term, commit, last);
    HandleKeepsFollower(w, p, w.peers[p], Request(w, p, term, commit, last));
    AttemptStays(w, p, term, commit, last, Replied);
  }

  // ----- five attempts ------------------------------------------------------------------------------

  /** The loop at one peer touches nothing else, and a success is credited. */
  lemma {:induction false} LoopApart(w: World, q: NodeId, term: int, commit: int, last: int, fates: seq<Fate>, i: nat, active: seq<NodeId>)
    requires Inv(w) && MaySend(w, term, commit, last) && Undisputed(w, term, active) && q in active
    ensures var (end, ok) := CatchUpFrom(w, q, term, commit, last, fates, i);
      && Inv(end) && MaySend(end, term, commit, last) && Undisputed(end, term, active) && Apart(w, end, q)
      && (ok ==> MatchFor(end.leader, q) >= last)
    decreases MAX_ATTEMPTS - i
  {
    hide Inv, MaySend, Attempt, MatchFor, Apart;
    if i < MAX_ATTEMPTS {
      var (next, verdict) := Attempt(w, q, term, commit, last, FateAt(fates, i));
      AttemptApart(w, q, term, commit, last, FateAt(fates, i), active);
      assert q in w.peers ==> Reachable(w, q, term, commit, last);
      SyncedIsCredited(w, q, term, commit, last, FateAt(fates, i));
      if verdict.Again? {
        LoopApart(next, q, term, commit, last, fates, i + 1, active);
        ApartTwice(w, next, CatchUpFrom(next, q, term, commit, last, fates, i + 1).0, q);
      }
    } else {
      ApartSelf(w, q);
    }
  }

  lemma ApartSelf(w: World, q: NodeId)
    ensures Apart(w, w, q)
  {
  }

  /** Five answered attempts at a peer succeed, or bring it five nearer; if it is within five they succeed. */
  lemma {:induction false} LoopNears(w: World, p: NodeId, term: int, commit: int, last: int, fates: seq<Fate>, i: nat, n: int)
    requires Reachable(w, p, term, commit, last) && last == |w.leader.log| && Near(w, p, last, n) && i <= MAX_ATTEMPTS
    requires forall j :: 0 <= j < |fates| ==> fates[j].Replied?
    ensures var (end, ok) := CatchUpFrom(w, p, term, commit, last, fates, i);
      if ok then Near(end, p, last, 1)
      else Near(end, p, last, n - (MAX_ATTEMPTS - i)) && (i < MAX_ATTEMPTS ==> n > MAX_ATTEMPTS - i)
    decreases MAX_ATTEMPTS - i
  {
    hide Reachable, Attempt, Near;
    if i < MAX_ATTEMPTS {
      assert FateAt(fates, i) == Replied;
      AttemptNears(w, p, term, commit, last, n);
      var (next, verdict) := Attempt(w, p, term, commit, last, Replied);
      if verdict.Again? {
        LoopNears(next, p, term, commit, last, fates, i + 1, n - 1);
      }
    }
  }
}
