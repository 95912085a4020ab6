/** Proposing a command on a leader: append, replicate in up to five rounds, commit, apply, and
    wait.  The node runs over its tables; the nodes it replicates to answer its requests, and
    between its steps, and between any two attempts at a peer, anything a leadership allows may
    happen. */
module Proposal {
  import opened Commands
  import opened Quorum
  import opened Raft
  import opened LogTable
  import opened TableNode
  import opened ApplyLoop
  import opened ConsensusNode
  import opened CatchUp
  import opened Commitment
  import opened Calm
  import C = Convergence
  import L = Leadership
  import R = ReplicaState
  import G = Progress

  const MAX_ROUNDS := 5

  /** One attempt at a peer: what happens before it, other peers' attempts included, and its fate. */
  datatype Try = Try(before: seq<L.Event>, fate: L.Fate)

  /** One broadcast: what happens before it, a background pass over the committed rows with its
      faults, the peers it reads, the attempts at each of them, and the peers whose result arrives
      in time to be counted. */
  datatype Round = Round(meanwhile: seq<L.Event>, faults: seq<Fault>, known: seq<NodeId>,
                         tries: map<NodeId, seq<Try>>, heard: set<NodeId>)

  /** One turn of the waiting loop. */
  datatype Poll = Poll(meanwhile: seq<L.Event>, faults: seq<Fault>)

  datatype Network = Network(rounds: seq<Round>, before: Poll, known: seq<NodeId>, faults: seq<Fault>, polls: seq<Poll>)

  datatype ProposeError = NotLeader | UnappliedEntries | LostLeadership | ApplyFailed | TimedOut

  /** The leadership, and the lists of peers its commit steps have read. */
  datatype Stage = Stage(w: L.World, asked: set<seq<NodeId>>)

  // ----- what may happen in between ------------------------------------------------------------

  /** Apply passes are steps of their own.  Other proposals append and commit, but none between
      this one's taking of an index and its append; peers known are distinct. */
  predicate Quiet(w: L.World, ev: L.Event) {
    match ev
    case LeaderApplies(_) => false
    case Append(eventId, _) => forall i :: 0 <= i < |w.leader.log| ==> w.leader.log[i].eventId != eventId
    case Commit(known) => Distinct(known)
    case _ => true
  }

  /** Events the leadership does not allow are skipped. */
  function Happen(x: Stage, ev: L.Event): Stage {
    if Quiet(x.w, ev) && L.Enabled(x.w, ev)
    then Stage(L.Next(x.w, ev), if ev.Commit? then x.asked + {ev.known} else x.asked)
    else x
  }

  function Meanwhile(x: Stage, evs: seq<L.Event>): Stage
    decreases |evs|
  {
    if evs == [] then x else Meanwhile(Happen(x, evs[0]), evs[1..])
  }

  /** The leader's log only grows, and its cursors and its term only rise. */
  ghost predicate Steady(w: L.World, after: L.World) {
    && after.since == w.since && after.leader.id == w.leader.id && w.leader.log <= after.leader.log
    && w.leader.commitIndex <= after.leader.commitIndex && w.leader.lastApplied <= after.leader.lastApplied
    && w.leader.currentTerm <= after.leader.currentTerm
  }

  /** A majority of the leader and its active peers holds the leader's log through an index. */
  ghost predicate EnoughHolders(w: L.World, holders: set<NodeId>, known: seq<NodeId>, index: int) {
    var active := ActivePeers(known, w.leader.id);
    && |holders| >= Majority(|active| + 1)
    && forall n :: n in holders ==> (n == w.leader.id || n in active) && HoldsThrough(w, n, index)
  }

  /** If the index is committed, a majority of the leader and the peers one of the commit steps has
      read holds the log through it. */
  ghost predicate Backed(x: Stage, index: int) {
    index <= x.w.leader.commitIndex ==>
      exists known, holders :: known in x.asked && EnoughHolders(x.w, holders, known, index)
  }

  /** Nothing that is held or backed gets lost. */
  ghost predicate Onward(x: Stage, y: Stage) {
    && Steady(x.w, y.w) && x.asked <= y.asked
    && (forall n, i :: HoldsThrough(x.w, n, i) ==> HoldsThrough(y.w, n, i))
    && (forall i :: 0 < i <= |x.w.leader.log| && Backed(x, i) ==> Backed(y, i))
  }

  lemma OnwardSelf(x: Stage)
    ensures Onward(x, x)
  {
  }

  lemma OnwardTwice(x: Stage, y: Stage, z: Stage)
    requires Onward(x, y) && Onward(y, z)
    ensures Onward(x, z)
  {
    hide Backed, HoldsThrough;
  }

  lemma HoldersTogether(x: L.World, y: L.World, holders: set<NodeId>, known: seq<NodeId>, index: int)
    requires EnoughHolders(x, holders, known, index) && y.leader.id == x.leader.id
    requires forall n, i :: HoldsThrough(x, n, i) ==> HoldsThrough(y, n, i)
    ensures EnoughHolders(y, holders, known, index)
  {
    hide HoldsThrough, ActivePeers;
  }

  /** Where the commit index stays, or rises by a commit step, what was backed is backed. */
  lemma BackedStays(x: Stage, y: Stage, index: int)
    requires Backed(x, index) && y.w.leader.id == x.w.leader.id && x.asked <= y.asked
    requires forall n, i :: HoldsThrough(x.w, n, i) ==> HoldsThrough(y.w, n, i)
    requires y.w.leader.commitIndex == x.w.leader.commitIndex || index <= x.w.leader.commitIndex
    ensures Backed(y, index)
  {
    hide HoldsThrough, EnoughHolders;
    if index <= x.w.leader.commitIndex {
      var known, holders :| known in x.asked && EnoughHolders(x.w, holders, known, index);
      HoldersTogether(x.w, y.w, holders, known, index);
    }
  }

  lemma CommitIsBacked(x: Stage, known: seq<NodeId>, index: int)
    requires L.Inv(x.w) && x.w.leader.role.Leader? && Distinct(known)
    requires x.w.leader.commitIndex < index <= |x.w.leader.log|
    requires forall n, i :: HoldsThrough(x.w, n, i) ==> HoldsThrough(L.Next(x.w, L.Commit(known)), n, i)
    ensures Backed(Stage(L.Next(x.w, L.Commit(known)), x.asked + {known}), index)
  {
    hide L.Inv, HoldsThrough, ActivePeers, L.Next, Distinct;
    var after := L.Next(x.w, L.Commit(known));
    var holders := CommitHasMajority(x.w, known, index);
    LogOnlyGrows(x.w, L.Commit(known));
    if index <= after.leader.commitIndex {
      ReachingIsActive(x.w.leader, ActivePeers(known, x.w.leader.id), index);
      assert EnoughHolders(x.w, holders, known, index);
      HoldersTogether(x.w, after, holders, known, index);
    }
  }

  lemma ReachingIsActive(r: Replica, peers: seq<NodeId>, i: int)
    ensures forall p :: p in Reaching(r, peers, i) ==> p in peers
  {
  }

  lemma HappenKeeps(x: Stage, ev: L.Event)
    requires L.Inv(x.w)
    ensures L.Inv(Happen(x, ev).w) && Onward(x, Happen(x, ev))
  {
    hide L.Inv, L.Next, L.Enabled, Steady, HoldsThrough, Backed, Quiet;
    if Quiet(x.w, ev) && L.Enabled(x.w, ev) {
      var y := Happen(x, ev);
      L.NextKeepsInv(x.w, ev);
      NextIsSteady(x.w, ev);
      forall n, i | HoldsThrough(x.w, n, i) ensures HoldsThrough(y.w, n, i) {
        HolderStays(x.w, ev, n, i);
      }
      forall i | 0 < i <= |x.w.leader.log| && Backed(x, i) ensures Backed(y, i) {
        NextKeepsBacked(x, ev, i);
      }
    } else {
      OnwardSelf(x);
    }
  }

  lemma NextKeepsBacked(x: Stage, ev: L.Event, index: int)
    requires L.Inv(x.w) && L.Enabled(x.w, ev) && Quiet(x.w, ev) && Backed(x, index) && 0 < index <= |x.w.leader.log|
    requires forall n, i :: HoldsThrough(x.w, n, i) ==> HoldsThrough(L.Next(x.w, ev), n, i)
    ensures Backed(Happen(x, ev), index)
  {
    hide L.Inv, L.Next, HoldsThrough, Backed;
    LogOnlyGrows(x.w, ev);
    if ev.Commit? && x.w.leader.commitIndex < index {
      CommitNeedsLeader(x.w, ev);
      CommitIsBacked(x, ev.known, index);
    } else {
      if !ev.Commit? { OnlyCommitCommits(x.w, ev); }
      BackedStays(x, Happen(x, ev), index);
    }
  }

  lemma CommitNeedsLeader(w: L.World, ev: L.Event)
    requires ev.Commit? && L.Enabled(w, ev)
    ensures w.leader.role.Leader?
  {
  }

  lemma OnlyCommitCommits(w: L.World, ev: L.Event)
    requires !ev.Commit?
    ensures L.Next(w, ev).leader.commitIndex == w.leader.commitIndex
  {
    hide HandleAppend, L.Request, BuildEmpty, Outdated, LastTerm;
  }

  lemma NextIsSteady(w: L.World, ev: L.Event)
    requires L.Inv(w) && L.Enabled(w, ev)
    ensures Steady(w, L.Next(w, ev))
  {
    hide L.Inv, L.Next, L.Enabled;
    LogOnlyGrows(w, ev);
    LeaderCursorsRise(w, ev);
    TermOnlyRises(w, ev);
  }

  lemma TermOnlyRises(w: L.World, ev: L.Event)
    ensures w.leader.currentTerm <= L.Next(w, ev).leader.currentTerm
  {
    hide HandleAppend, L.Request, BuildEmpty, Outdated, LastTerm, ActivePeers, MatchIndexes, MajorityIndex;
  }

  lemma {:induction false} MeanwhileKeeps(x: Stage, evs: seq<L.Event>)
    requires L.Inv(x.w)
    ensures L.Inv(Meanwhile(x, evs).w) && Onward(x, Meanwhile(x, evs))
    decreases |evs|
  {
    hide L.Inv, Happen, Onward;
    if evs == [] {
      OnwardSelf(x);
    } else {
      HappenKeeps(x, evs[0]);
      MeanwhileKeeps(Happen(x, evs[0]), evs[1..]);
      OnwardTwice(x, Happen(x, evs[0]), Meanwhile(x, evs));
    }
  }

  // ----- one broadcast ----------------------------------------------------------------------

  function TryAt(tries: seq<Try>, i: nat): Try {
    if i < |tries| then tries[i] else Try([], L.Replied)
  }

  /** One attempt, after what comes before it. */
  function TryOnce(x: Stage, p: NodeId, term: int, commit: int, last: int, t: Try): (Stage, Verdict) {
    var met := Meanwhile(x, t.before);
    var (next, verdict) := Attempt(met.w, p, term, commit, last, t.fate);
    (met.(w := next), verdict)
  }

  /** The per-peer loop of CatchUpFrom, with what happens between its attempts. */
  function CatchUpAmid(x: Stage, p: NodeId, term: int, commit: int, last: int, tries: seq<Try>, i: nat): (Stage, bool)
    decreases MAX_ATTEMPTS - i
  {
    if i >= MAX_ATTEMPTS then (x, false)
    else
      var (next, verdict) := TryOnce(x, p, term, commit, last, TryAt(tries, i));
      if verdict.Again? then CatchUpAmid(next, p, term, commit, last, tries, i + 1) else (next, verdict.Synced?)
  }

  function Fates(tries: seq<Try>): seq<L.Fate> {
    seq(|tries|, i requires 0 <= i < |tries| => tries[i].fate)
  }

  /** With nothing in between it is the loop whose convergence CatchUp proves. */
  lemma {:induction false} UndisturbedCatchUp(x: Stage, p: NodeId, term: int, commit: int, last: int, tries: seq<Try>, i: nat)
    requires forall j :: 0 <= j < |tries| ==> tries[j].before == []
    ensures var (end, ok) := CatchUpFrom(x.w, p, term, commit, last, Fates(tries), i);
      CatchUpAmid(x, p, term, commit, last, tries, i) == (x.(w := end), ok)
    decreases MAX_ATTEMPTS - i
  {
    hide Attempt;
    if i < MAX_ATTEMPTS {
      var (next, verdict) := TryOnce(x, p, term, commit, last, TryAt(tries, i));
      assert TryAt(tries, i).before == [] && TryAt(tries, i).fate == FateAt(Fates(tries), i);
      if verdict.Again? {
        UndisturbedCatchUp(next, p, term, commit, last, tries, i + 1);
      }
    }
  }

  function TriesOf(r: Round, p: NodeId): seq<Try> {
    if p in r.tries then r.tries[p] else []
  }

  /** Every peer in turn, and those whose success is counted. */
  function Broadcast(x: Stage, peers: seq<NodeId>, term: int, commit: int, last: int, r: Round): (Stage, seq<NodeId>)
    decreases |peers|
  {
    if peers == [] then (x, [])
    else
      var (next, ok) := CatchUpAmid(x, peers[0], term, commit, last, TriesOf(r, peers[0]), 0);
      var (end, counted) := Broadcast(next, peers[1..], term, commit, last, r);
      (end, if ok && peers[0] in r.heard then [peers[0]] + counted else counted)
  }

  lemma RequestMatches(n: TableReplica, log: seq<Entry>, w: L.World, p: NodeId, term: int, commit: int, last: int, req: AppendReq)
    requires Represents(n.log, log) && w.leader == WithLog(n, log) && 0 <= last <= |log|
    requires req.term == term && MayBuild(n, p, commit, last, req.(term := n.currentTerm))
    ensures req == L.Request(w, p, term, commit, last)
  {
    BuildRefines(n, w.leader, p, commit, last, req.(term := n.currentTerm));
    hide Represents, MayBuild, BuildAppend;
  }

  lemma MaySendStays(w: L.World, after: L.World, term: int, commit: int, last: int)
    requires L.MaySend(w, term, commit, last) && Steady(w, after)
    ensures L.MaySend(after, term, commit, last)
  {
  }

  lemma AttemptIsRpc(w: L.World, p: NodeId, term: int, commit: int, last: int, fate: L.Fate)
    requires p in w.peers
    ensures Attempt(w, p, term, commit, last, fate).0 == L.Next(w, L.Rpc(p, term, commit, last, fate))
    ensures L.MaySend(w, term, commit, last) ==> L.Enabled(w, L.Rpc(p, term, commit, last, fate))
  {
    hide L.AfterRpc, L.MaySend;
  }

  /** An attempt is an event of the leadership, and a success means that the peer holds the log
      through the last index the broadcast read. */
  lemma AttemptKeeps(x: Stage, p: NodeId, term: int, commit: int, last: int, fate: L.Fate)
    requires L.Inv(x.w) && L.MaySend(x.w, term, commit, last)
    ensures var (next, verdict) := Attempt(x.w, p, term, commit, last, fate);
      && L.Inv(next) && Onward(x, x.(w := next))
      && (verdict.Synced? ==> HoldsThrough(next, p, last))
  {
    hide L.Inv, Onward, Attempt, L.Next, L.Enabled, L.MaySend;
    if p in x.w.peers {
      var ev := L.Rpc(p, term, commit, last, fate);
      AttemptIsRpc(x.w, p, term, commit, last, fate);
      assert Quiet(x.w, ev);
      HappenKeeps(x, ev);
      SyncedHolds(x.w, p, term, commit, last, fate);
    } else {
      assert Attempt(x.w, p, term, commit, last, fate) == (x.w, GaveUp) by { Absent(x.w, p, term, commit, last, fate); }
      OnwardSelf(x);
    }
  }

  lemma Absent(w: L.World, p: NodeId, term: int, commit: int, last: int, fate: L.Fate)
    requires p !in w.peers
    ensures Attempt(w, p, term, commit, last, fate) == (w, GaveUp)
  {
  }

  lemma SyncedHolds(w: L.World, p: NodeId, term: int, commit: int, last: int, fate: L.Fate)
    requires L.Inv(w) && L.MaySend(w, term, commit, last) && p in w.peers
    ensures var (next, verdict) := Attempt(w, p, term, commit, last, fate);
      verdict.Synced? ==> HoldsThrough(next, p, last)
  {
    hide L.Inv, L.FollowerOk, L.FromLeader, L.LeaderOk, HandleAppend, OnReply, BuildAppend, L.HeldBy;
    var req := L.Request(w, p, term, commit, last);
    var (after, resp) := HandleAppend(w.peers[p], req);
    L.PeerIsOk(w, p);
    L.BuiltFromLeader(w, p, term, commit, last);
    L.HandleKeepsFollower(w, p, w.peers[p], req);
    if Attempt(w, p, term, commit, last, fate).1.Synced? {
      L.HoldsLess(w, after, req.prevIndex + |req.entries|, last);
      AttemptStays(w, p, term, commit, last, fate);
      HeldAfter(w, Attempt(w, p, term, commit, last, fate).0, p, last);
    }
  }

  lemma HeldAfter(w: L.World, next: L.World, p: NodeId, last: int)
    requires p in next.peers && L.Holds(w, next.peers[p], last) && next.peers[p].currentTerm >= w.since
    requires next.leader.log == w.leader.log && next.since == w.since
    ensures HoldsThrough(next, p, last)
  {
  }

  lemma TryKeeps(x: Stage, p: NodeId, term: int, commit: int, last: int, t: Try)
    requires L.Inv(x.w) && L.MaySend(x.w, term, commit, last)
    ensures var (next, verdict) := TryOnce(x, p, term, commit, last, t);
      && L.Inv(next.w) && Onward(x, next) && L.MaySend(next.w, term, commit, last)
      && (verdict.Synced? ==> HoldsThrough(next.w, p, last))
  {
    hide L.Inv, Attempt, L.MaySend, HoldsThrough, Backed, Steady;
    var met := Meanwhile(x, t.before);
    MeanwhileKeeps(x, t.before);
    MaySendStays(x.w, met.w, term, commit, last);
    AttemptKeeps(met, p, term, commit, last, t.fate);
    var next := TryOnce(x, p, term, commit, last, t).0;
    MaySendStays(met.w, next.w, term, commit, last);
    OnwardTwice(x, met, next);
  }

  lemma {:induction false} CatchUpKeeps(x: Stage, p: NodeId, term: int, commit: int, last: int, tries: seq<Try>, i: nat)
    requires L.Inv(x.w) && L.MaySend(x.w, term, commit, last)
    ensures var (end, ok) := CatchUpAmid(x, p, term, commit, last, tries, i);
      && L.Inv(end.w) && Onward(x, end) && L.MaySend(end.w, term, commit, last)
      && (ok ==> HoldsThrough(end.w, p, last))
    decreases MAX_ATTEMPTS - i
  {
    hide L.Inv, L.MaySend, TryOnce, Onward, HoldsThrough;
    if i < MAX_ATTEMPTS {
      TryKeeps(x, p, term, commit, last, TryAt(tries, i));
      var (next, verdict) := TryOnce(x, p, term, commit, last, TryAt(tries, i));
      if verdict.Again? {
        CatchUpKeeps(next, p, term, commit, last, tries, i + 1);
        OnwardTwice(x, next, CatchUpAmid(next, p, term, commit, last, tries, i + 1).0);
      }
    } else {
      OnwardSelf(x);
    }
  }

  ghost predicate AllHold(w: L.World, peers: seq<NodeId>, last: int) {
    forall p :: p in peers ==> HoldsThrough(w, p, last)
  }

  /** Whoever is counted holds the log through the broadcast's last index, to the end of it. */
  lemma {:induction false} BroadcastKeeps(x: Stage, peers: seq<NodeId>, term: int, commit: int, last: int, r: Round)
    requires L.Inv(x.w) && L.MaySend(x.w, term, commit, last)
    ensures var (end, counted) := Broadcast(x, peers, term, commit, last, r);
      && L.Inv(end.w) && Onward(x, end) && L.MaySend(end.w, term, commit, last)
      && AllHold(end.w, counted, last) && (forall p :: p in counted ==> p in peers)
      && (Distinct(peers) ==> Distinct(counted))
    decreases |peers|
  {
    hide L.Inv, L.MaySend, CatchUpAmid, HoldsThrough, Backed, Steady;
    if peers == [] {
      OnwardSelf(x);
    } else {
      CatchUpKeeps(x, peers[0], term, commit, last, TriesOf(r, peers[0]), 0);
      var (next, ok) := CatchUpAmid(x, peers[0], term, commit, last, TriesOf(r, peers[0]), 0);
      BroadcastKeeps(next, peers[1..], term, commit, last, r);
      var (end, counted) := Broadcast(next, peers[1..], term, commit, last, r);
      OnwardTwice(x, next, end);
      if Distinct(peers) {
        RestIsDistinct(peers);
        PrependKeepsDistinct(peers[0], counted);
      }
    }
  }

  /** So a majority of counted peers, with the leader, is a majority of holders. */
  lemma CountedHold(w: L.World, known: seq<NodeId>, counted: seq<NodeId>, last: int) returns (holders: set<NodeId>)
    requires Distinct(known) && Distinct(counted) && AllHold(w, counted, last) && 0 <= last <= |w.leader.log|
    requires forall p :: p in counted ==> p in ActivePeers(known, w.leader.id)
    requires 1 + |counted| >= Majority(|ActivePeers(known, w.leader.id)| + 1)
    ensures EnoughHolders(w, holders, known, last)
  {
    holders := {w.leader.id} + (set p | p in counted);
    ActiveIsDistinct(known, w.leader.id);
    DistinctSize(counted);
    assert w.leader.id !in counted;
    hide HoldsThrough, ActivePeers;
    assert HoldsThrough(w, w.leader.id, last) by { LeaderHolds(w, last); }
  }

  lemma LeaderHolds(w: L.World, last: int)
    requires 0 <= last <= |w.leader.log|
    ensures HoldsThrough(w, w.leader.id, last)
  {
  }

  lemma {:induction false} DistinctSize(s: seq<NodeId>)
    requires Distinct(s)
    ensures |set p | p in s| == |s|
  {
    if s != [] {
      RestIsDistinct(s);
      DistinctSize(s[1..]);
      assert (set p | p in s) == {s[0]} + (set p | p in s[1..]);
    }
  }

  // ----- a broadcast that nothing interrupts --------------------------------------------------------

  ghost predicate NothingBetween(tries: seq<Try>) {
    forall j :: 0 <= j < |tries| ==> tries[j].before == []
  }

  /** The peer answers every attempt of the round, and in time. */
  ghost predicate AnswersAll(r: Round, p: NodeId) {
    p in r.heard && forall j :: 0 <= j < |TriesOf(r, p)| ==> TriesOf(r, p)[j].fate.Replied?
  }

  ghost predicate AllAnswer(r: Round, served: set<NodeId>) {
    forall p :: p in served ==> AnswersAll(r, p)
  }

  ghost predicate AllNear(w: L.World, served: set<NodeId>, n: int) {
    forall p :: p in served ==> Near(w, p, |w.leader.log|, n)
  }

  ghost predicate Credited(w: L.World, peers: seq<NodeId>, index: int) {
    forall p :: p in peers ==> MatchFor(w.leader, p) >= index
  }

  /** Only peers among `touched`, the leader's tables, and the answers sent differ. */
  ghost predicate AwayFrom(w: L.World, v: L.World, touched: seq<NodeId>) {
    && v.leader == w.leader.(nextIdx := v.leader.nextIdx, matchIdx := v.leader.matchIdx)
    && (forall p :: p !in touched ==> MatchFor(v.leader, p) == MatchFor(w.leader, p))
    && (forall p, last, n :: p !in touched && Near(w, p, last, n) ==> Near(v, p, last, n))
  }

  lemma AwayTwice(w: L.World, v: L.World, u: L.World, peers: seq<NodeId>)
    requires peers != [] && AwayFrom(w, v, [peers[0]]) && AwayFrom(v, u, peers[1..])
    ensures AwayFrom(w, u, peers)
  {
    hide Near, MatchFor;
    forall p | p !in peers ensures p !in [peers[0]] && p !in peers[1..] {
    }
  }

  lemma QuietLoop(x: Stage, p: NodeId, term: int, commit: int, last: int, tries: seq<Try>, active: seq<NodeId>)
    requires L.Inv(x.w) && L.MaySend(x.w, term, commit, last) && Undisputed(x.w, term, active) && p in active
    requires NothingBetween(tries)
    ensures var (next, ok) := CatchUpAmid(x, p, term, commit, last, tries, 0);
      && L.Inv(next.w) && L.MaySend(next.w, term, commit, last) && Undisputed(next.w, term, active) && next.asked == x.asked
      && AwayFrom(x.w, next.w, [p]) && (ok ==> MatchFor(next.w.leader, p) >= last)
  {
    hide L.Inv, L.MaySend, Undisputed, CatchUpFrom, Near;
    UndisturbedCatchUp(x, p, term, commit, last, tries, 0);
    LoopApart(x.w, p, term, commit, last, Fates(tries), 0, active);
    var next := CatchUpAmid(x, p, term, commit, last, tries, 0).0.w;
    forall q, l, n | q !in [p] && Near(x.w, q, l, n) ensures Near(next, q, l, n) {
      NearStays(x.w, next, p, q, l, n);
    }
  }

  /** A peer that answers is brought five nearer, and counted if it was within five. */
  lemma AnsweredLoop(x: Stage, p: NodeId, term: int, commit: int, last: int, tries: seq<Try>, active: seq<NodeId>, n: int)
    requires L.Inv(x.w) && L.MaySend(x.w, term, commit, last) && Undisputed(x.w, term, active) && p in active
    requires last == |x.w.leader.log| && Near(x.w, p, last, n)
    requires NothingBetween(tries) && forall j :: 0 <= j < |tries| ==> tries[j].fate.Replied?
    ensures var (next, ok) := CatchUpAmid(x, p, term, commit, last, tries, 0);
      if n <= MAX_ATTEMPTS then ok else Near(next.w, p, last, n - MAX_ATTEMPTS)
  {
    hide L.Inv, L.MaySend, CatchUpFrom;
    UndisturbedCatchUp(x, p, term, commit, last, tries, 0);
    LoopNears(x.w, p, term, commit, last, Fates(tries), 0, n);
    var next := CatchUpAmid(x, p, term, commit, last, tries, 0).0.w;
    if n > MAX_ATTEMPTS && Near(next, p, last, 1) { NearLess(next, p, last, 1, n - MAX_ATTEMPTS); }
  }

  /** Whatever becomes of its requests, an uninterrupted broadcast leaves the leadership undisputed
      and credits whom it counts. */
  lemma {:induction false} QuietBroadcast(x: Stage, peers: seq<NodeId>, term: int, commit: int, last: int, r: Round, active: seq<NodeId>)
    requires L.Inv(x.w) && L.MaySend(x.w, term, commit, last) && Undisputed(x.w, term, active)
    requires Distinct(peers) && (forall p :: p in peers ==> p in active) && forall p :: NothingBetween(TriesOf(r, p))
    ensures var (end, counted) := Broadcast(x, peers, term, commit, last, r);
      && L.Inv(end.w) && L.MaySend(end.w, term, commit, last) && Undisputed(end.w, term, active) && end.asked == x.asked
      && AwayFrom(x.w, end.w, peers) && Credited(end.w, counted, last)
    decreases |peers|
  {
    hide L.Inv, L.MaySend, Undisputed, CatchUpAmid, NothingBetween, Near, MatchFor, Distinct;
    if peers != [] {
      var (next, ok) := CatchUpAmid(x, peers[0], term, commit, last, TriesOf(r, peers[0]), 0);
      QuietLoop(x, peers[0], term, commit, last, TriesOf(r, peers[0]), active);
      RestIsDistinct(peers);
      QuietBroadcast(next, peers[1..], term, commit, last, r, active);
      AwayTwice(x.w, next.w, Broadcast(x, peers, term, commit, last, r).0.w, peers);
    }
  }

  /** And it brings every peer that answers five nearer, or counts it. */
  lemma {:induction false} AnsweredBroadcast(x: Stage, peers: seq<NodeId>, term: int, commit: int, last: int, r: Round, active: seq<NodeId>, p: NodeId, n: int)
    requires L.Inv(x.w) && L.MaySend(x.w, term, commit, last) && Undisputed(x.w, term, active)
    requires Distinct(peers) && (forall q :: q in peers ==> q in active) && forall q :: NothingBetween(TriesOf(r, q))
    requires last == |x.w.leader.log| && p in peers && AnswersAll(r, p) && Near(x.w, p, last, n)
    ensures var (end, counted) := Broadcast(x, peers, term, commit, last, r);
      if n <= MAX_ATTEMPTS then p in counted else Near(end.w, p, last, n - MAX_ATTEMPTS)
    decreases |peers|
  {
    hide L.Inv, L.MaySend, Undisputed, CatchUpAmid, NothingBetween, Near, MatchFor, Distinct;
    var (next, ok) := CatchUpAmid(x, peers[0], term, commit, last, TriesOf(r, peers[0]), 0);
    QuietLoop(x, peers[0], term, commit, last, TriesOf(r, peers[0]), active);
    RestIsDistinct(peers);
    if p == peers[0] {
      AnsweredLoop(x, p, term, commit, last, TriesOf(r, p), active, n);
      QuietBroadcast(next, peers[1..], term, commit, last, r, active);
    } else {
      AnsweredBroadcast(next, peers[1..], term, commit, last, r, active, p, n);
    }
  }

  ghost predicate QuietRound(r: Round, known: seq<NodeId>) {
    r.meanwhile == [] && r.known == known && forall p :: NothingBetween(TriesOf(r, p))
  }

  /** With the leader, those who answer are a majority of it and its active peers. */
  ghost predicate Enough(known: seq<NodeId>, self: NodeId, served: set<NodeId>) {
    && Distinct(known) && (forall p :: p in served ==> p in ActivePeers(known, self))
    && 1 + |served| >= Majority(|ActivePeers(known, self)| + 1)
  }

  /** A majority is matched at an index, which is what the commit step looks for. */
  ghost predicate Matched(w: L.World, known: seq<NodeId>, index: int) {
    var active := ActivePeers(known, w.leader.id);
    |{w.leader.id} + Reaching(w.leader, active, index)| >= Majority(|active| + 1)
  }

  /** After an uninterrupted broadcast a majority is matched, or all who answered are five nearer. */
  lemma RoundOutcome(x: Stage, known: seq<NodeId>, term: int, commit: int, r: Round, served: set<NodeId>, n: int)
    requires L.Inv(x.w) && L.MaySend(x.w, term, commit, |x.w.leader.log|) && Enough(known, x.w.leader.id, served)
    requires Undisputed(x.w, term, ActivePeers(known, x.w.leader.id)) && AllNear(x.w, served, n)
    requires QuietRound(r, known) && AllAnswer(r, served)
    ensures var active := ActivePeers(known, x.w.leader.id);
            var (end, counted) := Broadcast(x, active, term, commit, |x.w.leader.log|, r);
      && Undisputed(end.w, term, active) && end.asked == x.asked && AwayFrom(x.w, end.w, active)
      && if 1 + |counted| >= Majority(|active| + 1) then Matched(end.w, known, |x.w.leader.log|)
         else n > MAX_ATTEMPTS && AllNear(end.w, served, n - MAX_ATTEMPTS)
  {
    hide L.Inv, L.MaySend, Undisputed, NothingBetween, Near, MatchFor, Distinct, ActivePeers, AnswersAll, Broadcast, AwayFrom, Reaching,
         Majority;
    var active, last := ActivePeers(known, x.w.leader.id), |x.w.leader.log|;
    ActiveIsDistinct(known, x.w.leader.id);
    QuietBroadcast(x, active, term, commit, last, r, active);
    BroadcastKeeps(x, active, term, commit, last, r);
    var (end, counted) := Broadcast(x, active, term, commit, last, r);
    SameLeaderLog(x.w, end.w, active);
    forall p | p in served ensures if n <= MAX_ATTEMPTS then p in counted else Near(end.w, p, last, n - MAX_ATTEMPTS) {
      AnsweredBroadcast(x, active, term, commit, last, r, active, p, n);
    }
    DistinctSize(counted);
    if 1 + |counted| >= Majority(|active| + 1) {
      CreditedReach(end.w, active, counted, last);
    } else if n <= MAX_ATTEMPTS {
      NotMore(served, (set p | p in counted));
    }
  }

  lemma NotMore(a: set<NodeId>, b: set<NodeId>)
    requires a <= b
    ensures |a| <= |b|
  {
    assert b == a + (b - a);
  }

  lemma SameLeaderLog(w: L.World, v: L.World, touched: seq<NodeId>)
    requires AwayFrom(w, v, touched)
    ensures v.leader.log == w.leader.log && v.leader.id == w.leader.id
  {
  }

  lemma CreditedReach(w: L.World, active: seq<NodeId>, counted: seq<NodeId>, last: int)
    requires Credited(w, counted, last) && (forall p :: p in counted ==> p in active) && Distinct(counted)
    requires w.leader.id !in active
    ensures |{w.leader.id} + Reaching(w.leader, active, last)| >= 1 + |counted|
  {
    hide MatchFor;
    DistinctSize(counted);
    NotMore((set p | p in counted), Reaching(w.leader, active, last));
    assert w.leader.id !in Reaching(w.leader, active, last);
  }

  /** A matched index is committed. */
  lemma MatchedIsCommitted(x: Stage, known: seq<NodeId>)
    requires L.Inv(x.w) && x.w.leader.role.Leader? && Distinct(known) && Matched(x.w, known, |x.w.leader.log|)
    ensures Happen(x, L.Commit(known)).w.leader.commitIndex >= |x.w.leader.log|
  {
    hide L.Inv, Reaching, ActivePeers, MajorityIndex, MatchIndexes, Distinct;
    CursorsInOrder(x.w);
    if x.w.leader.commitIndex < |x.w.leader.log| {
      CommitPicks(x.w, known, |x.w.leader.log|);
    } else {
      HappenKeeps(x, L.Commit(known));
    }
  }

  lemma NearAfterAppend(w: L.World, eventId: string, command: Command, served: set<NodeId>, n: int)
    requires forall p :: p in served ==> Near(w, p, |w.leader.log| + 1, n)
    ensures AllNear(L.Next(w, L.Append(eventId, command)), served, n)
  {
    var after := L.Next(w, L.Append(eventId, command));
    L.LongerLog(w, after);
    hide L.Holds;
    forall p | p in served ensures Near(after, p, |after.leader.log|, n) {
      var s :| L.Holds(w, w.peers[p], s) && NextFor(w.leader, p, |w.leader.log| + 1) <= s + n;
      assert L.Holds(after, after.peers[p], s);
    }
  }

  // ----- a network that serves a proposal -------------------------------------------------------------

  function RoundAt(rounds: seq<Round>, i: nat): Round {
    if i < |rounds| then rounds[i] else Round([], [], [], map[], {})
  }

  /** Every broadcast reads the same peers, nothing happens in between, and after the commit step some
      pass meets no fault, if only while the proposal waits. */
  ghost predicate QuietNetwork(net: Network) {
    && net.before.meanwhile == [] && QuietWait(net.polls, net.faults == [])
    && forall i :: 0 <= i < MAX_ROUNDS ==> QuietRound(RoundAt(net.rounds, i), net.known)
  }

  /** Nothing happens while the proposal waits, and there is nothing to wait for or some pass meets no fault. */
  ghost predicate QuietWait(polls: seq<Poll>, applied: bool) {
    && (forall i :: 0 <= i < |polls| ==> polls[i].meanwhile == [])
    && (applied || exists i :: 0 <= i < |polls| && polls[i].faults == [])
  }

  lemma QuietMeansWait(net: Network, applied: bool)
    requires QuietNetwork(net) && (net.faults == [] ==> applied)
    ensures net.before.meanwhile == [] && QuietWait(net.polls, applied)
  {
  }

  /** The active peers that answer everything in time and whose next index is at most 25 beyond
      what they share with the leader, where five broadcasts of five attempts get them. */
  ghost function Willing(w: L.World, net: Network): set<NodeId> {
    set p | p in ActivePeers(net.known, w.leader.id) && Near(w, p, |w.leader.log| + 1, 25)
            && forall i :: 0 <= i < MAX_ROUNDS ==> AnswersAll(RoundAt(net.rounds, i), p)
  }

  /** Five quiet rounds over the same peers, in which enough of them answer. */
  ghost predicate Served(rounds: seq<Round>, known: seq<NodeId>, self: NodeId, served: set<NodeId>) {
    && Enough(known, self, served)
    && forall i :: 0 <= i < MAX_ROUNDS ==> QuietRound(RoundAt(rounds, i), known) && AllAnswer(RoundAt(rounds, i), served)
  }

  /** Who is willing when the proposal starts is served after the append. */
  lemma WillingServe(w: L.World, eventId: string, command: Command, net: Network)
    requires QuietNetwork(net) && Distinct(net.known)
    requires 1 + |Willing(w, net)| >= Majority(|ActivePeers(net.known, w.leader.id)| + 1)
    ensures Served(net.rounds, net.known, w.leader.id, Willing(w, net))
    ensures var after := L.Next(w, L.Append(eventId, command));
      && AllNear(after, Willing(w, net), 25)
      && forall term, active :: Undisputed(w, term, active) ==> Undisputed(after, term, active)
  {
    hide Near, AnswersAll, QuietRound, ActivePeers, Distinct, AllNear, RoundAt;
    NearAfterAppend(w, eventId, command, Willing(w, net), 25);
  }

  /** Entries that are applied from any state of the tables. */
  ghost predicate Unblocked(log: seq<Entry>, from: int) {
    forall i :: 0 <= from <= i < |log| ==> G.Unstoppable(log[i].command) && !Tables.Blank(log[i].eventId)
  }

  lemma PassGoesThrough(env: Tables.Env, m: Machine, log: seq<Entry>, commit: int, faults: seq<Fault>)
    requires Numbered(log) && 0 <= m.lastApplied <= commit <= |log| && Unblocked(log, m.lastApplied) && m.error.None?
    ensures var after := ApplyRows(env, m, Due(log, m.lastApplied, commit), faults);
      after.error.None? && (faults == [] ==> after.lastApplied == commit)
  {
    var due := Due(log, m.lastApplied, commit);
    forall i | 0 <= i < |due| ensures due[i] == log[m.lastApplied + i] {
    }
    hide ApplyRows;
    G.PassLeavesNoError(env, m, due, faults);
    G.PassAppliesAll(env, m, due);
  }

  // ----- what a pass over the committed rows records ------------------------------------------------

  lemma {:induction false} PassRecords(env: Tables.Env, m: Machine, rows: seq<Entry>, faults: seq<Fault>)
    requires forall i :: 0 <= i < |rows| ==> rows[i].index == m.lastApplied + 1 + i
    ensures var after := ApplyRows(env, m, rows, faults);
      && m.lastApplied <= after.lastApplied <= m.lastApplied + |rows|
      && (forall i :: 0 <= i < after.lastApplied - m.lastApplied ==> rows[i].eventId in after.applied)
      && (forall id :: id in m.applied ==> id in after.applied)
    decreases |rows|
  {
    hide Applier.Apply, Applier.Completes, Tables.Blank;
    if rows != [] {
      var (next, go) := ApplyRow(env, m, rows[0], FaultAt(faults, 0));
      if go {
        PassRecords(env, next, rows[1..], if faults == [] then [] else faults[1..]);
        assert forall i :: 0 < i < |rows| ==> rows[i] == rows[1..][i - 1];
      }
    }
  }

  /** Everything applied since the cursor stood at `from` is recorded. */
  ghost predicate RecordedFrom(log: seq<Entry>, applied: map<string, int>, from: int, upTo: int) {
    0 <= from <= upTo <= |log| && forall i :: from <= i < upTo ==> log[i].eventId in applied
  }

  lemma DueRecorded(env: Tables.Env, rows: Rows, log: seq<Entry>, m: Machine, commit: int, due: seq<Entry>, faults: seq<Fault>, from: int)
    requires Represents(rows, log) && 0 <= m.lastApplied <= commit <= |log|
    requires if commit <= m.lastApplied then due == [] else IsScan(rows, m.lastApplied + 1, commit, due)
    requires RecordedFrom(log, m.applied, from, m.lastApplied)
    ensures var after := ApplyRows(env, m, due, faults);
      m.lastApplied <= after.lastApplied <= commit && RecordedFrom(log, after.applied, from, after.lastApplied)
  {
    if m.lastApplied < commit {
      ScanMatches(rows, log, m.lastApplied + 1, commit, due);
      assert due == log[m.lastApplied..commit];
      DueIsNumbered(rows, log, m.lastApplied, commit);
      hide Represents, IsScan, ApplyRows, RecordedFrom;
      PassRecords(env, m, due, faults);
      PassExtends(log, m, ApplyRows(env, m, due, faults), commit, from);
    }
  }

  lemma DueIsNumbered(rows: Rows, log: seq<Entry>, from: int, to: int)
    requires Represents(rows, log) && 0 <= from <= to <= |log|
    ensures forall i :: 0 <= i < |log[from..to]| ==> log[from..to][i].index == from + 1 + i
  {
  }

  lemma PassExtends(log: seq<Entry>, m: Machine, after: Machine, commit: int, from: int)
    requires 0 <= m.lastApplied <= after.lastApplied <= commit <= |log|
    requires RecordedFrom(log, m.applied, from, m.lastApplied)
    requires forall i :: 0 <= i < after.lastApplied - m.lastApplied ==> log[m.lastApplied..commit][i].eventId in after.applied
    requires forall id :: id in m.applied ==> id in after.applied
    ensures RecordedFrom(log, after.applied, from, after.lastApplied)
  {
    forall i | from <= i < after.lastApplied ensures log[i].eventId in after.applied {
      if i >= m.lastApplied { assert log[i] == log[m.lastApplied..commit][i - m.lastApplied]; }
    }
  }

  lemma CursorsInOrder(w: L.World)
    requires L.Inv(w)
    ensures w.since <= w.leader.currentTerm && 0 <= w.leader.lastApplied <= w.leader.commitIndex <= |w.leader.log|
  {
  }

  /** An apply pass moves the leader's apply cursor and nothing else of the leadership. */
  lemma AppliesKeeps(x: Stage, upTo: int)
    requires L.Inv(x.w) && x.w.leader.lastApplied <= upTo <= x.w.leader.commitIndex
    ensures var w := x.w.(leader := x.w.leader.(lastApplied := upTo));
      L.Inv(w) && Onward(x, x.(w := w))
  {
    var ev := L.LeaderApplies(upTo);
    var w := x.w.(leader := x.w.leader.(lastApplied := upTo));
    assert L.Next(x.w, ev) == w && L.Enabled(x.w, ev);
    hide L.Inv, L.Next, L.Enabled, EnoughHolders, HoldsThrough, Backed;
    L.NextKeepsInv(x.w, ev);
    forall n, i | HoldsThrough(x.w, n, i) ensures HoldsThrough(w, n, i) {
      HolderStays(x.w, ev, n, i);
    }
    forall i | 0 < i <= |x.w.leader.log| && Backed(x, i) ensures Backed(x.(w := w), i) {
      BackedStays(x, x.(w := w), i);
    }
  }

  // ----- the node's tables --------------------------------------------------------------------------

  /** If it is known what the tables held before the first entry, they are now what the applier
      makes of the log through the apply cursor, or through the next entry while an attempt at it
      is outstanding. */
  ghost predicate Tabled(env: Tables.Env, start: Option<Tables.Db>, r: Replica, m: Machine, tried: bool) {
    start.Some? ==> C.NodeInv(env, start.value, r, C.Applying(m, tried))
  }

  lemma NextKeepsTables(env: Tables.Env, start: Option<Tables.Db>, w: L.World, ev: L.Event, m: Machine, tried: bool)
    requires L.Inv(w) && L.Enabled(w, ev) && Quiet(w, ev) && DistinctEvents(w.leader.log)
    requires Tabled(env, start, w.leader, m, tried)
    ensures Tabled(env, start, L.Next(w, ev).leader, m, tried)
  {
    hide L.Enabled, L.Next, C.NodeInv, C.KeepsCommitted, DistinctEvents;
    if start.Some? {
      if ev.PeerApplies? {
        PeersOwnPass(w, ev);
      } else {
        C.LeaderEvent(w, ev);
        NextLogIsGood(w, ev);
        C.MovedNodeOk(env, start.value, w.leader, L.Next(w, ev).leader, C.Applying(m, tried));
      }
    }
    hide L.Inv;
  }

  lemma PeersOwnPass(w: L.World, ev: L.Event)
    requires ev.PeerApplies?
    ensures L.Next(w, ev).leader == w.leader
  {
  }

  lemma NextLogIsGood(w: L.World, ev: L.Event)
    requires L.Inv(w) && L.Enabled(w, ev) && Quiet(w, ev) && !ev.PeerApplies? && DistinctEvents(w.leader.log)
    ensures Numbered(L.Next(w, ev).leader.log) && DistinctEvents(L.Next(w, ev).leader.log)
  {
    hide L.Enabled, L.Next, DistinctEvents, C.KeepsCommitted;
    C.LeaderEvent(w, ev);
    assert L.LeaderOk(w);
    assert Numbered(w.leader.log);
    if ev.Append? {
      C.AppendedIsGood(w.leader.log, Entry(w.leader.currentTerm, |w.leader.log| + 1, ev.eventId, ev.command));
    }
    hide L.Inv;
  }

  lemma PassKeepsTables(env: Tables.Env, start: Option<Tables.Db>, r: Replica, m: Machine, tried: bool, due: seq<Entry>, faults: seq<Fault>)
    requires Tabled(env, start, r, m, tried) && due == Due(r.log, m.lastApplied, r.commitIndex)
    ensures var after := ApplyRows(env, m, due, faults);
      Tabled(env, start, r.(lastApplied := after.lastApplied), after, R.TriedAfter(env, m, due, faults, tried))
  {
    if start.Some? {
      C.PassedNodeOk(env, start.value, r, C.Applying(m, tried), faults);
    }
    hide ApplyRows, R.TriedAfter, C.NodeInv, Due;
  }

  lemma DueIsDue(rows: Rows, log: seq<Entry>, lastApplied: int, commit: int, due: seq<Entry>)
    requires Represents(rows, log) && 0 <= lastApplied <= commit <= |log|
    requires if commit <= lastApplied then due == [] else IsScan(rows, lastApplied + 1, commit, due)
    ensures due == Due(log, lastApplied, commit)
  {
    if lastApplied < commit { ScanMatches(rows, log, lastApplied + 1, commit, due); }
    hide Represents, IsScan;
  }

  lemma TablesAt(env: Tables.Env, start: Tables.Db, r: Replica, m: Machine, tried: bool)
    requires Tabled(env, Some(start), r, m, tried)
    ensures var k := m.lastApplied + if tried then 1 else 0;
      0 <= k <= |r.log| && m.db == R.Fold(env, start, r.log[..k])
  {
    hide R.Fold;
  }

  lemma CommitMatches(n: TableReplica, log: seq<Entry>, r: Replica, known: seq<NodeId>)
    requires Represents(n.log, log) && r == WithLog(n, log)
    ensures WithLog(Recalculate(n, known, RowLast(n.log).0), log) == Recalculate(r, known, |log|)
  {
    LastMatches(n.log, log, RowLast(n.log).0, RowLast(n.log).1);
    RecalculateRefines(n, r, known);
    hide Recalculate, Represents, IsLast, RowLast;
  }

  lemma LongerIsRecorded(log: seq<Entry>, longer: seq<Entry>, applied: map<string, int>, from: int, upTo: int)
    requires RecordedFrom(log, applied, from, upTo) && log <= longer
    ensures RecordedFrom(longer, applied, from, upTo)
  {
  }

  class Session {
    const node: Consensus
    const since: int
    /** What the tables held before the first entry, if that is known. */
    ghost const start: Option<Tables.Db>
    var peers: map<NodeId, Replica>
    var beats: set<(NodeId, AppendReq)>
    var answers: set<L.Answer>
    ghost var log: seq<Entry>
    /** The lists of peers that commit steps have read. */
    ghost var asked: set<seq<NodeId>>
    /** An unrecorded attempt at the next entry is outstanding. */
    ghost var tried: bool

    constructor (node: Consensus, since: int, peers: map<NodeId, Replica>, ghost log: seq<Entry>,
                 ghost start: Option<Tables.Db>, ghost tried: bool)
      ensures this.node == node && this.since == since && this.peers == peers && this.log == log
      ensures this.start == start && this.tried == tried
      ensures beats == {} && answers == {} && asked == {}
    {
      this.node, this.since, this.peers, this.log, this.start, this.tried := node, since, peers, log, start, tried;
      beats, answers, asked := {}, {}, {};
    }

    /** The leadership this node is in. */
    ghost function World(): L.World
      reads this, node
    {
      L.World(WithLog(node.State(), log), peers, beats, answers, since)
    }

    ghost function Now(): Stage
      reads this, node
    {
      Stage(World(), asked)
    }

    /** The rows stand for the log, the event ids are distinct, the leadership is sound, and the
        tables are what they should be. */
    ghost predicate Valid()
      reads this, node, node.store
    {
      && Represents(node.rows, log) && DistinctEvents(log) && L.Inv(World()) && node.store.Valid()
      && Tabled(node.store.env, start, World().leader, node.Applying(), tried)
    }

    /** The tables are what the applier makes of the log through the index at least. */
    ghost predicate TablesThrough(index: int)
      reads this, node, node.store
      requires start.Some?
    {
      exists k: nat :: index <= k <= |log| && node.store.Db() == R.Fold(node.store.env, start.value, log[..k])
    }

    /** Nobody disputes the leadership, and those who answer are near. */
    ghost predicate Serving(known: seq<NodeId>, served: set<NodeId>, n: int)
      reads this, node
    {
      Undisputed(World(), node.currentTerm, ActivePeers(known, node.nodeId)) && AllNear(World(), served, n)
    }

    /** No error is pending, and what is still to be applied will be. */
    ghost predicate Flowing()
      reads this, node
    {
      node.applyErr.None? && Unblocked(log, node.lastApplied)
    }

    /** The network and the log let this proposal through: a leader in nobody's older term, a majority
        that answers, nothing in between, and only entries that are applied from any state. */
    ghost predicate Unobstructed(eventId: string, command: Command, net: Network)
      reads this, node
    {
      var active := ActivePeers(net.known, node.nodeId);
      && node.applyErr.None? && Undisputed(World(), node.currentTerm, active)
      && QuietNetwork(net) && 1 + |Willing(World(), net)| >= Majority(|active| + 1)
      && Unblocked(log + [Entry(node.currentTerm, |log| + 1, eventId, command)], node.lastApplied)
    }

    method Log() returns (entries: seq<Entry>)
      requires Valid()
      ensures entries == log
    {
      hide Represents, L.Inv, IsScan, DistinctEvents, Tabled;
      var last, term := node.LastIndexTerm();
      LastMatches(node.rows, log, last, term);
      entries := node.Select(1, last);
      ScanMatches(node.rows, log, 1, last, entries);
    }

    /** A request to a peer, which may get lost on the way there or back. */
    method Post(p: NodeId, req: AppendReq, last: int, fate: L.Fate) returns (resp: Option<AppendResp>)
      modifies this`peers, this`answers
      ensures var handled := p in old(peers) && !fate.Lost?;
        && peers == (if handled then old(peers)[p := HandleAppend(old(peers)[p], req).0] else old(peers))
        && answers == (if handled then old(answers) + {L.Answer(p, req.term, last, HandleAppend(old(peers)[p], req).1)}
                       else old(answers))
      ensures resp == if p in old(peers) && fate.Replied? then Some(HandleAppend(old(peers)[p], req).1) else None
    {
      if p !in peers || fate.Lost? { return None; }
      var (after, answer) := HandleAppend(peers[p], req);
      peers, answers := peers[p := after], answers + {L.Answer(p, req.term, last, answer)};
      return if fate.Replied? then Some(answer) else None;
    }

    /** One attempt of the per-peer loop. */
    method Ask(p: NodeId, term: int, commit: int, last: int, fate: L.Fate) returns (verdict: Verdict)
      requires Valid() && L.MaySend(World(), term, commit, last)
      modifies this`peers, this`answers, node`currentTerm, node`role, node`leader, node`nextIdx, node`matchIdx
      ensures (World(), verdict) == Attempt(old(World()), p, term, commit, last, fate)
      ensures Valid()
    {
      ghost var before := Now();
      hide Represents, L.Inv, DistinctEvents, Tabled, MayBuild, HandleAppend, OnReply, BuildAppend, RowLast, Onward;
      CursorsInOrder(World());
      var req := node.BuildRequest(p, term, commit, last);
      RequestMatches(node.State(), log, World(), p, term, commit, last, req);
      var resp := Post(p, req, last, fate);
      if resp.Some? {
        ReplyIsUniform(node.State(), before.w.leader, p, term, last, resp.value);
        node.OnAppendReply(p, term, last, resp.value);
      }
      verdict := if resp.None? || resp.value.term > term then GaveUp
                 else if resp.value.success then Synced
                 else Again;
      assert (World(), verdict) == Attempt(before.w, p, term, commit, last, fate);
      AttemptKeeps(before, p, term, commit, last, fate);
      AttemptKeepsTables(node.store.env, start, before.w, p, term, commit, last, fate, node.Applying(), tried);
    }

    lemma AttemptKeepsTables(env: Tables.Env, start: Option<Tables.Db>, w: L.World, p: NodeId, term: int, commit: int, last: int,
                             fate: L.Fate, m: Machine, tried: bool)
      requires L.Inv(w) && L.MaySend(w, term, commit, last) && DistinctEvents(w.leader.log)
      requires Tabled(env, start, w.leader, m, tried)
      ensures Tabled(env, start, Attempt(w, p, term, commit, last, fate).0.leader, m, tried)
    {
      hide L.Inv, Tabled, Attempt, L.Next, L.Enabled, L.MaySend, DistinctEvents;
      if p in w.peers {
        AttemptIsRpc(w, p, term, commit, last, fate);
        NextKeepsTables(env, start, w, L.Rpc(p, term, commit, last, fate), m, tried);
      } else {
        Absent(w, p, term, commit, last, fate);
      }
    }

    /** One thing that happens between this node's own steps. */
    method Let(ev: L.Event)
      requires Valid()
      modifies this`peers, this`beats, this`answers, this`log, this`asked
      modifies node`currentTerm, node`votedFor, node`commitIndex, node`role, node`leader, node`rows, node`nextIdx, node`matchIdx
      ensures Now() == Happen(old(Now()), ev)
      ensures Valid() && Onward(old(Now()), Now())
    {
      hide Represents, L.Inv, DistinctEvents, Tabled, L.Enabled, HandleVote, HandleAppend, BuildEmpty, L.AfterRpc, Onward, OnReply,
           Recalculate, Quiet, L.Handle;
      ghost var before := Now();
      HappenKeeps(before, ev);
      var entries := Log();
      var w := L.World(WithLog(node.State(), entries), peers, beats, answers, since);
      if !Quiet(w, ev) || !L.Enabled(w, ev) { return; }
      QuietMeans(w, ev);
      if ev.Append? {
        Append(ev.eventId, ev.command);
      } else if ev.Commit? {
        CommitStep(ev.known);
      } else if ev.Rpc? {
        var verdict := Ask(ev.peer, ev.term, ev.commit, ev.last, ev.fate);
        AttemptIsRpc(w, ev.peer, ev.term, ev.commit, ev.last, ev.fate);
      } else {
        NextKeepsTables(node.store.env, start, w, ev, node.Applying(), tried);
        Elsewhere(ev, w);
      }
    }

    lemma QuietMeans(w: L.World, ev: L.Event)
      requires Quiet(w, ev) && L.Enabled(w, ev)
      ensures !ev.LeaderApplies?
      ensures ev.Append? ==> w.leader.role.Leader? && forall i :: 0 <= i < |w.leader.log| ==> w.leader.log[i].eventId != ev.eventId
      ensures ev.Commit? ==> Distinct(ev.known)
      ensures ev.Rpc? ==> L.MaySend(w, ev.term, ev.commit, ev.last) && ev.peer in w.peers
    {
    }

    predicate AtLeader(ev: L.Event) {
      ev.Answered? || ev.BeatReply? || ev.LeaderVotes? || ev.Demotion?
    }

    /** What happens at the peers, on the way, or to the leader's term, role and tables. */
    method Elsewhere(ev: L.Event, w: L.World)
      requires Valid() && w == World() && L.Enabled(w, ev) && L.Inv(L.Next(w, ev))
      requires !ev.Append? && !ev.Commit? && !ev.Rpc? && !ev.LeaderApplies?
      requires Tabled(node.store.env, start, L.Next(w, ev).leader, node.Applying(), tried)
      modifies this`peers, this`beats, this`answers
      modifies node`currentTerm, node`votedFor, node`role, node`leader, node`nextIdx, node`matchIdx
      ensures World() == L.Next(w, ev) && Valid()
    {
      hide Represents, L.Inv, DistinctEvents, Tabled, L.Enabled, L.Next;
      if AtLeader(ev) {
        AtLeaderOnly(w, ev);
        Bookkeeping(ev, w);
      } else {
        AtPeersOnly(w, ev);
        var next := L.Next(w, ev);
        peers, beats, answers := next.peers, next.beats, next.answers;
      }
    }

    lemma AtLeaderOnly(w: L.World, ev: L.Event)
      requires AtLeader(ev)
      ensures L.Next(w, ev) == w.(leader := L.Next(w, ev).leader)
    {
      hide OnReply, HandleVote, ObserveTerm;
    }

    lemma AtPeersOnly(w: L.World, ev: L.Event)
      requires !AtLeader(ev) && !ev.Append? && !ev.Commit? && !ev.Rpc? && !ev.LeaderApplies?
      ensures var next := L.Next(w, ev);
        next == L.World(w.leader, next.peers, next.beats, next.answers, w.since)
    {
      hide HandleAppend, HandleVote, BuildEmpty;
    }

    /** A reply, a vote request or a demotion at the leader. */
    method Bookkeeping(ev: L.Event, w: L.World)
      requires AtLeader(ev) && Represents(node.rows, w.leader.log) && WithLog(node.State(), w.leader.log) == w.leader
      modifies node`currentTerm, node`votedFor, node`role, node`leader, node`nextIdx, node`matchIdx
      ensures WithLog(node.State(), w.leader.log) == L.Next(w, ev).leader
    {
      hide Represents, HandleVote, OnReply, Vote, ObserveTerm, StepDown;
      ghost var n := node.State();
      match ev {
        case Answered(a) =>
          ReplyIsUniform(n, w.leader, a.peer, a.sentTerm, a.last, a.resp);
          node.OnAppendReply(a.peer, a.sentTerm, a.last, a.resp);
        case BeatReply(sentTerm, replyTerm) =>
          TermIsUniform(n, w.leader, sentTerm, replyTerm);
          node.OnTerm(sentTerm, replyTerm);
        case LeaderVotes(vote) =>
          var resp, index, term := node.HandleRequestVote(vote);
          VoterRefines(n, w.leader, vote, index, term);
          VoteKeepsLog(w.leader, vote);
        case Demotion =>
          node.Demote();
          DemotionIsUniform(n, w.leader);
      }
    }

    lemma TermIsUniform(n: TableReplica, r: Replica, sentTerm: int, replyTerm: int)
      requires WithLog(n, r.log) == r
      ensures WithLog(ObserveTerm(n, sentTerm, replyTerm), r.log) == ObserveTerm(r, sentTerm, replyTerm)
    {
    }

    lemma DemotionIsUniform(n: TableReplica, r: Replica)
      requires WithLog(n, r.log) == r
      ensures WithLog(StepDown(n), r.log) == StepDown(r)
    {
    }

    lemma VoteKeepsLog(r: Replica, vote: VoteReq)
      ensures HandleVote(r, vote).0.log == r.log
    {
    }

    method TakeIndex() returns (next: int)
      requires Valid()
      ensures next == |log| + 1
    {
      hide L.Inv, Tabled, DistinctEvents, RowLast, IsLast;
      next := node.NextIndex();
      LastMatches(node.rows, log, RowLast(node.rows).0, RowLast(node.rows).1);
    }

    /** The entry goes to the table, and the table still stands for the log. */
    method Append(eventId: string, command: Command)
      requires Valid() && node.role.Leader? && forall i :: 0 <= i < |log| ==> log[i].eventId != eventId
      modifies this`log, node`rows
      ensures Now() == Happen(old(Now()), L.Append(eventId, command))
      ensures Valid() && log == old(log) + [Entry(node.currentTerm, |old(log)| + 1, eventId, command)]
    {
      ghost var before := World();
      hide L.Inv, Tabled;
      var next := TakeIndex();
      var entry := Entry(node.currentTerm, next, eventId, command);
      AppendRow(node.rows, log, entry);
      node.AppendLog(entry);
      log := log + [entry];
      L.AppendKeepsInv(before, eventId, command);
      NextKeepsTables(node.store.env, start, before, L.Append(eventId, command), node.Applying(), tried);
    }

    method CommitStep(known: seq<NodeId>)
      requires Valid() && Distinct(known)
      modifies node`commitIndex, this`asked
      ensures Now() == Happen(old(Now()), L.Commit(known)) && Valid()
    {
      ghost var before := Now();
      hide Represents, DistinctEvents, L.Inv, Tabled, Recalculate, Distinct, Onward;
      HappenKeeps(before, L.Commit(known));
      if node.role.Leader? { NextKeepsTables(node.store.env, start, before.w, L.Commit(known), node.Applying(), tried); }
      CommitMatches(node.State(), log, before.w.leader, known);
      node.RecalculateCommitIndex(known);
      if node.role.Leader? { asked := asked + {known}; } else { NoCommit(before.w.leader, known); }
    }

    lemma NoCommit(r: Replica, known: seq<NodeId>)
      requires !r.role.Leader?
      ensures Recalculate(r, known, |r.log|) == r
    {
    }

    method LetAll(evs: seq<L.Event>)
      requires Valid()
      modifies this`peers, this`beats, this`answers, this`log, this`asked
      modifies node`currentTerm, node`votedFor, node`commitIndex, node`role, node`leader, node`rows, node`nextIdx, node`matchIdx
      ensures Now() == Meanwhile(old(Now()), evs)
      ensures Valid() && Onward(old(Now()), Now())
    {
      hide Represents, L.Inv, DistinctEvents, Tabled, Happen, Onward;
      MeanwhileKeeps(Now(), evs);
      var i := 0;
      while i < |evs|
        invariant 0 <= i <= |evs| && Valid()
        invariant Meanwhile(Now(), evs[i..]) == Meanwhile(old(Now()), evs)
      {
        assert evs[i..][1..] == evs[i + 1..];
        Let(evs[i]);
        i := i + 1;
      }
    }

    /** Up to five attempts at one peer. */
    method CatchUpPeer(p: NodeId, term: int, commit: int, last: int, tries: seq<Try>) returns (ok: bool)
      requires Valid() && L.MaySend(World(), term, commit, last)
      modifies this`peers, this`beats, this`answers, this`log, this`asked
      modifies node`currentTerm, node`votedFor, node`commitIndex, node`role, node`leader, node`rows, node`nextIdx, node`matchIdx
      ensures (Now(), ok) == CatchUpAmid(old(Now()), p, term, commit, last, tries, 0)
      ensures Valid()
    {
      hide Represents, L.Inv, DistinctEvents, Tabled, Attempt, Meanwhile, Onward, L.MaySend, HoldsThrough;
      var attempt := 0;
      while attempt < MAX_ATTEMPTS
        invariant 0 <= attempt <= MAX_ATTEMPTS && Valid() && L.MaySend(World(), term, commit, last)
        invariant CatchUpAmid(Now(), p, term, commit, last, tries, attempt)
                  == CatchUpAmid(old(Now()), p, term, commit, last, tries, 0)
      {
        var t := TryAt(tries, attempt);
        var verdict := AskAfter(p, term, commit, last, t);
        if !verdict.Again? { return verdict.Synced?; }
        attempt := attempt + 1;
      }
      return false;
    }

    method AskAfter(p: NodeId, term: int, commit: int, last: int, t: Try) returns (verdict: Verdict)
      requires Valid() && L.MaySend(World(), term, commit, last)
      modifies this`peers, this`beats, this`answers, this`log, this`asked
      modifies node`currentTerm, node`votedFor, node`commitIndex, node`role, node`leader, node`rows, node`nextIdx, node`matchIdx
      ensures (Now(), verdict) == TryOnce(old(Now()), p, term, commit, last, t)
      ensures Valid() && L.MaySend(World(), term, commit, last)
    {
      hide Represents, L.Inv, DistinctEvents, Tabled, Attempt, Meanwhile, Onward, L.MaySend, HoldsThrough;
      ghost var before := Now();
      TryKeeps(before, p, term, commit, last, t);
      MeanwhileMaySend(before, t.before, term, commit, last);
      LetAll(t.before);
      verdict := Ask(p, term, commit, last, t.fate);
    }

    lemma MeanwhileMaySend(x: Stage, evs: seq<L.Event>, term: int, commit: int, last: int)
      requires L.Inv(x.w) && L.MaySend(x.w, term, commit, last)
      ensures L.MaySend(Meanwhile(x, evs).w, term, commit, last)
    {
      hide L.Inv, Meanwhile, Steady, L.MaySend;
      MeanwhileKeeps(x, evs);
      MaySendStays(x.w, Meanwhile(x, evs).w, term, commit, last);
    }

    /** Replicate to every active peer; a majority counts the node itself, and holds the log
        through the last index that was read at the start. */
    method BroadcastAppendEntries(term: int, commit: int, r: Round)
      returns (majority: bool, ghost last: int, ghost holders: set<NodeId>)
      requires Valid() && since <= term <= node.currentTerm && 0 <= commit <= node.commitIndex
      modifies this`peers, this`beats, this`answers, this`log, this`asked
      modifies node`currentTerm, node`votedFor, node`commitIndex, node`role, node`leader, node`rows, node`nextIdx, node`matchIdx
      ensures last == |old(log)|
      ensures var (end, counted) := Broadcast(old(Now()), ActivePeers(r.known, node.nodeId), term, commit, last, r);
        && Now() == end
        && (majority <==> 1 + |counted| >= Majority(|ActivePeers(r.known, node.nodeId)| + 1))
      ensures Valid() && Onward(old(Now()), Now())
      ensures majority && Distinct(r.known) ==> EnoughHolders(World(), holders, r.known, last)
    {
      hide Represents, L.Inv, DistinctEvents, Tabled, CatchUpAmid, ActivePeers, IsLast, Onward, Distinct, HoldsThrough;
      ghost var before := Now();
      CursorsInOrder(World());
      var active := node.Active(r.known);
      var lastIdx, lastTerm := node.LastIndexTerm();
      LastMatches(node.rows, log, lastIdx, lastTerm);
      last := lastIdx;
      BroadcastKeeps(before, active, term, commit, lastIdx, r);
      var successes := ServeAll(active, term, commit, lastIdx, r);
      ghost var counted := Broadcast(before, active, term, commit, lastIdx, r).1;
      majority, holders := successes >= (|active| + 1) / 2 + 1, {};
      if majority {
        if Distinct(r.known) {
          ActiveIsDistinct(r.known, node.nodeId);
          OnwardLog(before, Now());
          holders := CountedHold(World(), r.known, counted, lastIdx);
        }
      }
    }

    lemma OnwardLog(x: Stage, y: Stage)
      requires Onward(x, y)
      ensures Steady(x.w, y.w) && |x.w.leader.log| <= |y.w.leader.log|
    {
    }

    method ServeAll(active: seq<NodeId>, term: int, commit: int, lastIdx: int, r: Round) returns (successes: nat)
      requires Valid() && L.MaySend(World(), term, commit, lastIdx)
      modifies this`peers, this`beats, this`answers, this`log, this`asked
      modifies node`currentTerm, node`votedFor, node`commitIndex, node`role, node`leader, node`rows, node`nextIdx, node`matchIdx
      ensures Now() == Broadcast(old(Now()), active, term, commit, lastIdx, r).0
      ensures successes == 1 + |Broadcast(old(Now()), active, term, commit, lastIdx, r).1|
      ensures Valid()
    {
      hide Represents, L.Inv, DistinctEvents, Tabled, CatchUpAmid, Onward, L.MaySend, HoldsThrough;
      ghost var end := Broadcast(Now(), active, term, commit, lastIdx, r);
      var i := 0;
      successes := 1;
      while i < |active|
        invariant 0 <= i <= |active| && Valid() && L.MaySend(World(), term, commit, lastIdx) && successes >= 1
        invariant var rest := Broadcast(Now(), active[i..], term, commit, lastIdx, r);
          rest.0 == end.0 && |rest.1| + successes == |end.1| + 1
      {
        assert active[i..][1..] == active[i + 1..];
        CatchUpKeeps(Now(), active[i], term, commit, lastIdx, TriesOf(r, active[i]), 0);
        var ok := CatchUpPeer(active[i], term, commit, lastIdx, TriesOf(r, active[i]));
        if ok && active[i] in r.heard { successes := successes + 1; }
        i := i + 1;
      }
    }

    /** A pass over the committed rows. */
    method ApplyPass(faults: seq<Fault>, ghost from: int)
      requires Valid() && RecordedFrom(log, node.store.applied, from, node.lastApplied)
      modifies this`tried, node.store, node`lastApplied, node`applyErr, node`applyErrIndex, node`trace
      ensures Valid() && RecordedFrom(log, node.store.applied, from, node.lastApplied)
      ensures Onward(old(Now()), Now())
      ensures old(Flowing()) ==> Flowing() && (faults == [] ==> node.lastApplied == node.commitIndex)
    {
      hide Represents, DistinctEvents, L.Inv, Tabled, RecordedFrom, ApplyRows, IsScan, Tables.SchemaOk, Onward, Unblocked;
      ghost var m, leader := node.Applying(), World().leader;
      CursorsInOrder(World());
      ghost var due := Pass(faults, Now());
      DueRecorded(node.store.env, node.rows, log, m, node.commitIndex, due, faults, from);
      assert node.Applying() == ApplyRows(node.store.env, m, due, faults);
      DueIsDue(node.rows, log, m.lastApplied, node.commitIndex, due);
      if old(Flowing()) { GoesThrough(World(), node.store.env, m, node.commitIndex, faults); }
      PassKeepsTables(node.store.env, start, leader, m, tried, due, faults);
      tried := R.TriedAfter(node.store.env, m, due, faults, tried);
    }

    lemma GoesThrough(w: L.World, env: Tables.Env, m: Machine, commit: int, faults: seq<Fault>)
      requires L.Inv(w) && 0 <= m.lastApplied <= commit <= |w.leader.log| && Unblocked(w.leader.log, m.lastApplied) && m.error.None?
      ensures var after := ApplyRows(env, m, Due(w.leader.log, m.lastApplied, commit), faults);
        && after.error.None? && (faults == [] ==> after.lastApplied == commit)
        && (m.lastApplied <= after.lastApplied ==> Unblocked(w.leader.log, after.lastApplied))
    {
      assert L.LeaderOk(w);
      hide L.Inv, ApplyRows;
      PassGoesThrough(env, m, w.leader.log, commit, faults);
    }

    method Pass(faults: seq<Fault>, ghost before: Stage) returns (ghost due: seq<Entry>)
      requires node.store.Valid() && before == Now()
      modifies node.store, node`lastApplied, node`applyErr, node`applyErrIndex, node`trace
      ensures node.store.Valid()
      ensures if node.commitIndex <= old(node.lastApplied) then due == []
              else IsScan(node.rows, old(node.lastApplied) + 1, node.commitIndex, due)
      ensures node.Applying() == ApplyRows(node.store.env, old(node.Applying()), due, faults)
      ensures L.Inv(before.w) && old(node.lastApplied) <= node.lastApplied <= node.commitIndex ==>
        L.Inv(World()) && Onward(before, Now())
    {
      hide ApplyRows, IsScan, L.Inv, Onward;
      due := node.ApplyCommitted(faults);
      assert World() == before.w.(leader := before.w.leader.(lastApplied := node.lastApplied));
      if L.Inv(before.w) && before.w.leader.lastApplied <= node.lastApplied <= node.commitIndex {
        AppliesKeeps(before, node.lastApplied);
      }
    }

    /** Up to five broadcasts, until one reaches a majority, which one does if nothing interferes. */
    method Replicate(term: int, rounds: seq<Round>, ghost from: int, ghost known: seq<NodeId>, ghost served: set<NodeId>)
      requires Valid() && since <= term <= node.currentTerm && RecordedFrom(log, node.store.applied, from, node.lastApplied)
      modifies this, node, node.store
      ensures Valid() && RecordedFrom(log, node.store.applied, from, node.lastApplied)
      ensures Onward(old(Now()), Now())
      ensures old(Serving(known, served, 25)) && old(Flowing()) && term == old(node.currentTerm)
        && Served(rounds, known, node.nodeId, served)
        ==> log == old(log) && Flowing() && node.role.Leader? && Matched(World(), known, |log|)
    {
      hide Represents, DistinctEvents, L.Inv, Tabled, RecordedFrom, RoundAt, Onward, Unblocked, Undisputed, AllNear, AllAnswer,
           QuietRound, Enough, Matched, ActivePeers;
      ghost var smooth := Serving(known, served, 25) && Flowing() && term == node.currentTerm && Served(rounds, known, node.nodeId, served);
      var attempt := 0;
      OnwardSelf(Now());
      while attempt < MAX_ROUNDS
        invariant 0 <= attempt <= MAX_ROUNDS && Valid() && since <= term <= node.currentTerm
        invariant RecordedFrom(log, node.store.applied, from, node.lastApplied) && Onward(old(Now()), Now())
        invariant smooth ==> attempt < MAX_ROUNDS && log == old(log) && Flowing() && term == node.currentTerm
                             && Serving(known, served, 25 - MAX_ATTEMPTS * attempt)
      {
        ghost var now := Now();
        var majority := OneRound(term, RoundAt(rounds, attempt), from, known, served, 25 - MAX_ATTEMPTS * attempt);
        OnwardTwice(old(Now()), now, Now());
        if smooth { UndisputedMeans(World(), term, ActivePeers(known, node.nodeId)); }
        if majority { break; }
        attempt := attempt + 1;
      }
    }

    lemma UndisputedMeans(w: L.World, term: int, active: seq<NodeId>)
      requires Undisputed(w, term, active)
      ensures w.leader.role.Leader? && w.leader.currentTerm == term
    {
    }

    /** One broadcast, after what happens before it.  If nothing interferes, it reaches a majority or
        brings those who answer five nearer. */
    method OneRound(term: int, round: Round, ghost from: int, ghost known: seq<NodeId>, ghost served: set<NodeId>, ghost n: int)
      returns (majority: bool)
      requires Valid() && since <= term <= node.currentTerm && RecordedFrom(log, node.store.applied, from, node.lastApplied)
      modifies this, node, node.store
      ensures Valid() && term <= node.currentTerm && RecordedFrom(log, node.store.applied, from, node.lastApplied)
      ensures Onward(old(Now()), Now())
      ensures old(Serving(known, served, n)) && old(Flowing()) && term == old(node.currentTerm)
        && QuietRound(round, known) && AllAnswer(round, served) && Enough(known, node.nodeId, served)
        ==> log == old(log) && Flowing() && Undisputed(World(), term, ActivePeers(known, node.nodeId))
            && if majority then Matched(World(), known, |log|)
               else n > MAX_ATTEMPTS && Serving(known, served, n - MAX_ATTEMPTS)
    {
      hide Represents, DistinctEvents, L.Inv, Tabled, Broadcast, ActivePeers, RecordedFrom, Onward, EnoughHolders, Unblocked,
           Undisputed, AllNear, QuietNetwork, Enough, AllAnswer, NothingBetween, Matched, L.MaySend, AwayFrom;
      Interlude(round.meanwhile, round.faults, from);
      ghost var met := Now();
      ghost var applied := node.store.applied;
      CursorsInOrder(World());
      OnwardLog(old(Now()), met);
      if old(Serving(known, served, n)) && QuietRound(round, known) {
        AppliedIsServing(old(World()), node.lastApplied, term, ActivePeers(known, node.nodeId), served, n);
      }
      ghost var last, holders;
      majority, last, holders := BroadcastAppendEntries(term, node.commitIndex, round);
      OnwardLog(met, Now());
      LongerIsRecorded(met.w.leader.log, log, applied, from, node.lastApplied);
      OnwardTwice(old(Now()), met, Now());
      if old(Serving(known, served, n)) && term == old(node.currentTerm) && QuietRound(round, known)
         && AllAnswer(round, served) && Enough(known, node.nodeId, served) {
        MayBroadcast(met.w, term);
        RoundOutcome(met, known, term, met.w.leader.commitIndex, round, served, n);
        SameLeaderLog(met.w, World(), ActivePeers(known, node.nodeId));
        UndisputedMeans(World(), term, ActivePeers(known, node.nodeId));
      }
    }

    lemma AppliedIsServing(w: L.World, upTo: int, term: int, active: seq<NodeId>, served: set<NodeId>, n: int)
      ensures var v := w.(leader := w.leader.(lastApplied := upTo));
        && (Undisputed(w, term, active) ==> Undisputed(v, term, active))
        && (AllNear(w, served, n) ==> AllNear(v, served, n))
    {
      var v := w.(leader := w.leader.(lastApplied := upTo));
      assert forall r, i :: L.Holds(w, r, i) <==> L.Holds(v, r, i);
      hide L.Holds;
      if AllNear(w, served, n) {
        forall p | p in served ensures Near(v, p, |v.leader.log|, n) {
          var s :| L.Holds(w, w.peers[p], s) && NextFor(w.leader, p, |w.leader.log|) <= s + n;
          assert L.Holds(v, v.peers[p], s);
        }
      }
    }

    lemma MayBroadcast(w: L.World, term: int)
      requires L.Inv(w) && w.since <= term <= w.leader.currentTerm
      ensures L.MaySend(w, term, w.leader.commitIndex, |w.leader.log|)
    {
    }

    /** What happens between two of the leader's own steps, and a background pass. */
    method Interlude(meanwhile: seq<L.Event>, faults: seq<Fault>, ghost from: int)
      requires Valid() && RecordedFrom(log, node.store.applied, from, node.lastApplied)
      modifies this, node, node.store
      ensures Valid() && RecordedFrom(log, node.store.applied, from, node.lastApplied)
      ensures Onward(old(Now()), Now())
      ensures meanwhile == [] ==>
        log == old(log) && Now() == old(Now()).(w := old(World()).(leader := old(World()).leader.(lastApplied := node.lastApplied)))
      ensures meanwhile == [] && old(Flowing()) ==> Flowing() && (faults == [] ==> node.lastApplied == node.commitIndex)
    {
      hide Represents, DistinctEvents, L.Inv, Tabled, RecordedFrom, Onward, Unblocked, Happen;
      LetAll(meanwhile);
      ghost var met := Now();
      OnwardLog(old(Now()), met);
      LongerIsRecorded(old(log), log, node.store.applied, from, node.lastApplied);
      ApplyPass(faults, from);
      OnwardTwice(old(Now()), met, Now());
    }

    /** Append, replicate, then commit and apply, whether or not a majority answered.  If nothing
        stands in the way, the entry is committed and applied. */
    method ReplicateAndCommit(eventId: string, command: Command, net: Network)
      requires Valid() && node.role.Leader? && Distinct(net.known)
      requires forall i :: 0 <= i < |log| ==> log[i].eventId != eventId
      modifies this, node, node.store
      ensures Valid() && old(log) + [Entry(old(node.currentTerm), |old(log)| + 1, eventId, command)] <= log
      ensures Backed(Now(), |old(log)| + 1)
      ensures RecordedFrom(log, node.store.applied, old(node.lastApplied), node.lastApplied)
      ensures old(Unobstructed(eventId, command, net)) ==>
        && Flowing() && node.role.Leader? && node.commitIndex > |old(log)| && (node.lastApplied > |old(log)| || net.faults != [])
    {
      hide Represents, DistinctEvents, L.Inv, Tabled, Distinct, RecordedFrom, Onward, Backed, Unblocked, Undisputed, AllNear,
           Willing, QuietNetwork, Enough, Matched, Served;
      ghost var from, index, term := node.lastApplied, |log| + 1, node.currentTerm;
      CursorsInOrder(World());
      Nothing(log, node.store.applied, from);
      ghost var served, smooth := Willing(World(), net), Unobstructed(eventId, command, net);
      Append(eventId, command);
      ghost var appended := Now();
      NotYetCommitted(appended, index);
      LongerIsRecorded(old(log), log, node.store.applied, from, from);
      CursorsInOrder(World());
      if smooth {
        WillingServe(old(World()), eventId, command, net);
        assert Serving(net.known, served, 25) && Flowing();
      }
      Replicate(node.currentTerm, net.rounds, from, net.known, served);
      ghost var replicated := Now();
      if smooth { QuietMeansWait(net, true); }
      CommitAndApply(net, from);
      OnwardTwice(appended, replicated, Now());
      OnwardLog(appended, Now());
      StillBacked(appended, Now(), index);
    }

    lemma Nothing(log: seq<Entry>, applied: map<string, int>, from: int)
      requires 0 <= from <= |log|
      ensures RecordedFrom(log, applied, from, from)
    {
    }

    lemma NotYetCommitted(x: Stage, index: int)
      requires x.w.leader.commitIndex < index
      ensures Backed(x, index)
    {
    }

    lemma StillBacked(x: Stage, y: Stage, index: int)
      requires Onward(x, y) && 0 < index <= |x.w.leader.log| && Backed(x, index)
      ensures Backed(y, index)
    {
      hide Backed, HoldsThrough;
    }

    /** Other things may happen before the commit step, and between it and the pass. */
    method CommitAndApply(net: Network, ghost from: int)
      requires Valid() && Distinct(net.known) && RecordedFrom(log, node.store.applied, from, node.lastApplied)
      modifies this, node, node.store
      ensures Valid() && RecordedFrom(log, node.store.applied, from, node.lastApplied)
      ensures Onward(old(Now()), Now())
      ensures net.before.meanwhile == [] && old(Flowing()) && old(node.role).Leader? && old(Matched(World(), net.known, |log|))
        ==> Flowing() && node.role.Leader? && node.commitIndex >= |old(log)|
            && (net.faults == [] ==> node.lastApplied == node.commitIndex)
    {
      hide Represents, DistinctEvents, L.Inv, Tabled, Distinct, RecordedFrom, Onward, Unblocked, Matched, Happen;
      Interlude(net.before.meanwhile, net.before.faults, from);
      ghost var met := Now();
      if net.before.meanwhile == [] && old(Matched(World(), net.known, |log|)) && node.role.Leader? {
        AppliedIsMatched(old(World()), node.lastApplied, net.known, |log|);
        MatchedIsCommitted(met, net.known);
      }
      CommitStays(met, net.known);
      HappenKeeps(met, L.Commit(net.known));
      CommitStep(net.known);
      ghost var committed := Now();
      ApplyPass(net.faults, from);
      OnwardTwice(old(Now()), met, committed);
      OnwardTwice(old(Now()), committed, Now());
    }

    lemma AppliedIsMatched(w: L.World, upTo: int, known: seq<NodeId>, index: int)
      requires Matched(w, known, index)
      ensures Matched(w.(leader := w.leader.(lastApplied := upTo)), known, index)
    {
      var v := w.(leader := w.leader.(lastApplied := upTo));
      assert Reaching(v.leader, ActivePeers(known, w.leader.id), index) == Reaching(w.leader, ActivePeers(known, w.leader.id), index);
    }

    lemma CommitStays(x: Stage, known: seq<NodeId>)
      ensures var y := Happen(x, L.Commit(known)).w.leader;
        y.role == x.w.leader.role && y.lastApplied == x.w.leader.lastApplied && y.log == x.w.leader.log
    {
      hide ActivePeers, MatchIndexes, MajorityIndex, Distinct;
    }

    /** Wait until the entry at `target` is applied, leadership is lost, or applying fails. */
    method WaitForApplied(target: int, polls: seq<Poll>, ghost from: int) returns (error: Option<ProposeError>)
      requires Valid() && RecordedFrom(log, node.store.applied, from, node.lastApplied)
      modifies this, node, node.store
      ensures Valid() && RecordedFrom(log, node.store.applied, from, node.lastApplied)
      ensures Onward(old(Now()), Now())
      ensures old(Flowing()) && old(node.role).Leader? && old(node.commitIndex) >= target
        && QuietWait(polls, old(node.lastApplied) >= target)
        ==> error.None? && node.commitIndex == old(node.commitIndex)
      ensures match error
              case None => node.role.Leader? && node.lastApplied >= target
              case Some(LostLeadership) => !node.role.Leader?
              case Some(ApplyFailed) => node.applyErr.Some? && 0 < node.applyErrIndex <= target
              case Some(TimedOut) => node.lastApplied < target
              case _ => false
    {
      hide Represents, DistinctEvents, L.Inv, Tabled, RecordedFrom, Onward, Unblocked;
      ghost var flowing := Flowing() && node.role.Leader? && node.commitIndex >= target
                           && QuietWait(polls, node.lastApplied >= target);
      var i := 0;
      OnwardSelf(Now());
      while true
        invariant 0 <= i <= |polls| && Valid() && RecordedFrom(log, node.store.applied, from, node.lastApplied)
        invariant Onward(old(Now()), Now())
        invariant flowing ==> Flowing() && node.role.Leader? && node.commitIndex == old(node.commitIndex)
        invariant flowing ==> node.lastApplied >= target || (old(node.lastApplied) < target && forall j :: 0 <= j < i ==> polls[j].faults != [])
        decreases |polls| - i
      {
        if !node.role.Leader? { return Some(LostLeadership); }
        if node.applyErr.Some? && 0 < node.applyErrIndex <= target { return Some(ApplyFailed); }
        if node.lastApplied >= target { return None; }
        if i == |polls| { return Some(TimedOut); }
        ghost var now := Now();
        Interlude(polls[i].meanwhile, polls[i].faults, from);
        OnwardTwice(old(Now()), now, Now());
        i := i + 1;
      }
    }

    /** The whole proposal.  If it returns no error, the entry is in the leader's log, its event is
        recorded as applied, the tables are those of the log through it, and a majority of this node
        and the active peers that a commit step of this time has read hold the log through it. */
    method Propose(eventId: string, command: Command, net: Network)
      returns (error: Option<ProposeError>, ghost entry: Entry, ghost known: seq<NodeId>, ghost holders: set<NodeId>)
      requires Valid() && Distinct(net.known)
      requires forall i :: 0 <= i < |log| ==> log[i].eventId != eventId
      modifies this, node, node.store
      ensures Valid()
      ensures entry == Entry(old(node.currentTerm), |old(log)| + 1, eventId, command)
      ensures error == Some(NotLeader) <==> !old(node.role).Leader?
      ensures error == Some(UnappliedEntries) <==> old(node.role).Leader? && old(node.applyErr).Some?
      ensures error == Some(NotLeader) || error == Some(UnappliedEntries) ==>
        World() == old(World()) && node.Applying() == old(node.Applying())
      ensures error != Some(NotLeader) && error != Some(UnappliedEntries) ==> old(log) + [entry] <= log
      ensures error.None? ==>
        && entry in node.rows && node.lastApplied >= entry.index && eventId in node.store.applied
        && known in asked && EnoughHolders(World(), holders, known, entry.index)
      ensures error.None? && start.Some? ==> TablesThrough(entry.index)
      ensures old(Unobstructed(eventId, command, net)) ==> error.None? && node.commitIndex >= entry.index
    {
      entry := Entry(node.currentTerm, |log| + 1, eventId, command);
      known, holders := [], {};
      if !node.role.Leader? { return Some(NotLeader), entry, known, holders; }
      if node.applyErr.Some? { return Some(UnappliedEntries), entry, known, holders; }
      error, known, holders := Submit(eventId, command, net, entry);
    }

    method Submit(eventId: string, command: Command, net: Network, ghost entry: Entry)
      returns (error: Option<ProposeError>, ghost known: seq<NodeId>, ghost holders: set<NodeId>)
      requires Valid() && Distinct(net.known) && node.role.Leader?
      requires entry == Entry(node.currentTerm, |log| + 1, eventId, command)
      requires forall i :: 0 <= i < |log| ==> log[i].eventId != eventId
      modifies this, node, node.store
      ensures Valid() && old(log) + [entry] <= log
      ensures error != Some(NotLeader) && error != Some(UnappliedEntries)
      ensures error.None? ==>
        && entry in node.rows && node.lastApplied >= entry.index && eventId in node.store.applied
        && known in asked && EnoughHolders(World(), holders, known, entry.index)
      ensures error.None? && start.Some? ==> TablesThrough(entry.index)
      ensures old(Unobstructed(eventId, command, net)) ==> error.None? && node.commitIndex >= entry.index
    {
      hide Represents, DistinctEvents, L.Inv, Tabled, RecordedFrom, Distinct, Backed, EnoughHolders, Onward,
           Steady, Undisputed, Unblocked, Willing, QuietNetwork, QuietWait;
      ghost var from := node.lastApplied;
      ghost var smooth := Unobstructed(eventId, command, net);
      asked := {};
      CursorsInOrder(World());
      var next := TakeIndex();
      ReplicateAndCommit(eventId, command, net);
      if smooth { QuietMeansWait(net, node.lastApplied >= next); }
      error := Await(next, net.polls, from, old(log) + [entry]);
      known, holders := [], {};
      if error.None? { known, holders := Concluded(old(log), entry, from); }
    }

    /** The wait loses nothing that the replication achieved. */
    method Await(target: int, polls: seq<Poll>, ghost from: int, ghost part: seq<Entry>) returns (error: Option<ProposeError>)
      requires Valid() && RecordedFrom(log, node.store.applied, from, node.lastApplied)
      requires part <= log && 0 < target <= |log| && Backed(Now(), target)
      modifies this, node, node.store
      ensures Valid() && RecordedFrom(log, node.store.applied, from, node.lastApplied)
      ensures part <= log && Backed(Now(), target)
      ensures error != Some(NotLeader) && error != Some(UnappliedEntries)
      ensures error.None? ==> node.lastApplied >= target
      ensures old(Flowing()) && old(node.role).Leader? && old(node.commitIndex) >= target
        && QuietWait(polls, old(node.lastApplied) >= target)
        ==> error.None? && node.commitIndex == old(node.commitIndex)
    {
      hide Represents, DistinctEvents, L.Inv, Tabled, RecordedFrom, Backed, Onward, Steady, Unblocked, QuietWait;
      error := WaitForApplied(target, polls, from);
      StillThere(old(Now()), Now(), part);
      StillBacked(old(Now()), Now(), target);
    }

    lemma StillThere(x: Stage, y: Stage, part: seq<Entry>)
      requires Onward(x, y) && part <= x.w.leader.log
      ensures part <= y.w.leader.log
    {
    }

    /** What an applied entry of the log means. */
    lemma Concluded(before: seq<Entry>, entry: Entry, from: int) returns (known: seq<NodeId>, holders: set<NodeId>)
      requires Valid() && RecordedFrom(log, node.store.applied, from, node.lastApplied) && Backed(Now(), entry.index)
      requires before + [entry] <= log && entry.index == |before| + 1 && from < entry.index <= node.lastApplied
      ensures entry in node.rows && entry.eventId in node.store.applied
      ensures known in asked && EnoughHolders(World(), holders, known, entry.index)
      ensures start.Some? ==> TablesThrough(entry.index)
    {
      hide Represents, DistinctEvents, L.Inv, Tabled, RecordedFrom, EnoughHolders;
      CursorsInOrder(World());
      assert (before + [entry])[entry.index - 1] == entry;
      AppliedEntry(node.rows, log, node.store.applied, from, node.lastApplied, entry.index);
      known, holders :| known in asked && EnoughHolders(World(), holders, known, entry.index);
      if start.Some? {
        TablesAt(node.store.env, start.value, World().leader, node.Applying(), tried);
      }
    }

    lemma AppliedEntry(rows: Rows, log: seq<Entry>, applied: map<string, int>, from: int, upTo: int, index: int)
      requires Represents(rows, log) && RecordedFrom(log, applied, from, upTo) && from < index <= upTo
      ensures log[index - 1] in rows && log[index - 1].eventId in applied
    {
    }
  }
}
