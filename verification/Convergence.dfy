/** The leadership together with the tables of its nodes: throughout it, every node's tables are
    what the applier makes of the leader's log through that node's apply cursor. */
module Convergence {
  import opened Commands
  import opened Tables
  import opened Applier
  import opened LogTable
  import opened ApplyLoop
  import opened Raft
  import opened Quorum
  import opened Commitment
  import Cluster
  import TableNode
  import Realisation
  import L = Leadership
  import R = ReplicaState

  /** A node's apply state, and whether an unrecorded attempt at its next entry is outstanding. */
  datatype Applying = Applying(m: Machine, tried: bool)

  datatype Cohort = Cohort(w: L.World, machines: map<NodeId, Applying>)

  /** An event of the leadership, or a pass over its committed rows at one of the nodes. */
  datatype Step = Event(ev: L.Event) | ApplyPass(node: NodeId, faults: seq<Fault>)

  ghost predicate Member(w: L.World, n: NodeId) {
    n == w.leader.id || n in w.peers
  }

  ghost function View(r: Replica, a: Applying): R.Replica {
    R.Replica(a.m, r.log, r.commitIndex, a.tried)
  }

  /** Event ids are new to the leader's log, and distinct in the log an older leader sent. */
  ghost predicate Enabled(c: Cohort, step: Step) {
    match step
    case Event(ev) =>
      && L.Enabled(c.w, ev) && !ev.LeaderApplies? && !ev.PeerApplies?
      && (ev.Append? ==> forall i :: 0 <= i < |c.w.leader.log| ==> c.w.leader.log[i].eventId != ev.eventId)
      && (ev.Straggle? ==> DistinctEvents(ev.sent))
    case ApplyPass(n, _) => Member(c.w, n) && n in c.machines
  }

  ghost function AfterPass(env: Env, c: Cohort, n: NodeId, faults: seq<Fault>): Applying
    requires Member(c.w, n) && n in c.machines
  {
    var after := R.Do(env, View(NodeOf(c.w, n), c.machines[n]), R.Pass(faults));
    Applying(after.m, after.tried)
  }

  function Applies(w: L.World, n: NodeId, upTo: int): L.Event {
    if n == w.leader.id then L.LeaderApplies(upTo) else L.PeerApplies(n, upTo)
  }

  ghost function Next(env: Env, c: Cohort, step: Step): Cohort
    requires Enabled(c, step)
  {
    match step
    case Event(ev) => c.(w := L.Next(c.w, ev))
    case ApplyPass(n, faults) =>
      var after := AfterPass(env, c, n, faults);
      Cohort(L.Next(c.w, Applies(c.w, n, after.m.lastApplied)), c.machines[n := after])
  }

  ghost predicate IsRun(env: Env, c: Cohort, steps: seq<Step>)
    decreases |steps|
  {
    steps == [] || (Enabled(c, steps[0]) && IsRun(env, Next(env, c, steps[0]), steps[1..]))
  }

  ghost function After(env: Env, c: Cohort, steps: seq<Step>): Cohort
    requires IsRun(env, c, steps)
    decreases |steps|
  {
    if steps == [] then c else After(env, Next(env, c, steps[0]), steps[1..])
  }

  // ----- the invariant -----------------------------------------------------------------------

  /** Only entries below the cursor are recorded as applied. */
  ghost predicate RecordedBelow(applied: map<string, int>, log: seq<Entry>, upTo: int) {
    forall id :: id in applied ==> exists i :: 0 <= i < upTo && i < |log| && log[i].eventId == id
  }

  ghost predicate NodeInv(env: Env, start: Db, r: Replica, a: Applying) {
    && R.ReplicaInv(env, start, View(r, a)) && a.m.lastApplied == r.lastApplied
    && RecordedBelow(a.m.applied, r.log, r.lastApplied)
  }

  ghost predicate Inv(env: Env, start: Db, c: Cohort) {
    && L.Inv(c.w)
    && forall n :: Member(c.w, n) ==> n in c.machines && NodeInv(env, start, NodeOf(c.w, n), c.machines[n])
  }

  // ----- logs and cursors move -----------------------------------------------------------------

  /** The committed prefix stays, the commit index does not fall, nothing is applied. */
  ghost predicate KeepsCommitted(r: Replica, after: Replica) {
    && 0 <= r.commitIndex <= |r.log| && r.commitIndex <= after.commitIndex <= |after.log|
    && after.log[..r.commitIndex] == r.log[..r.commitIndex]
    && after.lastApplied == r.lastApplied
  }

  lemma UnrecordedBeyond(a: Applying, r: Replica, after: Replica)
    requires RecordedBelow(a.m.applied, r.log, r.lastApplied) && r.lastApplied <= r.commitIndex
    requires KeepsCommitted(r, after) && DistinctEvents(after.log)
    ensures forall i :: r.commitIndex <= i < |after.log| ==> after.log[i].eventId !in a.m.applied
    ensures RecordedBelow(a.m.applied, after.log, after.lastApplied)
  {
    forall j | 0 <= j < r.commitIndex ensures after.log[j] == r.log[j] {
      assert after.log[..r.commitIndex][j] == r.log[..r.commitIndex][j];
    }
  }

  lemma MovedNodeOk(env: Env, start: Db, r: Replica, after: Replica, a: Applying)
    requires NodeInv(env, start, r, a) && KeepsCommitted(r, after)
    requires Numbered(after.log) && DistinctEvents(after.log)
    ensures NodeInv(env, start, after, a)
  {
    UnrecordedBeyond(a, r, after);
    var view := View(r, a);
    hide DistinctEvents, Numbered, RecordedBelow, R.FoldInv;
    R.MoveKeepsInv(env, start, view, R.Extend(after.log));
    R.MoveKeepsInv(env, start, R.Do(env, view, R.Extend(after.log)), R.Commit(after.commitIndex));
  }

  // ----- what an event does to one node -----------------------------------------------------

  ghost predicate GoodLog(log: seq<Entry>) {
    Numbered(log) && DistinctEvents(log)
  }

  lemma PrefixIsGood(part: seq<Entry>, log: seq<Entry>)
    requires GoodLog(log) && part <= log
    ensures GoodLog(part)
  {
    forall i | 0 <= i < |part| ensures part[i] == log[i] {
    }
  }

  lemma AppendedIsGood(log: seq<Entry>, e: Entry)
    requires GoodLog(log) && e.index == |log| + 1
    requires forall i :: 0 <= i < |log| ==> log[i].eventId != e.eventId
    ensures GoodLog(log + [e])
  {
  }

  /** What the handler leaves is a prefix of the log it found, or the log that was sent. */
  lemma HandledLog(r: Replica, req: AppendReq, sent: seq<Entry>)
    requires 0 <= req.prevIndex <= |sent| && (req.entries == [] || req.entries == sent[req.prevIndex..])
    requires req.term >= r.currentTerm && (req.prevIndex > 0 ==> TermAt(r.log, req.prevIndex) == req.prevTerm)
      ==> L.SharesPrefix(r.log, sent, req.prevIndex)
    ensures HandleAppend(r, req).0.log <= r.log || HandleAppend(r, req).0.log == sent
  {
    HandleShape(r, req);
    if req.term >= r.currentTerm && (req.prevIndex > 0 ==> TermAt(r.log, req.prevIndex) == req.prevTerm) {
      assert sent[..req.prevIndex] + sent[req.prevIndex..] == sent;
    }
    hide HandleAppend, TermAt;
  }

  lemma FollowerMoves(w: L.World, p: NodeId, r: Replica, req: AppendReq)
    requires L.LeaderOk(w) && L.FollowerOk(w, p, r) && L.FromLeader(w, req)
    ensures KeepsCommitted(r, HandleAppend(r, req).0)
    ensures HandleAppend(r, req).0.log <= r.log || HandleAppend(r, req).0.log == w.leader.log
  {
    L.HandleKeepsFollower(w, p, r, req);
    assert L.Holds(w, r, r.commitIndex);
    PrefixShared(w, r, req);
    HandledLog(r, req, w.leader.log);
    hide HandleAppend, L.Agree, L.NoForeign;
  }

  lemma PrefixShared(w: L.World, r: Replica, req: AppendReq)
    requires L.LeaderOk(w) && L.Agree(r.log, w.leader.log) && L.FromLeader(w, req)
    ensures (req.prevIndex > 0 ==> TermAt(r.log, req.prevIndex) == req.prevTerm)
      ==> L.SharesPrefix(r.log, w.leader.log, req.prevIndex)
  {
  }

  lemma OlderMoves(w: L.World, p: NodeId, r: Replica, req: AppendReq, sent: seq<Entry>)
    requires L.LeaderOk(w) && L.FollowerOk(w, p, r) && L.OlderRequest(w, r, req, sent)
    requires req.term >= r.currentTerm ==> L.CommitsSafely(w, r, req, sent)
    ensures KeepsCommitted(r, HandleAppend(r, req).0)
    ensures HandleAppend(r, req).0.log <= r.log || HandleAppend(r, req).0.log == sent
  {
    L.OlderKeepsFollower(w, p, r, req, sent);
    hide HandleAppend, L.NoForeign;
    if req.prevIndex > 0 ==> TermAt(r.log, req.prevIndex) == req.prevTerm {
      L.OlderLog(w, r, req, sent);
    }
    HandledLog(r, req, sent);
    BothShare(r, HandleAppend(r, req).0, w.leader.log);
  }

  lemma BothShare(r: Replica, after: Replica, lead: seq<Entry>)
    requires L.SharesPrefix(r.log, lead, r.commitIndex) && L.SharesPrefix(after.log, lead, after.commitIndex)
    requires r.commitIndex <= after.commitIndex
    ensures after.log[..r.commitIndex] == r.log[..r.commitIndex]
  {
    assert after.log[..r.commitIndex] == after.log[..after.commitIndex][..r.commitIndex];
    assert lead[..r.commitIndex] == lead[..after.commitIndex][..r.commitIndex];
  }

  predicate AnEvent(ev: L.Event) {
    !ev.LeaderApplies? && !ev.PeerApplies?
  }

  /** Where a peer's log comes from after an event. */
  ghost predicate LogFrom(w: L.World, ev: L.Event, log: seq<Entry>, after: seq<Entry>) {
    after <= log || after == w.leader.log || (ev.Straggle? && after == ev.sent)
  }

  lemma PeerEvent(w: L.World, ev: L.Event, p: NodeId)
    requires L.Inv(w) && L.Enabled(w, ev) && AnEvent(ev) && p in w.peers
    ensures p in L.Next(w, ev).peers
    ensures KeepsCommitted(w.peers[p], L.Next(w, ev).peers[p])
    ensures LogFrom(w, ev, w.peers[p].log, L.Next(w, ev).peers[p].log)
  {
    hide HandleAppend, HandleVote, OnReply, L.Request, BuildEmpty, L.FollowerOk, L.FromLeader, L.MatchOk, L.OlderRequest,
         L.CommitsSafely, L.MaySend, L.LeaderOk;
    L.PeerIsOk(w, p);
    Standing(w, p);
    if !OnPeer(ev) || ev.peer != p {
      OthersStay(w, ev, p);
    } else if ev.Rpc? {
      if !ev.fate.Lost? {
        var req := L.Request(w, p, ev.term, ev.commit, ev.last);
        DeliveredFromLeader(w, ev, p, req);
        FollowerMoves(w, p, w.peers[p], req);
      }
    } else if ev.BeatArrives? {
      DeliveredFromLeader(w, ev, p, ev.beat);
      FollowerMoves(w, p, w.peers[p], ev.beat);
    } else if ev.Straggle? {
      OlderMoves(w, p, w.peers[p], ev.req, ev.sent);
    } else if ev.PeerVotes? {
      VoteKeepsLog(w.peers[p], ev.vote);
    }
  }

  lemma Standing(w: L.World, p: NodeId)
    requires L.Inv(w) && p in w.peers
    ensures 0 <= w.peers[p].commitIndex <= |w.peers[p].log| && p != w.leader.id
  {
    L.PeerIsOk(w, p);
  }

  lemma VoteKeepsLog(r: Replica, vote: VoteReq)
    ensures var after := HandleVote(r, vote).0;
      && after.id == r.id && after.log == r.log && after.commitIndex == r.commitIndex && after.lastApplied == r.lastApplied
  {
    hide Outdated, LastTerm;
  }

  lemma LeaderEvent(w: L.World, ev: L.Event)
    requires L.Inv(w) && L.Enabled(w, ev) && AnEvent(ev)
    ensures var after := L.Next(w, ev).leader;
      && after.id == w.leader.id && KeepsCommitted(w.leader, after)
      && after.log == if ev.Append? then w.leader.log + [Entry(w.leader.currentTerm, |w.leader.log| + 1, ev.eventId, ev.command)]
                      else w.leader.log
  {
    hide HandleAppend, L.FollowerOk, L.FromLeader, L.MatchOk, L.OlderRequest, L.CommitsSafely, L.MaySend, L.BeatOk,
         L.Request, BuildEmpty, HandleVote, Recalculate;
    match ev
    case LeaderVotes(vote) => VoteKeepsLog(w.leader, vote);
    case Commit(known) =>
      L.CommitKeepsInv(w, known);
      CommitKeepsLog(w.leader, known, |w.leader.log|);
    case _ =>
  }

  lemma CommitKeepsLog(r: Replica, known: seq<NodeId>, last: int)
    ensures var after := Recalculate(r, known, last);
      after.id == r.id && after.log == r.log && after.lastApplied == r.lastApplied
  {
    hide ActivePeers, MajorityIndex, MatchIndexes;
  }

  lemma MembersStay(w: L.World, ev: L.Event)
    requires L.Inv(w) && L.Enabled(w, ev) && AnEvent(ev)
    ensures forall n :: Member(L.Next(w, ev), n) <==> Member(w, n)
  {
    hide HandleAppend, HandleVote, OnReply, L.Request, BuildEmpty, L.FollowerOk, L.FromLeader, L.MatchOk, L.OlderRequest,
         L.CommitsSafely, L.MaySend, L.LeaderOk, Recalculate;
    LeaderEvent(w, ev);
  }

  /** One node across one event: what is committed stays, and its log stays good. */
  lemma NodeEvent(w: L.World, ev: L.Event, n: NodeId)
    requires L.Inv(w) && L.Enabled(w, ev) && AnEvent(ev) && Member(w, n)
    requires GoodLog(w.leader.log) && GoodLog(NodeOf(w, n).log)
    requires ev.Append? ==> forall i :: 0 <= i < |w.leader.log| ==> w.leader.log[i].eventId != ev.eventId
    requires ev.Straggle? ==> DistinctEvents(ev.sent)
    ensures Member(L.Next(w, ev), n)
    ensures KeepsCommitted(NodeOf(w, n), NodeOf(L.Next(w, ev), n)) && GoodLog(NodeOf(L.Next(w, ev), n).log)
  {
    hide L.Next, L.Inv, KeepsCommitted, GoodLog, DistinctEvents;
    LeaderEvent(w, ev);
    if n == w.leader.id {
      if ev.Append? {
        AppendedIsGood(w.leader.log, Entry(w.leader.currentTerm, |w.leader.log| + 1, ev.eventId, ev.command));
      }
    } else {
      PeerEvent(w, ev, n);
      var log, after := w.peers[n].log, L.Next(w, ev).peers[n].log;
      if after <= log {
        PrefixIsGood(after, log);
      } else if after != w.leader.log {
        SentIsGood(w, ev);
      }
    }
  }

  lemma SentIsGood(w: L.World, ev: L.Event)
    requires L.Enabled(w, ev) && ev.Straggle? && DistinctEvents(ev.sent)
    ensures GoodLog(ev.sent)
  {
  }

  lemma GoodLogs(env: Env, start: Db, c: Cohort, n: NodeId)
    requires Inv(env, start, c) && Member(c.w, n)
    ensures n in c.machines && NodeInv(env, start, NodeOf(c.w, n), c.machines[n]) && GoodLog(NodeOf(c.w, n).log)
    ensures GoodLog(c.w.leader.log) && L.Inv(c.w)
  {
    hide L.Inv, R.Folded, R.AppliedPrefix, RecordedBelow, Numbered, DistinctEvents;
    assert Member(c.w, c.w.leader.id);
  }

  lemma EventKeepsInv(env: Env, start: Db, c: Cohort, ev: L.Event)
    requires Inv(env, start, c) && Enabled(c, Event(ev))
    ensures Inv(env, start, Next(env, c, Event(ev)))
  {
    hide L.Next, L.Inv, L.Enabled, NodeInv, GoodLog, KeepsCommitted, DistinctEvents, Numbered;
    L.NextKeepsInv(c.w, ev);
    MembersStay(c.w, ev);
    var w' := L.Next(c.w, ev);
    forall n | Member(w', n) ensures n in c.machines && NodeInv(env, start, NodeOf(w', n), c.machines[n]) {
      GoodLogs(env, start, c, n);
      NodeEvent(c.w, ev, n);
      NodeMoves(env, start, c, w', n);
    }
  }

  lemma NodeMoves(env: Env, start: Db, c: Cohort, w': L.World, n: NodeId)
    requires Member(c.w, n) && Member(w', n) && n in c.machines
    requires NodeInv(env, start, NodeOf(c.w, n), c.machines[n])
    requires KeepsCommitted(NodeOf(c.w, n), NodeOf(w', n)) && GoodLog(NodeOf(w', n).log)
    ensures NodeInv(env, start, NodeOf(w', n), c.machines[n])
  {
    hide NodeInv, KeepsCommitted, Numbered, DistinctEvents;
    MovedNodeOk(env, start, NodeOf(c.w, n), NodeOf(w', n), c.machines[n]);
  }

  // ----- what a pass does to one node -------------------------------------------------------

  lemma RowRecordsBelow(env: Env, m: Machine, log: seq<Entry>, fault: Fault)
    requires 0 <= m.lastApplied < |log| && Numbered(log) && RecordedBelow(m.applied, log, m.lastApplied)
    ensures var (after, go) := ApplyRow(env, m, log[m.lastApplied], fault);
      RecordedBelow(after.applied, log, m.lastApplied + if go then 1 else 0)
  {
    hide Apply, Completes, Blank;
    var (after, go) := ApplyRow(env, m, log[m.lastApplied], fault);
    forall id | id in after.applied
      ensures exists i :: 0 <= i < m.lastApplied + (if go then 1 else 0) && i < |log| && log[i].eventId == id
    {
      if id in m.applied {
        var i :| 0 <= i < m.lastApplied && i < |log| && log[i].eventId == id;
      } else {
        assert go && log[m.lastApplied].eventId == id;
      }
    }
  }

  lemma {:induction false} RowsRecordBelow(env: Env, start: Db, m: Machine, log: seq<Entry>, upTo: int, tried: bool, faults: seq<Fault>)
    requires R.FoldInv(env, start, m, log, tried) && m.lastApplied <= upTo <= |log|
    requires RecordedBelow(m.applied, log, m.lastApplied)
    ensures var after := ApplyRows(env, m, log[m.lastApplied..upTo], faults);
      m.lastApplied <= after.lastApplied && RecordedBelow(after.applied, log, after.lastApplied)
    decreases upTo - m.lastApplied
  {
    hide Apply, Completes, Blank, RecordedBelow, R.Folded, R.AppliedPrefix, DistinctEvents;
    InBounds(env, start, m, log, tried);
    var rows := log[m.lastApplied..upTo];
    if rows != [] {
      R.RowKeepsFold(env, start, m, log, tried, FaultAt(faults, 0));
      RowRecordsBelow(env, m, log, FaultAt(faults, 0));
      var (next, go) := ApplyRow(env, m, rows[0], FaultAt(faults, 0));
      if go {
        assert log[next.lastApplied..upTo] == rows[1..];
        RowsRecordBelow(env, start, next, log, upTo, false, if faults == [] then [] else faults[1..]);
      }
    }
  }

  lemma InBounds(env: Env, start: Db, m: Machine, log: seq<Entry>, tried: bool)
    requires R.FoldInv(env, start, m, log, tried)
    ensures 0 <= m.lastApplied <= |log| && Numbered(log)
  {
  }

  lemma PassedNodeOk(env: Env, start: Db, r: Replica, a: Applying, faults: seq<Fault>)
    requires NodeInv(env, start, r, a)
    ensures var after := R.Do(env, View(r, a), R.Pass(faults));
      && NodeInv(env, start, r.(lastApplied := after.m.lastApplied), Applying(after.m, after.tried))
      && r.lastApplied <= after.m.lastApplied <= r.commitIndex
  {
    R.MoveKeepsInv(env, start, View(r, a), R.Pass(faults));
    hide ApplyRows, R.TriedAfter, RecordedBelow;
    InBounds(env, start, a.m, r.log, a.tried);
    if a.m.lastApplied < r.commitIndex {
      RowsRecordBelow(env, start, a.m, r.log, r.commitIndex, a.tried, faults);
    }
    hide R.FoldInv;
  }

  lemma PassKeepsInv(env: Env, start: Db, c: Cohort, n: NodeId, faults: seq<Fault>)
    requires Inv(env, start, c) && Enabled(c, ApplyPass(n, faults))
    ensures Inv(env, start, Next(env, c, ApplyPass(n, faults)))
  {
    hide L.Inv, NodeInv, R.Do;
    var after := AfterPass(env, c, n, faults);
    var ev := Applies(c.w, n, after.m.lastApplied);
    PassedNodeOk(env, start, NodeOf(c.w, n), c.machines[n], faults);
    CursorIs(env, start, NodeOf(c.w, n), c.machines[n]);
    L.NextKeepsInv(c.w, ev);
    var w' := L.Next(c.w, ev);
    forall m | Member(w', m) ensures m in c.machines && NodeInv(env, start, NodeOf(w', m), c.machines[n := after][m]) {
      assert Member(c.w, m);
      if m == n { assert NodeOf(w', n) == NodeOf(c.w, n).(lastApplied := after.m.lastApplied); }
    }
  }

  lemma CursorIs(env: Env, start: Db, r: Replica, a: Applying)
    requires NodeInv(env, start, r, a)
    ensures a.m.lastApplied == r.lastApplied
  {
  }

  lemma NextKeepsInv(env: Env, start: Db, c: Cohort, step: Step)
    requires Inv(env, start, c) && Enabled(c, step)
    ensures Inv(env, start, Next(env, c, step))
  {
    match step
    case Event(ev) => EventKeepsInv(env, start, c, ev);
    case ApplyPass(n, faults) => PassKeepsInv(env, start, c, n, faults);
  }

  lemma {:induction false} RunKeepsInv(env: Env, start: Db, c: Cohort, steps: seq<Step>)
    requires Inv(env, start, c) && IsRun(env, c, steps)
    ensures Inv(env, start, After(env, c, steps))
    decreases |steps|
  {
    hide Inv, Next, Enabled;
    if steps != [] {
      NextKeepsInv(env, start, c, steps[0]);
      RunKeepsInv(env, start, Next(env, c, steps[0]), steps[1..]);
    }
  }

  // ----- the theorems --------------------------------------------------------------------

  /** Throughout a leadership, whatever is lost, batched, retried or fails, a node's tables are
      what the applier makes of the leader's log through the node's cursor, or through the next
      entry while an attempt at that one is outstanding; and only those entries' events are
      recorded as applied. */
  lemma TablesFollowLeader(env: Env, start: Db, c: Cohort, steps: seq<Step>, n: NodeId)
    requires Inv(env, start, c) && IsRun(env, c, steps) && Member(After(env, c, steps).w, n)
    ensures var end := After(env, c, steps);
      && n in end.machines
      && var (a, lead) := (end.machines[n], end.w.leader.log);
         var k := a.m.lastApplied + if a.tried then 1 else 0;
         && a.m.lastApplied == NodeOf(end.w, n).lastApplied
         && 0 <= a.m.lastApplied <= k <= NodeOf(end.w, n).commitIndex <= |lead|
         && a.m.db == R.Fold(env, start, lead[..k])
         && (forall id :: id in a.m.applied <==> exists i :: 0 <= i < a.m.lastApplied && lead[i].eventId == id)
  {
    hide Inv, L.Inv, R.Fold, NodeInv, IsRun, After, NodeOf, Member;
    RunKeepsInv(env, start, c, steps);
    TablesFollow(env, start, After(env, c, steps), n);
  }

  lemma TablesFollow(env: Env, start: Db, c: Cohort, n: NodeId)
    requires Inv(env, start, c) && Member(c.w, n)
    ensures n in c.machines
    ensures var (a, lead) := (c.machines[n], c.w.leader.log);
            var k := a.m.lastApplied + if a.tried then 1 else 0;
      && a.m.lastApplied == NodeOf(c.w, n).lastApplied
      && 0 <= a.m.lastApplied <= k <= NodeOf(c.w, n).commitIndex <= |lead|
      && a.m.db == R.Fold(env, start, lead[..k])
      && (forall id :: id in a.m.applied <==> exists i :: 0 <= i < a.m.lastApplied && lead[i].eventId == id)
  {
    hide Inv, L.Inv, R.Fold, NodeInv, GoodLog;
    GoodLogs(env, start, c, n);
    CommittedIsShared(c, n);
    NodeTables(env, start, NodeOf(c.w, n), c.machines[n], c.w.leader.log);
  }

  lemma CommittedIsShared(c: Cohort, n: NodeId)
    requires L.Inv(c.w) && Member(c.w, n)
    ensures L.SharesPrefix(NodeOf(c.w, n).log, c.w.leader.log, NodeOf(c.w, n).commitIndex)
  {
    if n != c.w.leader.id { L.PeerIsOk(c.w, n); }
  }

  lemma NodeTables(env: Env, start: Db, r: Replica, a: Applying, lead: seq<Entry>)
    requires NodeInv(env, start, r, a) && L.SharesPrefix(r.log, lead, r.commitIndex)
    ensures var k := a.m.lastApplied + if a.tried then 1 else 0;
      && a.m.lastApplied == r.lastApplied && 0 <= a.m.lastApplied <= k <= r.commitIndex <= |lead|
      && a.m.db == R.Fold(env, start, lead[..k])
      && (forall id :: id in a.m.applied <==> exists i :: 0 <= i < a.m.lastApplied && lead[i].eventId == id)
  {
    hide R.Fold, DistinctEvents, Numbered;
    var k := a.m.lastApplied + if a.tried then 1 else 0;
    assert r.log[..k] == r.log[..r.commitIndex][..k] && lead[..k] == lead[..r.commitIndex][..k];
    forall i | 0 <= i < r.commitIndex ensures r.log[i] == lead[i] {
      assert r.log[..r.commitIndex][i] == lead[..r.commitIndex][i];
    }
  }

  // ----- without record faults ---------------------------------------------------------------

  ghost predicate NoRecordFaults(steps: seq<Step>) {
    forall i :: 0 <= i < |steps| && steps[i].ApplyPass? ==> RecordFails !in steps[i].faults
  }

  /** The only outstanding attempts are those whose error is pending. */
  ghost predicate OnlyErrorsOpen(c: Cohort) {
    forall n :: n in c.machines && c.machines[n].tried ==> c.machines[n].m.error.Some?
  }

  lemma PassLeavesErrors(env: Env, start: Db, c: Cohort, n: NodeId, faults: seq<Fault>)
    requires Inv(env, start, c) && Enabled(c, ApplyPass(n, faults)) && RecordFails !in faults
    requires c.machines[n].tried ==> c.machines[n].m.error.Some?
    ensures var a := AfterPass(env, c, n, faults); a.tried ==> a.m.error.Some?
  {
    hide ApplyRows, R.TriedAfter, L.Inv, Inv, NodeInv, R.Fold;
    GoodLogs(env, start, c, n);
    var (r, a) := (NodeOf(c.w, n), c.machines[n]);
    DueAscends(r.log, a.m.lastApplied, r.commitIndex);
    R.PassLeavesOnlyErrors(env, a.m, Due(r.log, a.m.lastApplied, r.commitIndex), faults, a.tried);
  }

  lemma DueAscends(log: seq<Entry>, lastApplied: int, commit: int)
    requires GoodLog(log)
    ensures var due := Due(log, lastApplied, commit); forall i, j :: 0 <= i < j < |due| ==> due[i].index < due[j].index
  {
  }

  lemma {:induction false} RunLeavesErrors(env: Env, start: Db, c: Cohort, steps: seq<Step>)
    requires Inv(env, start, c) && IsRun(env, c, steps) && NoRecordFaults(steps) && OnlyErrorsOpen(c)
    ensures OnlyErrorsOpen(After(env, c, steps))
    decreases |steps|
  {
    hide Inv, AfterPass, L.Next, L.Enabled;
    if steps != [] {
      NextKeepsInv(env, start, c, steps[0]);
      match steps[0] {
        case Event(_) =>
        case ApplyPass(n, faults) => PassLeavesErrors(env, start, c, n, faults);
      }
      RunLeavesErrors(env, start, Next(env, c, steps[0]), steps[1..]);
    }
  }

  /** Any two nodes of a leadership that have applied equally far and have no pending error hold
      the same tables and have the same events recorded. */
  lemma NodesConverge(env: Env, start: Db, c: Cohort, steps: seq<Step>, a: NodeId, b: NodeId)
    requires Inv(env, start, c) && IsRun(env, c, steps) && NoRecordFaults(steps) && OnlyErrorsOpen(c)
    requires var w := After(env, c, steps).w;
      Member(w, a) && Member(w, b) && NodeOf(w, a).lastApplied == NodeOf(w, b).lastApplied
    ensures var machines := After(env, c, steps).machines;
      && a in machines && b in machines
      && (machines[a].m.error.None? && machines[b].m.error.None? ==>
            machines[a].m.db == machines[b].m.db && machines[a].m.applied.Keys == machines[b].m.applied.Keys)
  {
    hide Inv, L.Inv, R.Fold, NodeInv, IsRun, After, NoRecordFaults;
    TablesFollowLeader(env, start, c, steps, a);
    TablesFollowLeader(env, start, c, steps, b);
    RunLeavesErrors(env, start, c, steps);
  }

  // ----- where it starts -----------------------------------------------------------------

  lemma NodeLogIsGood(s: Cluster.State, n: NodeId)
    requires Cluster.Inv(s) && n in s.nodes
    ensures GoodLog(s.nodes[n].log)
  {
    var log := s.nodes[n].log;
    assert Cluster.NodeOk(s, n);
    if log != [] {
      assert Cluster.CoveredAt(log, s.history, |log| - 1);
      assert log[..|log|] == log;
      var t := log[|log| - 1].term;
      TableNode.HistoryDistinct(s, t);
      TableNode.DistinctPrefix(log, s.history[t]);
    }
  }

  /** A leadership that starts as Commitment.ElectionStartsLeadership says takes over the tables:
      if every node's tables were the fold of its own log, they follow the new leader's. */
  lemma TablesAreTakenOver(env: Env, start: Db, s: Cluster.State, n: NodeId, known: seq<NodeId>, w: L.World,
                           machines: map<NodeId, Applying>)
    requires Cluster.Inv(s) && n in s.nodes && s.nodes[n].currentTerm >= 1
    requires forall p :: p in s.led ==> p.0 < s.nodes[n].currentTerm
    requires forall m :: m in s.nodes ==> s.nodes[m].log[..Held(s.nodes[m])] <= s.nodes[n].log
    requires forall m :: m in s.nodes ==> m in machines && NodeInv(env, start, s.nodes[m], machines[m])
    requires w == L.World(Cluster.Act(s.nodes[n], Cluster.ElectionWin(n, known)), s.nodes - {n}, {}, {}, s.nodes[n].currentTerm)
    ensures Inv(env, start, Cohort(w, machines))
  {
    hide Cluster.Inv, L.Inv, ActivePeers, NodeInv;
    forall m | m in s.nodes ensures CursorsOk(s.nodes[m]) {
      NodeCursors(env, start, s.nodes[m], machines[m]);
    }
    ElectionStartsLeadership(s, n, known, w);
    NodeIds(s, n);
    forall m | Member(w, m) ensures m in machines && NodeInv(env, start, NodeOf(w, m), machines[m]) {
      if m == n { WinnerKeepsTables(env, start, s.nodes[n], known, machines[n]); }
    }
  }

  /** How much of a log is committed. */
  function Held(r: Replica): int {
    if 0 <= r.commitIndex <= |r.log| then r.commitIndex else 0
  }

  lemma NodeIds(s: Cluster.State, n: NodeId)
    requires Cluster.Inv(s) && n in s.nodes
    ensures s.nodes[n].id == n
  {
    assert Cluster.NodeOk(s, n);
  }

  lemma NodeCursors(env: Env, start: Db, r: Replica, a: Applying)
    requires NodeInv(env, start, r, a)
    ensures CursorsOk(r)
  {
    hide R.Fold;
  }

  lemma WinnerKeepsTables(env: Env, start: Db, r: Replica, known: seq<NodeId>, a: Applying)
    requires NodeInv(env, start, r, a)
    ensures NodeInv(env, start, Cluster.Act(r, Cluster.ElectionWin(r.id, known)), a)
  {
    hide R.ReplicaInv, ActivePeers;
  }

  /** In a cluster that has applied nothing yet every node's tables are the fold of its log. */
  lemma FreshNode(env: Env, start: Db, s: Cluster.State, n: NodeId)
    requires Cluster.Inv(s) && n in s.nodes && CursorsOk(s.nodes[n]) && s.nodes[n].lastApplied == 0
    ensures NodeInv(env, start, s.nodes[n], Applying(Machine(start, map[], 0, None, []), false))
  {
    NodeLogIsGood(s, n);
    R.FreshReplica(env, start, s.nodes[n].log);
  }

  /** Every event the cluster allows is allowed here: it supplies fresh and distinct event ids. */
  lemma ClusterSuppliesEventIds(s: Cluster.State, c: Cohort, ev: L.Event)
    requires Realisation.Inv(s, c.w) && Realisation.Allowed(s, c.w, ev) && AnEvent(ev)
    ensures Enabled(c, Event(ev))
  {
    Realisation.AllowedIsEnabled(s, c.w, ev);
    hide Cluster.Inv, L.Inv, L.Enabled, L.Next, Cluster.OneLeaderPerTerm;
    if ev.Append? {
      TableNode.NewEventId(s, c.w.leader.id, ev.eventId);
    } else if ev.Straggle? {
      SentIsDistinct(s, Cluster.Packet(ev.peer, ev.req, ev.sent));
    }
  }

  lemma SentIsDistinct(s: Cluster.State, p: Cluster.Packet)
    requires Cluster.Inv(s) && p in s.net
    ensures DistinctEvents(p.sentLog)
  {
    assert Cluster.PacketOk(s, p);
    TableNode.HistoryDistinct(s, p.req.term);
    TableNode.DistinctPrefix(p.sentLog, s.history[p.req.term]);
  }
}
