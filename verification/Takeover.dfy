/** From a run of the cluster to a proposal: a node object that has performed its events of the
    run, the winning of an election last, is ready to propose. */
module Takeover {
  import opened Commands
  import opened Raft
  import opened LogTable
  import opened TableNode
  import opened ConsensusNode
  import opened ObjectRun
  import opened Cluster
  import opened Commitment
  import opened Proposal
  import Convergence
  import ReplicaState
  import Tables
  import opened ApplyLoop
  import LogMatching
  import Realisation
  import L = Leadership

  /** What the winner's leadership needs of the cluster. */
  ghost predicate MayLead(s: State, n: NodeId) {
    && n in s.nodes && s.nodes[n].currentTerm >= 1
    && (forall p :: p in s.led ==> p.0 < s.nodes[n].currentTerm)
    && (forall m :: m in s.nodes ==> CursorsOk(s.nodes[m]) && s.nodes[m].log[..s.nodes[m].commitIndex] <= s.nodes[n].log)
  }

  ghost function Leading(s: State, n: NodeId, known: seq<NodeId>): L.World
    requires n in s.nodes
  {
    L.World(Act(s.nodes[n], ElectionWin(n, known)), s.nodes - {n}, {}, {}, s.nodes[n].currentTerm)
  }

  /** The win is a step of the cluster after which cluster and leadership are in step. */
  lemma WinStarts(s: State, evs: seq<Event>, n: NodeId, known: seq<NodeId>)
    requires Init(s) && IsRun(s, evs) && OneLeaderPerTerm(After(s, evs)) && MayLead(After(s, evs), n)
    ensures var (now, win) := (After(s, evs), ElectionWin(n, known));
      && IsRun(s, evs + [win]) && n in After(s, evs + [win]).nodes
      && After(s, evs + [win]).nodes[n] == Leading(now, n, known).leader
      && Realisation.Inv(After(s, evs + [win]), Leading(now, n, known))
      && Inv(now)
  {
    hide IsRun, After, Next, Inv, L.Inv, Act, OneLeaderPerTerm, Realisation.Matches;
    LogMatching.RunKeepsInv(s, evs);
    Realisation.ElectionStartsRun(After(s, evs), n, known, Leading(After(s, evs), n, known));
    OneMore(s, evs, ElectionWin(n, known));
    NextNodes(After(s, evs), ElectionWin(n, known));
  }

  lemma LeadersLog(s: State, n: NodeId, known: seq<NodeId>)
    requires Inv(s) && n in s.nodes
    ensures DistinctEvents(s.nodes[n].log) && Leading(s, n, known).leader.log == s.nodes[n].log
    ensures Leading(s, n, known).leader.currentTerm == s.nodes[n].currentTerm
    ensures Leading(s, n, known).leader.lastApplied == s.nodes[n].lastApplied
  {
    Convergence.NodeLogIsGood(s, n);
    hide Inv, ActivePeers;
  }

  lemma RunsStart(s: State, evs: seq<Event>, n: NodeId, known: seq<NodeId>)
    requires IsRun(s, evs) && n in After(s, evs).nodes && IsRun(s, evs + [ElectionWin(n, known)])
    requires Realisation.Inv(After(s, evs + [ElectionWin(n, known)]), Leading(After(s, evs), n, known))
    ensures OneLeaderPerTerm(After(s, evs + [ElectionWin(n, known)])) && L.Inv(Leading(After(s, evs), n, known))
  {
    hide IsRun, After, OneLeaderPerTerm, L.Inv, Inv, Leading, Realisation.Matches;
  }

  lemma NothingApplied(env: Tables.Env, s: State, n: NodeId, known: seq<NodeId>, m: Machine)
    requires Inv(s) && MayLead(s, n) && s.nodes[n].lastApplied == 0
    requires m.applied == map[] && m.lastApplied == 0 && m.error.None?
    ensures Tabled(env, Some(m.db), Leading(s, n, known).leader, m, false)
  {
    NodeId(s, n);
    Convergence.FreshNode(env, m.db, s, n);
    var none := Convergence.Applying(Machine(m.db, map[], 0, None, []), false);
    Convergence.WinnerKeepsTables(env, m.db, s.nodes[n], known, none);
    TraceIsHistory(env, m.db, Leading(s, n, known).leader, none, m);
    hide Inv, Convergence.NodeInv, ActivePeers;
  }

  lemma StartTables(env: Tables.Env, s: State, n: NodeId, known: seq<NodeId>, m: Machine, fromHere: bool)
    requires Inv(s) && MayLead(s, n)
    requires fromHere ==> s.nodes[n].lastApplied == 0 && m.applied == map[] && m.lastApplied == 0 && m.error.None?
    ensures Tabled(env, if fromHere then Some(m.db) else None, Leading(s, n, known).leader, m, false)
  {
    hide Inv, Convergence.NodeInv, Leading;
    if fromHere { NothingApplied(env, s, n, known, m); }
  }

  lemma NodeId(s: State, n: NodeId)
    requires Inv(s) && n in s.nodes
    ensures s.nodes[n].id == n
  {
    assert NodeOk(s, n);
  }

  lemma TraceIsHistory(env: Tables.Env, start: Tables.Db, r: Replica, a: Convergence.Applying, m: Machine)
    requires Convergence.NodeInv(env, start, r, a) && a.m.(trace := m.trace) == m
    ensures Convergence.NodeInv(env, start, r, a.(m := m))
  {
    hide ReplicaState.Fold;
  }

  /** The session is valid, and its leadership is the cluster's.  If the node has applied nothing
      yet, its tables are where the log starts from. */
  method TakeOffice(node: Consensus, n: NodeId, evs: seq<Event>, known: seq<NodeId>, peers: map<NodeId, Replica>, ghost s: State)
    returns (session: Session)
    requires Init(s) && n in s.nodes && node.State() == NewNode(n, {}) && node.store.Valid()
    requires IsRun(s, evs) && OneLeaderPerTerm(After(s, evs)) && MayLead(After(s, evs), n)
    requires peers == After(s, evs).nodes - {n}
    modifies node
    ensures fresh(session) && session.node == node && session.Valid()
    ensures n in After(s, evs).nodes && session.World() == Leading(After(s, evs), n, known)
    ensures old(node.applyErr).None? && node.store.applied == map[] && After(s, evs).nodes[n].lastApplied == 0 ==>
      session.start == Some(node.store.Db())
    ensures IsRun(s, evs + [ElectionWin(n, known)])
    ensures Realisation.Inv(After(s, evs + [ElectionWin(n, known)]), session.World())
  {
    hide Init, IsRun, After, OneLeaderPerTerm, L.Inv, Inv, Realisation.Inv, MayLead, Leading,
         Tabled, Represents, DistinctEvents;
    ghost var now := After(s, evs);
    InOffice(now, n);
    WinStarts(s, evs, n, known);
    RunsStart(s, evs, n, known);
    LeadersLog(now, n, known);
    PerformAll(node, n, evs + [ElectionWin(n, known)], s);
    IsLeading(now, n, known);
    RefinesMeans(node.State(), Leading(now, n, known).leader);
    ghost var fromHere := old(node.applyErr).None? && node.store.applied == map[] && now.nodes[n].lastApplied == 0;
    ghost var start := if fromHere then Some(node.store.Db()) else None;
    StartTables(node.store.env, now, n, known, node.Applying(), fromHere);
    session := new Session(node, node.currentTerm, peers, now.nodes[n].log, start, false);
  }

  lemma InOffice(s: State, n: NodeId)
    requires MayLead(s, n)
    ensures n in s.nodes
  {
  }

  lemma IsLeading(s: State, n: NodeId, known: seq<NodeId>)
    requires n in s.nodes
    ensures var w := Leading(s, n, known);
      w == L.World(w.leader, s.nodes - {n}, {}, {}, s.nodes[n].currentTerm)
  {
  }
}
