/** The cluster as a state machine over one network that may lose, duplicate and reorder
    AppendEntries, and the invariant of its nodes, logs and packets. */
module Cluster {
  import opened Commands
  import opened Raft

  /** A request in flight, with what it vouches for: the sender's log when it was built, through the
      last entry sent, or through the anchor of an empty request. */
  datatype Packet = Packet(dst: NodeId, req: AppendReq, sentLog: seq<Entry>)

  datatype Grant = Grant(voter: NodeId, term: int, candidate: NodeId)

  /** Packets stay in `net` once sent, so a delivery may come late, twice, or never.
      The last four fields are history: who acted as leader of which term, the log of each
      term's leader as it last stood, where each event id was first written, and the regular
      votes granted. */
  datatype State = State(
    nodes: map<NodeId, Replica>,
    net: set<Packet>,
    led: set<(int, NodeId)>,
    history: map<int, seq<Entry>>,
    issued: map<string, (int, int)>,
    grants: set<Grant>)

  datatype Event =
    | ElectionStart(node: NodeId)
    | ElectionWin(node: NodeId, known: seq<NodeId>)
    | RequestVote(node: NodeId, vote: VoteReq)
    | ClientCommand(node: NodeId, eventId: string, command: Command)
    | Replicate(node: NodeId, peer: NodeId, term: int, commit: int, last: int)
    | Heartbeat(node: NodeId, peer: NodeId, term: int, commit: int, last: int)
    | Deliver(packet: Packet)
    | Reply(node: NodeId, peer: NodeId, sentTerm: int, lastIndex: int, resp: AppendResp)
    | HeartbeatReply(node: NodeId, sentTerm: int, replyTerm: int)
    | Demote(node: NodeId)
    | CommitStep(node: NodeId, known: seq<NodeId>)
    | Apply(node: NodeId, upTo: int)

  function Actor(ev: Event): NodeId {
    if ev.Deliver? then ev.packet.dst else ev.node
  }

  function Act(r: Replica, ev: Event): Replica {
    match ev
    case ElectionStart(_) => StartElection(r)
    case ElectionWin(_, known) => WinElection(r, ActivePeers(known, r.id), |r.log|)
    case RequestVote(_, vote) => HandleVote(r, vote).0
    case ClientCommand(_, eventId, command) => Propose(r, eventId, command)
    case Replicate(_, _, _, _, _) => r
    case Heartbeat(_, _, _, _, _) => r
    case Deliver(packet) => HandleAppend(r, packet.req).0
    case Reply(_, peer, sentTerm, lastIndex, resp) => OnReply(r, peer, sentTerm, lastIndex, resp)
    case HeartbeatReply(_, sentTerm, replyTerm) => ObserveTerm(r, sentTerm, replyTerm)
    case Demote(_) => StepDown(r)
    case CommitStep(_, known) => Recalculate(r, known, |r.log|)
    case Apply(_, upTo) => r.(lastApplied := upTo)
  }

  /** A leader sends in its current term.  A broadcast that was under way when its leader lost the
      role or was raised to a newer term goes on in the term it began in, as long as the log is
      still the one that term's leader had. */
  predicate MaySendAs(s: State, n: NodeId, term: int)
    requires n in s.nodes
  {
    || (s.nodes[n].role.Leader? && term == s.nodes[n].currentTerm)
    || ((term, n) in s.led && term in s.history && s.history[term] == s.nodes[n].log)
  }

  /** Replies, vote requests and apply progress are unconstrained: nothing below depends on
      them.  A node may win at any time after an election start raised its term. */
  predicate Enabled(s: State, ev: Event) {
    && Actor(ev) in s.nodes
    && var r := s.nodes[Actor(ev)];
       match ev
       case ElectionStart(_) => !r.role.Leader?
       case ElectionWin(_, _) => r.currentTerm >= 1
       case ClientCommand(_, eventId, _) => r.role.Leader? && eventId !in s.issued
       case Replicate(n, peer, term, _, last) => MaySendAs(s, n, term) && peer != n && 0 <= last <= |r.log|
       case Heartbeat(n, peer, term, _, last) => MaySendAs(s, n, term) && peer != n && 0 <= last <= |r.log|
       case Deliver(packet) => packet in s.net
       case _ => true
  }

  function Move(s: State, n: NodeId, r: Replica): State {
    s.(nodes := s.nodes[n := r])
  }

  /** Node n acts as leader of its term: the term's history takes its log.  Being in the role is
      not acting: a leader whose term a vote request raises leads nothing in the new term until
      it sends or appends in it. */
  function Lead(s: State, n: NodeId): State
    requires n in s.nodes
  {
    var r := s.nodes[n];
    s.(led := s.led + {(r.currentTerm, n)}, history := s.history[r.currentTerm := r.log])
  }

  function LeadIn(s: State, n: NodeId, term: int): State
    requires n in s.nodes
  {
    if s.nodes[n].role.Leader? && term == s.nodes[n].currentTerm then Lead(s, n) else s
  }

  /** How far a request takes a receiver's log that accepts it. */
  function Vouched(log: seq<Entry>, req: AppendReq): seq<Entry> {
    var upTo := req.prevIndex + |req.entries|;
    if 0 <= upTo <= |log| then log[..upTo] else log
  }

  /** The packet an event sends: of the replication path, or empty. */
  function SentBy(r: Replica, ev: Event): Packet
    requires ev.Replicate? || ev.Heartbeat?
  {
    var req := if ev.Replicate? then BuildAppend(r, ev.peer, ev.commit, ev.last) else BuildEmpty(r, ev.commit, ev.last);
    Packet(ev.peer, req.(term := ev.term), Vouched(r.log, req))
  }

  function Next(s: State, ev: Event): State
    requires Enabled(s, ev)
  {
    var n := Actor(ev);
    var r := s.nodes[n];
    var moved := Move(s, n, Act(r, ev));
    match ev
    case ElectionWin(_, _) => Lead(moved, n)
    case RequestVote(_, vote) =>
      if !vote.preVote && HandleVote(r, vote).1.granted
      then moved.(grants := s.grants + {Grant(n, vote.term, vote.candidate)})
      else moved
    case ClientCommand(_, eventId, _) =>
      Lead(moved, n).(issued := s.issued[eventId := (r.currentTerm, |r.log| + 1)])
    case Replicate(_, _, term, _, _) => LeadIn(s, n, term).(net := s.net + {SentBy(r, ev)})
    case Heartbeat(_, _, term, _, _) => LeadIn(s, n, term).(net := s.net + {SentBy(r, ev)})
    case _ => moved
  }

  ghost predicate Init(s: State) {
    && (forall n :: n in s.nodes ==> s.nodes[n] == NewNode(n, []))
    && s.net == {} && s.led == {} && s.history == map[] && s.issued == map[] && s.grants == {}
  }

  /** Every event was enabled where it happened. */
  ghost predicate IsRun(s: State, evs: seq<Event>)
    decreases |evs|, 0
  {
    evs == [] || (IsRun(s, evs[..|evs| - 1]) && Enabled(After(s, evs[..|evs| - 1]), evs[|evs| - 1]))
  }

  ghost function After(s: State, evs: seq<Event>): State
    requires IsRun(s, evs)
    decreases |evs|, 1
  {
    if evs == [] then s else Next(After(s, evs[..|evs| - 1]), evs[|evs| - 1])
  }

  lemma {:induction false} NodesStay(s: State, evs: seq<Event>)
    requires IsRun(s, evs)
    ensures After(s, evs).nodes.Keys == s.nodes.Keys
    decreases |evs|
  {
    if evs != [] {
      NodesStay(s, evs[..|evs| - 1]);
      NextKeepsNodes(After(s, evs[..|evs| - 1]), evs[|evs| - 1]);
      hide Next, Enabled;
    }
  }

  lemma NextKeepsNodes(s: State, ev: Event)
    requires Enabled(s, ev)
    ensures Next(s, ev).nodes.Keys == s.nodes.Keys
  {
    hide Act, MaySendAs, HandleVote, SentBy;
  }

  /** An event moves at most the node it happens at. */
  lemma NextNodes(s: State, ev: Event)
    requires Enabled(s, ev)
    ensures Next(s, ev).nodes == s.nodes[Actor(ev) := Act(s.nodes[Actor(ev)], ev)]
  {
    hide MaySendAs, HandleVote, HandleAppend, SentBy, OnReply, ActivePeers, Recalculate;
  }

  lemma OneMore(s: State, evs: seq<Event>, ev: Event)
    requires IsRun(s, evs) && Enabled(After(s, evs), ev)
    ensures IsRun(s, evs + [ev]) && After(s, evs + [ev]) == Next(After(s, evs), ev)
  {
    assert (evs + [ev])[..|evs|] == evs;
    hide Next, Enabled;
  }

  /** At most one node has ever acted as leader of each term. */
  ghost predicate OneLeaderPerTerm(s: State) {
    forall p, q :: p in s.led && q in s.led && p.0 == q.0 ==> p.1 == q.1
  }

  // ----- the invariant -------------------------------------------------------------------

  /** Entry i sits at index i + 1; terms are at least 1, nondecreasing, at most `term`. */
  ghost predicate WellFormed(log: seq<Entry>, term: int) {
    && (forall i :: 0 <= i < |log| ==> log[i].index == i + 1 && 1 <= log[i].term <= term)
    && (forall i, j :: 0 <= i < j < |log| ==> log[i].term <= log[j].term)
  }

  /** Up to each of its entries, the log is what the leader of that entry's term had. */
  ghost predicate Covered(log: seq<Entry>, history: map<int, seq<Entry>>) {
    forall i :: 0 <= i < |log| ==> CoveredAt(log, history, i)
  }

  ghost predicate CoveredAt(log: seq<Entry>, history: map<int, seq<Entry>>, i: int)
    requires 0 <= i < |log|
  {
    log[i].term in history && log[..i + 1] <= history[log[i].term]
  }

  ghost predicate NodeOk(s: State, n: NodeId)
    requires n in s.nodes
  {
    var r := s.nodes[n];
    && r.id == n && r.currentTerm >= 0
    && (r.role.Leader? ==> r.currentTerm >= 1)
    && WellFormed(r.log, r.currentTerm) && Covered(r.log, s.history)
  }

  ghost predicate HistoryOk(s: State) {
    && (forall t :: t in s.history ==> t >= 1 && WellFormed(s.history[t], t) && Covered(s.history[t], s.history))
    && (forall t :: t in s.history ==> exists p :: p in s.led && p.0 == t)
    && (forall p :: p in s.led ==>
          && p.0 in s.history && p.1 in s.nodes && p.0 <= s.nodes[p.1].currentTerm
          && (p.0 == s.nodes[p.1].currentTerm ==> s.nodes[p.1].log == s.history[p.0]))
  }

  ghost predicate PacketOk(s: State, p: Packet) {
    && (p.req.term, p.req.leaderId) in s.led && p.dst != p.req.leaderId
    && p.req.term in s.history && p.sentLog <= s.history[p.req.term]
    && 0 <= p.req.prevIndex <= |p.sentLog|
    && p.req.prevTerm == TermAt(p.sentLog, p.req.prevIndex)
    && p.req.entries == p.sentLog[p.req.prevIndex..]
  }

  ghost predicate EventsOk(s: State) {
    forall t, i :: t in s.history && 0 <= i < |s.history[t]| ==>
      var e := s.history[t][i];
      e.eventId in s.issued && s.issued[e.eventId] == (e.term, e.index)
  }

  ghost predicate Inv(s: State) {
    && (forall n :: n in s.nodes ==> NodeOk(s, n))
    && HistoryOk(s)
    && (forall p :: p in s.net ==> PacketOk(s, p))
    && EventsOk(s)
  }

  // ----- facts about covered logs --------------------------------------------------------

  lemma PrefixTransitive<T>(a: seq<T>, b: seq<T>, c: seq<T>)
    requires a <= b && b <= c
    ensures a <= c
  {
  }

  ghost predicate Extends(h: map<int, seq<Entry>>, longer: map<int, seq<Entry>>) {
    forall t :: t in h ==> t in longer && h[t] <= longer[t]
  }

  lemma CoveredStays(log: seq<Entry>, h: map<int, seq<Entry>>, longer: map<int, seq<Entry>>)
    requires Covered(log, h) && Extends(h, longer)
    ensures Covered(log, longer)
  {
    forall i | 0 <= i < |log| ensures CoveredAt(log, longer, i) {
      assert CoveredAt(log, h, i);
      PrefixTransitive(log[..i + 1], h[log[i].term], longer[log[i].term]);
    }
  }

  lemma CoveredPrefix(part: seq<Entry>, log: seq<Entry>, h: map<int, seq<Entry>>)
    requires Covered(log, h) && part <= log
    ensures Covered(part, h)
  {
    forall i | 0 <= i < |part| ensures CoveredAt(part, h, i) {
      assert CoveredAt(log, h, i);
      assert part[..i + 1] == log[..i + 1];
    }
  }

  /** Two covered logs that agree on the term at an index agree through it. */
  lemma AgreeThrough(a: seq<Entry>, b: seq<Entry>, h: map<int, seq<Entry>>, i: int)
    requires Covered(a, h) && Covered(b, h)
    requires 1 <= i <= |a| && i <= |b| && a[i - 1].term == b[i - 1].term
    ensures a[..i] == b[..i]
  {
    assert CoveredAt(a, h, i - 1) && CoveredAt(b, h, i - 1);
  }

  // ----- one node moves ------------------------------------------------------------------

  /** Node n may move to r: its log is covered, and if n already led r's term its log stays. */
  ghost predicate SafeMove(s: State, n: NodeId, r: Replica) {
    && n in s.nodes && r.id == n && r.currentTerm >= s.nodes[n].currentTerm
    && (r.role.Leader? ==> r.currentTerm >= 1)
    && WellFormed(r.log, r.currentTerm) && Covered(r.log, s.history)
    && ((r.currentTerm, n) in s.led ==> r.log == s.nodes[n].log)
  }

  lemma MoveKeepsInv(s: State, n: NodeId, r: Replica)
    requires Inv(s) && SafeMove(s, n, r)
    ensures Inv(Move(s, n, r))
  {
    var s' := Move(s, n, r);
    hide WellFormed, Covered;
    forall m | m in s'.nodes ensures NodeOk(s', m) {
      assert m != n ==> NodeOk(s, m);
    }
    forall p | p in s'.net ensures PacketOk(s', p) {
      assert PacketOk(s, p);
    }
    LedStays(s, n, r);
  }

  lemma LedStays(s: State, n: NodeId, r: Replica)
    requires HistoryOk(s) && SafeMove(s, n, r)
    ensures HistoryOk(Move(s, n, r))
  {
    var s' := Move(s, n, r);
    hide WellFormed, Covered;
    forall p | p in s'.led
      ensures p.0 in s'.history && p.1 in s'.nodes && p.0 <= s'.nodes[p.1].currentTerm
      ensures p.0 == s'.nodes[p.1].currentTerm ==> s'.nodes[p.1].log == s'.history[p.0]
    {
      if p.1 == n && p.0 == r.currentTerm {
        assert p == (r.currentTerm, n);
      }
    }
  }

  // ----- one node acts as leader -----------------------------------------------------------

  /** A term that already has a history has this leader, and its log. */
  lemma LeadsAgain(s: State, n: NodeId)
    requires Inv(s) && n in s.nodes && OneLeaderPerTerm(Lead(s, n))
    ensures s.nodes[n].currentTerm in s.history ==>
      (s.nodes[n].currentTerm, n) in s.led && s.history[s.nodes[n].currentTerm] == s.nodes[n].log
    ensures Extends(s.history, Lead(s, n).history)
  {
    var t := s.nodes[n].currentTerm;
    if t in s.history {
      var p :| p in s.led && p.0 == t;
      var q := (t, n);
      assert p in Lead(s, n).led && q in Lead(s, n).led;
      assert p == q;
    }
  }

  lemma LeadKeepsHistory(s: State, n: NodeId)
    requires Inv(s) && n in s.nodes && s.nodes[n].currentTerm >= 1 && OneLeaderPerTerm(Lead(s, n))
    ensures HistoryOk(Lead(s, n))
  {
    hide WellFormed, Covered, Extends, OneLeaderPerTerm, EventsOk, PacketOk;
    var s' := Lead(s, n);
    var t := s.nodes[n].currentTerm;
    LeadsAgain(s, n);
    LeadKeepsLed(s, n);
    assert NodeOk(s, n);
    forall u | u in s'.history
      ensures u >= 1 && WellFormed(s'.history[u], u) && Covered(s'.history[u], s'.history)
      ensures exists p :: p in s'.led && p.0 == u
    {
      CoveredStays(s'.history[u], s.history, s'.history);
      if u == t {
        assert (t, n) in s'.led;
      } else {
        var p :| p in s.led && p.0 == u;
        assert p in s'.led;
      }
    }
  }

  lemma LeadKeepsLed(s: State, n: NodeId)
    requires Inv(s) && n in s.nodes && OneLeaderPerTerm(Lead(s, n))
    ensures var s' := Lead(s, n);
      forall p :: p in s'.led ==>
        && p.0 in s'.history && p.1 in s'.nodes && p.0 <= s'.nodes[p.1].currentTerm
        && (p.0 == s'.nodes[p.1].currentTerm ==> s'.nodes[p.1].log == s'.history[p.0])
  {
    var s' := Lead(s, n);
    var leader := (s.nodes[n].currentTerm, n);
    hide WellFormed, Covered, EventsOk, PacketOk;
    assert leader in s'.led;
    forall p | p in s'.led
      ensures p.0 in s'.history && p.1 in s'.nodes && p.0 <= s'.nodes[p.1].currentTerm
      ensures p.0 == s'.nodes[p.1].currentTerm ==> s'.nodes[p.1].log == s'.history[p.0]
    {
      if p.0 == leader.0 {
        assert p.1 == leader.1;
      }
    }
  }

  lemma LeadKeepsInv(s: State, n: NodeId)
    requires Inv(s) && n in s.nodes && s.nodes[n].currentTerm >= 1 && OneLeaderPerTerm(Lead(s, n))
    ensures Inv(Lead(s, n)) && Extends(s.history, Lead(s, n).history)
  {
    var s' := Lead(s, n);
    LeadsAgain(s, n);
    LeadKeepsHistory(s, n);
    LeadKeepsEvents(s, n);
    hide WellFormed, Covered, HistoryOk;
    forall m | m in s'.nodes ensures NodeOk(s', m) {
      assert NodeOk(s, m);
      CoveredStays(s'.nodes[m].log, s.history, s'.history);
    }
    forall p | p in s'.net ensures PacketOk(s', p) {
      assert PacketOk(s, p);
      PrefixTransitive(p.sentLog, s.history[p.req.term], s'.history[p.req.term]);
    }
  }

  lemma LeadKeepsEvents(s: State, n: NodeId)
    requires Inv(s) && n in s.nodes
    ensures EventsOk(Lead(s, n))
  {
    var s' := Lead(s, n);
    var r := s.nodes[n];
    assert NodeOk(s, n);
    forall t, i | t in s'.history && 0 <= i < |s'.history[t]|
      ensures var e := s'.history[t][i]; e.eventId in s'.issued && s'.issued[e.eventId] == (e.term, e.index)
    {
      if t == r.currentTerm {
        assert CoveredAt(r.log, s.history, i);
        var u := r.log[i].term;
        assert s.history[u][i] == r.log[..i + 1][i];
      }
    }
  }
}
