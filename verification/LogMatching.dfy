/** Log Matching (section 5.3 of the Raft paper) over every run in which no two nodes lead
    the same term. */
module LogMatching {
  import opened Commands
  import opened Raft
  import opened Cluster

  // ----- delivering a request -------------------------------------------------------------

  /** A sent request that passes the previous-entry check splices back the sender's log. */
  lemma AcceptedLog(log: seq<Entry>, sent: seq<Entry>, history: map<int, seq<Entry>>, prev: int)
    requires Covered(log, history) && Covered(sent, history)
    requires 0 <= prev <= |sent| && (prev > 0 ==> sent[prev - 1].term >= 1 && TermAt(log, prev) == TermAt(sent, prev))
    ensures prev <= |log| && log[..prev] == sent[..prev]
    ensures Splice(log, prev, sent[prev..]) == if prev == |sent| then log else sent
  {
    if prev > 0 {
      AgreeThrough(log, sent, history, prev);
    }
    assert sent[..prev] + sent[prev..] == sent;
  }

  lemma SentLogOk(s: State, p: Packet)
    requires Inv(s) && p in s.net
    ensures Covered(p.sentLog, s.history) && WellFormed(p.sentLog, p.req.term)
  {
    assert PacketOk(s, p);
    CoveredPrefix(p.sentLog, s.history[p.req.term], s.history);
  }

  /** A delivered request that is not stale comes from the one leader of its term, who is not
      the receiver: the receiver never led that term. */
  lemma ReceiverNeverLed(s: State, p: Packet)
    requires Inv(s) && OneLeaderPerTerm(s) && p in s.net
    ensures (p.req.term, p.dst) !in s.led
  {
    assert PacketOk(s, p);
    var sender := (p.req.term, p.req.leaderId);
    assert sender in s.led;
  }

  lemma DeliverIsSafe(s: State, p: Packet)
    requires Inv(s) && OneLeaderPerTerm(s) && Enabled(s, Deliver(p))
    ensures SafeMove(s, p.dst, Act(s.nodes[p.dst], Deliver(p)))
    ensures var after := HandleAppend(s.nodes[p.dst], p.req);
      after.1.success && p.req.entries != [] ==> after.0.log == p.sentLog
  {
    var n := p.dst;
    var r := s.nodes[n];
    var req := p.req;
    assert NodeOk(s, n) && PacketOk(s, p);
    SentLogOk(s, p);
    ReceiverNeverLed(s, p);
    HandleShape(r, req);
    var cut := Cut(r.log, req.prevIndex);
    CoveredPrefix(cut, r.log, s.history);
    WellFormedLater(cut, r.log, r.currentTerm, req.term);
    if req.prevIndex <= 0 || TermAt(r.log, req.prevIndex) == req.prevTerm {
      AcceptedLog(r.log, p.sentLog, s.history, req.prevIndex);
    }
    hide Inv, PacketOk, Covered, WellFormed, OneLeaderPerTerm, HandleAppend;
  }

  lemma WellFormedLater(part: seq<Entry>, log: seq<Entry>, term: int, later: int)
    requires WellFormed(log, term) && part <= log
    ensures term <= later ==> WellFormed(part, later) && WellFormed(log, later)
  {
  }

  // ----- every event ---------------------------------------------------------------------

  lemma ActIsSafe(s: State, ev: Event)
    requires Inv(s) && OneLeaderPerTerm(s) && Enabled(s, ev) && !ev.ClientCommand?
    ensures SafeMove(s, Actor(ev), Act(s.nodes[Actor(ev)], ev))
  {
    if ev.Deliver? {
      DeliverIsSafe(s, ev.packet);
    } else {
      assert NodeOk(s, Actor(ev));
      ActKeepsLog(s.nodes[Actor(ev)], ev);
      SameLogIsSafe(s, Actor(ev), Act(s.nodes[Actor(ev)], ev));
    }
    hide *;
  }

  lemma ActKeepsLog(r: Replica, ev: Event)
    requires !ev.Deliver? && !ev.ClientCommand?
    ensures var after := Act(r, ev);
      && after.id == r.id && after.log == r.log && r.currentTerm <= after.currentTerm
      && (after.role.Leader? ==> r.role.Leader? || (ev.ElectionWin? && after.currentTerm == r.currentTerm))
  {
    hide ActivePeers, MatchIndexes, Outdated, LastTerm;
  }

  lemma SameLogIsSafe(s: State, n: NodeId, r: Replica)
    requires n in s.nodes && NodeOk(s, n)
    requires r.id == n && r.log == s.nodes[n].log && s.nodes[n].currentTerm <= r.currentTerm
    requires r.role.Leader? ==> s.nodes[n].role.Leader? || r.currentTerm >= 1
    ensures SafeMove(s, n, r)
  {
    hide Covered;
  }

  /** A leader whose log is already its term's history appends an entry. */
  function Grow(s: State, n: NodeId, eventId: string, command: Command): State
    requires n in s.nodes
  {
    var r := s.nodes[n];
    var longer := Propose(r, eventId, command);
    s.(nodes := s.nodes[n := longer], history := s.history[r.currentTerm := longer.log],
       issued := s.issued[eventId := (r.currentTerm, |r.log| + 1)])
  }

  ghost predicate MayGrow(s: State, n: NodeId, eventId: string) {
    && Inv(s) && OneLeaderPerTerm(s) && n in s.nodes && s.nodes[n].currentTerm >= 1
    && (s.nodes[n].currentTerm, n) in s.led && eventId !in s.issued
  }

  lemma GrowKeepsInv(s: State, n: NodeId, eventId: string, command: Command)
    requires MayGrow(s, n, eventId)
    ensures Inv(Grow(s, n, eventId, command))
  {
    var r := s.nodes[n];
    var s' := Grow(s, n, eventId, command);
    assert s.history[r.currentTerm] == r.log;
    assert Extends(s.history, s'.history);
    GrowKeepsNodes(s, n, eventId, command);
    GrowKeepsHistory(s, n, eventId, command);
    GrowKeepsEvents(s, n, eventId, command);
    hide HistoryOk, EventsOk, NodeOk, Grow;
    forall p | p in s'.net ensures PacketOk(s', p) {
      GrowKeepsPacket(s, n, eventId, command, p);
    }
  }

  lemma GrowKeepsPacket(s: State, n: NodeId, eventId: string, command: Command, p: Packet)
    requires MayGrow(s, n, eventId) && p in s.net && Extends(s.history, Grow(s, n, eventId, command).history)
    ensures PacketOk(Grow(s, n, eventId, command), p)
  {
    assert PacketOk(s, p);
    PrefixTransitive(p.sentLog, s.history[p.req.term], Grow(s, n, eventId, command).history[p.req.term]);
  }

  lemma GrowKeepsHistory(s: State, n: NodeId, eventId: string, command: Command)
    requires MayGrow(s, n, eventId) && Extends(s.history, Grow(s, n, eventId, command).history)
    requires NodeOk(Grow(s, n, eventId, command), n)
    ensures HistoryOk(Grow(s, n, eventId, command))
  {
    hide WellFormed, Covered, Extends, EventsOk, PacketOk, OneLeaderPerTerm;
    var t := s.nodes[n].currentTerm;
    var s' := Grow(s, n, eventId, command);
    GrowKeepsLed(s, n, eventId, command);
    forall u | u in s'.history
      ensures u >= 1 && WellFormed(s'.history[u], u) && Covered(s'.history[u], s'.history)
      ensures exists p :: p in s'.led && p.0 == u
    {
      var p :| p in s.led && p.0 == u;
      assert p in s'.led;
      if u != t {
        CoveredStays(s.history[u], s.history, s'.history);
      }
    }
  }

  lemma GrowKeepsLed(s: State, n: NodeId, eventId: string, command: Command)
    requires MayGrow(s, n, eventId)
    ensures var s' := Grow(s, n, eventId, command);
      forall p :: p in s'.led ==>
        && p.0 in s'.history && p.1 in s'.nodes && p.0 <= s'.nodes[p.1].currentTerm
        && (p.0 == s'.nodes[p.1].currentTerm ==> s'.nodes[p.1].log == s'.history[p.0])
  {
    var s' := Grow(s, n, eventId, command);
    var leader := (s.nodes[n].currentTerm, n);
    hide WellFormed, Covered;
    forall p | p in s'.led
      ensures p.0 in s'.history && p.1 in s'.nodes && p.0 <= s'.nodes[p.1].currentTerm
      ensures p.0 == s'.nodes[p.1].currentTerm ==> s'.nodes[p.1].log == s'.history[p.0]
    {
      if p.0 == leader.0 {
        assert p.1 == leader.1;
      }
    }
  }

  lemma GrowKeepsEvents(s: State, n: NodeId, eventId: string, command: Command)
    requires MayGrow(s, n, eventId)
    ensures EventsOk(Grow(s, n, eventId, command))
  {
    var t := s.nodes[n].currentTerm;
    var s' := Grow(s, n, eventId, command);
    assert s.history[t] == s.nodes[n].log;
    forall u, i | u in s'.history && 0 <= i < |s'.history[u]|
      ensures var e := s'.history[u][i]; e.eventId in s'.issued && s'.issued[e.eventId] == (e.term, e.index)
    {
      if !(u == t && i == |s.history[t]|) {
        assert s'.history[u][i] == s.history[u][i];
      }
    }
  }

  lemma GrowKeepsNodes(s: State, n: NodeId, eventId: string, command: Command)
    requires MayGrow(s, n, eventId) && Extends(s.history, Grow(s, n, eventId, command).history)
    ensures forall m :: m in s.nodes ==> NodeOk(Grow(s, n, eventId, command), m)
  {
    var s' := Grow(s, n, eventId, command);
    forall m | m in s.nodes ensures NodeOk(s', m) {
      assert NodeOk(s, m);
      CoveredStays(s.nodes[m].log, s.history, s'.history);
      hide Covered, WellFormed, Extends;
      if m == n {
        var e := Entry(s.nodes[n].currentTerm, |s.nodes[n].log| + 1, eventId, command);
        LongerIsCovered(s.nodes[n].log, e, s'.history);
        LongerIsWellFormed(s.nodes[n].log, e, s.nodes[n].currentTerm);
      }
    }
  }

  lemma LongerIsCovered(log: seq<Entry>, e: Entry, history: map<int, seq<Entry>>)
    requires Covered(log, history) && e.term in history && log + [e] <= history[e.term]
    ensures Covered(log + [e], history)
  {
    var longer := log + [e];
    forall i | 0 <= i < |longer| ensures CoveredAt(longer, history, i) {
      if i < |log| {
        assert CoveredAt(log, history, i);
        assert longer[..i + 1] == log[..i + 1];
      } else {
        assert longer[..i + 1] == longer;
      }
    }
  }

  lemma LongerIsWellFormed(log: seq<Entry>, e: Entry, term: int)
    requires WellFormed(log, term) && e.index == |log| + 1 && e.term == term >= 1
    ensures WellFormed(log + [e], term)
  {
  }

  lemma ProposingIsGrowing(s: State, n: NodeId, eventId: string, command: Command)
    requires Enabled(s, ClientCommand(n, eventId, command))
    ensures Next(s, ClientCommand(n, eventId, command)) == Grow(Lead(s, n), n, eventId, command)
    ensures Next(s, ClientCommand(n, eventId, command)).led == Lead(s, n).led
    ensures s.nodes[n].role.Leader? && eventId !in s.issued
  {
    var leading := Lead(s, n);
    var t := s.nodes[n].currentTerm;
    var longer := Propose(s.nodes[n], eventId, command);
    assert s.history[t := s.nodes[n].log][t := longer.log] == s.history[t := longer.log];
  }

  /** Proposing is acting as leader first and appending then. */
  lemma CommandKeepsInv(s: State, n: NodeId, eventId: string, command: Command)
    requires Inv(s) && Enabled(s, ClientCommand(n, eventId, command))
    requires OneLeaderPerTerm(Next(s, ClientCommand(n, eventId, command)))
    ensures Inv(Next(s, ClientCommand(n, eventId, command)))
  {
    assert NodeOk(s, n);
    var leading := Lead(s, n);
    ProposingIsGrowing(s, n, eventId, command);
    hide Inv, Grow, Next, NodeOk;
    LeadKeepsInv(s, n);
    GrowKeepsInv(leading, n, eventId, command);
  }

  // ----- sending -----------------------------------------------------------------------------

  lemma SendKeepsInv(s: State, p: Packet)
    requires Inv(s) && PacketOk(s, p)
    ensures Inv(s.(net := s.net + {p}))
  {
    var s' := s.(net := s.net + {p});
    hide WellFormed, Covered;
    forall q | q in s'.net ensures PacketOk(s', q) {
      assert PacketOk(s, q);
    }
    forall m | m in s'.nodes ensures NodeOk(s', m) {
      assert NodeOk(s, m);
    }
  }

  /** Whoever may send in a term leads it, with the log of the term's history. */
  lemma SenderLeads(s: State, n: NodeId, term: int)
    requires Inv(s) && n in s.nodes && MaySendAs(s, n, term) && OneLeaderPerTerm(LeadIn(s, n, term))
    ensures var leading := LeadIn(s, n, term);
      && Inv(leading) && leading.nodes == s.nodes && leading.net == s.net
      && (term, n) in leading.led && term in leading.history && leading.history[term] == s.nodes[n].log
  {
    assert NodeOk(s, n);
    hide NodeOk, HistoryOk, EventsOk, PacketOk;
    if s.nodes[n].role.Leader? && term == s.nodes[n].currentTerm {
      LeadKeepsInv(s, n);
    }
  }

  /** What is built lies within the sender's log. */
  predicate BuiltFrom(req: AppendReq, log: seq<Entry>) {
    && 0 <= req.prevIndex && req.prevIndex + |req.entries| <= |log|
    && req.prevTerm == TermAt(log, req.prevIndex)
    && req.entries == log[req.prevIndex..req.prevIndex + |req.entries|]
  }

  lemma BuiltFromLog(r: Replica, peer: NodeId, commit: int, last: int)
    requires 0 <= last <= |r.log|
    ensures BuiltFrom(BuildAppend(r, peer, commit, last), r.log) && BuiltFrom(BuildEmpty(r, commit, last), r.log)
    ensures BuildAppend(r, peer, commit, last).leaderId == BuildEmpty(r, commit, last).leaderId == r.id
  {
  }

  lemma VouchedIsSent(log: seq<Entry>, req: AppendReq)
    requires BuiltFrom(req, log)
    ensures var sent := Vouched(log, req);
      && sent <= log && req.prevIndex <= |sent| && req.prevTerm == TermAt(sent, req.prevIndex)
      && req.entries == sent[req.prevIndex..] && (|sent| == |log| ==> sent == log)
  {
  }

  /** A sent request carries what its sender's log holds after its previous index. */
  lemma SentShape(r: Replica, ev: Event)
    requires (ev.Replicate? || ev.Heartbeat?) && 0 <= ev.last <= |r.log|
    ensures var p := SentBy(r, ev);
      && p.dst == ev.peer && p.req.term == ev.term && p.req.leaderId == r.id
      && p.sentLog <= r.log && 0 <= p.req.prevIndex <= |p.sentLog|
      && p.req.prevTerm == TermAt(p.sentLog, p.req.prevIndex) && p.req.entries == p.sentLog[p.req.prevIndex..]
      && (p.req.entries != [] ==> p.sentLog == r.log)
  {
    BuiltFromLog(r, ev.peer, ev.commit, ev.last);
    var req := if ev.Replicate? then BuildAppend(r, ev.peer, ev.commit, ev.last) else BuildEmpty(r, ev.commit, ev.last);
    VouchedIsSent(r.log, req);
    SuffixReachesEnd(r, ev.peer, ev.commit, ev.last);
    hide BuildAppend, BuildEmpty, TermAt, BuiltFrom;
  }

  lemma SuffixReachesEnd(r: Replica, peer: NodeId, commit: int, last: int)
    requires 0 <= last <= |r.log|
    ensures var req := BuildAppend(r, peer, commit, last);
      && (req.entries != [] ==> req.prevIndex + |req.entries| == |r.log|) && BuildEmpty(r, commit, last).entries == []
  {
  }

  lemma SendingIsSending(s: State, ev: Event)
    requires Enabled(s, ev) && (ev.Replicate? || ev.Heartbeat?)
    ensures var leading := LeadIn(s, ev.node, ev.term);
      Next(s, ev) == leading.(net := leading.net + {SentBy(s.nodes[ev.node], ev)})
    ensures MaySendAs(s, ev.node, ev.term) && ev.peer != ev.node && 0 <= ev.last <= |s.nodes[ev.node].log|
  {
    hide SentBy;
  }

  lemma SendingKeepsInv(s: State, ev: Event)
    requires Inv(s) && Enabled(s, ev) && (ev.Replicate? || ev.Heartbeat?) && OneLeaderPerTerm(Next(s, ev))
    ensures Inv(Next(s, ev))
  {
    var r := s.nodes[ev.node];
    var leading := LeadIn(s, ev.node, ev.term);
    var p := SentBy(r, ev);
    SendingIsSending(s, ev);
    SenderLeads(s, ev.node, ev.term);
    SentShape(r, ev);
    assert NodeOk(s, ev.node);
    hide Inv, Next, Enabled, LeadIn, MaySendAs, WellFormed, Covered, SentBy;
    SendKeepsInv(leading, p);
  }

  // ----- every event ---------------------------------------------------------------------------

  lemma NextKeepsInv(s: State, ev: Event)
    requires Inv(s) && Enabled(s, ev) && OneLeaderPerTerm(Next(s, ev))
    ensures Inv(Next(s, ev))
  {
    LedGrows(s, ev);
    if ev.ClientCommand? {
      CommandKeepsInv(s, ev.node, ev.eventId, ev.command);
    } else if ev.Replicate? || ev.Heartbeat? {
      SendingKeepsInv(s, ev);
    } else {
      var moved := Move(s, Actor(ev), Act(s.nodes[Actor(ev)], ev));
      ActIsSafe(s, ev);
      MoveKeepsInv(s, Actor(ev), Act(s.nodes[Actor(ev)], ev));
      hide Inv, OneLeaderPerTerm, SafeMove;
      if ev.ElectionWin? {
        LeadKeepsInv(moved, ev.node);
      } else {
        SameButGrants(moved, Next(s, ev));
      }
    }
  }

  lemma SameButGrants(s: State, t: State)
    requires Inv(s) && t == s.(grants := t.grants)
    ensures Inv(t)
  {
    forall m | m in t.nodes ensures NodeOk(t, m) {
      assert NodeOk(s, m);
    }
    forall p | p in t.net ensures PacketOk(t, p) {
      assert PacketOk(s, p);
    }
  }

  lemma LedGrows(s: State, ev: Event)
    requires Enabled(s, ev)
    ensures s.led <= Next(s, ev).led
    ensures OneLeaderPerTerm(Next(s, ev)) ==> OneLeaderPerTerm(s)
  {
  }

  lemma {:induction false} RunKeepsInv(s: State, evs: seq<Event>)
    requires Init(s) && IsRun(s, evs) && OneLeaderPerTerm(After(s, evs))
    ensures Inv(After(s, evs))
    decreases |evs|
  {
    if evs != [] {
      var before := evs[..|evs| - 1];
      LedGrows(After(s, before), evs[|evs| - 1]);
      RunKeepsInv(s, before);
      NextKeepsInv(After(s, before), evs[|evs| - 1]);
    }
  }

  // ----- the theorems --------------------------------------------------------------------

  /** Under any loss, duplication and reordering: logs that agree on the term at an index are
      identical through it, and log terms are at least 1, nondecreasing and at most the node's
      current term. */
  lemma LogMatching(s: State, evs: seq<Event>, a: NodeId, b: NodeId, i: int)
    requires Init(s) && IsRun(s, evs) && OneLeaderPerTerm(After(s, evs))
    requires a in s.nodes && b in s.nodes
    ensures var end := After(s, evs);
      && a in end.nodes && b in end.nodes
      && WellFormed(end.nodes[a].log, end.nodes[a].currentTerm)
      && (1 <= i <= |end.nodes[a].log| && i <= |end.nodes[b].log|
          && TermAt(end.nodes[a].log, i) == TermAt(end.nodes[b].log, i)
          ==> end.nodes[a].log[..i] == end.nodes[b].log[..i])
  {
    var end := After(s, evs);
    RunKeepsInv(s, evs);
    NodesStay(s, evs);
    assert NodeOk(end, a) && NodeOk(end, b);
    if 1 <= i <= |end.nodes[a].log| && i <= |end.nodes[b].log| && TermAt(end.nodes[a].log, i) == TermAt(end.nodes[b].log, i) {
      AgreeThrough(end.nodes[a].log, end.nodes[b].log, end.history, i);
    }
  }

  /** However late it arrives, an accepted request that carries entries leaves the follower
      with exactly the log its leader had when it sent it. */
  lemma AcceptedRequestCopiesLeader(s: State, evs: seq<Event>, p: Packet)
    requires Init(s) && IsRun(s, evs + [Deliver(p)]) && OneLeaderPerTerm(After(s, evs + [Deliver(p)]))
    requires IsRun(s, evs) && p.dst in After(s, evs).nodes && p.req.entries != []
    requires HandleAppend(After(s, evs).nodes[p.dst], p.req).1.success
    ensures After(s, evs + [Deliver(p)]).nodes[p.dst].log == p.sentLog
  {
    assert (evs + [Deliver(p)])[..|evs|] == evs;
    LedGrows(After(s, evs), Deliver(p));
    RunKeepsInv(s, evs);
    DeliverIsSafe(After(s, evs), p);
  }

  // ----- when a delivery spares what is committed -------------------------------------------------

  predicate PassesCheck(r: Replica, req: AppendReq) {
    req.prevIndex <= 0 || TermAt(r.log, req.prevIndex) == req.prevTerm
  }

  /** What the receiver can tell before it handles a request: the request is stale, or is rejected
      beyond the commit index, or writes nothing, or writes beyond the commit index only, or brings
      at the commit index an entry of the term that is there. */
  predicate Spares(r: Replica, req: AppendReq)
    requires 0 <= r.commitIndex <= |r.log|
  {
    || req.term < r.currentTerm
    || (if !PassesCheck(r, req) then req.prevIndex > r.commitIndex
        else
          || req.entries == [] || r.commitIndex <= req.prevIndex
          || (0 <= req.prevIndex && r.commitIndex <= req.prevIndex + |req.entries|
              && req.entries[r.commitIndex - req.prevIndex - 1].term == r.log[r.commitIndex - 1].term))
  }

  /** The request is stale, or is rejected, or commits no more than the log it leaves. */
  predicate CoversCommit(r: Replica, req: AppendReq) {
    || req.term < r.currentTerm || !PassesCheck(r, req)
    || (var left := if req.entries == [] then |r.log| else req.prevIndex + |req.entries|;
        r.commitIndex <= left && req.leaderCommit <= left)
  }

  /** What a delivery leaves of the receiver's log. */
  lemma LogLeft(s: State, p: Packet)
    requires Inv(s) && p in s.net && p.dst in s.nodes
    ensures var r := s.nodes[p.dst];
            var after := HandleAppend(r, p.req).0;
      && (p.req.term < r.currentTerm ==> after == r)
      && (p.req.term >= r.currentTerm && !PassesCheck(r, p.req) ==> after.log == Cut(r.log, p.req.prevIndex))
      && (PassesCheck(r, p.req) ==>
            p.req.prevIndex <= |r.log| && r.log[..p.req.prevIndex] == p.sentLog[..p.req.prevIndex])
      && (p.req.term >= r.currentTerm && PassesCheck(r, p.req) ==>
            after.log == if p.req.entries == [] then r.log else p.sentLog)
      && 0 <= p.req.prevIndex <= |p.sentLog| && p.req.entries == p.sentLog[p.req.prevIndex..]
      && Covered(r.log, s.history) && Covered(p.sentLog, s.history)
  {
    var r := s.nodes[p.dst];
    assert NodeOk(s, p.dst) && PacketOk(s, p);
    SentLogOk(s, p);
    HandleShape(r, p.req);
    if PassesCheck(r, p.req) {
      AcceptedLog(r.log, p.sentLog, s.history, p.req.prevIndex);
    }
    hide Inv, HandleAppend, Covered;
  }

  /** A covered log that replaces another one spares a prefix exactly when it reaches that far and
      agrees there on the term. */
  lemma SentSparesIff(log: seq<Entry>, sent: seq<Entry>, h: map<int, seq<Entry>>, prev: int, c: int)
    requires Covered(log, h) && Covered(sent, h) && 0 <= c <= |log|
    requires 0 <= prev <= |log| && prev <= |sent| && log[..prev] == sent[..prev]
    ensures log[..c] <= sent <==> c <= prev || (c <= |sent| && sent[c - 1].term == log[c - 1].term)
  {
    if c <= prev {
      assert log[..c] == log[..prev][..c] && sent[..c] == sent[..prev][..c];
    } else if c <= |sent| && sent[c - 1].term == log[c - 1].term {
      AgreeThrough(log, sent, h, c);
    }
    hide Covered;
  }

  lemma CutSparesIff(log: seq<Entry>, prev: int, c: int)
    requires 0 <= c <= |log| && 1 <= prev
    ensures log[..c] <= Cut(log, prev) <==> c < prev
  {
  }

  /** A delivered request, however late, leaves the receiver's committed entries alone exactly when
      the receiver's own log and cursor say so. */
  lemma DeliverySparesIff(s: State, p: Packet)
    requires Inv(s) && p in s.net && p.dst in s.nodes
    requires 0 <= s.nodes[p.dst].commitIndex <= |s.nodes[p.dst].log|
    ensures var r := s.nodes[p.dst];
      r.log[..r.commitIndex] <= HandleAppend(r, p.req).0.log <==> Spares(r, p.req)
  {
    hide Inv, HandleAppend, Covered, TermAt, Cut;
    var r, req, c := s.nodes[p.dst], p.req, s.nodes[p.dst].commitIndex;
    LogLeft(s, p);
    if req.term >= r.currentTerm {
      if !PassesCheck(r, req) {
        CutSparesIff(r.log, req.prevIndex, c);
      } else if req.entries != [] {
        SentSparesIff(r.log, p.sentLog, s.history, req.prevIndex, c);
        if req.prevIndex < c <= |p.sentLog| { EntryAt(p.sentLog, req.prevIndex, c); }
      }
    }
  }

  lemma EntryAt(sent: seq<Entry>, prev: int, c: int)
    requires 0 <= prev <= |sent| && prev < c <= |sent|
    ensures sent[prev..][c - prev - 1] == sent[c - 1]
  {
  }

  /** And leaves its commit index within its log exactly when the request says so. */
  lemma CommitStaysCoveredIff(s: State, p: Packet)
    requires Inv(s) && p in s.net && p.dst in s.nodes
    requires 0 <= s.nodes[p.dst].commitIndex <= |s.nodes[p.dst].log|
    ensures var r := s.nodes[p.dst];
            var after := HandleAppend(r, p.req).0;
      after.commitIndex <= |after.log| <==> CoversCommit(r, p.req)
  {
    hide Inv, HandleAppend, Covered, TermAt, Cut;
    var r, req := s.nodes[p.dst], p.req;
    LogLeft(s, p);
    CommitLeft(r, req);
    CutLength(r.log, req.prevIndex);
  }

  lemma CutLength(log: seq<Entry>, prev: int)
    ensures |Cut(log, prev)| == if 1 <= prev <= |log| then prev - 1 else |log|
  {
  }

  lemma CommitLeft(r: Replica, req: AppendReq)
    ensures var after := HandleAppend(r, req).0;
      after.commitIndex == if req.term < r.currentTerm then r.commitIndex
                           else if !PassesCheck(r, req) then (if r.commitIndex >= req.prevIndex then req.prevIndex - 1 else r.commitIndex)
                           else if req.leaderCommit > r.commitIndex then req.leaderCommit else r.commitIndex
  {
    hide Cut, Splice, TermAt;
  }
}
