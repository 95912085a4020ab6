/** Every leadership is part of a run of the cluster: its events are cluster events, which keep
    the cluster's invariant and add no second leader to any term. */
module Realisation {
  import opened Commands
  import opened Raft
  import LogMatching
  import C = Cluster
  import Commitment
  import L = Leadership

  /** The leader and its peers are the cluster's nodes, and the heartbeats on their way are in its
      network. */
  ghost predicate Matches(s: C.State, w: L.World) {
    && w.leader.id !in w.peers && s.nodes == w.peers[w.leader.id := w.leader]
    && forall b :: b in w.beats ==> InNet(s, b.0, b.1)
  }

  ghost predicate InNet(s: C.State, p: NodeId, req: AppendReq) {
    exists packet :: packet in s.net && packet.dst == p && packet.req == req
  }

  /** What the cluster has to allow: fresh event ids, terms the leader may still send in, and
      older packets that are in the network and commit safely. */
  ghost predicate Allowed(s: C.State, w: L.World, ev: L.Event)
    requires Matches(s, w)
  {
    match ev
    case Append(eventId, _) => w.leader.role.Leader? && eventId !in s.issued
    case Rpc(p, term, commit, last, _) => p in w.peers && L.MaySend(w, term, commit, last) && C.MaySendAs(s, w.leader.id, term)
    case Beat(p, term, commit, last) =>
      p != w.leader.id && L.MaySend(w, term, commit, last) && C.MaySendAs(s, w.leader.id, term)
    case Straggle(p, req, sent) =>
      && p in w.peers && req.term < w.since && C.Packet(p, req, sent) in s.net
      && (req.term >= w.peers[p].currentTerm ==> L.CommitsSafely(w, w.peers[p], req, sent))
    case _ => L.Enabled(w, ev)
  }

  ghost predicate Inv(s: C.State, w: L.World) {
    && C.Inv(s) && C.OneLeaderPerTerm(s) && L.Inv(w) && Matches(s, w)
    && forall p :: p in s.led && p.0 >= w.since ==> p.1 == w.leader.id
  }

  /** The events of the cluster that make up an event of the leadership. */
  ghost function Realise(s: C.State, w: L.World, ev: L.Event): seq<C.Event> {
    var n := w.leader.id;
    match ev
    case Append(eventId, command) => [C.ClientCommand(n, eventId, command)]
    case Rpc(p, term, commit, last, fate) => Exchange(w, p, term, commit, last, fate)
    case Beat(p, term, commit, last) => [C.Heartbeat(n, p, term, commit, last)]
    case Answered(a) => [C.Reply(n, a.peer, a.sentTerm, a.last, a.resp)]
    case BeatArrives(p, beat) =>
      if InNet(s, p, beat) then
        var packet :| packet in s.net && packet.dst == p && packet.req == beat;
        [C.Deliver(packet)]
      else []
    case BeatReply(sentTerm, replyTerm) => [C.HeartbeatReply(n, sentTerm, replyTerm)]
    case Commit(known) => [C.CommitStep(n, known)]
    case LeaderApplies(upTo) => [C.Apply(n, upTo)]
    case PeerApplies(p, upTo) => [C.Apply(p, upTo)]
    case LeaderVotes(vote) => [C.RequestVote(n, vote)]
    case PeerVotes(p, vote) => [C.RequestVote(p, vote)]
    case PeerStands(p) => [C.ElectionStart(p)]
    case Straggle(p, req, sent) => [C.Deliver(C.Packet(p, req, sent))]
    case Demotion => [C.Demote(n)]
  }

  function Sending(w: L.World, p: NodeId, term: int, commit: int, last: int): C.Packet {
    var req := L.Request(w, p, term, commit, last);
    C.Packet(p, req, C.Vouched(w.leader.log, req))
  }

  ghost function Exchange(w: L.World, p: NodeId, term: int, commit: int, last: int, fate: L.Fate): seq<C.Event> {
    var n := w.leader.id;
    var packet := Sending(w, p, term, commit, last);
    var sent := [C.Replicate(n, p, term, commit, last)];
    var handled := sent + [C.Deliver(packet)];
    if fate.Lost? || p !in w.peers then sent
    else if fate.ReplyLate? then handled
    else handled + [C.Reply(n, p, term, last, HandleAppend(w.peers[p], packet.req).1)]
  }

  // ----- runs ----------------------------------------------------------------------------------

  lemma OneEvent(s: C.State, ev: C.Event)
    requires C.Enabled(s, ev)
    ensures C.IsRun(s, [ev]) && C.After(s, [ev]) == C.Next(s, ev)
  {
    hide C.Enabled, C.Next;
    C.OneMore(s, [], ev);
    assert [] + [ev] == [ev];
  }

  lemma LastEvent(s: C.State, evs: seq<C.Event>)
    requires C.IsRun(s, evs) && evs != []
    ensures var front := evs[..|evs| - 1];
      && C.IsRun(s, front) && C.Enabled(C.After(s, front), evs[|evs| - 1])
      && C.After(s, evs) == C.Next(C.After(s, front), evs[|evs| - 1])
  {
    hide C.Enabled, C.Next;
  }

  lemma NoEvents(s: C.State)
    ensures C.IsRun(s, []) && C.After(s, []) == s
  {
  }

  lemma {:induction false} Joined(s: C.State, a: seq<C.Event>, b: seq<C.Event>)
    requires C.IsRun(s, a) && C.IsRun(C.After(s, a), b)
    ensures C.IsRun(s, a + b) && C.After(s, a + b) == C.After(C.After(s, a), b)
    decreases |b|
  {
    hide C.Enabled, C.Next, C.IsRun, C.After;
    if b == [] {
      assert a + b == a;
      NoEvents(C.After(s, a));
    } else {
      var front, last := b[..|b| - 1], b[|b| - 1];
      LastEvent(C.After(s, a), b);
      Joined(s, a, front);
      C.OneMore(s, a + front, last);
      assert a + b == a + front + [last];
    }
  }

  // ----- single events ------------------------------------------------------------------------

  /** What one cluster event has to do to keep the cluster's part of the invariant. */
  lemma ClusterKeeps(s: C.State, w: L.World, ev: C.Event)
    requires Inv(s, w) && C.Enabled(s, ev) && Leads(w, ev)
    ensures C.Inv(C.Next(s, ev)) && C.OneLeaderPerTerm(C.Next(s, ev))
    ensures forall p :: p in C.Next(s, ev).led && p.0 >= w.since ==> p.1 == w.leader.id
  {
    OneLeaderStays(s, w, ev);
    LogMatching.NextKeepsInv(s, ev);
    hide *;
  }

  /** Only the leader acts as one, in terms since the leadership began. */
  ghost predicate Leads(w: L.World, ev: C.Event) {
    match ev
    case ElectionWin(_, _) => false
    case ClientCommand(n, _, _) => n == w.leader.id
    case Replicate(n, _, term, _, _) => n == w.leader.id && term >= w.since
    case Heartbeat(n, _, term, _, _) => n == w.leader.id && term >= w.since
    case _ => true
  }

  lemma OneLeaderStays(s: C.State, w: L.World, ev: C.Event)
    requires Inv(s, w) && C.Enabled(s, ev) && Leads(w, ev)
    ensures C.OneLeaderPerTerm(C.Next(s, ev))
    ensures forall p :: p in C.Next(s, ev).led && p.0 >= w.since ==> p.1 == w.leader.id
  {
    hide C.Inv, C.MaySendAs, L.FollowerOk, L.MatchOk, HandleAppend, HandleVote, OnReply, C.SentBy,
         ActivePeers, Recalculate, WinElection;
    assert s.nodes[w.leader.id] == w.leader;
    assert w.leader.currentTerm >= w.since;
    var added := (w.leader.currentTerm, w.leader.id);
    assert C.Next(s, ev).led == s.led || C.Next(s, ev).led == s.led + {added};
  }

  // ----- steps -----------------------------------------------------------------------------------

  /** A cluster event that leaves the network and moves one node as the leadership's event does. */
  lemma StepKeeps(s: C.State, w: L.World, e: C.Event, after: L.World)
    requires Inv(s, w) && C.Enabled(s, e) && Leads(w, e)
    requires L.Inv(after) && after.since == w.since && after.leader.id == w.leader.id
    requires Matches(C.Next(s, e), after)
    ensures C.IsRun(s, [e]) && C.After(s, [e]) == C.Next(s, e) && Inv(C.Next(s, e), after)
  {
    ClusterKeeps(s, w, e);
    OneEvent(s, e);
    hide C.Inv, L.Inv, C.Enabled, C.Next, Leads, C.OneLeaderPerTerm, Matches;
  }

  lemma AllowedIsEnabled(s: C.State, w: L.World, ev: L.Event)
    requires Inv(s, w) && Allowed(s, w, ev)
    ensures L.Enabled(w, ev) && L.Inv(L.Next(w, ev))
  {
    hide C.Inv, L.Inv, L.OlderRequest, L.CommitsSafely, L.MaySend, C.MaySendAs, L.Next;
    if ev.Straggle? { OlderIsOk(s, w, C.Packet(ev.peer, ev.req, ev.sent)); }
    L.NextKeepsInv(w, ev);
  }

  lemma OlderIsOk(s: C.State, w: L.World, packet: C.Packet)
    requires Inv(s, w) && packet in s.net && packet.dst in w.peers && packet.req.term < w.since
    ensures L.OlderRequest(w, w.peers[packet.dst], packet.req, packet.sentLog)
  {
    hide C.Inv, L.Inv, L.OlderRequest;
    Commitment.OlderPacketsAgree(s, packet, w.leader.id, w);
  }

  /** The cluster event of an event that is not a request with its reply. */
  ghost function Single(s: C.State, w: L.World, ev: L.Event): C.Event
    requires Inv(s, w) && Allowed(s, w, ev) && !ev.Rpc?
    ensures Realise(s, w, ev) == [Single(s, w, ev)]
  {
    Realise(s, w, ev)[0]
  }

  lemma SingleIsEnabled(s: C.State, w: L.World, ev: L.Event)
    requires Inv(s, w) && Allowed(s, w, ev) && !ev.Rpc?
    ensures C.Enabled(s, Single(s, w, ev)) && Leads(w, Single(s, w, ev))
  {
    hide C.Inv, L.Inv, L.CommitsSafely, C.MaySendAs;
  }

  lemma LeaderStays(w: L.World, ev: L.Event)
    requires !ev.Rpc?
    ensures L.Next(w, ev).leader.id == w.leader.id && L.Next(w, ev).since == w.since
  {
    hide HandleAppend, BuildEmpty, ActivePeers, MatchIndexes, Outdated, LastTerm;
  }

  predicate AtLeader(ev: L.Event) {
    ev.Append? || ev.Answered? || ev.BeatReply? || ev.Commit? || ev.LeaderApplies? || ev.LeaderVotes? || ev.Demotion?
  }

  lemma LeaderActs(s: C.State, w: L.World, ev: L.Event)
    requires Inv(s, w) && Allowed(s, w, ev) && AtLeader(ev) && C.Enabled(s, Single(s, w, ev))
    ensures var (t, after) := (C.Next(s, Single(s, w, ev)), L.Next(w, ev));
      && t.nodes == s.nodes[w.leader.id := after.leader] && t.net == s.net
      && after.peers == w.peers && after.beats == w.beats
  {
    hide C.Inv, L.Inv, C.MaySendAs, L.MaySend, HandleVote, Recalculate, ObserveTerm, OnReply;
    assert s.nodes[w.leader.id] == w.leader;
  }

  lemma LeaderMatches(s: C.State, w: L.World, ev: L.Event)
    requires Inv(s, w) && Allowed(s, w, ev) && AtLeader(ev) && C.Enabled(s, Single(s, w, ev))
    ensures Matches(C.Next(s, Single(s, w, ev)), L.Next(w, ev))
  {
    LeaderStays(w, ev);
    LeaderActs(s, w, ev);
    LeaderReplaced(s, C.Next(s, Single(s, w, ev)), w, L.Next(w, ev));
    hide C.Inv, L.Inv, C.Enabled, C.Next, L.Next, Allowed, Single;
  }

  lemma LeaderReplaced(s: C.State, t: C.State, w: L.World, after: L.World)
    requires Matches(s, w) && after.leader.id == w.leader.id && after.peers == w.peers && after.beats == w.beats
    requires t.nodes == s.nodes[w.leader.id := after.leader] && s.net <= t.net
    ensures Matches(t, after)
  {
    forall b | b in after.beats ensures InNet(t, b.0, b.1) {
      StillInNet(s, t, b.0, b.1);
    }
  }

  /** One peer has moved, and possibly answered. */
  ghost predicate OnePeer(w: L.World, after: L.World, p: NodeId) {
    p in after.peers && after == w.(peers := w.peers[p := after.peers[p]], answers := after.answers)
  }

  lemma PeerReplaced(s: C.State, t: C.State, w: L.World, after: L.World, p: NodeId)
    requires Matches(s, w) && p in w.peers && OnePeer(w, after, p)
    requires t.nodes == s.nodes[p := after.peers[p]] && s.net <= t.net
    ensures Matches(t, after)
  {
    forall b | b in after.beats ensures InNet(t, b.0, b.1) {
      StillInNet(s, t, b.0, b.1);
    }
  }

  lemma BeatMatches(s: C.State, w: L.World, ev: L.Event)
    requires Inv(s, w) && Allowed(s, w, ev) && ev.Beat? && C.Enabled(s, Single(s, w, ev))
    ensures Matches(C.Next(s, Single(s, w, ev)), L.Next(w, ev))
  {
    hide C.Inv, L.Inv, C.MaySendAs, L.MaySend, BuildEmpty;
    var (t, after) := (C.Next(s, Single(s, w, ev)), L.Next(w, ev));
    var packet := C.SentBy(w.leader, C.Heartbeat(w.leader.id, ev.peer, ev.term, ev.commit, ev.last));
    assert packet in t.net;
    forall b | b in after.beats ensures InNet(t, b.0, b.1) {
      if b in w.beats { StillInNet(s, t, b.0, b.1); }
    }
  }

  lemma StillInNet(s: C.State, t: C.State, p: NodeId, req: AppendReq)
    requires InNet(s, p, req) && s.net <= t.net
    ensures InNet(t, p, req)
  {
    var packet :| packet in s.net && packet.dst == p && packet.req == req;
    assert packet in t.net;
  }

  lemma PeerActs(s: C.State, w: L.World, ev: L.Event)
    requires Inv(s, w) && Allowed(s, w, ev) && !AtLeader(ev) && !ev.Beat? && !ev.Rpc? && C.Enabled(s, Single(s, w, ev))
    ensures var (t, after) := (C.Next(s, Single(s, w, ev)), L.Next(w, ev));
      && ev.peer in w.peers && OnePeer(w, after, ev.peer)
      && t.nodes == s.nodes[ev.peer := after.peers[ev.peer]] && t.net == s.net
  {
    hide C.Inv, L.Inv, L.CommitsSafely, HandleAppend, HandleVote;
    assert ev.peer in w.peers && s.nodes[ev.peer] == w.peers[ev.peer];
  }

  lemma PeerMatches(s: C.State, w: L.World, ev: L.Event)
    requires Inv(s, w) && Allowed(s, w, ev) && !AtLeader(ev) && !ev.Beat? && !ev.Rpc? && C.Enabled(s, Single(s, w, ev))
    ensures Matches(C.Next(s, Single(s, w, ev)), L.Next(w, ev))
  {
    PeerActs(s, w, ev);
    PeerReplaced(s, C.Next(s, Single(s, w, ev)), w, L.Next(w, ev), ev.peer);
    hide C.Inv, L.Inv, C.Enabled, C.Next, L.Next, Allowed, Single;
  }

  lemma SingleKeeps(s: C.State, w: L.World, ev: L.Event)
    requires Inv(s, w) && Allowed(s, w, ev) && !ev.Rpc?
    ensures C.IsRun(s, Realise(s, w, ev)) && Inv(C.After(s, Realise(s, w, ev)), L.Next(w, ev))
  {
    SingleIsEnabled(s, w, ev);
    AllowedIsEnabled(s, w, ev);
    LeaderStays(w, ev);
    if AtLeader(ev) {
      LeaderMatches(s, w, ev);
    } else if ev.Beat? {
      BeatMatches(s, w, ev);
    } else {
      PeerMatches(s, w, ev);
    }
    StepKeeps(s, w, Single(s, w, ev), L.Next(w, ev));
    hide Inv, Allowed, C.Next, C.Enabled, C.After, L.Next, Matches;
  }

  // ----- a request and its reply -----------------------------------------------------------------

  lemma SendingIsSent(w: L.World, p: NodeId, term: int, commit: int, last: int)
    ensures C.SentBy(w.leader, C.Replicate(w.leader.id, p, term, commit, last)) == Sending(w, p, term, commit, last)
  {
    hide BuildAppend;
  }

  lemma Sent(s: C.State, w: L.World, p: NodeId, term: int, commit: int, last: int)
    requires Inv(s, w) && p in w.peers && L.MaySend(w, term, commit, last) && C.MaySendAs(s, w.leader.id, term)
    ensures var e := C.Replicate(w.leader.id, p, term, commit, last);
      && C.IsRun(s, [e]) && Inv(C.After(s, [e]), w) && Sending(w, p, term, commit, last) in C.After(s, [e]).net
  {
    hide C.Inv, L.Inv, C.MaySendAs, BuildAppend, C.SentBy, Sending;
    var e := C.Replicate(w.leader.id, p, term, commit, last);
    SendingIsSent(w, p, term, commit, last);
    LeaderReplaced(s, C.Next(s, e), w, w);
    StepKeeps(s, w, e, w);
  }

  lemma Handled(s: C.State, w: L.World, packet: C.Packet, last: int)
    requires Inv(s, w) && packet.dst in w.peers && packet in s.net
    requires L.Inv(L.Handle(w, packet.dst, packet.req, last))
    ensures C.IsRun(s, [C.Deliver(packet)])
    ensures Inv(C.After(s, [C.Deliver(packet)]), L.Handle(w, packet.dst, packet.req, last))
  {
    hide C.Inv, L.Inv, HandleAppend;
    var after := L.Handle(w, packet.dst, packet.req, last);
    PeerReplaced(s, C.Next(s, C.Deliver(packet)), w, after, packet.dst);
    StepKeeps(s, w, C.Deliver(packet), after);
  }

  lemma Answered(s: C.State, w: L.World, p: NodeId, term: int, last: int, resp: AppendResp, after: L.World)
    requires Inv(s, w) && L.Inv(after) && after == w.(leader := OnReply(w.leader, p, term, last, resp))
    ensures var e := C.Reply(w.leader.id, p, term, last, resp);
      C.IsRun(s, [e]) && Inv(C.After(s, [e]), after)
  {
    ReplyKeepsId(w.leader, p, term, last, resp);
    hide C.Inv, L.Inv, OnReply;
    var e := C.Reply(w.leader.id, p, term, last, resp);
    LeaderReplaced(s, C.Next(s, e), w, after);
    StepKeeps(s, w, e, after);
  }

  lemma ReplyKeepsId(r: Replica, p: NodeId, term: int, last: int, resp: AppendResp)
    ensures OnReply(r, p, term, last, resp).id == r.id
  {
  }

  lemma ExchangeKeeps(s: C.State, w: L.World, ev: L.Event)
    requires Inv(s, w) && Allowed(s, w, ev) && ev.Rpc?
    ensures C.IsRun(s, Realise(s, w, ev)) && Inv(C.After(s, Realise(s, w, ev)), L.Next(w, ev))
  {
    hide Inv, C.IsRun, C.After, HandleAppend, OnReply, L.Request, C.MaySendAs, L.MaySend, C.Vouched;
    var p, term, last := ev.peer, ev.term, ev.last;
    var packet := Sending(w, p, term, ev.commit, last);
    var sent := [C.Replicate(w.leader.id, p, term, ev.commit, last)];
    Sent(s, w, p, term, ev.commit, last);
    if ev.fate.Lost? {
      return;
    }
    var deliver := [C.Deliver(packet)];
    var handled := L.Next(w, L.Rpc(p, term, ev.commit, last, L.ReplyLate));
    AllowedIsEnabled(s, w, L.Rpc(p, term, ev.commit, last, L.ReplyLate));
    Handled(C.After(s, sent), w, packet, last);
    Joined(s, sent, deliver);
    if ev.fate.Replied? {
      var resp := HandleAppend(w.peers[p], packet.req).1;
      AllowedIsEnabled(s, w, ev);
      Answered(C.After(s, sent + deliver), handled, p, term, last, resp, L.Next(w, ev));
      Joined(s, sent + deliver, [C.Reply(w.leader.id, p, term, last, resp)]);
    }
  }

  // ----- the theorem ---------------------------------------------------------------------------

  ghost function Carried(s: C.State, w: L.World, ev: L.Event): C.State {
    if C.IsRun(s, Realise(s, w, ev)) then C.After(s, Realise(s, w, ev)) else s
  }

  /** Every event is one the cluster allows where it happens. */
  ghost predicate AllAllowed(s: C.State, w: L.World, evs: seq<L.Event>)
    decreases |evs|
  {
    evs == [] || (Matches(s, w) && Allowed(s, w, evs[0]) && AllAllowed(Carried(s, w, evs[0]), L.Next(w, evs[0]), evs[1..]))
  }

  lemma EventIsRun(s: C.State, w: L.World, ev: L.Event)
    requires Inv(s, w) && Allowed(s, w, ev)
    ensures L.Enabled(w, ev)
    ensures C.IsRun(s, Realise(s, w, ev)) && Carried(s, w, ev) == C.After(s, Realise(s, w, ev))
    ensures Inv(Carried(s, w, ev), L.Next(w, ev))
  {
    AllowedIsEnabled(s, w, ev);
    if ev.Rpc? { ExchangeKeeps(s, w, ev); } else { SingleKeeps(s, w, ev); }
    hide Inv, Realise, Allowed, C.IsRun, C.After, L.Next;
  }

  /** The events of a leadership, as the cluster allows them, are a run of the cluster that keeps
      the cluster and the leadership in step, both invariants, and one leader to each term. */
  lemma {:induction false} LeadershipIsARun(s: C.State, w: L.World, evs: seq<L.Event>) returns (run: seq<C.Event>)
    requires Inv(s, w) && AllAllowed(s, w, evs)
    ensures C.IsRun(s, run) && L.IsRun(w, evs) && Inv(C.After(s, run), L.After(w, evs))
    decreases |evs|
  {
    hide Inv, Realise, Allowed, C.IsRun, C.After, L.Next, L.Enabled, Carried, Matches;
    if evs == [] {
      run := [];
      NoEvents(s);
    } else {
      EventIsRun(s, w, evs[0]);
      var rest := LeadershipIsARun(Carried(s, w, evs[0]), L.Next(w, evs[0]), evs[1..]);
      run := Realise(s, w, evs[0]) + rest;
      Joined(s, Realise(s, w, evs[0]), rest);
    }
  }

  /** It starts with the election. */
  lemma ElectionStartsRun(s: C.State, n: NodeId, known: seq<NodeId>, w: L.World)
    requires C.Inv(s) && C.OneLeaderPerTerm(s) && n in s.nodes && s.nodes[n].currentTerm >= 1
    requires forall p :: p in s.led ==> p.0 < s.nodes[n].currentTerm
    requires forall m :: m in s.nodes ==>
      Commitment.CursorsOk(s.nodes[m]) && s.nodes[m].log[..s.nodes[m].commitIndex] <= s.nodes[n].log
    requires w == L.World(C.Act(s.nodes[n], C.ElectionWin(n, known)), s.nodes - {n}, {}, {}, s.nodes[n].currentTerm)
    ensures C.Enabled(s, C.ElectionWin(n, known)) && Inv(C.Next(s, C.ElectionWin(n, known)), w)
  {
    hide C.Inv, L.Inv, Matches, C.Next, C.OneLeaderPerTerm, C.Act;
    Commitment.ElectionStartsLeadership(s, n, known, w);
    WinMatches(s, n, known, w);
    WinKeepsInv(s, n, known);
  }

  lemma WinMatches(s: C.State, n: NodeId, known: seq<NodeId>, w: L.World)
    requires C.Inv(s) && n in s.nodes && s.nodes[n].currentTerm >= 1
    requires w == L.World(C.Act(s.nodes[n], C.ElectionWin(n, known)), s.nodes - {n}, {}, {}, s.nodes[n].currentTerm)
    ensures C.Enabled(s, C.ElectionWin(n, known)) && Matches(C.Next(s, C.ElectionWin(n, known)), w) && w.leader.id == n
  {
    assert C.NodeOk(s, n);
    hide C.Inv, ActivePeers;
  }

  lemma WinKeepsInv(s: C.State, n: NodeId, known: seq<NodeId>)
    requires C.Inv(s) && C.OneLeaderPerTerm(s) && n in s.nodes && s.nodes[n].currentTerm >= 1
    requires forall p :: p in s.led ==> p.0 < s.nodes[n].currentTerm
    ensures var t := C.Next(s, C.ElectionWin(n, known));
      && C.Inv(t) && C.OneLeaderPerTerm(t) && t.led == s.led + {(s.nodes[n].currentTerm, n)}
  {
    hide C.Inv, ActivePeers;
    LogMatching.NextKeepsInv(s, C.ElectionWin(n, known));
  }
}
