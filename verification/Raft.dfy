/** One consensus node and the transitions its handlers make.  `Node<L>` keeps the log as an
    `L`: the running code stores it as rows of a table, the protocol proofs read it as a
    sequence, and every transition that does not touch the log is shared by both. */
module Raft {
  import opened Commands
  import opened Quorum

  type NodeId = string

  datatype Role = Follower | Candidate | Leader

  datatype Node<+L> = Node(
    id: NodeId,
    currentTerm: int,
    votedFor: NodeId,
    commitIndex: int,
    lastApplied: int,
    role: Role,
    leader: NodeId,
    log: L,
    nextIdx: map<NodeId, int>,
    matchIdx: map<NodeId, int>)

  type Replica = Node<seq<Entry>>

  datatype AppendReq = AppendReq(
    term: int, leaderId: NodeId, prevIndex: int, prevTerm: int, entries: seq<Entry>, leaderCommit: int)

  datatype AppendResp = AppendResp(term: int, success: bool, matchIndex: int)

  datatype VoteReq = VoteReq(term: int, candidate: NodeId, lastIndex: int, lastTerm: int, preVote: bool)

  datatype VoteResp = VoteResp(term: int, granted: bool)

  function NewNode<L>(id: NodeId, empty: L): Node<L> {
    Node(id, 0, "", 0, 0, Follower, "", empty, map[], map[])
  }

  // ----- AppendEntries ----------------------------------------------------------------

  /** A request of a current or newer term: adopt the term, step down, remember the leader. */
  function Adopt<L>(n: Node<L>, req: AppendReq): Node<L> {
    if req.term > n.currentTerm then
      n.(currentTerm := req.term, role := Follower, leader := req.leaderId)
    else if n.role.Leader? then
      if req.leaderId != n.id then n.(role := Follower, leader := req.leaderId) else n
    else
      n.(leader := req.leaderId)
  }

  /** The previous entry does not match: keep `cut` and pull both cursors back below it. */
  function RollBack<L>(n: Node<L>, prev: int, cut: L): Node<L> {
    n.(log := cut,
       lastApplied := if n.lastApplied >= prev then prev - 1 else n.lastApplied,
       commitIndex := if n.commitIndex >= prev then prev - 1 else n.commitIndex)
  }

  function LastSent(req: AppendReq): int {
    if req.entries == [] then req.prevIndex else req.entries[|req.entries| - 1].index
  }

  /** The whole AppendEntries handler, given what the log operations it performs yield:
      the term found at the previous index, the log truncated there, and the log with the
      request's entries written over it. */
  function Append<L>(n: Node<L>, req: AppendReq, found: int, cut: L, extended: L): (Node<L>, AppendResp) {
    if req.term < n.currentTerm then
      (n, AppendResp(n.currentTerm, false, n.lastApplied))
    else
      var m := Adopt(n, req);
      if req.prevIndex > 0 && found != req.prevTerm then
        var back := RollBack(m, req.prevIndex, cut);
        (back, AppendResp(back.currentTerm, false, back.lastApplied))
      else
        var done := m.(log := extended,
                       commitIndex := if req.leaderCommit > m.commitIndex then req.leaderCommit else m.commitIndex);
        (done, AppendResp(done.currentTerm, true, LastSent(req)))
  }

  // ----- RequestVote and elections -----------------------------------------------------

  /** The log of the voter is ahead of the candidate's (section 5.4.1 of the Raft paper). */
  predicate Outdated(req: VoteReq, lastIndex: int, lastTerm: int) {
    lastTerm > req.lastTerm || (lastTerm == req.lastTerm && lastIndex > req.lastIndex)
  }

  function Vote<L>(n: Node<L>, req: VoteReq, lastIndex: int, lastTerm: int): (Node<L>, VoteResp) {
    if req.term < n.currentTerm then
      (n, VoteResp(n.currentTerm, false))
    else if req.preVote then
      (n, VoteResp(n.currentTerm, !Outdated(req, lastIndex, lastTerm)))
    else
      var m := if req.term > n.currentTerm then n.(currentTerm := req.term, votedFor := "") else n;
      if (m.votedFor != "" && m.votedFor != req.candidate) || Outdated(req, lastIndex, lastTerm) then
        (m, VoteResp(m.currentTerm, false))
      else
        (m.(votedFor := req.candidate), VoteResp(m.currentTerm, true))
  }

  /** The candidate's own vote goes to the metadata table only, never to `votedFor`. */
  function StartElection<L>(n: Node<L>): Node<L> {
    n.(currentTerm := n.currentTerm + 1, role := Candidate)
  }

  /** The same index for every peer but the node itself. */
  function Uniform(peers: seq<NodeId>, self: NodeId, value: int): (m: map<NodeId, int>)
    ensures forall p :: p in m <==> p in peers && p != self
    ensures forall p :: p in m ==> m[p] == value
  {
    if peers == [] then map[]
    else
      var peer := peers[|peers| - 1];
      var rest := Uniform(peers[..|peers| - 1], self, value);
      if peer == self then rest else rest[peer := value]
  }

  function WinElection<L>(n: Node<L>, peers: seq<NodeId>, lastIndex: int): Node<L> {
    n.(role := Leader, leader := n.id,
       nextIdx := Uniform(peers, n.id, lastIndex + 1), matchIdx := Uniform(peers, n.id, 0))
  }

  function StepDown<L>(n: Node<L>): Node<L> {
    n.(role := Follower, leader := "")
  }

  // ----- the leader's bookkeeping ------------------------------------------------------

  /** Index of the next entry to send; a peer with no entry in the table is assumed current. */
  function NextFor<L>(n: Node<L>, peer: NodeId, lastIndex: int): int {
    if peer in n.nextIdx && n.nextIdx[peer] > 0 then n.nextIdx[peer] else lastIndex + 1
  }

  function MatchFor<L>(n: Node<L>, peer: NodeId): int {
    if peer in n.matchIdx then n.matchIdx[peer] else 0
  }

  function ObserveTerm<L>(n: Node<L>, sentTerm: int, replyTerm: int): Node<L> {
    if replyTerm > sentTerm && replyTerm > n.currentTerm then
      n.(currentTerm := replyTerm, role := Follower, leader := "")
    else n
  }

  function Credit<L>(n: Node<L>, peer: NodeId, matched: int): Node<L> {
    n.(matchIdx := n.matchIdx[peer := matched], nextIdx := n.nextIdx[peer := matched + 1])
  }

  function BackOff<L>(n: Node<L>, peer: NodeId): Node<L> {
    var cur := if peer in n.nextIdx then n.nextIdx[peer] else 0;
    n.(nextIdx := n.nextIdx[peer := if cur <= 1 then 1 else cur - 1])
  }

  /** What the leader does with the reply of `peer` to a replication request. */
  function OnReply<L>(n: Node<L>, peer: NodeId, sentTerm: int, lastIndex: int, resp: AppendResp): Node<L> {
    if resp.term > sentTerm then ObserveTerm(n, sentTerm, resp.term)
    else if resp.success then Credit(n, peer, if resp.matchIndex > 0 then resp.matchIndex else lastIndex)
    else BackOff(n, peer)
  }

  function ActivePeers(known: seq<NodeId>, self: NodeId): seq<NodeId> {
    if known == [] then []
    else
      var rest := ActivePeers(known[1..], self);
      if known[0] == "" || known[0] == self || known[0] == "node-unknown" then rest else [known[0]] + rest
  }

  function MatchIndexes<L>(n: Node<L>, peers: seq<NodeId>): seq<int> {
    if peers == [] then [] else [MatchFor(n, peers[0])] + MatchIndexes(n, peers[1..])
  }

  function Recalculate<L>(n: Node<L>, known: seq<NodeId>, lastIndex: int): Node<L> {
    if !n.role.Leader? || lastIndex == 0 then n
    else
      var candidate := MajorityIndex([lastIndex] + MatchIndexes(n, ActivePeers(known, n.id)));
      if candidate > n.commitIndex then n.(commitIndex := candidate) else n
  }

  // ----- the same, reading the log as a sequence ----------------------------------------

  function TermAt(log: seq<Entry>, i: int): int {
    if 1 <= i <= |log| then log[i - 1].term else 0
  }

  function LastTerm(log: seq<Entry>): int { TermAt(log, |log|) }

  /** The log up to but not including index i. */
  function Cut(log: seq<Entry>, i: int): seq<Entry> {
    if 1 <= i <= |log| then log[..i - 1] else log
  }

  /** Entries written over the log from just after prev; nothing to write leaves it alone. */
  function Splice(log: seq<Entry>, prev: int, entries: seq<Entry>): seq<Entry> {
    if entries == [] then log
    else if 0 <= prev <= |log| then log[..prev] + entries
    else log + entries
  }

  function HandleAppend(r: Replica, req: AppendReq): (Replica, AppendResp) {
    Append(r, req, TermAt(r.log, req.prevIndex), Cut(r.log, req.prevIndex),
           Splice(r.log, req.prevIndex, req.entries))
  }

  /** The outcomes of a handler call: a stale request changes nothing; any other is adopted, ends
      the leadership of a receiver it did not come from, and cuts or writes the log. */
  lemma HandleShape(r: Replica, req: AppendReq)
    ensures var (after, resp) := HandleAppend(r, req);
      && after.id == r.id && resp.term == after.currentTerm
      && (after.role.Leader? ==> r.role.Leader? && after.currentTerm == r.currentTerm)
      && (req.term >= r.currentTerm && req.leaderId != r.id ==> !after.role.Leader? && after.leader == req.leaderId)
      && if req.term < r.currentTerm then after == r && !resp.success
         else
           && after.currentTerm == req.term
           && if req.prevIndex > 0 && TermAt(r.log, req.prevIndex) != req.prevTerm
              then after.log == Cut(r.log, req.prevIndex) && !resp.success
              else after.log == Splice(r.log, req.prevIndex, req.entries) && resp.success
  {
  }

  function HandleVote(r: Replica, req: VoteReq): (Replica, VoteResp) {
    Vote(r, req, |r.log|, LastTerm(r.log))
  }

  function Propose(r: Replica, eventId: string, command: Command): Replica {
    r.(log := r.log + [Entry(r.currentTerm, |r.log| + 1, eventId, command)])
  }

  function From(log: seq<Entry>, i: int): seq<Entry> {
    if 1 <= i <= |log| then log[i - 1..] else []
  }

  /** The request the replication path sends to `peer`: the whole suffix from its next index, or an
      empty one when the peer is thought to be current.  That is judged, and an empty request is
      anchored, by the last index read when the broadcast started; the suffix is read when it is sent. */
  function BuildAppend(r: Replica, peer: NodeId, commit: int, last: int): AppendReq {
    var next := NextFor(r, peer, last);
    if next > last then BuildEmpty(r, commit, last)
    else AppendReq(r.currentTerm, r.id, next - 1, TermAt(r.log, next - 1), From(r.log, next), commit)
  }

  function BuildEmpty(r: Replica, commit: int, last: int): AppendReq {
    AppendReq(r.currentTerm, r.id, last, TermAt(r.log, last), [], commit)
  }
}
