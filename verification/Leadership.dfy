/** One leadership: a leader and the nodes it replicates to, from the election win until a newer
    leader starts to send.  Requests with entries are lost or handled as they are sent; empty ones
    and all replies travel freely. */
module Leadership {
  import opened Commands
  import opened Raft
  import opened Quorum

  /** A peer's reply to a request of a broadcast that had read `last` as the last index. */
  datatype Answer = Answer(peer: NodeId, sentTerm: int, last: int, resp: AppendResp)

  /** Empty requests and replies stay in `beats` and `answers`: they come late, twice or never. */
  datatype World = World(leader: Replica, peers: map<NodeId, Replica>, beats: set<(NodeId, AppendReq)>,
                         answers: set<Answer>, since: int)

  /** What becomes of a request: lost, handled with its reply still on its way, or answered at once. */
  datatype Fate = Lost | ReplyLate | Replied

  datatype Event =
    | Append(eventId: string, command: Command)
    | Rpc(peer: NodeId, term: int, commit: int, last: int, fate: Fate)
    | Beat(peer: NodeId, term: int, commit: int, last: int)
    | Answered(answer: Answer)
    | BeatArrives(peer: NodeId, beat: AppendReq)
    | BeatReply(sentTerm: int, replyTerm: int)
    | Commit(known: seq<NodeId>)
    | LeaderApplies(upTo: int)
    | PeerApplies(peer: NodeId, upTo: int)
    | LeaderVotes(vote: VoteReq)
    | PeerVotes(peer: NodeId, vote: VoteReq)
    | PeerStands(peer: NodeId)
    | Straggle(peer: NodeId, req: AppendReq, sent: seq<Entry>)
    | Demotion

  /** What Log Matching says of a request that an older leader sent with the log `sent`, and of
      the node r it reaches. */
  predicate OlderRequest(w: World, r: Replica, req: AppendReq, sent: seq<Entry>) {
    && req.term < w.since && 0 <= req.prevIndex <= |sent|
    && req.prevTerm == TermAt(sent, req.prevIndex) && req.entries == sent[req.prevIndex..]
    && (forall i :: 0 <= i < |sent| ==> sent[i].index == i + 1 && 1 <= sent[i].term <= req.term)
    && Agree(sent, w.leader.log) && Agree(r.log, sent)
  }

  /** The older leader's log held what the receiver has committed, and what the request commits
      is in the new leader's log. */
  predicate CommitsSafely(w: World, r: Replica, req: AppendReq, sent: seq<Entry>) {
    && SharesPrefix(r.log, sent, r.commitIndex)
    && SharesPrefix(sent, w.leader.log, req.leaderCommit)
  }

  /** The cases that need an assumption on the rest of the cluster: a request carries a term and a
      commit index the leader had at some point of this leadership, and an older leader's request
      that still reaches a node commits safely. */
  predicate Enabled(w: World, ev: Event) {
    match ev
    case Append(_, _) => w.leader.role.Leader?
    case Rpc(p, term, commit, last, _) => p in w.peers && MaySend(w, term, commit, last)
    case Beat(_, term, commit, last) => MaySend(w, term, commit, last)
    case Answered(answer) => answer in w.answers
    case BeatArrives(p, beat) => p in w.peers && (p, beat) in w.beats
    case Commit(_) => w.leader.role.Leader?
    case LeaderApplies(upTo) => w.leader.lastApplied <= upTo <= w.leader.commitIndex
    case PeerApplies(p, upTo) => p in w.peers && w.peers[p].lastApplied <= upTo <= w.peers[p].commitIndex
    case PeerVotes(p, _) => p in w.peers
    case PeerStands(p) => p in w.peers && !w.peers[p].role.Leader?
    case Straggle(p, req, sent) =>
      && p in w.peers && OlderRequest(w, w.peers[p], req, sent)
      && (req.term >= w.peers[p].currentTerm ==> CommitsSafely(w, w.peers[p], req, sent))
    case _ => true
  }

  /** Term, commit index and last index are read when a broadcast starts; it goes on sending after
      a demotion, and while the log grows. */
  predicate MaySend(w: World, term: int, commit: int, last: int) {
    w.since <= term <= w.leader.currentTerm && 0 <= commit <= w.leader.commitIndex && commit <= last <= |w.leader.log|
  }

  function Request(w: World, p: NodeId, term: int, commit: int, last: int): AppendReq {
    BuildAppend(w.leader, p, commit, last).(term := term)
  }

  function Next(w: World, ev: Event): World {
    match ev
    case Append(eventId, command) => w.(leader := Propose(w.leader, eventId, command))
    case Rpc(p, term, commit, last, fate) => if p in w.peers then AfterRpc(w, p, term, commit, last, fate) else w
    case Beat(p, term, commit, last) => w.(beats := w.beats + {(p, BuildEmpty(w.leader, commit, last).(term := term))})
    case BeatArrives(p, beat) => if p in w.peers then Handle(w, p, beat, beat.prevIndex) else w
    case Answered(answer) => w.(leader := TakeAnswer(w.leader, answer))
    case BeatReply(sentTerm, replyTerm) => w.(leader := ObserveTerm(w.leader, sentTerm, replyTerm))
    case Commit(known) => w.(leader := Recalculate(w.leader, known, |w.leader.log|))
    case LeaderApplies(upTo) => w.(leader := w.leader.(lastApplied := upTo))
    case PeerApplies(p, upTo) =>
      if p in w.peers then w.(peers := w.peers[p := w.peers[p].(lastApplied := upTo)]) else w
    case LeaderVotes(vote) => w.(leader := HandleVote(w.leader, vote).0)
    case PeerVotes(p, vote) =>
      if p in w.peers then w.(peers := w.peers[p := HandleVote(w.peers[p], vote).0]) else w
    case PeerStands(p) =>
      if p in w.peers then w.(peers := w.peers[p := StartElection(w.peers[p])]) else w
    case Straggle(p, req, _) =>
      if p in w.peers then w.(peers := w.peers[p := HandleAppend(w.peers[p], req).0]) else w
    case Demotion => w.(leader := StepDown(w.leader))
  }

  /** The request is handled, and its reply is on its way. */
  function Handle(w: World, p: NodeId, req: AppendReq, last: int): World
    requires p in w.peers
  {
    var (after, resp) := HandleAppend(w.peers[p], req);
    w.(peers := w.peers[p := after], answers := w.answers + {Answer(p, req.term, last, resp)})
  }

  function TakeAnswer(r: Replica, answer: Answer): Replica {
    OnReply(r, answer.peer, answer.sentTerm, answer.last, answer.resp)
  }

  function AfterRpc(w: World, p: NodeId, term: int, commit: int, last: int, fate: Fate): World
    requires p in w.peers
  {
    var req := Request(w, p, term, commit, last);
    var resp := HandleAppend(w.peers[p], req).1;
    match fate
    case Lost => w
    case ReplyLate => Handle(w, p, req, last)
    case Replied => Handle(w, p, req, last).(leader := OnReply(w.leader, p, term, last, resp))
  }

  ghost predicate IsRun(w: World, evs: seq<Event>)
    decreases |evs|
  {
    evs == [] || (Enabled(w, evs[0]) && IsRun(Next(w, evs[0]), evs[1..]))
  }

  function After(w: World, evs: seq<Event>): World
    decreases |evs|
  {
    if evs == [] then w else After(Next(w, evs[0]), evs[1..])
  }

  // ----- the invariant -----------------------------------------------------------------------

  /** Logs that agree on the term at an index are identical through it. */
  predicate Agree(a: seq<Entry>, b: seq<Entry>) {
    forall i :: 1 <= i <= |a| && i <= |b| && a[i - 1].term == b[i - 1].term ==> a[..i] == b[..i]
  }

  predicate SharesPrefix(a: seq<Entry>, b: seq<Entry>, i: int) {
    0 <= i <= |a| && i <= |b| && a[..i] == b[..i]
  }

  /** Entries of the leadership's terms are the leader's own. */
  predicate NoForeign(log: seq<Entry>, w: World) {
    forall i :: 0 <= i < |log| && log[i].term >= w.since ==> i < |w.leader.log| && log[i] == w.leader.log[i]
  }

  predicate FollowerOk(w: World, p: NodeId, r: Replica) {
    && r.id == p && p != w.leader.id
    && 0 <= r.lastApplied <= r.commitIndex <= |r.log|
    && SharesPrefix(r.log, w.leader.log, r.commitIndex)
    && Agree(r.log, w.leader.log) && NoForeign(r.log, w)
  }

  /** A node holds the leader's log through an index for good: it shares it, and no older leader
      can move it any more. */
  ghost predicate HeldBy(w: World, r: Replica, i: int) {
    SharesPrefix(r.log, w.leader.log, i) && (i > 0 ==> r.currentTerm >= w.since)
  }

  /** The match index is sound: the follower holds the leader's log through it. */
  ghost predicate MatchOk(w: World, p: NodeId)
    requires p in w.peers
  {
    HeldBy(w, w.peers[p], MatchFor(w.leader, p))
  }

  /** So is what a reply reports, however late it is read: at least what its broadcast took for
      the last index. */
  ghost predicate AnswerOk(w: World, a: Answer) {
    && a.peer in w.peers && 0 <= a.last <= |w.leader.log|
    && (a.resp.success ==>
          a.last <= a.resp.matchIndex <= |w.leader.log| && HeldBy(w, w.peers[a.peer], a.resp.matchIndex))
  }

  ghost predicate LeaderOk(w: World) {
    var r := w.leader;
    && 1 <= w.since <= r.currentTerm
    && 0 <= r.lastApplied <= r.commitIndex <= |r.log|
    && (forall i :: 0 <= i < |r.log| ==> r.log[i].index == i + 1 && r.log[i].term >= 1)
    && (forall p :: p in r.matchIdx ==> 0 <= r.matchIdx[p] <= |r.log| && (r.matchIdx[p] > 0 ==> p in w.peers))
    && (forall p :: p in r.nextIdx ==> 1 <= r.nextIdx[p] <= |r.log| + 1)
  }

  /** A request whose content is the leader's log and whose commit index it covers. */
  ghost predicate FromLeader(w: World, req: AppendReq) {
    && 0 <= req.prevIndex <= |w.leader.log|
    && req.prevTerm == TermAt(w.leader.log, req.prevIndex)
    && (req.entries == [] || req.entries == w.leader.log[req.prevIndex..])
    && 0 <= req.leaderCommit <= req.prevIndex + |req.entries|
  }

  ghost predicate BeatOk(w: World, beat: AppendReq) {
    FromLeader(w, beat) && beat.entries == [] && beat.term >= w.since
  }

  ghost predicate Inv(w: World) {
    && LeaderOk(w)
    && (forall p :: p in w.peers ==> FollowerOk(w, p, w.peers[p]) && MatchOk(w, p))
    && (forall b :: b in w.beats ==> BeatOk(w, b.1))
    && (forall a :: a in w.answers ==> AnswerOk(w, a))
  }

  // ----- one request at one follower -------------------------------------------------------

  ghost predicate Holds(w: World, r: Replica, i: int) {
    SharesPrefix(r.log, w.leader.log, i)
  }

  /** A follower handling a request of this leader keeps everything it shares with the leader,
      never rolls a cursor back, and on success holds the leader's log through what was sent. */
  lemma HandleKeepsFollower(w: World, p: NodeId, r: Replica, req: AppendReq)
    requires LeaderOk(w) && FollowerOk(w, p, r) && FromLeader(w, req)
    ensures var (after, resp) := HandleAppend(r, req);
      && FollowerOk(w, p, after)
      && r.commitIndex <= after.commitIndex && r.lastApplied == after.lastApplied
      && r.currentTerm <= after.currentTerm
      && (forall i :: Holds(w, r, i) ==> Holds(w, after, i))
      && (resp.success ==>
            && Holds(w, after, req.prevIndex + |req.entries|)
            && resp.matchIndex == req.prevIndex + |req.entries|
            && after.currentTerm == req.term
            && (req.entries != [] ==> after.log == w.leader.log))
  {
    var lead := w.leader.log;
    if req.term >= r.currentTerm {
      if req.prevIndex > 0 && TermAt(r.log, req.prevIndex) != req.prevTerm {
        RejectionKeeps(w, p, r, req);
      } else {
        AcceptanceExtends(w, p, r, req);
      }
    }
  }

  /** The cut is above everything shared with the leader. */
  lemma RejectionKeeps(w: World, p: NodeId, r: Replica, req: AppendReq)
    requires LeaderOk(w) && FollowerOk(w, p, r) && FromLeader(w, req)
    requires req.term >= r.currentTerm && req.prevIndex > 0 && TermAt(r.log, req.prevIndex) != req.prevTerm
    ensures var (after, resp) := HandleAppend(r, req);
      && !resp.success && FollowerOk(w, p, after)
      && r.commitIndex == after.commitIndex && r.lastApplied == after.lastApplied
      && (forall i :: Holds(w, r, i) ==> Holds(w, after, i))
  {
    var lead := w.leader.log;
    var cut := Cut(r.log, req.prevIndex);
    forall i | Holds(w, r, i) ensures i < req.prevIndex && SharesPrefix(cut, lead, i) {
      assert forall j :: 0 <= j < i ==> r.log[..i][j] == lead[..i][j];
    }
    assert Holds(w, r, r.commitIndex);
    AgreePrefix(cut, r.log, lead);
  }

  lemma AgreePrefix(part: seq<Entry>, log: seq<Entry>, lead: seq<Entry>)
    requires Agree(log, lead) && part <= log
    ensures Agree(part, lead)
  {
    forall i | 1 <= i <= |part| && i <= |lead| && part[i - 1].term == lead[i - 1].term
      ensures part[..i] == lead[..i]
    {
      assert part[..i] == log[..i];
    }
  }

  lemma AcceptanceExtends(w: World, p: NodeId, r: Replica, req: AppendReq)
    requires LeaderOk(w) && FollowerOk(w, p, r) && FromLeader(w, req)
    requires req.term >= r.currentTerm && (req.prevIndex > 0 ==> TermAt(r.log, req.prevIndex) == req.prevTerm)
    ensures var (after, resp) := HandleAppend(r, req);
      && resp.success && FollowerOk(w, p, after)
      && r.commitIndex <= after.commitIndex && r.lastApplied == after.lastApplied
      && (forall i :: Holds(w, r, i) ==> Holds(w, after, i))
      && Holds(w, after, req.prevIndex + |req.entries|)
      && resp.matchIndex == req.prevIndex + |req.entries|
      && after.currentTerm == req.term
      && (req.entries != [] ==> after.log == w.leader.log)
  {
    var lead := w.leader.log;
    var sent := req.prevIndex + |req.entries|;
    var log := Splice(r.log, req.prevIndex, req.entries);
    assert SharesPrefix(r.log, lead, req.prevIndex);
    if req.entries != [] {
      assert r.log[..req.prevIndex] + req.entries == lead;
      assert log == lead;
      OwnLog(w);
    }
    WrittenLogOk(w, p, r, req, log, sent);
  }

  lemma OwnLog(w: World)
    requires LeaderOk(w)
    ensures Agree(w.leader.log, w.leader.log) && NoForeign(w.leader.log, w)
    ensures forall i :: 0 <= i <= |w.leader.log| ==> SharesPrefix(w.leader.log, w.leader.log, i)
  {
  }

  /** The handler's success branch, given that what it wrote shares `sent` entries with the leader. */
  lemma WrittenLogOk(w: World, p: NodeId, r: Replica, req: AppendReq, log: seq<Entry>, sent: int)
    requires LeaderOk(w) && FollowerOk(w, p, r) && FromLeader(w, req) && sent == req.prevIndex + |req.entries|
    requires req.term >= r.currentTerm && (req.prevIndex > 0 ==> TermAt(r.log, req.prevIndex) == req.prevTerm)
    requires log == Splice(r.log, req.prevIndex, req.entries) && SharesPrefix(log, w.leader.log, sent)
    requires log == r.log || log == w.leader.log
    requires Agree(log, w.leader.log) && NoForeign(log, w)
    ensures var (after, resp) := HandleAppend(r, req);
      && resp.success && FollowerOk(w, p, after)
      && r.commitIndex <= after.commitIndex && r.lastApplied == after.lastApplied
      && (forall i :: Holds(w, r, i) ==> Holds(w, after, i))
      && Holds(w, after, sent) && resp.matchIndex == sent
      && after.currentTerm == req.term && after.log == log
  {
    hide Agree, NoForeign, Splice;
    var (after, resp) := HandleAppend(r, req);
    assert after.log == log && resp.success;
    assert Holds(w, r, r.commitIndex);
    if after.commitIndex != r.commitIndex {
      HoldsLess(w, after, sent, req.leaderCommit);
    }
    if log != r.log {
      OwnLog(w);
    }
    if req.entries != [] {
      assert req.entries[|req.entries| - 1] == w.leader.log[sent - 1];
    }
  }

  lemma HoldsLess(w: World, r: Replica, i: int, j: int)
    requires Holds(w, r, i) && 0 <= j <= i
    ensures Holds(w, r, j)
  {
    assert r.log[..j] == r.log[..i][..j];
    assert w.leader.log[..j] == w.leader.log[..i][..j];
  }

  // ----- one older request at one follower ----------------------------------------------------

  /** An older leader's request that commits safely keeps the follower what it was to the new
      leader and rolls no cursor back; a node that already heard the new leader ignores it. */
  lemma OlderKeepsFollower(w: World, p: NodeId, r: Replica, req: AppendReq, sent: seq<Entry>)
    requires LeaderOk(w) && FollowerOk(w, p, r) && OlderRequest(w, r, req, sent)
    requires req.term >= r.currentTerm ==> CommitsSafely(w, r, req, sent)
    ensures var after := HandleAppend(r, req).0;
      && FollowerOk(w, p, after)
      && r.commitIndex <= after.commitIndex && r.lastApplied == after.lastApplied
      && r.currentTerm <= after.currentTerm && (r.currentTerm >= w.since ==> after == r)
  {
    if req.term >= r.currentTerm {
      if req.prevIndex > 0 && TermAt(r.log, req.prevIndex) != req.prevTerm {
        OlderRejected(w, p, r, req, sent);
      } else {
        OlderAccepted(w, p, r, req, sent);
      }
    }
  }

  lemma OlderRejected(w: World, p: NodeId, r: Replica, req: AppendReq, sent: seq<Entry>)
    requires LeaderOk(w) && FollowerOk(w, p, r) && OlderRequest(w, r, req, sent) && CommitsSafely(w, r, req, sent)
    requires req.term >= r.currentTerm && req.prevIndex > 0 && TermAt(r.log, req.prevIndex) != req.prevTerm
    ensures var after := HandleAppend(r, req).0;
      && FollowerOk(w, p, after)
      && r.commitIndex == after.commitIndex && r.lastApplied == after.lastApplied && after.currentTerm == req.term
  {
    var cut := Cut(r.log, req.prevIndex);
    SameTerms(r.log, sent, r.commitIndex, req.prevIndex);
    assert r.commitIndex < req.prevIndex;
    assert cut[..r.commitIndex] == r.log[..r.commitIndex];
    AgreePrefix(cut, r.log, w.leader.log);
    assert NoForeign(cut, w);
    hide Agree, NoForeign, Cut;
  }

  lemma SameTerms(a: seq<Entry>, b: seq<Entry>, i: int, j: int)
    requires SharesPrefix(a, b, i) && 1 <= j
    ensures j <= i ==> TermAt(a, j) == TermAt(b, j)
  {
    if j <= i {
      assert a[..i][j - 1] == b[..i][j - 1];
    }
  }

  lemma OlderAccepted(w: World, p: NodeId, r: Replica, req: AppendReq, sent: seq<Entry>)
    requires LeaderOk(w) && FollowerOk(w, p, r) && OlderRequest(w, r, req, sent) && CommitsSafely(w, r, req, sent)
    requires req.term >= r.currentTerm && (req.prevIndex > 0 ==> TermAt(r.log, req.prevIndex) == req.prevTerm)
    ensures var after := HandleAppend(r, req).0;
      && FollowerOk(w, p, after)
      && r.commitIndex <= after.commitIndex && r.lastApplied == after.lastApplied && after.currentTerm == req.term
  {
    hide HandleAppend, Agree, NoForeign;
    HandleShape(r, req);
    OlderLog(w, r, req, sent);
    var log := Splice(r.log, req.prevIndex, req.entries);
    CommittedStays(w, r, req, sent, log);
    AcceptedCommit(r, req);
    hide Splice, TermAt, CommitsSafely, OlderRequest;
  }

  lemma OlderLog(w: World, r: Replica, req: AppendReq, sent: seq<Entry>)
    requires OlderRequest(w, r, req, sent) && Agree(r.log, w.leader.log) && NoForeign(r.log, w)
    requires req.prevIndex > 0 ==> TermAt(r.log, req.prevIndex) == req.prevTerm
    ensures SharesPrefix(r.log, sent, req.prevIndex)
    ensures var log := Splice(r.log, req.prevIndex, req.entries);
      (log == sent || (log == r.log && req.prevIndex == |sent|)) && Agree(log, w.leader.log) && NoForeign(log, w)
  {
    if req.entries != [] {
      assert sent[..req.prevIndex] + sent[req.prevIndex..] == sent;
    }
  }

  /** Of the accepting branch: cursors. */
  lemma AcceptedCommit(r: Replica, req: AppendReq)
    requires req.term >= r.currentTerm && (req.prevIndex > 0 ==> TermAt(r.log, req.prevIndex) == req.prevTerm)
    ensures var after := HandleAppend(r, req).0;
      && after.lastApplied == r.lastApplied
      && after.commitIndex == if req.leaderCommit > r.commitIndex then req.leaderCommit else r.commitIndex
  {
    hide TermAt, Cut, Splice;
  }

  /** Whether the log stays or becomes the sent one, both commit indexes are shared with the leader. */
  lemma CommittedStays(w: World, r: Replica, req: AppendReq, sent: seq<Entry>, log: seq<Entry>)
    requires SharesPrefix(r.log, w.leader.log, r.commitIndex) && CommitsSafely(w, r, req, sent)
    requires SharesPrefix(r.log, sent, req.prevIndex) && (log == sent || (log == r.log && req.prevIndex == |sent|))
    ensures SharesPrefix(log, w.leader.log, r.commitIndex) && SharesPrefix(log, w.leader.log, req.leaderCommit)
  {
    var lead := w.leader.log;
    if log != sent {
      assert r.log[..req.leaderCommit] == r.log[..req.prevIndex][..req.leaderCommit];
      assert sent[..req.leaderCommit] == sent[..req.prevIndex][..req.leaderCommit];
    }
  }

  // ----- every event --------------------------------------------------------------------------

  lemma BuiltFromLeader(w: World, p: NodeId, term: int, commit: int, last: int)
    requires LeaderOk(w) && MaySend(w, term, commit, last)
    ensures FromLeader(w, Request(w, p, term, commit, last)) && FromLeader(w, BuildEmpty(w.leader, commit, last).(term := term))
    ensures var req := Request(w, p, term, commit, last);
      && last <= req.prevIndex + |req.entries| && req.term == term
      && (req.entries != [] ==> req.prevIndex + |req.entries| == |w.leader.log|)
  {
  }

  /** Only the leader's bookkeeping changes: log, commit and apply cursors stay. */
  ghost predicate SameLog(a: Replica, b: Replica) {
    a.id == b.id && a.log == b.log && a.currentTerm <= b.currentTerm
  }

  lemma PeerIsOk(w: World, p: NodeId)
    requires Inv(w) && p in w.peers
    ensures LeaderOk(w) && FollowerOk(w, p, w.peers[p]) && MatchOk(w, p)
  {
  }

  lemma BeatIsOk(w: World, b: (NodeId, AppendReq))
    requires Inv(w) && b in w.beats
    ensures LeaderOk(w) && BeatOk(w, b.1) && 0 <= b.1.prevIndex && b.1.entries == []
  {
  }

  lemma AnswerIsOk(w: World, a: Answer)
    requires Inv(w) && a in w.answers
    ensures LeaderOk(w) && AnswerOk(w, a)
  {
  }

  lemma InvFrom(w: World)
    requires LeaderOk(w)
    requires forall p :: p in w.peers ==> FollowerOk(w, p, w.peers[p]) && MatchOk(w, p)
    requires forall b :: b in w.beats ==> BeatOk(w, b.1)
    requires forall a :: a in w.answers ==> AnswerOk(w, a)
    ensures Inv(w)
  {
  }

  /** What is said of followers, heartbeats and holders depends on the leader's log and id and the
      start only. */
  lemma SameLeader(w: World, v: World)
    requires w.leader.id == v.leader.id && w.leader.log == v.leader.log && w.since == v.since
    ensures forall p, r :: FollowerOk(w, p, r) <==> FollowerOk(v, p, r)
    ensures forall b :: BeatOk(w, b) <==> BeatOk(v, b)
    ensures forall r, i :: HeldBy(w, r, i) <==> HeldBy(v, r, i)
  {
    forall p, r ensures FollowerOk(w, p, r) <==> FollowerOk(v, p, r) {
      assert NoForeign(r.log, w) <==> NoForeign(r.log, v);
    }
  }

  lemma SameAnswers(w: World, v: World)
    requires w.leader.log == v.leader.log && w.since == v.since && w.peers == v.peers
    ensures forall a :: AnswerOk(w, a) <==> AnswerOk(v, a)
  {
    hide SharesPrefix;
  }

  lemma LeaderMoves(w: World, leader: Replica)
    requires Inv(w) && SameLog(w.leader, leader)
    requires leader.matchIdx == w.leader.matchIdx && leader.nextIdx == w.leader.nextIdx
    requires 0 <= leader.lastApplied <= leader.commitIndex <= |leader.log|
    ensures Inv(w.(leader := leader))
  {
    var w' := w.(leader := leader);
    SameLeader(w, w');
    SameAnswers(w, w');
    LeaderStillOk(w, leader);
    hide Inv, LeaderOk, FollowerOk, BeatOk, AnswerOk, HeldBy;
    forall p | p in w'.peers ensures FollowerOk(w', p, w'.peers[p]) && MatchOk(w', p) {
      PeerIsOk(w, p);
    }
    forall b | b in w'.beats ensures BeatOk(w', b.1) {
      BeatIsOk(w, b);
    }
    forall a | a in w'.answers ensures AnswerOk(w', a) {
      AnswerIsOk(w, a);
    }
    InvFrom(w');
  }

  lemma LeaderStillOk(w: World, leader: Replica)
    requires LeaderOk(w) && SameLog(w.leader, leader)
    requires leader.matchIdx == w.leader.matchIdx && leader.nextIdx == w.leader.nextIdx
    requires 0 <= leader.lastApplied <= leader.commitIndex <= |leader.log|
    ensures LeaderOk(w.(leader := leader))
  {
  }

  lemma PeerMoves(w: World, p: NodeId, r: Replica)
    requires Inv(w) && p in w.peers && FollowerOk(w, p, r)
    requires forall i :: HeldBy(w, w.peers[p], i) ==> HeldBy(w, r, i)
    ensures Inv(w.(peers := w.peers[p := r]))
  {
    hide Inv, LeaderOk, FollowerOk, BeatOk, HeldBy, AnswerOk, MatchFor;
    var w' := w.(peers := w.peers[p := r]);
    PeerIsOk(w, p);
    SameLeader(w, w');
    SamePeersOk(w, w');
    forall q | q in w'.peers ensures FollowerOk(w', q, w'.peers[q]) && MatchOk(w', q) {
      PeerIsOk(w, q);
    }
    forall b | b in w'.beats ensures BeatOk(w', b.1) {
      BeatIsOk(w, b);
    }
    forall a | a in w'.answers ensures AnswerOk(w', a) {
      AnswerIsOk(w, a);
      AnswerStaysOk(w, p, r, a);
    }
    InvFrom(w');
  }

  lemma AnswerStaysOk(w: World, p: NodeId, r: Replica, a: Answer)
    requires p in w.peers && AnswerOk(w, a)
    requires forall i :: HeldBy(w, w.peers[p], i) ==> HeldBy(w, r, i)
    ensures AnswerOk(w.(peers := w.peers[p := r]), a)
  {
    hide SharesPrefix;
  }

  lemma SamePeersOk(w: World, v: World)
    requires LeaderOk(w) && w.leader == v.leader && w.since == v.since && w.peers.Keys == v.peers.Keys
    ensures LeaderOk(v)
  {
  }

  lemma AnswerJoins(w: World, a: Answer)
    requires Inv(w) && AnswerOk(w, a)
    ensures Inv(w.(answers := w.answers + {a}))
  {
    var w' := w.(answers := w.answers + {a});
    SameLeader(w, w');
    SameAnswers(w, w');
    hide LeaderOk, FollowerOk, BeatOk, AnswerOk, HeldBy;
    forall q | q in w'.peers ensures FollowerOk(w', q, w'.peers[q]) && MatchOk(w', q) {
      PeerIsOk(w, q);
    }
    SamePeersOk(w, w');
  }

  /** A follower that handles a request of this leadership loses nothing it holds. */
  lemma HandlingKeepsHeld(w: World, p: NodeId, r: Replica, req: AppendReq)
    requires LeaderOk(w) && FollowerOk(w, p, r) && FromLeader(w, req)
    ensures forall i :: HeldBy(w, r, i) ==> HeldBy(w, HandleAppend(r, req).0, i)
  {
    HandleKeepsFollower(w, p, r, req);
    hide HandleAppend, FollowerOk, FromLeader, LeaderOk, SharesPrefix;
    forall i | HeldBy(w, r, i) ensures HeldBy(w, HandleAppend(r, req).0, i) {
      assert Holds(w, r, i);
    }
  }

  /** What the reply to a request of this leadership reports is held. */
  lemma AnswerIsSound(w: World, p: NodeId, r: Replica, req: AppendReq, last: int)
    requires LeaderOk(w) && FollowerOk(w, p, r) && FromLeader(w, req) && req.term >= w.since
    requires 0 <= last <= req.prevIndex + |req.entries| <= |w.leader.log|
    requires p in w.peers && w.peers[p] == HandleAppend(r, req).0
    ensures AnswerOk(w, Answer(p, req.term, last, HandleAppend(r, req).1))
  {
    HandleKeepsFollower(w, p, r, req);
    hide HandleAppend, FollowerOk, FromLeader, LeaderOk, SharesPrefix;
  }

  lemma EndsWithinLog(w: World, req: AppendReq)
    requires FromLeader(w, req)
    ensures req.prevIndex + |req.entries| <= |w.leader.log|
  {
  }

  lemma SameRequest(w: World, v: World, req: AppendReq)
    requires w.leader == v.leader && FromLeader(w, req)
    ensures FromLeader(v, req)
  {
  }

  lemma HandledKeepsInv(w: World, p: NodeId, req: AppendReq, last: int)
    requires Inv(w) && p in w.peers && FromLeader(w, req) && req.term >= w.since
    requires 0 <= last <= req.prevIndex + |req.entries|
    ensures Inv(Handle(w, p, req, last))
  {
    var (after, resp) := HandleAppend(w.peers[p], req);
    var moved := w.(peers := w.peers[p := after]);
    hide Inv, LeaderOk, FollowerOk, FromLeader, HandleAppend, HeldBy, AnswerOk;
    PeerIsOk(w, p);
    HandleKeepsFollower(w, p, w.peers[p], req);
    HandlingKeepsHeld(w, p, w.peers[p], req);
    PeerMoves(w, p, after);
    EndsWithinLog(w, req);
    SameLeader(w, moved);
    SamePeersOk(w, moved);
    SameRequest(w, moved, req);
    AnswerIsSound(moved, p, w.peers[p], req, last);
    AnswerJoins(moved, Answer(p, req.term, last, resp));
  }

  /** The leader's tables change at one peer, whose match index stays sound. */
  lemma LeaderRecords(w: World, p: NodeId, leader: Replica)
    requires Inv(w) && p in w.peers && SameLog(w.leader, leader)
    requires leader.commitIndex == w.leader.commitIndex && leader.lastApplied == w.leader.lastApplied
    requires forall q :: q != p ==> MatchFor(leader, q) == MatchFor(w.leader, q)
    requires forall q :: q in leader.matchIdx && q != p ==> q in w.leader.matchIdx
    requires forall q :: q in leader.nextIdx && q != p ==> q in w.leader.nextIdx && leader.nextIdx[q] == w.leader.nextIdx[q]
    requires p in leader.nextIdx ==> 1 <= leader.nextIdx[p] <= |leader.log| + 1
    requires 0 <= MatchFor(leader, p) <= |leader.log| && HeldBy(w, w.peers[p], MatchFor(leader, p))
    ensures Inv(w.(leader := leader))
  {
    hide Inv, LeaderOk, FollowerOk, BeatOk, AnswerOk, HeldBy, MatchFor;
    var w' := w.(leader := leader);
    SameLeader(w, w');
    SameAnswers(w, w');
    PeerIsOk(w, p);
    TablesStayOk(w, p, leader);
    forall q | q in w'.peers ensures FollowerOk(w', q, w'.peers[q]) && MatchOk(w', q) {
      PeerIsOk(w, q);
    }
    forall b | b in w'.beats ensures BeatOk(w', b.1) {
      BeatIsOk(w, b);
    }
    forall a | a in w'.answers ensures AnswerOk(w', a) {
      AnswerIsOk(w, a);
    }
    InvFrom(w');
  }

  lemma TablesStayOk(w: World, p: NodeId, leader: Replica)
    requires LeaderOk(w) && p in w.peers && SameLog(w.leader, leader)
    requires leader.commitIndex == w.leader.commitIndex && leader.lastApplied == w.leader.lastApplied
    requires forall q :: q != p ==> MatchFor(leader, q) == MatchFor(w.leader, q)
    requires forall q :: q in leader.matchIdx && q != p ==> q in w.leader.matchIdx
    requires forall q :: q in leader.nextIdx && q != p ==> q in w.leader.nextIdx && leader.nextIdx[q] == w.leader.nextIdx[q]
    requires p in leader.nextIdx ==> 1 <= leader.nextIdx[p] <= |leader.log| + 1
    requires 0 <= MatchFor(leader, p) <= |leader.log|
    ensures LeaderOk(w.(leader := leader))
  {
    forall q | q in leader.matchIdx
      ensures 0 <= leader.matchIdx[q] <= |leader.log| && (leader.matchIdx[q] > 0 ==> q in w.peers)
    {
      if q != p { assert MatchFor(leader, q) == w.leader.matchIdx[q]; }
    }
  }

  lemma ReplyTouchesOnePeer(n: Replica, p: NodeId, sentTerm: int, last: int, resp: AppendResp)
    requires 0 <= last <= |n.log| && (resp.success ==> last <= resp.matchIndex <= |n.log|)
    requires p in n.nextIdx ==> n.nextIdx[p] <= |n.log| + 1
    ensures var m := OnReply(n, p, sentTerm, last, resp);
      && SameLog(n, m) && m.commitIndex == n.commitIndex && m.lastApplied == n.lastApplied
      && (forall q :: q != p ==> MatchFor(m, q) == MatchFor(n, q))
      && (forall q :: q in m.matchIdx && q != p ==> q in n.matchIdx)
      && (forall q :: q in m.nextIdx && q != p ==> q in n.nextIdx && m.nextIdx[q] == n.nextIdx[q])
      && (m.nextIdx != n.nextIdx ==> p in m.nextIdx && 1 <= m.nextIdx[p] <= |n.log| + 1)
      && (MatchFor(m, p) != MatchFor(n, p) ==> MatchFor(m, p) == resp.matchIndex && resp.success)
  {
  }

  /** A reply, however late it is read, leaves the leader's tables sound. */
  lemma AnswerKeepsInv(w: World, a: Answer)
    requires Inv(w) && a in w.answers
    ensures Inv(w.(leader := TakeAnswer(w.leader, a)))
  {
    AnswerIsOk(w, a);
    PeerIsOk(w, a.peer);
    TablesBounded(w, a.peer);
    ReplyTouchesOnePeer(w.leader, a.peer, a.sentTerm, a.last, a.resp);
    hide Inv, LeaderOk, FollowerOk, HeldBy, OnReply, SameLog;
    LeaderRecords(w, a.peer, TakeAnswer(w.leader, a));
  }

  lemma TablesBounded(w: World, p: NodeId)
    requires LeaderOk(w)
    ensures 0 <= MatchFor(w.leader, p) <= |w.leader.log|
    ensures p in w.leader.nextIdx ==> 1 <= w.leader.nextIdx[p] <= |w.leader.log| + 1
    ensures 0 <= w.leader.lastApplied <= w.leader.commitIndex <= |w.leader.log|
  {
  }

  /** A node's prefix stays shared while the leader's log grows. */
  lemma LongerLog(w: World, w': World)
    requires w'.leader.id == w.leader.id && w'.since == w.since && w.leader.log <= w'.leader.log
    ensures forall r, i :: HeldBy(w, r, i) ==> HeldBy(w', r, i)
    ensures forall r, i :: Holds(w, r, i) ==> Holds(w', r, i)
  {
    forall r: Replica, i | Holds(w, r, i) ensures Holds(w', r, i) {
      assert w'.leader.log[..i] == w.leader.log[..i];
    }
  }

  lemma AppendKeepsInv(w: World, eventId: string, command: Command)
    requires Inv(w) && w.leader.role.Leader?
    ensures Inv(Next(w, Append(eventId, command)))
  {
    var w' := Next(w, Append(eventId, command));
    LongerLog(w, w');
    AppendKeepsLeader(w, eventId, command);
    hide Inv, LeaderOk, HeldBy, FollowerOk, BeatOk;
    forall p | p in w'.peers ensures FollowerOk(w', p, w'.peers[p]) && MatchOk(w', p) {
      PeerIsOk(w, p);
      AppendKeepsFollower(w, eventId, command, p);
    }
    forall b | b in w'.beats ensures BeatOk(w', b.1) {
      BeatIsOk(w, b);
      AppendKeepsBeat(w, eventId, command, b.1);
    }
    forall a | a in w'.answers ensures AnswerOk(w', a) {
      AnswerIsOk(w, a);
    }
    InvFrom(w');
  }

  lemma AppendKeepsLeader(w: World, eventId: string, command: Command)
    requires LeaderOk(w)
    ensures LeaderOk(Next(w, Append(eventId, command)))
  {
  }

  lemma AppendKeepsBeat(w: World, eventId: string, command: Command, beat: AppendReq)
    requires LeaderOk(w) && BeatOk(w, beat)
    ensures BeatOk(Next(w, Append(eventId, command)), beat)
  {
  }

  lemma AppendKeepsFollower(w: World, eventId: string, command: Command, p: NodeId)
    requires LeaderOk(w) && p in w.peers && FollowerOk(w, p, w.peers[p])
    ensures FollowerOk(Next(w, Append(eventId, command)), p, w.peers[p])
  {
    var w' := Next(w, Append(eventId, command));
    var lead, log := w.leader.log, w.peers[p].log;
    forall i | 0 <= i <= |lead| ensures w'.leader.log[..i] == lead[..i] {
    }
    forall i | 1 <= i <= |log| && i <= |lead| + 1 && log[i - 1].term == w'.leader.log[i - 1].term
      ensures log[..i] == w'.leader.log[..i]
    {
      assert i <= |lead|;
    }
  }

  lemma CommitKeepsInv(w: World, known: seq<NodeId>)
    requires Inv(w)
    ensures Inv(Next(w, Commit(known)))
    ensures w.leader.commitIndex <= Next(w, Commit(known)).leader.commitIndex <= |w.leader.log|
  {
    var leader := Next(w, Commit(known)).leader;
    if w.leader.role.Leader? && w.leader.log != [] {
      var active := ActivePeers(known, w.leader.id);
      var idxs := [|w.leader.log|] + MatchIndexes(w.leader, active);
      MajorityIndexIsMember(idxs);
      MatchIndexesBounded(w, active);
    }
    LeaderMoves(w, leader);
  }

  lemma {:induction false} MatchIndexesBounded(w: World, peers: seq<NodeId>)
    requires LeaderOk(w)
    ensures forall m :: m in MatchIndexes(w.leader, peers) ==> 0 <= m <= |w.leader.log|
  {
    if peers != [] { MatchIndexesBounded(w, peers[1..]); }
  }

  lemma RpcKeepsInv(w: World, p: NodeId, term: int, commit: int, last: int, fate: Fate)
    requires Inv(w) && Enabled(w, Rpc(p, term, commit, last, fate))
    ensures Inv(Next(w, Rpc(p, term, commit, last, fate)))
  {
    var req := Request(w, p, term, commit, last);
    PeerIsOk(w, p);
    BuiltFromLeader(w, p, term, commit, last);
    hide Inv, FollowerOk, FromLeader, HandleAppend, OnReply, LeaderOk, BuildAppend, Request;
    if !fate.Lost? {
      HandledKeepsInv(w, p, req, last);
      if fate.Replied? {
        AnswerKeepsInv(Handle(w, p, req, last), Answer(p, term, last, HandleAppend(w.peers[p], req).1));
      }
    }
  }

  lemma BeatKeepsInv(w: World, peer: NodeId, term: int, commit: int, last: int)
    requires Inv(w) && Enabled(w, Beat(peer, term, commit, last))
    ensures Inv(Next(w, Beat(peer, term, commit, last)))
  {
    var w' := Next(w, Beat(peer, term, commit, last));
    BuiltFromLeader(w, "", term, commit, last);
    SameLeader(w, w');
    SameAnswers(w, w');
    hide FollowerOk, FromLeader, LeaderOk, AnswerOk, HeldBy;
    forall p | p in w'.peers ensures FollowerOk(w', p, w'.peers[p]) && MatchOk(w', p) {
      PeerIsOk(w, p);
    }
    forall b | b in w'.beats ensures BeatOk(w', b.1) {
      if b in w.beats { BeatIsOk(w, b); }
    }
    SamePeersOk(w, w');
  }

  /** Cursors may advance and the vote may change; log and identity stay. */
  lemma QuietPeerMove(w: World, p: NodeId, r: Replica)
    requires Inv(w) && p in w.peers && SameLog(w.peers[p], r)
    requires r.commitIndex == w.peers[p].commitIndex && 0 <= r.lastApplied <= r.commitIndex
    ensures Inv(w.(peers := w.peers[p := r]))
  {
    PeerIsOk(w, p);
    PeerMoves(w, p, r);
  }

  lemma ArrivalKeepsInv(w: World, ev: Event)
    requires Inv(w) && Enabled(w, ev) && (ev.BeatArrives? || ev.Straggle?)
    ensures Inv(Next(w, ev))
  {
    hide Inv, LeaderOk, FollowerOk, HeldBy, FromLeader, OlderRequest, CommitsSafely, HandleAppend, Handle, SameLog;
    PeerIsOk(w, ev.peer);
    match ev
    case BeatArrives(p, beat) =>
      BeatIsOk(w, (p, beat));
      HandledKeepsInv(w, p, beat, beat.prevIndex);
    case Straggle(p, req, sent) =>
      OlderKeepsFollower(w, p, w.peers[p], req, sent);
      OlderKeepsHeld(w, p, w.peers[p], req, sent);
      PeerMoves(w, p, HandleAppend(w.peers[p], req).0);
  }

  lemma PeerMoveKeepsInv(w: World, ev: Event)
    requires Inv(w) && Enabled(w, ev) && (ev.PeerApplies? || ev.PeerVotes? || ev.PeerStands?)
    ensures Inv(Next(w, ev))
  {
    hide Inv, LeaderOk, HeldBy, Agree, NoForeign, SharesPrefix, Outdated, LastTerm;
    PeerIsOk(w, ev.peer);
    match ev
    case PeerApplies(p, upTo) => QuietPeerMove(w, p, w.peers[p].(lastApplied := upTo));
    case PeerVotes(p, vote) => QuietPeerMove(w, p, HandleVote(w.peers[p], vote).0);
    case PeerStands(p) => QuietPeerMove(w, p, StartElection(w.peers[p]));
  }

  lemma OlderKeepsHeld(w: World, p: NodeId, r: Replica, req: AppendReq, sent: seq<Entry>)
    requires LeaderOk(w) && FollowerOk(w, p, r) && OlderRequest(w, r, req, sent)
    requires req.term >= r.currentTerm ==> CommitsSafely(w, r, req, sent)
    ensures forall i :: HeldBy(w, r, i) ==> HeldBy(w, HandleAppend(r, req).0, i)
  {
    OlderKeepsFollower(w, p, r, req, sent);
    hide HandleAppend, FollowerOk, LeaderOk, OlderRequest, CommitsSafely;
    if r.currentTerm < w.since {
      forall i | HeldBy(w, r, i) ensures HeldBy(w, HandleAppend(r, req).0, i) {
        assert i == 0;
      }
    }
  }

  lemma LeaderEventKeepsInv(w: World, ev: Event)
    requires Inv(w) && Enabled(w, ev) && (ev.BeatReply? || ev.LeaderApplies? || ev.LeaderVotes? || ev.Demotion?)
    ensures Inv(Next(w, ev))
  {
    hide FollowerOk, BeatOk, AnswerOk, MatchOk, FromLeader;
    assert LeaderOk(w);
    TablesBounded(w, w.leader.id);
    LeaderMoves(w, Next(w, ev).leader);
  }

  lemma NextKeepsInv(w: World, ev: Event)
    requires Inv(w) && Enabled(w, ev)
    ensures Inv(Next(w, ev))
  {
    hide Inv, HandleAppend, OlderRequest, CommitsSafely, MaySend, Handle, OnReply, Outdated, LastTerm;
    match ev
    case Append(eventId, command) => AppendKeepsInv(w, eventId, command);
    case Rpc(p, term, commit, last, fate) => RpcKeepsInv(w, p, term, commit, last, fate);
    case Beat(p, term, commit, last) => BeatKeepsInv(w, p, term, commit, last);
    case Answered(answer) => AnswerKeepsInv(w, answer);
    case Commit(known) => CommitKeepsInv(w, known);
    case BeatReply(_, _) => LeaderEventKeepsInv(w, ev);
    case LeaderApplies(_) => LeaderEventKeepsInv(w, ev);
    case LeaderVotes(_) => LeaderEventKeepsInv(w, ev);
    case Demotion => LeaderEventKeepsInv(w, ev);
    case _ => if ev.BeatArrives? || ev.Straggle? { ArrivalKeepsInv(w, ev); } else { PeerMoveKeepsInv(w, ev); }
  }

  lemma {:induction false} RunKeepsInv(w: World, evs: seq<Event>)
    requires Inv(w) && IsRun(w, evs)
    ensures Inv(After(w, evs))
    decreases |evs|
  {
    if evs != [] {
      NextKeepsInv(w, evs[0]);
      RunKeepsInv(Next(w, evs[0]), evs[1..]);
    }
  }
}
