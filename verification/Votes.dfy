/** Terms and votes over every run, with no assumption on who leads. */
module Votes {
  import opened Commands
  import opened Raft
  import opened Cluster
  import opened Quorum

  /** Terms never fall, whatever the event. */
  lemma TermsNeverFall(s: State, ev: Event, n: NodeId)
    requires Enabled(s, ev) && n in s.nodes
    ensures n in Next(s, ev).nodes && s.nodes[n].currentTerm <= Next(s, ev).nodes[n].currentTerm
  {
    hide Outdated, ActivePeers, MatchIndexes, Cut, Splice, SentBy, MaySendAs, TermAt, LastTerm;
  }

  /** A reply changes the role or the term exactly when it brings a term newer than both the
      request's and the node's own; the node then follows in that term. */
  lemma ReplyDemotesIff(n: Replica, peer: NodeId, sentTerm: int, last: int, resp: AppendResp)
    ensures var after := OnReply(n, peer, sentTerm, last, resp);
      && (after.currentTerm != n.currentTerm <==> resp.term > sentTerm && resp.term > n.currentTerm)
      && (after.currentTerm != n.currentTerm ==> after.currentTerm == resp.term && after.role.Follower? && after.leader == "")
      && (after.currentTerm == n.currentTerm ==> after.role == n.role && after.leader == n.leader)
  {
  }

  ghost predicate VotesOk(s: State) {
    && (forall g :: g in s.grants ==>
          && g.voter in s.nodes && g.candidate != "" && g.term <= s.nodes[g.voter].currentTerm
          && (g.term == s.nodes[g.voter].currentTerm ==> s.nodes[g.voter].votedFor == g.candidate))
    && (forall g, h :: g in s.grants && h in s.grants && g.voter == h.voter && g.term == h.term ==>
          g.candidate == h.candidate)
  }

  /** Candidates of regular vote requests have names, as node ids do. */
  predicate Named(ev: Event) {
    ev.RequestVote? && !ev.vote.preVote ==> ev.vote.candidate != ""
  }

  /** A vote, once cast in a term, stays while the node is in that term; a newer term starts
      with whatever the event leaves, and no grant of that term exists yet. */
  lemma VoteStays(s: State, ev: Event, g: Grant)
    requires VotesOk(s) && Enabled(s, ev) && Named(ev) && g in s.grants
    ensures var s' := Next(s, ev);
      && g.voter in s'.nodes && g.term <= s'.nodes[g.voter].currentTerm
      && (g.term == s'.nodes[g.voter].currentTerm ==> s'.nodes[g.voter].votedFor == g.candidate)
  {
    TermsNeverFall(s, ev, g.voter);
  }

  lemma NextKeepsVotes(s: State, ev: Event)
    requires VotesOk(s) && Enabled(s, ev) && Named(ev)
    ensures VotesOk(Next(s, ev))
  {
    var s' := Next(s, ev);
    forall g | g in s'.grants
      ensures g.voter in s'.nodes && g.candidate != "" && g.term <= s'.nodes[g.voter].currentTerm
      ensures g.term == s'.nodes[g.voter].currentTerm ==> s'.nodes[g.voter].votedFor == g.candidate
    {
      if g in s.grants {
        VoteStays(s, ev, g);
      }
    }
    forall g, h | g in s'.grants && h in s'.grants && g.voter == h.voter && g.term == h.term
      ensures g.candidate == h.candidate
    {
      if g in s.grants && h in s.grants {
      } else {
        assert ev.RequestVote?;
        assert s'.nodes[g.voter].currentTerm == g.term;
      }
    }
  }

  lemma {:induction false} RunKeepsVotes(s: State, evs: seq<Event>)
    requires Init(s) && IsRun(s, evs) && forall i :: 0 <= i < |evs| ==> Named(evs[i])
    ensures VotesOk(After(s, evs))
    decreases |evs|
  {
    if evs != [] {
      RunKeepsVotes(s, evs[..|evs| - 1]);
      NextKeepsVotes(After(s, evs[..|evs| - 1]), evs[|evs| - 1]);
    }
  }

  /** The members of `cluster` that granted c a regular vote in term t. */
  ghost function Voters(s: State, cluster: set<NodeId>, t: int, c: NodeId): set<NodeId> {
    set v | v in cluster && Grant(v, t, c) in s.grants
  }

  /** Over whole runs, a node's regular grants in one term name one candidate; so two candidates
      granted by majorities of one fixed set of nodes in one term are the same. */
  lemma OneWinnerPerTerm(s: State, evs: seq<Event>, cluster: set<NodeId>, t: int, a: NodeId, b: NodeId)
    requires Init(s) && IsRun(s, evs) && forall i :: 0 <= i < |evs| ==> Named(evs[i])
    requires |Voters(After(s, evs), cluster, t, a)| >= Majority(|cluster|)
    requires |Voters(After(s, evs), cluster, t, b)| >= Majority(|cluster|)
    ensures a == b
  {
    var end := After(s, evs);
    RunKeepsVotes(s, evs);
    var v := MajoritiesMeet(cluster, Voters(end, cluster, t, a), Voters(end, cluster, t, b));
    assert Grant(v, t, a) in end.grants && Grant(v, t, b) in end.grants;
    assert Grant(v, t, a).candidate == Grant(v, t, b).candidate;
  }

  /** Between any two points of a run a node's term does not fall. */
  lemma {:induction false} TermsOverRuns(s: State, evs: seq<Event>, k: nat, n: NodeId)
    requires IsRun(s, evs) && k <= |evs| && n in s.nodes
    ensures IsRun(s, evs[..k]) && n in After(s, evs[..k]).nodes && n in After(s, evs).nodes
    ensures After(s, evs[..k]).nodes[n].currentTerm <= After(s, evs).nodes[n].currentTerm
    decreases |evs|
  {
    if k == |evs| {
      assert evs[..k] == evs;
      NodesStay(s, evs);
    } else {
      var before := evs[..|evs| - 1];
      assert before[..k] == evs[..k];
      TermsOverRuns(s, before, k, n);
      TermsNeverFall(After(s, before), evs[|evs| - 1], n);
    }
  }

  predicate UpToDate(r: Replica, req: VoteReq) {
    LastTerm(r.log) < req.lastTerm || (LastTerm(r.log) == req.lastTerm && |r.log| <= req.lastIndex)
  }

  /** A stale request is refused and changes nothing.  A pre-vote changes nothing and is granted
      exactly to an up-to-date candidate.  A regular vote is granted exactly to an up-to-date
      candidate by a node that is free to vote for it, and then names it; granted or not, the
      newer term is adopted, and role and log stay. */
  lemma VoteDecision(r: Replica, req: VoteReq)
    ensures var (after, resp) := HandleVote(r, req);
      && resp.term == after.currentTerm
      && (req.term < r.currentTerm ==> after == r && !resp.granted)
      && (req.preVote ==> after == r && (resp.granted <==> req.term >= r.currentTerm && UpToDate(r, req)))
      && (!req.preVote && req.term >= r.currentTerm ==>
            && after.currentTerm == req.term && after == r.(currentTerm := after.currentTerm, votedFor := after.votedFor)
            && (resp.granted <==> (req.term > r.currentTerm || r.votedFor == "" || r.votedFor == req.candidate) && UpToDate(r, req))
            && after.votedFor == (if resp.granted then req.candidate else if req.term > r.currentTerm then "" else r.votedFor))
  {
  }
}
