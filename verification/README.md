# The distributed agenda's replicated log and calendar, modelled and proved

The repository is a calendar whose writes go through a hand-written, Raft-style replicated log
kept in SQL tables. This project models, in Dafny, four parts of it and proves what they promise:

1. **Log replication** (`consensus.go`): the AppendEntries and RequestVote handlers, the leader's
   per-peer catch-up, the quorum commit, and a whole proposal.
2. **The apply loop** (`consensus.go`, `storage.go`): cursors, the table of applied event ids,
   pending errors, errors that do not block.
3. **The calendar state machine** (`raft_apply.go`, `storage.go`, `services.go`): twenty operations
   over users, groups, members, appointments, participants and notifications.
4. **The appointment reconciler's cursor** (`reconciler_appointments.go`).

## How it is built

| files | what they hold |
|---|---|
| `Commands`, `Quorum`, `Raft`, `LogTable` | log entries, majority arithmetic, the transitions of one node, the log table and the sequence it stands for |
| `Cluster`, `LogMatching`, `Votes`, `Election`, `Instances` | the cluster as steps over a network that loses, repeats and reorders; Log Matching and votes over all runs; the election tally; runs that show what the protocol does not prevent |
| `TableNode`, `ConsensusNode`, `ObjectRun` | the node over its table rows, the node as an object with fields, and their refinement of the node the protocol reasons about |
| `Leadership`, `Commitment`, `Realisation` | one leadership: match indexes, commits, and the same leadership as part of a run of the cluster |
| `CatchUp`, `Calm`, `Proposal`, `Takeover` | the catch-up loop's convergence, what it achieves when nothing interferes, a proposal end to end (safety and success), and how a run of the cluster leads to one |
| `Tables`, `Applier`, `Effects`, `Store`, `ApplierRun` | tables as maps with their unique keys, the transition function, what each operation leaves in the rows, and the store and applier that change fields in place |
| `ApplyLoop`, `ReplicaState`, `Progress` | applying committed entries: order, the fold, what can stall it |
| `Convergence` | the leadership and the tables together: every node's tables follow the leader's log |
| `Idempotence`, `Integrity`, `Services`, `Cursor` | retries, membership and schema, double booking, polling |

Two layers run through all of it. Code that changes state in place is a class with methods
(`Store.Storage`, `ConsensusNode.Consensus`, `Proposal.Session`, `Services.AppointmentService`,
`Cursor.PeerCursor`). Each method is proved equal to a function on values, and the theorems are
about those functions.

Conventions: integers are unbounded. Times in the tables are whole seconds; service requests and
the cursor's events carry nanoseconds, cut to seconds where the code cuts them.
`created_at` is the order of insertion. Stable ids and the JSON encoder are arbitrary functions, so
ids may collide. A user whose email is NULL cannot be scanned by the code's queries, so every
lookup treats that row as absent.

## Assumptions a reader should see

- **One leader per term**, for Log Matching and what is built on it (`TableNode`, `ObjectRun`). It
  is the hypothesis `OneLeaderPerTerm` on the run and counts a node as leader of a term only when
  it acts as one: it wins the election, appends, or sends. A leader whose term a vote request
  raises leads nothing in the new term until then, so a handover from a living leader is covered
  (`Instances.HandoverHasOneLeaderPerTerm`). The code does not ensure the hypothesis: its tally
  never refuses (`Election.TallyNeverRefuses`), and two nodes can lead one term
  (`Instances.TwoLeadersInOneTerm`). Within a leadership it is proved to be kept
  (`Realisation.LeadershipIsARun`).
- **Where a leadership starts** (`Commitment.ElectionStartsLeadership`): the winner's term is newer
  than any in which a node acted as leader; every node's cursors are in order within its own log;
  and every committed prefix is in the winner's log. None of the three is an invariant of cluster
  runs: `Instances.TwoLeadersInOneTerm`, `Instances.LateRequestShrinks` and
  `Instances.WinnerLacksCommitted` are runs without one of them. Nothing of this leadership is on
  its way yet.
- **Older leaders' requests** may still reach a node during a leadership, if they commit safely:
  the older leader's log holds what the receiver has committed, and what the request commits is in
  the new leader's log (`CommitsSafely`). That is assumed, for requests that are not stale; what
  Log Matching says of such requests is proved for every packet of the cluster
  (`Commitment.OlderPacketsAgree`), and that cursors do not fall is concluded from both.
- **Requests with entries are handled as they are sent**, within a leadership. Empty ones and all
  replies may come late, repeatedly or never, and so may the attempts of earlier broadcasts, with
  the last index those had read. A late request with entries can take a committed entry away;
  `LogMatching.DeliverySparesIff` says exactly when. Log Matching needs no such assumption.
- Node ids are non-empty and name distinct nodes. Event ids are fresh.
- A proposal's check, its taking of an index and its append are one step. Everything else of a
  proposal may overlap with other proposals on the same node, with left-over attempts, heartbeats,
  commit steps and background apply passes.

## What turned out not to hold

- A retry of an applied entry does not always succeed again. An invitation answered by somebody who
  is not a participant succeeds once and then meets its own notification, an error that blocks the
  log: `Idempotence.RetryMayBlock` is an instance, `Progress.RetryCompletesIff` the exact condition.
- `repair.appointment.ensure_participant` can break membership integrity
  (`Integrity.StrangerBreaksIntegrity`); `Integrity.EnsureParticipantKeepsIff` says exactly when it
  does not.
- An update of a group appointment can double-book its other attendees
  (`Services.GroupUpdateDoubleBooks`), and a proposal applied after the next request was checked
  can double-book its owner (`Services.LateProposalDoubleBooks`). Whatever was checked before,
  `Services.CreateKeepsIff` and `Services.EditKeepsIff` say exactly when an applied creation or
  update double-books nobody, and `Services.UpdateKeepsIff` what the service's check leaves open.
- The reconciler's cursor can stop for good: `Cursor.PollDelivers` says exactly when a poll makes
  progress, `Cursor.StuckForever` that a thousand delivered events in one second end it, and
  `Cursor.BurstIsNeverDelivered` is an instance from a fresh cursor.
- A follower's committed entry can be lost to a late request. `LogMatching.DeliverySparesIff` says
  for every delivery exactly when the committed entries stay, by what the receiver can check before
  it handles the request, and `LogMatching.CommitStaysCoveredIff` when the commit index stays
  within the log. `Instances.LateRequestShrinks` is a run, with one leader, in which neither does.
- A winner can lack a committed entry: `Instances.WinnerLacksCommitted`.
- The code's comments say an election needs a majority of reachable peers. The first reply or the
  timeout always decides it in the candidate's favour.

## Model

| member | source | states |
|---|---|---|
| Quorum.MajorityIndexIsGreatest | consensus.go:562-571 | the sorted pick is the greatest index reached by at least half plus one of the members |
| Quorum.MajorityIndexIsMember | consensus.go:562-571 | the pick is one of the members' own indexes |
| Quorum.MajoritiesMeet | consensus.go:564-571 | any two majorities of one set of members share a member |
| LogTable.TermAtMatches | consensus.go:494-507 | the term lookup answers the sequence's term at that index, 0 beyond it, and nothing else |
| LogTable.LastMatches | consensus.go:1374-1384 | ORDER BY idx DESC LIMIT 1 answers exactly the length and last term of the sequence |
| LogTable.ScanMatches | consensus.go:620 | the range query answers exactly the slice of the sequence, whatever its bounds beyond the end |
| LogTable.SuffixMatches | consensus.go:510-527 | loading from an index answers exactly the suffix of the sequence |
| LogTable.DeleteMatches | consensus.go:486-492 | truncation leaves rows standing for the cut sequence |
| LogTable.InsertMatches | consensus.go:480-484 | INSERT OR REPLACE at the next index keeps the rows one per index if and only if the event id is new |
| LogTable.WriteAllMatches | consensus.go:331-341 | truncating before every entry and then writing it yields the splice of the entries |
| LogTable.RepresentsOne | storage.go:163-173 | rows stand for at most one sequence |
| ConsensusNode.Consensus.AppendLog | consensus.go:480-484 | the rows after INSERT OR REPLACE |
| ConsensusNode.Consensus.TruncateLogFrom | consensus.go:486-492 | the rows after truncation; a non-positive index changes nothing |
| ConsensusNode.Consensus.LogTermAt | consensus.go:494-507 | the term of a row with that index, 0 if there is none |
| ConsensusNode.Consensus.LastIndexTerm | consensus.go:1374-1384 | index and term of a row none exceeds, 0 and 0 for the empty table |
| ConsensusNode.Consensus.NextIndex | consensus.go:468-478 | one past the greatest index in the table |
| ConsensusNode.Consensus.Select | consensus.go:620 | every row of the range, once, in ascending order |
| ConsensusNode.Consensus.LoadLogEntriesFrom | consensus.go:510-527 | every row from an index on, once, in ascending order |
| ConsensusNode.Consensus.HandleAppendEntries | consensus.go:256-347 | the handler's field updates and reply are those of the transition function, given the term it found |
| ConsensusNode.Consensus.WriteEntries | consensus.go:330-341 | the write loop over the entries, and the last index written |
| ConsensusNode.Consensus.HandleRequestVote | consensus.go:349-395 | the handler's field updates and reply are those of the transition function, given the last row |
| ConsensusNode.Consensus.Active | consensus.go:435-454 | the known peers without blanks, the node itself and the placeholder |
| ConsensusNode.Consensus.RecalculateCommitIndex | consensus.go:532-578 | the commit step over match indexes, a no-op off the leader and on an empty log |
| ConsensusNode.Consensus.OnTerm | consensus.go:786-799 | a newer term in a reply is adopted and the node steps down |
| ConsensusNode.Consensus.OnAppendReply | consensus.go:878-914 | what a reply does to the leader's tables: newer term, success with its fallback, or step back |
| ConsensusNode.Consensus.BuildRequest | consensus.go:846-942 | the request is one the table allows for this peer, with the broadcast's term, commit index and last index |
| ConsensusNode.Consensus.BeginElection | consensus.go:1076-1082 | term plus one, candidate, own vote not in the node's state |
| ConsensusNode.Consensus.BecomeLeader | consensus.go:1122-1138 | leader, with next indexes past the end and match indexes 0 for every peer |
| ConsensusNode.Consensus.Demote | consensus.go:164-166 | follower with no known leader |
| ConsensusNode.Consensus.ApplyOne | consensus.go:626-676 | one committed row, with the faults it may meet, does what the apply step says |
| ConsensusNode.Consensus.ApplyCommitted | consensus.go:605-679 | a pass applies the committed rows in order until one stops it |
| TableNode.HandlerRefines | consensus.go:256-347 | on rows standing for a log the AppendEntries handler does to the log what the protocol's does, with the same reply |
| TableNode.VoterRefines | consensus.go:349-395 | likewise for RequestVote |
| TableNode.BuildRefines | consensus.go:846-942 | the request built from the table is exactly the one built from the log, whatever last index the broadcast had read |
| TableNode.ProposeRefines | consensus.go:468-484 | appending with a fresh event id refines appending to the log |
| TableNode.ActRefines | consensus.go:209-578 | every event of the cluster, done over rows, refines the event over logs |
| TableNode.TablesRefineLogs | consensus.go:468-527 | on every reachable step each node's rows are one per index over 1..n and stand for its log, all other fields equal |
| ObjectRun.Perform | consensus.go:209-578 | one event of the cluster is one method call on the node object |
| ObjectRun.PerformAll | consensus.go:209-578 | a node object that performs its events of any run ends with rows and fields that refine the protocol node |
| Cluster.MoveKeepsInv | consensus.go:256-395 | a node may take any covered log of its own, and any newer term, without breaking what all nodes, packets and terms satisfy |
| Cluster.LeadKeepsInv | consensus.go:745-942 | a node that acts as leader of its term, alone in it, extends the term's history by its log and keeps all of that |
| LogMatching.DeliverIsSafe | consensus.go:304-345 | delivering any sent request, late or repeated, leaves the receiver a covered log; on success with entries, the sender's |
| Raft.HandleShape | consensus.go:256-347 | a stale request changes nothing; any other is adopted, ends the leadership of a receiver it did not come from, and cuts or writes the log with the matching reply |
| LogMatching.RunKeepsInv | consensus.go:209-395 | the cluster's invariant holds over every run with one leader per term |
| LogMatching.LogMatching | consensus.go:304-341 | logs of any two nodes that agree on the term at an index are identical through it; terms are at least 1, nondecreasing, at most currentTerm (section 5.3 of the Raft paper) |
| LogMatching.AcceptedRequestCopiesLeader | consensus.go:330-345 | every accepted entry-bearing request leaves the follower's log equal to the leader's when it was sent |
| LogMatching.DeliverySparesIff | consensus.go:256-347 | whatever request is delivered, however late, the receiver keeps its committed entries exactly when the request is stale, or rejected beyond the commit index, or writes nothing, or only beyond it, or brings at the commit index an entry of the term that is there |
| LogMatching.CommitStaysCoveredIff | consensus.go:310-345 | and its commit index stays within its log exactly when the request is stale or rejected, or neither index exceeds what it leaves |
| Instances.LateRequestShrinks | consensus.go:304-345 | from any fresh cluster a run with one leader in which a late, shorter request fails both conditions: it takes a committed entry from a follower and leaves its commit index beyond its log |
| Instances.WinnerLacksCommitted | consensus.go:532-578 | from any fresh cluster a run with one leader per term, every cursor in order, in which a node may win a term nobody has led without an entry that is committed |
| Votes.TermsNeverFall | consensus.go:273-366 | no event lowers a node's current term |
| Votes.ReplyDemotesIff | consensus.go:878-891 | a reply changes role or term exactly when its term is newer than the request's and the node's |
| Votes.TermsOverRuns | consensus.go:266-366 | currentTerm never falls over a whole run |
| Votes.VoteDecision | consensus.go:349-395 | for every request: a stale one is refused and changes nothing, a pre-vote changes nothing and is granted exactly to an up-to-date candidate, a regular vote exactly to an up-to-date candidate by a node free to vote; what the node's vote and term are then |
| Votes.RunKeepsVotes | consensus.go:364-394 | over any run a node's regular grants in one term name one candidate |
| Votes.OneWinnerPerTerm | consensus.go:364-394 | two candidates granted by majorities of one node set in one term are equal, own votes not counted |
| Election.Tally | consensus.go:1087-1275 | the counting loop over replies and the timeout computes the outcome function |
| Election.TallyNeverRefuses | consensus.go:1105-1220 | whatever arrives first, refusals and the timeout included, the candidate wins |
| Election.StartElection | consensus.go:1076-1275 | past the pre-vote, whatever votes and requests arrive while it waits, a candidate ends as leader of the term it is then in, at least the next one; its own vote is not recorded in its state |
| Election.ServingKeepsTerm | consensus.go:256-395 | requests served while the candidate waits never lower its term |
| Instances.TwoLeadersInOneTerm | consensus.go:1076-1275 | from any fresh cluster two nodes can lead term 1 |
| Instances.HandoverHasOneLeaderPerTerm | consensus.go:366-371 | a handover in which the old leader is raised to the winner's term and keeps its role still has one leader per term |
| Leadership.HandleKeepsFollower | consensus.go:304-345 | a follower handling a request of this leader keeps all it shares with the leader, rolls no cursor back, and on success holds the log through what was sent |
| Leadership.OlderKeepsFollower | consensus.go:304-345 | an older leader's request that commits safely leaves a follower what it was to the new leader and rolls no cursor back; a follower that has heard the new leader ignores it |
| Leadership.CommitKeepsInv | consensus.go:573-577 | within a leadership the commit index never falls and never exceeds the last index |
| Leadership.AnswerKeepsInv | consensus.go:878-979 | a reply, however late it is read, leaves match and next indexes sound |
| Leadership.NextKeepsInv | consensus.go:745-1061 | every event of a leadership, with lost requests, late empty ones and late replies, keeps its invariant |
| Leadership.RunKeepsInv | consensus.go:745-1061 | the same over whole leaderships |
| Commitment.ElectionStartsLeadership | consensus.go:1122-1138 | a winner of a newer term than any led, in a cluster whose cursors are in order and whose committed prefixes are in its log, starts a leadership with the invariant: Log Matching supplies the rest |
| Commitment.OlderPacketsAgree | consensus.go:304-341 | every packet of an older leader, heartbeats included, carries what a leadership needs to know of it: its sender's log agrees with the leader's and with the receiver's |
| Realisation.ElectionStartsRun | consensus.go:1122-1138 | the election win is a step of the cluster after which cluster and leadership are in step |
| Realisation.EventIsRun | consensus.go:745-1061 | every event of a leadership that the cluster allows is one, two or three events of the cluster, and keeps both invariants and one leader to each term |
| Realisation.LeadershipIsARun | consensus.go:745-1061 | the events of a whole leadership are a run of the cluster at whose end the nodes and heartbeats are those of the leadership, with one leader per term kept rather than assumed |
| Commitment.MatchIndexIsSound | consensus.go:892-983 | throughout a leadership each follower's log agrees with the leader's through its match index |
| Commitment.NoRejectionCutsBelowMatch | consensus.go:309-327 | no rejection cuts a follower's log at or below its match index or its commit index |
| Commitment.FallbackUnreached | consensus.go:895-979 | once anything has been proposed, a success reports at least the last index its broadcast read, and the branches that assume that index are not reached |
| Commitment.ClampChangesNothing | consensus.go:342-345 | every request's commit index is at most its last sent index, so the unclamped assignment equals Figure 2's minimum |
| Commitment.CursorsNeverFall | consensus.go:310-327 | within a leadership no commit or apply cursor ever rolls back, on requests of this leader or of an older one |
| Commitment.CommittedPrefixesAgree | consensus.go:342-345 | all committed prefixes are prefixes of the leader's log and agree with each other |
| Commitment.CommitHasMajority | consensus.go:532-578 | an index above the commit index is committed exactly when a majority of self and active peers is matched there, and all of those hold the log through it |
| Commitment.HoldersStay | consensus.go:304-345 | what a node holds of the leader's log it holds until the leadership ends, whatever happens, so a majority once reached stays one |
| CatchUp.AttemptProgress | consensus.go:845-994 | without loss an attempt leaves the follower holding the log through the broadcast's last index, all of it if anything was sent, or lowers its next index, by exactly one if the table has one; a success also brings the follower's commit index up to the broadcast's |
| CatchUp.GivesUpIff | consensus.go:867-891 | an attempt ends without a result exactly when no reply comes or the peer is in a newer term; a reply in a term newer than the leader's makes it a follower of that term, and otherwise nothing of the leader changes |
| CatchUp.HeartbeatCommits | consensus.go:753-826 | a heartbeat that reaches a peer holding the log through its last index moves the peer's commit index to the leader's and leaves its log alone |
| CatchUp.BroadcastProgress | consensus.go:844-997 | one lossless broadcast succeeds or lowers the next index by five |
| CatchUp.CatchUpConverges | consensus.go:844-997 | one broadcast for every five steps of the next index is enough, and what of the leader's log the follower then holds and knows to be committed |
| CatchUp.CatchUpKeepsInv | consensus.go:844-997 | whatever is lost, the loop keeps the leadership's invariant, the leader's log and its cursors |
| Calm.LowOrCurrentIsNear | consensus.go:846-852 | a peer whose next index is low, or that holds the whole log, is near enough for the loop to reach it |
| Calm.AttemptNears | consensus.go:845-994 | an answered attempt at a peer that is near succeeds or brings it one nearer, and cannot be rejected where the peer shares the leader's log |
| Calm.LoopNears | consensus.go:844-997 | five answered attempts succeed or bring the peer five nearer; within five they succeed |
| Calm.LoopApart | consensus.go:840-997 | whatever becomes of its requests, the loop at a peer in no newer term leaves every other peer, what the tables say of it, and the leader's role, log and cursors alone; a success is credited with the broadcast's last index |
| Proposal.HappenKeeps | consensus.go:140-188 | whatever a leadership allows, other proposals and commit steps included, loses nothing: the log grows, cursors rise, what is held stays held, and a committed index stays backed by a majority of the peers one of the commit steps read |
| Proposal.MeanwhileKeeps | consensus.go:140-188 | the same over any sequence |
| Proposal.UndisturbedCatchUp | consensus.go:844-997 | with nothing in between, the loop is the one whose convergence is proved |
| Proposal.BroadcastKeeps | consensus.go:745-1021 | every peer counted by a broadcast holds the log through the last index it read, to the end of it, whatever happens between its attempts |
| Proposal.RoundOutcome | consensus.go:745-1021 | a broadcast that nothing interrupts, in which enough peers answer, credits a majority with the last index or brings everyone who answers five nearer |
| Proposal.MatchedIsCommitted | consensus.go:532-578 | where a majority is credited with the last index, the commit step commits it |
| Proposal.Session.Interlude | consensus.go:152-174 | that and a background apply pass keep the session valid, every applied entry recorded, and lose nothing |
| Proposal.Session.Post | consensus.go:867-877 | a request is lost, handled with its reply lost, or answered |
| Proposal.Session.Ask | consensus.go:845-994 | one attempt over the table equals the attempt over the log |
| Proposal.Session.Let | consensus.go:140-188 | one thing that happens, at this node or elsewhere, done over the table equals the event |
| Proposal.Session.CatchUpPeer | consensus.go:844-997 | the five-attempt loop, with what happens between its attempts, equals its function |
| Proposal.Session.BroadcastAppendEntries | consensus.go:745-1021 | the round over the active peers equals its function, with anything between any two attempts; it reports a majority exactly when enough successes were heard, and then a majority holds the log through the last index it read |
| Proposal.Session.Append | consensus.go:1025-1027 | the entry is appended and the rows still stand for the log |
| Proposal.Session.CommitStep | consensus.go:1051-1053 | the commit step over the table equals the event |
| Proposal.Session.ApplyPass | consensus.go:1055-1058 | a pass keeps every entry applied since a given point recorded, and the tables those of the log through the cursor; if what is due never stalls it leaves no error, and without faults it reaches the commit index |
| Proposal.Session.Replicate | consensus.go:1029-1049 | if nothing interferes and a majority within 25 answers, one of five rounds leaves a majority credited with the whole log |
| Proposal.Session.ReplicateAndCommit | consensus.go:1023-1061 | the entry is appended, and nothing that is held, backed or recorded is lost; on an unobstructed network the entry is committed, and applied if no fault stops the pass |
| Proposal.Session.WaitForApplied | consensus.go:716-741 | why the wait ends: applied on a leader, leadership lost, apply error at or before the target, or time out; a committed entry that never stalls is waited for until a pass without faults |
| Proposal.Session.Propose | consensus.go:209-254 | if no error is returned, the entry is in the leader's rows, its event is recorded as applied, the tables are what the applier makes of the log through it, and a majority of self and the active peers a commit step has read holds the log through it, whatever other proposals, heartbeats, late attempts, late replies and background passes come between; a refused proposal changes nothing. And it succeeds, committed and applied, whenever nothing obstructs it: a leader without a pending error, no active peer in a newer term, a majority of the active peers answering in time and within 25 of what they share with the leader, nothing else happening, entries that never stall, and one pass after the commit without faults |
| Takeover.TakeOffice | consensus.go:1122-1138 | a node object that performs its events of any run of the cluster, a win last, gives a valid session whose leadership is in step with the cluster |
| Store.Storage.CreateUser | storage.go:202-216 | insert with a derived id, or a unique violation and no change |
| Store.Storage.UpdateUser | storage.go:247-258 | the new row, no row to change, or a unique violation |
| Store.Storage.EnsureUser | storage.go:276-359 | no-op on an identical user, conflict on a name or email with other data, otherwise an insert that ignores the given id |
| Store.Storage.CreateGroup | storage.go:369-395 | insert under the signature's id, or a unique violation |
| Store.Storage.IsSuperior | storage.go:435-445 | compares the ranks of two members, an error unless both are members |
| Effects.GroupAppointmentRow | storage.go:847-893 | a group appointment that is created is one new pending row with the asked fields, and no user, group or membership differs |
| Effects.GroupParticipants | storage.go:894-936 | every member of the group gets a participant row and nobody else: automatic for the owner of a plain group, and in a hierarchy for whoever ranks no higher than the owner, pending for the rest |
| Effects.GroupInvitations | storage.go:937-961 | every member gets an "invite" notification whose body carries the appointment and that status, and no other notification differs |
| Effects.GroupAppointmentIff | storage.go:847-995 | it is created exactly when its id is free, the group exists, a hierarchy with members has its owner among them, and every row to insert is free; otherwise nothing changes |
| Effects.DeletedGroupIsGone | storage.go:533-565 | the group, its memberships, its appointments and their participants are gone, and every other row of every table is as before |
| Effects.GroupHasItsCreator | raft_apply.go:359-389 | a new group has its creator as member, of rank 0 in a plain group and 5 in a hierarchy; an existing one stays as it is |
| Effects.GroupIsEdited | raft_apply.go:390-405 | name and description are as asked where given, and no other field or row differs |
| Effects.MembershipIsSet | raft_apply.go:415-426 | the one membership has the rank; an update adds none |
| Effects.MemberLeaves | storage.go:577-607 | the membership and the user's places in the group's appointments are gone, and no other row |
| Effects.PasswordIsStored | storage.go:260-267 | an existing user's hash is the one given, and no other field or row differs |
| Effects.EmailIsCleared | storage.go:361-367 | the address goes if it is the one given, and nothing else does |
| Effects.UserIsStored | raft_apply.go:266-307 | a user whose name nobody can be found under is stored field by field if name, address and id are new, and a taken address is a conflict; otherwise nothing changes |
| Effects.UserIsRepaired | raft_apply.go:191-211 | a repair succeeds exactly when the very row is there, or when name, address and derived id are new and a password is given |
| Effects.ProfileIsUpdated | raft_apply.go:308-346 | the given fields replace the old ones unless another row has the name or the address, which is a conflict that changes nothing |
| Effects.AppointmentIsMarkedDeleted | storage.go:776-783 | the row stays with its deleted mark set, all else as it was |
| Effects.AppointmentIsEdited | raft_apply.go:235-259 | the given fields of a live appointment are replaced and no others; one that is missing or deleted is an error |
| Effects.PersonalAppointmentIsBooked | raft_apply.go:150-190 | a new personal appointment is one accepted row with its owner as accepted participant, or an error and no change if its id is taken |
| Effects.PersonalAppointmentIsFound | raft_apply.go:150-190 | a second booking of the same appointment adds at most its owner, to the newest that matches |
| Effects.AnswerIsRecorded | raft_apply.go:440-501 | the participant's status is the one given, whatever becomes of the notification, and no other row differs |
| Effects.OwnerIsTold | raft_apply.go:455-501 | a new answer to a live appointment puts one notification to its owner, saying accepted or declined as the status does, or fails if that notification is there |
| Effects.ParticipantIsRepaired | raft_apply.go:514-525 | a participant that is there has the status, one that is not is added unless its id is used |
| Effects.NotificationIsRepaired | storage.go:1044-1053 | an equal notification is left, otherwise one is added unless its id is taken |
| Store.Storage.DeleteGroup | storage.go:533-565 | memberships, participants, appointments and the group itself are gone, nothing else (row by row: `Effects.DeletedGroupIsGone`) |
| Store.Storage.RemoveGroupMember | storage.go:577-607 | the membership and the user's places in the group's appointments are gone, or an error and no change |
| Store.Storage.FindAppointmentBySignature | storage.go:681-703 | the newest live appointment with the signature, if there is one |
| Store.Storage.CreateAppointment | storage.go:706-761 | insert under the signature's id, or a unique violation |
| Store.Storage.AddParticipant | storage.go:785-799 | insert, or a unique violation on the pair or on the derived id |
| Store.Storage.EnsureParticipant | storage.go:801-809 | sets the status of a participant that is there, inserts one that is not |
| Store.Storage.CreateGroupAppointment | storage.go:847-995 | all or nothing: the appointment with a participant and an invitation for every member, of the status `Effects.GroupParticipants` gives, or the tables as they were |
| Store.Storage.InviteAll | storage.go:894-962 | the member loop enrols everybody in any order or stops at the first failure |
| Store.Storage.AddNotification | storage.go:1000-1030 | insert under the derived id, or a unique violation |
| Store.Storage.EnsureNotification | storage.go:1044-1053 | no-op when an equal notification exists |
| Store.Storage.CountConflicts | storage.go:812-825 | the loop over the joined participant rows counts each appointment that would clash once |
| Store.Storage.HasConflict | storage.go:811-826 | the count is positive exactly when the user is busy in an undeleted appointment that overlaps the interval |
| Store.Storage.HasConflictExcluding | storage.go:828-844 | the same, one appointment left out |
| Store.Storage.GetGroupMembers | storage.go:447-470 | the rows collected are exactly the users with a membership in the group |
| Store.Storage.InviteStatus | storage.go:896-919 | automatic or pending, by group kind, creator and rank; an error when a hierarchical group's creator has no rank |
| Store.Storage.InsertInvited | storage.go:920-961 | participant and invitation, or a unique violation |
| Store.Storage.RecordAppliedEvent | storage.go:1330-1340 | insert or ignore, negative indexes stored as 0 |
| ApplierRun.ApplyEntry | raft_apply.go:147-537 | the applier's reads and writes end exactly where the transition function says, error included, from every valid store |
| ApplierRun.RunCreatePersonal | raft_apply.go:150-190 | find or insert, then enrol the owner unless enrolled |
| ApplierRun.RunCreateGroupAppointment | raft_apply.go:212-234 | skip if the signature exists, otherwise the transaction |
| ApplierRun.RunUpdateAppointment | raft_apply.go:235-259 | given fields replaced on a live appointment |
| ApplierRun.RunCreateUser | raft_apply.go:266-307 | success if the name exists, conflict if the email does, otherwise the insert |
| ApplierRun.RunUpdateProfile | raft_apply.go:308-346 | no-op at the desired state, conflict on a taken name or email |
| ApplierRun.RunEnsureUser | raft_apply.go:191-211 | no user is created without a password |
| ApplierRun.RunCreateGroup | raft_apply.go:359-389 | the group with its creator as member, once |
| ApplierRun.RunInvitation | raft_apply.go:440-501 | status first, then the owner's notification |
| ApplierRun.RunEnsureParticipant | raft_apply.go:514-525 | a colliding id is forgiven |
| ApplierRun.EnrolUnlessThere | raft_apply.go:176-189 | the owner is enrolled once, a colliding id forgiven |
| ApplierRun.RunUpdatePassword | raft_apply.go:347-358 | the hash is as asked if the user exists (row by row: `Effects.PasswordIsStored`) |
| ApplierRun.RunUpdateGroup | raft_apply.go:390-405 | given fields replaced, an error for a missing group |
| ApplierRun.RunDeleteGroup | raft_apply.go:406-414 | deleting a missing group is a success, an existing one is removed with all that hangs on it |
| ApplierRun.RunRemoveMember | raft_apply.go:427-439 | removing somebody who is not a member is a success |
| ApplierRun.RunEnsureNotification | raft_apply.go:526-531 | the notification exists afterwards unless its id is taken |
| ApplierRun.RunUserOperation | raft_apply.go:191-346 | creation, repair and profile of users end where the transition function says |
| ApplierRun.RunGroupOperation | raft_apply.go:359-513 | likewise for groups and memberships |
| ApplierRun.RunAppointmentOperation | raft_apply.go:150-531 | likewise for appointments, answers and the repairs of participants and notifications |
| ApplierRun.RunRowOperation | raft_apply.go:260-537 | deletion of an appointment, password, clearing an email, and the errors of a payload or an operation nobody knows |
| ApplyLoop.RowKeepsOrder | consensus.go:626-676 | one row never records an id twice nor passes a pending error, which ends exactly when its own entry or a later one completes |
| ApplyLoop.ExactlyOnceInOrder | consensus.go:605-679 | over any mix of commits, rewrites, rollbacks, faults and retries: no id completes twice, LastApplied is at most CommitIndex, and a pending error holds everything at or beyond it |
| ApplyLoop.HandlerSteps | consensus.go:304-345 | every AppendEntries call moves log and cursors as a rollback, or a rewrite and a commit, so the order theorem covers it |
| ReplicaState.TablesAreTheFold | consensus.go:605-679 | with no attempt outstanding the tables are the fold of the applier over the log through LastApplied, however commits are batched |
| ReplicaState.TriedMeansError | consensus.go:650-656 | without record faults an outstanding attempt is one whose error is pending |
| ReplicaState.ReplicasAgree | raft_apply.go:147-537 | replicas with no pending error, equal cursors and logs that agree through them have the same tables |
| ReplicaState.FreshReplica | consensus.go:605-616 | a node that has applied nothing satisfies the invariant |
| Convergence.NodeEvent | consensus.go:256-578 | across any event of a leadership a node's committed prefix stays and its log stays numbered with distinct event ids |
| Convergence.NextKeepsInv | consensus.go:605-679 | every event of a leadership and every apply pass at any node keeps: each node's tables are the fold of its log, and only entries below its cursor are recorded |
| Convergence.TablesFollowLeader | consensus.go:605-679 | throughout a leadership every node's tables are what the applier makes of the leader's log through that node's cursor (or one outstanding attempt further), and exactly those entries' events are recorded |
| Convergence.NodesConverge | raft_apply.go:147-537 | any two nodes of a leadership that have applied equally far with no pending error hold the same tables and the same recorded events |
| Convergence.TablesAreTakenOver | consensus.go:1122-1138 | an election win that starts a leadership takes the tables over: what held of every node's own log holds of the new leader's |
| Convergence.FreshNode | consensus.go:605-616 | it holds of every node that has applied nothing yet |
| Convergence.ClusterSuppliesEventIds | consensus.go:209-254 | every event of a leadership that the cluster allows brings the fresh and distinct event ids these results ask for |
| Progress.CompletesUnlessStalled | consensus.go:681-711 | for every operation and state, exactly when an entry's result does not block the log |
| Progress.RetryCompletesIff | raft_apply.go:440-501 | a completed entry completes again exactly when it is not the answer of a non-participant |
| Progress.PassLeavesNoError | consensus.go:617-679 | whatever faults a pass meets, rows that never stall leave no error pending |
| Progress.CommittedLogIsApplied | consensus.go:617-679 | one pass fully applies a committed log of operations that never stall, from any tables |
| Idempotence.ApplyTwiceIsOnce | raft_apply.go:147-537 | for every operation and state, applying twice leaves the tables of applying once, failed attempts included |
| Idempotence.NoneMeansNoMatch | storage.go:681-703 | the signature search fails only when nothing matches |
| Idempotence.RetryMayBlock | raft_apply.go:448-500 | an instance in which a completed entry blocks the log when retried |
| Integrity.ApplyKeepsIntegrity | raft_apply.go:147-537 | every operation but ensure_participant keeps: participants' appointments exist, group participants are members, a personal appointment has only its owner |
| Integrity.IntegrityOverRuns | storage.go:533-607 | the same over every sequence, through removal, deletion and re-creation |
| Integrity.EnsureParticipantKeepsIff | raft_apply.go:514-525 | ensure_participant keeps integrity exactly when it adds nobody or somebody who may attend |
| Integrity.StrangerBreaksIntegrity | raft_apply.go:514-525 | an instance in which ensure_participant enrols a stranger in a personal appointment |
| Integrity.ApplyKeepsSchema | storage.go:59-117 | no operation, failed or not, leaves a unique index violated |
| Services.AppointmentService.CreatePersonalAppointment | services.go:387-420 | refused with the first failing check, its order test on the full times and its conflict test on whole seconds, otherwise proposed |
| Services.AppointmentService.UpdateAppointment | services.go:551-589 | the same for updates, the appointment itself left out of the conflict check |
| Services.AppointmentService.DeleteAppointment | services.go:605-628 | the same for deletions |
| Services.OnlyOwnersEdit | services.go:551-612 | a change or deletion by anybody but the owner of a live appointment is unauthorized, one of a missing or deleted appointment is not found, and the tables stay as they are |
| Services.BadTimesAreRefused | services.go:387-577 | a creation, or an owner's change, that ends before it starts is invalid, one that overlaps what the user attends is a conflict, and the tables stay as they are |
| Services.OthersAreProposed | services.go:387-628 | everything else is proposed with the fields and the whole seconds asked for, and applied unless the proposal is dropped |
| Services.AppointmentService.Propose | services.go:402-409 | the command reaches this node's tables once or not at all, whatever is reported |
| Services.OverlapMeans | storage.go:819 | the interval test holds exactly for a shared second or a zero-length interval strictly inside the other |
| Services.CreateKeepsIff | raft_apply.go:150-190 | whatever was checked before, a personal creation double-books nobody exactly when it books nobody or its owner has no other overlapping booking where it is applied |
| Services.EditKeepsIff | raft_apply.go:235-259 | an update of any live appointment double-books nobody exactly when none of its attendees has another overlapping booking where it is applied |
| Services.UpdateKeepsIff | services.go:568-583 | an update that passed its checks books nobody twice exactly when no attendee but the owner has a conflict |
| Services.GroupUpdateDoubleBooks | services.go:568-583 | an instance in which a group's owner moves its appointment onto a member's own |
| Services.PersonalUpdateKeeps | services.go:551-589 | an update of an own personal appointment never double-books |
| Services.NoDoubleBookingOverRuns | services.go:387-628 | in any serial run no user's accepted or automatic undeleted appointments overlap, zero-length ones included |
| Services.LateProposalDoubleBooks | services.go:392-409 | an instance in which two creations each pass their check, and the second books its owner twice because the first was applied only then |
| Cursor.ListEvents | storage.go:1192-1226 | the filtered, ordered, capped page of the event table |
| Cursor.MatchingIs | storage.go:1192-1226 | the filter keeps the creations of appointments, and only those |
| Cursor.PeerCursor.Poll | reconciler_appointments.go:64-211 | one poll asks from the cursor's whole second and moves the cursor to the greatest time received |
| Cursor.PollDelivers | reconciler_appointments.go:64-211 | a poll delivers a longer prefix exactly when events remain and fewer than a thousand delivered ones fall in the cursor's second, and never leaves a gap |
| Cursor.NoGaps | reconciler_appointments.go:64-211 | over any additions and polls the delivered events are a prefix that never shrinks |
| Cursor.PollsCatchUp | cluster_http.go:182-184 | when no second holds a thousand events, one poll per missing event delivers them all |
| Cursor.StuckForever | cluster_http.go:182-184 | with a thousand delivered events in its second the cursor never moves again, whatever is added |
| Cursor.BurstIsNeverDelivered | reconciler_appointments.go:64-211 | an instance: of a thousand and one events in one second, the last is never delivered to a cursor that starts fresh, whatever is added and however often it polls |

## Left out

- Election Safety, Leader Completeness and State Machine Safety across terms: the tally, the self-vote kept out of the node's state, and a commit rule without a current-term check do not support them.
- LogMatching.LogMatching: a request is built in one step from its sender's log. A node that is raised to a newer term or loses the role in the middle of a broadcast may go on sending under its old term while its log is still that term's; going on after a newer leader has rewritten the log is not modelled.
- ConsensusNode.Consensus.HandleAppendEntries: database errors inside the handler are not modelled; the table operations always succeed.
- Proposal.Session.BroadcastAppendEntries: an attempt is one step: reading the next index, loading the entries and having a request with entries handled are not interleaved with anything else. Attempts at different peers are, in any order.
- Proposal.Session.Propose: that it succeeds is stated for a network on which nothing else happens meanwhile and for entries that are applied from any state of the tables; what other proposals, heartbeats and late replies can do to a proposal's success, as opposed to its safety, is not. The other nodes are protocol values rather than objects, and two proposals that both take an index before either appends are not modelled.
- ApplierRun.ApplyEntry: database faults inside an operation are not modelled; faults around it (the lookup and the record of an event id) are.
- Election.StartElection: the pre-vote is not part of the method; it counts by the same rule, so it never refuses either. Requests are served between the votes sent and the count, not in the middle of the count, which reads nothing they change.
- Cursor.ListEvents: the reconciler's filter and its limit of a thousand are built in, and times are compared as numbers where the query compares text.
- Cursor.PeerCursor.Poll: what the reconciler does with a delivered event (mapping owners and groups by name, proposing) is left out; times are taken as nondecreasing.
- Services.AppointmentService.Propose: whether the log applies a proposal, and what it reports, is a parameter rather than the outcome of `Proposal.Session.Propose`.
- Services.AppointmentService.CreatePersonalAppointment: the notification and event written beside the log, the reload of the created row, and the direct write on a node that is not leader are left out.
- Services.AppointmentService.UpdateAppointment: likewise the event, and the direct write on a node that is not leader.
- Counters and timers: heartbeat failures, failed elections, election timeouts, back-off and sleeps are nondeterministic steps.
- Crash recovery: start-up drops every table.
- HTTP, signatures, tokens, password hashing, JSON decoding (a payload that does not decode is one `Malformed` command), discovery, WebSocket, logging and audit.
- The events table, appointment versions and update timestamps; 64-bit overflow of terms and indexes.
- Matching of error texts is by error kind, so a payload whose text contains a matched phrase is not distinguished.
- The group service, invitations through the service, agenda queries and the other reconcilers, whose audit paging is newest-first.
