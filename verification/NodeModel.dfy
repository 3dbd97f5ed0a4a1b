/** One node of the cluster as a value, and what each critical section of the code does to it. */
module NodeModel {
  import opened Types
  import opened LogModel
  import opened StateMachine

  /** Where the code departs from what it is meant to do.
      `rereadTerm`: the splice loop reads the term again after truncating.
      `checkReplyTerm`: a reply is used only in the term its request was sent in. */
  datatype Variant = Variant(rereadTerm: bool, checkReplyTerm: bool)

  const WRITTEN := Variant(false, false)
  const INTENDED := Variant(true, true)

  datatype Meta = Meta(term: nat, votedFor: NodeID)

  datatype LeaderState = LeaderState(nextIndex: map<NodeID, nat>, matchIndex: map<NodeID, nat>)

  /** An election whose replies are still being collected; `waiting` are the peers yet to answer. */
  datatype Election = Election(term: nat, waiting: set<NodeID>, granted: set<NodeID>)

  datatype Node = Node(
    currentTerm: nat, votedFor: NodeID, meta: Meta, log: Log,
    role: Role, commitIndex: nat, lastApplied: nat, leaderID: NodeID,
    leader: Option<LeaderState>, election: Option<Election>,
    store: Store, snapshotData: SnapshotData)

  const FRESH := Node(0, NO_NODE, Meta(0, NO_NODE), EMPTY, Follower, 0, 0, NO_NODE, None, None, map[], Malformed)

  function BecomeFollower(n: Node, term: nat): Node {
    n.(role := Follower, currentTerm := term, votedFor := NO_NODE, leader := None, meta := Meta(term, NO_NODE))
  }

  /** Step down if `term` is newer. */
  function Observe(n: Node, term: nat): Node {
    if term > n.currentTerm then BecomeFollower(n, term) else n
  }

  // ---------------------------------------------------------------------
  // Elections
  // ---------------------------------------------------------------------

  /** Votes needed, counted against the peers only. */
  function ElectionQuorum(peers: nat): nat {
    peers / 2 + 1
  }

  /** The win is signalled while handling a granted reply, so at least one is needed. */
  predicate Won(e: Election, peers: nat) {
    e.granted != {} && 1 + |e.granted| >= ElectionQuorum(peers)
  }

  ghost function StartElection(self: NodeID, peers: set<NodeID>, n: Node): Node {
    n.(role := Candidate, currentTerm := n.currentTerm + 1, votedFor := self,
       meta := Meta(n.currentTerm + 1, self),
       election := Some(Election(n.currentTerm + 1, peers, {})))
  }

  ghost function Campaign(self: NodeID, n: Node): VoteRequest {
    VoteRequest(n.currentTerm, self, LastIndex(n.log), LastTerm(n.log))
  }

  ghost predicate UpToDate(req: VoteRequest, l: Log) {
    req.lastLogTerm > LastTerm(l) || (req.lastLogTerm == LastTerm(l) && req.lastLogIndex >= LastIndex(l))
  }

  ghost function HandleVote(self: NodeID, n0: Node, req: VoteRequest): (Node, VoteResponse) {
    if req.term < n0.currentTerm then (n0, VoteResponse(n0.currentTerm, false, self)) else
      var n := Observe(n0, req.term);
      if (n.votedFor != NO_NODE && n.votedFor != req.candidateId) || !UpToDate(req, n.log) then
        (n, VoteResponse(n.currentTerm, false, self))
      else
        (n.(votedFor := req.candidateId, meta := Meta(n.currentTerm, req.candidateId)),
         VoteResponse(n.currentTerm, true, self))
  }

  function HandleVoteReply(n: Node, resp: VoteResponse): Node {
    if n.election.None? then n else
      var e := n.election.value;
      var e1 := e.(waiting := e.waiting - {resp.voterId});
      if resp.term > n.currentTerm then
        BecomeFollower(n, resp.term).(election := Some(e1))
      else if resp.voteGranted then
        n.(election := Some(e1.(granted := e.granted + {resp.voterId})))
      else
        n.(election := Some(e1))
  }

  ghost function NewLeaderState(peers: set<NodeID>, lastIndex: nat): LeaderState {
    LeaderState(Filled(peers, lastIndex + 1), Filled(peers, 0))
  }

  ghost function BecomeLeader(self: NodeID, peers: set<NodeID>, n: Node): Node {
    if n.role != Candidate then n else
      n.(role := Leader, leaderID := self,
         leader := Some(NewLeaderState(peers, LastIndex(n.log))),
         log := Append(n.log, LogEntry(LastIndex(n.log) + 1, n.currentTerm, NOOP)))
  }

  /** All vote calls have returned or failed. */
  ghost function FinishElection(self: NodeID, peers: set<NodeID>, n: Node): Node {
    if n.election.None? then n else
      var n1 := n.(election := None);
      if Won(n.election.value, |peers|) then BecomeLeader(self, peers, n1) else n1
  }

  // ---------------------------------------------------------------------
  // Replication
  // ---------------------------------------------------------------------

  ghost function Propose(n: Node, c: Command): Node {
    if n.role != Leader then n else
      n.(log := Append(n.log, LogEntry(LastIndex(n.log) + 1, n.currentTerm, c)))
  }

  /** The request for `peer`, unless this node does not lead or must send a snapshot instead. */
  ghost function MakeAppend(self: NodeID, n: Node, peer: NodeID): Option<AppendRequest> {
    if n.role != Leader || n.leader.None? then None else
      var next := Lookup(n.leader.value.nextIndex, peer);
      if next <= n.log.snapshot.index then None else
        Some(AppendRequest(n.currentTerm, self, next - 1, TermAt(n.log, next - 1),
                           GetRange(n.log, next, LastIndex(n.log)), n.commitIndex))
  }

  /** The first index, going back from `i`, of the run of entries with term `term`. */
  function ConflictStart(l: Log, i: nat, term: nat): nat {
    if i > l.snapshot.index + 1 && TermAt(l, i - 1) == term then ConflictStart(l, i - 1, term) else i
  }

  /** The entries of a request, one by one, the first of them at index `prev + 1`. */
  function Splice(reread: bool, l: Log, prev: nat, entries: seq<LogEntry>): Log
    decreases |entries|
  {
    if entries == [] then l else
      var existing := TermAt(l, prev + 1);
      var l1 := if existing != 0 && existing != entries[0].term then TruncateFrom(l, prev + 1) else l;
      var found := if reread then TermAt(l1, prev + 1) else existing;
      var l2 := if found == 0 then Append(l1, entries[0]) else l1;
      Splice(reread, l2, prev + 1, entries[1..])
  }

  ghost function HandleAppend(v: Variant, self: NodeID, n0: Node, req: AppendRequest): (Node, AppendResponse) {
    if req.term < n0.currentTerm then (n0, AppendResponse(n0.currentTerm, false, self, 0, 0, 0)) else
      var n := Observe(n0, req.term).(leaderID := req.leaderId);
      if req.prevLogIndex > LastIndex(n.log) then
        (n, AppendResponse(n.currentTerm, false, self, 0, LastIndex(n.log) + 1, 0))
      else if req.prevLogIndex > 0 && TermAt(n.log, req.prevLogIndex) != req.prevLogTerm then
        var prevTerm := TermAt(n.log, req.prevLogIndex);
        (n, AppendResponse(n.currentTerm, false, self, 0, ConflictStart(n.log, req.prevLogIndex, prevTerm), prevTerm))
      else
        var l := Splice(v.rereadTerm, n.log, req.prevLogIndex, req.entries);
        var commit := Min(req.leaderCommit, req.prevLogIndex + |req.entries|);
        (n.(log := l, commitIndex := Max(n.commitIndex, commit)),
         AppendResponse(n.currentTerm, true, self, LastIndex(l), 0, 0))
  }

  /** Peers known to hold index `i`. */
  function Holders(match_: map<NodeID, nat>, i: nat): set<NodeID> {
    set p | p in match_ && match_[p] >= i
  }

  /** The leader counts itself among the cluster. */
  function CommitMajority(peers: nat): nat {
    (peers + 1) / 2 + 1
  }

  /** The downward scan for a committable index, from `i` to just above `commit`. */
  function CommitScan(match_: map<NodeID, nat>, commit: nat, i: nat, term: nat, l: Log): nat {
    if i <= commit then 0
    else if TermAt(l, i) == term && 1 + |Holders(match_, i)| >= CommitMajority(|match_|) then i
    else CommitScan(match_, commit, i - 1, term, l)
  }

  ghost function HandleAppendReply(v: Variant, n: Node, req: AppendRequest, resp: AppendResponse): Node {
    if n.role != Leader || n.leader.None? then n
    else if resp.term > n.currentTerm then BecomeFollower(n, resp.term)
    else if v.checkReplyTerm && n.currentTerm != req.term then n
    else
      var ls := n.leader.value;
      var p := resp.followerId;
      if resp.success then
        var m := Max(Lookup(ls.matchIndex, p), resp.matchIndex);
        var ls1 := LeaderState(ls.nextIndex[p := m + 1], ls.matchIndex[p := m]);
        var found := CommitScan(ls1.matchIndex, n.commitIndex, LastIndex(n.log), n.currentTerm, n.log);
        n.(leader := Some(ls1), commitIndex := if found > 0 then found else n.commitIndex)
      else if resp.conflictIndex > 0 then
        n.(leader := Some(ls.(nextIndex := ls.nextIndex[p := resp.conflictIndex])))
      else if Lookup(ls.nextIndex, p) > 1 then
        n.(leader := Some(ls.(nextIndex := ls.nextIndex[p := Lookup(ls.nextIndex, p) - 1])))
      else n
  }

  // ---------------------------------------------------------------------
  // Applying, snapshots and restarting
  // ---------------------------------------------------------------------

  /** `lastApplied` moves before the entry is read, so a missing entry is passed over and ends the loop. */
  function ApplyCommitted(n: Node): Node
    decreases n.commitIndex - n.lastApplied
  {
    if n.lastApplied >= n.commitIndex then n else
      var i := n.lastApplied + 1;
      if i !in n.log.entries then n.(lastApplied := i)
      else ApplyCommitted(n.(lastApplied := i, store := ApplyCommand(n.store, n.log.entries[i].command).store))
  }

  function HandleSnapshot(self: NodeID, n0: Node, req: SnapshotRequest): (Node, SnapshotResponse) {
    if req.term < n0.currentTerm then (n0, SnapshotResponse(n0.currentTerm, self, false)) else
      var n := Observe(n0, req.term).(leaderID := req.leaderId);
      if req.data.Malformed? then (n, SnapshotResponse(n0.currentTerm, self, false)) else
        (n.(store := req.data.store, log := Compact(n.log, req.lastIncludedIndex, req.lastIncludedTerm),
            commitIndex := req.lastIncludedIndex, lastApplied := req.lastIncludedIndex,
            snapshotData := req.data),
         SnapshotResponse(n0.currentTerm, self, true))
  }

  /** The data was read before the lock was taken, so it comes from outside. */
  function TakeSnapshot(n: Node, index: nat, term: nat, data: Store): Node {
    n.(log := Compact(n.log, index, term), snapshotData := Encoded(data))
  }

  /** A new process over the same disk; the in-memory engine loses its contents. */
  function Restart(n: Node, keepStore: bool): Node {
    FRESH.(currentTerm := n.meta.term, votedFor := n.meta.votedFor, meta := n.meta,
           log := Reopen(n.log), store := if keepStore then n.store else map[])
  }
}
