/** What each handler answers and what it leaves behind, in every case, in terms of terms, votes and logs. */
module Handlers {
  import opened Types
  import opened LogModel
  import opened NodeModel
  import CommitRule
  import Splice

  type Entries = seq<LogEntry>

  // ---------------------------------------------------------------------
  // Terms
  // ---------------------------------------------------------------------

  /** The parts of a node that no message about terms and votes touches. */
  ghost predicate SameData(n: Node, n': Node) {
    && n'.log == n.log && n'.commitIndex == n.commitIndex && n'.lastApplied == n.lastApplied
    && n'.store == n.store && n'.snapshotData == n.snapshotData
  }

  /** The node has stepped down to term `t`: a follower without vote or leader maps, and saved as such. */
  ghost predicate SteppedDown(n': Node, t: nat) {
    n'.role == Follower && n'.currentTerm == t && n'.votedFor == NO_NODE && n'.leader.None? && n'.meta == Meta(t, NO_NODE)
  }

  /** A newer term is taken over by stepping down; otherwise role, vote and maps stay. */
  ghost predicate Observed(n: Node, n': Node, t: nat) {
    if t > n.currentTerm then SteppedDown(n', t)
    else
      && n'.role == n.role && n'.currentTerm == n.currentTerm && n'.leader == n.leader
      && n'.votedFor == n.votedFor && n'.meta == n.meta
  }

  // ---------------------------------------------------------------------
  // Votes
  // ---------------------------------------------------------------------

  /** (term, index) of one log end is lexicographically at least that of another. */
  predicate EndsNoEarlier(term: nat, index: nat, term': nat, index': nat) {
    term > term' || (term == term' && index >= index')
  }

  ghost predicate MayVoteFor(n: Node, term: nat, candidate: NodeID) {
    term > n.currentTerm || (term == n.currentTerm && (n.votedFor == NO_NODE || n.votedFor == candidate))
  }

  /** When a vote is granted, what the reply says and what the voter is left with. */
  lemma VoteLaw(v: NodeID, n: Node, req: VoteRequest, ys: Entries)
    requires n.log == FromSeq(ys)
    ensures var (n', resp) := HandleVote(v, n, req);
            && (resp.voteGranted <==>
                  && MayVoteFor(n, req.term, req.candidateId)
                  && EndsNoEarlier(req.lastLogTerm, req.lastLogIndex, LastTermOf(ys), |ys|))
            && resp.term == n'.currentTerm == Max(n.currentTerm, req.term) && resp.voterId == v
            && SameData(n, n') && n'.leaderID == n.leaderID && n'.election == n.election
            && (req.term < n.currentTerm ==> n' == n)
            && (!resp.voteGranted ==> Observed(n, n', req.term))
            && (resp.voteGranted ==>
                  && n'.votedFor == req.candidateId && n'.meta == Meta(req.term, req.candidateId)
                  && (if req.term > n.currentTerm then n'.role == Follower && n'.leader.None?
                      else n'.role == n.role && n'.leader == n.leader))
  {
    FromSeqReads(ys);
  }

  /** Between any two contiguous logs at least one owner votes for the other in a new term. */
  lemma OneWouldVote(v: NodeID, n: Node, xs: Entries, w: NodeID, m: Node, ys: Entries, t: nat)
    requires n.log == FromSeq(xs) && m.log == FromSeq(ys) && t > n.currentTerm && t > m.currentTerm
    ensures || HandleVote(v, n, VoteRequest(t, w, |ys|, LastTermOf(ys))).1.voteGranted
            || HandleVote(w, m, VoteRequest(t, v, |xs|, LastTermOf(xs))).1.voteGranted
  {
    VoteLaw(v, n, VoteRequest(t, w, |ys|, LastTermOf(ys)), xs);
    VoteLaw(w, m, VoteRequest(t, v, |xs|, LastTermOf(xs)), ys);
  }

  /** A candidate that reads a reply of a later term steps down to it and counts nothing; it does not lead
      when that election ends. Any other reply changes nothing but the count. */
  lemma VoteReplyLaw(v: NodeID, peers: set<NodeID>, n: Node, resp: VoteResponse)
    requires n.election.Some?
    ensures var n', e := HandleVoteReply(n, resp), n.election.value;
            && Observed(n, n', resp.term) && SameData(n, n') && n'.leaderID == n.leaderID
            && n'.election == Some(Election(e.term, e.waiting - {resp.voterId},
                 if resp.term <= n.currentTerm && resp.voteGranted then e.granted + {resp.voterId} else e.granted))
            && (resp.term > n.currentTerm ==> FinishElection(v, peers, n').role == Follower)
  {
  }

  /** A node that stands does so for the next term with its own vote, saved, asks every peer, and tells them
      how its log ends. */
  lemma StandLaw(v: NodeID, peers: set<NodeID>, n: Node, ys: Entries)
    requires n.log == FromSeq(ys)
    ensures var n' := StartElection(v, peers, n);
            && n'.role == Candidate && n'.currentTerm == n.currentTerm + 1
            && n'.votedFor == v && n'.meta == Meta(n'.currentTerm, v)
            && n'.election == Some(Election(n'.currentTerm, peers, {}))
            && SameData(n, n') && n'.leaderID == n.leaderID && n'.leader == n.leader
            && Campaign(v, n') == VoteRequest(n.currentTerm + 1, v, |ys|, LastTermOf(ys))
  {
    FromSeqReads(ys);
  }

  /** At the end of an election the node leads exactly if it is still a candidate, somebody granted it a vote
      and the votes with its own are more than half the number of its peers. It then adds a no-op of its
      term, means to send every peer what follows its log, and counts nothing as held. */
  lemma ElectionEndLaw(v: NodeID, peers: set<NodeID>, n: Node, ys: Entries)
    requires n.log == FromSeq(ys) && n.election.Some?
    ensures var n', granted := FinishElection(v, peers, n), n.election.value.granted;
            if n.role == Candidate && granted != {} && 2 * (1 + |granted|) > |peers| then
              && n'.role == Leader && n'.leaderID == v && n'.log == FromSeq(ys + [LogEntry(|ys| + 1, n.currentTerm, NOOP)])
              && n'.leader.Some? && n'.leader.value.nextIndex.Keys == n'.leader.value.matchIndex.Keys == peers
              && (forall p :: p in peers ==> n'.leader.value.nextIndex[p] == |ys| + 1 && n'.leader.value.matchIndex[p] == 0)
              && n' == n.(role := Leader, leaderID := v, log := n'.log, leader := n'.leader, election := None)
            else n' == n.(election := None)
  {
    FromSeqReads(ys);
    FromSeqAppend(ys, LogEntry(|ys| + 1, n.currentTerm, NOOP));
  }

  // ---------------------------------------------------------------------
  // Entries
  // ---------------------------------------------------------------------

  /** A leader adds a command after its last entry, in its term; any other node ignores it. */
  lemma ProposeLaw(n: Node, c: Command, ys: Entries)
    requires n.log == FromSeq(ys)
    ensures var n' := Propose(n, c);
            && n' == n.(log := n'.log)
            && n'.log == FromSeq(if n.role == Leader then ys + [LogEntry(|ys| + 1, n.currentTerm, c)] else ys)
  {
    FromSeqReads(ys);
    FromSeqAppend(ys, LogEntry(|ys| + 1, n.currentTerm, c));
  }

  /** A leader sends a peer the entries from its next index to the end of the log, with the term just before
      them and its commit index; to a peer whose next index lies beyond the end it names no term. */
  lemma SendLaw(v: NodeID, n: Node, p: NodeID, ys: Entries)
    requires n.log == FromSeq(ys) && (n.role == Leader ==> n.leader.Some?)
    ensures var req := MakeAppend(v, n, p);
            && (req.Some? <==> n.role == Leader && Lookup(n.leader.value.nextIndex, p) >= 1)
            && (req.Some? ==>
                  var next := Lookup(n.leader.value.nextIndex, p);
                  && req.value.term == n.currentTerm && req.value.leaderId == v && req.value.leaderCommit == n.commitIndex
                  && req.value.prevLogIndex == next - 1
                  && (if next <= |ys| + 1 then req.value.entries == ys[next - 1..] && req.value.prevLogTerm == TermOf(ys, next - 1)
                      else req.value.entries == [] && req.value.prevLogTerm == 0))
  {
    FromSeqReads(ys);
    if n.role == Leader {
      var next := Lookup(n.leader.value.nextIndex, p);
      if 1 <= next <= |ys| + 1 {
        FromSeqRange(ys, next, |ys|);
        assert ys[next - 1..|ys|] == ys[next - 1..];
      }
    }
  }

  /** The request is not of an older term, and agrees with the log `ys` at the point it probes. */
  ghost predicate Agreed(n: Node, req: AppendRequest, ys: Entries) {
    && req.term >= n.currentTerm && req.prevLogIndex <= |ys|
    && (req.prevLogIndex == 0 || ys[req.prevLogIndex - 1].term == req.prevLogTerm)
  }

  /** Every reply carries the node's term after the step, the greater of its own and the request's. A request
      of an older term changes nothing; any other makes its sender the known leader. */
  lemma AppendLaw(variant: Variant, v: NodeID, n: Node, req: AppendRequest, ys: Entries)
    requires n.log == FromSeq(ys)
    ensures var (n', resp) := HandleAppend(variant, v, n, req);
            && resp.term == n'.currentTerm == Max(n.currentTerm, req.term) && resp.followerId == v
            && (resp.success <==> Agreed(n, req, ys))
            && (req.term < n.currentTerm ==> n' == n && resp.conflictIndex == 0)
            && (req.term >= n.currentTerm ==> Observed(n, n', req.term) && n'.leaderID == req.leaderId)
            && n'.lastApplied == n.lastApplied && n'.store == n.store
            && n'.snapshotData == n.snapshotData && n'.election == n.election
            && (!resp.success ==> SameData(n, n') && resp.matchIndex == 0)
            && (!resp.success && req.term >= n.currentTerm ==>
                  resp.conflictIndex > 0 && resp.conflictTerm == TermOf(ys, req.prevLogIndex))
  {
    FromSeqReads(ys);
    HintPositive(FromSeq(ys), req.prevLogIndex, TermOf(ys, req.prevLogIndex));
  }

  lemma {:induction false} HintPositive(l: Log, p: nat, term: nat)
    ensures p > 0 ==> ConflictStart(l, p, term) > 0
  {
    if p > l.snapshot.index + 1 && TermAt(l, p - 1) == term { HintPositive(l, p - 1, term); }
  }

  /** What an accepted request leaves: the merged log, reported in full, and a commit index that moves to what
      the leader had committed of the entries the request covers. */
  lemma AcceptLaw(variant: Variant, v: NodeID, n: Node, req: AppendRequest, ys: Entries)
    requires variant.rereadTerm && n.log == FromSeq(ys) && Splice.PositiveTerms(ys)
    requires Indexed(req.entries, req.prevLogIndex + 1) && Agreed(n, req, ys)
    ensures var (n', resp) := HandleAppend(variant, v, n, req);
            var zs := Splice.Merge(ys, req.prevLogIndex, req.entries);
            var reach := req.prevLogIndex + |req.entries|;
            && n'.log == FromSeq(zs) && resp.matchIndex == |zs| >= reach
            && n'.commitIndex == Max(n.commitIndex, Min(req.leaderCommit, reach))
  {
    FromSeqReads(ys);
    Splice.IntendedIsMerge(ys, req.prevLogIndex, req.entries);
    FromSeqReads(Splice.Merge(ys, req.prevLogIndex, req.entries));
  }

  /** A leader that reads a reply of a later term is from then on a follower of exactly that term, and
      nothing else of it changes. A node that does not lead, or checks terms and reads a reply to a request
      of another term, ignores the reply. A used refusal moves one next index only, to the hint, or else
      one back but not below 1; a used success moves one peer's indices and may commit. */
  lemma AppendReplyLaw(variant: Variant, n: Node, req: AppendRequest, resp: AppendResponse)
    requires n.role == Leader ==> n.leader.Some?
    ensures var n' := HandleAppendReply(variant, n, req, resp);
            && n'.log == n.log && n'.lastApplied == n.lastApplied && n'.store == n.store
            && n'.snapshotData == n.snapshotData && n'.leaderID == n.leaderID && n'.election == n.election
            && (n.role != Leader ==> n' == n)
            && (n.role == Leader && resp.term > n.currentTerm ==> SteppedDown(n', resp.term) && n'.commitIndex == n.commitIndex)
            && (n.role == Leader && resp.term <= n.currentTerm ==> Observed(n, n'.(leader := n.leader), resp.term))
            && (variant.checkReplyTerm && resp.term <= n.currentTerm != req.term ==> n' == n)
  {
  }

  /** What a reply that the leader uses does to its bookkeeping. */
  lemma UsedReplyLaw(variant: Variant, n: Node, req: AppendRequest, resp: AppendResponse)
    requires n.role == Leader && n.leader.Some? && resp.term <= n.currentTerm
    requires variant.checkReplyTerm ==> n.currentTerm == req.term
    ensures var n' := HandleAppendReply(variant, n, req, resp);
            n'.leader.Some? &&
            var ls, ls', p := n.leader.value, n'.leader.value, resp.followerId;
            && (forall q :: q != p ==> Lookup(ls'.nextIndex, q) == Lookup(ls.nextIndex, q))
            && (forall q :: q != p ==> Lookup(ls'.matchIndex, q) == Lookup(ls.matchIndex, q))
            && (resp.success ==>
                  && Lookup(ls'.matchIndex, p) == Max(Lookup(ls.matchIndex, p), resp.matchIndex)
                  && Lookup(ls'.nextIndex, p) == Lookup(ls'.matchIndex, p) + 1 && n'.commitIndex >= n.commitIndex)
            && (!resp.success ==>
                  && ls'.matchIndex == ls.matchIndex && n'.commitIndex == n.commitIndex
                  && Lookup(ls'.nextIndex, p) ==
                     (if resp.conflictIndex > 0 then resp.conflictIndex
                      else if Lookup(ls.nextIndex, p) > 1 then Lookup(ls.nextIndex, p) - 1 else Lookup(ls.nextIndex, p)))
  {
    if resp.success {
      var m := Max(Lookup(n.leader.value.matchIndex, resp.followerId), resp.matchIndex);
      CommitRule.ScanIsGreatest(n.leader.value.matchIndex[resp.followerId := m], n.commitIndex, LastIndex(n.log), n.currentTerm, n.log);
    }
  }

  // ---------------------------------------------------------------------
  // Snapshots
  // ---------------------------------------------------------------------

  /** A snapshot is installed exactly when the request is not of an older term and its data decodes. An older
      request changes nothing; one that does not decode changes at most term, vote, role, maps and the
      leader's name. The reply carries the term from before the step. */
  lemma SnapshotLaw(v: NodeID, n: Node, req: SnapshotRequest)
    ensures var (n', resp) := HandleSnapshot(v, n, req);
            && (resp.success <==> req.term >= n.currentTerm && req.data.Encoded?)
            && resp.term == n.currentTerm && resp.followerId == v && n'.election == n.election
            && (req.term < n.currentTerm ==> n' == n)
            && (req.term >= n.currentTerm ==> Observed(n, n', req.term) && n'.leaderID == req.leaderId)
            && (!resp.success ==> SameData(n, n'))
            && (resp.success ==> Installed(n, n', req))
  {
  }

  /** The data is the node's store and its snapshot, both indices are the snapshot's, and of the log exactly
      the entries above it are left, with the boundary saved and not yet known in memory. */
  ghost predicate Installed(n: Node, n': Node, req: SnapshotRequest) {
    && req.data == Encoded(n'.store) == n'.snapshotData
    && n'.commitIndex == n'.lastApplied == req.lastIncludedIndex
    && (forall k :: k in n'.log.entries <==> k in n.log.entries && k > req.lastIncludedIndex)
    && (forall k :: k in n'.log.entries ==> n'.log.entries[k] == n.log.entries[k])
    && n'.log.saved == Boundary(req.lastIncludedIndex, req.lastIncludedTerm) && n'.log.snapshot == n.log.snapshot
  }

  /** A node that takes a snapshot keeps the data it was given, drops the entries up to the index and saves the
      boundary, which memory does not learn; nothing else changes. */
  lemma TakeSnapshotLaw(n: Node, index: nat, term: nat, data: Store)
    ensures var n' := TakeSnapshot(n, index, term, data);
            && n'.snapshotData == Encoded(data) && n' == n.(log := n'.log, snapshotData := n'.snapshotData)
            && (forall k :: k in n'.log.entries <==> k in n.log.entries && k > index)
            && (forall k :: k in n'.log.entries ==> n'.log.entries[k] == n.log.entries[k])
            && n'.log.saved == Boundary(index, term) && n'.log.snapshot == n.log.snapshot
  {
  }

  /** A restarted node is a follower that knows no leader, has the term and vote it saved, the entries it
      stored with the boundary it saved, nothing committed or applied, and its store if that survives. */
  lemma RestartLaw(n: Node, keepStore: bool)
    ensures var n' := Restart(n, keepStore);
            && n'.role == Follower && n'.leader.None? && n'.election.None? && n'.leaderID == NO_NODE
            && Meta(n'.currentTerm, n'.votedFor) == n'.meta == n.meta
            && n'.log.entries == n.log.entries && n'.log.snapshot == n'.log.saved == n.log.saved
            && n'.commitIndex == n'.lastApplied == 0 && n'.snapshotData == Malformed
            && n'.store == if keepStore then n.store else map[]
  {
  }
}
