/** A node as the object the code keeps. Each critical section is a method, tied to the step function
    that the cluster is built from. */
module RaftNode {
  import opened Types
  import opened IndexKeys
  import opened NodeModel
  import opened LeaderMaps
  import opened MemoryEngine
  import opened StateMachine
  import Log = LogModel
  import RaftLog

  datatype Proposal = Accepted(index: nat) | NotLeader(leaderID: NodeID)

  ghost predicate Distinct(peers: seq<NodeID>) {
    forall i, j :: 0 <= i < j < |peers| ==> peers[i] != peers[j]
  }

  /** The other nodes; none is listed twice. */
  type Peers = ps: seq<NodeID> | Distinct(ps)

  lemma {:induction false} CountNames(peers: seq<NodeID>)
    requires Distinct(peers)
    ensures |Names(peers)| == |peers|
  {
    if peers != [] {
      var front, last := peers[..|peers| - 1], peers[|peers| - 1];
      CountNames(front);
      assert last !in Names(front);
      forall p ensures p in Names(peers) <==> p in Names(front) + {last} {
        if p in Names(peers) {
          var i :| 0 <= i < |peers| && peers[i] == p;
          assert i < |front| ==> front[i] == p;
        }
        if p in Names(front) {
          var i :| 0 <= i < |front| && front[i] == p;
          assert peers[i] == p;
        }
      }
      assert Names(peers) == Names(front) + {last};
    }
  }

  // ---------------------------------------------------------------------
  // The loops of the AppendEntries handler
  // ---------------------------------------------------------------------

  /** The search for the first index of the conflicting term. */
  method ConflictIndex(log: RaftLog.RaftLog, prev: nat, prevTerm: nat) returns (i: nat)
    requires log.Valid() && prev < INDEX_LIMIT
    ensures i == ConflictStart(log.View(), prev, prevTerm)
  {
    ghost var l := log.View();
    i := prev;
    while i > log.snapshotIndex + 1
      invariant i <= prev && ConflictStart(l, i, prevTerm) == ConflictStart(l, prev, prevTerm)
    {
      var before := log.TermAt(i - 1);
      if before != prevTerm { break; }
      i := i - 1;
    }
  }

  /** One round of the entry loop. */
  method SpliceEntry(log: RaftLog.RaftLog, reread: bool, idx: nat, entry: LogEntry)
    requires log.Valid() && 0 < idx < INDEX_LIMIT && entry.index < INDEX_LIMIT
    modifies log
    ensures log.Valid() && log.Meta() == old(log.Meta())
    ensures log.View() == Splice(reread, old(log.View()), idx - 1, [entry])
  {
    var existingTerm := log.TermAt(idx);
    if existingTerm != 0 && existingTerm != entry.term {
      log.TruncateFrom(idx);
      if reread { existingTerm := log.TermAt(idx); }
    }
    if existingTerm == 0 {
      log.Append(entry);
    }
  }

  lemma SpliceStep(reread: bool, l: Log.Log, prev: nat, entries: seq<LogEntry>, i: nat)
    requires i < |entries|
    ensures Splice(reread, l, prev, entries[i..]) ==
            Splice(reread, Splice(reread, l, prev, [entries[i]]), prev + 1, entries[i + 1..])
  {
    assert entries[i..][1..] == entries[i + 1..] && [entries[i]][1..] == [];
  }

  /** The entry loop: truncate at a conflict, append what is missing. */
  method SpliceEntries(log: RaftLog.RaftLog, reread: bool, prev: nat, entries: seq<LogEntry>)
    requires log.Valid() && prev + |entries| < INDEX_LIMIT
    requires forall i :: 0 <= i < |entries| ==> entries[i].index < INDEX_LIMIT
    modifies log
    ensures log.Valid() && log.Meta() == old(log.Meta())
    ensures log.View() == Splice(reread, old(log.View()), prev, entries)
  {
    ghost var first := log.View();
    ghost var l := first;
    for i := 0 to |entries|
      invariant log.Valid() && log.Meta() == old(log.Meta()) && l == log.View()
      invariant Splice(reread, l, prev + i, entries[i..]) == Splice(reread, first, prev, entries)
    {
      SpliceStep(reread, l, prev + i, entries, i);
      SpliceEntry(log, reread, prev + i + 1, entries[i]);
      l := log.View();
    }
  }

  class RaftNode {
    const id: NodeID
    const peers: Peers
    const variant: Variant
    const raftLog: RaftLog.RaftLog
    const storage: MemoryEngine
    var currentTerm: nat
    var votedFor: NodeID
    var state: Role
    var commitIndex: nat
    var lastApplied: nat
    var leaderID: NodeID
    var leader: LeaderMaps.LeaderState?
    var snapshotData: SnapshotData
    // The election in progress: the calls still out, the votes counted and whether the win was signalled.
    var election: Option<Election>
    var votes: nat
    var won: bool

    ghost predicate Valid()
      reads this, raftLog
    {
      && raftLog.Valid()
      && (state == Leader ==> leader != null)
      && (election.Some? ==>
            && election.value.waiting !! election.value.granted
            && votes == 1 + |election.value.granted|
            && won == Won(election.value, |peers|))
    }

    ghost function Bookkeeping(): Option<NodeModel.LeaderState>
      reads this, leader
    {
      if leader == null then None else Some(leader.View())
    }

    /** The node as the model reads it. */
    ghost function View(): Node
      reads this, raftLog, storage, leader
    {
      Node(currentTerm, votedFor, raftLog.Meta(), raftLog.View(), state, commitIndex, lastApplied, leaderID,
           Bookkeeping(), election, storage.data, snapshotData)
    }

    /** Opening a node over a disk: term and vote are read back, everything else starts afresh. */
    constructor (id: NodeID, peers: Peers, variant: Variant, disk: RaftLog.Disk, engine: MemoryEngine)
      requires RaftLog.KeysOk(disk.log)
      ensures Valid() && fresh(raftLog) && storage == engine
      ensures this.id == id && this.peers == peers && this.variant == variant
      ensures var boundary := RaftLog.SavedBoundary(disk);
              var meta := RaftLog.SavedMeta(disk);
              View() == FRESH.(currentTerm := meta.term, votedFor := meta.votedFor, meta := meta,
                               log := Log.Log(RaftLog.ByIndex(disk.log), boundary, boundary), store := engine.data)
    {
      this.id, this.peers, this.variant, this.storage := id, peers, variant, engine;
      var log := new RaftLog.RaftLog(disk);
      var term, vote := log.LoadMeta();
      raftLog, currentTerm, votedFor := log, term, vote;
      state, commitIndex, lastApplied, leaderID := Follower, 0, 0, NO_NODE;
      leader, snapshotData := null, Malformed;
      election, votes, won := None, 0, false;
    }

    method BecomeFollower(term: nat)
      requires Valid()
      modifies this, raftLog
      ensures Valid() && leader == null && View() == NodeModel.BecomeFollower(old(View()), term)
    {
      state, currentTerm, votedFor, leader := Follower, term, NO_NODE, null;
      raftLog.SaveMeta(currentTerm, votedFor);
    }

    /** Step down if `term` is newer. */
    method Observe(term: nat)
      requires Valid()
      modifies this, raftLog
      ensures Valid() && leader in {old(leader), null} && View() == NodeModel.Observe(old(View()), term)
    {
      if term > currentTerm { BecomeFollower(term); }
    }

    // -------------------------------------------------------------------
    // Elections
    // -------------------------------------------------------------------

    method HandleRequestVote(req: VoteRequest) returns (resp: VoteResponse)
      requires Valid()
      modifies this, raftLog
      ensures Valid() && (View(), resp) == NodeModel.HandleVote(id, old(View()), req)
    {
      if req.term < currentTerm {
        return VoteResponse(currentTerm, false, id);
      }
      Observe(req.term);
      if votedFor != NO_NODE && votedFor != req.candidateId {
        return VoteResponse(currentTerm, false, id);
      }
      var myLastIndex := raftLog.LastIndex();
      var myLastTerm := raftLog.LastTerm();
      if !(req.lastLogTerm > myLastTerm || (req.lastLogTerm == myLastTerm && req.lastLogIndex >= myLastIndex)) {
        return VoteResponse(currentTerm, false, id);
      }
      votedFor := req.candidateId;
      raftLog.SaveMeta(currentTerm, votedFor);
      resp := VoteResponse(currentTerm, true, id);
    }

    /** The first critical section of an election, and the request that goes out after it. */
    method StartElection() returns (req: VoteRequest)
      requires Valid()
      modifies this, raftLog
      ensures Valid() && View() == NodeModel.StartElection(id, Names(peers), old(View()))
      ensures req == Campaign(id, View())
    {
      Stand();
      var lastIndex := raftLog.LastIndex();
      var lastTerm := raftLog.LastTerm();
      req := VoteRequest(currentTerm, id, lastIndex, lastTerm);
    }

    method Stand()
      requires Valid()
      modifies this, raftLog
      ensures Valid() && View() == NodeModel.StartElection(id, Names(peers), old(View()))
    {
      OpenElection(currentTerm + 1);
      state, currentTerm, votedFor := Candidate, currentTerm + 1, id;
      raftLog.SaveMeta(currentTerm, votedFor);
    }

    /** A call to every peer goes out; the node's own vote is counted. */
    method OpenElection(term: nat)
      requires Valid()
      modifies `election, `votes, `won
      ensures Valid() && election == Some(Election(term, Names(peers), {}))
    {
      election, votes, won := Some(Election(term, Names(peers), {})), 1, false;
    }

    /** The reply of a peer that was still to answer. */
    method OnVoteReply(resp: VoteResponse)
      requires Valid() && election.Some? && resp.voterId in election.value.waiting
      modifies this, raftLog
      ensures Valid() && View() == HandleVoteReply(old(View()), resp)
    {
      var e := election.value.(waiting := election.value.waiting - {resp.voterId});
      election := Some(e);
      if resp.term > currentTerm {
        BecomeFollower(resp.term);
        return;
      }
      if !resp.voteGranted { return; }
      election := Some(e.(granted := e.granted + {resp.voterId}));
      votes := votes + 1;
      if votes >= |peers| / 2 + 1 { won := true; }
    }

    method BecomeLeader()
      requires Valid() && Log.LastIndex(raftLog.View()) + 1 < INDEX_LIMIT
      modifies this, raftLog
      ensures Valid() && View() == NodeModel.BecomeLeader(id, Names(peers), old(View()))
    {
      if state != Candidate { return; }
      var last := raftLog.LastIndex();
      state, leaderID := Leader, id;
      leader := new LeaderMaps.LeaderState(peers, last);
      raftLog.Append(LogEntry(last + 1, currentTerm, NOOP));
    }

    /** All vote calls have returned or failed. */
    method FinishElection()
      requires Valid() && Log.LastIndex(raftLog.View()) + 1 < INDEX_LIMIT
      modifies this, raftLog
      ensures Valid() && View() == NodeModel.FinishElection(id, Names(peers), old(View()))
    {
      CountNames(peers);
      if election.None? { return; }
      election := None;
      if won { BecomeLeader(); }
    }

    // -------------------------------------------------------------------
    // Replication
    // -------------------------------------------------------------------

    method Propose(c: Command) returns (r: Proposal)
      requires Valid() && Log.LastIndex(raftLog.View()) + 1 < INDEX_LIMIT
      modifies raftLog
      ensures Valid() && View() == NodeModel.Propose(old(View()), c)
      ensures r == if state == Leader then Accepted(Log.LastIndex(old(View()).log) + 1) else NotLeader(leaderID)
    {
      if state != Leader { return NotLeader(leaderID); }
      var last := raftLog.LastIndex();
      raftLog.Append(LogEntry(last + 1, currentTerm, c));
      r := Accepted(last + 1);
    }

    /** The request for `peer`, unless this node does not lead or must send a snapshot instead. */
    method MakeAppend(peer: NodeID) returns (req: Option<AppendRequest>)
      requires Valid() && (leader != null ==> Lookup(leader.nextIndex, peer) < INDEX_LIMIT)
      ensures req == NodeModel.MakeAppend(id, View(), peer)
    {
      if state != Leader { return None; }
      var next := Lookup(leader.nextIndex, peer);
      if next <= raftLog.snapshotIndex { return None; }
      var prevTerm := raftLog.TermAt(next - 1);
      var last := raftLog.LastIndex();
      var entries := [];
      if last >= next { entries := raftLog.GetRange(next, last); }
      req := Some(AppendRequest(currentTerm, id, next - 1, prevTerm, entries, commitIndex));
    }

    /** A leader's commit index, capped at the last entry it sent. */
    method AdvanceCommit(leaderCommit: nat, lastNew: nat)
      modifies `commitIndex
      ensures commitIndex == Max(old(commitIndex), Min(leaderCommit, lastNew))
    {
      if leaderCommit > commitIndex {
        var newCommit := leaderCommit;
        if lastNew < newCommit { newCommit := lastNew; }
        if newCommit > commitIndex { commitIndex := newCommit; }
      }
    }

    method HandleAppendEntries(req: AppendRequest) returns (resp: AppendResponse)
      requires Valid() && req.prevLogIndex + |req.entries| < INDEX_LIMIT
      requires forall i :: 0 <= i < |req.entries| ==> req.entries[i].index < INDEX_LIMIT
      modifies this, raftLog
      ensures Valid() && (View(), resp) == NodeModel.HandleAppend(variant, id, old(View()), req)
    {
      if req.term < currentTerm {
        return AppendResponse(currentTerm, false, id, 0, 0, 0);
      }
      Observe(req.term);
      resp := HandleCurrent(req);
    }

    /** The consistency check for a request of the node's own term. */
    method Refusal(req: AppendRequest) returns (refusal: Option<AppendResponse>)
      requires Valid() && req.prevLogIndex < INDEX_LIMIT && req.term == currentTerm
      ensures var (n, resp) := NodeModel.HandleAppend(variant, id, View(), req);
              if refusal.Some? then n == View().(leaderID := req.leaderId) && resp == refusal.value else resp.success
    {
      if req.prevLogIndex > 0 {
        var lastIndex := raftLog.LastIndex();
        if req.prevLogIndex > lastIndex {
          return Some(AppendResponse(currentTerm, false, id, 0, lastIndex + 1, 0));
        }
        var prevTerm := raftLog.TermAt(req.prevLogIndex);
        if prevTerm != req.prevLogTerm {
          var conflict := ConflictIndex(raftLog, req.prevLogIndex, prevTerm);
          return Some(AppendResponse(currentTerm, false, id, 0, conflict, prevTerm));
        }
      }
      refusal := None;
    }

    /** A request of the node's own term. */
    method HandleCurrent(req: AppendRequest) returns (resp: AppendResponse)
      requires Valid() && req.prevLogIndex + |req.entries| < INDEX_LIMIT && req.term == currentTerm
      requires forall i :: 0 <= i < |req.entries| ==> req.entries[i].index < INDEX_LIMIT
      modifies this, raftLog
      ensures Valid() && (View(), resp) == NodeModel.HandleAppend(variant, id, old(View()), req)
    {
      var refusal := Refusal(req);
      leaderID := req.leaderId;
      if refusal.Some? { return refusal.value; }
      AcceptedIs(variant, id, old(View()), req);
      SpliceEntries(raftLog, variant.rereadTerm, req.prevLogIndex, req.entries);
      AdvanceCommit(req.leaderCommit, req.prevLogIndex + |req.entries|);
      var matched := raftLog.LastIndex();
      resp := AppendResponse(currentTerm, true, id, matched, 0, 0);
    }

    /** A follower acknowledged up to `reported`; commit what a majority now holds. */
    method CountMatch(p: NodeID, reported: nat)
      requires Valid() && state == Leader && Log.LastIndex(raftLog.View()) < INDEX_LIMIT
      modifies `commitIndex, leader
      ensures Valid()
      ensures var n := old(View());
              var m := Max(Lookup(n.leader.value.matchIndex, p), reported);
              var ls := NodeModel.LeaderState(n.leader.value.nextIndex[p := m + 1], n.leader.value.matchIndex[p := m]);
              var found := CommitScan(ls.matchIndex, n.commitIndex, Log.LastIndex(n.log), n.currentTerm, n.log);
              View() == n.(leader := Some(ls), commitIndex := if found > 0 then found else n.commitIndex)
    {
      leader.RecordMatch(p, reported);
      var last := raftLog.LastIndex();
      var newCommit := leader.CommitCandidate(commitIndex, last, currentTerm, raftLog);
      if newCommit > 0 { commitIndex := newCommit; }
    }

    /** The reply to a request this node sent. */
    method OnAppendReply(req: AppendRequest, resp: AppendResponse)
      requires Valid() && Log.LastIndex(raftLog.View()) < INDEX_LIMIT
      modifies this, raftLog, leader
      ensures Valid() && View() == HandleAppendReply(variant, old(View()), req, resp)
    {
      if state != Leader { return; }
      if resp.term > currentTerm {
        BecomeFollower(resp.term);
        return;
      }
      if variant.checkReplyTerm && currentTerm != req.term { return; }
      var p := resp.followerId;
      if resp.success {
        CountMatch(p, resp.matchIndex);
      } else if resp.conflictIndex > 0 {
        leader.SetNext(p, resp.conflictIndex);
      } else if Lookup(leader.nextIndex, p) > 1 {
        leader.SetNext(p, Lookup(leader.nextIndex, p) - 1);
      }
    }

    // -------------------------------------------------------------------
    // Applying and snapshots
    // -------------------------------------------------------------------

    method ApplyCommitted()
      requires Valid() && commitIndex < INDEX_LIMIT
      modifies this, storage
      ensures Valid() && View() == NodeModel.ApplyCommitted(old(View()))
    {
      ghost var start := View();
      while lastApplied < commitIndex
        invariant Valid() && commitIndex == old(commitIndex) && leader == old(leader)
        invariant NodeModel.ApplyCommitted(View()) == NodeModel.ApplyCommitted(start)
        decreases commitIndex - lastApplied
      {
        var found := ApplyNext();
        if !found { return; }
      }
    }

    /** One entry; the index moves even when the entry cannot be read. */
    method ApplyNext() returns (found: bool)
      requires Valid() && lastApplied + 1 < INDEX_LIMIT
      modifies `lastApplied, storage
      ensures Valid() && lastApplied == old(lastApplied) + 1 && found == (lastApplied in View().log.entries)
      ensures storage.data == if found then ApplyCommand(old(storage.data), View().log.entries[lastApplied].command).store
                              else old(storage.data)
    {
      lastApplied := lastApplied + 1;
      var entry := raftLog.Get(lastApplied);
      if entry.None? { return false; }
      var ok := storage.Apply(entry.value.command);
      found := true;
    }

    method HandleInstallSnapshot(req: SnapshotRequest) returns (resp: SnapshotResponse)
      requires Valid()
      modifies this, raftLog, storage
      ensures Valid() && (View(), resp) == HandleSnapshot(id, old(View()), req)
    {
      resp := SnapshotResponse(currentTerm, id, false);
      if req.term < currentTerm { return; }
      Observe(req.term);
      leaderID := req.leaderId;
      var ok := storage.RestoreSnapshot(req.data);
      if !ok { return; }
      raftLog.Compact(req.lastIncludedIndex, req.lastIncludedTerm);
      commitIndex, lastApplied, snapshotData := req.lastIncludedIndex, req.lastIncludedIndex, req.data;
      resp := resp.(success := true);
    }

    /** The locked part; `data` was read from the engine before. */
    method TakeSnapshot(index: nat, term: nat, data: Store)
      requires Valid()
      modifies this, raftLog
      ensures Valid() && View() == NodeModel.TakeSnapshot(old(View()), index, term, data)
    {
      raftLog.Compact(index, term);
      snapshotData := Encoded(data);
    }
  }

  lemma AcceptedIs(variant: Variant, id: NodeID, n: Node, req: AppendRequest)
    requires req.term == n.currentTerm && NodeModel.HandleAppend(variant, id, n, req).1.success
    ensures var l := Splice(variant.rereadTerm, n.log, req.prevLogIndex, req.entries);
            NodeModel.HandleAppend(variant, id, n, req) ==
            (n.(leaderID := req.leaderId, log := l,
                commitIndex := Max(n.commitIndex, Min(req.leaderCommit, req.prevLogIndex + |req.entries|))),
             AppendResponse(n.currentTerm, true, id, Log.LastIndex(l), 0, 0))
  {
  }

  /** A crash and a new process over the same disk; the in-memory engine starts empty. */
  method Restarted(n: RaftNode, keepStore: bool) returns (n': RaftNode)
    requires n.Valid()
    ensures n'.Valid() && n'.View() == NodeModel.Restart(n.View(), keepStore)
    ensures n'.id == n.id && n'.peers == n.peers && n'.variant == n.variant
  {
    var engine := n.storage;
    if !keepStore { engine := new MemoryEngine(); }
    n' := new RaftNode(n.id, n.peers, n.variant, n.raftLog.db, engine);
  }
}
