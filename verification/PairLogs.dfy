/** With at most two nodes no log is ever cut: every log is a prefix of the latest leader's. The entry
    loop as written then never meets the conflict it mishandles. */
module PairLogs {
  import opened Types
  import opened LogModel
  import opened NodeModel
  import opened Quorum
  import opened Cluster
  import opened History
  import opened ElectionSafety
  import opened LogHistory
  import opened LogSafety
  import Splice
  import WrittenHandler

  ghost predicate Latest(h: History, t: nat) {
    t in h.elected && forall s :: s in h.elected ==> s <= t
  }

  /** `xs` is a prefix of the latest leader's log, and all of it if `v` is that leader. */
  ghost predicate Behind(h: History, v: NodeID, xs: Entries) {
    && (h.elected == map[] ==> xs == [])
    && (forall t :: Latest(h, t) ==> xs <= LeaderLog(h, t) && (h.elected[t].leader == v ==> xs == LeaderLog(h, t)))
  }

  /** So was the log of a vote that no election has overtaken. */
  ghost predicate LateVoteOk(h: History, t: nat, v: NodeID) {
    (t, v) in h.votes && (forall s :: s in h.elected ==> s < t) ==> Behind(h, v, h.votes[(t, v)].log)
  }

  ghost predicate LateVotesOk(h: History) {
    forall t: nat, v: NodeID :: LateVoteOk(h, t, v)
  }

  ghost predicate PairInv(cfg: Config, h: History, c: State) {
    && LateVotesOk(h)
    && (forall v :: v in cfg.nodes && v in c.nodes ==> Behind(h, v, Seq(c.nodes[v].log)))
  }

  /** Two nodes elect a leader only together, so every node has reached every elected term. */
  lemma AllVoted(cfg: Config, h: History, v: NodeID, n: Node, t: nat)
    requires cfg.Valid() && |cfg.nodes| <= 2 && v in cfg.nodes && HistoryVotes(cfg, h) && Ballot(h, v, n) && t in h.elected
    ensures (t, v) in h.votes && t <= n.currentTerm && v in h.elected[t].electors
  {
    assert WonOk(cfg, h, t);
    var electors := h.elected[t].electors;
    CardinalityBound(cfg.nodes, electors + {v});
    assert v !in electors ==> |electors + {v}| == |electors| + 1;
    assert VotedFor(h, t, v, h.elected[t].leader) && CastOk(h, v, n, t);
  }

  lemma LatestIs(cfg: Config, h: History, v: NodeID, n: Node, t: nat)
    requires cfg.Valid() && |cfg.nodes| <= 2 && v in cfg.nodes && HistoryVotes(cfg, h) && Ballot(h, v, n)
    requires t in h.elected && t >= n.currentTerm
    ensures Latest(h, t) && t == n.currentTerm
  {
    forall s | s in h.elected ensures s <= t { AllVoted(cfg, h, v, n, s); }
    AllVoted(cfg, h, v, n, t);
  }

  // ---------------------------------------------------------------------
  // No conflict
  // ---------------------------------------------------------------------

  lemma PrefixMeetsNoConflict(xs: Entries, ys: Entries, prev: nat, entries: Entries)
    requires xs <= ys && prev <= |xs| && prev + |entries| <= |ys|
    requires forall i :: 0 <= i < |entries| ==> entries[i] == ys[prev + i]
    ensures !Splice.Conflicts(xs, prev, entries)
  {
    assert forall i :: 0 <= i < |xs| ==> xs[i] == ys[i];
  }

  lemma RequestClean(cfg: Config, h: History, v: NodeID, n: Node, req: AppendRequest)
    requires Ready(cfg, h, v, n) && |cfg.nodes| <= 2 && RequestOk(cfg, h, req) && Behind(h, v, Seq(n.log))
    ensures WrittenHandler.CleanRequest(n, req)
  {
    var xs := Seq(n.log);
    if WrittenHandler.Acceptable(n, req) {
      FromSeqReads(xs);
      GroundedPositive(h, xs);
      LatestIs(cfg, h, v, n, req.term);
      if Stretch(cfg, h, req) { StretchClean(cfg, h, v, xs, req); }
    }
  }

  lemma StretchClean(cfg: Config, h: History, v: NodeID, xs: Entries, req: AppendRequest)
    requires Stretch(cfg, h, req) && Latest(h, req.term) && Behind(h, v, xs)
    requires req.prevLogIndex <= |xs| && Splice.PositiveTerms(xs)
    ensures WrittenHandler.NoConflict(FromSeq(xs), req.prevLogIndex, req.entries)
  {
    PrefixMeetsNoConflict(xs, LeaderLog(h, req.term), req.prevLogIndex, req.entries);
    WrittenHandler.ConflictMeans(xs, req.prevLogIndex, req.entries);
  }

  lemma PairAsIntended(cfg: Config, h: History, v: NodeID, n: Node, req: AppendRequest)
    requires Ready(cfg, h, v, n) && |cfg.nodes| <= 2 && RequestOk(cfg, h, req) && Behind(h, v, Seq(n.log))
    ensures AsIntended(cfg, v, n, req)
  {
    RequestClean(cfg, h, v, n, req);
    RequestIndexed(cfg, h, req);
    WrittenHandler.CleanRequestSame(cfg.variant, v, n, req);
  }

  // ---------------------------------------------------------------------
  // Every step keeps it
  // ---------------------------------------------------------------------

  /** What a step of `v` must leave: its own log and all votes, and the logs of the others. */
  ghost predicate PairStep(cfg: Config, h: History, h': History, v: NodeID, n': Node) {
    && LateVotesOk(h') && Behind(h', v, Seq(n'.log))
    && (forall w, xs :: w in cfg.nodes && w != v && Behind(h, w, xs) ==> Behind(h', w, xs))
  }

  /** A step that elects nobody and at most records a vote of `v` with its own log. */
  lemma NoElectionPair(cfg: Config, h: History, h': History, v: NodeID, t: nat, n': Node, xs: Entries)
    requires LateVotesOk(h) && Behind(h, v, xs) && h'.elected == h.elected && Behind(h, v, Seq(n'.log))
    requires forall k :: k in h'.votes && k != (t, v) ==> k in h.votes && h'.votes[k] == h.votes[k]
    requires (t, v) in h'.votes ==> h'.votes[(t, v)].log == xs || ((t, v) in h.votes && h'.votes[(t, v)] == h.votes[(t, v)])
    ensures PairStep(cfg, h, h', v, n')
  {
    forall s: nat, w: NodeID ensures LateVoteOk(h', s, w) {
      assert LateVoteOk(h, s, w);
    }
  }

  /** The latest leader's log is what a winner stands on. */
  lemma WinnerStandsOnLatest(cfg: Config, h: History, v: NodeID, n: Node, s: nat)
    requires Ready(cfg, h, v, n) && |cfg.nodes| <= 2 && LateVotesOk(h) && Behind(h, v, Seq(n.log))
    requires Wins(cfg.Peers(v), n) && Latest(h, s)
    ensures s < n.currentTerm && Seq(n.log) == LeaderLog(h, s)
  {
    var t, xs, ys := n.currentTerm, Seq(n.log), LeaderLog(h, s);
    WinnerIsFirst(cfg, h, v, n);
    AllVoted(cfg, h, v, n, s);
    var w := h.elected[s].leader;
    if w != v {
      assert WonOk(cfg, h, s);
      OtherVoted(cfg, h, v, n, w);
      forall u | u in h.elected ensures u < t { AllVoted(cfg, h, v, n, u); }
      assert LateVoteOk(h, t, w) && VoteOk(h, t, w);
      assert TermOk(h, s);
      LongestPrefix(h, xs, ys);
    }
  }

  lemma OtherVoted(cfg: Config, h: History, v: NodeID, n: Node, w: NodeID)
    requires cfg.Valid() && SafeSize(|cfg.nodes|) && |cfg.nodes| <= 2 && v in cfg.nodes && w in cfg.nodes && w != v
    requires HistoryVotes(cfg, h) && NodeVotes(cfg, h, v, n) && Wins(cfg.Peers(v), n)
    ensures VotedFor(h, n.currentTerm, w, v)
  {
    WinnerIsFirst(cfg, h, v, n);
    var electors := n.election.value.granted + {v};
    CardinalityBound(cfg.nodes, electors + {w});
    assert w !in electors ==> |electors + {w}| == |electors| + 1;
  }

  /** A prefix that is at least as up-to-date as the whole is the whole. */
  lemma LongestPrefix(h: History, xs: Entries, ys: Entries)
    requires HistoryLogs(h) && Grounded(h, ys) && xs <= ys && AtLeast(xs, ys)
    ensures xs == ys
  {
    if 0 < |xs| < |ys| { TermsRise(h, ys, |xs| - 1, |ys| - 1); }
  }

  /** A new leader's log starts with everything any node holds. */
  lemma ElectionPair(cfg: Config, h: History, v: NodeID, n: Node, n': Node, e: Elected)
    requires Ready(cfg, h, v, n) && |cfg.nodes| <= 2 && LateVotesOk(h) && Behind(h, v, Seq(n.log)) && Wins(cfg.Peers(v), n)
    requires e.leader == v && Seq(n.log) <= e.log && Seq(n'.log) == e.log
    ensures PairStep(cfg, h, AddLeader(h, n.currentTerm, e), v, n')
  {
    hide NodeLogs, HistoryLogs;
    var t, h' := n.currentTerm, AddLeader(h, n.currentTerm, e);
    forall s | s in h.elected ensures s <= t { AllVoted(cfg, h, v, n, s); }
    assert Latest(h', t) && forall s :: Latest(h', s) ==> s == t;
    forall w, xs | Behind(h, w, xs) ensures xs <= e.log {
      BehindWinner(cfg, h, v, n, w, xs);
    }
    forall s: nat, w: NodeID ensures LateVoteOk(h', s, w) {
      assert LateVoteOk(h, s, w) && CastOk(h, v, n, s);
    }
  }

  lemma BehindWinner(cfg: Config, h: History, v: NodeID, n: Node, w: NodeID, xs: Entries)
    requires Ready(cfg, h, v, n) && |cfg.nodes| <= 2 && LateVotesOk(h) && Behind(h, v, Seq(n.log)) && Wins(cfg.Peers(v), n)
    requires Behind(h, w, xs)
    ensures xs <= Seq(n.log)
  {
    if h.elected != map[] {
      var s := LatestExists(h);
      WinnerStandsOnLatest(cfg, h, v, n, s);
    }
  }

  lemma LatestExists(h: History) returns (t: nat)
    requires h.elected != map[]
    ensures Latest(h, t)
  {
    t := MaxKey(h.elected.Keys);
  }

  /** The latest leader adds to its own log. */
  lemma ProposalPair(cfg: Config, h: History, v: NodeID, n: Node, n': Node, e: Elected)
    requires Ready(cfg, h, v, n) && |cfg.nodes| <= 2 && LateVotesOk(h) && n.role == Leader
    requires e.leader == v && Seq(n.log) <= e.log && Seq(n'.log) == e.log
    ensures PairStep(cfg, h, AddLeader(h, n.currentTerm, e), v, n')
  {
    var t, h' := n.currentTerm, AddLeader(h, n.currentTerm, e);
    LatestIs(cfg, h, v, n, t);
    assert Latest(h', t) && forall s :: Latest(h', s) ==> s == t;
    forall s: nat, w: NodeID ensures LateVoteOk(h', s, w) {
      assert LateVoteOk(h, s, w) && CastOk(h, v, n, s);
    }
  }

  /** A log that takes a stretch of the latest leader's log stays behind it. */
  lemma AcceptedBehind(cfg: Config, h: History, v: NodeID, n: Node, req: AppendRequest)
    requires Ready(cfg, h, v, n) && |cfg.nodes| <= 2 && Behind(h, v, Seq(n.log))
    requires RequestOk(cfg, h, req) && MessageVotes(cfg, h, AppendReq(v, req))
    requires HandleAppend(INTENDED, v, n, req).1.success
    ensures Behind(h, v, Seq(HandleAppend(INTENDED, v, n, req).0.log))
  {
    var xs := Seq(n.log);
    GroundedPositive(h, xs);
    if Hopeless(h, req) { HopelessRefused(h, v, n, req, xs); }
    RequestIndexed(cfg, h, req);
    AcceptPlain(v, n, req, xs);
    SeqOfFromSeq(Splice.Merge(xs, req.prevLogIndex, req.entries));
    LatestIs(cfg, h, v, n, req.term);
    MergedBehind(cfg, h, v, xs, req);
  }

  lemma MergedBehind(cfg: Config, h: History, v: NodeID, xs: Entries, req: AppendRequest)
    requires HistoryLogs(h) && Grounded(h, xs) && Stretch(cfg, h, req) && Behind(h, v, xs) && Latest(h, req.term)
    requires req.prevLogIndex <= |xs| && h.elected[req.term].leader != v
    requires req.prevLogIndex > 0 ==> xs[req.prevLogIndex - 1].term == req.prevLogTerm
    ensures Behind(h, v, Splice.Merge(xs, req.prevLogIndex, req.entries))
  {
    MergeAccepted(cfg, h, xs, req);
    AcceptedStaysBehind(h, v, xs, Splice.Merge(xs, req.prevLogIndex, req.entries), req.term, req.prevLogIndex + |req.entries|);
  }

  lemma AcceptedStaysBehind(h: History, v: NodeID, xs: Entries, zs: Entries, t: nat, reach: nat)
    requires AcceptedAs(h, xs, zs, t, reach) && Behind(h, v, xs) && Latest(h, t) && h.elected[t].leader != v
    ensures Behind(h, v, zs)
  {
    assert zs <= LeaderLog(h, t);
  }

  lemma AppendPair(cfg: Config, h: History, v: NodeID, n: Node, req: AppendRequest)
    requires Ready(cfg, h, v, n) && |cfg.nodes| <= 2 && LateVotesOk(h) && Behind(h, v, Seq(n.log))
    requires RequestOk(cfg, h, req) && MessageVotes(cfg, h, AppendReq(v, req))
    ensures var r := HandleAppend(cfg.variant, v, n, req);
            PairStep(cfg, h, RecordAppend(h, v, req, r.1), v, r.0)
  {
    PairAsIntended(cfg, h, v, n, req);
    var r := HandleAppend(INTENDED, v, n, req);
    if r.1.success {
      AcceptedBehind(cfg, h, v, n, req);
    } else {
      RefusedIs(INTENDED, v, n, req);
    }
    NoElectionPair(cfg, h, RecordAppend(h, v, req, r.1), v, 0, r.0, Seq(n.log));
  }

  /** Timeouts and votes record the node's own log and leave it. */
  lemma VotingPair(cfg: Config, h: History, v: NodeID, n: Node, ev: Event)
    requires Ready(cfg, h, v, n) && LateVotesOk(h) && Behind(h, v, Seq(n.log)) && (ev.Timeout? || ev.RecvVote?)
    ensures PairStep(cfg, h, Record(cfg, h, v, n, ev), v, NodeStep(cfg, v, n, ev).0)
  {
    if ev.RecvVote? { VoteIs(v, n, ev.vote, Seq(n.log)); }
    var t := if ev.RecvVote? then ev.vote.term else n.currentTerm + 1;
    NoElectionPair(cfg, h, Record(cfg, h, v, n, ev), v, t, NodeStep(cfg, v, n, ev).0, Seq(n.log));
  }

  ghost predicate Quiet(ev: Event) {
    ev.RecvVoteReply? || ev.SendAppend? || ev.RecvAppendReply? || ev.Apply? || ev.Crash?
  }

  lemma QuietPair(cfg: Config, h: History, v: NodeID, n: Node, ev: Event)
    requires Ready(cfg, h, v, n) && LateVotesOk(h) && Behind(h, v, Seq(n.log)) && Quiet(ev)
    ensures PairStep(cfg, h, h, v, NodeStep(cfg, v, n, ev).0)
  {
    OtherStepsKeepLog(cfg, v, n, ev);
    NoElectionPair(cfg, h, h, v, 0, NodeStep(cfg, v, n, ev).0, Seq(n.log));
  }

  lemma EveryStepPair(cfg: Config, h: History, v: NodeID, n: Node, ev: Event)
    requires Ready(cfg, h, v, n) && |cfg.nodes| <= 2 && LateVotesOk(h) && Behind(h, v, Seq(n.log))
    requires (ev.EndElection? ==> n.election.Some?) && (ev.RecvAppend? ==> ReceivedOk(cfg, h, v, ev))
    ensures PairStep(cfg, h, Record(cfg, h, v, n, ev), v, NodeStep(cfg, v, n, ev).0)
  {
    if Quiet(ev) {
      QuietPair(cfg, h, v, n, ev);
    } else if ev.Timeout? || ev.RecvVote? {
      VotingPair(cfg, h, v, n, ev);
    } else if ev.EndElection? {
      EndElectionPair(cfg, h, v, n);
    } else if ev.ClientCommand? {
      ClientCommandPair(cfg, h, v, n, ev.command);
    } else {
      AppendPair(cfg, h, v, n, ev.append);
    }
  }

  lemma EndElectionPair(cfg: Config, h: History, v: NodeID, n: Node)
    requires Ready(cfg, h, v, n) && |cfg.nodes| <= 2 && LateVotesOk(h) && Behind(h, v, Seq(n.log)) && n.election.Some?
    ensures PairStep(cfg, h, RecordElection(h, v, cfg.Peers(v), n), v, FinishElection(v, cfg.Peers(v), n))
  {
    var xs, n' := Seq(n.log), FinishElection(v, cfg.Peers(v), n);
    if Wins(cfg.Peers(v), n) {
      WinnerBecomes(h, v, cfg.Peers(v), n, xs);
      var x := LogEntry(|xs| + 1, n.currentTerm, NOOP);
      SeqOfFromSeq(xs + [x]);
      ElectionPair(cfg, h, v, n, n', Elected(v, n.election.value.granted + {v}, |xs|, xs + [x]));
    } else {
      NoElectionPair(cfg, h, h, v, 0, n', xs);
    }
  }

  lemma ClientCommandPair(cfg: Config, h: History, v: NodeID, n: Node, c: Command)
    requires Ready(cfg, h, v, n) && |cfg.nodes| <= 2 && LateVotesOk(h) && Behind(h, v, Seq(n.log))
    ensures PairStep(cfg, h, RecordCommand(h, n, c), v, Propose(n, c))
  {
    var xs := Seq(n.log);
    if n.role == Leader {
      ProposerBecomes(h, n, c, xs);
      var x := LogEntry(|xs| + 1, n.currentTerm, c);
      SeqOfFromSeq(xs + [x]);
      ProposalPair(cfg, h, v, n, Propose(n, c), h.elected[n.currentTerm].(log := xs + [x]));
    } else {
      NoElectionPair(cfg, h, h, v, 0, n, xs);
    }
  }

  lemma PairInvStep(cfg: Config, h: History, c: State, a: Label)
    requires cfg.Valid() && SafeSize(|cfg.nodes|) && |cfg.nodes| <= 2 && LogsInv(cfg, h, c) && PairInv(cfg, h, c)
    requires Enabled(cfg, c, a.node, a.event)
    ensures PairInv(cfg, Record(cfg, h, a.node, c.nodes[a.node], a.event), Next(cfg, c, a))
  {
    hide NodeVotes, NodeLogs, HistoryVotes, HistoryLogs, Behind;
    var v, n := a.node, c.nodes[a.node];
    assert NodeVotes(cfg, h, v, n) && NodeLogs(cfg, h, v, n) && Behind(h, v, Seq(n.log));
    if a.event.RecvAppend? { ReceivedIsOk(cfg, h, c, a); }
    EveryStepPair(cfg, h, v, n, a.event);
    PairInvFrom(cfg, h, Record(cfg, h, v, n, a.event), c, v, NodeStep(cfg, v, n, a.event).0, NodeStep(cfg, v, n, a.event).1);
  }

  lemma PairInvFrom(cfg: Config, h: History, h': History, c: State, v: NodeID, n': Node, msgs: set<Message>)
    requires PairInv(cfg, h, c) && PairStep(cfg, h, h', v, n')
    ensures PairInv(cfg, h', State(c.nodes[v := n'], c.msgs + msgs))
  {
  }

  lemma InitialPair(cfg: Config, h: History, c: State)
    requires cfg.Valid() && Init(cfg, c) && h == NOTHING
    ensures PairInv(cfg, h, c)
  {
    SeqOfFromSeq([]);
    assert FromSeq([]) == EMPTY by { assert FromSeq([]).entries == map[]; }
  }
}
