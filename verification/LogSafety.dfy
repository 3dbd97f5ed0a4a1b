/** Every step keeps the log invariant, in every cluster where the entry loop does what is intended; where
    replies are checked, or the nodes few, the invariant covers what is committed as well. */
module LogSafety {
  import opened Types
  import opened LogModel
  import opened NodeModel
  import opened Quorum
  import opened Cluster
  import opened History
  import opened ElectionSafety
  import opened LogHistory
  import Splice
  import CommitRule

  // ---------------------------------------------------------------------
  // The invariant
  // ---------------------------------------------------------------------

  /** Replies are used in their own term only, or the cluster is too small for it to matter. */
  predicate Counts(cfg: Config) {
    cfg.variant.checkReplyTerm || |cfg.nodes| <= 3
  }

  /** How far the leader of `t` may believe `p` to agree with it. Where replies of earlier terms are
      counted, that includes the part of its log it was elected with. */
  ghost function Credit(cfg: Config, h: History, t: nat, p: NodeID): nat {
    if cfg.variant.checkReplyTerm || t !in h.elected then AckedUpTo(h, t, p)
    else Max(AckedUpTo(h, t, p), h.elected[t].base)
  }

  ghost predicate MapsOk(cfg: Config, h: History, v: NodeID, t: nat, ls: LeaderState) {
    && ls.nextIndex.Keys == cfg.Peers(v) && ls.matchIndex.Keys == cfg.Peers(v)
    && (forall p :: p in ls.nextIndex ==> 1 <= ls.nextIndex[p])
    && (Counts(cfg) ==> forall p :: p in ls.matchIndex ==> ls.matchIndex[p] <= Credit(cfg, h, t, p))
  }

  /** A leader's log is its term's, and every `matchIndex` is backed. */
  ghost predicate LeaderOk(cfg: Config, h: History, v: NodeID, n: Node) {
    n.role == Leader ==>
      && n.currentTerm in h.elected && n.leader.Some?
      && Seq(n.log) == LeaderLog(h, n.currentTerm)
      && MapsOk(cfg, h, v, n.currentTerm, n.leader.value)
  }

  /** Until its term has a leader, a candidate's log is the one it advertised. */
  ghost predicate CandidateOk(h: History, v: NodeID, n: Node) {
    n.role == Candidate && n.currentTerm !in h.elected ==>
      (n.currentTerm, v) in h.campaigns && h.campaigns[(n.currentTerm, v)] == Seq(n.log)
  }

  ghost predicate LogOk(h: History, l: Log, t: nat) {
    Plain(l) && Indexed(Seq(l), 1) && Grounded(h, Seq(l)) && TermsBelow(Seq(l), t + 1)
  }

  ghost predicate AckTerms(h: History, v: NodeID, t: nat) {
    forall s :: (s, v) in h.acked ==> s <= t
  }

  ghost predicate NodeLogs(cfg: Config, h: History, v: NodeID, n: Node) {
    && LogOk(h, n.log, n.currentTerm)
    && AckTerms(h, v, n.currentTerm)
    && Keeps(h, v, Seq(n.log), n.currentTerm + 1)
    && (Counts(cfg) ==> CommitOk(cfg, h, Seq(n.log), n.commitIndex, n.currentTerm))
    && LeaderOk(cfg, h, v, n)
    && CandidateOk(h, v, n)
  }

  /** A request is a stretch of its leader's log that reaches an entry of the leader's own term. */
  ghost predicate Stretch(cfg: Config, h: History, req: AppendRequest) {
    req.term in h.elected &&
    var e := h.elected[req.term];
    var reach := req.prevLogIndex + |req.entries|;
    && e.base < reach <= |e.log|
    && (forall i :: 0 <= i < |req.entries| ==> req.entries[i] == e.log[req.prevLogIndex + i])
    && req.prevLogTerm == TermOf(e.log, req.prevLogIndex)
    && (Counts(cfg) ==> CommitOk(cfg, h, e.log, req.leaderCommit, req.term))
  }

  /** A request that probes beyond its leader's log; nobody accepts it. */
  ghost predicate Hopeless(h: History, req: AppendRequest) {
    req.term in h.elected && req.prevLogIndex > 0 && req.prevLogTerm == 0 && req.entries == []
  }

  ghost predicate RequestOk(cfg: Config, h: History, req: AppendRequest) {
    Stretch(cfg, h, req) || Hopeless(h, req)
  }

  ghost predicate MessageLogs(cfg: Config, h: History, m: Message) {
    match m
    case VoteReq(req) =>
      && (req.term, req.candidateId) in h.campaigns
      && var xs := h.campaigns[(req.term, req.candidateId)];
         req.lastLogIndex == |xs| && req.lastLogTerm == LastTermOf(xs)
    case VoteResp(_, _) => true
    case AppendReq(_, req) => RequestOk(cfg, h, req)
    case AppendResp(req, resp) =>
      && req.term in h.elected
      && (resp.success ==> h.elected[req.term].base < resp.matchIndex <= AckedUpTo(h, req.term, resp.followerId))
  }

  ghost predicate LogsInv(cfg: Config, h: History, c: State) {
    && VotesInv(cfg, h, c)
    && HistoryLogs(h)
    && (forall v :: v in cfg.nodes ==> NodeLogs(cfg, h, v, c.nodes[v]))
    && (forall m :: m in c.msgs ==> MessageLogs(cfg, h, m))
  }

  // ---------------------------------------------------------------------
  // What a step leaves alone
  // ---------------------------------------------------------------------

  /** No acknowledgement of `w` and no log led by `w` changed. */
  ghost predicate LogsNotAbout(h: History, h': History, w: NodeID) {
    && (forall t :: (t, w) in h'.acked ==> (t, w) in h.acked && h'.acked[(t, w)] == h.acked[(t, w)])
    && (forall t :: t in h.elected && h.elected[t].leader == w ==> t in h'.elected && h'.elected[t].log == h.elected[t].log)
  }

  lemma LogOkStable(h: History, h': History, l: Log, t: nat)
    requires LogOk(h, l, t) && Extends(h, h')
    ensures LogOk(h', l, t)
  {
    GroundedStable(h, h', Seq(l));
  }

  lemma CreditGrows(cfg: Config, h: History, h': History, t: nat, p: NodeID)
    requires Extends(h, h') && t in h.elected
    ensures Credit(cfg, h, t, p) <= Credit(cfg, h', t, p)
  {
    assert Grows(h.elected[t], h'.elected[t]);
  }

  lemma MapsOkStable(cfg: Config, h: History, h': History, v: NodeID, t: nat, ls: LeaderState)
    requires MapsOk(cfg, h, v, t, ls) && Extends(h, h') && t in h.elected
    ensures MapsOk(cfg, h', v, t, ls)
  {
    if Counts(cfg) {
      forall p | p in ls.matchIndex ensures ls.matchIndex[p] <= Credit(cfg, h', t, p) {
        CreditGrows(cfg, h, h', t, p);
      }
    }
  }

  lemma LeaderOkStable(cfg: Config, h: History, h': History, w: NodeID, n: Node)
    requires LeaderOk(cfg, h, w, n) && Standing(h, w, n) && Extends(h, h') && LogsNotAbout(h, h', w)
    ensures LeaderOk(cfg, h', w, n)
  {
    if n.role == Leader {
      MapsOkStable(cfg, h, h', w, n.currentTerm, n.leader.value);
    }
  }

  lemma NodeLogsStable(cfg: Config, h: History, h': History, w: NodeID, n: Node)
    requires HistoryLogs(h) && Extends(h, h') && LogsNotAbout(h, h', w)
    requires NodeLogs(cfg, h, w, n) && Standing(h, w, n)
    ensures NodeLogs(cfg, h', w, n)
  {
    LogOkStable(h, h', n.log, n.currentTerm);
    KeepsStable(h, h', w, Seq(n.log), n.currentTerm + 1);
    if Counts(cfg) { CommitOkStable(cfg, h, h', Seq(n.log), n.commitIndex, n.currentTerm); }
    LeaderOkStable(cfg, h, h', w, n);
  }

  lemma StretchStable(cfg: Config, h: History, h': History, req: AppendRequest)
    requires Stretch(cfg, h, req) && Extends(h, h')
    ensures Stretch(cfg, h', req)
  {
    var e, e' := h.elected[req.term], h'.elected[req.term];
    assert Grows(e, e');
    if Counts(cfg) {
      CommitOkStable(cfg, h, h', e.log, req.leaderCommit, req.term);
      if req.leaderCommit <= |e.log| {
        CommitOkAgrees(cfg, h', e.log, e'.log, req.leaderCommit, req.leaderCommit, req.term, req.term);
      }
    }
  }

  lemma MessageLogsStable(cfg: Config, h: History, h': History, m: Message)
    requires MessageLogs(cfg, h, m) && Extends(h, h')
    ensures MessageLogs(cfg, h', m)
  {
    match m
    case AppendReq(_, req) => if Stretch(cfg, h, req) { StretchStable(cfg, h, h', req); }
    case AppendResp(req, resp) => assert Grows(h.elected[req.term], h'.elected[req.term]);
    case _ =>
  }

  lemma TermOkStable(h: History, h': History, t: nat)
    requires TermOk(h, t) && Extends(h, h') && t in h.elected
    requires h'.elected[t] == h.elected[t]
    requires (t, h.elected[t].leader) in h.acked ==>
               h'.acked[(t, h.elected[t].leader)] == h.acked[(t, h.elected[t].leader)]
    ensures TermOk(h', t)
  {
    GroundedStable(h, h', h.elected[t].log);
  }

  lemma CampaignOkStable(h: History, h': History, t: nat, v: NodeID)
    requires CampaignOk(h, t, v) && Extends(h, h') && (t, v) in h.campaigns
    ensures CampaignOk(h', t, v)
  {
    GroundedStable(h, h', h.campaigns[(t, v)]);
  }

  lemma VoteOkStable(h: History, h': History, t: nat, v: NodeID)
    requires HistoryLogs(h) && Extends(h, h') && (t, v) in h.votes
    requires forall s :: (s, v) in h'.acked && s < t ==> (s, v) in h.acked && h'.acked[(s, v)] == h.acked[(s, v)]
    ensures VoteOk(h', t, v)
  {
    assert VoteOk(h, t, v);
    var xs := h.votes[(t, v)].log;
    GroundedStable(h, h', xs);
    if t !in h'.elected || v in h'.elected[t].electors {
      if t in h.elected { assert Grows(h.elected[t], h'.elected[t]); }
      KeepsStable(h, h', v, xs, t);
    }
  }

  lemma KeepsLonger(h: History, v: NodeID, xs: Entries, end: nat, end': nat)
    requires Keeps(h, v, xs, end) && end <= end'
    requires forall t :: (t, v) in h.acked ==> t < end
    ensures Keeps(h, v, xs, end')
  {
    forall t: nat, n: nat | (t, v) in h.acked && t < end' && n <= h.acked[(t, v)]
      ensures Covers(h, t, n, xs) || Lost(h, t, n, end')
    {
      if !Covers(h, t, n, xs) {
        assert Lost(h, t, n, end);
        var s :| s in h.elected && t < s < end && !Covers(h, t, n, LeaderLog(h, s));
      }
    }
  }

  lemma ObserveLogs(cfg: Config, h: History, v: NodeID, n: Node, t: nat)
    requires NodeLogs(cfg, h, v, n)
    ensures NodeLogs(cfg, h, v, Observe(n, t))
  {
    if t > n.currentTerm {
      KeepsLonger(h, v, Seq(n.log), n.currentTerm + 1, t + 1);
      if Counts(cfg) && n.commitIndex > 0 {
        CommitOkLength(cfg, h, Seq(n.log), n.commitIndex, n.currentTerm);
        CommitOkAgrees(cfg, h, Seq(n.log), Seq(n.log), n.commitIndex, n.commitIndex, n.currentTerm, t);
      }
    }
  }

  /** The fields the log invariants read. */
  ghost predicate SameLogs(n: Node, n': Node) {
    && n'.currentTerm == n.currentTerm && n'.log == n.log && n'.commitIndex == n.commitIndex
    && n'.role == n.role && n'.leader == n.leader
  }

  lemma SameLogsKeep(cfg: Config, h: History, v: NodeID, n: Node, n': Node)
    requires NodeLogs(cfg, h, v, n) && SameLogs(n, n')
    ensures NodeLogs(cfg, h, v, n')
  {
  }

  lemma CommitOkLength(cfg: Config, h: History, xs: Entries, k: nat, t: nat)
    requires CommitOk(cfg, h, xs, k, t)
    ensures k <= |xs|
  {
    if k != 0 {
      var s: nat, n: nat :| s <= t && CommittedPrefix(cfg, h, xs, k, s, n);
    }
  }

  // ---------------------------------------------------------------------
  // Obligations of a step
  // ---------------------------------------------------------------------

  ghost predicate HistoryStep(cfg: Config, h: History, h': History, v: NodeID) {
    && Extends(h, h') && HistoryLogs(h')
    && (forall w :: w in cfg.nodes && w != v ==> LogsNotAbout(h, h', w))
  }

  ghost predicate StepLogs(cfg: Config, h: History, h': History, v: NodeID, n': Node, msgs: set<Message>) {
    && HistoryStep(cfg, h, h', v)
    && NodeLogs(cfg, h', v, n')
    && (forall m :: m in msgs ==> MessageLogs(cfg, h', m))
  }

  /** What is known of the stepping node before the step. */
  ghost predicate Ready(cfg: Config, h: History, v: NodeID, n: Node) {
    && cfg.Valid() && SafeSize(|cfg.nodes|) && v in cfg.nodes
    && HistoryVotes(cfg, h) && HistoryLogs(h)
    && NodeVotes(cfg, h, v, n) && NodeLogs(cfg, h, v, n)
  }

  // ---------------------------------------------------------------------
  // A history that grew by one record
  // ---------------------------------------------------------------------

  /** No term but `t` has a new leader, a longer log or another acknowledgement of its leader. */
  ghost predicate OtherTermsSame(h: History, h': History, t: nat) {
    forall s :: s in h'.elected && s != t ==>
      && s in h.elected && h'.elected[s] == h.elected[s]
      && ((s, h.elected[s].leader) in h.acked ==>
            (s, h.elected[s].leader) in h'.acked && h'.acked[(s, h.elected[s].leader)] == h.acked[(s, h.elected[s].leader)])
  }

  lemma TermsOk(h: History, h': History, t: nat)
    requires HistoryLogs(h) && Extends(h, h') && OtherTermsSame(h, h', t) && TermOk(h', t)
    ensures forall s: nat :: TermOk(h', s)
  {
    forall s: nat ensures TermOk(h', s) {
      assert TermOk(h, s);
      if s != t && s in h'.elected { TermOkStable(h, h', s); }
    }
  }

  lemma CampaignsOk(h: History, h': History, t: nat, v: NodeID)
    requires HistoryLogs(h) && Extends(h, h') && CampaignOk(h', t, v)
    requires forall k :: k in h'.campaigns && k != (t, v) ==> k in h.campaigns
    ensures forall s: nat, w: NodeID :: CampaignOk(h', s, w)
  {
    forall s: nat, w: NodeID ensures CampaignOk(h', s, w) {
      if (s, w) in h.campaigns { assert CampaignOk(h, s, w); CampaignOkStable(h, h', s, w); }
    }
  }

  /** Whoever voted in a term has acknowledged nothing more in an earlier one. */
  ghost predicate OldAcksSame(h: History, h': History) {
    forall s, t, w :: (t, w) in h.votes && (s, w) in h'.acked && s < t ==>
      (s, w) in h.acked && h'.acked[(s, w)] == h.acked[(s, w)]
  }

  lemma VotesOk(h: History, h': History, t: nat, v: NodeID)
    requires HistoryLogs(h) && Extends(h, h') && OldAcksSame(h, h') && VoteOk(h', t, v)
    requires forall k :: k in h'.votes && k != (t, v) ==> k in h.votes
    ensures forall s: nat, w: NodeID :: VoteOk(h', s, w)
  {
    forall s: nat, w: NodeID ensures VoteOk(h', s, w) {
      if (s, w) in h.votes { VoteOkStable(h, h', s, w); }
    }
  }

  lemma AcksOk(h: History, h': History, t: nat, v: NodeID)
    requires HistoryLogs(h) && Extends(h, h') && AckOk(h', t, v)
    requires forall k :: k in h'.acked && k != (t, v) ==> k in h.acked && h'.acked[k] == h.acked[k]
    ensures forall s: nat, w: NodeID :: AckOk(h', s, w)
  {
    forall s: nat, w: NodeID ensures AckOk(h', s, w) {
      assert AckOk(h, s, w);
      if (s, w) in h.acked && (s, w) != (t, v) { assert Grows(h.elected[s], h'.elected[s]); }
    }
  }

  // ---------------------------------------------------------------------
  // Starting an election and voting
  // ---------------------------------------------------------------------

  lemma CampaignHistory(cfg: Config, h: History, v: NodeID, t: nat, xs: Entries)
    requires HistoryLogs(h) && t >= 1 && (t, v) !in h.votes
    requires Grounded(h, xs) && TermsBelow(xs, t) && Keeps(h, v, xs, t)
    ensures HistoryStep(cfg, h, AddCampaign(h, t, v, xs), v)
  {
    var h' := AddCampaign(h, t, v, xs);
    assert CampaignOk(h, t, v);
    assert Extends(h, h');
    GroundedStable(h, h', xs);
    KeepsStable(h, h', v, xs, t);
    assert VoteOk(h, t, v) && TermOk(h, t) && AckOk(h, t, v);
    if t in h.elected { TermOkStable(h, h', t); }
    TermsOk(h, h', t);
    CampaignsOk(h, h', t, v);
    VotesOk(h, h', t, v);
    AcksOk(h, h', t, v);
  }

  lemma TimeoutLogs(cfg: Config, h: History, v: NodeID, n: Node)
    requires Ready(cfg, h, v, n) && n.role != Leader
    ensures var n' := StartElection(v, cfg.Peers(v), n);
            StepLogs(cfg, h, AddCampaign(h, n.currentTerm + 1, v, Seq(n.log)), v, n', {VoteReq(Campaign(v, n'))})
  {
    var t := n.currentTerm + 1;
    assert CastOk(h, v, n, t);
    CampaignHistory(cfg, h, v, t, Seq(n.log));
    var h' := AddCampaign(h, t, v, Seq(n.log));
    var n' := StartElection(v, cfg.Peers(v), n);
    ObserveLogs(cfg, h, v, n, t);
    ObserveKeeps(cfg, h, v, n, t);
    NodeLogsStable(cfg, h, h', v, Observe(n, t));
    FromSeqReads(Seq(n.log));
    StandsWithLog(cfg, h', v, Observe(n, t), n');
  }

  /** A follower that becomes a candidate with the log it is recorded to have advertised. */
  lemma StandsWithLog(cfg: Config, h: History, v: NodeID, n: Node, n': Node)
    requires NodeLogs(cfg, h, v, n) && n'.role == Candidate
    requires n'.currentTerm == n.currentTerm && n'.log == n.log && n'.commitIndex == n.commitIndex
    requires (n.currentTerm, v) in h.campaigns && h.campaigns[(n.currentTerm, v)] == Seq(n.log)
    ensures NodeLogs(cfg, h, v, n')
  {
  }

  lemma VoteHistory(cfg: Config, h: History, v: NodeID, t: nat, candidate: NodeID, xs: Entries)
    requires HistoryLogs(h) && Grounded(h, xs) && Keeps(h, v, xs, t + 1)
    requires t in h.elected && v in h.elected[t].electors ==> (t, v) in h.votes
    requires (t, candidate) in h.campaigns && AtLeast(h.campaigns[(t, candidate)], xs)
    ensures HistoryStep(cfg, h, AddVote(h, t, v, candidate, xs), v)
  {
    var h' := AddVote(h, t, v, candidate, xs);
    assert Extends(h, h');
    assert CampaignOk(h, t, v) && TermOk(h, t) && AckOk(h, t, v) && VoteOk(h, t, v);
    if t in h.elected { TermOkStable(h, h', t); }
    if (t, v) in h.campaigns { CampaignOkStable(h, h', t, v); }
    if (t, v) !in h.votes { NewVoteOk(h, h', v, t, xs); }
    TermsOk(h, h', t);
    CampaignsOk(h, h', t, v);
    VotesOk(h, h', t, v);
    AcksOk(h, h', t, v);
  }

  lemma NewVoteOk(h: History, h': History, v: NodeID, t: nat, xs: Entries)
    requires HistoryLogs(h) && Grounded(h, xs) && Keeps(h, v, xs, t + 1)
    requires Extends(h, h') && h'.acked == h.acked && h'.elected == h.elected && h'.campaigns == h.campaigns
    requires t in h.elected ==> v !in h.elected[t].electors
    requires (t, v) in h'.votes && h'.votes[(t, v)].log == xs
    requires (t, h'.votes[(t, v)].candidate) in h.campaigns
    requires AtLeast(h.campaigns[(t, h'.votes[(t, v)].candidate)], xs)
    ensures VoteOk(h', t, v)
  {
    GroundedStable(h, h', xs);
    if t !in h.elected {
      KeepsEarlier(h, v, xs, t);
      KeepsStable(h, h', v, xs, t);
    }
  }

  lemma KeepsEarlier(h: History, v: NodeID, xs: Entries, t: nat)
    requires Keeps(h, v, xs, t + 1) && t !in h.elected
    ensures Keeps(h, v, xs, t)
  {
    forall s: nat, n: nat | (s, v) in h.acked && s < t && n <= h.acked[(s, v)]
      ensures Covers(h, s, n, xs) || Lost(h, s, n, t)
    {
      if !Covers(h, s, n, xs) {
        assert Lost(h, s, n, t + 1);
        var u :| u in h.elected && s < u < t + 1 && !Covers(h, s, n, LeaderLog(h, u));
        assert u != t;
      }
    }
  }

  lemma GrantLogs(cfg: Config, h: History, v: NodeID, n1: Node, n': Node, candidate: NodeID)
    requires HistoryLogs(h) && NodeLogs(cfg, h, v, n1) && Standing(h, v, n1) && SameLogs(n1, n')
    requires var t := n1.currentTerm;
             && (t in h.elected && v in h.elected[t].electors ==> (t, v) in h.votes)
             && (t, candidate) in h.campaigns && AtLeast(h.campaigns[(t, candidate)], Seq(n1.log))
    ensures var h' := AddVote(h, n1.currentTerm, v, candidate, Seq(n1.log));
            HistoryStep(cfg, h, h', v) && NodeLogs(cfg, h', v, n')
  {
    var h' := AddVote(h, n1.currentTerm, v, candidate, Seq(n1.log));
    VoteHistory(cfg, h, v, n1.currentTerm, candidate, Seq(n1.log));
    NodeLogsStable(cfg, h, h', v, n1);
    SameLogsKeep(cfg, h', v, n1, n');
  }

  /** What the vote handler does, on a contiguous log. */
  lemma VoteIs(v: NodeID, n: Node, req: VoteRequest, xs: Entries)
    requires n.log == FromSeq(xs)
    ensures var r := HandleVote(v, n, req);
            && SameLogs(if req.term < n.currentTerm then n else Observe(n, req.term), r.0)
            && (r.1.voteGranted ==> req.term >= n.currentTerm)
            && (r.1.voteGranted ==>
                  req.lastLogTerm > LastTermOf(xs) || (req.lastLogTerm == LastTermOf(xs) && req.lastLogIndex >= |xs|))
  {
    FromSeqReads(xs);
  }

  lemma RecvVoteLogs(cfg: Config, h: History, v: NodeID, n: Node, req: VoteRequest)
    requires Ready(cfg, h, v, n) && MessageLogs(cfg, h, VoteReq(req))
    ensures var r := HandleVote(v, n, req);
            StepLogs(cfg, h, RecordVote(h, v, n, req), v, r.0, {VoteResp(req, r.1)})
  {
    hide Keeps, CommitOk, LeaderLogOk;
    var r := HandleVote(v, n, req);
    VoteIs(v, n, req, Seq(n.log));
    ObserveLogs(cfg, h, v, n, req.term);
    if r.1.voteGranted {
      ObserveKeeps(cfg, h, v, n, req.term);
      assert WonOk(cfg, h, req.term);
      GrantLogs(cfg, h, v, Observe(n, req.term), r.0, req.candidateId);
    } else {
      SameLogsKeep(cfg, h, v, if req.term < n.currentTerm then n else Observe(n, req.term), r.0);
    }
  }

  lemma RecvVoteReplyLogs(cfg: Config, h: History, v: NodeID, n: Node, req: VoteRequest, resp: VoteResponse)
    requires Ready(cfg, h, v, n)
    ensures StepLogs(cfg, h, h, v, HandleVoteReply(n, resp), {})
  {
    ObserveLogs(cfg, h, v, n, resp.term);
    var n1 := if n.election.None? then n else Observe(n, resp.term);
    SameLogsKeep(cfg, h, v, n1, HandleVoteReply(n, resp));
  }

  // ---------------------------------------------------------------------
  // A leader's own log
  // ---------------------------------------------------------------------

  /** Adding one entry of its own term to a leader's log `xs`. */
  lemma LeaderAppendsHistory(cfg: Config, h: History, v: NodeID, t: nat, xs: Entries, e: Elected, x: LogEntry)
    requires HistoryLogs(h) && Grounded(h, xs) && Indexed(xs, 1)
    requires e.leader == v && e.log == xs + [x] && x.term == t && x.index == |xs| + 1 && LeaderShape(h, t, e)
    requires if t in h.elected then Grows(h.elected[t], e) else forall w :: w in e.electors ==> (t, w) in h.votes
    requires forall s :: (s, v) in h.votes ==> s <= t
    ensures HistoryStep(cfg, h, AddLeader(h, t, e), v)
  {
    var h' := AddLeader(h, t, e);
    hide VoteOk, CampaignOk;
    assert TermOk(h, t) && AckOk(h, t, v) && CampaignOk(h, t, v) && VoteOk(h, t, v);
    assert Extends(h, h');
    AppendedGrounded(h, h', xs, x);
    CampaignOkStable(h, h', t, v);
    VoteOkStable(h, h', t, v);
    TermsOk(h, h', t);
    CampaignsOk(h, h', t, v);
    VotesOk(h, h', t, v);
    AcksOk(h, h', t, v);
  }

  ghost predicate LeaderShape(h: History, t: nat, e: Elected) {
    && t >= 1 && e.base < |e.log|
    && (forall i :: 0 <= i < e.base ==> e.log[i].term < t)
    && (forall i :: e.base <= i < |e.log| ==> e.log[i].term == t)
    && (t, e.leader) in h.campaigns && h.campaigns[(t, e.leader)] == e.log[..e.base]
  }

  lemma AppendedGrounded(h: History, h': History, xs: Entries, x: LogEntry)
    requires Grounded(h, xs) && Extends(h, h')
    requires x.term in h'.elected && LeaderLog(h', x.term) == xs + [x]
    ensures Grounded(h', xs + [x])
  {
    GroundedStable(h, h', xs);
    var ys := xs + [x];
    forall i | 0 <= i < |ys| ensures GroundedAt(h', ys, i) {
      if i < |xs| { assert GroundedAt(h', xs, i); }
    }
  }

  /** What the leader acknowledged, its longer log keeps. */
  lemma AppendedKeeps(h: History, h': History, v: NodeID, t: nat, xs: Entries, x: LogEntry)
    requires HistoryLogs(h) && Extends(h, h') && Keeps(h, v, xs, t + 1)
    requires t in h'.elected && LeaderLog(h', t) == xs + [x] && (t, v) in h'.acked && h'.acked[(t, v)] == |xs| + 1
    requires forall s :: (s, v) in h'.acked && s != t ==> (s, v) in h.acked && h'.acked[(s, v)] == h.acked[(s, v)]
    ensures Keeps(h', v, xs + [x], t + 1)
  {
    var ys := xs + [x];
    forall s: nat, k: nat | (s, v) in h'.acked && s < t + 1 && k <= h'.acked[(s, v)]
      ensures Covers(h', s, k, ys) || Lost(h', s, k, t + 1)
    {
      if s == t {
        assert Covers(h', s, k, ys);
      } else {
        assert AckOk(h, s, v);
        if Covers(h, s, k, xs) { CoversStable(h, h', s, k, xs); assert Covers(h', s, k, ys); }
        else { LostStable(h, h', s, k, t + 1); }
      }
    }
  }

  /** The node whose log grew by one entry of its own term. */
  lemma LeaderAppendsNode(cfg: Config, h: History, h': History, v: NodeID, n: Node, n': Node, x: LogEntry)
    requires HistoryLogs(h) && NodeLogs(cfg, h, v, n) && Extends(h, h')
    requires var t, xs := n.currentTerm, Seq(n.log);
             && n'.currentTerm == t && n'.commitIndex == n.commitIndex && n'.role == Leader
             && n'.log == FromSeq(xs + [x]) && x.term == t && x.index == |xs| + 1
             && t in h'.elected && LeaderLog(h', t) == xs + [x]
             && n'.leader.Some? && MapsOk(cfg, h', v, t, n'.leader.value)
             && (forall s :: (s, v) in h'.acked && s != t ==> (s, v) in h.acked && h'.acked[(s, v)] == h.acked[(s, v)])
             && (t, v) in h'.acked && h'.acked[(t, v)] == |xs| + 1
    ensures NodeLogs(cfg, h', v, n')
  {
    var t, xs := n.currentTerm, Seq(n.log);
    SeqOfFromSeq(xs + [x]);
    AppendedGrounded(h, h', xs, x);
    AppendedKeeps(h, h', v, t, xs, x);
    if Counts(cfg) {
      CommitOkStable(cfg, h, h', xs, n.commitIndex, t);
      CommitOkLength(cfg, h, xs, n.commitIndex, t);
      CommitOkAgrees(cfg, h', xs, xs + [x], n.commitIndex, n.commitIndex, t, t);
    }
  }

  lemma EndElectionLogs(cfg: Config, h: History, v: NodeID, n: Node)
    requires Ready(cfg, h, v, n) && n.election.Some?
    ensures var peers := cfg.Peers(v);
            StepLogs(cfg, h, RecordElection(h, v, peers, n), v, FinishElection(v, peers, n), {})
  {
    hide NodeLogs, HistoryLogs, NodeVotes, HistoryVotes;
    ReadyPlain(cfg, h, v, n);
    if Wins(cfg.Peers(v), n) {
      WinnerBecomes(h, v, cfg.Peers(v), n, Seq(n.log));
      WinLogs(cfg, h, v, n, FinishElection(v, cfg.Peers(v), n));
    } else {
      SameLogsKeep(cfg, h, v, n, FinishElection(v, cfg.Peers(v), n));
    }
  }

  lemma ReadyPlain(cfg: Config, h: History, v: NodeID, n: Node)
    requires NodeLogs(cfg, h, v, n)
    ensures n.log == FromSeq(Seq(n.log))
  {
  }

  /** The node and the record an election win leaves, from the log alone. */
  lemma WinnerBecomes(h: History, v: NodeID, peers: set<NodeID>, n: Node, xs: Entries)
    requires n.log == FromSeq(xs) && Wins(peers, n)
    ensures var n' := FinishElection(v, peers, n);
            var x := LogEntry(|xs| + 1, n.currentTerm, NOOP);
            && n'.currentTerm == n.currentTerm && n'.commitIndex == n.commitIndex && n'.role == Leader
            && n'.log == FromSeq(xs + [x])
            && n'.leader == Some(NewLeaderState(peers, |xs|))
            && RecordElection(h, v, peers, n) ==
               AddLeader(h, n.currentTerm, Elected(v, n.election.value.granted + {v}, |xs|, xs + [x]))
  {
    FromSeqReads(xs);
    var x := LogEntry(|xs| + 1, n.currentTerm, NOOP);
    FromSeqAppend(xs, x);
    SeqOfFromSeq(xs + [x]);
    SeqOfFromSeq(xs);
  }

  /** Who elected the winner of an election, and on what log. */
  lemma WinnerShape(cfg: Config, h: History, v: NodeID, n: Node, e: Elected)
    requires Ready(cfg, h, v, n) && Wins(cfg.Peers(v), n)
    requires var xs := Seq(n.log);
             e == Elected(v, n.election.value.granted + {v}, |xs|, xs + [LogEntry(|xs| + 1, n.currentTerm, NOOP)])
    ensures n.currentTerm !in h.elected && LeaderShape(h, n.currentTerm, e)
    ensures forall w :: w in e.electors ==> (n.currentTerm, w) in h.votes
    ensures forall s :: (s, v) in h.votes ==> s <= n.currentTerm
  {
    var t := n.currentTerm;
    WinnerIsFirst(cfg, h, v, n);
    assert CampaignOk(h, t, v);
    assert e.log[..e.base] == Seq(n.log);
    assert forall w :: w in e.electors ==> VotedFor(h, t, w, v);
    forall s | (s, v) in h.votes ensures s <= t { assert CastOk(h, v, n, s); }
  }

  lemma WinLogs(cfg: Config, h: History, v: NodeID, n: Node, n': Node)
    requires Ready(cfg, h, v, n) && Wins(cfg.Peers(v), n)
    requires var xs := Seq(n.log);
             && n'.currentTerm == n.currentTerm && n'.commitIndex == n.commitIndex && n'.role == Leader
             && n'.log == FromSeq(xs + [LogEntry(|xs| + 1, n.currentTerm, NOOP)])
             && n'.leader == Some(NewLeaderState(cfg.Peers(v), |xs|))
    ensures var xs := Seq(n.log);
            var e := Elected(v, n.election.value.granted + {v}, |xs|, xs + [LogEntry(|xs| + 1, n.currentTerm, NOOP)]);
            StepLogs(cfg, h, AddLeader(h, n.currentTerm, e), v, n', {})
  {
    var t, xs := n.currentTerm, Seq(n.log);
    var x := LogEntry(|xs| + 1, t, NOOP);
    var e := Elected(v, n.election.value.granted + {v}, |xs|, xs + [x]);
    WinnerShape(cfg, h, v, n, e);
    LeaderAppends(cfg, h, v, n, n', e, x);
  }

  /** A leader, old or new, takes one entry of its term into its log. */
  lemma LeaderAppends(cfg: Config, h: History, v: NodeID, n: Node, n': Node, e: Elected, x: LogEntry)
    requires HistoryLogs(h) && NodeLogs(cfg, h, v, n)
    requires var t, xs := n.currentTerm, Seq(n.log);
             && e.leader == v && e.log == xs + [x] && x.term == t && x.index == |xs| + 1 && LeaderShape(h, t, e)
             && (if t in h.elected then Grows(h.elected[t], e) else forall w :: w in e.electors ==> (t, w) in h.votes)
             && n'.currentTerm == t && n'.commitIndex == n.commitIndex && n'.role == Leader
             && n'.log == FromSeq(xs + [x]) && n'.leader.Some?
             && MapsOk(cfg, AddLeader(h, t, e), v, t, n'.leader.value)
    requires forall s :: (s, v) in h.votes ==> s <= n.currentTerm
    ensures StepLogs(cfg, h, AddLeader(h, n.currentTerm, e), v, n', {})
  {
    LeaderAppendsHistory(cfg, h, v, n.currentTerm, Seq(n.log), e, x);
    LeaderAppendsNode(cfg, h, AddLeader(h, n.currentTerm, e), v, n, n', x);
  }

  lemma ProposerBecomes(h: History, n: Node, c: Command, xs: Entries)
    requires n.log == FromSeq(xs) && n.role == Leader && n.currentTerm in h.elected
    ensures var n' := Propose(n, c);
            var x := LogEntry(|xs| + 1, n.currentTerm, c);
            && n' == n.(log := FromSeq(xs + [x]))
            && RecordCommand(h, n, c) == AddLeader(h, n.currentTerm, h.elected[n.currentTerm].(log := xs + [x]))
  {
    FromSeqReads(xs);
    FromSeqAppend(xs, LogEntry(|xs| + 1, n.currentTerm, c));
    SeqOfFromSeq(xs + [LogEntry(|xs| + 1, n.currentTerm, c)]);
  }

  lemma ClientCommandLogs(cfg: Config, h: History, v: NodeID, n: Node, c: Command)
    requires Ready(cfg, h, v, n)
    ensures StepLogs(cfg, h, RecordCommand(h, n, c), v, Propose(n, c), {})
  {
    if n.role == Leader {
      ProposerBecomes(h, n, c, Seq(n.log));
      ProposeLogs(cfg, h, v, n, Propose(n, c), LogEntry(|Seq(n.log)| + 1, n.currentTerm, c));
    }
  }

  lemma ProposeLogs(cfg: Config, h: History, v: NodeID, n: Node, n': Node, x: LogEntry)
    requires HistoryLogs(h) && NodeVotes(cfg, h, v, n) && NodeLogs(cfg, h, v, n) && n.role == Leader
    requires n' == n.(log := FromSeq(Seq(n.log) + [x])) && x.term == n.currentTerm && x.index == |Seq(n.log)| + 1
    ensures StepLogs(cfg, h, AddLeader(h, n.currentTerm, h.elected[n.currentTerm].(log := Seq(n.log) + [x])), v, n', {})
  {
    var t, xs := n.currentTerm, Seq(n.log);
    var e := h.elected[t].(log := xs + [x]);
    var h' := AddLeader(h, t, e);
    assert TermOk(h, t) && AckOk(h, t, v);
    assert e.log[..e.base] == h.elected[t].log[..e.base];
    forall s | (s, v) in h.votes ensures s <= t { assert CastOk(h, v, n, s); }
    assert Extends(h, h');
    MapsOkStable(cfg, h, h', v, t, n.leader.value);
    LeaderAppends(cfg, h, v, n, n', e, x);
  }

  /** The request a leader with a contiguous log sends: everything from `nextIndex` on. */
  lemma MakeAppendPlain(v: NodeID, n: Node, p: NodeID, xs: Entries)
    requires n.log == FromSeq(xs) && n.role == Leader && n.leader.Some?
    requires p in n.leader.value.nextIndex && 1 <= n.leader.value.nextIndex[p] <= |xs| + 1
    ensures var prev := n.leader.value.nextIndex[p] - 1;
            MakeAppend(v, n, p) ==
            Some(AppendRequest(n.currentTerm, v, prev, TermOf(xs, prev), xs[prev..], n.commitIndex))
  {
    FromSeqReads(xs);
    FromSeqRange(xs, n.leader.value.nextIndex[p], |xs|);
    assert forall prev :: 0 <= prev <= |xs| ==> xs[prev..|xs|] == xs[prev..];
  }

  /** Beyond the end of the log there is nothing to send and no term to name. */
  lemma MakeAppendBeyond(v: NodeID, n: Node, p: NodeID, xs: Entries)
    requires n.log == FromSeq(xs) && n.role == Leader && n.leader.Some?
    requires p in n.leader.value.nextIndex && n.leader.value.nextIndex[p] > |xs| + 1
    ensures MakeAppend(v, n, p) ==
            Some(AppendRequest(n.currentTerm, v, n.leader.value.nextIndex[p] - 1, 0, [], n.commitIndex))
  {
    FromSeqReads(xs);
  }

  lemma SendAppendLogs(cfg: Config, h: History, v: NodeID, n: Node, p: NodeID)
    requires Ready(cfg, h, v, n) && p in cfg.Peers(v) && MakeAppend(v, n, p).Some?
    ensures StepLogs(cfg, h, h, v, n, {AppendReq(p, MakeAppend(v, n, p).value)})
  {
    hide NodeVotes, HistoryVotes, HistoryLogs, Keeps, CommitOk, Stretch;
    var next := n.leader.value.nextIndex[p];
    if next <= |Seq(n.log)| + 1 {
      MakeAppendPlain(v, n, p, Seq(n.log));
      SentRequestOk(cfg, h, n.currentTerm, v, next - 1, n.commitIndex);
    } else {
      MakeAppendBeyond(v, n, p, Seq(n.log));
    }
  }

  lemma SentRequestOk(cfg: Config, h: History, t: nat, v: NodeID, prev: nat, commit: nat)
    requires HistoryLogs(h) && t in h.elected && prev <= |LeaderLog(h, t)|
    requires Counts(cfg) ==> CommitOk(cfg, h, LeaderLog(h, t), commit, t)
    ensures var xs := LeaderLog(h, t);
            Stretch(cfg, h, AppendRequest(t, v, prev, TermOf(xs, prev), xs[prev..], commit))
  {
    assert TermOk(h, t);
  }

  // ---------------------------------------------------------------------
  // Receiving entries
  // ---------------------------------------------------------------------

  /** Merging a stretch of a leader's log keeps the log, or makes it that leader's up to the stretch's end. */
  lemma MergeWithLeader(h: History, xs: Entries, ys: Entries, prev: nat, entries: Entries)
    requires Grounded(h, xs) && Grounded(h, ys)
    requires prev <= |xs| && prev + |entries| <= |ys|
    requires forall i :: 0 <= i < |entries| ==> entries[i] == ys[prev + i]
    requires prev > 0 ==> xs[prev - 1].term == ys[prev - 1].term
    ensures var zs := Splice.Merge(xs, prev, entries);
            var reach := prev + |entries|;
            && Same(zs, ys, reach)
            && (zs == xs || (zs == ys[..reach] && !Same(xs, ys, reach)))
  {
    var k := Splice.Agreeing(xs, prev, entries);
    var zs := Splice.Merge(xs, prev, entries);
    if prev + k > 0 {
      if k > 0 {
        assert xs[prev + (k - 1)].term == entries[k - 1].term;
      }
      SameTermSamePrefix(h, xs, ys, prev + k - 1);
    }
    if k < |entries| {
      assert zs == ys[..prev + |entries|];
      if prev + k < |xs| {
        assert xs[prev + k].term != ys[prev + k].term;
      }
    }
  }

  /** Match soundness: a log that reaches an entry of the leader's term and holds no later term is the leader's throughout. */
  lemma WholeLogMatches(h: History, zs: Entries, t: nat, reach: nat)
    requires HistoryLogs(h) && t in h.elected
    requires Grounded(h, zs) && TermsBelow(zs, t + 1)
    requires h.elected[t].base < reach && Same(zs, LeaderLog(h, t), reach)
    ensures Same(zs, LeaderLog(h, t), |zs|)
  {
    assert TermOk(h, t);
    assert zs[reach - 1].term == t;
    TermsRise(h, zs, reach - 1, |zs| - 1);
    assert GroundedAt(h, zs, |zs| - 1);
  }

  lemma PrefixGrounded(h: History, ys: Entries, n: nat)
    requires Grounded(h, ys) && n <= |ys|
    ensures Grounded(h, ys[..n])
  {
    forall i | 0 <= i < n ensures GroundedAt(h, ys[..n], i) {
      assert GroundedAt(h, ys, i);
    }
  }

  /** A merge never gives up what the node acknowledged, unless this very leader lacks it. */
  lemma MergeKeeps(h: History, v: NodeID, xs: Entries, zs: Entries, t: nat, reach: nat)
    requires t in h.elected && Keeps(h, v, xs, t + 1)
    requires Same(zs, LeaderLog(h, t), reach)
    requires zs == xs || (zs == LeaderLog(h, t)[..reach] && !Same(xs, LeaderLog(h, t), reach))
    ensures Keeps(h, v, zs, t + 1)
  {
    forall s: nat, n: nat | (s, v) in h.acked && s < t + 1 && n <= h.acked[(s, v)]
      ensures Covers(h, s, n, zs) || Lost(h, s, n, t + 1)
    {
      if zs != xs && Covers(h, s, n, xs) {
        if Covers(h, s, n, LeaderLog(h, t)) {
          SameBoth(LeaderLog(h, s), xs, LeaderLog(h, t), zs, n, reach);
        } else {
          assert s < t by {
            if s == t { SameSelf(LeaderLog(h, t), xs, n); }
          }
        }
      }
    }
  }

  lemma SameSelf(ys: Entries, xs: Entries, n: nat)
    requires Same(ys, xs, n)
    ensures Same(ys, ys, n)
  {
  }

  lemma SameBoth(as_: Entries, xs: Entries, ys: Entries, zs: Entries, n: nat, reach: nat)
    requires Same(as_, xs, n) && Same(as_, ys, n) && !Same(xs, ys, reach)
    requires Same(zs, ys, reach)
    ensures Same(as_, zs, n)
  {
    assert Same(xs, ys, n);
    assert n < reach;
  }

  /** What the node had committed stays, and what it newly commits is the leader's. */
  lemma MergeCommits(cfg: Config, h: History, xs: Entries, zs: Entries, k: nat, t0: nat, t: nat, reach: nat, commit: nat)
    requires cfg.Valid() && HistoryVotes(cfg, h) && HistoryLogs(h)
    requires t in h.elected && t0 <= t
    requires CommitOk(cfg, h, xs, k, t0) && CommitOk(cfg, h, LeaderLog(h, t), commit, t)
    requires Same(zs, LeaderLog(h, t), reach)
    requires zs == xs || (zs == LeaderLog(h, t)[..reach] && !Same(xs, LeaderLog(h, t), reach))
    ensures CommitOk(cfg, h, zs, Max(k, Min(commit, reach)), t)
  {
    LeaderHoldsCommitted(cfg, h, xs, k, t0, t);
    OldPrefixStays(xs, zs, LeaderLog(h, t), k, reach);
    CommitOkAgrees(cfg, h, xs, zs, k, k, t0, t);
    CommitOkAgrees(cfg, h, LeaderLog(h, t), zs, commit, Min(commit, reach), t, t);
  }

  lemma OldPrefixStays(xs: Entries, zs: Entries, ys: Entries, k: nat, reach: nat)
    requires Same(xs, ys, k) && Same(zs, ys, reach)
    requires zs == xs || (zs == ys[..reach] && !Same(xs, ys, reach))
    ensures Same(xs, zs, k)
  {
    if zs != xs { assert k < reach; }
  }

  lemma AckHistory(cfg: Config, h: History, v: NodeID, t: nat, m: nat)
    requires HistoryLogs(h) && t in h.elected && h.elected[t].leader != v && m <= |LeaderLog(h, t)|
    requires forall s :: (s, v) in h.votes ==> s <= t
    ensures HistoryStep(cfg, h, AddAck(h, t, v, m), v)
  {
    var h' := AddAck(h, t, v, m);
    assert TermOk(h, t) && AckOk(h, t, v) && CampaignOk(h, t, v) && VoteOk(h, t, v);
    assert Extends(h, h');
    TermOkStable(h, h', t);
    if (t, v) in h.campaigns { CampaignOkStable(h, h', t, v); }
    if (t, v) in h.votes { VoteOkStable(h, h', t, v); }
    TermsOk(h, h', t);
    CampaignsOk(h, h', t, v);
    VotesOk(h, h', t, v);
    AcksOk(h, h', t, v);
  }

  lemma AckKeeps(h: History, h': History, v: NodeID, zs: Entries, t: nat)
    requires HistoryLogs(h) && Extends(h, h') && h'.elected == h.elected && Keeps(h, v, zs, t + 1)
    requires t in h.elected && Same(zs, LeaderLog(h, t), |zs|)
    requires h' == AddAck(h, t, v, |zs|)
    ensures Keeps(h', v, zs, t + 1)
  {
    forall s: nat, n: nat | (s, v) in h'.acked && s < t + 1 && n <= h'.acked[(s, v)]
      ensures Covers(h', s, n, zs) || Lost(h', s, n, t + 1)
    {
      if s == t && n <= |zs| {
        assert Covers(h', s, n, zs);
      } else {
        assert (s, v) in h.acked && n <= h.acked[(s, v)];
        if !Covers(h, s, n, zs) {
          assert Lost(h, s, n, t + 1);
          var u :| u in h.elected && s < u < t + 1 && !Covers(h, s, n, LeaderLog(h, u));
          assert !Covers(h', s, n, LeaderLog(h', u));
        }
      }
    }
  }

  /** A request that is refused leaves the log and only moves the term. */
  lemma RefusedIs(variant: Variant, v: NodeID, n: Node, req: AppendRequest)
    requires !HandleAppend(variant, v, n, req).1.success
    ensures SameLogs(if req.term < n.currentTerm then n else Observe(n, req.term), HandleAppend(variant, v, n, req).0)
  {
  }

  lemma RefuseLogs(cfg: Config, h: History, v: NodeID, n: Node, req: AppendRequest)
    requires Ready(cfg, h, v, n) && RequestOk(cfg, h, req)
    requires !HandleAppend(cfg.variant, v, n, req).1.success
    ensures var r := HandleAppend(cfg.variant, v, n, req);
            StepLogs(cfg, h, RecordAppend(h, v, req, r.1), v, r.0, {AppendResp(req, r.1)})
  {
    RefusedIs(cfg.variant, v, n, req);
    ObserveLogs(cfg, h, v, n, req.term);
    SameLogsKeep(cfg, h, v, if req.term < n.currentTerm then n else Observe(n, req.term), HandleAppend(cfg.variant, v, n, req).0);
  }

  lemma RequestIndexed(cfg: Config, h: History, req: AppendRequest)
    requires HistoryLogs(h) && RequestOk(cfg, h, req)
    ensures Indexed(req.entries, req.prevLogIndex + 1)
  {
    assert TermOk(h, req.term);
    var ys := LeaderLog(h, req.term);
    forall i | 0 <= i < |req.entries| ensures req.entries[i].index == req.prevLogIndex + 1 + i {
      assert ys[req.prevLogIndex + i].index == 1 + (req.prevLogIndex + i);
    }
  }

  lemma GroundedPositive(h: History, xs: Entries)
    requires HistoryLogs(h) && Grounded(h, xs)
    ensures Splice.PositiveTerms(xs)
  {
    forall i | 0 <= i < |xs| ensures xs[i].term >= 1 {
      TermsRise(h, xs, i, i);
    }
  }

  lemma AcceptIs(v: NodeID, n: Node, req: AppendRequest)
    requires HandleAppend(INTENDED, v, n, req).1.success
    ensures req.term >= n.currentTerm && req.prevLogIndex <= LastIndex(n.log)
    ensures req.prevLogIndex > 0 ==> TermAt(n.log, req.prevLogIndex) == req.prevLogTerm
    ensures var r := HandleAppend(INTENDED, v, n, req);
            var l := NodeModel.Splice(true, n.log, req.prevLogIndex, req.entries);
            && r.0 == Observe(n, req.term).(leaderID := req.leaderId, log := l,
                 commitIndex := Max(n.commitIndex, Min(req.leaderCommit, req.prevLogIndex + |req.entries|)))
            && r.1.matchIndex == LastIndex(l) && r.1.followerId == v
  {
  }

  /** What the handler does with an acceptable request when the log is contiguous. */
  lemma AcceptPlain(v: NodeID, n: Node, req: AppendRequest, xs: Entries)
    requires n.log == FromSeq(xs) && Splice.PositiveTerms(xs) && Indexed(req.entries, req.prevLogIndex + 1)
    requires HandleAppend(INTENDED, v, n, req).1.success
    ensures req.term >= n.currentTerm && req.prevLogIndex <= |xs|
    ensures req.prevLogIndex > 0 ==> xs[req.prevLogIndex - 1].term == req.prevLogTerm
    ensures var r := HandleAppend(INTENDED, v, n, req);
            var zs := Splice.Merge(xs, req.prevLogIndex, req.entries);
            && r.0 == Observe(n, req.term).(leaderID := req.leaderId, log := FromSeq(zs),
                 commitIndex := Max(n.commitIndex, Min(req.leaderCommit, req.prevLogIndex + |req.entries|)))
            && r.1.matchIndex == |zs| && r.1.followerId == v
  {
    AcceptIs(v, n, req);
    FromSeqReads(xs);
    Splice.IntendedIsMerge(xs, req.prevLogIndex, req.entries);
    FromSeqReads(Splice.Merge(xs, req.prevLogIndex, req.entries));
  }

  /** The log an accepted request leaves, against the sender's. */
  ghost predicate AcceptedAs(h: History, xs: Entries, zs: Entries, t: nat, reach: nat) {
    && t in h.elected && Same(zs, LeaderLog(h, t), reach)
    && (zs == xs || (zs == LeaderLog(h, t)[..reach] && !Same(xs, LeaderLog(h, t), reach)))
  }

  lemma MergeAccepted(cfg: Config, h: History, xs: Entries, req: AppendRequest)
    requires HistoryLogs(h) && Stretch(cfg, h, req) && Grounded(h, xs) && req.prevLogIndex <= |xs|
    requires req.prevLogIndex > 0 ==> xs[req.prevLogIndex - 1].term == req.prevLogTerm
    ensures AcceptedAs(h, xs, Splice.Merge(xs, req.prevLogIndex, req.entries), req.term, req.prevLogIndex + |req.entries|)
  {
    assert TermOk(h, req.term);
    MergeWithLeader(h, xs, LeaderLog(h, req.term), req.prevLogIndex, req.entries);
  }

  lemma AcceptedLogOk(h: History, xs: Entries, zs: Entries, t: nat, reach: nat)
    requires HistoryLogs(h) && AcceptedAs(h, xs, zs, t, reach) && h.elected[t].base < reach
    requires Grounded(h, xs) && Indexed(xs, 1) && TermsBelow(xs, t + 1)
    ensures LogOk(h, FromSeq(zs), t) && Seq(FromSeq(zs)) == zs
    ensures Same(zs, LeaderLog(h, t), |zs|)
  {
    assert TermOk(h, t);
    PrefixGrounded(h, LeaderLog(h, t), reach);
    SeqOfFromSeq(zs);
    WholeLogMatches(h, zs, t, reach);
  }

  /** The accepting node, in the history that records its acknowledgement. */
  lemma AcceptNode(cfg: Config, h: History, v: NodeID, n1: Node, n': Node, zs: Entries, reach: nat, commit: nat)
    requires cfg.Valid() && HistoryVotes(cfg, h) && HistoryLogs(h) && NodeLogs(cfg, h, v, n1) && n1.role != Leader
    requires var t := n1.currentTerm;
             && AcceptedAs(h, Seq(n1.log), zs, t, reach) && h.elected[t].base < reach
             && n'.currentTerm == t && n'.role == n1.role && n'.log == FromSeq(zs)
             && n'.commitIndex == Max(n1.commitIndex, Min(commit, reach))
             && (Counts(cfg) ==> CommitOk(cfg, h, LeaderLog(h, t), commit, t))
             && Extends(h, AddAck(h, t, v, |zs|))
    ensures NodeLogs(cfg, AddAck(h, n1.currentTerm, v, |zs|), v, n')
  {
    var t, xs := n1.currentTerm, Seq(n1.log);
    var h' := AddAck(h, t, v, |zs|);
    AcceptedLogOk(h, xs, zs, t, reach);
    LogOkStable(h, h', FromSeq(zs), t);
    MergeKeeps(h, v, xs, zs, t, reach);
    AckKeeps(h, h', v, zs, t);
    if Counts(cfg) {
      MergeCommits(cfg, h, xs, zs, n1.commitIndex, t, t, reach, commit);
      CommitOkStable(cfg, h, h', zs, n'.commitIndex, t);
    }
  }

  /** The loop as written does here what the intended one does. */
  ghost predicate AsIntended(cfg: Config, v: NodeID, n: Node, req: AppendRequest) {
    HandleAppend(cfg.variant, v, n, req) == HandleAppend(INTENDED, v, n, req)
  }

  lemma HopelessRefused(h: History, v: NodeID, n: Node, req: AppendRequest, xs: Entries)
    requires n.log == FromSeq(xs) && Splice.PositiveTerms(xs) && Hopeless(h, req)
    ensures !HandleAppend(INTENDED, v, n, req).1.success
  {
    FromSeqReads(xs);
  }

  lemma AcceptLogs(cfg: Config, h: History, v: NodeID, n: Node, req: AppendRequest)
    requires Ready(cfg, h, v, n) && RequestOk(cfg, h, req) && MessageVotes(cfg, h, AppendReq(v, req))
    requires AsIntended(cfg, v, n, req) && HandleAppend(cfg.variant, v, n, req).1.success
    ensures var r := HandleAppend(cfg.variant, v, n, req);
            StepLogs(cfg, h, RecordAppend(h, v, req, r.1), v, r.0, {AppendResp(req, r.1)})
  {
    var t, xs := req.term, Seq(n.log);
    GroundedPositive(h, xs);
    if Hopeless(h, req) { HopelessRefused(h, v, n, req, xs); }
    RequestIndexed(cfg, h, req);
    AcceptPlain(v, n, req, xs);
    MergeAccepted(cfg, h, xs, req);
    var r := HandleAppend(INTENDED, v, n, req);
    AcceptStep(cfg, h, v, n, req, r.0, r.1, Splice.Merge(xs, req.prevLogIndex, req.entries));
  }

  lemma AcceptStep(cfg: Config, h: History, v: NodeID, n: Node, req: AppendRequest, n': Node, resp: AppendResponse, zs: Entries)
    requires Ready(cfg, h, v, n) && Stretch(cfg, h, req) && MessageVotes(cfg, h, AppendReq(v, req))
    requires req.term >= n.currentTerm
    requires AcceptedAs(h, Seq(n.log), zs, req.term, req.prevLogIndex + |req.entries|)
    requires n' == Observe(n, req.term).(leaderID := req.leaderId, log := FromSeq(zs),
                     commitIndex := Max(n.commitIndex, Min(req.leaderCommit, req.prevLogIndex + |req.entries|)))
    requires resp.success && resp.matchIndex == |zs| && resp.followerId == v
    ensures StepLogs(cfg, h, AddAck(h, req.term, v, |zs|), v, n', {AppendResp(req, resp)})
  {
    var t, reach := req.term, req.prevLogIndex + |req.entries|;
    AcceptorIs(cfg, h, v, n, t);
    AcceptedLogOk(h, Seq(n.log), zs, t, reach);
    AckHistory(cfg, h, v, t, |zs|);
    AcceptNode(cfg, h, v, Observe(n, t), n', zs, reach, req.leaderCommit);
  }

  /** A node that takes a request of term `t` from the leader of that term. */
  lemma AcceptorIs(cfg: Config, h: History, v: NodeID, n: Node, t: nat)
    requires Ready(cfg, h, v, n) && t >= n.currentTerm && t in h.elected && h.elected[t].leader != v
    ensures var n1 := Observe(n, t);
            NodeLogs(cfg, h, v, n1) && n1.currentTerm == t && n1.role != Leader
    ensures forall s :: (s, v) in h.votes ==> s <= t
  {
    ObserveLogs(cfg, h, v, n, t);
    ObserveKeeps(cfg, h, v, n, t);
    forall s | (s, v) in h.votes ensures s <= t { assert CastOk(h, v, Observe(n, t), s); }
  }

  lemma RecvAppendLogs(cfg: Config, h: History, v: NodeID, n: Node, req: AppendRequest)
    requires Ready(cfg, h, v, n) && RequestOk(cfg, h, req) && MessageVotes(cfg, h, AppendReq(v, req))
    requires AsIntended(cfg, v, n, req)
    ensures var r := HandleAppend(cfg.variant, v, n, req);
            StepLogs(cfg, h, RecordAppend(h, v, req, r.1), v, r.0, {AppendResp(req, r.1)})
  {
    if HandleAppend(cfg.variant, v, n, req).1.success {
      AcceptLogs(cfg, h, v, n, req);
    } else {
      RefuseLogs(cfg, h, v, n, req);
    }
  }

  // ---------------------------------------------------------------------
  // Replies, commitment and the local steps
  // ---------------------------------------------------------------------

  /** The peers counted by the leader, with the leader itself, acknowledged the index. */
  lemma ScanCommits(cfg: Config, h: History, v: NodeID, t: nat, ls: LeaderState, r: nat)
    requires cfg.Valid() && v in cfg.nodes && HistoryLogs(h)
    requires t in h.elected && h.elected[t].leader == v && 1 <= r <= |LeaderLog(h, t)| && LeaderLog(h, t)[r - 1].term == t
    requires Counts(cfg) && MapsOk(cfg, h, v, t, ls)
    requires 1 + |Holders(ls.matchIndex, r)| >= CommitMajority(|ls.matchIndex|)
    ensures Committed(cfg, h, t, r)
  {
    assert TermOk(h, t);
    assert r > h.elected[t].base;
    var holders := Holders(ls.matchIndex, r);
    forall p | p in holders ensures p in Ackers(cfg, h, t, r) {
      assert ls.matchIndex[p] <= Credit(cfg, h, t, p);
    }
    assert holders + {v} <= Ackers(cfg, h, t, r);
    CardinalityBound(Ackers(cfg, h, t, r), holders + {v});
    assert |holders + {v}| == |holders| + 1;
    assert |ls.matchIndex| == |ls.matchIndex.Keys| == |cfg.nodes| - 1;
  }

  lemma RaisedMaps(cfg: Config, h: History, v: NodeID, t: nat, ls: LeaderState, p: NodeID, m: nat)
    requires p in cfg.Peers(v) && MapsOk(cfg, h, v, t, ls) && (Counts(cfg) ==> m <= Credit(cfg, h, t, p))
    ensures MapsOk(cfg, h, v, t, LeaderState(ls.nextIndex[p := m + 1], ls.matchIndex[p := m]))
  {
  }

  /** With at most three nodes a leader and one acknowledgement are a commit majority. What a reply of
      an earlier term acknowledged is therefore in the log the leader was elected with. */
  lemma StaleReplyCredit(cfg: Config, h: History, v: NodeID, s: nat, t: nat, p: NodeID, m: nat)
    requires cfg.Valid() && |cfg.nodes| <= 3 && HistoryVotes(cfg, h) && HistoryLogs(h)
    requires v in cfg.nodes && p in cfg.Peers(v) && s < t && s in h.elected && t in h.elected && h.elected[s].leader == v
    requires h.elected[s].base < m <= AckedUpTo(h, s, p)
    ensures m <= h.elected[t].base
  {
    assert TermOk(h, s) && TermOk(h, t) && AckOk(h, s, p);
    assert {v, p} <= Ackers(cfg, h, s, m);
    CardinalityBound(Ackers(cfg, h, s, m), {v, p});
    LaterLeadersHold(cfg, h, s, m, t);
    assert LeaderLog(h, t)[m - 1] == LeaderLog(h, s)[m - 1];
  }

  lemma ReplyCredit(cfg: Config, h: History, v: NodeID, t: nat, req: AppendRequest, resp: AppendResponse)
    requires cfg.Valid() && HistoryVotes(cfg, h) && HistoryLogs(h) && v in cfg.nodes
    requires MessageVotes(cfg, h, AppendResp(req, resp)) && MessageLogs(cfg, h, AppendResp(req, resp))
    requires req.leaderId == v && req.term <= t && t in h.elected && resp.success
    requires req.term == t || (|cfg.nodes| <= 3 && !cfg.variant.checkReplyTerm)
    ensures resp.matchIndex <= Credit(cfg, h, t, resp.followerId)
  {
    if req.term < t { StaleReplyCredit(cfg, h, v, req.term, t, resp.followerId, resp.matchIndex); }
  }

  /** What the scan of a contiguous log finds. */
  lemma ScanFinds(matches: map<NodeID, nat>, commit: nat, t: nat, xs: Entries)
    ensures LastIndex(FromSeq(xs)) == |xs|
    ensures var r := CommitScan(matches, commit, |xs|, t, FromSeq(xs));
            r > 0 ==> r <= |xs| && xs[r - 1].term == t && 1 + |Holders(matches, r)| >= CommitMajority(|matches|)
  {
    FromSeqReads(xs);
    CommitRule.ScanIsGreatest(matches, commit, |xs|, t, FromSeq(xs));
  }

  /** The commit index a leader finds is committed. */
  lemma FoundCommits(cfg: Config, h: History, v: NodeID, t: nat, xs: Entries, commit: nat, ls: LeaderState)
    requires cfg.Valid() && v in cfg.nodes && HistoryLogs(h) && MapsOk(cfg, h, v, t, ls)
    requires t in h.elected && h.elected[t].leader == v && xs == LeaderLog(h, t)
    ensures LastIndex(FromSeq(xs)) == |xs|
    ensures var r := CommitScan(ls.matchIndex, commit, |xs|, t, FromSeq(xs));
            Counts(cfg) && r > 0 ==> CommitOk(cfg, h, xs, r, t)
  {
    ScanFinds(ls.matchIndex, commit, t, xs);
    var r := CommitScan(ls.matchIndex, commit, |xs|, t, FromSeq(xs));
    if Counts(cfg) && r > 0 {
      ScanCommits(cfg, h, v, t, ls, r);
      assert CommittedPrefix(cfg, h, xs, r, t, r);
    }
  }

  lemma NewMapsKeep(cfg: Config, h: History, v: NodeID, n: Node, n': Node)
    requires NodeLogs(cfg, h, v, n) && n.role == Leader
    requires n' == n.(leader := n'.leader, commitIndex := n'.commitIndex) && n'.leader.Some?
    requires MapsOk(cfg, h, v, n.currentTerm, n'.leader.value)
    requires Counts(cfg) ==> CommitOk(cfg, h, Seq(n.log), n'.commitIndex, n.currentTerm)
    ensures NodeLogs(cfg, h, v, n')
  {
  }

  /** A reply that the leader uses. */
  ghost predicate Used(variant: Variant, n: Node, req: AppendRequest, resp: AppendResponse) {
    n.role == Leader && resp.term <= n.currentTerm && (variant.checkReplyTerm ==> n.currentTerm == req.term)
  }

  ghost function Raised(ls: LeaderState, resp: AppendResponse): LeaderState {
    var m := Max(Lookup(ls.matchIndex, resp.followerId), resp.matchIndex);
    LeaderState(ls.nextIndex[resp.followerId := m + 1], ls.matchIndex[resp.followerId := m])
  }

  /** What a used reply does, in terms of the maps and the scan. */
  lemma CountedReplyIs(variant: Variant, n: Node, req: AppendRequest, resp: AppendResponse)
    requires Used(variant, n, req, resp) && n.leader.Some? && resp.success
    ensures var n' := HandleAppendReply(variant, n, req, resp);
            var ls1 := Raised(n.leader.value, resp);
            var found := CommitScan(ls1.matchIndex, n.commitIndex, LastIndex(n.log), n.currentTerm, n.log);
            n' == n.(leader := Some(ls1), commitIndex := if found > 0 then found else n.commitIndex)
  {
  }

  lemma LoweredReplyIs(variant: Variant, n: Node, req: AppendRequest, resp: AppendResponse)
    requires Used(variant, n, req, resp) && n.leader.Some? && !resp.success
    requires resp.followerId in n.leader.value.nextIndex
    requires forall p :: p in n.leader.value.nextIndex ==> 1 <= n.leader.value.nextIndex[p]
    ensures var n' := HandleAppendReply(variant, n, req, resp);
            && n'.leader.Some? && n' == n.(leader := n'.leader)
            && n'.leader.value.matchIndex == n.leader.value.matchIndex
            && n'.leader.value.nextIndex.Keys == n.leader.value.nextIndex.Keys
            && forall p :: p in n'.leader.value.nextIndex ==> 1 <= n'.leader.value.nextIndex[p]
  {
  }

  lemma CountedMaps(cfg: Config, h: History, v: NodeID, n: Node, req: AppendRequest, resp: AppendResponse)
    requires Ready(cfg, h, v, n) && n.role == Leader && req.leaderId == v && resp.success
    requires MessageVotes(cfg, h, AppendResp(req, resp)) && MessageLogs(cfg, h, AppendResp(req, resp))
    requires cfg.variant.checkReplyTerm ==> n.currentTerm == req.term
    ensures MapsOk(cfg, h, v, n.currentTerm, Raised(n.leader.value, resp))
  {
    var t, ls, p := n.currentTerm, n.leader.value, resp.followerId;
    assert LedOk(h, v, n, req.term);
    if Counts(cfg) { ReplyCredit(cfg, h, v, t, req, resp); }
    RaisedMaps(cfg, h, v, t, ls, p, Max(Lookup(ls.matchIndex, p), resp.matchIndex));
  }

  lemma CountedReplyLogs(cfg: Config, h: History, v: NodeID, n: Node, ls: LeaderState, n': Node)
    requires cfg.Valid() && v in cfg.nodes && HistoryLogs(h) && NodeLogs(cfg, h, v, n)
    requires n.role == Leader && h.elected[n.currentTerm].leader == v && MapsOk(cfg, h, v, n.currentTerm, ls)
    requires var found := CommitScan(ls.matchIndex, n.commitIndex, LastIndex(n.log), n.currentTerm, n.log);
             n' == n.(leader := Some(ls), commitIndex := if found > 0 then found else n.commitIndex)
    ensures NodeLogs(cfg, h, v, n')
  {
    FoundCommits(cfg, h, v, n.currentTerm, Seq(n.log), n.commitIndex, ls);
    NewMapsKeep(cfg, h, v, n, n');
  }

  lemma UsedReplyLogs(cfg: Config, h: History, v: NodeID, n: Node, req: AppendRequest, resp: AppendResponse)
    requires Ready(cfg, h, v, n) && Used(cfg.variant, n, req, resp) && req.leaderId == v
    requires MessageVotes(cfg, h, AppendResp(req, resp)) && MessageLogs(cfg, h, AppendResp(req, resp))
    ensures NodeLogs(cfg, h, v, HandleAppendReply(cfg.variant, n, req, resp))
  {
    var n' := HandleAppendReply(cfg.variant, n, req, resp);
    if resp.success {
      CountedReplyIs(cfg.variant, n, req, resp);
      CountedMaps(cfg, h, v, n, req, resp);
      CountedReplyLogs(cfg, h, v, n, Raised(n.leader.value, resp), n');
    } else {
      LoweredReplyIs(cfg.variant, n, req, resp);
      NewMapsKeep(cfg, h, v, n, n');
    }
  }

  lemma RecvAppendReplyLogs(cfg: Config, h: History, v: NodeID, n: Node, req: AppendRequest, resp: AppendResponse)
    requires Ready(cfg, h, v, n) && req.leaderId == v
    requires MessageVotes(cfg, h, AppendResp(req, resp)) && MessageLogs(cfg, h, AppendResp(req, resp))
    ensures StepLogs(cfg, h, h, v, HandleAppendReply(cfg.variant, n, req, resp), {})
  {
    if Used(cfg.variant, n, req, resp) {
      UsedReplyLogs(cfg, h, v, n, req, resp);
    } else {
      IgnoredReply(cfg.variant, n, req, resp);
      ObserveLogs(cfg, h, v, n, resp.term);
    }
  }

  lemma IgnoredReply(variant: Variant, n: Node, req: AppendRequest, resp: AppendResponse)
    requires !Used(variant, n, req, resp)
    ensures var n' := HandleAppendReply(variant, n, req, resp);
            n' == n || n' == Observe(n, resp.term)
  {
  }

  lemma ApplyLogs(cfg: Config, h: History, v: NodeID, n: Node)
    requires Ready(cfg, h, v, n)
    ensures StepLogs(cfg, h, h, v, ApplyCommitted(n), {})
  {
    ApplyKeepsVotes(n);
    SameLogsKeep(cfg, h, v, n, ApplyCommitted(n));
  }

  lemma CrashLogs(cfg: Config, h: History, v: NodeID, n: Node)
    requires Ready(cfg, h, v, n)
    ensures StepLogs(cfg, h, h, v, Restart(n, cfg.persistentStore), {})
  {
    assert Reopen(n.log) == n.log;
    assert NodeLogs(cfg, h, v, Restart(n, cfg.persistentStore));
  }

  /** Steps that may touch the log. */
  ghost predicate Logging(ev: Event) {
    ev.EndElection? || ev.ClientCommand? || ev.RecvAppend?
  }

  lemma OtherStepsKeepLog(cfg: Config, v: NodeID, n: Node, ev: Event)
    requires !Logging(ev) && Plain(n.log)
    ensures NodeStep(cfg, v, n, ev).0.log == n.log
  {
    match ev
    case Apply => ApplyKeepsVotes(n);
    case Crash => assert Reopen(n.log) == n.log;
    case _ =>
  }

  /** Steps that read nothing from the network. */
  ghost predicate Local(ev: Event) {
    ev.Timeout? || ev.EndElection? || ev.ClientCommand? || ev.SendAppend? || ev.Apply? || ev.Crash?
  }

  lemma LocalStepLogs(cfg: Config, h: History, c: State, a: Label)
    requires Enabled(cfg, c, a.node, a.event) && Ready(cfg, h, a.node, c.nodes[a.node]) && Local(a.event)
    ensures var n := c.nodes[a.node];
            var r := NodeStep(cfg, a.node, n, a.event);
            StepLogs(cfg, h, Record(cfg, h, a.node, n, a.event), a.node, r.0, r.1)
  {
    hide Ready, StepLogs;
    var v, n := a.node, c.nodes[a.node];
    match a.event
    case Timeout => TimeoutLogs(cfg, h, v, n);
    case EndElection => EndElectionLogs(cfg, h, v, n);
    case ClientCommand(cmd) => ClientCommandLogs(cfg, h, v, n, cmd);
    case SendAppend(p) => SendAppendLogs(cfg, h, v, n, p);
    case Apply => ApplyLogs(cfg, h, v, n);
    case Crash => CrashLogs(cfg, h, v, n);
  }

  /** What the invariant says of the message a step receives. */
  ghost predicate ReceivedOk(cfg: Config, h: History, v: NodeID, ev: Event) {
    match ev
    case RecvVote(req) => MessageLogs(cfg, h, VoteReq(req))
    case RecvVoteReply(_, _) => true
    case RecvAppend(req) => MessageVotes(cfg, h, AppendReq(v, req)) && RequestOk(cfg, h, req)
    case RecvAppendReply(req, resp) =>
      MessageVotes(cfg, h, AppendResp(req, resp)) && MessageLogs(cfg, h, AppendResp(req, resp)) && req.leaderId == v
    case _ => false
  }

  /** The entry loop, if the step runs it, does what is intended. */
  ghost predicate Guarded(cfg: Config, v: NodeID, n: Node, ev: Event) {
    ev.RecvAppend? ==> AsIntended(cfg, v, n, ev.append)
  }

  lemma ReceiveStepLogs(cfg: Config, h: History, v: NodeID, n: Node, ev: Event)
    requires Ready(cfg, h, v, n) && ReceivedOk(cfg, h, v, ev) && Guarded(cfg, v, n, ev)
    ensures var r := NodeStep(cfg, v, n, ev);
            StepLogs(cfg, h, Record(cfg, h, v, n, ev), v, r.0, r.1)
  {
    match ev
    case RecvVote(req) => RecvVoteLogs(cfg, h, v, n, req);
    case RecvVoteReply(req, resp) => RecvVoteReplyLogs(cfg, h, v, n, req, resp);
    case RecvAppend(req) => RecvAppendLogs(cfg, h, v, n, req);
    case RecvAppendReply(req, resp) => RecvAppendReplyLogs(cfg, h, v, n, req, resp);
  }

  lemma ReceivedIsOk(cfg: Config, h: History, c: State, a: Label)
    requires LogsInv(cfg, h, c) && Enabled(cfg, c, a.node, a.event) && !Local(a.event)
    ensures ReceivedOk(cfg, h, a.node, a.event)
  {
    match a.event
    case RecvVote(req) => assert MessageLogs(cfg, h, VoteReq(req));
    case RecvVoteReply(req, resp) =>
    case RecvAppend(req) =>
      assert MessageVotes(cfg, h, AppendReq(a.node, req)) && MessageLogs(cfg, h, AppendReq(a.node, req));
    case RecvAppendReply(req, resp) =>
      assert MessageVotes(cfg, h, AppendResp(req, resp)) && MessageLogs(cfg, h, AppendResp(req, resp));
  }

  lemma EveryStepLogs(cfg: Config, h: History, c: State, a: Label)
    requires cfg.Valid() && SafeSize(|cfg.nodes|) && LogsInv(cfg, h, c)
    requires Enabled(cfg, c, a.node, a.event) && Guarded(cfg, a.node, c.nodes[a.node], a.event)
    ensures var n := c.nodes[a.node];
            var r := NodeStep(cfg, a.node, n, a.event);
            StepLogs(cfg, h, Record(cfg, h, a.node, n, a.event), a.node, r.0, r.1)
  {
    assert NodeVotes(cfg, h, a.node, c.nodes[a.node]);
    if Local(a.event) {
      LocalStepLogs(cfg, h, c, a);
    } else {
      ReceivedIsOk(cfg, h, c, a);
      ReceiveStepLogs(cfg, h, a.node, c.nodes[a.node], a.event);
    }
  }

  lemma LogsInvFrom(cfg: Config, h: History, h': History, c: State, v: NodeID, n': Node, msgs: set<Message>)
    requires LogsInv(cfg, h, c) && v in cfg.nodes && StepLogs(cfg, h, h', v, n', msgs)
    requires VotesInv(cfg, h', State(c.nodes[v := n'], c.msgs + msgs))
    ensures LogsInv(cfg, h', State(c.nodes[v := n'], c.msgs + msgs))
  {
    hide NodeLogs, MessageLogs, HistoryLogs, Ballot, Standing, InFlight;
    var c' := State(c.nodes[v := n'], c.msgs + msgs);
    forall w | w in cfg.nodes ensures NodeLogs(cfg, h', w, c'.nodes[w]) {
      if w != v {
        assert NodeVotes(cfg, h, w, c.nodes[w]);
        NodeLogsStable(cfg, h, h', w, c.nodes[w]);
      }
    }
    forall m | m in c'.msgs ensures MessageLogs(cfg, h', m) {
      if m in c.msgs { MessageLogsStable(cfg, h, h', m); }
    }
  }

  lemma LogsInvStep(cfg: Config, h: History, c: State, a: Label)
    requires cfg.Valid() && SafeSize(|cfg.nodes|) && LogsInv(cfg, h, c)
    requires Enabled(cfg, c, a.node, a.event) && Guarded(cfg, a.node, c.nodes[a.node], a.event)
    ensures LogsInv(cfg, Record(cfg, h, a.node, c.nodes[a.node], a.event), Next(cfg, c, a))
    ensures Extends(h, Record(cfg, h, a.node, c.nodes[a.node], a.event))
  {
    VotesInvStep(cfg, h, c, a);
    EveryStepLogs(cfg, h, c, a);
    var r := NodeStep(cfg, a.node, c.nodes[a.node], a.event);
    LogsInvFrom(cfg, h, Record(cfg, h, a.node, c.nodes[a.node], a.event), c, a.node, r.0, r.1);
  }

  lemma InitialLogs(cfg: Config, h: History, c: State)
    requires cfg.Valid() && Init(cfg, c) && h == NOTHING
    ensures LogsInv(cfg, h, c)
  {
    InitialVotes(cfg, h, c);
    SeqOfFromSeq([]);
    assert FromSeq([]) == EMPTY by { assert FromSeq([]).entries == map[]; }
  }

  ghost predicate LogsInvAt(cfg: Config, r: Run, hs: seq<History>, i: nat)
    requires i < |r.states| && i < |hs|
  {
    LogsInv(cfg, hs[i], r.states[i])
  }

  lemma LogsInvNext(cfg: Config, r: Run, hs: seq<History>, i: nat)
    requires IsRun(cfg, r) && Recorded(cfg, r, hs) && i < |r.labels|
    requires SafeSize(|cfg.nodes|) && LogsInvAt(cfg, r, hs, i) && r.labels[i].node in r.states[i].nodes
    requires Guarded(cfg, r.labels[i].node, r.states[i].nodes[r.labels[i].node], r.labels[i].event)
    ensures LogsInvAt(cfg, r, hs, i + 1)
  {
    assert StepAt(cfg, r, i) && RecordedAt(cfg, r, hs, i);
    LogsInvStep(cfg, hs[i], r.states[i], r.labels[i]);
  }

  lemma LogsInvFirst(cfg: Config, r: Run, hs: seq<History>, i: nat)
    requires IsRun(cfg, r) && Recorded(cfg, r, hs) && i == 0
    ensures LogsInvAt(cfg, r, hs, i)
  {
    InitialLogs(cfg, hs[i], r.states[i]);
  }
}
