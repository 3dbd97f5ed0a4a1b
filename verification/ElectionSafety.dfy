/** Votes, elections and terms: at most one leader per term, for every variant of the code. */
module ElectionSafety {
  import opened Types
  import opened LogModel
  import opened NodeModel
  import opened Quorum
  import opened Cluster
  import opened History

  // ---------------------------------------------------------------------
  // The invariant
  // ---------------------------------------------------------------------

  ghost predicate VotedFor(h: History, t: nat, v: NodeID, candidate: NodeID) {
    (t, v) in h.votes && h.votes[(t, v)].candidate == candidate
  }

  ghost predicate WonBy(cfg: Config, h: History, t: nat, e: Elected) {
    && e.leader in cfg.nodes && e.electors <= cfg.nodes
    && |e.electors| >= WinningVotes(|cfg.nodes|)
    && forall v :: v in e.electors ==> VotedFor(h, t, v, e.leader)
  }

  ghost predicate WonOk(cfg: Config, h: History, t: nat) {
    t in h.elected ==> WonBy(cfg, h, t, h.elected[t])
  }

  ghost predicate VoteInCluster(cfg: Config, h: History, t: nat, v: NodeID) {
    (t, v) in h.votes ==> v in cfg.nodes && h.votes[(t, v)].candidate in cfg.nodes
  }

  ghost predicate HistoryVotes(cfg: Config, h: History) {
    && (forall t: nat, v: NodeID :: VoteInCluster(cfg, h, t, v))
    && (forall t: nat :: WonOk(cfg, h, t))
  }

  /** The vote `v` cast in term `t`, if any, is not later than its current term, nor another in that term. */
  ghost predicate CastOk(h: History, v: NodeID, n: Node, t: nat) {
    (t, v) in h.votes ==>
      t <= n.currentTerm && (t == n.currentTerm ==> n.votedFor == h.votes[(t, v)].candidate)
  }

  ghost predicate LedOk(h: History, v: NodeID, n: Node, t: nat) {
    t in h.elected && h.elected[t].leader == v ==> t <= n.currentTerm
  }

  /** `votedFor` is the vote cast in the current term, and no vote belongs to a later one. */
  ghost predicate Ballot(h: History, v: NodeID, n: Node) {
    && n.meta == Meta(n.currentTerm, n.votedFor)
    && (forall t: nat :: CastOk(h, v, n, t))
    && (n.votedFor != NO_NODE ==> (n.currentTerm, v) in h.votes)
  }

  ghost predicate Standing(h: History, v: NodeID, n: Node) {
    && (n.role == Leader ==>
          n.currentTerm in h.elected && h.elected[n.currentTerm].leader == v && n.leader.Some?)
    && (n.role == Candidate ==>
          n.votedFor == v && (n.currentTerm in h.elected ==> h.elected[n.currentTerm].leader != v))
    && (forall t: nat :: LedOk(h, v, n, t))
  }

  /** Although the winner compares no terms, an outstanding election of a candidate is of its current term. */
  ghost predicate InFlight(cfg: Config, h: History, v: NodeID, n: Node) {
    n.election.Some? ==>
      var e := n.election.value;
      && n.role != Leader
      && e.term <= n.currentTerm
      && (n.role == Candidate ==> e.term == n.currentTerm)
      && e.granted + e.waiting <= cfg.Peers(v)
      && forall p :: p in e.granted ==> VotedFor(h, e.term, p, v)
  }

  ghost predicate NodeVotes(cfg: Config, h: History, v: NodeID, n: Node) {
    Ballot(h, v, n) && Standing(h, v, n) && InFlight(cfg, h, v, n)
  }

  ghost predicate MessageVotes(cfg: Config, h: History, m: Message) {
    match m
    case VoteReq(req) => VotedFor(h, req.term, req.candidateId, req.candidateId)
    case VoteResp(req, resp) =>
      resp.voteGranted ==> resp.voterId in cfg.nodes && VotedFor(h, req.term, resp.voterId, req.candidateId)
    case AppendReq(dst, req) =>
      req.term in h.elected && h.elected[req.term].leader == req.leaderId && dst in cfg.Peers(req.leaderId)
    case AppendResp(req, resp) =>
      && req.term in h.elected && h.elected[req.term].leader == req.leaderId
      && resp.followerId in cfg.Peers(req.leaderId)
  }

  ghost predicate VotesInv(cfg: Config, h: History, c: State) {
    && c.nodes.Keys == cfg.nodes
    && HistoryVotes(cfg, h)
    && (forall v :: v in cfg.nodes ==> NodeVotes(cfg, h, v, c.nodes[v]))
    && (forall m :: m in c.msgs ==> MessageVotes(cfg, h, m))
  }

  // ---------------------------------------------------------------------
  // What a step leaves alone
  // ---------------------------------------------------------------------

  /** Votes and elections only accumulate. */
  ghost predicate VotesGrow(h: History, h': History) {
    && (forall k :: k in h.votes ==> k in h'.votes && h'.votes[k] == h.votes[k])
    && (forall t :: t in h.elected ==>
          t in h'.elected && h'.elected[t].leader == h.elected[t].leader && h'.elected[t].electors == h.elected[t].electors)
  }

  /** Nothing about `v` itself was added. */
  ghost predicate NotAbout(h: History, h': History, v: NodeID) {
    && (forall t :: (t, v) in h'.votes ==> (t, v) in h.votes)
    && (forall t :: t in h'.elected && t !in h.elected ==> h'.elected[t].leader != v)
  }

  lemma NodeVotesStable(cfg: Config, h: History, h': History, v: NodeID, n: Node)
    requires NodeVotes(cfg, h, v, n) && VotesGrow(h, h') && NotAbout(h, h', v)
    ensures NodeVotes(cfg, h', v, n)
  {
    forall t: nat ensures CastOk(h', v, n, t) && LedOk(h', v, n, t) {
      assert CastOk(h, v, n, t) && LedOk(h, v, n, t);
    }
  }

  lemma MessageVotesStable(cfg: Config, h: History, h': History, m: Message)
    requires MessageVotes(cfg, h, m) && VotesGrow(h, h')
    ensures MessageVotes(cfg, h', m)
  {
  }

  /** The fields the voting invariants read, the outstanding election apart. */
  ghost predicate SameStanding(n: Node, n': Node) {
    && n'.currentTerm == n.currentTerm && n'.votedFor == n.votedFor && n'.meta == n.meta
    && n'.role == n.role && n'.leader.Some? == n.leader.Some?
  }

  lemma SameStandingKeeps(h: History, v: NodeID, n: Node, n': Node)
    requires Ballot(h, v, n) && Standing(h, v, n) && SameStanding(n, n')
    ensures Ballot(h, v, n') && Standing(h, v, n')
  {
    forall t: nat ensures CastOk(h, v, n', t) && LedOk(h, v, n', t) {
      assert CastOk(h, v, n, t) && LedOk(h, v, n, t);
    }
  }

  lemma ObserveKeeps(cfg: Config, h: History, v: NodeID, n: Node, t: nat)
    requires NodeVotes(cfg, h, v, n)
    ensures NodeVotes(cfg, h, v, Observe(n, t))
  {
    var n' := Observe(n, t);
    forall s: nat ensures CastOk(h, v, n', s) && LedOk(h, v, n', s) {
      assert CastOk(h, v, n, s) && LedOk(h, v, n, s);
    }
  }

  lemma HistoryVotesStable(cfg: Config, h: History, h': History)
    requires HistoryVotes(cfg, h) && VotesGrow(h, h') && h'.elected.Keys == h.elected.Keys
    requires forall t, v :: (t, v) in h'.votes && (t, v) !in h.votes ==>
                              v in cfg.nodes && h'.votes[(t, v)].candidate in cfg.nodes
    ensures HistoryVotes(cfg, h')
  {
    forall t: nat ensures WonOk(cfg, h', t) {
      assert WonOk(cfg, h, t);
    }
    forall t: nat, v: NodeID ensures VoteInCluster(cfg, h', t, v) {
      assert VoteInCluster(cfg, h, t, v);
    }
  }

  // ---------------------------------------------------------------------
  // What each step establishes
  // ---------------------------------------------------------------------

  /** The obligations of a step that takes node `v` to `n'` and sends `msgs`. */
  ghost predicate StepVotes(cfg: Config, h: History, h': History, v: NodeID, n': Node, msgs: set<Message>) {
    && VotesGrow(h, h')
    && (forall w :: w in cfg.nodes && w != v ==> NotAbout(h, h', w))
    && HistoryVotes(cfg, h')
    && NodeVotes(cfg, h', v, n')
    && (forall m :: m in msgs ==> MessageVotes(cfg, h', m))
  }

  lemma TimeoutVotes(cfg: Config, h: History, v: NodeID, n: Node)
    requires cfg.Valid() && v in cfg.nodes && HistoryVotes(cfg, h) && NodeVotes(cfg, h, v, n)
    requires n.role != Leader && n.election.None?
    ensures var n' := StartElection(v, cfg.Peers(v), n);
            StepVotes(cfg, h, AddCampaign(h, n.currentTerm + 1, v, Seq(n.log)), v, n', {VoteReq(Campaign(v, n'))})
  {
    var h' := AddCampaign(h, n.currentTerm + 1, v, Seq(n.log));
    var n' := StartElection(v, cfg.Peers(v), n);
    assert CastOk(h, v, n, n.currentTerm + 1) && LedOk(h, v, n, n.currentTerm + 1);
    HistoryVotesStable(cfg, h, h');
    forall t: nat ensures CastOk(h', v, n', t) && LedOk(h', v, n', t) {
      assert CastOk(h, v, n, t) && LedOk(h, v, n, t);
    }
  }

  /** Granting is possible only to the candidate already chosen, or with no vote cast. */
  lemma GrantKeeps(cfg: Config, h: History, v: NodeID, n: Node, candidate: NodeID, log: seq<LogEntry>)
    requires cfg.Valid() && v in cfg.nodes && candidate in cfg.nodes && candidate != v
    requires HistoryVotes(cfg, h) && NodeVotes(cfg, h, v, n)
    requires n.votedFor == NO_NODE || n.votedFor == candidate
    ensures var h' := AddVote(h, n.currentTerm, v, candidate, log);
            && VotesGrow(h, h') && VotedFor(h', n.currentTerm, v, candidate)
            && (forall w :: w in cfg.nodes && w != v ==> NotAbout(h, h', w))
            && HistoryVotes(cfg, h')
            && NodeVotes(cfg, h', v, n.(votedFor := candidate, meta := Meta(n.currentTerm, candidate)))
  {
    var h' := AddVote(h, n.currentTerm, v, candidate, log);
    var n' := n.(votedFor := candidate, meta := Meta(n.currentTerm, candidate));
    assert CastOk(h, v, n, n.currentTerm) && VoteInCluster(cfg, h, n.currentTerm, v);
    HistoryVotesStable(cfg, h, h');
    forall t: nat ensures CastOk(h', v, n', t) && LedOk(h', v, n', t) {
      assert CastOk(h, v, n, t) && LedOk(h, v, n, t);
    }
  }

  lemma RecvVoteVotes(cfg: Config, h: History, v: NodeID, n: Node, req: VoteRequest)
    requires cfg.Valid() && v in cfg.nodes && HistoryVotes(cfg, h) && NodeVotes(cfg, h, v, n)
    requires MessageVotes(cfg, h, VoteReq(req)) && req.candidateId != v
    ensures var r := HandleVote(v, n, req);
            StepVotes(cfg, h, RecordVote(h, v, n, req), v, r.0, {VoteResp(req, r.1)})
  {
    ObserveKeeps(cfg, h, v, n, req.term);
    var n1 := Observe(n, req.term);
    assert VoteInCluster(cfg, h, req.term, req.candidateId);
    if HandleVote(v, n, req).1.voteGranted {
      GrantKeeps(cfg, h, v, n1, req.candidateId, Seq(n.log));
    }
  }

  lemma RecvVoteReplyVotes(cfg: Config, h: History, v: NodeID, n: Node, req: VoteRequest, resp: VoteResponse)
    requires cfg.Valid() && v in cfg.nodes && HistoryVotes(cfg, h) && NodeVotes(cfg, h, v, n)
    requires MessageVotes(cfg, h, VoteResp(req, resp)) && req.candidateId == v
    requires n.election.Some? && n.election.value.term == req.term && resp.voterId in n.election.value.waiting
    ensures StepVotes(cfg, h, h, v, HandleVoteReply(n, resp), {})
  {
    ObserveKeeps(cfg, h, v, n, resp.term);
    SameStandingKeeps(h, v, Observe(n, resp.term), HandleVoteReply(n, resp));
  }

  /** A winner's term has no leader yet. */
  lemma WinnerIsFirst(cfg: Config, h: History, v: NodeID, n: Node)
    requires cfg.Valid() && SafeSize(|cfg.nodes|) && v in cfg.nodes
    requires HistoryVotes(cfg, h) && NodeVotes(cfg, h, v, n)
    requires n.election.Some? && n.role == Candidate && Won(n.election.value, |cfg.Peers(v)|)
    ensures n.currentTerm !in h.elected
    ensures WonBy(cfg, h, n.currentTerm, Elected(v, n.election.value.granted + {v}, 0, []))
  {
    var t := n.currentTerm;
    var granted := n.election.value.granted;
    var mine := granted + {v};
    assert |cfg.Peers(v)| == |cfg.nodes| - 1;
    assert |mine| == |granted| + 1;
    assert |granted| >= 1;
    assert CastOk(h, v, n, t) && WonOk(cfg, h, t);
    if t in h.elected {
      var x := WinnersMeet(cfg.nodes, mine, h.elected[t].electors);
      assert false;
    }
  }

  lemma AddLeaderKeeps(cfg: Config, h: History, v: NodeID, t: nat, e: Elected)
    requires HistoryVotes(cfg, h) && t !in h.elected && e.leader == v && WonBy(cfg, h, t, e)
    ensures var h' := AddLeader(h, t, e);
            && VotesGrow(h, h') && HistoryVotes(cfg, h')
            && (forall w :: w in cfg.nodes && w != v ==> NotAbout(h, h', w))
  {
    var h' := AddLeader(h, t, e);
    forall s: nat ensures WonOk(cfg, h', s) {
      assert WonOk(cfg, h, s);
    }
    forall s: nat, w: NodeID ensures VoteInCluster(cfg, h', s, w) {
      assert VoteInCluster(cfg, h, s, w);
    }
  }

  lemma EndElectionVotes(cfg: Config, h: History, v: NodeID, n: Node)
    requires cfg.Valid() && SafeSize(|cfg.nodes|) && v in cfg.nodes
    requires HistoryVotes(cfg, h) && NodeVotes(cfg, h, v, n)
    requires n.election.Some?
    ensures var peers := cfg.Peers(v);
            StepVotes(cfg, h, RecordElection(h, v, peers, n), v, FinishElection(v, peers, n), {})
  {
    var n' := FinishElection(v, cfg.Peers(v), n);
    if Wins(cfg.Peers(v), n) {
      WinnerIsFirst(cfg, h, v, n);
      var e := Elected(v, n.election.value.granted + {v}, |Seq(n.log)|, Seq(n'.log));
      assert WonBy(cfg, h, n.currentTerm, e);
      AddLeaderKeeps(cfg, h, v, n.currentTerm, e);
      var h' := AddLeader(h, n.currentTerm, e);
      forall t: nat ensures CastOk(h', v, n', t) && LedOk(h', v, n', t) {
        assert CastOk(h, v, n, t) && LedOk(h, v, n, t);
      }
    } else {
      SameStandingKeeps(h, v, n, n');
    }
  }

  lemma ClientCommandVotes(cfg: Config, h: History, v: NodeID, n: Node, c: Command)
    requires cfg.Valid() && v in cfg.nodes && HistoryVotes(cfg, h) && NodeVotes(cfg, h, v, n)
    ensures StepVotes(cfg, h, RecordCommand(h, n, c), v, Propose(n, c), {})
  {
    var h' := RecordCommand(h, n, c);
    HistoryVotesStable(cfg, h, h');
    NodeVotesStable(cfg, h, h', v, n);
    SameStandingKeeps(h', v, n, Propose(n, c));
  }

  lemma SendAppendVotes(cfg: Config, h: History, v: NodeID, n: Node, p: NodeID)
    requires cfg.Valid() && v in cfg.nodes && HistoryVotes(cfg, h) && NodeVotes(cfg, h, v, n)
    requires p in cfg.Peers(v) && MakeAppend(v, n, p).Some?
    ensures StepVotes(cfg, h, h, v, n, {AppendReq(p, MakeAppend(v, n, p).value)})
  {
  }

  /** Apart from the log, the commit index and the leader's name, the handler only steps down. */
  lemma HandleAppendShape(variant: Variant, v: NodeID, n: Node, req: AppendRequest)
    ensures var r := HandleAppend(variant, v, n, req);
            && r.1.followerId == v
            && r.0 == (if req.term < n.currentTerm then n else Observe(n, req.term)).(
                        leaderID := r.0.leaderID, log := r.0.log, commitIndex := r.0.commitIndex)
  {
  }

  lemma RecvAppendNode(cfg: Config, h: History, v: NodeID, n: Node, n': Node, t: nat)
    requires NodeVotes(cfg, h, v, n)
    requires n' == (if t < n.currentTerm then n else Observe(n, t)).(
                     leaderID := n'.leaderID, log := n'.log, commitIndex := n'.commitIndex)
    ensures NodeVotes(cfg, h, v, n')
  {
    ObserveKeeps(cfg, h, v, n, t);
    SameStandingKeeps(h, v, if t < n.currentTerm then n else Observe(n, t), n');
  }

  lemma AckVotes(cfg: Config, h: History, v: NodeID, req: AppendRequest, resp: AppendResponse)
    requires HistoryVotes(cfg, h)
    ensures var h' := RecordAppend(h, v, req, resp);
            HistoryVotes(cfg, h') && VotesGrow(h, h') && forall w :: w in cfg.nodes ==> NotAbout(h, h', w)
  {
    HistoryVotesStable(cfg, h, RecordAppend(h, v, req, resp));
  }

  lemma RecvAppendVotes(cfg: Config, h: History, v: NodeID, n: Node, req: AppendRequest)
    requires cfg.Valid() && v in cfg.nodes && HistoryVotes(cfg, h) && NodeVotes(cfg, h, v, n)
    requires MessageVotes(cfg, h, AppendReq(v, req))
    ensures var r := HandleAppend(cfg.variant, v, n, req);
            StepVotes(cfg, h, RecordAppend(h, v, req, r.1), v, r.0, {AppendResp(req, r.1)})
  {
    var r := HandleAppend(cfg.variant, v, n, req);
    HandleAppendShape(cfg.variant, v, n, req);
    RecvAppendStep(cfg, h, v, n, req, r.0, r.1);
  }

  lemma RecvAppendStep(cfg: Config, h: History, v: NodeID, n: Node, req: AppendRequest, n': Node, resp: AppendResponse)
    requires cfg.Valid() && v in cfg.nodes && HistoryVotes(cfg, h) && NodeVotes(cfg, h, v, n)
    requires MessageVotes(cfg, h, AppendReq(v, req)) && resp.followerId == v
    requires n' == (if req.term < n.currentTerm then n else Observe(n, req.term)).(
                     leaderID := n'.leaderID, log := n'.log, commitIndex := n'.commitIndex)
    ensures StepVotes(cfg, h, RecordAppend(h, v, req, resp), v, n', {AppendResp(req, resp)})
  {
    var h' := RecordAppend(h, v, req, resp);
    AckVotes(cfg, h, v, req, resp);
    NodeVotesStable(cfg, h, h', v, n);
    RecvAppendNode(cfg, h', v, n, n', req.term);
    MessageVotesStable(cfg, h, h', AppendReq(v, req));
  }

  lemma RecvAppendReplyVotes(cfg: Config, h: History, v: NodeID, n: Node, req: AppendRequest, resp: AppendResponse)
    requires cfg.Valid() && v in cfg.nodes && HistoryVotes(cfg, h) && NodeVotes(cfg, h, v, n)
    ensures StepVotes(cfg, h, h, v, HandleAppendReply(cfg.variant, n, req, resp), {})
  {
    var n' := HandleAppendReply(cfg.variant, n, req, resp);
    if n.role == Leader && resp.term > n.currentTerm {
      ObserveKeeps(cfg, h, v, n, resp.term);
    } else {
      SameStandingKeeps(h, v, n, n');
    }
  }

  lemma {:induction false} ApplyKeepsVotes(n: Node)
    ensures ApplyCommitted(n) == n.(lastApplied := ApplyCommitted(n).lastApplied, store := ApplyCommitted(n).store)
    decreases n.commitIndex - n.lastApplied
  {
    if n.lastApplied < n.commitIndex && n.lastApplied + 1 in n.log.entries {
      var i := n.lastApplied + 1;
      ApplyKeepsVotes(n.(lastApplied := i, store := StateMachine.ApplyCommand(n.store, n.log.entries[i].command).store));
    }
  }

  lemma ApplyVotes(cfg: Config, h: History, v: NodeID, n: Node)
    requires cfg.Valid() && v in cfg.nodes && HistoryVotes(cfg, h) && NodeVotes(cfg, h, v, n)
    ensures StepVotes(cfg, h, h, v, ApplyCommitted(n), {})
  {
    ApplyKeepsVotes(n);
    SameStandingKeeps(h, v, n, ApplyCommitted(n));
  }

  lemma CrashVotes(cfg: Config, h: History, v: NodeID, n: Node)
    requires cfg.Valid() && v in cfg.nodes && HistoryVotes(cfg, h) && NodeVotes(cfg, h, v, n)
    ensures StepVotes(cfg, h, h, v, Restart(n, cfg.persistentStore), {})
  {
    var n' := Restart(n, cfg.persistentStore);
    forall t: nat ensures CastOk(h, v, n', t) && LedOk(h, v, n', t) {
      assert CastOk(h, v, n, t) && LedOk(h, v, n, t);
    }
  }

  lemma EveryStepVotes(cfg: Config, h: History, c: State, a: Label)
    requires cfg.Valid() && SafeSize(|cfg.nodes|)
    requires VotesInv(cfg, h, c) && Enabled(cfg, c, a.node, a.event)
    ensures var n := c.nodes[a.node];
            var r := NodeStep(cfg, a.node, n, a.event);
            StepVotes(cfg, h, Record(cfg, h, a.node, n, a.event), a.node, r.0, r.1)
  {
    var v, n := a.node, c.nodes[a.node];
    match a.event
    case Timeout => TimeoutVotes(cfg, h, v, n);
    case RecvVote(req) => RecvVoteVotes(cfg, h, v, n, req);
    case RecvVoteReply(req, resp) => RecvVoteReplyVotes(cfg, h, v, n, req, resp);
    case EndElection => EndElectionVotes(cfg, h, v, n);
    case ClientCommand(cmd) => ClientCommandVotes(cfg, h, v, n, cmd);
    case SendAppend(p) => SendAppendVotes(cfg, h, v, n, p);
    case RecvAppend(req) => RecvAppendVotes(cfg, h, v, n, req);
    case RecvAppendReply(req, resp) => RecvAppendReplyVotes(cfg, h, v, n, req, resp);
    case Apply => ApplyVotes(cfg, h, v, n);
    case Crash => CrashVotes(cfg, h, v, n);
  }

  lemma VotesInvFrom(cfg: Config, h: History, h': History, c: State, v: NodeID, n': Node, msgs: set<Message>)
    requires VotesInv(cfg, h, c) && v in cfg.nodes && StepVotes(cfg, h, h', v, n', msgs)
    ensures VotesInv(cfg, h', State(c.nodes[v := n'], c.msgs + msgs))
  {
    var c' := State(c.nodes[v := n'], c.msgs + msgs);
    assert c'.nodes.Keys == cfg.nodes;
    forall w | w in cfg.nodes ensures NodeVotes(cfg, h', w, c'.nodes[w]) {
      if w != v { NodeVotesStable(cfg, h, h', w, c.nodes[w]); }
    }
    forall m | m in c'.msgs ensures MessageVotes(cfg, h', m) {
      if m in c.msgs { MessageVotesStable(cfg, h, h', m); }
    }
  }

  lemma VotesInvStep(cfg: Config, h: History, c: State, a: Label)
    requires cfg.Valid() && SafeSize(|cfg.nodes|)
    requires VotesInv(cfg, h, c) && Enabled(cfg, c, a.node, a.event)
    ensures VotesInv(cfg, Record(cfg, h, a.node, c.nodes[a.node], a.event), Next(cfg, c, a))
    ensures VotesGrow(h, Record(cfg, h, a.node, c.nodes[a.node], a.event))
  {
    EveryStepVotes(cfg, h, c, a);
    var r := NodeStep(cfg, a.node, c.nodes[a.node], a.event);
    VotesInvFrom(cfg, h, Record(cfg, h, a.node, c.nodes[a.node], a.event), c, a.node, r.0, r.1);
  }

  lemma VotesInvNext(cfg: Config, r: Run, hs: seq<History>, i: nat)
    requires IsRun(cfg, r) && Recorded(cfg, r, hs) && SafeSize(|cfg.nodes|) && i < |r.labels|
    requires VotesInv(cfg, hs[i], r.states[i])
    ensures VotesInv(cfg, hs[i + 1], r.states[i + 1]) && VotesGrow(hs[i], hs[i + 1])
  {
    assert StepAt(cfg, r, i) && RecordedAt(cfg, r, hs, i);
    VotesInvStep(cfg, hs[i], r.states[i], r.labels[i]);
  }

  lemma InitialVotes(cfg: Config, h: History, c: State)
    requires Init(cfg, c) && h == NOTHING
    ensures VotesInv(cfg, h, c)
  {
  }

  lemma {:induction false} VotesInvAlways(cfg: Config, r: Run, hs: seq<History>, i: nat)
    requires IsRun(cfg, r) && Recorded(cfg, r, hs) && SafeSize(|cfg.nodes|) && i <= |r.labels|
    ensures VotesInv(cfg, hs[i], r.states[i])
  {
    hide VotesInv;
    if i == 0 {
      InitialVotes(cfg, hs[i], r.states[i]);
    } else {
      VotesInvAlways(cfg, r, hs, i - 1);
      VotesInvNext(cfg, r, hs, i - 1);
    }
  }

  lemma VotesGrowTransitive(h: History, h': History, h'': History)
    requires VotesGrow(h, h') && VotesGrow(h', h'')
    ensures VotesGrow(h, h'')
  {
  }

  lemma {:induction false} ElectedForever(cfg: Config, r: Run, hs: seq<History>, i: nat, j: nat)
    requires IsRun(cfg, r) && Recorded(cfg, r, hs) && SafeSize(|cfg.nodes|) && i <= j <= |r.labels|
    ensures VotesGrow(hs[i], hs[j])
  {
    hide VotesInv;
    if i < j {
      ElectedForever(cfg, r, hs, i, j - 1);
      VotesInvAlways(cfg, r, hs, j - 1);
      VotesInvNext(cfg, r, hs, j - 1);
      VotesGrowTransitive(hs[i], hs[j - 1], hs[j]);
    }
  }

  // ---------------------------------------------------------------------
  // The results
  // ---------------------------------------------------------------------

  ghost predicate LeadsAt(r: Run, i: nat, v: NodeID, t: nat)
    requires i < |r.states|
  {
    v in r.states[i].nodes && r.states[i].nodes[v].role == Leader && r.states[i].nodes[v].currentTerm == t
  }

  /** Whoever leads term `t` at any point of a run is the only one ever to lead it. */
  lemma OneLeaderPerTerm(cfg: Config, r: Run, i: nat, j: nat, v: NodeID, w: NodeID, t: nat)
    requires IsRun(cfg, r) && SafeSize(|cfg.nodes|)
    requires i < |r.states| && j < |r.states|
    requires LeadsAt(r, i, v, t) && LeadsAt(r, j, w, t)
    ensures v == w
  {
    var hs := Histories(cfg, r);
    VotesInvAlways(cfg, r, hs, i);
    VotesInvAlways(cfg, r, hs, j);
    assert NodeVotes(cfg, hs[i], v, r.states[i].nodes[v]);
    assert NodeVotes(cfg, hs[j], w, r.states[j].nodes[w]);
    if i <= j { ElectedForever(cfg, r, hs, i, j); } else { ElectedForever(cfg, r, hs, j, i); }
  }
}
