/** What messages say about terms, over whole runs, in every variant and at every cluster size: whoever
    hears of a later term moves to it and never leads an earlier one again. */
module Terms {
  import opened Types
  import opened LogModel
  import opened NodeModel
  import opened Cluster
  import opened Handlers
  import opened Safety
  import ElectionSafety
  import VoteDiscipline

  // ---------------------------------------------------------------------
  // One step
  // ---------------------------------------------------------------------

  /** The term a received message carries. */
  function Carried(ev: Event): Option<nat> {
    match ev
    case RecvVote(req) => Some(req.term)
    case RecvVoteReply(_, resp) => Some(resp.term)
    case RecvAppend(req) => Some(req.term)
    case RecvAppendReply(_, resp) => Some(resp.term)
    case _ => None
  }

  /** The node heeds the message: everything but the reply to a request it sent as a leader and reads when
      it leads no more. */
  ghost predicate Heeds(n: Node, ev: Event) {
    Carried(ev).Some? && (ev.RecvAppendReply? ==> n.role == Leader)
  }

  ghost predicate WellFormed(n: Node, ev: Event) {
    (n.role == Leader ==> n.leader.Some?) && (ev.RecvVoteReply? ==> n.election.Some?)
  }

  /** A node that heeds a message has afterwards the greater of its own term and the message's; if that is
      the message's it has stepped down, unless it cast its vote at once; and it has kept its data, unless
      it took entries or counted an acknowledgement. */
  lemma HeedingLaw(cfg: Config, v: NodeID, n: Node, ev: Event)
    requires WellFormed(n, ev) && Heeds(n, ev)
    ensures var n', t := NodeStep(cfg, v, n, ev).0, Carried(ev).value;
            && n'.currentTerm == Max(n.currentTerm, t)
            && (t > n.currentTerm ==>
                  n'.role == Follower && n'.leader.None? && (!ev.RecvVote? ==> SteppedDown(n', t)))
            && (t <= n.currentTerm ==> n'.role == n.role)
  {
    match ev
    case RecvAppend(req) => ElectionSafety.HandleAppendShape(cfg.variant, v, n, req);
    case _ =>
  }

  // ---------------------------------------------------------------------
  // Runs
  // ---------------------------------------------------------------------

  ghost predicate Sane(n: Node) {
    VoteDiscipline.Durable(n) && (n.role == Leader ==> n.leader.Some?)
  }

  lemma SaneStep(cfg: Config, v: NodeID, n: Node, ev: Event)
    requires Sane(n)
    ensures Sane(NodeStep(cfg, v, n, ev).0) && n.currentTerm <= NodeStep(cfg, v, n, ev).0.currentTerm
  {
    VoteDiscipline.ProtocolStepOrderly(cfg, v, n, ev);
    match ev
    case RecvAppend(req) => ElectionSafety.HandleAppendShape(cfg.variant, v, n, req);
    case Apply => ElectionSafety.ApplyKeepsVotes(n);
    case _ =>
  }

  lemma {:induction false} SaneAlways(cfg: Config, r: Run, i: nat, v: NodeID)
    requires IsRun(cfg, r) && In(r, i, v)
    ensures Sane(NodeAt(r, i, v)) && v in cfg.nodes
  {
    if i > 0 {
      assert StepAt(cfg, r, i - 1);
      SaneAlways(cfg, r, i - 1, v);
      if r.labels[i - 1].node == v { SaneStep(cfg, v, NodeAt(r, i - 1, v), r.labels[i - 1].event); }
    }
  }

  lemma {:induction false} TermsGrow(cfg: Config, r: Run, i: nat, j: nat, v: NodeID)
    requires IsRun(cfg, r) && In(r, i, v) && i <= j < |r.states|
    ensures In(r, j, v) && NodeAt(r, i, v).currentTerm <= NodeAt(r, j, v).currentTerm
  {
    if i < j {
      TermsGrow(cfg, r, i, j - 1, v);
      assert StepAt(cfg, r, j - 1);
      SaneAlways(cfg, r, j - 1, v);
      if r.labels[j - 1].node == v { SaneStep(cfg, v, NodeAt(r, j - 1, v), r.labels[j - 1].event); }
    }
  }

  /** At step `i` node `v` heeds a message of term `t`. */
  ghost predicate HeedsAt(r: Run, i: nat, v: NodeID, t: nat) {
    && i < |r.labels| && r.labels[i].node == v && In(r, i, v)
    && Heeds(NodeAt(r, i, v), r.labels[i].event) && Carried(r.labels[i].event) == Some(t)
  }

  /** Right after a node has heeded a message of term `t`, and ever after, its term is at least `t`. If `t` was
      later than its own, it has stepped down; so it never again leads or stands for an earlier term. */
  lemma HeardTermsBind(cfg: Config, r: Run, i: nat, j: nat, v: NodeID, t: nat)
    requires IsRun(cfg, r) && HeedsAt(r, i, v, t) && i < j < |r.states|
    ensures In(r, i + 1, v) && In(r, j, v) && NodeAt(r, j, v).currentTerm >= t
    ensures t > NodeAt(r, i, v).currentTerm ==> NodeAt(r, i + 1, v).role == Follower && NodeAt(r, i + 1, v).currentTerm == t
  {
    assert StepAt(cfg, r, i);
    SaneAlways(cfg, r, i, v);
    HeedingLaw(cfg, v, NodeAt(r, i, v), r.labels[i].event);
    TermsGrow(cfg, r, i + 1, j, v);
  }

  /** A candidate that has read a vote reply of a later term never leads the term it stood for. */
  lemma ElectionLost(cfg: Config, r: Run, i: nat, j: nat, v: NodeID, req: VoteRequest, resp: VoteResponse)
    requires IsRun(cfg, r) && i < |r.labels| && r.labels[i] == Label(v, RecvVoteReply(req, resp)) && In(r, i, v)
    requires resp.term > NodeAt(r, i, v).currentTerm && i < j < |r.states|
    ensures In(r, j, v) && (NodeAt(r, j, v).role == Leader ==> NodeAt(r, j, v).currentTerm > NodeAt(r, i, v).currentTerm)
  {
    HeardTermsBind(cfg, r, i, j, v, resp.term);
  }

  // ---------------------------------------------------------------------
  // What replies in flight say
  // ---------------------------------------------------------------------

  /** A reply is of the request's term or a later one: of a later one exactly when it refuses without saying
      where the logs part, of the same one whenever it grants a vote. */
  ghost predicate ReplySays(m: Message) {
    match m
    case VoteResp(req, resp) => resp.term >= req.term && (resp.voteGranted ==> resp.term == req.term)
    case AppendResp(req, resp) =>
      && resp.term >= req.term
      && (resp.term > req.term <==> !resp.success && resp.conflictIndex == 0)
    case _ => true
  }

  lemma SentReplySays(cfg: Config, v: NodeID, n: Node, ev: Event, m: Message)
    requires m in NodeStep(cfg, v, n, ev).1
    ensures ReplySays(m)
  {
    if ev.RecvAppend? {
      var req := ev.append;
      HintPositive(Observe(n, req.term).log, req.prevLogIndex, TermAt(n.log, req.prevLogIndex));
    }
  }

  lemma {:induction false} RepliesSay(cfg: Config, r: Run, i: nat, m: Message)
    requires IsRun(cfg, r) && i < |r.states| && m in r.states[i].msgs
    ensures ReplySays(m)
  {
    if i > 0 {
      assert StepAt(cfg, r, i - 1);
      if m in r.states[i - 1].msgs {
        RepliesSay(cfg, r, i - 1, m);
      } else {
        SentReplySays(cfg, r.labels[i - 1].node, r.states[i - 1].nodes[r.labels[i - 1].node], r.labels[i - 1].event, m);
      }
    }
  }

  /** A request of an older term tells its sender the later one: once the deposed leader reads the answer to any
      request a node of a later term has handled, it follows that node's term. */
  lemma DeposedLeaderLearns(cfg: Config, r: Run, i: nat, j: nat, v: NodeID, w: NodeID, req: AppendRequest)
    requires IsRun(cfg, r) && i < j < |r.labels| && In(r, i, w) && In(r, j, v)
    requires r.labels[i] == Label(w, RecvAppend(req)) && NodeAt(r, i, w).currentTerm > req.term
    requires r.labels[j] == Label(v, RecvAppendReply(req, HandleAppend(cfg.variant, w, NodeAt(r, i, w), req).1))
    requires NodeAt(r, j, v).role == Leader && NodeAt(r, j, v).currentTerm == req.term
    ensures In(r, j + 1, v) && SteppedDown(NodeAt(r, j + 1, v), NodeAt(r, i, w).currentTerm)
    ensures In(r, i + 1, w) && NodeAt(r, i + 1, w) == NodeAt(r, i, w)
  {
    assert StepAt(cfg, r, i) && StepAt(cfg, r, j);
    SaneAlways(cfg, r, j, v);
    HeedingLaw(cfg, v, NodeAt(r, j, v), r.labels[j].event);
  }

  /** The branch that lowers `nextIndex` by one without a hint is never taken: no reply that reaches a
      leader of its term lacks one. */
  lemma NoBlindStep(cfg: Config, r: Run, i: nat, v: NodeID, req: AppendRequest, resp: AppendResponse)
    requires IsRun(cfg, r) && i < |r.labels| && r.labels[i] == Label(v, RecvAppendReply(req, resp)) && In(r, i, v)
    requires NodeAt(r, i, v).role == Leader && NodeAt(r, i, v).currentTerm == req.term
    ensures resp.success || resp.conflictIndex > 0 || resp.term > NodeAt(r, i, v).currentTerm
  {
    assert StepAt(cfg, r, i);
    RepliesSay(cfg, r, i, AppendResp(req, resp));
  }
}
