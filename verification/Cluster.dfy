/** The cluster as a state machine: a fixed set of nodes, a network that never forgets,
    and one critical section of one node per step. */
module Cluster {
  import opened Types
  import opened NodeModel

  /** A reply carries the request it answers, because the call returns it to that request. */
  datatype Message =
    | VoteReq(vote: VoteRequest)
    | VoteResp(vote: VoteRequest, voteResp: VoteResponse)
    | AppendReq(dst: NodeID, append: AppendRequest)
    | AppendResp(append: AppendRequest, appendResp: AppendResponse)

  datatype Event =
    | Timeout
    | RecvVote(vote: VoteRequest)
    | RecvVoteReply(vote: VoteRequest, voteResp: VoteResponse)
    | EndElection
    | ClientCommand(command: Command)
    | SendAppend(peer: NodeID)
    | RecvAppend(append: AppendRequest)
    | RecvAppendReply(append: AppendRequest, appendResp: AppendResponse)
    | Apply
    | Crash

  datatype Config = Config(nodes: set<NodeID>, variant: Variant, persistentStore: bool) {
    ghost predicate Valid() {
      nodes != {} && NO_NODE !in nodes
    }
    function Peers(v: NodeID): set<NodeID> {
      nodes - {v}
    }
  }

  datatype State = State(nodes: map<NodeID, Node>, msgs: set<Message>)

  ghost predicate Init(cfg: Config, c: State) {
    c.nodes == Filled(cfg.nodes, FRESH) && c.msgs == {}
  }

  /** Whether `v` can take the step `ev`; what it receives must have been sent. */
  ghost predicate Enabled(cfg: Config, c: State, v: NodeID, ev: Event)
  {
    && v in cfg.nodes && v in c.nodes
    && var n := c.nodes[v];
       match ev
       case Timeout => n.role != Leader && n.election.None?
       case RecvVote(req) => VoteReq(req) in c.msgs && req.candidateId != v
       case RecvVoteReply(req, resp) =>
         && VoteResp(req, resp) in c.msgs && req.candidateId == v
         && n.election.Some? && n.election.value.term == req.term && resp.voterId in n.election.value.waiting
       case EndElection => n.election.Some?
       case ClientCommand(_) => true
       case SendAppend(p) => p in cfg.Peers(v) && MakeAppend(v, n, p).Some?
       case RecvAppend(req) => AppendReq(v, req) in c.msgs
       case RecvAppendReply(req, resp) => AppendResp(req, resp) in c.msgs && req.leaderId == v
       case Apply => true
       case Crash => true
  }

  /** The node after the step and the message it sends, if any. */
  ghost function NodeStep(cfg: Config, v: NodeID, n: Node, ev: Event): (Node, set<Message>) {
    var peers := cfg.Peers(v);
    match ev
    case Timeout => var n1 := StartElection(v, peers, n); (n1, {VoteReq(Campaign(v, n1))})
    case RecvVote(req) => var r := HandleVote(v, n, req); (r.0, {VoteResp(req, r.1)})
    case RecvVoteReply(_, resp) => (HandleVoteReply(n, resp), {})
    case EndElection => (FinishElection(v, peers, n), {})
    case ClientCommand(c) => (Propose(n, c), {})
    case SendAppend(p) =>
      var req := MakeAppend(v, n, p);
      (n, if req.Some? then {AppendReq(p, req.value)} else {})
    case RecvAppend(req) => var r := HandleAppend(cfg.variant, v, n, req); (r.0, {AppendResp(req, r.1)})
    case RecvAppendReply(req, resp) => (HandleAppendReply(cfg.variant, n, req, resp), {})
    case Apply => (ApplyCommitted(n), {})
    case Crash => (Restart(n, cfg.persistentStore), {})
  }

  datatype Label = Label(node: NodeID, event: Event)

  ghost function Next(cfg: Config, c: State, a: Label): State
    requires Enabled(cfg, c, a.node, a.event)
  {
    var r := NodeStep(cfg, a.node, c.nodes[a.node], a.event);
    State(c.nodes[a.node := r.0], c.msgs + r.1)
  }

  datatype Run = Run(states: seq<State>, labels: seq<Label>)

  ghost predicate StepAt(cfg: Config, r: Run, i: nat)
    requires i < |r.labels| && |r.states| == |r.labels| + 1
  {
    && Enabled(cfg, r.states[i], r.labels[i].node, r.labels[i].event)
    && r.states[i + 1] == Next(cfg, r.states[i], r.labels[i])
  }

  /** A finite run from the initial state. */
  ghost predicate IsRun(cfg: Config, r: Run) {
    && cfg.Valid()
    && |r.states| == |r.labels| + 1
    && Init(cfg, r.states[0])
    && forall i :: 0 <= i < |r.labels| ==> StepAt(cfg, r, i)
  }

  /** The run without its last step. */
  ghost function Front(r: Run): Run
    requires |r.labels| > 0 && |r.states| == |r.labels| + 1
  {
    Run(r.states[..|r.states| - 1], r.labels[..|r.labels| - 1])
  }

  lemma FrontIsRun(cfg: Config, r: Run)
    requires IsRun(cfg, r) && |r.labels| > 0
    ensures IsRun(cfg, Front(r))
  {
    forall i | 0 <= i < |Front(r).labels| ensures StepAt(cfg, Front(r), i) {
      assert StepAt(cfg, r, i);
    }
  }
}
