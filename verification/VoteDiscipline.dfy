/** Terms and votes of one node under arbitrary inputs, crashes and snapshots included. */
module VoteDiscipline {
  import opened Types
  import opened NodeModel
  import opened Cluster
  import opened ElectionSafety

  /** Anything that can happen to a node; what arrives is unconstrained. */
  datatype Input =
    | Protocol(event: Event)
    | InstallSnapshot(req: SnapshotRequest)
    | SnapshotTaken(index: nat, term: nat, data: Store)

  ghost function Advance(cfg: Config, v: NodeID, n: Node, input: Input): Node {
    match input
    case Protocol(ev) => NodeStep(cfg, v, n, ev).0
    case InstallSnapshot(req) => HandleSnapshot(v, n, req).0
    case SnapshotTaken(index, term, data) => TakeSnapshot(n, index, term, data)
  }

  /** Disk and memory agree, so a crash loses neither term nor vote. */
  ghost predicate Durable(n: Node) {
    n.meta == Meta(n.currentTerm, n.votedFor)
  }

  /** The term does not fall; within a term a vote, once cast, stays. */
  ghost predicate Orderly(n: Node, n': Node) {
    && n.currentTerm <= n'.currentTerm
    && (n.currentTerm == n'.currentTerm && n.votedFor != NO_NODE ==> n'.votedFor == n.votedFor)
  }

  lemma ProtocolStepOrderly(cfg: Config, v: NodeID, n: Node, ev: Event)
    requires Durable(n)
    ensures Durable(NodeStep(cfg, v, n, ev).0) && Orderly(n, NodeStep(cfg, v, n, ev).0)
  {
    match ev
    case RecvAppend(req) => HandleAppendShape(cfg.variant, v, n, req);
    case Apply => ApplyKeepsVotes(n);
    case _ =>
  }

  lemma StepOrderly(cfg: Config, v: NodeID, n: Node, input: Input)
    requires Durable(n)
    ensures Durable(Advance(cfg, v, n, input)) && Orderly(n, Advance(cfg, v, n, input))
  {
    match input
    case Protocol(ev) => ProtocolStepOrderly(cfg, v, n, ev);
    case _ =>
  }

  /** The node after each of the inputs in turn. */
  ghost function After(cfg: Config, v: NodeID, n: Node, inputs: seq<Input>): Node {
    if inputs == [] then n else Advance(cfg, v, After(cfg, v, n, inputs[..|inputs| - 1]), inputs[|inputs| - 1])
  }

  lemma {:induction false} AlwaysDurable(cfg: Config, v: NodeID, n: Node, inputs: seq<Input>)
    requires Durable(n)
    ensures Durable(After(cfg, v, n, inputs)) && Orderly(n, After(cfg, v, n, inputs))
    decreases |inputs|
  {
    if inputs != [] {
      var front := inputs[..|inputs| - 1];
      AlwaysDurable(cfg, v, n, front);
      StepOrderly(cfg, v, After(cfg, v, n, front), inputs[|inputs| - 1]);
    }
  }

  lemma {:induction false} AfterConcat(cfg: Config, v: NodeID, n: Node, a: seq<Input>, b: seq<Input>)
    ensures After(cfg, v, n, a + b) == After(cfg, v, After(cfg, v, n, a), b)
    decreases |b|
  {
    if b == [] {
      assert a + b == a;
    } else {
      var front := b[..|b| - 1];
      AfterConcat(cfg, v, n, a, front);
      assert (a + b)[..|a + b| - 1] == a + front;
    }
  }

  /** Over any sequence of inputs, between any two moments: the term never decreases, a vote cast in a
      term is the vote of that term ever after, and the pair on disk is the pair in memory. */
  lemma VoteDisciplineHolds(cfg: Config, v: NodeID, inputs: seq<Input>, i: nat, j: nat)
    requires i <= j <= |inputs|
    ensures var n, n' := After(cfg, v, FRESH, inputs[..i]), After(cfg, v, FRESH, inputs[..j]);
            && n.currentTerm <= n'.currentTerm
            && (n.currentTerm == n'.currentTerm && n.votedFor != NO_NODE ==> n'.votedFor == n.votedFor)
            && n'.meta == Meta(n'.currentTerm, n'.votedFor)
  {
    AlwaysDurable(cfg, v, FRESH, inputs[..i]);
    assert inputs[..j] == inputs[..i] + inputs[i..j];
    AfterConcat(cfg, v, FRESH, inputs[..i], inputs[i..j]);
    AlwaysDurable(cfg, v, After(cfg, v, FRESH, inputs[..i]), inputs[i..j]);
  }

  // ---------------------------------------------------------------------
  // The election in flight
  // ---------------------------------------------------------------------

  /** Only the event loop starts elections, when not leading and with no election outstanding. */
  ghost predicate MayStart(n: Node, input: Input) {
    input == Protocol(Timeout) ==> n.role != Leader && n.election.None?
  }

  ghost predicate Sequential(cfg: Config, v: NodeID, inputs: seq<Input>) {
    forall k :: 0 <= k < |inputs| ==> MayStart(After(cfg, v, FRESH, inputs[..k]), inputs[k])
  }

  ghost predicate InFlight(n: Node) {
    n.election.Some? ==> n.role != Leader && (n.role == Candidate ==> n.currentTerm == n.election.value.term)
  }

  lemma StepInFlight(cfg: Config, v: NodeID, n: Node, input: Input)
    requires InFlight(n) && MayStart(n, input)
    ensures InFlight(Advance(cfg, v, n, input))
  {
    match input
    case Protocol(ev) =>
      match ev {
        case RecvAppend(req) => HandleAppendShape(cfg.variant, v, n, req);
        case Apply => ApplyKeepsVotes(n);
        case _ =>
      }
    case _ =>
  }

  /** Becoming leader compares no terms, and need not: over any inputs, in a cluster of any size, a
      candidate's outstanding election is the one of its current term. */
  lemma {:induction false} OutstandingElectionIsCurrent(cfg: Config, v: NodeID, inputs: seq<Input>)
    requires Sequential(cfg, v, inputs)
    ensures var n := After(cfg, v, FRESH, inputs);
            n.election.Some? ==> n.role != Leader && (n.role == Candidate ==> n.currentTerm == n.election.value.term)
    decreases |inputs|
  {
    if inputs != [] {
      var front := inputs[..|inputs| - 1];
      assert forall k :: 0 <= k < |front| ==> front[..k] == inputs[..k];
      OutstandingElectionIsCurrent(cfg, v, front);
      StepInFlight(cfg, v, After(cfg, v, FRESH, front), inputs[|inputs| - 1]);
    }
  }
}
