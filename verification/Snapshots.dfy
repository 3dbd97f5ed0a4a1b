/** Snapshots among arbitrary inputs of one node: which are installed, what is kept of them, and that those
    of deposed leaders might as well not have been sent. */
module Snapshots {
  import opened Types
  import opened NodeModel
  import opened Cluster
  import opened VoteDiscipline
  import Handlers
  import ElectionSafety

  /** A snapshot request of an older term than the node's. */
  ghost predicate StaleInput(n: Node, input: Input) {
    input.InstallSnapshot? && input.req.term < n.currentTerm
  }

  /** The inputs without those snapshot requests that were stale when they arrived. */
  ghost function WithoutStale(cfg: Config, v: NodeID, n: Node, inputs: seq<Input>): seq<Input> {
    if inputs == [] then [] else
      var front, last := inputs[..|inputs| - 1], inputs[|inputs| - 1];
      if StaleInput(After(cfg, v, n, front), last) then WithoutStale(cfg, v, n, front)
      else WithoutStale(cfg, v, n, front) + [last]
  }

  /** Leaving them out changes nothing, whatever else happens. */
  lemma {:induction false} StaleSnapshotsDoNothing(cfg: Config, v: NodeID, n: Node, inputs: seq<Input>)
    ensures After(cfg, v, n, WithoutStale(cfg, v, n, inputs)) == After(cfg, v, n, inputs)
    decreases |inputs|
  {
    if inputs != [] {
      var front, last := inputs[..|inputs| - 1], inputs[|inputs| - 1];
      StaleSnapshotsDoNothing(cfg, v, n, front);
      if StaleInput(After(cfg, v, n, front), last) {
        Handlers.SnapshotLaw(v, After(cfg, v, n, front), last.req);
      } else {
        var kept := WithoutStale(cfg, v, n, front);
        assert (kept + [last])[..|kept + [last]| - 1] == kept;
      }
    }
  }

  /** The last snapshot installed or taken since the node was started. */
  ghost function LastSnapshot(cfg: Config, v: NodeID, inputs: seq<Input>): SnapshotData {
    if inputs == [] then Malformed else
      var front, last := inputs[..|inputs| - 1], inputs[|inputs| - 1];
      match last
      case InstallSnapshot(req) =>
        if req.term >= After(cfg, v, FRESH, front).currentTerm && req.data.Encoded? then req.data
        else LastSnapshot(cfg, v, front)
      case SnapshotTaken(_, _, data) => Encoded(data)
      case Protocol(ev) => if ev.Crash? then Malformed else LastSnapshot(cfg, v, front)
  }

  /** That is the one the node holds for lagging peers. */
  lemma {:induction false} SnapshotKept(cfg: Config, v: NodeID, inputs: seq<Input>)
    ensures After(cfg, v, FRESH, inputs).snapshotData == LastSnapshot(cfg, v, inputs)
    decreases |inputs|
  {
    if inputs != [] {
      var front, last := inputs[..|inputs| - 1], inputs[|inputs| - 1];
      SnapshotKept(cfg, v, front);
      StepKeepsSnapshot(cfg, v, After(cfg, v, FRESH, front), last);
    }
  }

  lemma StepKeepsSnapshot(cfg: Config, v: NodeID, n: Node, input: Input)
    ensures var n' := Advance(cfg, v, n, input);
            match input
            case InstallSnapshot(req) =>
              n'.snapshotData == if req.term >= n.currentTerm && req.data.Encoded? then req.data else n.snapshotData
            case SnapshotTaken(_, _, data) => n'.snapshotData == Encoded(data)
            case Protocol(ev) => n'.snapshotData == if ev.Crash? then Malformed else n.snapshotData
  {
    match input
    case InstallSnapshot(req) => Handlers.SnapshotLaw(v, n, req);
    case Protocol(ev) =>
      match ev {
        case RecvAppend(req) => ElectionSafety.HandleAppendShape(cfg.variant, v, n, req);
        case Apply => ElectionSafety.ApplyKeepsVotes(n);
        case _ =>
      }
    case _ =>
  }
}
