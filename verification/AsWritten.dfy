/** Which runs of the code as written are runs of the intended protocol. */
module AsWritten {
  import opened Types
  import opened LogModel
  import opened NodeModel
  import opened Quorum
  import opened Cluster
  import opened History
  import opened LogSafety
  import opened Safety
  import opened WrittenHandler

  // ---------------------------------------------------------------------
  // One reply
  // ---------------------------------------------------------------------

  /** The reply belongs to the current leadership, or would not be used anyway. */
  ghost predicate TimelyReply(n: Node, req: AppendRequest, resp: AppendResponse) {
    n.role == Leader && resp.term <= n.currentTerm ==> n.currentTerm == req.term
  }

  lemma TimelyReplySame(n: Node, req: AppendRequest, resp: AppendResponse)
    requires TimelyReply(n, req, resp)
    ensures HandleAppendReply(WRITTEN, n, req, resp) == HandleAppendReply(INTENDED, n, req, resp)
  {
  }

  // ---------------------------------------------------------------------
  // Whole runs
  // ---------------------------------------------------------------------

  /** The step meets neither of the two conditions under which the written code goes astray. */
  ghost predicate CleanStep(n: Node, ev: Event) {
    match ev
    case RecvAppend(req) => CleanRequest(n, req)
    case RecvAppendReply(req, resp) => TimelyReply(n, req, resp)
    case _ => true
  }

  ghost predicate CleanAt(r: Run, i: nat)
    requires i < |r.labels| && |r.states| == |r.labels| + 1
  {
    r.labels[i].node in r.states[i].nodes && CleanStep(r.states[i].nodes[r.labels[i].node], r.labels[i].event)
  }

  ghost function Intended(cfg: Config): Config {
    cfg.(variant := INTENDED)
  }

  lemma CleanStepSame(cfg: Config, v: NodeID, n: Node, ev: Event)
    requires cfg.variant == WRITTEN && CleanStep(n, ev)
    requires ev.RecvAppend? ==> Indexed(ev.append.entries, ev.append.prevLogIndex + 1)
    ensures NodeStep(cfg, v, n, ev) == NodeStep(Intended(cfg), v, n, ev)
  {
    match ev
    case RecvAppend(req) => CleanRequestSame(WRITTEN, v, n, req);
    case RecvAppendReply(req, resp) => TimelyReplySame(n, req, resp);
    case _ =>
  }

  /** Requests on the network of an intended run are numbered like the log they come from. */
  lemma ReceivedIndexed(cfg: Config, r: Run, c: State, v: NodeID, req: AppendRequest)
    requires SafeRun(cfg, r) && c == r.states[|r.labels|]
    requires AppendReq(v, req) in c.msgs
    ensures Indexed(req.entries, req.prevLogIndex + 1)
  {
    var hs := Histories(cfg, r);
    var k := |r.labels|;
    MessageFacts(cfg, r, hs, k, AppendReq(v, req));
    RequestIndexed(cfg, hs[k], req);
  }

  lemma NextSame(cfg: Config, c: State, a: Label)
    requires Enabled(cfg, c, a.node, a.event)
    requires NodeStep(cfg, a.node, c.nodes[a.node], a.event) == NodeStep(Intended(cfg), a.node, c.nodes[a.node], a.event)
    ensures Enabled(Intended(cfg), c, a.node, a.event) && Next(cfg, c, a) == Next(Intended(cfg), c, a)
  {
  }

  /** A run of the written code in which no accepted request conflicts and no reply is stale is a run of
      the intended protocol, so every safety theorem holds of it. */
  lemma {:induction false} CleanRunIsIntended(cfg: Config, r: Run)
    requires IsRun(cfg, r) && cfg.variant == WRITTEN && SafeSize(|cfg.nodes|)
    requires forall i :: 0 <= i < |r.labels| ==> CleanAt(r, i)
    ensures SafeRun(Intended(cfg), r)
    decreases |r.labels|
  {
    if |r.labels| > 0 {
      var f := Front(r);
      FrontIsRun(cfg, r);
      forall i | 0 <= i < |f.labels| ensures CleanAt(f, i) {
        assert CleanAt(r, i);
      }
      CleanRunIsIntended(cfg, f);
      LastStepIntended(cfg, r, f);
      forall i | 0 <= i < |r.labels| ensures StepAt(Intended(cfg), r, i) {
        if i < |f.labels| { assert StepAt(Intended(cfg), f, i); }
      }
    }
  }

  lemma LastStepIntended(cfg: Config, r: Run, f: Run)
    requires IsRun(cfg, r) && cfg.variant == WRITTEN && |r.labels| > 0 && f == Front(r)
    requires SafeRun(Intended(cfg), f) && CleanAt(r, |r.labels| - 1)
    ensures StepAt(Intended(cfg), r, |r.labels| - 1)
  {
    var k := |r.labels| - 1;
    var c, a := r.states[k], r.labels[k];
    assert StepAt(cfg, r, k);
    if a.event.RecvAppend? {
      ReceivedIndexed(Intended(cfg), f, c, a.node, a.event.append);
    }
    CleanStepSame(cfg, a.node, c.nodes[a.node], a.event);
    NextSame(cfg, c, a);
  }
}
