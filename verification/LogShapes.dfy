/** What every log looks like at every cluster size, safe or not, once the entry loop reads the term again. */
module LogShapes {
  import opened Types
  import opened LogModel
  import opened NodeModel
  import opened Cluster
  import opened LogSafety
  import opened LogRuns
  import opened Safety
  import History
  import LogHistory
  import VoteDiscipline
  import Splice

  type Entries = seq<LogEntry>

  /** Terms start at `low` or above, never decrease, and never exceed `high`. */
  ghost predicate Rising(xs: Entries, low: nat, high: nat) {
    forall a, b :: 0 <= a <= b < |xs| ==> low <= xs[a].term <= xs[b].term <= high
  }

  ghost predicate Shaped(l: Log, t: nat) {
    Plain(l) && Indexed(Seq(l), 1) && Rising(Seq(l), 1, t)
  }

  ghost predicate NodeShape(n: Node) {
    VoteDiscipline.Durable(n) && (n.role != Follower ==> n.currentTerm >= 1) && Shaped(n.log, n.currentTerm)
  }

  /** A request continues the log it was cut from; one that names no term carries nothing. */
  ghost predicate RequestShape(req: AppendRequest) {
    && Indexed(req.entries, req.prevLogIndex + 1) && Rising(req.entries, Max(1, req.prevLogTerm), req.term)
    && (req.prevLogIndex > 0 && req.prevLogTerm == 0 ==> req.entries == [])
  }

  ghost predicate MessageShape(m: Message) {
    m.AppendReq? ==> RequestShape(m.append)
  }

  ghost predicate ShapeInv(cfg: Config, c: State) {
    && (forall v :: v in cfg.nodes && v in c.nodes ==> NodeShape(c.nodes[v]))
    && (forall m :: m in c.msgs ==> MessageShape(m))
  }

  lemma ShapedFrom(xs: Entries, t: nat)
    requires Indexed(xs, 1) && Rising(xs, 1, t)
    ensures Shaped(FromSeq(xs), t)
  {
    SeqOfFromSeq(xs);
  }

  /** Appending an entry of the current term. */
  lemma AppendShaped(l: Log, t: nat, c: Command)
    requires Shaped(l, t) && t >= 1
    ensures Shaped(Append(l, LogEntry(LastIndex(l) + 1, t, c)), t)
  {
    hide Rising;
    var xs := Seq(l);
    var ys := xs + [LogEntry(|xs| + 1, t, c)];
    FromSeqReads(xs);
    FromSeqAppend(xs, LogEntry(|xs| + 1, t, c));
    RisingOn(xs, LogEntry(|xs| + 1, t, c), t);
    ShapedFrom(ys, t);
  }

  lemma RisingOn(xs: Entries, x: LogEntry, t: nat)
    requires Rising(xs, 1, t) && x.term == t >= 1
    ensures Rising(xs + [x], 1, t)
  {
    var ys := xs + [x];
    forall a, b | 0 <= a <= b < |ys| ensures 1 <= ys[a].term <= ys[b].term <= t {
      if a < |xs| { assert 1 <= xs[a].term <= xs[a].term <= t; }
    }
  }

  lemma MergeShaped(xs: Entries, prev: nat, prevTerm: nat, entries: Entries, t: nat, t': nat)
    requires Indexed(xs, 1) && Rising(xs, 1, t) && t <= t' && prev <= |xs| && TermOf(xs, prev) == prevTerm
    requires Indexed(entries, prev + 1) && Rising(entries, Max(1, prevTerm), t')
    ensures Indexed(Splice.Merge(xs, prev, entries), 1) && Rising(Splice.Merge(xs, prev, entries), 1, t')
  {
    var k, zs := Splice.Agreeing(xs, prev, entries), Splice.Merge(xs, prev, entries);
    if k < |entries| {
      forall a, b | 0 <= a <= b < |zs| ensures 1 <= zs[a].term <= zs[b].term <= t' {
        if a < prev + k <= b {
          assert xs[a].term <= xs[prev + k - 1].term;
          assert zs[b] == entries[b - prev];
          if k > 0 { assert xs[prev + (k - 1)].term == entries[k - 1].term; }
        }
      }
    }
  }

  /** An accepted request of a shaped log leaves a shaped log. */
  lemma AcceptShaped(v: NodeID, n: Node, req: AppendRequest)
    requires NodeShape(n) && RequestShape(req) && HandleAppend(INTENDED, v, n, req).1.success
    ensures Shaped(HandleAppend(INTENDED, v, n, req).0.log, req.term)
  {
    var xs := Seq(n.log);
    AcceptPlain(v, n, req, xs);
    MergeShaped(xs, req.prevLogIndex, TermOf(xs, req.prevLogIndex), req.entries, n.currentTerm, req.term);
    ShapedFrom(Splice.Merge(xs, req.prevLogIndex, req.entries), req.term);
  }

  lemma RecvAppendShape(variant: Variant, v: NodeID, n: Node, req: AppendRequest)
    requires variant.rereadTerm && NodeShape(n) && RequestShape(req)
    ensures var n' := HandleAppend(variant, v, n, req).0; Shaped(n'.log, n'.currentTerm)
  {
    RereadIsIntended(variant, v, n, req);
    var r := HandleAppend(INTENDED, v, n, req);
    if r.1.success {
      AcceptIs(v, n, req);
      AcceptShaped(v, n, req);
    } else {
      RefusedIs(INTENDED, v, n, req);
    }
  }

  lemma CutShape(xs: Entries, prev: nat, t: nat, v: NodeID, commit: nat)
    requires Indexed(xs, 1) && Rising(xs, 1, t) && prev <= |xs|
    ensures RequestShape(AppendRequest(t, v, prev, TermOf(xs, prev), xs[prev..], commit))
  {
    var ys := xs[prev..];
    forall i | 0 <= i < |ys| ensures ys[i].index == prev + 1 + i { assert ys[i] == xs[prev + i]; }
    forall a, b | 0 <= a <= b < |ys| ensures Max(1, TermOf(xs, prev)) <= ys[a].term <= ys[b].term <= t {
      assert ys[a] == xs[prev + a] && ys[b] == xs[prev + b];
      if prev > 0 { assert xs[prev - 1].term <= xs[prev + a].term; }
    }
  }

  lemma SendShape(v: NodeID, n: Node, p: NodeID)
    requires NodeShape(n) && MakeAppend(v, n, p).Some?
    ensures RequestShape(MakeAppend(v, n, p).value)
  {
    hide Rising, RequestShape;
    var xs, next := Seq(n.log), Lookup(n.leader.value.nextIndex, p);
    if next <= |xs| + 1 {
      MakeAppendPlain(v, n, p, xs);
      CutShape(xs, next - 1, n.currentTerm, v, n.commitIndex);
    } else {
      MakeAppendBeyond(v, n, p, xs);
      NothingShape(MakeAppend(v, n, p).value);
    }
  }

  lemma NothingShape(req: AppendRequest)
    requires req.entries == []
    ensures RequestShape(req)
  {
  }

  /** Whoever stands or leads has left term 0. */
  lemma TermAfterStep(cfg: Config, v: NodeID, n: Node, ev: Event)
    requires n.role != Follower ==> n.currentTerm >= 1
    ensures var n' := NodeStep(cfg, v, n, ev).0; n'.role != Follower ==> n'.currentTerm >= 1
  {
    match ev
    case RecvAppend(req) => ElectionSafety.HandleAppendShape(cfg.variant, v, n, req);
    case Apply => ElectionSafety.ApplyKeepsVotes(n);
    case _ =>
  }

  lemma ShapedLater(l: Log, t: nat, t': nat)
    requires Shaped(l, t) && t <= t'
    ensures Shaped(l, t')
  {
  }

  lemma OwnEntryShape(cfg: Config, v: NodeID, n: Node, ev: Event)
    requires NodeShape(n) && (ev.EndElection? || ev.ClientCommand?)
    ensures var n' := NodeStep(cfg, v, n, ev).0; Shaped(n'.log, n'.currentTerm)
  {
    hide Shaped;
    if n.role != Follower { AppendShaped(n.log, n.currentTerm, if ev.ClientCommand? then ev.command else NOOP); }
  }

  lemma NodeShapeStep(cfg: Config, v: NodeID, n: Node, ev: Event)
    requires cfg.variant.rereadTerm && NodeShape(n) && (ev.RecvAppend? ==> RequestShape(ev.append))
    ensures NodeShape(NodeStep(cfg, v, n, ev).0)
  {
    hide Rising, RequestShape;
    VoteDiscipline.ProtocolStepOrderly(cfg, v, n, ev);
    TermAfterStep(cfg, v, n, ev);
    if ev.RecvAppend? {
      RecvAppendShape(cfg.variant, v, n, ev.append);
    } else if Logging(ev) {
      OwnEntryShape(cfg, v, n, ev);
    } else {
      OtherStepsKeepLog(cfg, v, n, ev);
      ShapedLater(n.log, n.currentTerm, NodeStep(cfg, v, n, ev).0.currentTerm);
    }
  }

  lemma SentShape(cfg: Config, v: NodeID, n: Node, ev: Event, m: Message)
    requires NodeShape(n) && m in NodeStep(cfg, v, n, ev).1
    ensures MessageShape(m)
  {
    if ev.SendAppend? { SendShape(v, n, ev.peer); }
  }

  lemma ShapeInvStep(cfg: Config, c: State, a: Label)
    requires cfg.variant.rereadTerm && ShapeInv(cfg, c) && Enabled(cfg, c, a.node, a.event)
    ensures ShapeInv(cfg, Next(cfg, c, a))
  {
    hide NodeShape, RequestShape;
    var v, n, c' := a.node, c.nodes[a.node], Next(cfg, c, a);
    if a.event.RecvAppend? { assert MessageShape(AppendReq(v, a.event.append)); }
    NodeShapeStep(cfg, v, n, a.event);
    forall m | m in c'.msgs ensures MessageShape(m) {
      if m !in c.msgs { SentShape(cfg, v, n, a.event, m); }
    }
  }

  lemma {:induction false} ShapeInvAlways(cfg: Config, r: Run, i: nat)
    requires IsRun(cfg, r) && cfg.variant.rereadTerm && i <= |r.labels|
    ensures ShapeInv(cfg, r.states[i])
  {
    hide ShapeInv;
    if i == 0 {
      FirstShape(cfg, r.states[0]);
    } else {
      ShapeInvAlways(cfg, r, i - 1);
      assert StepAt(cfg, r, i - 1);
      ShapeInvStep(cfg, r.states[i - 1], r.labels[i - 1]);
    }
  }

  lemma FirstShape(cfg: Config, c: State)
    requires Init(cfg, c)
    ensures ShapeInv(cfg, c)
  {
    assert FromSeq([]).entries == map[];
    ShapedFrom([], 0);
  }

  /** Every log in every reachable state, at any cluster size, is contiguous and numbered from 1, with
      positive terms that never decrease and never exceed the node's term. */
  lemma LogShape(cfg: Config, r: Run, i: nat, v: NodeID)
    requires IsRun(cfg, r) && LogSound(cfg) && In(r, i, v)
    ensures Shaped(NodeAt(r, i, v).log, NodeAt(r, i, v).currentTerm)
  {
    if cfg.variant.rereadTerm {
      ShapeInvAlways(cfg, r, i);
      NodesIn(cfg, r, i);
      assert NodeShape(NodeAt(r, i, v));
    } else {
      GroundedShape(cfg, r, i, v);
    }
  }

  lemma {:induction false} NodesIn(cfg: Config, r: Run, i: nat)
    requires IsRun(cfg, r) && i < |r.states|
    ensures r.states[i].nodes.Keys == cfg.nodes
  {
    if i > 0 {
      NodesIn(cfg, r, i - 1);
      assert StepAt(cfg, r, i - 1);
    }
  }

  /** With one or two nodes the shape follows from the leaders' logs. */
  lemma GroundedShape(cfg: Config, r: Run, i: nat, v: NodeID)
    requires LogRun(cfg, r) && In(r, i, v)
    ensures Shaped(NodeAt(r, i, v).log, NodeAt(r, i, v).currentTerm)
  {
    var hs := History.Histories(cfg, r);
    NodeFacts(cfg, r, hs, i, v);
    var xs := LogAt(r, i, v);
    forall a, b | 0 <= a <= b < |xs| ensures 1 <= xs[a].term <= xs[b].term <= NodeAt(r, i, v).currentTerm {
      LogHistory.TermsRise(hs[i], xs, a, b);
    }
  }
}
