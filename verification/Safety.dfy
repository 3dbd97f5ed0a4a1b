/** The safety theorems, over whole runs. */
module Safety {
  import opened Types
  import opened LogModel
  import opened NodeModel
  import opened Quorum
  import opened Cluster
  import opened History
  import opened ElectionSafety
  import opened LogHistory
  import opened LogSafety
  import opened LogRuns

  /** Runs the safety theorems speak of: a safe cluster size, and both repairs unless the cluster is too
      small to need them. */
  ghost predicate SafeRun(cfg: Config, r: Run) {
    IsRun(cfg, r) && SafeSize(|cfg.nodes|) && Sound(cfg)
  }

  /** Runs the theorems about logs speak of, whether replies are checked or not. */
  ghost predicate LogRun(cfg: Config, r: Run) {
    IsRun(cfg, r) && SafeSize(|cfg.nodes|) && LogSound(cfg)
  }

  ghost function NodeAt(r: Run, i: nat, v: NodeID): Node
    requires i < |r.states| && v in r.states[i].nodes
  {
    r.states[i].nodes[v]
  }

  ghost function LogAt(r: Run, i: nat, v: NodeID): Entries
    requires i < |r.states| && v in r.states[i].nodes
  {
    Seq(NodeAt(r, i, v).log)
  }

  ghost predicate In(r: Run, i: nat, v: NodeID) {
    i < |r.states| && v in r.states[i].nodes
  }

  lemma ExtendsNext(cfg: Config, r: Run, hs: seq<History>, i: nat)
    requires IsRun(cfg, r) && Recorded(cfg, r, hs) && i < |r.labels|
    requires SafeSize(|cfg.nodes|) && LogSound(cfg)
    ensures Extends(hs[i], hs[i + 1])
  {
    LogsInvAlways(cfg, r, hs, i);
    GuardedAt(cfg, r, hs, i);
    assert StepAt(cfg, r, i) && RecordedAt(cfg, r, hs, i);
    LogsInvStep(cfg, hs[i], r.states[i], r.labels[i]);
  }

  lemma {:induction false} RecordedForever(cfg: Config, r: Run, hs: seq<History>, i: nat, j: nat)
    requires IsRun(cfg, r) && Recorded(cfg, r, hs) && i <= j <= |r.labels|
    requires SafeSize(|cfg.nodes|) && LogSound(cfg)
    ensures Extends(hs[i], hs[j])
  {
    if i < j {
      RecordedForever(cfg, r, hs, i, j - 1);
      ExtendsNext(cfg, r, hs, j - 1);
      ExtendsTransitive(hs[i], hs[j - 1], hs[j]);
    }
  }

  lemma ExtendsTransitive(h: History, h': History, h'': History)
    requires Extends(h, h') && Extends(h', h'')
    ensures Extends(h, h'')
  {
    forall t | t in h.elected ensures t in h''.elected && Grows(h.elected[t], h''.elected[t]) {
      assert Grows(h.elected[t], h'.elected[t]) && Grows(h'.elected[t], h''.elected[t]);
    }
  }

  /** Everything known of one node at one point, in the history of that point. */
  lemma NodeFacts(cfg: Config, r: Run, hs: seq<History>, i: nat, v: NodeID)
    requires LogRun(cfg, r) && Recorded(cfg, r, hs) && In(r, i, v)
    ensures cfg.Valid() && v in cfg.nodes && HistoryVotes(cfg, hs[i]) && HistoryLogs(hs[i])
    ensures NodeVotes(cfg, hs[i], v, NodeAt(r, i, v)) && NodeLogs(cfg, hs[i], v, NodeAt(r, i, v))
  {
    LogsInvAlways(cfg, r, hs, i);
  }

  lemma MessageFacts(cfg: Config, r: Run, hs: seq<History>, i: nat, m: Message)
    requires LogRun(cfg, r) && Recorded(cfg, r, hs) && i < |r.states| && m in r.states[i].msgs
    ensures HistoryLogs(hs[i]) && MessageLogs(cfg, hs[i], m)
  {
    LogsInvAlways(cfg, r, hs, i);
  }

  /** A log of an earlier point is still grounded later. */
  lemma LogGroundedLater(cfg: Config, r: Run, hs: seq<History>, i: nat, k: nat, v: NodeID)
    requires LogRun(cfg, r) && Recorded(cfg, r, hs) && In(r, i, v) && i <= k < |r.states|
    ensures Grounded(hs[k], LogAt(r, i, v))
  {
    NodeFacts(cfg, r, hs, i, v);
    RecordedForever(cfg, r, hs, i, k);
    GroundedStable(hs[i], hs[k], LogAt(r, i, v));
  }

  lemma CommitLater(cfg: Config, r: Run, hs: seq<History>, i: nat, k: nat, v: NodeID)
    requires SafeRun(cfg, r) && Recorded(cfg, r, hs) && In(r, i, v) && i <= k < |r.states|
    ensures CommitOk(cfg, hs[k], LogAt(r, i, v), NodeAt(r, i, v).commitIndex, NodeAt(r, i, v).currentTerm)
  {
    NodeFacts(cfg, r, hs, i, v);
    RecordedForever(cfg, r, hs, i, k);
    CommitOkStable(cfg, hs[i], hs[k], LogAt(r, i, v), NodeAt(r, i, v).commitIndex, NodeAt(r, i, v).currentTerm);
  }

  // ---------------------------------------------------------------------
  // Logs
  // ---------------------------------------------------------------------

  /** Log Matching, across nodes and across time: logs that hold entries with the same index
      and term are identical up to that index. */
  lemma LogMatching(cfg: Config, r: Run, i: nat, j: nat, v: NodeID, w: NodeID, k: nat)
    requires LogRun(cfg, r) && In(r, i, v) && In(r, j, w)
    requires k < |LogAt(r, i, v)| && k < |LogAt(r, j, w)| && LogAt(r, i, v)[k].term == LogAt(r, j, w)[k].term
    ensures LogAt(r, i, v)[..k + 1] == LogAt(r, j, w)[..k + 1]
  {
    var hs := Histories(cfg, r);
    var end := |r.labels|;
    LogGroundedLater(cfg, r, hs, i, end, v);
    LogGroundedLater(cfg, r, hs, j, end, w);
    SameTermSamePrefix(hs[end], LogAt(r, i, v), LogAt(r, j, w), k);
  }

  // ---------------------------------------------------------------------
  // Leader Completeness and State Machine Safety
  // ---------------------------------------------------------------------

  lemma LeaderLogLater(cfg: Config, r: Run, hs: seq<History>, j: nat, k: nat, w: NodeID)
    requires LogRun(cfg, r) && Recorded(cfg, r, hs) && In(r, j, w) && j <= k < |r.states|
    requires NodeAt(r, j, w).role == Leader
    ensures var t := NodeAt(r, j, w).currentTerm;
            t in hs[k].elected && LogAt(r, j, w) <= LeaderLog(hs[k], t) && hs[k].elected[t].base < |LogAt(r, j, w)|
  {
    NodeFacts(cfg, r, hs, j, w);
    RecordedForever(cfg, r, hs, j, k);
    var t := NodeAt(r, j, w).currentTerm;
    assert TermOk(hs[j], t) && Grows(hs[j].elected[t], hs[k].elected[t]);
  }

  /** What any node has committed at any point is in the log of whoever leads a later term at
      any point, before or after. */
  lemma LeaderCompleteness(cfg: Config, r: Run, i: nat, j: nat, v: NodeID, w: NodeID)
    requires SafeRun(cfg, r) && In(r, i, v) && In(r, j, w)
    requires NodeAt(r, j, w).role == Leader && NodeAt(r, j, w).currentTerm > NodeAt(r, i, v).currentTerm
    ensures var k := NodeAt(r, i, v).commitIndex;
            && k <= |LogAt(r, i, v)| && k <= |LogAt(r, j, w)|
            && LogAt(r, j, w)[..k] == LogAt(r, i, v)[..k]
  {
    var hs := Histories(cfg, r);
    var end := |r.labels|;
    var n := NodeAt(r, i, v);
    CommitLater(cfg, r, hs, i, end, v);
    LeaderLogLater(cfg, r, hs, j, end, w);
    HistoryFacts(cfg, r, hs, end);
    LeaderHoldsShort(cfg, hs[end], LogAt(r, i, v), n.commitIndex, n.currentTerm, NodeAt(r, j, w).currentTerm, LogAt(r, j, w));
  }

  lemma HistoryFacts(cfg: Config, r: Run, hs: seq<History>, i: nat)
    requires LogRun(cfg, r) && Recorded(cfg, r, hs) && i < |r.states|
    ensures cfg.Valid() && HistoryVotes(cfg, hs[i]) && HistoryLogs(hs[i])
  {
    LogsInvAlways(cfg, r, hs, i);
  }

  /** The leader's log of an earlier moment already holds what a smaller term committed. */
  lemma LeaderHoldsShort(cfg: Config, h: History, xs: Entries, k: nat, t: nat, s: nat, ys: Entries)
    requires cfg.Valid() && HistoryVotes(cfg, h) && HistoryLogs(h)
    requires CommitOk(cfg, h, xs, k, t) && t < s && s in h.elected
    requires ys <= LeaderLog(h, s) && h.elected[s].base < |ys|
    ensures Same(xs, ys, k)
  {
    LeaderHoldsCommitted(cfg, h, xs, k, t, s);
    if k > 0 {
      CommittedTerms(cfg, h, xs, k, t);
      assert TermOk(h, s);
      assert LeaderLog(h, s)[k - 1] == xs[k - 1];
    }
  }

  lemma CommittedTerms(cfg: Config, h: History, xs: Entries, k: nat, t: nat)
    requires HistoryLogs(h) && CommitOk(cfg, h, xs, k, t) && k > 0
    ensures k <= |xs| && xs[k - 1].term <= t
  {
    var s: nat, n: nat :| s <= t && CommittedPrefix(cfg, h, xs, k, s, n);
    assert TermOk(h, s);
    assert xs[k - 1] == LeaderLog(h, s)[k - 1];
  }

  /** What two nodes have committed, at any two points, never differs. */
  lemma CommittedNeverDiffers(cfg: Config, r: Run, i: nat, j: nat, v: NodeID, w: NodeID, k: nat)
    requires SafeRun(cfg, r) && In(r, i, v) && In(r, j, w)
    requires k <= NodeAt(r, i, v).commitIndex && k <= NodeAt(r, j, w).commitIndex
    ensures k <= |LogAt(r, i, v)| && k <= |LogAt(r, j, w)|
    ensures LogAt(r, i, v)[..k] == LogAt(r, j, w)[..k]
  {
    var hs := Histories(cfg, r);
    var end := |r.labels|;
    var n, m := NodeAt(r, i, v), NodeAt(r, j, w);
    CommitLater(cfg, r, hs, i, end, v);
    CommitLater(cfg, r, hs, j, end, w);
    HistoryFacts(cfg, r, hs, end);
    CommitOkShorter(cfg, hs[end], LogAt(r, i, v), n.commitIndex, k, n.currentTerm);
    CommitOkShorter(cfg, hs[end], LogAt(r, j, w), m.commitIndex, k, m.currentTerm);
    CommittedAgree(cfg, hs[end], LogAt(r, i, v), LogAt(r, j, w), k, n.currentTerm, m.currentTerm);
  }

  lemma CommitOkShorter(cfg: Config, h: History, xs: Entries, k: nat, j: nat, t: nat)
    requires CommitOk(cfg, h, xs, k, t) && j <= k
    ensures CommitOk(cfg, h, xs, j, t)
  {
    CommitOkLength(cfg, h, xs, k, t);
    CommitOkAgrees(cfg, h, xs, xs, k, j, t, t);
  }

  // ---------------------------------------------------------------------
  // Match soundness
  // ---------------------------------------------------------------------

  /** At point `j` node `v` was in term `t` and held the first `k` entries of `xs`. */
  ghost predicate HeldAt(r: Run, j: nat, v: NodeID, t: nat, xs: Entries, k: nat) {
    In(r, j, v) && NodeAt(r, j, v).currentTerm == t && Same(LogAt(r, j, v), xs, k)
  }

  /** Only the node itself adds to what it acknowledged, and only in its current term. */
  lemma AckIsOwn(cfg: Config, h: History, v: NodeID, n: Node, ev: Event, t: nat, w: NodeID)
    requires Standing(h, v, n)
    requires var h' := Record(cfg, h, v, n, ev);
             (t, w) in h'.acked && !((t, w) in h.acked && h.acked[(t, w)] == h'.acked[(t, w)])
    ensures w == v && NodeStep(cfg, v, n, ev).0.currentTerm == t
  {
    match ev
    case RecvAppend(req) => HandleAppendShape(cfg.variant, v, n, req);
    case _ =>
  }

  /** In the term it was given, an acknowledgement is covered by the node's log. */
  lemma CurrentAckHeld(h: History, v: NodeID, xs: Entries, t: nat)
    requires Keeps(h, v, xs, t + 1) && (t, v) in h.acked && t in h.elected
    ensures Same(xs, LeaderLog(h, t), h.acked[(t, v)])
  {
    var k := h.acked[(t, v)];
    assert !Lost(h, t, k, t + 1);
    assert Covers(h, t, k, xs);
  }

  /** Every acknowledgement on record was true when it was given. */
  lemma {:induction false} AckWasHeld(cfg: Config, r: Run, hs: seq<History>, i: nat, t: nat, v: NodeID) returns (j: nat)
    requires LogRun(cfg, r) && Recorded(cfg, r, hs) && i < |r.states|
    requires (t, v) in hs[i].acked
    ensures j <= i && t in hs[i].elected
    ensures HeldAt(r, j, v, t, LeaderLog(hs[i], t), hs[i].acked[(t, v)])
  {
    if (t, v) in hs[i - 1].acked && hs[i - 1].acked[(t, v)] == hs[i].acked[(t, v)] {
      j := AckWasHeld(cfg, r, hs, i - 1, t, v);
      ExtendsNext(cfg, r, hs, i - 1);
      assert Grows(hs[i - 1].elected[t], hs[i].elected[t]);
    } else {
      j := i;
      NewAckHeld(cfg, r, hs, i, t, v);
    }
  }

  lemma NewAckHeld(cfg: Config, r: Run, hs: seq<History>, i: nat, t: nat, v: NodeID)
    requires LogRun(cfg, r) && Recorded(cfg, r, hs) && 0 < i < |r.states|
    requires (t, v) in hs[i].acked
    requires !((t, v) in hs[i - 1].acked && hs[i - 1].acked[(t, v)] == hs[i].acked[(t, v)])
    ensures t in hs[i].elected && HeldAt(r, i, v, t, LeaderLog(hs[i], t), hs[i].acked[(t, v)])
  {
    assert StepAt(cfg, r, i - 1) && RecordedAt(cfg, r, hs, i - 1);
    var a := r.labels[i - 1];
    NodeFacts(cfg, r, hs, i - 1, a.node);
    AckIsOwn(cfg, hs[i - 1], a.node, NodeAt(r, i - 1, a.node), a.event, t, v);
    NodeFacts(cfg, r, hs, i, v);
    assert AckOk(hs[i], t, v);
    CurrentAckHeld(hs[i], v, LogAt(r, i, v), t);
  }

  /** The step that first sent a reply. */
  lemma {:induction false} ReplySent(cfg: Config, r: Run, i: nat, req: AppendRequest, resp: AppendResponse) returns (j: nat)
    requires IsRun(cfg, r) && i < |r.states| && AppendResp(req, resp) in r.states[i].msgs
    ensures j < i && r.labels[j].event == RecvAppend(req) && In(r, j, r.labels[j].node)
    ensures resp == HandleAppend(cfg.variant, r.labels[j].node, NodeAt(r, j, r.labels[j].node), req).1
    ensures AppendResp(req, resp) in r.states[j + 1].msgs
    decreases i
  {
    if i == 0 {
      assert false;
    } else if AppendResp(req, resp) in r.states[i - 1].msgs {
      j := ReplySent(cfg, r, i - 1, req, resp);
    } else {
      assert StepAt(cfg, r, i - 1);
      j := i - 1;
    }
  }

  /** A node that has just accepted a request is in the request's term, and reports its whole log. */
  lemma AcceptedShape(variant: Variant, v: NodeID, n: Node, req: AppendRequest)
    requires HandleAppend(variant, v, n, req).1.success
    ensures var r := HandleAppend(variant, v, n, req);
            r.0.currentTerm == req.term && r.1.followerId == v && r.1.matchIndex == LastIndex(r.0.log)
  {
  }

  /** The node that handles a request acknowledges it. */
  ghost predicate Accepts(cfg: Config, r: Run, j: nat, v: NodeID, req: AppendRequest) {
    && j < |r.labels| && r.labels[j] == Label(v, RecvAppend(req)) && In(r, j, v) && In(r, j + 1, v)
    && HandleAppend(cfg.variant, v, NodeAt(r, j, v), req).1.success
  }

  /** Every acknowledgement is true: a node that accepts a request is then in the request's term; what it
      reports is its whole log, and that is the log of whoever leads the term then or later. */
  lemma AcknowledgedIsHeld(cfg: Config, r: Run, j: nat, v: NodeID, req: AppendRequest)
    requires LogRun(cfg, r) && Accepts(cfg, r, j, v, req)
    ensures var m := HandleAppend(cfg.variant, v, NodeAt(r, j, v), req).1.matchIndex;
            && |LogAt(r, j + 1, v)| == m
            && forall k: nat, u ::
                 j < k && In(r, k, u) && NodeAt(r, k, u).role == Leader && NodeAt(r, k, u).currentTerm == req.term ==>
                 HeldAt(r, j + 1, v, req.term, LogAt(r, k, u), m)
  {
    var hs := Histories(cfg, r);
    var resp := HandleAppend(cfg.variant, v, NodeAt(r, j, v), req).1;
    assert StepAt(cfg, r, j);
    AcceptedShape(cfg.variant, v, NodeAt(r, j, v), req);
    NodeFacts(cfg, r, hs, j + 1, v);
    FromSeqReads(LogAt(r, j + 1, v));
    ReplyHeld(cfg, r, hs, j + 1, req, resp);
    forall k: nat, u | j < k && In(r, k, u) && NodeAt(r, k, u).role == Leader && NodeAt(r, k, u).currentTerm == req.term
      ensures HeldAt(r, j + 1, v, req.term, LogAt(r, k, u), resp.matchIndex)
    {
      HeldLater(cfg, r, hs, j + 1, k, v, u, req.term, resp.matchIndex);
    }
  }

  /** Every successful reply in flight was sent by the follower it names, in a step that made it true. */
  lemma ReplyWasTrue(cfg: Config, r: Run, i: nat, req: AppendRequest, resp: AppendResponse) returns (j: nat)
    requires LogRun(cfg, r) && i < |r.states| && AppendResp(req, resp) in r.states[i].msgs && resp.success
    ensures j < i && Accepts(cfg, r, j, resp.followerId, req) && |LogAt(r, j + 1, resp.followerId)| == resp.matchIndex
    ensures forall k: nat, u ::
              j < k && In(r, k, u) && NodeAt(r, k, u).role == Leader && NodeAt(r, k, u).currentTerm == req.term ==>
              HeldAt(r, j + 1, resp.followerId, req.term, LogAt(r, k, u), resp.matchIndex)
  {
    j := ReplySent(cfg, r, i, req, resp);
    assert StepAt(cfg, r, j);
    AcceptedShape(cfg.variant, r.labels[j].node, NodeAt(r, j, r.labels[j].node), req);
    AcknowledgedIsHeld(cfg, r, j, resp.followerId, req);
  }

  lemma ReplyHeld(cfg: Config, r: Run, hs: seq<History>, i: nat, req: AppendRequest, resp: AppendResponse)
    requires LogRun(cfg, r) && Recorded(cfg, r, hs) && In(r, i, resp.followerId)
    requires AppendResp(req, resp) in r.states[i].msgs && resp.success
    requires NodeAt(r, i, resp.followerId).currentTerm == req.term
    ensures req.term in hs[i].elected
    ensures HeldAt(r, i, resp.followerId, req.term, LeaderLog(hs[i], req.term), resp.matchIndex)
  {
    NodeFacts(cfg, r, hs, i, resp.followerId);
    MessageFacts(cfg, r, hs, i, AppendResp(req, resp));
    CurrentAckHeld(hs[i], resp.followerId, LogAt(r, i, resp.followerId), req.term);
  }

  lemma HeldLater(cfg: Config, r: Run, hs: seq<History>, i: nat, k: nat, v: NodeID, u: NodeID, t: nat, m: nat)
    requires LogRun(cfg, r) && Recorded(cfg, r, hs) && i <= k && In(r, k, u) && t in hs[i].elected
    requires NodeAt(r, k, u).role == Leader && NodeAt(r, k, u).currentTerm == t
    requires HeldAt(r, i, v, t, LeaderLog(hs[i], t), m)
    ensures HeldAt(r, i, v, t, LogAt(r, k, u), m)
  {
    NodeFacts(cfg, r, hs, k, u);
    RecordedForever(cfg, r, hs, i, k);
    assert Grows(hs[i].elected[t], hs[k].elected[t]);
  }

  /** `matchIndex[p] == m` at a leader of term `t` means that at some earlier point `p` was in
      term `t` and its log was the leader's through `m`. Where replies of an earlier term are counted too,
      in clusters small enough to bear it, an `m` without that backing lies below the leader's own entries. */
  lemma MatchSoundness(cfg: Config, r: Run, i: nat, v: NodeID, p: NodeID) returns (j: nat)
    requires SafeRun(cfg, r)
    requires In(r, i, v) && NodeAt(r, i, v).role == Leader && p in cfg.Peers(v)
    ensures NodeAt(r, i, v).leader.Some?
    ensures var m, t := Lookup(NodeAt(r, i, v).leader.value.matchIndex, p), NodeAt(r, i, v).currentTerm;
            || m == 0 || (j <= i && HeldAt(r, j, p, t, LogAt(r, i, v), m))
            || (!cfg.variant.checkReplyTerm && m <= |LogAt(r, i, v)| && LogAt(r, i, v)[m - 1].term < t)
  {
    var hs := Histories(cfg, r);
    NodeFacts(cfg, r, hs, i, v);
    var t := NodeAt(r, i, v).currentTerm;
    j := 0;
    var m := Lookup(NodeAt(r, i, v).leader.value.matchIndex, p);
    if 0 < m <= AckedUpTo(hs[i], t, p) {
      j := AckWasHeld(cfg, r, hs, i, t, p);
    } else {
      assert TermOk(hs[i], t);
    }
  }
}
