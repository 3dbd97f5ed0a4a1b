/** What nodes apply, and what their stores hold, over whole runs. */
module StoreSafety {
  import opened Types
  import opened LogModel
  import opened NodeModel
  import opened StateMachine
  import opened Cluster
  import opened History
  import opened ElectionSafety
  import opened LogHistory
  import opened LogSafety
  import opened LogRuns
  import opened Safety
  import VoteDiscipline
  import Replay
  import CommitRule

  // ---------------------------------------------------------------------
  // A committed prefix survives every step, even one that forgets the commit index
  // ---------------------------------------------------------------------

  lemma AppendedKeepsPrefix(xs: Entries, x: LogEntry)
    requires x.index == |xs| + 1
    ensures xs <= Seq(Append(FromSeq(xs), x)) && LastIndex(FromSeq(xs)) == |xs|
  {
    FromSeqReads(xs);
    FromSeqAppend(xs, x);
    SeqOfFromSeq(xs + [x]);
  }

  lemma ProposeKeepsPrefix(n: Node, c: Command)
    requires Plain(n.log)
    ensures Propose(n, c).currentTerm == n.currentTerm && Seq(n.log) <= Seq(Propose(n, c).log)
  {
    AppendedKeepsPrefix(Seq(n.log), LogEntry(|Seq(n.log)| + 1, n.currentTerm, c));
  }

  lemma FinishKeepsPrefix(v: NodeID, peers: set<NodeID>, n: Node)
    requires Plain(n.log)
    ensures var n' := FinishElection(v, peers, n);
            n'.currentTerm == n.currentTerm && Seq(n.log) <= Seq(n'.log)
  {
    AppendedKeepsPrefix(Seq(n.log), LogEntry(|Seq(n.log)| + 1, n.currentTerm, NOOP));
  }

  lemma AppendingKeepsPrefix(cfg: Config, v: NodeID, n: Node, ev: Event)
    requires (ev.EndElection? || ev.ClientCommand?) && Plain(n.log)
    ensures var n' := NodeStep(cfg, v, n, ev).0;
            n'.currentTerm == n.currentTerm && Seq(n.log) <= Seq(n'.log)
  {
    if ev.EndElection? { FinishKeepsPrefix(v, cfg.Peers(v), n); } else { ProposeKeepsPrefix(n, ev.command); }
  }

  /** The request is handled the same way whatever the commit index. */
  lemma CommitIndexIrrelevant(variant: Variant, v: NodeID, n: Node, req: AppendRequest, k: nat)
    ensures var r := HandleAppend(variant, v, n, req);
            var s := HandleAppend(variant, v, n.(commitIndex := k), req);
            && s.1 == r.1 && s.0 == r.0.(commitIndex := s.0.commitIndex)
            && s.0.commitIndex == if r.1.success then Max(k, Min(req.leaderCommit, req.prevLogIndex + |req.entries|)) else k
  {
  }

  lemma OtherCommitIndexReady(cfg: Config, h: History, v: NodeID, n: Node, k: nat)
    requires Ready(cfg, h, v, n) && CommitOk(cfg, h, Seq(n.log), k, n.currentTerm)
    ensures Ready(cfg, h, v, n.(commitIndex := k))
  {
    SameStandingKeeps(h, v, n, n.(commitIndex := k));
  }

  lemma ReceivingKeepsCommitted(cfg: Config, h: History, v: NodeID, n: Node, req: AppendRequest, k: nat)
    requires Ready(cfg, h, v, n) && RequestOk(cfg, h, req) && MessageVotes(cfg, h, AppendReq(v, req))
    requires Counts(cfg) && AsIntended(cfg, v, n, req) && CommitOk(cfg, h, Seq(n.log), k, n.currentTerm)
    ensures var r := HandleAppend(cfg.variant, v, n, req);
            CommitOk(cfg, RecordAppend(h, v, req, r.1), Seq(r.0.log), k, r.0.currentTerm)
  {
    var n1 := n.(commitIndex := k);
    OtherCommitIndexReady(cfg, h, v, n, k);
    CommitIndexIrrelevant(cfg.variant, v, n, req, k);
    CommitIndexIrrelevant(INTENDED, v, n, req, k);
    RecvAppendLogs(cfg, h, v, n1, req);
    var r := HandleAppend(cfg.variant, v, n1, req);
    CommitOkShorter(cfg, RecordAppend(h, v, req, r.1), Seq(r.0.log), r.0.commitIndex, k, r.0.currentTerm);
  }

  /** A prefix of a node's log that is committed stays, entry for entry, through any step. */
  lemma StepKeepsCommitted(cfg: Config, h: History, h': History, v: NodeID, n: Node, ev: Event, k: nat)
    requires Counts(cfg) && Ready(cfg, h, v, n) && h' == Record(cfg, h, v, n, ev) && Extends(h, h')
    requires ev.RecvAppend? ==> ReceivedOk(cfg, h, v, ev) && Guarded(cfg, v, n, ev)
    requires CommitOk(cfg, h, Seq(n.log), k, n.currentTerm)
    ensures var n' := NodeStep(cfg, v, n, ev).0; CommitOk(cfg, h', Seq(n'.log), k, n'.currentTerm)
  {
    if ev.RecvAppend? {
      ReceivingKeepsCommitted(cfg, h, v, n, ev.append, k);
    } else {
      LocalKeepsCommitted(cfg, h, h', v, n, ev, k);
    }
  }

  lemma LocalKeepsCommitted(cfg: Config, h: History, h': History, v: NodeID, n: Node, ev: Event, k: nat)
    requires Ready(cfg, h, v, n) && Extends(h, h') && !ev.RecvAppend?
    requires CommitOk(cfg, h, Seq(n.log), k, n.currentTerm)
    ensures var n' := NodeStep(cfg, v, n, ev).0; CommitOk(cfg, h', Seq(n'.log), k, n'.currentTerm)
  {
    var n' := NodeStep(cfg, v, n, ev).0;
    VoteDiscipline.ProtocolStepOrderly(cfg, v, n, ev);
    CommitOkStable(cfg, h, h', Seq(n.log), k, n.currentTerm);
    CommitOkLength(cfg, h, Seq(n.log), k, n.currentTerm);
    if Logging(ev) { AppendingKeepsPrefix(cfg, v, n, ev); } else { OtherStepsKeepLog(cfg, v, n, ev); }
    CommitOkAgrees(cfg, h', Seq(n.log), Seq(n'.log), k, k, n.currentTerm, n'.currentTerm);
  }

  // ---------------------------------------------------------------------
  // The apply invariant
  // ---------------------------------------------------------------------

  ghost function AppliedAt(r: Run, i: nat, v: NodeID): nat {
    if In(r, i, v) then NodeAt(r, i, v).lastApplied else 0
  }

  /** The most node `v` had ever applied by point `i`, restarts notwithstanding. */
  ghost function HighWater(r: Run, i: nat, v: NodeID): nat {
    if i == 0 then AppliedAt(r, 0, v) else Max(HighWater(r, i - 1, v), AppliedAt(r, i, v))
  }

  /** The store began empty and was filled in one pass. */
  ghost predicate OnePass(cfg: Config, r: Run, i: nat, v: NodeID) {
    !cfg.persistentStore || forall k :: 0 <= k < i && k < |r.labels| ==> r.labels[k] != Label(v, Crash)
  }

  ghost predicate StoreOk(xs: Entries, n: Node, high: nat, onePass: bool, kept: bool) {
    && n.lastApplied <= n.commitIndex <= |xs| && n.lastApplied <= high <= |xs|
    && (onePass ==> n.store == Fold(map[], xs[..n.lastApplied]))
    && (kept ==> Replay.Replaying(n.store, xs, n.lastApplied, high))
  }

  ghost predicate StoreInvAt(cfg: Config, r: Run, hs: seq<History>, i: nat, v: NodeID)
    requires i < |r.states| && i < |hs|
  {
    && In(r, i, v)
    && CommitOk(cfg, hs[i], LogAt(r, i, v), HighWater(r, i, v), NodeAt(r, i, v).currentTerm)
    && StoreOk(LogAt(r, i, v), NodeAt(r, i, v), HighWater(r, i, v), OnePass(cfg, r, i, v), cfg.persistentStore)
  }

  lemma StoreOkSameLog(xs: Entries, ys: Entries, n: Node, n': Node, high: nat, onePass: bool, kept: bool)
    requires StoreOk(xs, n, high, onePass, kept) && Same(xs, ys, high)
    requires n'.lastApplied == n.lastApplied && n'.store == n.store
    requires n'.lastApplied <= n'.commitIndex <= |ys|
    ensures StoreOk(ys, n', high, onePass, kept)
  {
    assert xs[..high] == ys[..high];
    assert xs[..n.lastApplied] == ys[..n.lastApplied];
    if kept {
      forall key ensures Replay.ReplayingKey(n.store, ys, n.lastApplied, high, key) {
        assert Replay.ReplayingKey(n.store, xs, n.lastApplied, high, key);
      }
    }
  }

  lemma StoreOkApply(xs: Entries, n: Node, high: nat, onePass: bool, kept: bool)
    requires StoreOk(xs, n, high, onePass, kept) && n.log == FromSeq(xs)
    ensures var n' := ApplyCommitted(n);
            StoreOk(xs, n', Max(high, n'.lastApplied), onePass, kept) && n'.lastApplied == n.commitIndex
  {
    var c := n.commitIndex;
    Replay.ApplyPlain(n, xs);
    assert xs[..c] == xs[..n.lastApplied] + xs[n.lastApplied..c];
    Replay.FoldConcat(map[], xs[..n.lastApplied], xs[n.lastApplied..c]);
    if kept { Replay.ReplayAdvances(n.store, xs, n.lastApplied, high, c); }
  }

  lemma StoreOkRestart(xs: Entries, n: Node, high: nat, onePass: bool, kept: bool)
    requires StoreOk(xs, n, high, onePass, kept)
    ensures StoreOk(xs, Restart(n, kept), high, !kept, kept)
  {
    if kept { Replay.ReplayRestarts(n.store, xs, n.lastApplied, high); }
  }

  /** Except for applying and restarting, no step touches the store or what was applied, nor lowers the commit index. */
  lemma OtherStepsKeepStore(cfg: Config, v: NodeID, n: Node, ev: Event)
    requires !ev.Apply? && !ev.Crash?
    ensures var n' := NodeStep(cfg, v, n, ev).0;
            n'.store == n.store && n'.lastApplied == n.lastApplied && n'.commitIndex >= n.commitIndex
  {
    match ev
    case RecvAppendReply(req, resp) => ReplyKeepsStore(cfg.variant, n, req, resp);
    case RecvAppend(req) => AcceptKeepsStore(cfg.variant, v, n, req);
    case _ =>
  }

  lemma AcceptKeepsStore(variant: Variant, v: NodeID, n: Node, req: AppendRequest)
    ensures var n' := HandleAppend(variant, v, n, req).0;
            n'.store == n.store && n'.lastApplied == n.lastApplied && n'.commitIndex >= n.commitIndex
  {
  }

  lemma ReplyKeepsStore(variant: Variant, n: Node, req: AppendRequest, resp: AppendResponse)
    ensures var n' := HandleAppendReply(variant, n, req, resp);
            n'.store == n.store && n'.lastApplied == n.lastApplied && n'.commitIndex >= n.commitIndex
  {
    if n.role == Leader && n.leader.Some? {
      var ls := n.leader.value;
      var m := Max(Lookup(ls.matchIndex, resp.followerId), resp.matchIndex);
      CommitRule.ScanIsGreatest(ls.matchIndex[resp.followerId := m], n.commitIndex, LastIndex(n.log), n.currentTerm, n.log);
    }
  }

  /** The store part of the invariant across a step of the node itself. */
  lemma StoreOkStep(cfg: Config, h: History, h': History, v: NodeID, n: Node, ev: Event, high: nat, onePass: bool)
    requires Counts(cfg) && cfg.Valid() && HistoryVotes(cfg, h') && HistoryLogs(h') && Extends(h, h')
    requires NodeLogs(cfg, h, v, n) && NodeLogs(cfg, h', v, NodeStep(cfg, v, n, ev).0)
    requires StoreOk(Seq(n.log), n, high, onePass, cfg.persistentStore) && CommitOk(cfg, h, Seq(n.log), high, n.currentTerm)
    requires var n' := NodeStep(cfg, v, n, ev).0; CommitOk(cfg, h', Seq(n'.log), high, n'.currentTerm)
    ensures var n' := NodeStep(cfg, v, n, ev).0;
            StoreOk(Seq(n'.log), n', Max(high, n'.lastApplied), if ev.Crash? then !cfg.persistentStore else onePass, cfg.persistentStore)
  {
    var n' := NodeStep(cfg, v, n, ev).0;
    if ev.Apply? {
      OtherStepsKeepLog(cfg, v, n, ev);
      StoreOkApply(Seq(n.log), n, high, onePass, cfg.persistentStore);
    } else if ev.Crash? {
      OtherStepsKeepLog(cfg, v, n, ev);
      StoreOkRestart(Seq(n.log), n, high, onePass, cfg.persistentStore);
    } else {
      OtherStepsKeepStore(cfg, v, n, ev);
      CommitOkStable(cfg, h, h', Seq(n.log), high, n.currentTerm);
      CommittedAgree(cfg, h', Seq(n.log), Seq(n'.log), high, n.currentTerm, n'.currentTerm);
      CommitOkLength(cfg, h', Seq(n'.log), n'.commitIndex, n'.currentTerm);
      StoreOkSameLog(Seq(n.log), Seq(n'.log), n, n', high, onePass, cfg.persistentStore);
    }
  }

  /** What was newly applied is committed too. */
  lemma HighWaterCommitted(cfg: Config, h: History, xs: Entries, n: Node, high: nat)
    requires CommitOk(cfg, h, xs, high, n.currentTerm) && CommitOk(cfg, h, xs, n.commitIndex, n.currentTerm)
    requires n.lastApplied <= n.commitIndex
    ensures CommitOk(cfg, h, xs, Max(high, n.lastApplied), n.currentTerm)
  {
    if n.lastApplied > high {
      CommitOkShorter(cfg, h, xs, n.commitIndex, n.lastApplied, n.currentTerm);
    }
  }

  lemma ReceivedAt(cfg: Config, r: Run, hs: seq<History>, i: nat)
    requires SafeRun(cfg, r) && Recorded(cfg, r, hs) && i < |r.labels|
    ensures var a := r.labels[i];
            && (!Local(a.event) ==> ReceivedOk(cfg, hs[i], a.node, a.event))
            && a.node in r.states[i].nodes && Guarded(cfg, a.node, r.states[i].nodes[a.node], a.event)
  {
    LogsInvAlways(cfg, r, hs, i);
    GuardedAt(cfg, r, hs, i);
    assert StepAt(cfg, r, i);
    if !Local(r.labels[i].event) { ReceivedIsOk(cfg, hs[i], r.states[i], r.labels[i]); }
  }

  lemma KeepsCommittedAt(cfg: Config, r: Run, hs: seq<History>, i: nat, v: NodeID, k: nat)
    requires SafeRun(cfg, r) && Recorded(cfg, r, hs) && 0 < i < |r.states|
    requires r.labels[i - 1].node == v && In(r, i - 1, v)
    requires CommitOk(cfg, hs[i - 1], LogAt(r, i - 1, v), k, NodeAt(r, i - 1, v).currentTerm)
    ensures In(r, i, v) && CommitOk(cfg, hs[i], LogAt(r, i, v), k, NodeAt(r, i, v).currentTerm)
  {
    assert StepAt(cfg, r, i - 1) && RecordedAt(cfg, r, hs, i - 1);
    NodeFacts(cfg, r, hs, i - 1, v);
    ExtendsNext(cfg, r, hs, i - 1);
    ReceivedAt(cfg, r, hs, i - 1);
    StepKeepsCommitted(cfg, hs[i - 1], hs[i], v, NodeAt(r, i - 1, v), r.labels[i - 1].event, k);
  }

  lemma OwnStepAt(cfg: Config, r: Run, hs: seq<History>, i: nat, v: NodeID, high: nat, onePass: bool)
    requires SafeRun(cfg, r) && Recorded(cfg, r, hs) && 0 < i < |r.states|
    requires r.labels[i - 1].node == v && In(r, i - 1, v)
    requires var n := NodeAt(r, i - 1, v);
             CommitOk(cfg, hs[i - 1], Seq(n.log), high, n.currentTerm) && StoreOk(Seq(n.log), n, high, onePass, cfg.persistentStore)
    ensures In(r, i, v)
    ensures var n' := NodeAt(r, i, v);
            && CommitOk(cfg, hs[i], Seq(n'.log), Max(high, n'.lastApplied), n'.currentTerm)
            && StoreOk(Seq(n'.log), n', Max(high, n'.lastApplied),
                       if r.labels[i - 1].event.Crash? then !cfg.persistentStore else onePass, cfg.persistentStore)
  {
    KeepsCommittedAt(cfg, r, hs, i, v, high);
    NodeFacts(cfg, r, hs, i - 1, v);
    NodeFacts(cfg, r, hs, i, v);
    ExtendsNext(cfg, r, hs, i - 1);
    assert StepAt(cfg, r, i - 1);
    StoreOkStep(cfg, hs[i - 1], hs[i], v, NodeAt(r, i - 1, v), r.labels[i - 1].event, high, onePass);
    HighWaterCommitted(cfg, hs[i], LogAt(r, i, v), NodeAt(r, i, v), high);
  }

  lemma StoreInvOwnStep(cfg: Config, r: Run, hs: seq<History>, i: nat, v: NodeID)
    requires SafeRun(cfg, r) && Recorded(cfg, r, hs) && 0 < i < |r.states|
    requires r.labels[i - 1].node == v && StoreInvAt(cfg, r, hs, i - 1, v)
    ensures StoreInvAt(cfg, r, hs, i, v)
  {
    OwnStepAt(cfg, r, hs, i, v, HighWater(r, i - 1, v), OnePass(cfg, r, i - 1, v));
    OnePassStep(cfg, r, i, v);
  }

  lemma OnePassStep(cfg: Config, r: Run, i: nat, v: NodeID)
    requires 0 < i <= |r.labels| && r.labels[i - 1].node == v
    ensures OnePass(cfg, r, i, v) ==> OnePass(cfg, r, i - 1, v)
    ensures OnePass(cfg, r, i, v) && r.labels[i - 1].event.Crash? ==> !cfg.persistentStore
  {
    assert r.labels[i - 1].event.Crash? ==> r.labels[i - 1] == Label(v, Crash);
  }

  lemma StoreInvOtherStep(cfg: Config, r: Run, hs: seq<History>, i: nat, v: NodeID)
    requires SafeRun(cfg, r) && Recorded(cfg, r, hs) && 0 < i < |r.states|
    requires r.labels[i - 1].node != v && StoreInvAt(cfg, r, hs, i - 1, v)
    ensures StoreInvAt(cfg, r, hs, i, v)
  {
    assert StepAt(cfg, r, i - 1);
    ExtendsNext(cfg, r, hs, i - 1);
    var n := NodeAt(r, i - 1, v);
    assert NodeAt(r, i, v) == n && HighWater(r, i, v) == HighWater(r, i - 1, v);
    CommitOkStable(cfg, hs[i - 1], hs[i], Seq(n.log), HighWater(r, i - 1, v), n.currentTerm);
    assert OnePass(cfg, r, i, v) ==> OnePass(cfg, r, i - 1, v);
  }

  lemma {:induction false} StoreInvAlways(cfg: Config, r: Run, hs: seq<History>, i: nat, v: NodeID)
    requires SafeRun(cfg, r) && Recorded(cfg, r, hs) && i < |r.states| && v in cfg.nodes
    ensures StoreInvAt(cfg, r, hs, i, v)
  {
    if i == 0 {
      assert r.states[0].nodes[v] == FRESH;
      forall key ensures Replay.ReplayingKey(map[], LogAt(r, 0, v), 0, 0, key) {
      }
    } else {
      StoreInvAlways(cfg, r, hs, i - 1, v);
      if r.labels[i - 1].node == v { StoreInvOwnStep(cfg, r, hs, i, v); } else { StoreInvOtherStep(cfg, r, hs, i, v); }
    }
  }

  // ---------------------------------------------------------------------
  // The results
  // ---------------------------------------------------------------------

  /** Applied, committed and stored indices stay in order. */
  lemma ApplyOrder(cfg: Config, r: Run, i: nat, v: NodeID)
    requires SafeRun(cfg, r) && In(r, i, v)
    ensures NodeAt(r, i, v).lastApplied <= NodeAt(r, i, v).commitIndex <= |LogAt(r, i, v)|
  {
    var hs := Histories(cfg, r);
    NodeFacts(cfg, r, hs, i, v);
    StoreInvAlways(cfg, r, hs, i, v);
  }

  /** One step of a run that is not a restart never lowers `commitIndex` or `lastApplied`; it applies
      either nothing or exactly the committed entries that follow, in order. */
  lemma ApplyOnceInOrder(cfg: Config, r: Run, i: nat, v: NodeID)
    requires SafeRun(cfg, r) && i < |r.labels| && v in cfg.nodes && r.labels[i] != Label(v, Crash)
    ensures In(r, i, v) && In(r, i + 1, v)
    ensures var n, n' := NodeAt(r, i, v), NodeAt(r, i + 1, v);
            && n.commitIndex <= n'.commitIndex && n.lastApplied <= n'.lastApplied <= |LogAt(r, i, v)|
            && n'.store == Fold(n.store, LogAt(r, i, v)[n.lastApplied..n'.lastApplied])
  {
    var hs := Histories(cfg, r);
    StoreInvAlways(cfg, r, hs, i, v);
    StoreInvAlways(cfg, r, hs, i + 1, v);
    NodeFacts(cfg, r, hs, i, v);
    assert StepAt(cfg, r, i);
    var n, ev := NodeAt(r, i, v), r.labels[i].event;
    if r.labels[i].node == v && ev.Apply? {
      Replay.ApplyPlain(n, LogAt(r, i, v));
    } else {
      assert LogAt(r, i, v)[n.lastApplied..n.lastApplied] == [];
      if r.labels[i].node == v {
        assert !ev.Crash?;
        OtherStepsKeepStore(cfg, v, n, ev);
      }
    }
  }

  /** State Machine Safety: two nodes never apply different entries at the same index, at any two points. */
  lemma StateMachineSafety(cfg: Config, r: Run, i: nat, j: nat, v: NodeID, w: NodeID, k: nat)
    requires SafeRun(cfg, r) && In(r, i, v) && In(r, j, w)
    requires 1 <= k <= NodeAt(r, i, v).lastApplied && k <= NodeAt(r, j, w).lastApplied
    ensures k <= |LogAt(r, i, v)| && k <= |LogAt(r, j, w)|
    ensures LogAt(r, i, v)[..k] == LogAt(r, j, w)[..k]
  {
    ApplyOrder(cfg, r, i, v);
    ApplyOrder(cfg, r, j, w);
    CommittedNeverDiffers(cfg, r, i, j, v, w, k);
  }

  /** A store filled in one pass is the fold of the applied prefix. */
  lemma StoreIsFold(cfg: Config, r: Run, i: nat, v: NodeID)
    requires SafeRun(cfg, r) && In(r, i, v) && OnePass(cfg, r, i, v)
    ensures NodeAt(r, i, v).lastApplied <= |LogAt(r, i, v)|
    ensures NodeAt(r, i, v).store == Fold(map[], LogAt(r, i, v)[..NodeAt(r, i, v).lastApplied])
  {
    var hs := Histories(cfg, r);
    NodeFacts(cfg, r, hs, i, v);
    StoreInvAlways(cfg, r, hs, i, v);
  }

  /** Since its last restart the node has applied as much as it ever had. */
  ghost predicate CaughtUp(r: Run, i: nat, v: NodeID) {
    HighWater(r, i, v) == AppliedAt(r, i, v)
  }

  /** After any number of restarts over a store that survives them, a node that has caught up holds the
      fold of the applied prefix, if that prefix is replayable. */
  lemma StoreIsFoldAfterRestarts(cfg: Config, r: Run, i: nat, v: NodeID)
    requires SafeRun(cfg, r) && In(r, i, v) && CaughtUp(r, i, v)
    requires NodeAt(r, i, v).lastApplied <= |LogAt(r, i, v)| ==>
               Replay.Replayable(LogAt(r, i, v)[..NodeAt(r, i, v).lastApplied])
    ensures NodeAt(r, i, v).lastApplied <= |LogAt(r, i, v)|
    ensures NodeAt(r, i, v).store == Fold(map[], LogAt(r, i, v)[..NodeAt(r, i, v).lastApplied])
  {
    var hs := Histories(cfg, r);
    NodeFacts(cfg, r, hs, i, v);
    StoreInvAlways(cfg, r, hs, i, v);
    if cfg.persistentStore { Replay.CaughtUpStore(NodeAt(r, i, v).store, LogAt(r, i, v), NodeAt(r, i, v).lastApplied); }
  }

  /** When a node's store can be trusted to be the fold of what it applied. */
  ghost predicate Clean(cfg: Config, r: Run, i: nat, v: NodeID)
    requires In(r, i, v)
  {
    || OnePass(cfg, r, i, v)
    || (CaughtUp(r, i, v) &&
        (NodeAt(r, i, v).lastApplied <= |LogAt(r, i, v)| ==>
           Replay.Replayable(LogAt(r, i, v)[..NodeAt(r, i, v).lastApplied])))
  }

  /** Two nodes that have applied equally much have equal stores, whenever each of them is so looked at. */
  lemma StoresAgree(cfg: Config, r: Run, i: nat, j: nat, v: NodeID, w: NodeID)
    requires SafeRun(cfg, r) && In(r, i, v) && In(r, j, w)
    requires Clean(cfg, r, i, v) && Clean(cfg, r, j, w)
    requires NodeAt(r, i, v).lastApplied == NodeAt(r, j, w).lastApplied
    ensures NodeAt(r, i, v).store == NodeAt(r, j, w).store
  {
    CleanStore(cfg, r, i, v);
    CleanStore(cfg, r, j, w);
    var k := NodeAt(r, i, v).lastApplied;
    if k > 0 {
      StateMachineSafety(cfg, r, i, j, v, w, k);
    } else {
      assert LogAt(r, i, v)[..0] == LogAt(r, j, w)[..0];
    }
  }

  lemma CleanStore(cfg: Config, r: Run, i: nat, v: NodeID)
    requires SafeRun(cfg, r) && In(r, i, v) && Clean(cfg, r, i, v)
    ensures NodeAt(r, i, v).lastApplied <= |LogAt(r, i, v)|
    ensures NodeAt(r, i, v).store == Fold(map[], LogAt(r, i, v)[..NodeAt(r, i, v).lastApplied])
  {
    if OnePass(cfg, r, i, v) { StoreIsFold(cfg, r, i, v); } else { StoreIsFoldAfterRestarts(cfg, r, i, v); }
  }
}
