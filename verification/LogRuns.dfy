/** The log invariant in every state of every run that keeps it: the protocol with its entry loop repaired,
    and the small clusters that do without. */
module LogRuns {
  import opened Types
  import opened NodeModel
  import opened Quorum
  import opened Cluster
  import opened History
  import ElectionSafety
  import opened LogSafety
  import PairLogs

  /** The entry loop reads the term again, or never meets a conflict because the nodes are few. */
  predicate LogSound(cfg: Config) {
    cfg.variant.rereadTerm || |cfg.nodes| <= 2
  }

  /** The code has both repairs, or a cluster too small to need those it lacks. */
  predicate Sound(cfg: Config) {
    LogSound(cfg) && Counts(cfg)
  }

  ghost predicate PairInvAt(cfg: Config, r: Run, hs: seq<History>, i: nat)
    requires i < |r.states| && i < |hs|
  {
    |cfg.nodes| <= 2 ==> PairLogs.PairInv(cfg, hs[i], r.states[i])
  }

  /** The invariant holds at every point of the run up to the `i`-th. */
  ghost predicate LogsInvUpTo(cfg: Config, r: Run, hs: seq<History>, i: nat)
    requires i < |r.states| && i < |hs|
  {
    LogsInvAt(cfg, r, hs, i) && PairInvAt(cfg, r, hs, i) && (i > 0 ==> LogsInvUpTo(cfg, r, hs, i - 1))
  }

  /** The handler depends on the first repair only. */
  lemma RereadIsIntended(variant: Variant, v: NodeID, n: Node, req: AppendRequest)
    requires variant.rereadTerm
    ensures HandleAppend(variant, v, n, req) == HandleAppend(INTENDED, v, n, req)
  {
  }

  lemma StepGuarded(cfg: Config, h: History, c: State, a: Label)
    requires cfg.Valid() && SafeSize(|cfg.nodes|) && LogSound(cfg) && LogsInv(cfg, h, c) && Enabled(cfg, c, a.node, a.event)
    requires |cfg.nodes| <= 2 ==> PairLogs.PairInv(cfg, h, c)
    ensures Guarded(cfg, a.node, c.nodes[a.node], a.event)
  {
    hide NodeLogs, ElectionSafety.NodeVotes, PairLogs.Behind;
    var v, n := a.node, c.nodes[a.node];
    if a.event.RecvAppend? {
      if cfg.variant.rereadTerm {
        RereadIsIntended(cfg.variant, v, n, a.event.append);
      } else {
        ReceivedIsOk(cfg, h, c, a);
        PairLogs.PairAsIntended(cfg, h, v, n, a.event.append);
      }
    }
  }

  lemma GuardedAt(cfg: Config, r: Run, hs: seq<History>, i: nat)
    requires IsRun(cfg, r) && Recorded(cfg, r, hs) && i < |r.labels|
    requires SafeSize(|cfg.nodes|) && LogSound(cfg) && LogsInvUpTo(cfg, r, hs, i)
    ensures r.labels[i].node in r.states[i].nodes
    ensures Guarded(cfg, r.labels[i].node, r.states[i].nodes[r.labels[i].node], r.labels[i].event)
  {
    assert StepAt(cfg, r, i);
    StepGuarded(cfg, hs[i], r.states[i], r.labels[i]);
  }

  lemma PairInvNext(cfg: Config, r: Run, hs: seq<History>, i: nat)
    requires IsRun(cfg, r) && Recorded(cfg, r, hs) && i < |r.labels|
    requires SafeSize(|cfg.nodes|) && LogsInvUpTo(cfg, r, hs, i)
    ensures PairInvAt(cfg, r, hs, i + 1)
  {
    assert StepAt(cfg, r, i) && RecordedAt(cfg, r, hs, i);
    if |cfg.nodes| <= 2 { PairLogs.PairInvStep(cfg, hs[i], r.states[i], r.labels[i]); }
  }

  lemma LogsInvAtNext(cfg: Config, r: Run, hs: seq<History>, i: nat)
    requires IsRun(cfg, r) && Recorded(cfg, r, hs) && i < |r.labels|
    requires SafeSize(|cfg.nodes|) && LogSound(cfg) && LogsInvUpTo(cfg, r, hs, i)
    ensures LogsInvAt(cfg, r, hs, i + 1)
  {
    GuardedAt(cfg, r, hs, i);
    LogsInvNext(cfg, r, hs, i);
  }

  lemma LogsInvUpToNext(cfg: Config, r: Run, hs: seq<History>, i: nat)
    requires IsRun(cfg, r) && Recorded(cfg, r, hs) && i < |r.labels|
    requires SafeSize(|cfg.nodes|) && LogSound(cfg) && LogsInvUpTo(cfg, r, hs, i)
    ensures LogsInvUpTo(cfg, r, hs, i + 1)
  {
    LogsInvAtNext(cfg, r, hs, i);
    PairInvNext(cfg, r, hs, i);
  }

  lemma LogsInvUpToFirst(cfg: Config, r: Run, hs: seq<History>, i: nat)
    requires IsRun(cfg, r) && Recorded(cfg, r, hs) && i == 0
    ensures LogsInvUpTo(cfg, r, hs, i)
  {
    LogsInvFirst(cfg, r, hs, i);
    PairLogs.InitialPair(cfg, hs[i], r.states[i]);
  }

  lemma {:induction false} LogsInvAlways(cfg: Config, r: Run, hs: seq<History>, i: nat)
    requires IsRun(cfg, r) && Recorded(cfg, r, hs) && i <= |r.labels|
    requires SafeSize(|cfg.nodes|) && LogSound(cfg)
    ensures LogsInvUpTo(cfg, r, hs, i)
  {
    hide LogsInvUpTo;
    if i == 0 {
      LogsInvUpToFirst(cfg, r, hs, i);
    } else {
      LogsInvAlways(cfg, r, hs, i - 1);
      LogsInvUpToNext(cfg, r, hs, i - 1);
    }
  }
}
