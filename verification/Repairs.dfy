/** Where Leader Completeness and State Machine Safety hold: the cluster size and the repairs they take. */
module Repairs {
  import opened Types
  import opened NodeModel
  import opened Quorum
  import opened Cluster
  import opened LogRuns
  import opened Safety
  import LogShapes
  import StoreSafety
  import Scenario
  import LostCommit
  import StaleReply
  import SplitBrain

  /** Everything `n` has committed is in the log of `leader`. */
  ghost predicate Holds(leader: Node, n: Node) {
    forall k :: 1 <= k <= n.commitIndex ==>
      k in n.log.entries && k in leader.log.entries && leader.log.entries[k] == n.log.entries[k]
  }

  ghost predicate LeadsLater(r: Run, i: nat, v: NodeID, j: nat, w: NodeID) {
    In(r, i, v) && In(r, j, w) && NodeAt(r, j, w).role == Leader && NodeAt(r, j, w).currentTerm > NodeAt(r, i, v).currentTerm
  }

  /** In every run, every leader of a later term holds what any node has committed. */
  ghost predicate LeadersComplete(cfg: Config) {
    forall r, i: nat, j: nat, v, w ::
      IsRun(cfg, r) && LeadsLater(r, i, v, j, w) ==> Holds(NodeAt(r, j, w), NodeAt(r, i, v))
  }

  lemma SoundComplete(cfg: Config, r: Run, i: nat, j: nat, v: NodeID, w: NodeID)
    requires SafeRun(cfg, r) && LeadsLater(r, i, v, j, w)
    ensures Holds(NodeAt(r, j, w), NodeAt(r, i, v))
  {
    LogShapes.LogShape(cfg, r, i, v);
    LogShapes.LogShape(cfg, r, j, w);
    LeaderCompleteness(cfg, r, i, j, v, w);
    var xs, ys, k := LogAt(r, i, v), LogAt(r, j, w), NodeAt(r, i, v).commitIndex;
    forall a | 0 <= a < k ensures xs[a] == ys[a] {
      assert xs[..k][a] == ys[..k][a];
    }
  }

  lemma StateBreaks(cfg: Config, c: State, v: NodeID, w: NodeID)
    requires Scenario.At(cfg, c) && v in c.nodes && w in c.nodes
    requires c.nodes[w].role == Leader && c.nodes[w].currentTerm > c.nodes[v].currentTerm && !Holds(c.nodes[w], c.nodes[v])
    ensures !LeadersComplete(cfg)
  {
    var r :| Scenario.EndsIn(cfg, r, c);
    assert LeadsLater(r, |r.labels|, v, |r.labels|, w);
    assert !Holds(NodeAt(r, |r.labels|, w), NodeAt(r, |r.labels|, v));
  }

  lemma UnsoundBreaks(cfg: Config)
    requires cfg.Valid() && !(SafeSize(|cfg.nodes|) && Sound(cfg))
    ensures !LeadersComplete(cfg)
  {
    if !SafeSize(|cfg.nodes|) {
      var c, a, b := SplitBrain.CommittedEntryOverruled(cfg);
      StateBreaks(cfg, c, a, b);
    } else if !cfg.variant.rereadTerm {
      var c, x, y := LostCommit.CommittedEntryLost(cfg);
      StateBreaks(cfg, c, y, x);
    } else {
      var c, a, b := StaleReply.CommittedEntryReplaced(cfg);
      StateBreaks(cfg, c, a, b);
    }
  }

  /** Leader Completeness, cluster by cluster: it holds over all runs exactly when the size is odd or two
      and either both repairs are made, or there are at most two nodes, or there are three and the entry
      loop reads the term again. */
  lemma CompletenessIff(cfg: Config)
    requires cfg.Valid()
    ensures LeadersComplete(cfg) <==>
            && (|cfg.nodes| % 2 == 1 || |cfg.nodes| == 2)
            && (cfg.variant == INTENDED || |cfg.nodes| <= 2 || (|cfg.nodes| == 3 && cfg.variant.rereadTerm))
  {
    if SafeSize(|cfg.nodes|) && Sound(cfg) {
      forall r, i: nat, j: nat, v, w | IsRun(cfg, r) && LeadsLater(r, i, v, j, w)
        ensures Holds(NodeAt(r, j, w), NodeAt(r, i, v))
      {
        SoundComplete(cfg, r, i, j, v, w);
      }
    } else {
      UnsoundBreaks(cfg);
    }
  }

  // ---------------------------------------------------------------------
  // State Machine Safety
  // ---------------------------------------------------------------------

  /** Both nodes hold the entry at `k`, and it is the same one. */
  ghost predicate SameEntry(n: Node, m: Node, k: nat) {
    k in n.log.entries && k in m.log.entries && n.log.entries[k] == m.log.entries[k]
  }

  ghost predicate BothApplied(n: Node, m: Node, k: nat) {
    1 <= k <= n.lastApplied && k <= m.lastApplied
  }

  /** In every run, nodes that have applied an index, at any two points, have applied the same entry there. */
  ghost predicate AppliedSame(cfg: Config) {
    forall r, i: nat, j: nat, v, w, k: nat ::
      IsRun(cfg, r) && In(r, i, v) && In(r, j, w) && BothApplied(NodeAt(r, i, v), NodeAt(r, j, w), k) ==>
      SameEntry(NodeAt(r, i, v), NodeAt(r, j, w), k)
  }

  lemma SoundApplied(cfg: Config, r: Run, i: nat, j: nat, v: NodeID, w: NodeID, k: nat)
    requires SafeRun(cfg, r) && In(r, i, v) && In(r, j, w) && BothApplied(NodeAt(r, i, v), NodeAt(r, j, w), k)
    ensures SameEntry(NodeAt(r, i, v), NodeAt(r, j, w), k)
  {
    LogShapes.LogShape(cfg, r, i, v);
    LogShapes.LogShape(cfg, r, j, w);
    StoreSafety.StateMachineSafety(cfg, r, i, j, v, w, k);
    assert LogAt(r, i, v)[..k][k - 1] == LogAt(r, j, w)[..k][k - 1];
  }

  lemma StateDiffers(cfg: Config, c: State, v: NodeID, w: NodeID, k: nat)
    requires Scenario.At(cfg, c) && v in c.nodes && w in c.nodes
    requires BothApplied(c.nodes[v], c.nodes[w], k) && !SameEntry(c.nodes[v], c.nodes[w], k)
    ensures !AppliedSame(cfg)
  {
    var r :| Scenario.EndsIn(cfg, r, c);
    assert BothApplied(NodeAt(r, |r.labels|, v), NodeAt(r, |r.labels|, w), k);
    assert !SameEntry(NodeAt(r, |r.labels|, v), NodeAt(r, |r.labels|, w), k);
  }

  lemma UnsoundDiffers(cfg: Config)
    requires cfg.Valid() && !(SafeSize(|cfg.nodes|) && Sound(cfg))
    ensures !AppliedSame(cfg)
  {
    if !SafeSize(|cfg.nodes|) {
      var c, a, b := SplitBrain.AppliedDifferently(cfg);
      StateDiffers(cfg, c, a, b, 2);
    } else if !cfg.variant.rereadTerm {
      var c, x, y := LostCommit.PassedOver(cfg);
      StateDiffers(cfg, c, x, y, 1);
    } else {
      var c, a, b := StaleReply.AppliedDifferently(cfg);
      StateDiffers(cfg, c, a, b, 2);
    }
  }

  /** State Machine Safety, cluster by cluster: it holds over all runs exactly where Leader Completeness does. */
  lemma StateMachineSafetyIff(cfg: Config)
    requires cfg.Valid()
    ensures AppliedSame(cfg) <==>
            && (|cfg.nodes| % 2 == 1 || |cfg.nodes| == 2)
            && (cfg.variant == INTENDED || |cfg.nodes| <= 2 || (|cfg.nodes| == 3 && cfg.variant.rereadTerm))
  {
    if SafeSize(|cfg.nodes|) && Sound(cfg) {
      forall r, i: nat, j: nat, v, w, k: nat |
        IsRun(cfg, r) && In(r, i, v) && In(r, j, w) && BothApplied(NodeAt(r, i, v), NodeAt(r, j, w), k)
        ensures SameEntry(NodeAt(r, i, v), NodeAt(r, j, w), k)
      {
        SoundApplied(cfg, r, i, j, v, w, k);
      }
    } else {
      UnsoundDiffers(cfg);
    }
  }
}
