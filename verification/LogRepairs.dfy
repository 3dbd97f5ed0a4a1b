/** Where the properties of logs hold: for each the cluster sizes and the repairs it takes, exactly. */
module LogRepairs {
  import opened Types
  import opened LogModel
  import opened NodeModel
  import opened Quorum
  import opened Cluster
  import opened LogRuns
  import opened Safety
  import opened LogShapes
  import Scenario
  import LostCommit
  import SplitBrain

  /** Both logs hold the same entry at every index up to `k`. */
  ghost predicate Agree(l: Log, l': Log, k: nat) {
    forall i :: 1 <= i <= k ==> i in l.entries && i in l'.entries && l.entries[i] == l'.entries[i]
  }

  lemma PrefixesAgree(xs: Entries, ys: Entries, k: nat)
    requires k <= |xs| && k <= |ys| && xs[..k] == ys[..k]
    ensures Agree(FromSeq(xs), FromSeq(ys), k)
  {
    forall i | 0 <= i < k ensures xs[i] == ys[i] {
      assert xs[..k][i] == ys[..k][i];
    }
  }

  // ---------------------------------------------------------------------
  // Log Matching
  // ---------------------------------------------------------------------

  ghost predicate SameTermAt(l: Log, l': Log, k: nat) {
    k in l.entries && k in l'.entries && l.entries[k].term == l'.entries[k].term
  }

  /** Logs of any nodes at any points of a run that have equal terms at an index agree up to it. */
  ghost predicate LogsMatch(cfg: Config) {
    forall r, i: nat, j: nat, v, w, k: nat ::
      IsRun(cfg, r) && In(r, i, v) && In(r, j, w) && SameTermAt(NodeAt(r, i, v).log, NodeAt(r, j, w).log, k) ==>
      Agree(NodeAt(r, i, v).log, NodeAt(r, j, w).log, k)
  }

  lemma SoundMatch(cfg: Config, r: Run, i: nat, j: nat, v: NodeID, w: NodeID, k: nat)
    requires LogRun(cfg, r) && In(r, i, v) && In(r, j, w) && SameTermAt(NodeAt(r, i, v).log, NodeAt(r, j, w).log, k)
    ensures Agree(NodeAt(r, i, v).log, NodeAt(r, j, w).log, k)
  {
    LogShape(cfg, r, i, v);
    LogShape(cfg, r, j, w);
    LogMatching(cfg, r, i, j, v, w, k - 1);
    PrefixesAgree(LogAt(r, i, v), LogAt(r, j, w), k);
  }

  lemma Mismatch(cfg: Config, r: Run, v: NodeID, w: NodeID, k: nat)
    requires IsRun(cfg, r) && In(r, |r.labels|, v) && In(r, |r.labels|, w)
    requires SameTermAt(NodeAt(r, |r.labels|, v).log, NodeAt(r, |r.labels|, w).log, k)
    requires !Agree(NodeAt(r, |r.labels|, v).log, NodeAt(r, |r.labels|, w).log, k)
    ensures !LogsMatch(cfg)
  {
  }

  lemma HoleMismatches()
    ensures SameTermAt(LostCommit.HOLED, FromSeq(LostCommit.BOTH), 2) && !Agree(LostCommit.HOLED, FromSeq(LostCommit.BOTH), 2)
  {
    assert 1 !in LostCommit.HOLED.entries;
  }

  lemma RivalsMismatch()
    ensures SameTermAt(FromSeq(SplitBrain.XS), FromSeq(SplitBrain.YS), 2) && !Agree(FromSeq(SplitBrain.XS), FromSeq(SplitBrain.YS), 2)
  {
    assert FromSeq(SplitBrain.XS).entries[2] != FromSeq(SplitBrain.YS).entries[2];
  }

  lemma LogsMismatch(cfg: Config)
    requires cfg.Valid() && !(SafeSize(|cfg.nodes|) && LogSound(cfg))
    ensures !LogsMatch(cfg)
  {
    if !SafeSize(|cfg.nodes|) {
      var r, a, b, w := SplitBrain.TwoLogsRun(cfg);
      RivalsMismatch();
      Mismatch(cfg, r, w, b, 2);
    } else {
      var r, x, y := LostCommit.HoledRun(cfg);
      HoleMismatches();
      Mismatch(cfg, r, x, y, 2);
    }
  }

  /** Log Matching, cluster by cluster: it holds over all runs exactly when the size is odd or two and the
      entry loop reads the term again or there are at most two nodes. Checking replies plays no part. */
  lemma LogMatchingIff(cfg: Config)
    requires cfg.Valid()
    ensures LogsMatch(cfg) <==>
            (|cfg.nodes| % 2 == 1 || |cfg.nodes| == 2) && (cfg.variant.rereadTerm || |cfg.nodes| <= 2)
  {
    if SafeSize(|cfg.nodes|) && LogSound(cfg) {
      forall r, i: nat, j: nat, v, w, k: nat |
        IsRun(cfg, r) && In(r, i, v) && In(r, j, w) && SameTermAt(NodeAt(r, i, v).log, NodeAt(r, j, w).log, k)
        ensures Agree(NodeAt(r, i, v).log, NodeAt(r, j, w).log, k)
      {
        SoundMatch(cfg, r, i, j, v, w, k);
      }
    } else {
      LogsMismatch(cfg);
    }
  }

  // ---------------------------------------------------------------------
  // The shape of logs
  // ---------------------------------------------------------------------

  ghost predicate LogsShaped(cfg: Config) {
    forall r, i: nat, v :: IsRun(cfg, r) && In(r, i, v) ==> Shaped(NodeAt(r, i, v).log, NodeAt(r, i, v).currentTerm)
  }

  lemma HoleNotShaped(t: nat)
    ensures !Shaped(LostCommit.HOLED, t)
  {
    var l := FromSeq(Seq(LostCommit.HOLED));
    assert 2 in l.entries ==> 1 in l.entries;
    assert 2 in LostCommit.HOLED.entries && 1 !in LostCommit.HOLED.entries;
  }

  /** The shape of logs, cluster by cluster: it holds exactly when the entry loop reads the term again or
      there are at most two nodes, at safe and unsafe sizes alike. */
  lemma LogShapeIff(cfg: Config)
    requires cfg.Valid()
    ensures LogsShaped(cfg) <==> cfg.variant.rereadTerm || |cfg.nodes| <= 2
  {
    if LogSound(cfg) {
      forall r, i: nat, v | IsRun(cfg, r) && In(r, i, v) ensures Shaped(NodeAt(r, i, v).log, NodeAt(r, i, v).currentTerm) {
        LogShape(cfg, r, i, v);
      }
    } else {
      var r, x, y := LostCommit.HoledRun(cfg);
      HoleNotShaped(NodeAt(r, |r.labels|, x).currentTerm);
    }
  }

  // ---------------------------------------------------------------------
  // Acknowledgements
  // ---------------------------------------------------------------------

  ghost predicate Leads(r: Run, k: nat, u: NodeID, t: nat) {
    In(r, k, u) && NodeAt(r, k, u).role == Leader && NodeAt(r, k, u).currentTerm == t
  }

  /** What a node acknowledges is in its log, as whoever leads the term then or later has it. */
  ghost predicate AcksTrue(cfg: Config) {
    forall r, j: nat, v, req, k: nat, u ::
      IsRun(cfg, r) && Accepts(cfg, r, j, v, req) && j < k && Leads(r, k, u, req.term) ==>
      Agree(NodeAt(r, j + 1, v).log, NodeAt(r, k, u).log, HandleAppend(cfg.variant, v, NodeAt(r, j, v), req).1.matchIndex)
  }

  lemma SoundAck(cfg: Config, r: Run, j: nat, v: NodeID, req: AppendRequest, k: nat, u: NodeID)
    requires LogRun(cfg, r) && Accepts(cfg, r, j, v, req) && j < k && Leads(r, k, u, req.term)
    ensures Agree(NodeAt(r, j + 1, v).log, NodeAt(r, k, u).log, HandleAppend(cfg.variant, v, NodeAt(r, j, v), req).1.matchIndex)
  {
    AcknowledgedIsHeld(cfg, r, j, v, req);
    var m, xs, ys := HandleAppend(cfg.variant, v, NodeAt(r, j, v), req).1.matchIndex, LogAt(r, j + 1, v), LogAt(r, k, u);
    assert HeldAt(r, j + 1, v, req.term, ys, m);
    LogShape(cfg, r, j + 1, v);
    LogShape(cfg, r, k, u);
    assert xs[..m] == ys[..m];
    PrefixesAgree(xs, ys, m);
  }

  lemma FalseAck(cfg: Config, r: Run, v: NodeID, req: AppendRequest, u: NodeID)
    requires Scenario.AcceptsLast(cfg, r, v, req) && Accepts(cfg, r, |r.labels| - 1, v, req) && Leads(r, |r.labels|, u, req.term)
    requires var m := HandleAppend(cfg.variant, v, NodeAt(r, |r.labels| - 1, v), req).1.matchIndex;
             !Agree(NodeAt(r, |r.labels|, v).log, NodeAt(r, |r.labels|, u).log, m)
    ensures !AcksTrue(cfg)
  {
    assert NodeAt(r, (|r.labels| - 1) + 1, v) == NodeAt(r, |r.labels|, v);
  }

  lemma AcksFalse(cfg: Config)
    requires cfg.Valid() && !(SafeSize(|cfg.nodes|) && LogSound(cfg))
    ensures !AcksTrue(cfg)
  {
    if !SafeSize(|cfg.nodes|) {
      var r, a, b, w := SplitBrain.TwoLogsRun(cfg);
      RivalsMismatch();
      FalseAck(cfg, r, w, AppendRequest(1, a, 0, 0, SplitBrain.XS, 0), b);
    } else {
      var r, x, y := LostCommit.HoledRun(cfg);
      HoleMismatches();
      FalseAck(cfg, r, x, LostCommit.Sent(y), y);
    }
  }

  /** Acknowledgements are true, over all runs of a cluster, exactly where Log Matching holds. */
  lemma AcksTrueIff(cfg: Config)
    requires cfg.Valid()
    ensures AcksTrue(cfg) <==>
            (|cfg.nodes| % 2 == 1 || |cfg.nodes| == 2) && (cfg.variant.rereadTerm || |cfg.nodes| <= 2)
  {
    if SafeSize(|cfg.nodes|) && LogSound(cfg) {
      forall r, j: nat, v, req, k: nat, u | IsRun(cfg, r) && Accepts(cfg, r, j, v, req) && j < k && Leads(r, k, u, req.term)
        ensures Agree(NodeAt(r, j + 1, v).log, NodeAt(r, k, u).log, HandleAppend(cfg.variant, v, NodeAt(r, j, v), req).1.matchIndex)
      {
        SoundAck(cfg, r, j, v, req, k, u);
      }
    } else {
      AcksFalse(cfg);
    }
  }
}
