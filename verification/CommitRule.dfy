/** What index a leader may commit: the downward scan finds the greatest one, and for an ordered log that
    is an order statistic of `matchIndex`. */
module CommitRule {
  import opened Types
  import opened LogModel
  import opened NodeModel
  import opened Quorum

  type Matches = map<NodeID, nat>

  /** Index `i` is of term `term` and a majority of the cluster, the leader included, holds it. */
  ghost predicate Committable(m: Matches, term: nat, l: Log, i: nat) {
    TermAt(l, i) == term && 1 + |Holders(m, i)| >= CommitMajority(|m|)
  }

  /** The scan returns the greatest committable index above `commit` and up to `last`, or 0 if there is none. */
  lemma {:induction false} ScanIsGreatest(m: Matches, commit: nat, last: nat, term: nat, l: Log)
    ensures var r := CommitScan(m, commit, last, term, l);
            && (r == 0 || (commit < r <= last && Committable(m, term, l, r)))
            && (forall i :: commit < i <= last && Committable(m, term, l, i) ==> i <= r)
    decreases last
  {
    if last > commit && !Committable(m, term, l, last) {
      ScanIsGreatest(m, commit, last - 1, term, l);
    }
  }

  // ---------------------------------------------------------------------
  // The order-statistic form
  // ---------------------------------------------------------------------

  /** The peers, each once, from the highest `matchIndex` to the lowest. */
  ghost predicate Ranking(m: Matches, order: seq<NodeID>) {
    && |order| == |m|
    && (forall i :: 0 <= i < |order| ==> order[i] in m)
    && (forall i, j :: 0 <= i < j < |order| ==> order[i] != order[j] && m[order[i]] >= m[order[j]])
  }

  lemma MaximumPeer(m: Matches) returns (p: NodeID)
    requires m != map[]
    ensures p in m && forall q :: q in m ==> m[q] <= m[p]
  {
    p :| p in m;
    var rest := m.Keys - {p};
    while rest != {}
      invariant p in m && rest <= m.Keys
      invariant forall q :: q in m && q !in rest ==> m[q] <= m[p]
      decreases rest
    {
      var q :| q in rest;
      rest := rest - {q};
      if m[q] > m[p] { p := q; }
    }
  }

  lemma {:induction false} RankingExists(m: Matches)
    ensures exists order :: Ranking(m, order)
    decreases |m|
  {
    if m == map[] {
      assert Ranking(m, []);
    } else {
      var p := MaximumPeer(m);
      var m' := m - {p};
      assert m.Keys == m'.Keys + {p};
      RankingExists(m');
      var tail :| Ranking(m', tail);
      var order := [p] + tail;
      forall i, j | 0 <= i < j < |order| ensures order[i] != order[j] && m[order[i]] >= m[order[j]] {
        assert order[j] == tail[j - 1] && tail[j - 1] in m';
        if i > 0 { assert order[i] == tail[i - 1] && m'[tail[i - 1]] >= m'[tail[j - 1]]; }
      }
      assert Ranking(m, order);
    }
  }

  lemma {:induction false} DistinctCount(order: seq<NodeID>, k: nat)
    requires k <= |order| && forall i, j :: 0 <= i < j < |order| ==> order[i] != order[j]
    ensures |set i | 0 <= i < k :: order[i]| == k
    decreases k
  {
    var s := set i | 0 <= i < k :: order[i];
    if k == 0 {
      assert s == {};
    } else {
      DistinctCount(order, k - 1);
      var s' := set i | 0 <= i < k - 1 :: order[i];
      assert s == s' + {order[k - 1]};
    }
  }

  /** At least `k` peers hold `i` exactly when the `k`-th in the ranking does. */
  lemma HoldersByRank(m: Matches, order: seq<NodeID>, k: nat, i: nat)
    requires Ranking(m, order) && 1 <= k <= |order|
    ensures |Holders(m, i)| >= k <==> m[order[k - 1]] >= i
  {
    if m[order[k - 1]] >= i {
      var top := set j | 0 <= j < k :: order[j];
      DistinctCount(order, k);
      assert top <= Holders(m, i);
      CardinalityBound(Holders(m, i), top);
    } else {
      var top := set j | 0 <= j < k - 1 :: order[j];
      DistinctCount(order, k - 1);
      RankingCovers(m, order);
      forall p | p in Holders(m, i) ensures p in top {
        var j :| 0 <= j < |order| && order[j] == p;
      }
      CardinalityBound(top, Holders(m, i));
    }
  }

  lemma RankingCovers(m: Matches, order: seq<NodeID>)
    requires Ranking(m, order)
    ensures forall p :: p in m ==> exists j :: 0 <= j < |order| && order[j] == p
  {
    var s := set j | 0 <= j < |order| :: order[j];
    DistinctCount(order, |order|);
    assert s <= m.Keys;
    assert m.Keys == s + (m.Keys - s);
    assert |m.Keys| == |m|;
    forall p | p in m ensures exists j :: 0 <= j < |order| && order[j] == p {
      assert p in s;
    }
  }

  /** The highest index a majority holds: the leader's last, or the middle of the ranking if that is lower. */
  ghost function MajorityHolds(m: Matches, order: seq<NodeID>, last: nat): nat
    requires Ranking(m, order)
  {
    var need := CommitMajority(|m|) - 1;
    if need == 0 then last else Min(last, m[order[need - 1]])
  }

  /** One look at one element of the ranking. */
  ghost function CommitByRank(m: Matches, order: seq<NodeID>, commit: nat, term: nat, xs: seq<LogEntry>): nat
    requires Ranking(m, order)
  {
    var top := MajorityHolds(m, order, |xs|);
    if top > commit && TermOf(xs, top) == term then top else 0
  }

  ghost predicate TermsUpTo(xs: seq<LogEntry>, term: nat) {
    forall i, j :: 0 <= i <= j < |xs| ==> xs[i].term <= xs[j].term <= term
  }

  /** The peers can be ranked, and on a log whose terms do not decrease and end no later than the current
      term every ranking gives what the scan gives. */
  lemma ScanIsOrderStatistic(m: Matches, commit: nat, term: nat, xs: seq<LogEntry>)
    requires TermsUpTo(xs, term)
    ensures exists order :: Ranking(m, order)
    ensures forall order :: Ranking(m, order) ==>
              CommitScan(m, commit, |xs|, term, FromSeq(xs)) == CommitByRank(m, order, commit, term, xs)
  {
    RankingExists(m);
    forall order | Ranking(m, order)
      ensures CommitScan(m, commit, |xs|, term, FromSeq(xs)) == CommitByRank(m, order, commit, term, xs)
    {
      ScanByRank(m, order, commit, term, xs);
    }
  }

  lemma ScanByRank(m: Matches, order: seq<NodeID>, commit: nat, term: nat, xs: seq<LogEntry>)
    requires Ranking(m, order) && TermsUpTo(xs, term)
    ensures CommitScan(m, commit, |xs|, term, FromSeq(xs)) == CommitByRank(m, order, commit, term, xs)
  {
    var l, top := FromSeq(xs), MajorityHolds(m, order, |xs|);
    FromSeqReads(xs);
    ScanIsGreatest(m, commit, |xs|, term, l);
    forall i | commit < i <= |xs| ensures Committable(m, term, l, i) <==> TermOf(xs, i) == term && i <= top {
      MajorityMeans(m, order, |xs|, i);
    }
  }

  lemma MajorityMeans(m: Matches, order: seq<NodeID>, last: nat, i: nat)
    requires Ranking(m, order) && i <= last
    ensures 1 + |Holders(m, i)| >= CommitMajority(|m|) <==> i <= MajorityHolds(m, order, last)
  {
    var need := CommitMajority(|m|) - 1;
    if need > 0 { HoldersByRank(m, order, need, i); }
  }
}
