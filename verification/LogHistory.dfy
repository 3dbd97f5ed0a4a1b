/** What the history says about logs, why it survives every step, and the proof that a
    committed entry is in the log of every later leader. */
module LogHistory {
  import opened Types
  import opened LogModel
  import opened NodeModel
  import opened Quorum
  import opened Cluster
  import opened History
  import opened ElectionSafety

  type Entries = seq<LogEntry>

  /** The two logs hold the same first `n` entries. */
  ghost predicate Same(xs: Entries, ys: Entries, n: nat) {
    n <= |xs| && n <= |ys| && forall j :: 0 <= j < n ==> xs[j] == ys[j]
  }

  ghost function LeaderLog(h: History, t: nat): Entries
    requires t in h.elected
  {
    h.elected[t].log
  }

  /** Up to this entry, the log is the log of the leader of the entry's term. */
  ghost predicate GroundedAt(h: History, xs: Entries, i: nat)
    requires i < |xs|
  {
    xs[i].term in h.elected && Same(xs, LeaderLog(h, xs[i].term), i + 1)
  }

  ghost predicate Grounded(h: History, xs: Entries) {
    forall i :: 0 <= i < |xs| ==> GroundedAt(h, xs, i)
  }

  ghost predicate TermsBelow(xs: Entries, t: nat) {
    forall i :: 0 <= i < |xs| ==> xs[i].term < t
  }

  /** The first log is at least as up-to-date as the second. */
  ghost predicate AtLeast(xs: Entries, ys: Entries) {
    LastTermOf(xs) > LastTermOf(ys) || (LastTermOf(xs) == LastTermOf(ys) && |xs| >= |ys|)
  }

  /** `xs` holds the first `n` entries of the leader of `t`. */
  ghost predicate Covers(h: History, t: nat, n: nat, xs: Entries) {
    t in h.elected && Same(LeaderLog(h, t), xs, n)
  }

  /** Some leader of a term after `t` and before `end` does not hold them. */
  ghost predicate Lost(h: History, t: nat, n: nat, end: nat) {
    exists s :: s in h.elected && t < s < end && !Covers(h, t, n, LeaderLog(h, s))
  }

  /** What `v` acknowledged is in `xs`, unless a leader before `end` had already lost it. */
  ghost predicate Keeps(h: History, v: NodeID, xs: Entries, end: nat) {
    forall t: nat, n: nat :: (t, v) in h.acked && t < end && n <= h.acked[(t, v)] ==>
                     Covers(h, t, n, xs) || Lost(h, t, n, end)
  }

  // ---------------------------------------------------------------------
  // Committed entries
  // ---------------------------------------------------------------------

  ghost function Ackers(cfg: Config, h: History, t: nat, n: nat): set<NodeID> {
    set v | v in cfg.nodes && (t, v) in h.acked && h.acked[(t, v)] >= n
  }

  /** A majority acknowledged the first `n` entries of the leader of `t`, the last of them of its own term. */
  ghost predicate Committed(cfg: Config, h: History, t: nat, n: nat) {
    && cfg.nodes != {}
    && t in h.elected && 1 <= n <= |LeaderLog(h, t)| && LeaderLog(h, t)[n - 1].term == t
    && |Ackers(cfg, h, t, n)| >= CommitMajority(|cfg.nodes| - 1)
  }

  /** The first `k` entries of `xs` are committed, in a term no later than `t`. */
  ghost predicate CommitOk(cfg: Config, h: History, xs: Entries, k: nat, t: nat) {
    k == 0 || exists s: nat, n: nat :: s <= t && CommittedPrefix(cfg, h, xs, k, s, n)
  }

  ghost predicate CommittedPrefix(cfg: Config, h: History, xs: Entries, k: nat, s: nat, n: nat) {
    Committed(cfg, h, s, n) && k <= n && Same(xs, LeaderLog(h, s), k)
  }

  // ---------------------------------------------------------------------
  // The invariant on the history
  // ---------------------------------------------------------------------

  ghost predicate LeaderLogOk(h: History, t: nat, e: Elected) {
    && t >= 1 && e.base < |e.log|
    && (forall i :: 0 <= i < e.base ==> e.log[i].term < t)
    && (forall i :: e.base <= i < |e.log| ==> e.log[i].term == t)
    && Grounded(h, e.log) && Indexed(e.log, 1)
    && (t, e.leader) in h.campaigns && h.campaigns[(t, e.leader)] == e.log[..e.base]
    && (t, e.leader) in h.acked && h.acked[(t, e.leader)] == |e.log|
  }

  ghost predicate TermOk(h: History, t: nat) {
    t in h.elected ==> LeaderLogOk(h, t, h.elected[t])
  }

  ghost predicate CampaignOk(h: History, t: nat, v: NodeID) {
    (t, v) in h.campaigns ==>
      t >= 1 && (t, v) in h.votes && Grounded(h, h.campaigns[(t, v)]) && TermsBelow(h.campaigns[(t, v)], t)
  }

  ghost predicate VoteOk(h: History, t: nat, v: NodeID) {
    (t, v) in h.votes ==>
      var vote := h.votes[(t, v)];
      && (t, vote.candidate) in h.campaigns
      && Grounded(h, vote.log) && AtLeast(h.campaigns[(t, vote.candidate)], vote.log)
      && (t !in h.elected || v in h.elected[t].electors ==> Keeps(h, v, vote.log, t))
  }

  ghost predicate AckOk(h: History, t: nat, v: NodeID) {
    (t, v) in h.acked ==> t in h.elected && h.acked[(t, v)] <= |LeaderLog(h, t)|
  }

  ghost predicate HistoryLogs(h: History) {
    && (forall t: nat :: TermOk(h, t))
    && (forall t: nat, v: NodeID :: CampaignOk(h, t, v))
    && (forall t: nat, v: NodeID :: VoteOk(h, t, v))
    && (forall t: nat, v: NodeID :: AckOk(h, t, v))
  }

  // ---------------------------------------------------------------------
  // Facts about grounded logs
  // ---------------------------------------------------------------------

  /** Log Matching: two grounded logs with the same term at an index agree up to it. */
  lemma SameTermSamePrefix(h: History, xs: Entries, ys: Entries, i: nat)
    requires Grounded(h, xs) && Grounded(h, ys)
    requires i < |xs| && i < |ys| && xs[i].term == ys[i].term
    ensures Same(xs, ys, i + 1)
  {
    assert GroundedAt(h, xs, i) && GroundedAt(h, ys, i);
  }

  lemma TermsRise(h: History, xs: Entries, i: nat, j: nat)
    requires HistoryLogs(h) && Grounded(h, xs) && i <= j < |xs|
    ensures 1 <= xs[i].term <= xs[j].term
  {
    assert TermOk(h, xs[j].term);
    assert TermOk(h, xs[i].term);
    assert GroundedAt(h, xs, j) && GroundedAt(h, xs, i);
    assert xs[i] == LeaderLog(h, xs[j].term)[i];
  }

  // ---------------------------------------------------------------------
  // Growth
  // ---------------------------------------------------------------------

  lemma GroundedStable(h: History, h': History, xs: Entries)
    requires Grounded(h, xs) && Extends(h, h')
    ensures Grounded(h', xs)
  {
    forall i | 0 <= i < |xs| ensures GroundedAt(h', xs, i) {
      assert GroundedAt(h, xs, i);
      var t := xs[i].term;
      assert Grows(h.elected[t], h'.elected[t]);
    }
  }

  lemma CoversStable(h: History, h': History, t: nat, n: nat, xs: Entries)
    requires Covers(h, t, n, xs) && Extends(h, h')
    ensures Covers(h', t, n, xs)
  {
    assert Grows(h.elected[t], h'.elected[t]);
  }

  /** A later leader that lacks some entries of an earlier one never gains them. */
  lemma MissingForever(h: History, h': History, t: nat, n: nat, s: nat)
    requires HistoryLogs(h) && Extends(h, h')
    requires t in h.elected && s in h.elected && t < s && n <= |LeaderLog(h, t)|
    requires !Covers(h, t, n, LeaderLog(h, s))
    ensures !Covers(h', t, n, LeaderLog(h', s))
  {
    assert Grows(h.elected[t], h'.elected[t]) && Grows(h.elected[s], h'.elected[s]);
    assert TermOk(h, t) && TermOk(h, s);
    if Covers(h', t, n, LeaderLog(h', s)) {
      SameBeforeGrowth(LeaderLog(h, t), LeaderLog(h', t), LeaderLog(h, s), LeaderLog(h', s), n);
    }
  }

  /** Logs that agree after growing agreed before, as far as they went. */
  lemma SameBeforeGrowth(a: Entries, a': Entries, b: Entries, b': Entries, n: nat)
    requires a <= a' && b <= b' && n <= |a| && Same(a', b', n)
    ensures Same(a, b, Min(n, |b|))
    ensures 0 < |b| < n ==> a[|b| - 1] == b[|b| - 1]
  {
  }

  lemma LostStable(h: History, h': History, t: nat, n: nat, end: nat)
    requires HistoryLogs(h) && Extends(h, h') && t in h.elected && n <= |LeaderLog(h, t)|
    requires Lost(h, t, n, end)
    ensures Lost(h', t, n, end)
  {
    var s :| s in h.elected && t < s < end && !Covers(h, t, n, LeaderLog(h, s));
    MissingForever(h, h', t, n, s);
    assert Grows(h.elected[s], h'.elected[s]);
  }

  /** Promises about `v` survive as long as no acknowledgement below `end` is added for it. */
  lemma KeepsStable(h: History, h': History, v: NodeID, xs: Entries, end: nat)
    requires HistoryLogs(h) && Extends(h, h') && Keeps(h, v, xs, end)
    requires forall t :: (t, v) in h'.acked && t < end ==> (t, v) in h.acked && h'.acked[(t, v)] == h.acked[(t, v)]
    ensures Keeps(h', v, xs, end)
  {
    forall t: nat, n: nat | (t, v) in h'.acked && t < end && n <= h'.acked[(t, v)]
      ensures Covers(h', t, n, xs) || Lost(h', t, n, end)
    {
      assert AckOk(h, t, v);
      if Covers(h, t, n, xs) { CoversStable(h, h', t, n, xs); } else { LostStable(h, h', t, n, end); }
    }
  }

  lemma CommittedStable(cfg: Config, h: History, h': History, t: nat, n: nat)
    requires Committed(cfg, h, t, n) && Extends(h, h')
    ensures Committed(cfg, h', t, n)
  {
    assert Grows(h.elected[t], h'.elected[t]);
    assert Ackers(cfg, h, t, n) <= Ackers(cfg, h', t, n);
    CardinalityBound(Ackers(cfg, h', t, n), Ackers(cfg, h, t, n));
  }

  lemma CommitOkStable(cfg: Config, h: History, h': History, xs: Entries, k: nat, t: nat)
    requires CommitOk(cfg, h, xs, k, t) && Extends(h, h')
    ensures CommitOk(cfg, h', xs, k, t)
  {
    if k != 0 {
      var s: nat, n: nat :| s <= t && CommittedPrefix(cfg, h, xs, k, s, n);
      CommittedStable(cfg, h, h', s, n);
      assert Grows(h.elected[s], h'.elected[s]);
      assert CommittedPrefix(cfg, h', xs, k, s, n);
    }
  }

  lemma CommitOkAgrees(cfg: Config, h: History, xs: Entries, ys: Entries, k: nat, j: nat, t: nat, t': nat)
    requires CommitOk(cfg, h, xs, k, t) && j <= k && t <= t' && Same(xs, ys, j)
    ensures CommitOk(cfg, h, ys, j, t')
  {
    if j != 0 {
      var s: nat, n: nat :| s <= t && CommittedPrefix(cfg, h, xs, k, s, n);
      assert CommittedPrefix(cfg, h, ys, j, s, n);
    }
  }

  // ---------------------------------------------------------------------
  // Leader Completeness
  // ---------------------------------------------------------------------

  /** One step of the argument: the leaders between `t` and `s` hold the entries, so the leader of `s` does. */
  lemma NextLeaderHolds(cfg: Config, h: History, t: nat, n: nat, s: nat)
    requires cfg.Valid() && HistoryVotes(cfg, h) && HistoryLogs(h)
    requires Committed(cfg, h, t, n) && s in h.elected && t < s
    requires forall u :: u in h.elected && t < u < s ==> Covers(h, t, n, LeaderLog(h, u))
    ensures Covers(h, t, n, LeaderLog(h, s))
  {
    var e := h.elected[s];
    assert WonOk(cfg, h, s) && TermOk(h, s) && TermOk(h, t);
    var v := WinnerMeetsCommitters(cfg.nodes, e.electors, Ackers(cfg, h, t, n));
    assert VotedFor(h, s, v, e.leader) && VoteOk(h, s, v);
    var ys := h.votes[(s, v)].log;
    assert Covers(h, t, n, ys) by {
      assert Keeps(h, v, ys, s) && !Lost(h, t, n, s);
    }
    CandidateHolds(h, t, n, s, ys);
  }

  /** A candidate at least as up-to-date as a holder of the entries is itself a holder. */
  lemma CandidateHolds(h: History, t: nat, n: nat, s: nat, ys: Entries)
    requires HistoryLogs(h)
    requires t in h.elected && 1 <= n <= |LeaderLog(h, t)| && LeaderLog(h, t)[n - 1].term == t
    requires s in h.elected && t < s && h.elected[s].base <= |LeaderLog(h, s)|
    requires forall u :: u in h.elected && t < u < s ==> Covers(h, t, n, LeaderLog(h, u))
    requires Covers(h, t, n, ys) && Grounded(h, ys)
    requires AtLeast(LeaderLog(h, s)[..h.elected[s].base], ys)
    ensures Covers(h, t, n, LeaderLog(h, s))
  {
    var e := h.elected[s];
    assert TermOk(h, s) && TermOk(h, t);
    var xs := e.log[..e.base];
    TermsRise(h, ys, n - 1, |ys| - 1);
    assert ys[n - 1].term == t;
    assert |xs| > 0 && LastTermOf(xs) == e.log[e.base - 1].term;
    var u := LastTermOf(xs);
    if u == LastTermOf(ys) {
      assert GroundedAt(h, e.log, e.base - 1) && GroundedAt(h, ys, |ys| - 1);
    } else {
      assert GroundedAt(h, e.log, e.base - 1);
      assert t < u < s;
      assert Covers(h, t, n, LeaderLog(h, u));
      CoveredIsEarlier(h, t, n, u, e.base - 1);
    }
  }

  lemma CoveredIsEarlier(h: History, t: nat, n: nat, u: nat, i: nat)
    requires TermOk(h, t) && u in h.elected && Covers(h, t, n, LeaderLog(h, u))
    requires i < |LeaderLog(h, u)| && LeaderLog(h, u)[i].term > t
    ensures n <= i
  {
  }

  /** A committed entry is in the log of the leader of every later term. */
  lemma {:induction false} LaterLeadersHold(cfg: Config, h: History, t: nat, n: nat, s: nat)
    requires cfg.Valid() && HistoryVotes(cfg, h) && HistoryLogs(h)
    requires Committed(cfg, h, t, n) && s in h.elected && t < s
    ensures Covers(h, t, n, LeaderLog(h, s))
    decreases s
  {
    forall u | u in h.elected && t < u < s ensures Covers(h, t, n, LeaderLog(h, u)) {
      LaterLeadersHold(cfg, h, t, n, u);
    }
    NextLeaderHolds(cfg, h, t, n, s);
  }

  lemma LeaderHoldsPrefix(cfg: Config, h: History, xs: Entries, k: nat, s: nat, n: nat, u: nat)
    requires cfg.Valid() && HistoryVotes(cfg, h) && HistoryLogs(h)
    requires CommittedPrefix(cfg, h, xs, k, s, n) && s <= u && u in h.elected
    ensures Same(xs, LeaderLog(h, u), k)
  {
    if s < u {
      LaterLeadersHold(cfg, h, s, n, u);
      SameThrough(xs, LeaderLog(h, s), LeaderLog(h, u), k, n);
    }
  }

  lemma SameThrough(xs: Entries, ys: Entries, zs: Entries, k: nat, n: nat)
    requires Same(xs, ys, k) && Same(ys, zs, n) && k <= n
    ensures Same(xs, zs, k)
  {
  }

  /** Two committed prefixes never disagree. */
  lemma CommittedAgree(cfg: Config, h: History, xs: Entries, ys: Entries, k: nat, t: nat, t': nat)
    requires cfg.Valid() && HistoryVotes(cfg, h) && HistoryLogs(h)
    requires CommitOk(cfg, h, xs, k, t) && CommitOk(cfg, h, ys, k, t')
    ensures Same(xs, ys, k)
  {
    if k != 0 {
      var s: nat, n: nat :| s <= t && CommittedPrefix(cfg, h, xs, k, s, n);
      var s': nat, n': nat :| s' <= t' && CommittedPrefix(cfg, h, ys, k, s', n');
      if s <= s' {
        LeaderHoldsPrefix(cfg, h, xs, k, s, n, s');
      } else {
        LeaderHoldsPrefix(cfg, h, ys, k, s', n', s);
      }
    }
  }

  /** What a node has committed is in the log of the leader of any term from its own on. */
  lemma LeaderHoldsCommitted(cfg: Config, h: History, xs: Entries, k: nat, t: nat, s: nat)
    requires cfg.Valid() && HistoryVotes(cfg, h) && HistoryLogs(h)
    requires CommitOk(cfg, h, xs, k, t) && t <= s && s in h.elected
    ensures Same(xs, LeaderLog(h, s), k)
  {
    if k != 0 {
      var u: nat, n: nat :| u <= t && CommittedPrefix(cfg, h, xs, k, u, n);
      LeaderHoldsPrefix(cfg, h, xs, k, u, n, s);
    }
  }
}
