/** How a leader finds the point where a follower's log agrees: request, refusal with a hint, and again. */
module Backtracking {
  import opened Types
  import opened LogModel
  import opened NodeModel
  import Handlers

  type Entries = seq<LogEntry>

  /** The number of maximal stretches of equal term among the first `p` entries. */
  function Runs(xs: Entries, p: nat): nat
    requires p <= |xs|
  {
    if p == 0 then 0
    else if p == 1 || xs[p - 2].term != xs[p - 1].term then 1 + Runs(xs, p - 1)
    else Runs(xs, p - 1)
  }

  /** The hint is the first index of the stretch that holds `i`. */
  lemma {:induction false} HintIsRunStart(xs: Entries, i: nat)
    requires 1 <= i <= |xs|
    ensures var c := ConflictStart(FromSeq(xs), i, xs[i - 1].term);
            && 1 <= c <= i
            && (forall k :: c <= k <= i ==> TermOf(xs, k) == xs[i - 1].term)
            && (c > 1 ==> xs[c - 2].term != xs[i - 1].term)
            && Runs(xs, i) == Runs(xs, c - 1) + 1
    decreases i
  {
    FromSeqReads(xs);
    if i > 1 && xs[i - 2].term == xs[i - 1].term {
      HintIsRunStart(xs, i - 1);
    }
  }

  // ---------------------------------------------------------------------
  // One exchange
  // ---------------------------------------------------------------------

  /** A leader and one of its peers, both with contiguous logs, the peer in no later term. */
  ghost predicate Paired(leader: Node, follower: Node, w: NodeID, xs: Entries, ys: Entries) {
    && leader.role == Leader && leader.leader.Some? && leader.log == FromSeq(xs)
    && w in leader.leader.value.nextIndex && 1 <= leader.leader.value.nextIndex[w] <= |xs| + 1
    && follower.log == FromSeq(ys) && follower.currentTerm <= leader.currentTerm
  }

  ghost function NextFor(leader: Node, w: NodeID): nat
    requires leader.leader.Some? && w in leader.leader.value.nextIndex
  {
    leader.leader.value.nextIndex[w]
  }

  ghost function Request(v: NodeID, leader: Node, w: NodeID): AppendRequest {
    var req := MakeAppend(v, leader, w);
    if req.Some? then req.value else AppendRequest(0, 0, 0, 0, [], 0)
  }

  /** The leader sends, the follower answers, the leader reads the answer. */
  ghost function Exchange(variant: Variant, v: NodeID, leader: Node, w: NodeID, follower: Node): (Node, Node, bool) {
    var req := Request(v, leader, w);
    var r := HandleAppend(variant, w, follower, req);
    (HandleAppendReply(variant, leader, req, r.1), r.0, r.1.success)
  }

  lemma RequestIs(v: NodeID, leader: Node, w: NodeID, xs: Entries)
    requires leader.role == Leader && leader.leader.Some? && leader.log == FromSeq(xs)
    requires w in leader.leader.value.nextIndex && 1 <= NextFor(leader, w) <= |xs| + 1
    ensures var prev := NextFor(leader, w) - 1;
            var req := Request(v, leader, w);
            req.term == leader.currentTerm && req.prevLogIndex == prev && req.prevLogTerm == TermOf(xs, prev)
  {
    FromSeqReads(xs);
  }

  /** Where the follower's log disagrees with the leader's at `prev`, or ends before it. */
  ghost predicate Disagrees(xs: Entries, ys: Entries, prev: nat) {
    prev > |ys| || (prev > 0 && TermOf(ys, prev) != TermOf(xs, prev))
  }

  /** The next index a refusal sends the leader back to. */
  ghost function Hint(ys: Entries, prev: nat): nat {
    if prev > |ys| then |ys| + 1 else ConflictStart(FromSeq(ys), prev, TermOf(ys, prev))
  }

  /** An exchange is refused exactly when the logs disagree at the point probed; a refusal leaves the
      follower's log, and moves the leader to the hint. */
  lemma ExchangeIs(variant: Variant, v: NodeID, leader: Node, w: NodeID, follower: Node, xs: Entries, ys: Entries)
    requires Paired(leader, follower, w, xs, ys)
    ensures var prev := NextFor(leader, w) - 1;
            var r := Exchange(variant, v, leader, w, follower);
            && (r.2 <==> !Disagrees(xs, ys, prev))
            && (!r.2 ==>
                  && r.0 == leader.(leader := Some(leader.leader.value.(
                       nextIndex := leader.leader.value.nextIndex[w := Hint(ys, prev)])))
                  && r.1.log == follower.log && r.1.currentTerm == leader.currentTerm
                  && r.1.store == follower.store && r.1.commitIndex == follower.commitIndex)
  {
    RequestIs(v, leader, w, xs);
    FromSeqReads(ys);
    var prev := NextFor(leader, w) - 1;
    if 1 <= prev <= |ys| { HintIsRunStart(ys, prev); }
  }

  /** A follower of a later term ends the leadership in one exchange: it is left as it was, and the leader
      follows its term, without vote or maps and with all its data. */
  lemma ExchangeDeposes(variant: Variant, v: NodeID, leader: Node, w: NodeID, follower: Node, xs: Entries)
    requires leader.role == Leader && leader.leader.Some? && leader.log == FromSeq(xs)
    requires w in leader.leader.value.nextIndex && 1 <= NextFor(leader, w) <= |xs| + 1
    requires follower.currentTerm > leader.currentTerm
    ensures var r := Exchange(variant, v, leader, w, follower);
            && !r.2 && r.1 == follower
            && Handlers.SteppedDown(r.0, follower.currentTerm) && Handlers.SameData(leader, r.0)
  {
    RequestIs(v, leader, w, xs);
  }

  lemma HintLowers(xs: Entries, ys: Entries, prev: nat)
    requires Disagrees(xs, ys, prev)
    ensures 1 <= Hint(ys, prev) <= prev
  {
    if 1 <= prev <= |ys| { HintIsRunStart(ys, prev); }
  }

  /** Every refusal strictly lowers `nextIndex` and keeps it at least 1, and the pair stays as it was otherwise. */
  lemma RefusalLowersNext(variant: Variant, v: NodeID, leader: Node, w: NodeID, follower: Node, xs: Entries, ys: Entries)
    requires Paired(leader, follower, w, xs, ys)
    requires !Exchange(variant, v, leader, w, follower).2
    ensures var r := Exchange(variant, v, leader, w, follower);
            && Paired(r.0, r.1, w, xs, ys)
            && 1 <= NextFor(r.0, w) < NextFor(leader, w)
            && r.1.log == follower.log
  {
    ExchangeIs(variant, v, leader, w, follower, xs, ys);
    HintLowers(xs, ys, NextFor(leader, w) - 1);
  }

  // ---------------------------------------------------------------------
  // A series of exchanges
  // ---------------------------------------------------------------------

  /** The leader and the follower before an exchange. */
  datatype Pair = Pair(leader: Node, follower: Node)

  /** Exchange `i` of the series is refused and leads to the next pair. */
  ghost predicate RefusedAt(variant: Variant, v: NodeID, w: NodeID, ps: seq<Pair>, i: nat)
    requires i + 1 < |ps|
  {
    Exchange(variant, v, ps[i].leader, w, ps[i].follower) == (ps[i + 1].leader, ps[i + 1].follower, false)
  }

  ghost predicate AllRefused(variant: Variant, v: NodeID, w: NodeID, ps: seq<Pair>) {
    forall i: nat :: i + 1 < |ps| ==> RefusedAt(variant, v, w, ps, i)
  }

  ghost predicate PairedAt(w: NodeID, p: Pair, xs: Entries, ys: Entries) {
    Paired(p.leader, p.follower, w, xs, ys)
  }

  ghost function Probed(p: Pair, w: NodeID): int
    requires p.leader.leader.Some? && w in p.leader.leader.value.nextIndex
  {
    NextFor(p.leader, w) - 1
  }

  /** One refusal, in terms of the logs alone. */
  lemma RefusalStep(variant: Variant, v: NodeID, w: NodeID, p: Pair, q: Pair, xs: Entries, ys: Entries)
    requires PairedAt(w, p, xs, ys)
    requires Exchange(variant, v, p.leader, w, p.follower) == (q.leader, q.follower, false)
    ensures PairedAt(w, q, xs, ys)
    ensures Disagrees(xs, ys, Probed(p, w)) && Probed(q, w) + 1 == Hint(ys, Probed(p, w))
    ensures 0 <= Probed(q, w) < Probed(p, w)
  {
    ExchangeIs(variant, v, p.leader, w, p.follower, xs, ys);
    RefusalLowersNext(variant, v, p.leader, w, p.follower, xs, ys);
  }

  lemma HintSkipsStretch(xs: Entries, ys: Entries, p: nat, q: nat)
    requires Disagrees(xs, ys, p) && q + 1 == Hint(ys, p)
    ensures q <= |ys|
    ensures if p <= |ys| then Runs(ys, p) == Runs(ys, q) + 1 && Runs(ys, p) <= Runs(ys, |ys|) else q == |ys|
  {
    if p <= |ys| {
      HintIsRunStart(ys, p);
      RunsGrow(ys, p, |ys|);
    }
  }

  /** What is left to probe after `i` refusals, in stretches of the follower's log. */
  lemma {:induction false} StretchesLeft(variant: Variant, v: NodeID, w: NodeID, ps: seq<Pair>, xs: Entries, ys: Entries, i: nat)
    requires AllRefused(variant, v, w, ps) && i < |ps| && PairedAt(w, ps[0], xs, ys)
    ensures PairedAt(w, ps[i], xs, ys) && Probed(ps[i], w) >= 0
    ensures i > 0 || Probed(ps[0], w) <= |ys| ==> Probed(ps[i], w) <= |ys|
    ensures Probed(ps[0], w) <= |ys| ==> i + Runs(ys, Probed(ps[i], w)) <= Runs(ys, Probed(ps[0], w))
    ensures i > 0 ==> i + Runs(ys, Probed(ps[i], w)) <= 1 + Runs(ys, |ys|)
    decreases i
  {
    if i > 0 {
      var j := i - 1;
      StretchesLeft(variant, v, w, ps, xs, ys, j);
      assert RefusedAt(variant, v, w, ps, j);
      RefusalStep(variant, v, w, ps[j], ps[i], xs, ys);
      HintSkipsStretch(xs, ys, Probed(ps[j], w), Probed(ps[i], w));
    }
  }

  lemma {:induction false} RunsGrow(ys: Entries, p: nat, q: nat)
    requires p <= q <= |ys|
    ensures Runs(ys, p) <= Runs(ys, q)
    decreases q
  {
    if p < q { RunsGrow(ys, p, q - 1); }
  }

  /** A leader meets at most one refusal more than the follower's log has stretches of equal term,
      however long it goes on. */
  lemma BacktrackingBound(variant: Variant, v: NodeID, w: NodeID, ps: seq<Pair>, xs: Entries, ys: Entries)
    requires AllRefused(variant, v, w, ps) && |ps| > 0 && PairedAt(w, ps[0], xs, ys)
    ensures |ps| - 1 <= 1 + Runs(ys, |ys|)
  {
    StretchesLeft(variant, v, w, ps, xs, ys, |ps| - 1);
  }
}
