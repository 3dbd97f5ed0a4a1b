/** A compacted log against the whole log it stands for. */
module Compaction {
  import opened Types
  import opened LogModel
  import opened NodeModel
  import opened StateMachine
  import CommitRule
  import Replay
  import Splice

  type Entries = seq<LogEntry>

  /** The log of `xs` after compacting up to `i` and reopening. */
  ghost function Compacted(xs: Entries, i: nat): Log {
    Reopen(Compact(FromSeq(xs), i, TermOf(xs, i)))
  }

  /** What a compacted log holds. */
  lemma CompactedEntries(xs: Entries, i: nat)
    requires i <= |xs|
    ensures Compacted(xs, i).snapshot == Compacted(xs, i).saved == Boundary(i, TermOf(xs, i))
    ensures forall j :: j in Compacted(xs, i).entries <==> i < j <= |xs|
    ensures forall j :: j in Compacted(xs, i).entries ==> Compacted(xs, i).entries[j] == xs[j - 1]
  {
  }

  lemma CompactedEnds(xs: Entries, i: nat)
    requires i <= |xs|
    ensures LastIndex(Compacted(xs, i)) == |xs|
    ensures LastTerm(Compacted(xs, i)) == LastTermOf(xs)
  {
    CompactedEntries(xs, i);
    var c := Compacted(xs, i);
    if i < |xs| {
      assert |xs| in c.entries;
      assert LastIndex(c) in c.entries;
    } else {
      assert c.entries == map[];
    }
  }

  lemma CompactedTerms(xs: Entries, i: nat, j: nat)
    requires i <= |xs| && i <= j
    ensures TermAt(Compacted(xs, i), j) == TermOf(xs, j)
  {
    CompactedEntries(xs, i);
  }

  lemma {:induction false} CompactedRange(xs: Entries, i: nat, from: nat, hi: nat)
    requires i <= |xs| && i < from
    ensures GetRange(Compacted(xs, i), from, hi) == GetRange(FromSeq(xs), from, hi)
    decreases hi + 1 - from
  {
    CompactedEntries(xs, i);
    if from <= hi && from <= |xs| { CompactedRange(xs, i, from + 1, hi); }
  }

  /** After compaction and reopening every read at or above the boundary is what it was. */
  lemma CompactionReads(xs: Entries, i: nat)
    requires 1 <= i <= |xs|
    ensures var c := Compacted(xs, i);
            && LastIndex(c) == |xs| && LastTerm(c) == LastTermOf(xs)
            && (forall j :: i <= j ==> TermAt(c, j) == TermOf(xs, j))
            && (forall j :: i < j ==> (j in c.entries <==> j <= |xs|) && (j in c.entries ==> c.entries[j] == xs[j - 1]))
            && (forall from, hi :: i < from ==> GetRange(c, from, hi) == GetRange(FromSeq(xs), from, hi))
  {
    CompactedEnds(xs, i);
    CompactedEntries(xs, i);
    forall j | i <= j ensures TermAt(Compacted(xs, i), j) == TermOf(xs, j) {
      CompactedTerms(xs, i, j);
    }
    forall from, hi | i < from ensures GetRange(Compacted(xs, i), from, hi) == GetRange(FromSeq(xs), from, hi) {
      CompactedRange(xs, i, from, hi);
    }
  }

  /** Until the store is reopened the boundary is unknown: the end of the log is right exactly when
      something was left above it, and the term at the boundary reads as absent. */
  lemma BoundaryUnknownUntilReopened(xs: Entries, i: nat)
    requires 1 <= i <= |xs|
    ensures var c := Compact(FromSeq(xs), i, TermOf(xs, i));
            && (LastIndex(c) == |xs| <==> i < |xs|)
            && (LastTerm(c) == LastTermOf(xs) <==> i < |xs| || LastTermOf(xs) == 0)
            && TermAt(c, i) == 0
  {
    var c := Compact(FromSeq(xs), i, TermOf(xs, i));
    if i < |xs| {
      assert |xs| in c.entries;
      assert LastIndex(c) in c.entries;
    } else {
      assert c.entries == map[];
    }
  }

  // ---------------------------------------------------------------------
  // The handler on a compacted log, probed at or above the boundary
  // ---------------------------------------------------------------------

  /** What is left of any log after compacting up to `i`, with term `t` at the boundary, and reopening. */
  ghost function Cut(l: Log, i: nat, t: nat): Log {
    Reopen(Compact(l, i, t))
  }

  /** Any log without its entries up to `i`, whatever boundary is known in memory and on disk. */
  function Trimmed(l: Log, i: nat, snapshot: Boundary, saved: Boundary): Log {
    Log(l.entries - (set k | k in l.entries && k <= i), snapshot, saved)
  }

  /** The entry loop above the boundary does not see what lies below it, whichever loop and whatever log,
      and whether the boundary is known in memory or not. */
  lemma {:induction false} TrimmedSplice(reread: bool, l: Log, i: nat, s: Boundary, d: Boundary, prev: nat, entries: Entries)
    requires l.snapshot.index <= prev && s.index <= prev && i <= prev && Indexed(entries, prev + 1)
    ensures NodeModel.Splice(reread, Trimmed(l, i, s, d), prev, entries) ==
            Trimmed(NodeModel.Splice(reread, l, prev, entries), i, s, d)
    ensures NodeModel.Splice(reread, l, prev, entries).snapshot == l.snapshot
    ensures i in l.entries ==> i in NodeModel.Splice(reread, l, prev, entries).entries
    decreases |entries|
  {
    if entries != [] {
      var e, existing := entries[0], TermAt(l, prev + 1);
      var cuts := existing != 0 && existing != e.term;
      var l1 := if cuts then TruncateFrom(l, prev + 1) else l;
      if cuts { TrimmedTruncate(l, i, s, d, prev + 1); }
      var found := if reread then TermAt(l1, prev + 1) else existing;
      TrimmedAppend(l1, i, s, d, e);
      TrimmedSplice(reread, if found == 0 then Append(l1, e) else l1, i, s, d, prev + 1, entries[1..]);
    }
  }

  lemma TrimmedTruncate(l: Log, i: nat, s: Boundary, d: Boundary, from: nat)
    requires i < from
    ensures TruncateFrom(Trimmed(l, i, s, d), from) == Trimmed(TruncateFrom(l, from), i, s, d)
  {
    assert TruncateFrom(Trimmed(l, i, s, d), from).entries == Trimmed(TruncateFrom(l, from), i, s, d).entries;
  }

  lemma TrimmedAppend(l: Log, i: nat, s: Boundary, d: Boundary, e: LogEntry)
    requires i < e.index
    ensures Append(Trimmed(l, i, s, d), e) == Trimmed(Append(l, e), i, s, d)
  {
    assert Append(Trimmed(l, i, s, d), e).entries == Trimmed(Append(l, e), i, s, d).entries;
  }

  lemma CutSplice(reread: bool, l: Log, i: nat, t: nat, prev: nat, entries: Entries)
    requires l.snapshot == START && i <= prev && Indexed(entries, prev + 1)
    ensures NodeModel.Splice(reread, Cut(l, i, t), prev, entries) == Cut(NodeModel.Splice(reread, l, prev, entries), i, t)
    ensures NodeModel.Splice(reread, l, prev, entries).snapshot == START
    ensures i in l.entries ==> i in NodeModel.Splice(reread, l, prev, entries).entries
  {
    TrimmedSplice(reread, l, i, Boundary(i, t), Boundary(i, t), prev, entries);
  }

  lemma CutEnds(l: Log, i: nat, t: nat)
    requires l.snapshot == START && (i == 0 || i in l.entries)
    ensures LastIndex(Cut(l, i, t)) == LastIndex(l)
  {
    var c := Cut(l, i, t);
    if l.entries != map[] {
      var last := LastIndex(l);
      if last > i {
        assert last in c.entries;
        assert LastIndex(c) in c.entries;
      } else {
        assert c.entries == map[];
      }
    }
  }

  /** The hint stops at the first index above the boundary. */
  lemma {:induction false} CutHint(l: Log, i: nat, t: nat, p: nat, term: nat)
    requires l.snapshot == START && i < p
    ensures ConflictStart(Cut(l, i, t), p, term) == Max(ConflictStart(l, p, term), i + 1)
  {
    HintBelow(l, p, term);
    if p > i + 1 && TermAt(l, p - 1) == term { CutHint(l, i, t, p - 1, term); }
  }

  lemma {:induction false} HintBelow(l: Log, p: nat, term: nat)
    ensures ConflictStart(l, p, term) <= p && (p > 0 ==> ConflictStart(l, p, term) > 0)
  {
    if p > l.snapshot.index + 1 && TermAt(l, p - 1) == term { HintBelow(l, p - 1, term); }
  }

  /** The hint of the whole log, as the compacted log gives it. */
  function HintAbove(hint: nat, prev: nat, i: nat): nat {
    if hint == 0 then 0 else if prev == i then prev else Max(hint, i + 1)
  }

  /** The handler looks at a log only through its end, the term probed, the hint and the entry loop. */
  lemma AppendOnOtherLog(variant: Variant, self: NodeID, n: Node, l: Log, req: AppendRequest)
    requires LastIndex(l) == LastIndex(n.log)
    requires TermAt(l, req.prevLogIndex) == TermAt(n.log, req.prevLogIndex)
    ensures var prev := req.prevLogIndex;
            var (n1, resp1) := HandleAppend(variant, self, n, req);
            var (n2, resp2) := HandleAppend(variant, self, n.(log := l), req);
            if resp1.success then
              && prev <= LastIndex(n.log) && resp1.conflictIndex == 0 && resp1.matchIndex == LastIndex(n1.log)
              && n1.log == NodeModel.Splice(variant.rereadTerm, n.log, prev, req.entries)
              && n2 == n1.(log := NodeModel.Splice(variant.rereadTerm, l, prev, req.entries))
              && resp2 == resp1.(matchIndex := LastIndex(n2.log))
            else
              && n1.log == n.log && n2 == n1.(log := l) && resp2 == resp1.(conflictIndex := resp2.conflictIndex)
              && resp1.conflictIndex == Hint(n, n.log, req) && resp2.conflictIndex == Hint(n, l, req)
  {
  }

  ghost function Hint(n: Node, l: Log, req: AppendRequest): nat {
    if req.term < n.currentTerm then 0
    else if req.prevLogIndex > LastIndex(l) then LastIndex(l) + 1
    else ConflictStart(l, req.prevLogIndex, TermAt(l, req.prevLogIndex))
  }

  lemma CutHintIs(n: Node, req: AppendRequest, i: nat, t: nat)
    requires n.log.snapshot == START && (i == 0 || i in n.log.entries) && i <= req.prevLogIndex && t == TermAt(n.log, i)
    requires req.prevLogIndex > 0
    ensures Hint(n, Cut(n.log, i, t), req) == HintAbove(Hint(n, n.log, req), req.prevLogIndex, i)
  {
    var prev := req.prevLogIndex;
    CutEnds(n.log, i, t);
    HintBelow(n.log, prev, TermAt(n.log, prev));
    if i < prev { CutHint(n.log, i, t, prev, TermAt(n.log, prev)); }
  }

  lemma CutSpliceEnds(reread: bool, l: Log, i: nat, t: nat, prev: nat, entries: Entries)
    requires l.snapshot == START && (i == 0 || i in l.entries) && i <= prev && Indexed(entries, prev + 1)
    ensures LastIndex(NodeModel.Splice(reread, Cut(l, i, t), prev, entries)) == LastIndex(NodeModel.Splice(reread, l, prev, entries))
  {
    CutSplice(reread, l, i, t, prev, entries);
    CutEnds(NodeModel.Splice(reread, l, prev, entries), i, t);
  }

  /** A request that probes at or above the boundary gets from the compacted log the answer of the whole
      one, but for a hint that stays above the boundary, and leaves the compacted form of the same log.
      This holds for either loop and any uncompacted log that has an entry at the boundary. */
  lemma AppendOnCut(variant: Variant, self: NodeID, n: Node, req: AppendRequest, i: nat, t: nat)
    requires n.log.snapshot == START && (i == 0 || i in n.log.entries) && i <= req.prevLogIndex && t == TermAt(n.log, i)
    requires Indexed(req.entries, req.prevLogIndex + 1)
    ensures var (n1, resp1) := HandleAppend(variant, self, n, req);
            var (n2, resp2) := HandleAppend(variant, self, n.(log := Cut(n.log, i, t)), req);
            && n2 == n1.(log := Cut(n1.log, i, t))
            && resp2 == resp1.(conflictIndex := HintAbove(resp1.conflictIndex, req.prevLogIndex, i))
  {
    CutEnds(n.log, i, t);
    assert TermAt(Cut(n.log, i, t), req.prevLogIndex) == TermAt(n.log, req.prevLogIndex);
    AppendOnOtherLog(variant, self, n, Cut(n.log, i, t), req);
    CutSplice(variant.rereadTerm, n.log, i, t, req.prevLogIndex, req.entries);
    CutSpliceEnds(variant.rereadTerm, n.log, i, t, req.prevLogIndex, req.entries);
    if req.prevLogIndex > 0 { CutHintIs(n, req, i, t); }
  }

  /** On the log of `xs`; and the loop that rereads leaves the compacted form of a contiguous log. */
  lemma AppendOnCompacted(variant: Variant, self: NodeID, n: Node, req: AppendRequest, xs: Entries, i: nat)
    requires n.log == FromSeq(xs) && i <= |xs| && i <= req.prevLogIndex
    requires Indexed(req.entries, req.prevLogIndex + 1)
    ensures var (n1, resp1) := HandleAppend(variant, self, n, req);
            var (n2, resp2) := HandleAppend(variant, self, n.(log := Compacted(xs, i)), req);
            && resp2 == resp1.(conflictIndex := HintAbove(resp1.conflictIndex, req.prevLogIndex, i))
            && n2 == n1.(log := Cut(n1.log, i, TermOf(xs, i)))
            && (variant.rereadTerm && Splice.PositiveTerms(xs) ==>
                  exists zs :: i <= |zs| && n1.log == FromSeq(zs) && n2 == n1.(log := Compacted(zs, i)))
  {
    FromSeqReads(xs);
    AppendOnCut(variant, self, n, req, i, TermOf(xs, i));
    if variant.rereadTerm && Splice.PositiveTerms(xs) {
      var zs := ContiguousAfter(variant, self, n, req, xs, i);
    }
  }

  lemma ContiguousAfter(variant: Variant, self: NodeID, n: Node, req: AppendRequest, xs: Entries, i: nat) returns (zs: Entries)
    requires n.log == FromSeq(xs) && i <= |xs| && i <= req.prevLogIndex && variant.rereadTerm
    requires Indexed(req.entries, req.prevLogIndex + 1) && Splice.PositiveTerms(xs)
    ensures i <= |zs| && HandleAppend(variant, self, n, req).0.log == FromSeq(zs)
    ensures Cut(FromSeq(zs), i, TermOf(xs, i)) == Compacted(zs, i)
  {
    FromSeqReads(xs);
    AppendOnOtherLog(variant, self, n, n.log, req);
    if HandleAppend(variant, self, n, req).1.success {
      zs := Splice.Merge(xs, req.prevLogIndex, req.entries);
      Splice.IntendedIsMerge(xs, req.prevLogIndex, req.entries);
    } else {
      zs := xs;
    }
  }

  // ---------------------------------------------------------------------
  // Probed below the boundary
  // ---------------------------------------------------------------------

  function AppendAll(l: Log, entries: Entries): Log
    decreases |entries|
  {
    if entries == [] then l else AppendAll(Append(l, entries[0]), entries[1..])
  }

  /** A log stands on a boundary: nothing is stored at it, and its term is known. */
  ghost predicate Bounded(l: Log, i: nat) {
    l.snapshot.index == i && l.snapshot.term >= 1 && i !in l.entries
  }

  /** The loop does not look at what lies below. */
  lemma {:induction false} SpliceOverBelow(reread: bool, l: Log, e: LogEntry, prev: nat, entries: Entries)
    requires e.index <= prev && Indexed(entries, prev + 1) && l.snapshot.index <= prev
    ensures NodeModel.Splice(reread, Append(l, e), prev, entries) == Append(NodeModel.Splice(reread, l, prev, entries), e)
    decreases |entries|
  {
    if entries != [] {
      var f, existing := entries[0], TermAt(l, prev + 1);
      var cuts := existing != 0 && existing != f.term;
      var l1 := if cuts then TruncateFrom(l, prev + 1) else l;
      if cuts { assert TruncateFrom(Append(l, e), prev + 1).entries == Append(l1, e).entries; }
      var found := if reread then TermAt(l1, prev + 1) else existing;
      assert Append(Append(l1, e), f).entries == Append(Append(l1, f), e).entries;
      SpliceOverBelow(reread, if found == 0 then Append(l1, f) else l1, e, prev + 1, entries[1..]);
    }
  }

  /** At the boundary nothing is stored; entries above it go if the terms differ. */
  ghost function AtBoundary(l: Log, i: nat, e: LogEntry): Log {
    if e.term == l.snapshot.term then l else TruncateFrom(l, i + 1)
  }

  lemma BoundaryStep(reread: bool, l: Log, i: nat, entries: Entries)
    requires Bounded(l, i) && i >= 1 && entries != []
    ensures NodeModel.Splice(reread, l, i - 1, entries) ==
            NodeModel.Splice(reread, AtBoundary(l, i, entries[0]), i, entries[1..])
  {
    if entries[0].term != l.snapshot.term {
      assert TruncateFrom(l, i).entries == TruncateFrom(l, i + 1).entries;
    }
  }

  /** What the loop leaves of a compacted log when it starts below the boundary: the entries below it are
      stored again, the one at the boundary is not, and above it the loop goes on, on a log that is emptied
      there first if the term at the boundary is another. */
  ghost function SplicedFromBelow(reread: bool, l: Log, i: nat, prev: nat, entries: Entries): Log
    requires prev < i
  {
    var k := i - prev - 1;
    if |entries| <= k then AppendAll(l, entries)
    else AppendAll(NodeModel.Splice(reread, AtBoundary(l, i, entries[k]), i, entries[k + 1..]), entries[..k])
  }

  lemma {:induction false} SpliceFromBelow(reread: bool, l: Log, i: nat, prev: nat, entries: Entries)
    requires Bounded(l, i) && prev < i && Indexed(entries, prev + 1)
    requires forall k :: prev < k < i ==> k !in l.entries
    ensures NodeModel.Splice(reread, l, prev, entries) == SplicedFromBelow(reread, l, i, prev, entries)
    decreases |entries|
  {
    if entries != [] {
      if prev + 1 == i {
        BoundaryStep(reread, l, i, entries);
      } else {
        var e, rest := entries[0], entries[1..];
        SpliceFromBelow(reread, Append(l, e), i, prev + 1, rest);
        StoredFirst(reread, l, i, prev, entries);
      }
    }
  }

  lemma StoredFirst(reread: bool, l: Log, i: nat, prev: nat, entries: Entries)
    requires Bounded(l, i) && prev + 1 < i && entries != [] && Indexed(entries, prev + 1)
    ensures SplicedFromBelow(reread, Append(l, entries[0]), i, prev + 1, entries[1..]) ==
            SplicedFromBelow(reread, l, i, prev, entries)
  {
    var e, rest, k := entries[0], entries[1..], i - prev - 1;
    if |entries| > k {
      var l1 := AtBoundary(l, i, entries[k]);
      assert TruncateFrom(Append(l, e), i + 1).entries == Append(TruncateFrom(l, i + 1), e).entries;
      assert AtBoundary(Append(l, e), i, rest[k - 1]) == Append(l1, e);
      assert rest[k..] == entries[k + 1..] && entries[..k][0] == e && entries[..k][1..] == rest[..k - 1];
      SpliceOverBelow(reread, l1, e, i, entries[k + 1..]);
    }
  }

  /** A request that probes a compacted log below its boundary. Unless it starts at 0, or names no term,
      it is refused with the probed index as the hint and changes no log; otherwise it is accepted. */
  lemma AppendBelowBoundary(variant: Variant, self: NodeID, n: Node, req: AppendRequest, xs: Entries, i: nat)
    requires n.log == Compacted(xs, i) && i <= |xs| && TermOf(xs, i) >= 1 && req.prevLogIndex < i
    requires req.term >= n.currentTerm && Indexed(req.entries, req.prevLogIndex + 1)
    ensures var (n1, resp) := HandleAppend(variant, self, n, req);
            var prev := req.prevLogIndex;
            && (resp.success <==> prev == 0 || req.prevLogTerm == 0)
            && (!resp.success ==> n1.log == n.log && resp.conflictIndex == prev && resp.conflictTerm == 0)
            && (resp.success ==> n1.log == SplicedFromBelow(variant.rereadTerm, n.log, i, prev, req.entries))
            && (resp.success && req.entries != [] && prev + 1 < i ==> n1.log != n.log)
            && i !in n1.log.entries
  {
    CompactedEntries(xs, i);
    CompactedEnds(xs, i);
    SpliceFromBelow(variant.rereadTerm, n.log, i, req.prevLogIndex, req.entries);
    KeepsBoundaryEmpty(variant.rereadTerm, n.log, i, req.prevLogIndex, req.entries);
    if req.entries != [] && req.prevLogIndex + 1 < i {
      StoredAgain(variant.rereadTerm, n.log, i, req.prevLogIndex, req.entries);
    }
  }

  lemma {:induction false} KeepsBoundaryEmpty(reread: bool, l: Log, i: nat, prev: nat, entries: Entries)
    requires Bounded(l, i) && Indexed(entries, prev + 1)
    ensures Bounded(NodeModel.Splice(reread, l, prev, entries), i)
    decreases |entries|
  {
    if entries != [] {
      var existing := TermAt(l, prev + 1);
      var l1 := if existing != 0 && existing != entries[0].term then TruncateFrom(l, prev + 1) else l;
      var found := if reread then TermAt(l1, prev + 1) else existing;
      KeepsBoundaryEmpty(reread, if found == 0 then Append(l1, entries[0]) else l1, i, prev + 1, entries[1..]);
    }
  }

  lemma {:induction false} KeepsBelow(reread: bool, l: Log, j: nat, prev: nat, entries: Entries)
    requires j <= prev && j in l.entries && Indexed(entries, prev + 1)
    ensures j in NodeModel.Splice(reread, l, prev, entries).entries
    decreases |entries|
  {
    if entries != [] {
      var existing := TermAt(l, prev + 1);
      var l1 := if existing != 0 && existing != entries[0].term then TruncateFrom(l, prev + 1) else l;
      var found := if reread then TermAt(l1, prev + 1) else existing;
      KeepsBelow(reread, if found == 0 then Append(l1, entries[0]) else l1, j, prev + 1, entries[1..]);
    }
  }

  lemma StoredAgain(reread: bool, l: Log, i: nat, prev: nat, entries: Entries)
    requires Bounded(l, i) && prev + 1 < i && prev + 1 !in l.entries && entries != [] && Indexed(entries, prev + 1)
    ensures prev + 1 in NodeModel.Splice(reread, l, prev, entries).entries
  {
    KeepsBelow(reread, Append(l, entries[0]), prev + 1, prev + 1, entries[1..]);
  }

  // ---------------------------------------------------------------------
  // Before the log is reopened
  // ---------------------------------------------------------------------

  /** The log a running node is left with: the boundary is on disk, and memory does not know it. */
  ghost function Unaware(xs: Entries, i: nat): Log {
    Compact(FromSeq(xs), i, TermOf(xs, i))
  }

  lemma UnawareReads(xs: Entries, i: nat)
    requires i <= |xs|
    ensures forall j :: j in Unaware(xs, i).entries <==> i < j <= |xs|
    ensures forall j: nat :: TermAt(Unaware(xs, i), j) == if j > i then TermOf(xs, j) else 0
    ensures LastIndex(Unaware(xs, i)) == if i < |xs| then |xs| else 0
  {
    var c := Unaware(xs, i);
    if i < |xs| {
      assert |xs| in c.entries;
      assert LastIndex(c) in c.entries;
    } else {
      assert c.entries == map[];
    }
  }

  lemma {:induction false} HintToStart(xs: Entries, i: nat, p: nat)
    requires 1 <= p <= i <= |xs|
    ensures ConflictStart(Unaware(xs, i), p, 0) == 1
  {
    UnawareReads(xs, i);
    if p > 1 { HintToStart(xs, i, p - 1); }
  }

  lemma {:induction false} HintAboveUnaware(xs: Entries, i: nat, p: nat, term: nat)
    requires i < p <= |xs| && term >= 1
    ensures ConflictStart(Unaware(xs, i), p, term) == Max(ConflictStart(FromSeq(xs), p, term), i + 1)
  {
    UnawareReads(xs, i);
    FromSeqReads(xs);
    HintBelow(FromSeq(xs), p, term);
    if p > i + 1 && TermOf(xs, p - 1) == term { HintAboveUnaware(xs, i, p - 1, term); }
  }

  /** The entries at or below the boundary are stored again, the boundary's own included, and above it the
      loop goes on. */
  ghost function SplicedUnaware(reread: bool, l: Log, i: nat, prev: nat, entries: Entries): Log
    requires prev <= i
  {
    var k := Min(i - prev, |entries|);
    AppendAll(NodeModel.Splice(reread, l, prev + k, entries[k..]), entries[..k])
  }

  lemma StoredUnaware(reread: bool, l: Log, i: nat, prev: nat, entries: Entries)
    requires l.snapshot == START && prev < i && entries != [] && Indexed(entries, prev + 1)
    ensures SplicedUnaware(reread, Append(l, entries[0]), i, prev + 1, entries[1..]) == SplicedUnaware(reread, l, i, prev, entries)
  {
    var e, rest, k := entries[0], entries[1..], Min(i - prev, |entries|);
    assert rest[k - 1..] == entries[k..] && entries[..k][0] == e && entries[..k][1..] == rest[..k - 1];
    SpliceOverBelow(reread, l, e, prev + k, entries[k..]);
  }

  lemma {:induction false} SpliceUnaware(reread: bool, l: Log, i: nat, prev: nat, entries: Entries)
    requires l.snapshot == START && prev <= i && Indexed(entries, prev + 1) && forall k :: prev < k <= i ==> k !in l.entries
    ensures NodeModel.Splice(reread, l, prev, entries) == SplicedUnaware(reread, l, i, prev, entries)
    decreases |entries|
  {
    if prev == i || entries == [] {
      assert entries[0..] == entries && entries[..0] == [];
    } else {
      SpliceUnaware(reread, Append(l, entries[0]), i, prev + 1, entries[1..]);
      StoredUnaware(reread, l, i, prev, entries);
    }
  }

  /** At or below the boundary a running node that has compacted its log finds no term: it sends the leader
      back to the start, and what the leader then sends from there it stores again. */
  lemma AppendUnawareBelow(variant: Variant, self: NodeID, n: Node, req: AppendRequest, xs: Entries, i: nat)
    requires n.log == Unaware(xs, i) && 1 <= i <= |xs| && req.prevLogIndex <= i
    requires req.term >= n.currentTerm && Indexed(req.entries, req.prevLogIndex + 1)
    ensures var (n1, resp) := HandleAppend(variant, self, n, req);
            var prev := req.prevLogIndex;
            && (resp.success <==> prev == 0 || (i < |xs| && req.prevLogTerm == 0))
            && (!resp.success ==> n1.log == n.log && resp.conflictIndex == 1 && resp.conflictTerm == 0)
            && (resp.success ==> n1.log == SplicedUnaware(variant.rereadTerm, n.log, i, prev, req.entries))
  {
    UnawareReads(xs, i);
    if req.prevLogIndex > 0 { HintToStart(xs, i, req.prevLogIndex); }
    SpliceUnaware(variant.rereadTerm, n.log, i, req.prevLogIndex, req.entries);
  }

  /** Above the boundary it answers as with the whole log, but for a hint that stays above the boundary,
      unless it has nothing left: then it sends the leader back to the start. */
  lemma AppendUnawareAbove(variant: Variant, self: NodeID, n: Node, req: AppendRequest, xs: Entries, i: nat)
    requires n.log == FromSeq(xs) && i <= |xs| && i < req.prevLogIndex && Splice.PositiveTerms(xs)
    requires req.term >= n.currentTerm && Indexed(req.entries, req.prevLogIndex + 1)
    ensures var (n1, resp1) := HandleAppend(variant, self, n, req);
            var (n2, resp2) := HandleAppend(variant, self, n.(log := Unaware(xs, i)), req);
            && n2 == n1.(log := Compact(n1.log, i, TermOf(xs, i))) && resp2.success == resp1.success
            && (resp1.success ==> resp2 == resp1)
            && (!resp1.success ==>
                  resp2.conflictIndex == if i < |xs| then Max(resp1.conflictIndex, i + 1) else 1)
  {
    var prev, l := req.prevLogIndex, Unaware(xs, i);
    UnawareReads(xs, i);
    FromSeqReads(xs);
    if prev <= |xs| {
      AppendOnOtherLog(variant, self, n, l, req);
      HintAboveUnaware(xs, i, prev, TermOf(xs, prev));
      TrimmedSplice(variant.rereadTerm, n.log, i, START, Boundary(i, TermOf(xs, i)), prev, req.entries);
      SpliceKeepsEnd(variant.rereadTerm, n.log, i, prev, req.entries);
    }
  }

  /** The end of a log that has something above the boundary does not depend on what lies below. */
  lemma SpliceKeepsEnd(reread: bool, l: Log, i: nat, prev: nat, entries: Entries)
    requires l.snapshot == START && i < prev && prev in l.entries && Indexed(entries, prev + 1)
    ensures var z := NodeModel.Splice(reread, l, prev, entries); LastIndex(Compact(z, i, TermAt(l, i))) == LastIndex(z)
  {
    KeepsBelow(reread, l, prev, prev, entries);
    var z := NodeModel.Splice(reread, l, prev, entries);
    var c := Compact(z, i, TermAt(l, i));
    assert prev in c.entries && LastIndex(z) in z.entries && LastIndex(z) >= prev;
    assert LastIndex(z) in c.entries && LastIndex(c) in c.entries;
  }

  // ---------------------------------------------------------------------
  // A leader that has compacted its log and goes on leading
  // ---------------------------------------------------------------------

  /** To a peer it must send compacted entries it sends an empty request that names no term. */
  lemma SendsNothing(v: NodeID, n: Node, p: NodeID, xs: Entries, i: nat)
    requires n.role == Leader && n.leader.Some? && n.log == Unaware(xs, i) && i <= |xs|
    requires 1 <= Lookup(n.leader.value.nextIndex, p) <= i
    ensures MakeAppend(v, n, p) ==
            Some(AppendRequest(n.currentTerm, v, Lookup(n.leader.value.nextIndex, p) - 1, 0, [], n.commitIndex))
  {
    UnawareReads(xs, i);
  }

  /** The leader after one exchange with a follower `m` that it would send the start of its log. */
  ghost function Exchanged(variant: Variant, v: NodeID, n: Node, p: NodeID, m: Node): Node
    requires MakeAppend(v, n, p).Some?
  {
    var req := MakeAppend(v, n, p).value;
    HandleAppendReply(variant, n, req, HandleAppend(variant, p, m, req).1)
  }

  /** Match soundness is lost: a follower of no later term accepts the empty request whatever its log `ys`
      holds, and the leader counts it as holding the leader's log to the end of `ys`. */
  lemma BlindMatch(variant: Variant, v: NodeID, n: Node, p: NodeID, m: Node, xs: Entries, ys: Entries, i: nat)
    requires n.role == Leader && n.leader.Some? && n.log == Unaware(xs, i) && 1 <= i <= |xs|
    requires Lookup(n.leader.value.nextIndex, p) == 1
    requires m.log == FromSeq(ys) && m.currentTerm <= n.currentTerm
    ensures MakeAppend(v, n, p).Some? && Exchanged(variant, v, n, p, m).leader.Some?
    ensures Lookup(Exchanged(variant, v, n, p, m).leader.value.matchIndex, p) ==
            Max(Lookup(n.leader.value.matchIndex, p), |ys|)
  {
    SendsNothing(v, n, p, xs, i);
    FromSeqReads(ys);
  }

  /** And it commits on that: any entry of its own term within the length of `ys` that lacked one holder. */
  lemma BlindCommit(variant: Variant, v: NodeID, n: Node, p: NodeID, m: Node, xs: Entries, ys: Entries, i: nat, k: nat)
    requires n.role == Leader && n.leader.Some? && n.log == Unaware(xs, i) && 1 <= i < k <= |xs| && k <= |ys|
    requires Lookup(n.leader.value.nextIndex, p) == 1
    requires m.log == FromSeq(ys) && m.currentTerm <= n.currentTerm && n.commitIndex < k && xs[k - 1].term == n.currentTerm
    requires var matches := n.leader.value.matchIndex[p := Max(Lookup(n.leader.value.matchIndex, p), |ys|)];
             1 + |Holders(matches, k)| >= CommitMajority(|matches|)
    ensures MakeAppend(v, n, p).Some? && Exchanged(variant, v, n, p, m).commitIndex >= k
  {
    SendsNothing(v, n, p, xs, i);
    UnawareReads(xs, i);
    FromSeqReads(ys);
    var matches := n.leader.value.matchIndex[p := Max(Lookup(n.leader.value.matchIndex, p), |ys|)];
    CommitRule.ScanIsGreatest(matches, n.commitIndex, |xs|, n.currentTerm, n.log);
    assert CommitRule.Committable(matches, n.currentTerm, n.log, k);
  }

  // ---------------------------------------------------------------------
  // A snapshot from one node to another
  // ---------------------------------------------------------------------

  /** The request that carries the snapshot `n` has just taken. */
  ghost predicate Carries(req: SnapshotRequest, n: Node) {
    req.data == n.snapshotData && Boundary(req.lastIncludedIndex, req.lastIncludedTerm) == n.log.saved
  }

  /** A node that takes a snapshot of all it has applied, and another that installs it and applies the
      entries it has beyond, up to `j`: the second holds the store of everything up to `j`. After either
      node reopens its log, the log reads as the whole one from the boundary up. */
  lemma SnapshotRoundTrip(n: Node, xs: Entries, self: NodeID, m: Node, ys: Entries, req: SnapshotRequest, j: nat)
    requires n.log == FromSeq(xs) && n.lastApplied <= j <= |xs| && n.store == Fold(map[], xs[..n.lastApplied])
    requires m.log == FromSeq(ys) && j <= |ys| && xs[n.lastApplied..j] == ys[n.lastApplied..j]
    requires req.term >= m.currentTerm
    requires Carries(req, TakeSnapshot(n, n.lastApplied, TermOf(xs, n.lastApplied), n.store))
    ensures var taken := TakeSnapshot(n, n.lastApplied, TermOf(xs, n.lastApplied), n.store);
            var installed := HandleSnapshot(self, m, req).0;
            && ApplyCommitted(installed.(commitIndex := j)).store == Fold(map[], xs[..j])
            && Reopen(taken.log) == Compacted(xs, n.lastApplied)
            && TermAt(Reopen(installed.log), n.lastApplied) == TermOf(xs, n.lastApplied)
            && forall k :: n.lastApplied < k <= j ==> TermAt(Reopen(installed.log), k) == TermOf(xs, k)
  {
    var i := n.lastApplied;
    forall k | i < k <= j ensures k in m.log.entries && m.log.entries[k] == xs[k - 1] {
      assert xs[i..j][k - 1 - i] == ys[i..j][k - 1 - i];
    }
    Replay.SnapshotCatchUp(self, m, req, xs, j);
  }
}
