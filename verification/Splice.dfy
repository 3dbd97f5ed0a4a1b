/** The entry loop of the AppendEntries handler: what it is meant to leave in the log,
    and exactly what the loop as written leaves instead. */
module Splice {
  import opened Types
  import opened LogModel
  import opened NodeModel

  ghost predicate PositiveTerms(xs: seq<LogEntry>) {
    forall i :: 0 <= i < |xs| ==> xs[i].term >= 1
  }

  /** How many of the entries, placed after the first `prev`, the log already holds by term. */
  function Agreeing(xs: seq<LogEntry>, prev: nat, entries: seq<LogEntry>): (k: nat)
    ensures k <= |entries| && (prev <= |xs| ==> prev + k <= |xs|)
    ensures forall i :: 0 <= i < k ==> prev + i < |xs| && xs[prev + i].term == entries[i].term
    ensures k < |entries| && prev + k < |xs| ==> xs[prev + k].term != entries[k].term
    ensures prev <= |xs| && k < |entries| ==> prev + k == |xs| || xs[prev + k].term != entries[k].term
    decreases |entries|
  {
    if entries != [] && prev < |xs| && xs[prev].term == entries[0].term then
      1 + Agreeing(xs, prev + 1, entries[1..])
    else 0
  }

  /** The meaning of the loop: keep a log that has all the entries, otherwise keep
      what agrees and replace the rest. */
  function Merge(xs: seq<LogEntry>, prev: nat, entries: seq<LogEntry>): seq<LogEntry>
    requires prev <= |xs|
  {
    var k := Agreeing(xs, prev, entries);
    if k == |entries| then xs else xs[..prev + k] + entries[k..]
  }

  /** Some entry of the request meets one of another term. */
  predicate Conflicts(xs: seq<LogEntry>, prev: nat, entries: seq<LogEntry>)
    requires prev <= |xs|
  {
    var k := Agreeing(xs, prev, entries);
    k < |entries| && prev + k < |xs|
  }

  /** Past the end of the log both loops just append. */
  lemma {:induction false} AppendsAtEnd(reread: bool, ys: seq<LogEntry>, entries: seq<LogEntry>)
    requires Indexed(entries, |ys| + 1)
    ensures NodeModel.Splice(reread, FromSeq(ys), |ys|, entries) == FromSeq(ys + entries)
    decreases |entries|
  {
    if entries == [] {
      assert ys + entries == ys;
    } else {
      FromSeqReads(ys);
      FromSeqAppend(ys, entries[0]);
      AppendsAtEnd(reread, ys + [entries[0]], entries[1..]);
      assert ys + [entries[0]] + entries[1..] == ys + entries;
    }
  }

  /** An entry already there by term is passed over. */
  lemma PassesOver(reread: bool, xs: seq<LogEntry>, prev: nat, entries: seq<LogEntry>)
    requires prev < |xs| && entries != [] && xs[prev].term == entries[0].term >= 1
    ensures NodeModel.Splice(reread, FromSeq(xs), prev, entries) ==
            NodeModel.Splice(reread, FromSeq(xs), prev + 1, entries[1..])
    ensures Merge(xs, prev, entries) == Merge(xs, prev + 1, entries[1..])
    ensures Agreeing(xs, prev, entries) == 1 + Agreeing(xs, prev + 1, entries[1..])
  {
    assert TermAt(FromSeq(xs), prev + 1) == xs[prev].term by { FromSeqReads(xs); }
  }

  /** A conflicting entry cuts the log; the intended loop then appends it. */
  lemma Replaces(xs: seq<LogEntry>, prev: nat, entries: seq<LogEntry>)
    requires prev < |xs| && entries != [] && 1 <= xs[prev].term != entries[0].term
    ensures NodeModel.Splice(true, FromSeq(xs), prev, entries) ==
            NodeModel.Splice(true, FromSeq(xs[..prev]), prev, entries)
  {
    assert TermAt(FromSeq(xs), prev + 1) == xs[prev].term by { FromSeqReads(xs); }
    assert TermAt(FromSeq(xs[..prev]), prev + 1) == 0 by { FromSeqReads(xs[..prev]); }
    FromSeqTruncate(xs, prev + 1);
  }

  /** The loop as intended computes `Merge`. */
  lemma {:induction false} IntendedIsMerge(xs: seq<LogEntry>, prev: nat, entries: seq<LogEntry>)
    requires prev <= |xs| && Indexed(entries, prev + 1) && PositiveTerms(xs)
    ensures NodeModel.Splice(true, FromSeq(xs), prev, entries) == FromSeq(Merge(xs, prev, entries))
    decreases |entries|
  {
    if entries != [] {
      if prev == |xs| {
        AppendsAtEnd(true, xs, entries);
        assert xs[..prev] == xs;
      } else if xs[prev].term == entries[0].term {
        PassesOver(true, xs, prev, entries);
        IntendedIsMerge(xs, prev + 1, entries[1..]);
      } else {
        Replaces(xs, prev, entries);
        AppendsAtEnd(true, xs[..prev], entries);
      }
    }
  }

  /** A log with the entry at one index missing. */
  function Without(l: Log, i: nat): Log {
    l.(entries := l.entries - {i})
  }

  /** `Merge` without the entry at the first conflict, if there is one. */
  ghost function Holed(xs: seq<LogEntry>, prev: nat, entries: seq<LogEntry>): Log
    requires prev <= |xs|
  {
    var whole := FromSeq(Merge(xs, prev, entries));
    if Conflicts(xs, prev, entries) then Without(whole, prev + Agreeing(xs, prev, entries) + 1) else whole
  }

  lemma HoledPassesOver(xs: seq<LogEntry>, prev: nat, entries: seq<LogEntry>)
    requires prev < |xs| && entries != [] && xs[prev].term == entries[0].term >= 1
    ensures Holed(xs, prev, entries) == Holed(xs, prev + 1, entries[1..])
  {
    PassesOver(false, xs, prev, entries);
  }

  lemma HoledAtMismatch(xs: seq<LogEntry>, prev: nat, entries: seq<LogEntry>)
    requires prev <= |xs| && entries != [] && (prev < |xs| ==> xs[prev].term != entries[0].term)
    ensures Agreeing(xs, prev, entries) == 0
    ensures Holed(xs, prev, entries) ==
            if prev < |xs| then Without(FromSeq(xs[..prev] + entries), prev + 1) else FromSeq(xs + entries)
  {
    assert prev == |xs| ==> xs[..prev] == xs;
  }

  /** The loop as written drops the entry at the first conflict and keeps the ones after it. */
  lemma {:induction false} WrittenDropsConflict(xs: seq<LogEntry>, prev: nat, entries: seq<LogEntry>)
    requires prev <= |xs| && Indexed(entries, prev + 1) && PositiveTerms(xs)
    ensures NodeModel.Splice(false, FromSeq(xs), prev, entries) == Holed(xs, prev, entries)
    decreases |entries|
  {
    if entries != [] {
      if prev < |xs| && xs[prev].term == entries[0].term {
        PassesOver(false, xs, prev, entries);
        HoledPassesOver(xs, prev, entries);
        WrittenDropsConflict(xs, prev + 1, entries[1..]);
      } else {
        HoledAtMismatch(xs, prev, entries);
        if prev == |xs| { AppendsAtEnd(false, xs, entries); } else { Drops(xs, prev, entries); }
      }
    }
  }

  lemma Drops(xs: seq<LogEntry>, prev: nat, entries: seq<LogEntry>)
    requires prev < |xs| && entries != [] && Indexed(entries, prev + 1) && 1 <= xs[prev].term != entries[0].term
    ensures NodeModel.Splice(false, FromSeq(xs), prev, entries) == Without(FromSeq(xs[..prev] + entries), prev + 1)
  {
    var ys := xs[..prev];
    assert TermAt(FromSeq(xs), prev + 1) == xs[prev].term by { FromSeqReads(xs); }
    FromSeqTruncate(xs, prev + 1);
    GapAppears(ys, entries);
    AppendsBeyond(ys, entries, 1);
  }

  lemma GapAppears(ys: seq<LogEntry>, entries: seq<LogEntry>)
    requires entries != []
    ensures Without(FromSeq(ys + entries[..1]), |ys| + 1) == FromSeq(ys)
  {
    assert Without(FromSeq(ys + entries[..1]), |ys| + 1).entries == FromSeq(ys).entries;
  }

  lemma GapGrows(ys: seq<LogEntry>, entries: seq<LogEntry>, k: nat)
    requires 1 <= k < |entries| && Indexed(entries, |ys| + 1)
    ensures Append(Without(FromSeq(ys + entries[..k]), |ys| + 1), entries[k]) ==
            Without(FromSeq(ys + entries[..k + 1]), |ys| + 1)
  {
    assert Append(Without(FromSeq(ys + entries[..k]), |ys| + 1), entries[k]).entries ==
           Without(FromSeq(ys + entries[..k + 1]), |ys| + 1).entries;
  }

  /** Once there is a gap the remaining entries land beyond it. */
  lemma {:induction false} AppendsBeyond(ys: seq<LogEntry>, entries: seq<LogEntry>, k: nat)
    requires 1 <= k <= |entries| && Indexed(entries, |ys| + 1)
    ensures NodeModel.Splice(false, Without(FromSeq(ys + entries[..k]), |ys| + 1), |ys| + k, entries[k..]) ==
            Without(FromSeq(ys + entries), |ys| + 1)
    decreases |entries| - k
  {
    if k == |entries| {
      assert entries[..k] == entries;
    } else {
      GapGrows(ys, entries, k);
      AppendsBeyond(ys, entries, k + 1);
    }
  }

  /** The loop as written is the intended one exactly when the request meets no conflict. */
  lemma WrittenIsIntendedIff(xs: seq<LogEntry>, prev: nat, entries: seq<LogEntry>)
    requires prev <= |xs| && Indexed(entries, prev + 1) && PositiveTerms(xs)
    ensures NodeModel.Splice(false, FromSeq(xs), prev, entries) == NodeModel.Splice(true, FromSeq(xs), prev, entries)
            <==> !Conflicts(xs, prev, entries)
  {
    IntendedIsMerge(xs, prev, entries);
    WrittenDropsConflict(xs, prev, entries);
    if Conflicts(xs, prev, entries) {
      var k := Agreeing(xs, prev, entries);
      assert prev + k + 1 in FromSeq(Merge(xs, prev, entries)).entries;
    }
  }

  /** A request delivered again changes nothing. */
  lemma MergeTwice(xs: seq<LogEntry>, prev: nat, entries: seq<LogEntry>)
    requires prev <= |xs|
    ensures prev <= |Merge(xs, prev, entries)|
    ensures Merge(Merge(xs, prev, entries), prev, entries) == Merge(xs, prev, entries)
  {
    var k := Agreeing(xs, prev, entries);
    var ys := Merge(xs, prev, entries);
    if k < |entries| {
      var k' := Agreeing(ys, prev, entries);
      assert forall i :: 0 <= i < |entries| ==> ys[prev + i].term == entries[i].term;
    }
  }
}
