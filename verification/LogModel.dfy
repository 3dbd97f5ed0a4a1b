/** The log store as a value: a numeric map of entries with a compaction boundary,
    and the reading of a contiguous, uncompacted log as a sequence. */
module LogModel {
  import opened Types

  datatype Boundary = Boundary(index: nat, term: nat)

  const START := Boundary(0, 0)

  /** `snapshot` is the boundary held in memory, `saved` the one on disk. */
  datatype Log = Log(entries: map<nat, LogEntry>, snapshot: Boundary, saved: Boundary)

  const EMPTY := Log(map[], START, START)

  ghost function MaxKey(s: set<nat>): (m: nat)
    requires s != {}
    ensures m in s && forall k :: k in s ==> k <= m
  {
    var k :| k in s;
    if s == {k} then k else
      assert s == {k} + (s - {k});
      var rest := MaxKey(s - {k});
      assert forall j :: j in s ==> j == k || j in s - {k};
      Max(k, rest)
  }

  ghost function LastIndex(l: Log): nat {
    if l.entries == map[] then l.snapshot.index else MaxKey(l.entries.Keys)
  }

  ghost function LastTerm(l: Log): nat {
    var last := LastIndex(l);
    if last == 0 then 0
    else if last == l.snapshot.index || last !in l.entries then l.snapshot.term
    else l.entries[last].term
  }

  function TermAt(l: Log, i: nat): nat {
    if i == 0 then 0
    else if i == l.snapshot.index then l.snapshot.term
    else if i in l.entries then l.entries[i].term
    else 0
  }

  /** The entry goes where its own index says. */
  function Append(l: Log, e: LogEntry): Log {
    l.(entries := l.entries[e.index := e])
  }

  function TruncateFrom(l: Log, from: nat): Log {
    l.(entries := l.entries - (set i | i in l.entries && i >= from))
  }

  /** Entries from `from` to `hi`, stopping at the first one missing. */
  function GetRange(l: Log, from: nat, hi: nat): seq<LogEntry>
    decreases hi + 1 - from
  {
    if from > hi || from !in l.entries then [] else [l.entries[from]] + GetRange(l, from + 1, hi)
  }

  /** Compaction writes the boundary to disk only; memory learns it on reopening. */
  function Compact(l: Log, index: nat, term: nat): Log {
    l.(entries := l.entries - (set i | i in l.entries && i <= index), saved := Boundary(index, term))
  }

  function Reopen(l: Log): Log {
    l.(snapshot := l.saved)
  }

  // ---------------------------------------------------------------------
  // Logs as sequences
  // ---------------------------------------------------------------------

  /** `m` holds the entries of `xs` under their positions, counted from 1. */
  ghost predicate Numbers(m: map<nat, LogEntry>, xs: seq<LogEntry>) {
    && (forall i :: i in m <==> 1 <= i <= |xs|)
    && (forall i :: i in m ==> m[i] == xs[i - 1])
  }

  lemma {:induction false} NumberingExists(xs: seq<LogEntry>)
    ensures exists m :: Numbers(m, xs)
  {
    if xs == [] {
      assert Numbers(map[], xs);
    } else {
      var ys := xs[..|xs| - 1];
      NumberingExists(ys);
      var m :| Numbers(m, ys);
      assert Numbers(m[|xs| := xs[|xs| - 1]], xs);
    }
  }

  ghost function Numbered(xs: seq<LogEntry>): (m: map<nat, LogEntry>)
    ensures forall i :: i in m <==> 1 <= i <= |xs|
    ensures forall i :: i in m ==> m[i] == xs[i - 1]
  {
    NumberingExists(xs);
    var m :| Numbers(m, xs);
    m
  }

  ghost function FromSeq(xs: seq<LogEntry>): Log {
    Log(Numbered(xs), START, START)
  }

  /** The sequence a contiguous log holds. */
  ghost function Seq(l: Log): seq<LogEntry> {
    if exists xs :: l == FromSeq(xs) then var xs :| l == FromSeq(xs); xs else []
  }

  /** A contiguous log that was never compacted. */
  ghost predicate Plain(l: Log) {
    l == FromSeq(Seq(l))
  }

  function TermOf(xs: seq<LogEntry>, i: nat): nat {
    if 1 <= i <= |xs| then xs[i - 1].term else 0
  }

  function LastTermOf(xs: seq<LogEntry>): nat {
    TermOf(xs, |xs|)
  }

  /** Entries carry the positions they sit at, counting from `first`. */
  ghost predicate Indexed(xs: seq<LogEntry>, first: nat) {
    forall i :: 0 <= i < |xs| ==> xs[i].index == first + i
  }

  lemma FromSeqReads(xs: seq<LogEntry>)
    ensures LastIndex(FromSeq(xs)) == |xs|
    ensures LastTerm(FromSeq(xs)) == LastTermOf(xs)
    ensures forall i :: TermAt(FromSeq(xs), i) == TermOf(xs, i)
  {
    var l := FromSeq(xs);
    if xs == [] {
      assert l.entries == map[];
    } else {
      assert |xs| in l.entries;
      assert LastIndex(l) in l.entries;
    }
  }

  lemma FromSeqInjective(xs: seq<LogEntry>, ys: seq<LogEntry>)
    requires FromSeq(xs) == FromSeq(ys)
    ensures xs == ys
  {
    FromSeqReads(xs);
    FromSeqReads(ys);
    forall i | 0 <= i < |xs| ensures xs[i] == ys[i] {
      assert FromSeq(xs).entries[i + 1] == FromSeq(ys).entries[i + 1];
    }
  }

  lemma SeqOfFromSeq(xs: seq<LogEntry>)
    ensures Seq(FromSeq(xs)) == xs && Plain(FromSeq(xs))
  {
    FromSeqInjective(xs, Seq(FromSeq(xs)));
  }

  lemma FromSeqAppend(xs: seq<LogEntry>, e: LogEntry)
    requires e.index == |xs| + 1
    ensures Append(FromSeq(xs), e) == FromSeq(xs + [e])
  {
    assert Append(FromSeq(xs), e).entries == FromSeq(xs + [e]).entries;
  }

  lemma FromSeqTruncate(xs: seq<LogEntry>, from: nat)
    requires 1 <= from <= |xs| + 1
    ensures TruncateFrom(FromSeq(xs), from) == FromSeq(xs[..from - 1])
  {
    assert TruncateFrom(FromSeq(xs), from).entries == FromSeq(xs[..from - 1]).entries;
  }

  lemma {:induction false} FromSeqRange(xs: seq<LogEntry>, from: nat, hi: nat)
    requires 1 <= from <= hi + 1 && hi <= |xs|
    ensures GetRange(FromSeq(xs), from, hi) == xs[from - 1..hi]
    decreases hi + 1 - from
  {
    if from <= hi {
      FromSeqRange(xs, from + 1, hi);
      assert xs[from - 1..hi] == [xs[from - 1]] + xs[from..hi];
    }
  }
}
