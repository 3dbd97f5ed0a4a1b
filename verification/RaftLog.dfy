/** The log store as the code keeps it: a bucket of entries under byte keys, walked by a cursor. */
module RaftLog {
  import opened Types
  import opened IndexKeys
  import opened LogModel
  import NodeModel

  type Bucket = map<Key, LogEntry>

  /** What survives the process. `meta` and `boundary` are absent until first saved. */
  datatype Disk = Disk(log: Bucket, meta: Option<NodeModel.Meta>, boundary: Option<Boundary>)

  ghost predicate KeysOk(b: Bucket) {
    forall k :: k in b ==> |k| == KEY_LENGTH
  }

  /** `m` and the bucket hold the same entry for `i`, or neither holds one. */
  ghost predicate SameAt(m: map<nat, LogEntry>, b: Bucket, i: nat) {
    && (i in m <==> i < INDEX_LIMIT && IndexKey(i) in b)
    && (i in m ==> m[i] == b[IndexKey(i)])
  }

  /** `m` is what a bucket holds, read by index. */
  ghost predicate Reads(m: map<nat, LogEntry>, b: Bucket) {
    forall i: nat :: SameAt(m, b, i)
  }

  lemma {:induction false} ReadingExists(b: Bucket)
    ensures exists m :: Reads(m, b)
    decreases b.Keys
  {
    if b == map[] {
      assert Reads(map[], b);
    } else {
      var k :| k in b;
      ReadingExists(b - {k});
      var m :| Reads(m, b - {k});
      var m' := if |k| == KEY_LENGTH then m[KeyIndex(k) := b[k]] else m;
      forall i: nat ensures SameAt(m', b, i) {
        assert SameAt(m, b - {k}, i);
        if |k| == KEY_LENGTH { KeyRoundTrip(0, k); }
        if i < INDEX_LIMIT { KeyRoundTrip(i, if |k| == KEY_LENGTH then k else IndexKey(i)); }
      }
      assert Reads(m', b);
    }
  }

  /** The bucket read by index. */
  ghost function ByIndex(b: Bucket): (m: map<nat, LogEntry>)
    ensures Reads(m, b)
  {
    ReadingExists(b);
    var m :| Reads(m, b);
    m
  }

  ghost function SavedBoundary(d: Disk): Boundary {
    if d.boundary.Some? then d.boundary.value else START
  }

  ghost function SavedMeta(d: Disk): NodeModel.Meta {
    if d.meta.Some? then d.meta.value else NodeModel.Meta(0, NO_NODE)
  }

  // ---------------------------------------------------------------------
  // The bucket and its numbered reading
  // ---------------------------------------------------------------------

  lemma SameReading(b: Bucket, m: map<nat, LogEntry>)
    requires Reads(m, b)
    ensures ByIndex(b) == m
  {
    forall i: nat ensures i in m <==> i in ByIndex(b) {
      assert SameAt(m, b, i) && SameAt(ByIndex(b), b, i);
    }
    forall i: nat | i in m ensures m[i] == ByIndex(b)[i] {
      assert SameAt(m, b, i) && SameAt(ByIndex(b), b, i);
    }
  }

  lemma PutByIndex(b: Bucket, e: LogEntry)
    requires e.index < INDEX_LIMIT
    ensures ByIndex(b[IndexKey(e.index) := e]) == ByIndex(b)[e.index := e]
  {
    var b', m' := b[IndexKey(e.index) := e], ByIndex(b)[e.index := e];
    KeyRoundTrip(e.index, IndexKey(e.index));
    forall i: nat ensures SameAt(m', b', i) {
      assert SameAt(ByIndex(b), b, i);
      if i < INDEX_LIMIT { KeyRoundTrip(i, IndexKey(i)); }
    }
    SameReading(b', m');
  }

  lemma HasByIndex(b: Bucket, k: Key)
    requires KeysOk(b) && k in b
    ensures KeyIndex(k) < INDEX_LIMIT && KeyIndex(k) in ByIndex(b) && ByIndex(b)[KeyIndex(k)] == b[k]
  {
    KeyRoundTrip(0, k);
    assert SameAt(ByIndex(b), b, KeyIndex(k));
  }

  // ---------------------------------------------------------------------
  // Cursors
  // ---------------------------------------------------------------------

  lemma {:induction false} LeastExists(s: set<Key>) returns (k: Key)
    requires s != {} && forall j :: j in s ==> |j| == KEY_LENGTH
    ensures k in s && forall j :: j in s ==> !Before(j, k)
    decreases s
  {
    k :| k in s;
    var rest := s - {k};
    if rest == {} {
      assert s == {k};
      KeyOrderOf(k, k);
    } else {
      var m := LeastExists(rest);
      if Before(m, k) {
        KeyOrderOf(m, k);
        KeyOrderOf(k, m);
        k := m;
      } else {
        KeyOrderOf(m, k);
        forall j | j in s ensures !Before(j, k) {
          KeyOrderOf(j, k);
          if j != k { KeyOrderOf(j, m); }
        }
      }
    }
  }

  lemma {:induction false} GreatestExists(s: set<Key>) returns (k: Key)
    requires s != {} && forall j :: j in s ==> |j| == KEY_LENGTH
    ensures k in s && forall j :: j in s ==> !Before(k, j)
    decreases s
  {
    k :| k in s;
    var rest := s - {k};
    if rest == {} {
      assert s == {k};
      KeyOrderOf(k, k);
    } else {
      var m := GreatestExists(rest);
      KeyOrderOf(m, k);
      KeyOrderOf(k, m);
      if Before(k, m) { k := m; }
      forall j | j in s ensures !Before(k, j) {
        KeyOrderOf(k, j);
        if j in rest { KeyOrderOf(m, j); }
      }
    }
  }

  /** The first key at or after `from`. */
  method Seek(b: Bucket, from: Key) returns (k: Option<Key>)
    requires KeysOk(b)
    ensures k.None? ==> forall j :: j in b ==> Before(j, from)
    ensures k.Some? ==> k.value in b && !Before(k.value, from)
    ensures k.Some? ==> forall j :: j in b && !Before(j, from) ==> !Before(j, k.value)
  {
    var s := set j | j in b.Keys && !Before(j, from);
    if s == {} {
      k := None;
      assert forall j :: j in b ==> j !in s;
    } else {
      ghost var least := LeastExists(s);
      var first :| first in s && forall j :: j in s ==> !Before(j, first);
      k := Some(first);
    }
  }

  /** The first key after `after`. */
  method NextKey(b: Bucket, after: Key) returns (k: Option<Key>)
    requires KeysOk(b)
    ensures k.None? ==> forall j :: j in b ==> !Before(after, j)
    ensures k.Some? ==> k.value in b && Before(after, k.value)
    ensures k.Some? ==> forall j :: j in b && Before(after, j) ==> !Before(j, k.value)
  {
    var s := set j | j in b.Keys && Before(after, j);
    if s == {} {
      k := None;
      assert forall j :: j in b ==> j !in s;
    } else {
      ghost var least := LeastExists(s);
      var first :| first in s && forall j :: j in s ==> !Before(j, first);
      k := Some(first);
    }
  }

  method LastKey(b: Bucket) returns (k: Option<Key>)
    requires KeysOk(b)
    ensures k.None? <==> b == map[]
    ensures k.Some? ==> k.value in b && forall j :: j in b ==> !Before(k.value, j)
  {
    var s := b.Keys;
    if s == {} {
      k := None;
    } else {
      ghost var greatest := GreatestExists(s);
      var last :| last in s && forall j :: j in s ==> !Before(last, j);
      k := Some(last);
    }
  }

  lemma EmptyByIndex(b: Bucket)
    requires KeysOk(b)
    ensures b == map[] <==> ByIndex(b) == map[]
  {
    if b == map[] {
      assert Reads(map[], b);
      SameReading(b, map[]);
    } else {
      var k :| k in b;
      HasByIndex(b, k);
    }
  }

  /** The cursor's last key is the greatest index. */
  lemma LastKeyIsLastIndex(b: Bucket, k: Key)
    requires KeysOk(b) && k in b && forall j :: j in b ==> !Before(k, j)
    ensures ByIndex(b) != map[] && KeyIndex(k) == MaxKey(ByIndex(b).Keys)
  {
    HasByIndex(b, k);
    forall i | i in ByIndex(b) ensures i <= KeyIndex(k) {
      assert SameAt(ByIndex(b), b, i);
      var j := IndexKey(i);
      KeyRoundTrip(i, j);
      KeyOrderOf(k, j);
    }
    var m := MaxKey(ByIndex(b).Keys);
    assert m in ByIndex(b);
  }

  /** The entries with an index below `from`. */
  ghost function Below(b: Bucket, from: nat): Bucket {
    b - (set k | k in b && KeyIndex(k) >= from)
  }

  /** The entries with an index above `index`. */
  ghost function Above(b: Bucket, index: nat): Bucket {
    b - (set k | k in b && KeyIndex(k) <= index)
  }

  /** Where a cursor stands, by index: at the first entry whose index is at least `from`, if any. */
  ghost predicate StandsAt(b: Bucket, from: nat, k: Option<Key>) {
    && (k.Some? ==> k.value in b && KeyIndex(k.value) >= from)
    && (forall j :: j in b && KeyIndex(j) >= from ==> k.Some? && KeyIndex(j) >= KeyIndex(k.value))
  }

  method SeekIndex(b: Bucket, from: nat) returns (k: Option<Key>)
    requires KeysOk(b) && from < INDEX_LIMIT
    ensures StandsAt(b, from, k)
  {
    KeyRoundTrip(from, IndexKey(from));
    k := Seek(b, IndexKey(from));
    forall j | j in b ensures Before(j, IndexKey(from)) <==> KeyIndex(j) < from {
      KeyOrderOf(j, IndexKey(from));
    }
    if k.Some? {
      forall j | j in b ensures Before(j, k.value) <==> KeyIndex(j) < KeyIndex(k.value) {
        KeyOrderOf(j, k.value);
      }
    }
  }

  /** Deleting the entry a cursor stands at and moving on. */
  method DeleteHere(b: Bucket, from: nat, k: Key) returns (b': Bucket, next: Option<Key>)
    requires KeysOk(b) && StandsAt(b, from, Some(k))
    ensures b' == b - {k} && StandsAt(b', from, next)
  {
    b' := b - {k};
    next := NextKey(b', k);
    forall j | j in b ensures (Before(k, j) <==> KeyIndex(k) < KeyIndex(j)) && (j == k <==> KeyIndex(j) == KeyIndex(k)) {
      KeyOrderOf(k, j);
    }
    if next.Some? {
      forall j | j in b ensures Before(j, next.value) <==> KeyIndex(j) < KeyIndex(next.value) {
        KeyOrderOf(j, next.value);
      }
    }
  }

  /** Deletes from the first key at or after `from` to the last. */
  method DeleteFrom(b: Bucket, from: nat) returns (b': Bucket)
    requires KeysOk(b) && from < INDEX_LIMIT
    ensures KeysOk(b') && b' == Below(b, from)
  {
    b' := b;
    var k := SeekIndex(b', from);
    while k.Some?
      invariant KeysOk(b') && StandsAt(b', from, k) && Below(b', from) == Below(b, from)
      decreases |b'|
    {
      b', k := DeleteHere(b', from, k.value);
    }
    assert b' == Below(b', from);
  }

  /** Deletes from the first key on, until one is past `index`. */
  method DeleteUpTo(b: Bucket, index: nat) returns (b': Bucket)
    requires KeysOk(b)
    ensures KeysOk(b') && b' == Above(b, index)
  {
    b' := b;
    var k := SeekIndex(b', 0);
    while k.Some? && KeyIndex(k.value) <= index
      invariant KeysOk(b') && StandsAt(b', 0, k) && Above(b', index) == Above(b, index)
      decreases |b'|
    {
      b', k := DeleteHere(b', 0, k.value);
    }
    assert b' == Above(b', index);
  }

  lemma BelowByIndex(b: Bucket, from: nat)
    requires KeysOk(b)
    ensures ByIndex(Below(b, from)) == ByIndex(b) - (set i | i in ByIndex(b) && i >= from)
  {
    var m := ByIndex(b);
    var m' := m - (set i | i in m && i >= from);
    forall i: nat ensures SameAt(m', Below(b, from), i) {
      assert SameAt(m, b, i);
      if i < INDEX_LIMIT { KeyRoundTrip(i, IndexKey(i)); }
    }
    SameReading(Below(b, from), m');
  }

  lemma AboveByIndex(b: Bucket, index: nat)
    requires KeysOk(b)
    ensures ByIndex(Above(b, index)) == ByIndex(b) - (set i | i in ByIndex(b) && i <= index)
  {
    var m := ByIndex(b);
    var m' := m - (set i | i in m && i <= index);
    forall i: nat ensures SameAt(m', Above(b, index), i) {
      assert SameAt(m, b, i);
      if i < INDEX_LIMIT { KeyRoundTrip(i, IndexKey(i)); }
    }
    SameReading(Above(b, index), m');
  }

  ghost function PutAll(m: map<nat, LogEntry>, entries: seq<LogEntry>): map<nat, LogEntry> {
    if entries == [] then m else
      var e := entries[|entries| - 1];
      PutAll(m, entries[..|entries| - 1])[e.index := e]
  }

  /** Stores entries one after another; of two with one index the later wins. */
  method PutEntries(b: Bucket, entries: seq<LogEntry>) returns (b': Bucket)
    requires KeysOk(b) && forall i :: 0 <= i < |entries| ==> entries[i].index < INDEX_LIMIT
    ensures KeysOk(b') && ByIndex(b') == PutAll(ByIndex(b), entries)
  {
    b' := b;
    for i := 0 to |entries|
      invariant KeysOk(b') && ByIndex(b') == PutAll(ByIndex(b), entries[..i])
    {
      var e := entries[i];
      KeyRoundTrip(e.index, IndexKey(e.index));
      PutByIndex(b', e);
      b' := b'[IndexKey(e.index) := e];
      assert entries[..i + 1][..i] == entries[..i];
    }
    assert entries[..|entries|] == entries;
  }

  lemma RangeStep(l: Log, entries: seq<LogEntry>, i: nat, hi: nat)
    requires i <= hi && i in l.entries
    ensures entries + LogModel.GetRange(l, i, hi) ==
            entries + [l.entries[i]] + LogModel.GetRange(l, i + 1, hi)
  {
  }

  // ---------------------------------------------------------------------
  // The store
  // ---------------------------------------------------------------------

  class RaftLog {
    var db: Disk
    var snapshotIndex: nat
    var snapshotTerm: nat

    ghost predicate Valid()
      reads this
    {
      KeysOk(db.log)
    }

    /** The store as the model reads it. */
    ghost function View(): Log
      reads this
    {
      Log(ByIndex(db.log), Boundary(snapshotIndex, snapshotTerm), SavedBoundary(db))
    }

    ghost function Meta(): NodeModel.Meta
      reads this
    {
      SavedMeta(db)
    }

    /** Opening reads the compaction boundary back from disk. */
    constructor (disk: Disk)
      requires KeysOk(disk.log)
      ensures Valid() && db == disk
      ensures View() == Log(ByIndex(disk.log), SavedBoundary(disk), SavedBoundary(disk))
      ensures Meta() == SavedMeta(disk)
    {
      db := disk;
      if disk.boundary.Some? {
        snapshotIndex, snapshotTerm := disk.boundary.value.index, disk.boundary.value.term;
      } else {
        snapshotIndex, snapshotTerm := 0, 0;
      }
    }

    method SaveMeta(term: nat, votedFor: NodeID)
      requires Valid()
      modifies this
      ensures Valid() && View() == old(View()) && Meta() == NodeModel.Meta(term, votedFor)
    {
      db := db.(meta := Some(NodeModel.Meta(term, votedFor)));
    }

    method LoadMeta() returns (term: nat, votedFor: NodeID)
      requires Valid()
      ensures NodeModel.Meta(term, votedFor) == Meta()
    {
      if db.meta.Some? {
        term, votedFor := db.meta.value.term, db.meta.value.votedFor;
      } else {
        term, votedFor := 0, NO_NODE;
      }
    }

    method Append(entry: LogEntry)
      requires Valid() && entry.index < INDEX_LIMIT
      modifies this
      ensures Valid() && View() == LogModel.Append(old(View()), entry) && Meta() == old(Meta())
    {
      KeyRoundTrip(entry.index, IndexKey(entry.index));
      PutByIndex(db.log, entry);
      db := db.(log := db.log[IndexKey(entry.index) := entry]);
    }

    /** All entries in one transaction. */
    method AppendBatch(entries: seq<LogEntry>)
      requires Valid() && forall i :: 0 <= i < |entries| ==> entries[i].index < INDEX_LIMIT
      modifies this
      ensures Valid() && Meta() == old(Meta())
      ensures View() == old(View()).(entries := PutAll(old(View()).entries, entries))
    {
      if |entries| == 0 { return; }
      var bucket := PutEntries(db.log, entries);
      db := db.(log := bucket);
    }

    method Get(index: nat) returns (entry: Option<LogEntry>)
      requires Valid() && index < INDEX_LIMIT
      ensures entry == if index in View().entries then Some(View().entries[index]) else None
    {
      var k := IndexKey(index);
      assert SameAt(ByIndex(db.log), db.log, index);
      entry := if k in db.log then Some(db.log[k]) else None;
    }

    /** Entries from `from` to `hi`, stopping at the first one missing. */
    method GetRange(from: nat, hi: nat) returns (entries: seq<LogEntry>)
      requires Valid() && hi < INDEX_LIMIT
      ensures entries == LogModel.GetRange(View(), from, hi)
    {
      entries := [];
      ghost var l := View();
      var i := from;
      while i <= hi
        invariant from <= i
        invariant entries + LogModel.GetRange(l, i, hi) == LogModel.GetRange(l, from, hi)
      {
        var e := Get(i);
        if e.None? { break; }
        RangeStep(l, entries, i, hi);
        entries := entries + [e.value];
        i := i + 1;
      }
    }

    /** Removes every entry at or after `from`. */
    method TruncateFrom(from: nat)
      requires Valid() && from < INDEX_LIMIT
      modifies this
      ensures Valid() && View() == LogModel.TruncateFrom(old(View()), from) && Meta() == old(Meta())
    {
      var bucket := DeleteFrom(db.log, from);
      BelowByIndex(db.log, from);
      db := db.(log := bucket);
    }

    method LastIndex() returns (last: nat)
      requires Valid()
      ensures last == LogModel.LastIndex(View())
      ensures View().entries != map[] ==> last < INDEX_LIMIT
    {
      last := snapshotIndex;
      var k := LastKey(db.log);
      EmptyByIndex(db.log);
      if k.Some? {
        LastKeyIsLastIndex(db.log, k.value);
        HasByIndex(db.log, k.value);
        last := KeyIndex(k.value);
      }
    }

    method LastTerm() returns (term: nat)
      requires Valid()
      ensures term == LogModel.LastTerm(View())
    {
      var last := LastIndex();
      if last == 0 {
        term := 0;
      } else if last == snapshotIndex {
        term := snapshotTerm;
      } else {
        var e := Get(last);
        if e.Some? {
          term := e.value.term;
        } else {
          term := snapshotTerm;
        }
      }
    }

    method TermAt(index: nat) returns (term: nat)
      requires Valid() && index < INDEX_LIMIT
      ensures term == LogModel.TermAt(View(), index)
    {
      if index == 0 {
        term := 0;
      } else if index == snapshotIndex {
        term := snapshotTerm;
      } else {
        var e := Get(index);
        term := if e.Some? then e.value.term else 0;
      }
    }

    /** Removes every entry up to `index` and saves the boundary; memory keeps the old one. */
    method Compact(index: nat, term: nat)
      requires Valid()
      modifies this
      ensures Valid() && View() == LogModel.Compact(old(View()), index, term) && Meta() == old(Meta())
    {
      var bucket := DeleteUpTo(db.log, index);
      AboveByIndex(db.log, index);
      db := db.(log := bucket, boundary := Some(Boundary(index, term)));
    }
  }
}
