/** A node that compacted its log and restarts: what its apply loop does, what store it ends with, and
    exactly when that is the store it had. */
module CompactedRestart {
  import opened Types
  import opened LogModel
  import opened StateMachine
  import opened NodeModel
  import opened Compaction
  import opened Replay

  /** The node after so many calls of the apply loop. */
  function AfterCalls(n: Node, calls: nat): Node {
    if calls == 0 then n else ApplyCommitted(AfterCalls(n, calls - 1))
  }

  /** Restarted over the log of `xs` compacted up to `i`, with `j` committed again. */
  ghost predicate Restarted(n: Node, xs: Entries, i: nat, j: nat) {
    i <= j <= |xs| && n.log == Compacted(xs, i) && n.lastApplied == 0 && n.commitIndex == j
  }

  lemma RestartedFrom(n: Node, xs: Entries, i: nat, j: nat, keepStore: bool)
    requires i <= j <= |xs| && n.log == Compact(FromSeq(xs), i, TermOf(xs, i))
    ensures Restarted(Restart(n, keepStore).(commitIndex := j), xs, i, j)
    ensures Restart(n, keepStore).store == if keepStore then n.store else map[]
  {
  }

  /** Each call passes over one compacted index and ends. */
  lemma {:induction false} PassesCompacted(n: Node, xs: Entries, i: nat, j: nat, calls: nat)
    requires Restarted(n, xs, i, j) && calls <= i
    ensures AfterCalls(n, calls) == n.(lastApplied := calls)
  {
    if calls > 0 {
      PassesCompacted(n, xs, i, j, calls - 1);
      CompactedEntries(xs, i);
    }
  }

  /** The call after those applies the rest, and no later call does anything. */
  lemma {:induction false} EndsWith(n: Node, xs: Entries, i: nat, j: nat, calls: nat)
    requires Restarted(n, xs, i, j) && calls > i
    ensures AfterCalls(n, calls) == n.(lastApplied := j, store := Fold(n.store, xs[i..j]))
  {
    if calls == i + 1 {
      PassesCompacted(n, xs, i, j, i);
      CompactedEntries(xs, i);
      ApplyStretch(n.(lastApplied := i), xs);
    } else {
      EndsWith(n, xs, i, j, calls - 1);
    }
  }

  // ---------------------------------------------------------------------
  // When the compacted entries are not missed
  // ---------------------------------------------------------------------

  /** The last operation on `key`, if there is one, deletes it. */
  predicate Cleared(xs: Entries, key: string) {
    if xs == [] then true else
      var c := xs[|xs| - 1].command;
      if c.key == key && c.op in {Put, Cas} then false
      else (c.key == key && c.op == Delete) || Cleared(xs[..|xs| - 1], key)
  }

  ghost predicate Spared(xs: Entries, i: nat, j: nat, key: string)
    requires i <= j <= |xs|
  {
    Cleared(xs[..i], key) || Touches(xs[i..j], key)
  }

  /** Every key the compacted entries may have left something in has a Put or a Delete after them. */
  ghost predicate Dispensable(xs: Entries, i: nat, j: nat)
    requires i <= j <= |xs|
  {
    forall key :: Spared(xs, i, j, key)
  }

  lemma {:induction false} ClearedHoldsNothing(xs: Entries, key: string)
    requires Cleared(xs, key)
    ensures KeyFold(None, xs, key) == None
    decreases |xs|
  {
    if xs != [] && !(xs[|xs| - 1].command.key == key && xs[|xs| - 1].command.op == Delete) {
      ClearedHoldsNothing(xs[..|xs| - 1], key);
    }
  }

  lemma {:induction false} LastStored(xs: Entries, key: string) returns (q: nat)
    requires !Cleared(xs, key)
    ensures q < |xs| && xs[q].command.key == key && xs[q].command.op in {Put, Cas}
    ensures forall k :: q < k < |xs| ==> !Writes(xs[k].command, key)
    decreases |xs|
  {
    var c := xs[|xs| - 1].command;
    if c.key == key && c.op in {Put, Cas} { q := |xs| - 1; } else { q := LastStored(xs[..|xs| - 1], key); }
  }

  lemma {:induction false} ShapeCleared(xs: Entries, ys: Entries, key: string)
    requires SameShape(xs, ys) && Cleared(xs, key)
    ensures Cleared(ys, key)
    decreases |xs|
  {
    if xs != [] {
      assert SameCommandShape(xs[|xs| - 1].command, ys[|ys| - 1].command);
      if !(xs[|xs| - 1].command.key == key && xs[|xs| - 1].command.op == Delete) {
        ShapeCleared(xs[..|xs| - 1], ys[..|ys| - 1], key);
      }
    }
  }

  /** What is left of a pass that starts after the compacted entries is what a whole pass leaves. */
  ghost predicate NothingMissed(xs: Entries, i: nat, j: nat)
    requires i <= j <= |xs|
  {
    Fold(map[], xs[i..j]) == Fold(map[], xs[..j])
  }

  lemma DispensableMissesNothing(xs: Entries, i: nat, j: nat)
    requires i <= j <= |xs| && Dispensable(xs, i, j)
    ensures NothingMissed(xs, i, j)
  {
    var a, b := xs[..i], xs[i..j];
    assert xs[..j] == a + b;
    forall key ensures Entry(Fold(map[], b), key) == Entry(Fold(map[], xs[..j]), key) {
      assert Spared(xs, i, j, key);
      EntryOfFold(map[], b, key);
      EntryOfFold(map[], xs[..j], key);
      KeyFoldConcat(None, a, b, key);
      if Touches(b, key) { TouchedForgets(None, KeyFold(None, a, key), b, key); } else { ClearedHoldsNothing(a, key); }
    }
    SameEntriesSameStore(Fold(map[], b), Fold(map[], xs[..j]));
  }

  lemma ShapeDispensable(xs: Entries, ys: Entries, i: nat, j: nat)
    requires SameShape(xs, ys) && i <= j <= |xs| && Dispensable(xs, i, j)
    ensures Dispensable(ys, i, j)
  {
    assert xs[0..i] == xs[..i] && ys[0..i] == ys[..i];
    ShapeSlice(xs, ys, 0, i);
    ShapeSlice(xs, ys, i, j);
    forall key ensures Spared(ys, i, j, key) {
      assert Spared(xs, i, j, key);
      if Cleared(xs[..i], key) { ShapeCleared(xs[..i], ys[..i], key); } else { ShapeTouches(xs[i..j], ys[i..j], key); }
    }
  }

  /** Values for which the compacted entries are missed. */
  lemma SomethingMissed(xs: Entries, i: nat, j: nat, key: string) returns (ys: Entries)
    requires i <= j <= |xs| && !Spared(xs, i, j, key)
    ensures SameShape(xs, ys) && !NothingMissed(ys, i, j)
  {
    var q := LastStored(xs[..i], key);
    ys := Recast(xs, |xs|, q);
    assert SameShape(xs, ys);
    forall k | i <= k < j ensures !Writes(ys[k].command, key) {
      assert SameCommandShape(xs[k].command, ys[k].command) && xs[i..j][k - i] == xs[k];
    }
    forall k | q < k < i ensures !Writes(ys[k].command, key) {
      assert SameCommandShape(xs[k].command, ys[k].command) && xs[..i][k] == xs[k];
    }
    OnePassEnds(ys[..j], |xs|, q, key);
    Idle(None, ys[i..j], key);
    EntryOfFold(map[], ys[..j], key);
    EntryOfFold(map[], ys[i..j], key);
  }

  /** Exactly when, in operations and keys, nothing is missed. */
  lemma DispensableIff(xs: Entries, i: nat, j: nat)
    requires i <= j <= |xs|
    ensures Dispensable(xs, i, j) <==> forall ys :: SameShape(xs, ys) ==> NothingMissed(ys, i, j)
  {
    if Dispensable(xs, i, j) {
      forall ys | SameShape(xs, ys) ensures NothingMissed(ys, i, j) {
        ShapeDispensable(xs, ys, i, j);
        DispensableMissesNothing(ys, i, j);
      }
    } else {
      var key :| !Spared(xs, i, j, key);
      var ys := SomethingMissed(xs, i, j, key);
    }
  }

  // ---------------------------------------------------------------------
  // The restarted node
  // ---------------------------------------------------------------------

  /** The node compacted its log up to `i`, all of which it had applied, and holds the store at `d`. */
  ghost predicate Took(n: Node, xs: Entries, i: nat, d: nat, j: nat) {
    && i <= d <= j <= |xs| && n.log == Compact(FromSeq(xs), i, TermOf(xs, i)) && n.store == Fold(map[], xs[..d])
  }

  /** Its store after it restarts, `j` is committed again and the loop is called until it is done. */
  ghost function FinalStore(n: Node, i: nat, j: nat, keepStore: bool): Store {
    AfterCalls(Restart(n, keepStore).(commitIndex := j), i + 1).store
  }

  lemma FinalStoreIs(n: Node, xs: Entries, i: nat, d: nat, j: nat, keepStore: bool)
    requires Took(n, xs, i, d, j)
    ensures FinalStore(n, i, j, keepStore) == Fold(if keepStore then Fold(map[], xs[..d]) else map[], xs[i..j])
  {
    RestartedFrom(n, xs, i, j, keepStore);
    EndsWith(Restart(n, keepStore).(commitIndex := j), xs, i, j, i + 1);
  }

  /** A restarted node ends with the store of one pass over everything: with its store lost, exactly when
      the compacted entries are dispensable; with its store kept, exactly when the entries after them are
      replayable. */
  lemma CompactedRestartIff(xs: Entries, i: nat, j: nat, keepStore: bool)
    requires i <= j <= |xs|
    ensures (if keepStore then Replayable(xs[i..j]) else Dispensable(xs, i, j)) <==>
            forall ys, n, d: nat :: SameShape(xs, ys) && Took(n, ys, i, d, j) ==>
              FinalStore(n, i, j, keepStore) == Fold(map[], ys[..j])
  {
    ReplayIff(xs, i, j);
    DispensableIff(xs, i, j);
    if if keepStore then Replayable(xs[i..j]) else Dispensable(xs, i, j) {
      forall ys, n, d: nat | SameShape(xs, ys) && Took(n, ys, i, d, j)
        ensures FinalStore(n, i, j, keepStore) == Fold(map[], ys[..j])
      {
        FinalStoreIs(n, ys, i, d, j, keepStore);
        if keepStore { assert ReplaysRight(ys, i, d, j); } else { assert NothingMissed(ys, i, j); }
      }
    } else {
      var ys, d := Broken(xs, i, j, keepStore);
      var n := FRESH.(log := Compact(FromSeq(ys), i, TermOf(ys, i)), store := Fold(map[], ys[..d]));
      assert Took(n, ys, i, d, j);
      FinalStoreIs(n, ys, i, d, j, keepStore);
    }
  }

  lemma Broken(xs: Entries, i: nat, j: nat, keepStore: bool) returns (ys: Entries, d: nat)
    requires i <= j <= |xs| && !(if keepStore then Replayable(xs[i..j]) else Dispensable(xs, i, j))
    ensures SameShape(xs, ys) && i <= d <= j
    ensures if keepStore then !ReplaysRight(ys, i, d, j) else !NothingMissed(ys, i, j)
  {
    if keepStore {
      ReplayIff(xs, i, j);
      ys, d :| SameShape(xs, ys) && i <= d <= j && !ReplaysRight(ys, i, d, j);
    } else {
      DispensableIff(xs, i, j);
      ys :| SameShape(xs, ys) && !NothingMissed(ys, i, j);
      d := j;
    }
  }
}
