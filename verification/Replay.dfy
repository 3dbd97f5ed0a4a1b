/** Applying a log, applying it again over what it left, and resuming it from a snapshot. */
module Replay {
  import opened Types
  import opened LogModel
  import opened StateMachine
  import opened NodeModel

  type Entries = seq<LogEntry>

  predicate Writes(c: Command, key: string) {
    (c.op == Put || c.op == Delete) && c.key == key
  }

  predicate Swaps(c: Command, key: string) {
    c.op == Cas && c.key == key
  }

  /** Some command of `xs` settles what `key` holds. */
  ghost predicate Touches(xs: Entries, key: string) {
    exists i :: 0 <= i < |xs| && Writes(xs[i].command, key)
  }

  /** The number of CASes on `key`. */
  function SwapCount(xs: Entries, key: string): nat {
    if xs == [] then 0
    else SwapCount(xs[..|xs| - 1], key) + if Swaps(xs[|xs| - 1].command, key) then 1 else 0
  }

  ghost predicate Settled(xs: Entries, key: string) {
    Touches(xs, key) || SwapCount(xs, key) <= 1
  }

  /** Every key with two CASes or more also has a Put or a Delete. */
  ghost predicate Replayable(xs: Entries) {
    forall key :: Settled(xs, key)
  }

  // ---------------------------------------------------------------------
  // One key at a time
  // ---------------------------------------------------------------------

  function Entry(s: Store, key: string): Option<Bytes> {
    if key in s then Some(s[key]) else None
  }

  /** The value compared by a CAS: an absent key holds the empty value. */
  function Held(e: Option<Bytes>): Bytes {
    if e.Some? then e.value else []
  }

  /** Whether a command succeeds, from what its key holds: a CAS only if that is the value it expects, an
      unknown operation never. */
  predicate Succeeds(c: Command, e: Option<Bytes>) {
    match c.op
    case Noop => true
    case Put => true
    case Delete => true
    case Cas => Held(e) == c.prevValue
    case Unknown => false
  }

  /** What one command makes of what a key holds. */
  function Effect(e: Option<Bytes>, c: Command, key: string): Option<Bytes> {
    if c.key != key then e
    else match c.op
      case Put => Some(c.value)
      case Delete => None
      case Cas => if Held(e) == c.prevValue then Some(c.value) else e
      case _ => e
  }

  function KeyFold(e: Option<Bytes>, xs: Entries, key: string): Option<Bytes> {
    if xs == [] then e else Effect(KeyFold(e, xs[..|xs| - 1], key), xs[|xs| - 1].command, key)
  }

  /** The store after a log, read key by key. */
  lemma {:induction false} EntryOfFold(s: Store, xs: Entries, key: string)
    ensures Entry(Fold(s, xs), key) == KeyFold(Entry(s, key), xs, key)
    decreases |xs|
  {
    if xs != [] { EntryOfFold(s, xs[..|xs| - 1], key); }
  }

  /** What a command answers, and what it leaves of every key, from what the keys held. */
  lemma CommandAnswers(s: Store, c: Command)
    ensures ApplyCommand(s, c).ok <==> Succeeds(c, Entry(s, c.key))
    ensures forall key :: Entry(ApplyCommand(s, c).store, key) == Effect(Entry(s, key), c, key)
    ensures !ApplyCommand(s, c).ok ==> ApplyCommand(s, c).store == s
  {
  }

  lemma SameEntriesSameStore(s: Store, s': Store)
    requires forall key :: Entry(s, key) == Entry(s', key)
    ensures s == s'
  {
    forall key | key in s ensures key in s' && s'[key] == s[key] {
      assert Entry(s, key) == Entry(s', key);
    }
    forall key | key in s' ensures key in s {
      assert Entry(s, key) == Entry(s', key);
    }
  }

  lemma {:induction false} FoldConcat(s: Store, xs: Entries, ys: Entries)
    ensures Fold(s, xs + ys) == Fold(Fold(s, xs), ys)
    decreases |ys|
  {
    if ys == [] {
      assert xs + ys == xs;
    } else {
      var zs := ys[..|ys| - 1];
      FoldConcat(s, xs, zs);
      assert (xs + ys)[..|xs + ys| - 1] == xs + zs;
    }
  }

  lemma {:induction false} KeyFoldConcat(e: Option<Bytes>, xs: Entries, ys: Entries, key: string)
    ensures KeyFold(e, xs + ys, key) == KeyFold(KeyFold(e, xs, key), ys, key)
    decreases |ys|
  {
    if ys == [] {
      assert xs + ys == xs;
    } else {
      var zs := ys[..|ys| - 1];
      KeyFoldConcat(e, xs, zs, key);
      assert (xs + ys)[..|xs + ys| - 1] == xs + zs;
    }
  }

  lemma {:induction false} SwapCountConcat(xs: Entries, ys: Entries, key: string)
    ensures SwapCount(xs + ys, key) == SwapCount(xs, key) + SwapCount(ys, key)
    decreases |ys|
  {
    if ys == [] {
      assert xs + ys == xs;
    } else {
      var zs := ys[..|ys| - 1];
      SwapCountConcat(xs, zs, key);
      assert (xs + ys)[..|xs + ys| - 1] == xs + zs;
    }
  }

  lemma TouchesConcat(xs: Entries, ys: Entries, key: string)
    ensures Touches(xs + ys, key) <==> Touches(xs, key) || Touches(ys, key)
  {
    var zs := xs + ys;
    if Touches(xs, key) {
      var i :| 0 <= i < |xs| && Writes(xs[i].command, key);
      assert Writes(zs[i].command, key);
    }
    if Touches(ys, key) {
      var i :| 0 <= i < |ys| && Writes(ys[i].command, key);
      assert Writes(zs[|xs| + i].command, key);
    }
    if Touches(zs, key) {
      var i :| 0 <= i < |zs| && Writes(zs[i].command, key);
      if i < |xs| { assert Writes(xs[i].command, key); } else { assert Writes(ys[i - |xs|].command, key); }
    }
  }

  lemma TouchesLast(xs: Entries, key: string)
    requires xs != []
    ensures Touches(xs, key) <==> Touches(xs[..|xs| - 1], key) || Writes(xs[|xs| - 1].command, key)
  {
    var last := [xs[|xs| - 1]];
    assert xs == xs[..|xs| - 1] + last;
    TouchesConcat(xs[..|xs| - 1], last, key);
    assert Touches(last, key) <==> Writes(last[0].command, key);
  }

  /** A Put or a Delete makes what went before irrelevant. */
  lemma {:induction false} TouchedForgets(e: Option<Bytes>, e': Option<Bytes>, xs: Entries, key: string)
    requires Touches(xs, key)
    ensures KeyFold(e, xs, key) == KeyFold(e', xs, key)
    decreases |xs|
  {
    TouchesLast(xs, key);
    if !Writes(xs[|xs| - 1].command, key) { TouchedForgets(e, e', xs[..|xs| - 1], key); }
  }

  lemma {:induction false} UntouchedStays(e: Option<Bytes>, xs: Entries, key: string)
    requires !Touches(xs, key) && SwapCount(xs, key) == 0
    ensures KeyFold(e, xs, key) == e
    decreases |xs|
  {
    if xs != [] {
      TouchesLast(xs, key);
      UntouchedStays(e, xs[..|xs| - 1], key);
    }
  }

  /** A single CAS that was applied before changes nothing when it is applied again. */
  lemma {:induction false} OneSwapTwice(e: Option<Bytes>, xs: Entries, k: nat, key: string)
    requires !Touches(xs, key) && SwapCount(xs, key) <= 1 && k <= |xs|
    ensures KeyFold(KeyFold(e, xs[..k], key), xs, key) == KeyFold(e, xs, key)
    decreases |xs|
  {
    if xs == [] {
      assert xs[..k] == xs;
    } else {
      var front, c := xs[..|xs| - 1], xs[|xs| - 1].command;
      TouchesLast(xs, key);
      if k < |xs| { assert xs[..k] == front[..k]; } else { assert xs[..k] == xs && front[..|front|] == front; }
      if Swaps(c, key) {
        UntouchedStays(e, front, key);
        UntouchedStays(KeyFold(e, xs[..k], key), front, key);
        if k < |xs| { assert front == front[..k] + front[k..]; KeepsQuiet(e, front, k, key); }
      } else {
        OneSwapTwice(e, front, Min(k, |front|), key);
      }
    }
  }

  lemma KeepsQuiet(e: Option<Bytes>, xs: Entries, k: nat, key: string)
    requires !Touches(xs, key) && SwapCount(xs, key) == 0 && k <= |xs|
    ensures KeyFold(e, xs[..k], key) == e
  {
    assert xs == xs[..k] + xs[k..];
    TouchesConcat(xs[..k], xs[k..], key);
    SwapCountConcat(xs[..k], xs[k..], key);
    UntouchedStays(e, xs[..k], key);
  }

  /** Applying again a stretch that was applied in part changes nothing, where the key is settled. */
  lemma SettledReplays(e: Option<Bytes>, xs: Entries, k: nat, key: string)
    requires Settled(xs, key) && k <= |xs|
    ensures KeyFold(KeyFold(e, xs[..k], key), xs, key) == KeyFold(e, xs, key)
  {
    if Touches(xs, key) { TouchedForgets(KeyFold(e, xs[..k], key), e, xs, key); } else { OneSwapTwice(e, xs, k, key); }
  }

  // ---------------------------------------------------------------------
  // One node
  // ---------------------------------------------------------------------

  /** The apply loop over a log that holds the entries it needs, whatever lies before them. */
  lemma {:induction false} ApplyStretch(n: Node, xs: Entries)
    requires n.lastApplied <= n.commitIndex <= |xs|
    requires forall k :: n.lastApplied < k <= n.commitIndex ==> k in n.log.entries && n.log.entries[k] == xs[k - 1]
    ensures ApplyCommitted(n) == n.(lastApplied := n.commitIndex, store := Fold(n.store, xs[n.lastApplied..n.commitIndex]))
    decreases n.commitIndex - n.lastApplied
  {
    var i, c := n.lastApplied, n.commitIndex;
    if i < c {
      assert i + 1 in n.log.entries;
      var s1 := ApplyCommand(n.store, xs[i].command).store;
      ApplyStretch(n.(lastApplied := i + 1, store := s1), xs);
      var e := [xs[i]];
      assert xs[i..c] == e + xs[i + 1..c];
      FoldConcat(n.store, e, xs[i + 1..c]);
      assert Fold(n.store, e) == s1 by { assert e[..0] == []; }
    } else {
      assert xs[i..c] == [];
    }
  }

  /** On a contiguous log the apply loop applies exactly the committed entries not yet applied, in order. */
  lemma ApplyPlain(n: Node, xs: Entries)
    requires n.log == FromSeq(xs) && n.lastApplied <= n.commitIndex <= |xs|
    ensures ApplyCommitted(n) == n.(lastApplied := n.commitIndex, store := Fold(n.store, xs[n.lastApplied..n.commitIndex]))
  {
    ApplyStretch(n, xs);
  }

  // ---------------------------------------------------------------------
  // Replaying what was applied before
  // ---------------------------------------------------------------------

  /** A store that stands at `d`, brought to `j` from `i`, is the store of one pass to `j`. */
  ghost predicate ReplaysRight(xs: Entries, i: nat, d: nat, j: nat)
    requires i <= j <= |xs| && d <= |xs|
  {
    Fold(Fold(map[], xs[..d]), xs[i..j]) == Fold(map[], xs[..j])
  }

  lemma ReplayOverlap(xs: Entries, i: nat, d: nat, j: nat)
    requires i <= d <= j <= |xs| && Replayable(xs[i..j])
    ensures ReplaysRight(xs, i, d, j)
  {
    var before, part, all := xs[..i], xs[i..d], xs[i..j];
    assert xs[..d] == before + part && xs[..j] == before + all && part == all[..d - i];
    var s, s' := Fold(Fold(map[], xs[..d]), all), Fold(map[], xs[..j]);
    forall key ensures Entry(s, key) == Entry(s', key) {
      var e := KeyFold(None, before, key);
      EntryOfFold(map[], xs[..d], key);
      EntryOfFold(Fold(map[], xs[..d]), all, key);
      EntryOfFold(map[], xs[..j], key);
      KeyFoldConcat(None, before, part, key);
      KeyFoldConcat(None, before, all, key);
      assert Settled(all, key);
      SettledReplays(e, all, d - i, key);
    }
    SameEntriesSameStore(s, s');
  }

  /** The same operations on the same keys. */
  ghost predicate SameShape(xs: Entries, ys: Entries) {
    |xs| == |ys| && forall i :: 0 <= i < |xs| ==> SameCommandShape(xs[i].command, ys[i].command)
  }

  predicate SameCommandShape(c: Command, d: Command) {
    c.op == d.op && c.key == d.key
  }

  lemma {:induction false} ShapeCounts(xs: Entries, ys: Entries, key: string)
    requires SameShape(xs, ys)
    ensures SwapCount(xs, key) == SwapCount(ys, key)
    decreases |xs|
  {
    if xs != [] {
      assert SameCommandShape(xs[|xs| - 1].command, ys[|ys| - 1].command);
      ShapeCounts(xs[..|xs| - 1], ys[..|ys| - 1], key);
    }
  }

  lemma ShapeTouches(xs: Entries, ys: Entries, key: string)
    requires SameShape(xs, ys) && Touches(xs, key)
    ensures Touches(ys, key)
  {
    var i :| 0 <= i < |xs| && Writes(xs[i].command, key);
    assert SameCommandShape(xs[i].command, ys[i].command) && Writes(ys[i].command, key);
  }

  lemma ShapeReplayable(xs: Entries, ys: Entries)
    requires SameShape(xs, ys) && Replayable(xs)
    ensures Replayable(ys)
  {
    forall key ensures Settled(ys, key) {
      assert Settled(xs, key);
      ShapeCounts(xs, ys, key);
      if Touches(xs, key) { ShapeTouches(xs, ys, key); }
    }
  }

  lemma ShapeSlice(xs: Entries, ys: Entries, i: nat, j: nat)
    requires SameShape(xs, ys) && i <= j <= |xs|
    ensures SameShape(xs[i..j], ys[i..j])
  {
    forall k | 0 <= k < j - i ensures SameCommandShape(xs[i..j][k].command, ys[i..j][k].command) {
      assert SameCommandShape(xs[i + k].command, ys[i + k].command);
    }
  }

  // ---------------------------------------------------------------------
  // Values that break a replay
  // ---------------------------------------------------------------------

  /** Two of the CASes on a key. */
  lemma {:induction false} TwoSwaps(xs: Entries, key: string) returns (p: nat, q: nat)
    requires SwapCount(xs, key) >= 2
    ensures p < q < |xs| && Swaps(xs[p].command, key) && Swaps(xs[q].command, key)
    decreases |xs|
  {
    var front := xs[..|xs| - 1];
    if Swaps(xs[|xs| - 1].command, key) {
      p := OneSwap(front, key);
      q := |xs| - 1;
    } else {
      p, q := TwoSwaps(front, key);
    }
  }

  lemma {:induction false} OneSwap(xs: Entries, key: string) returns (p: nat)
    requires SwapCount(xs, key) >= 1
    ensures p < |xs| && Swaps(xs[p].command, key)
    decreases |xs|
  {
    if Swaps(xs[|xs| - 1].command, key) { p := |xs| - 1; } else { p := OneSwap(xs[..|xs| - 1], key); }
  }

  /** The CAS at `p` waits for [1] and leaves [2], the one at `q` waits for nothing and leaves [1], and no
      other ever fires. */
  function Recast(xs: Entries, p: nat, q: nat): Entries {
    seq(|xs|, k requires 0 <= k < |xs| => xs[k].(command := Recommand(xs[k].command, k == p, k == q)))
  }

  function Recommand(c: Command, first: bool, second: bool): Command {
    if c.op != Put && c.op != Cas then c else
      c.(value := if first then [2] else if second then [1] else [],
         prevValue := if first then [1] else if second then [] else [3])
  }

  lemma {:induction false} Idle(e: Option<Bytes>, zs: Entries, key: string)
    requires forall k :: 0 <= k < |zs| ==> Effect(e, zs[k].command, key) == e
    ensures KeyFold(e, zs, key) == e
    decreases |zs|
  {
    if zs != [] { Idle(e, zs[..|zs| - 1], key); }
  }

  /** A command that leaves nothing or an empty value in a key that holds nothing or an empty value. */
  predicate Tame(c: Command) {
    (c.op == Put ==> c.value == []) && (c.op == Cas ==> c.prevValue != [])
  }

  lemma {:induction false} BlankBefore(ys: Entries, key: string)
    requires forall k :: 0 <= k < |ys| ==> Tame(ys[k].command)
    ensures KeyFold(None, ys, key) in {None, Some([])}
    decreases |ys|
  {
    if ys != [] {
      assert Tame(ys[|ys| - 1].command);
      BlankBefore(ys[..|ys| - 1], key);
    }
  }

  /** Whatever stood there, the command at `q` leaves [1] and nothing after it fires. */
  lemma OnePassEnds(ys: Entries, p: nat, q: nat, key: string)
    requires q < |ys| && ys[q].command.key == key && ys[q].command.op in {Put, Cas}
    requires p >= |ys| || (p < q && ys[p].command.op == Cas)
    requires forall k :: 0 <= k < |ys| ==> ys[k].command == Recommand(ys[k].command, k == p, k == q)
    requires forall k :: q < k < |ys| ==> !Writes(ys[k].command, key)
    ensures KeyFold(None, ys, key) == Some([1])
  {
    var a, b, c := ys[..q], [ys[q]], ys[q + 1..];
    assert ys == a + b + c;
    forall k | 0 <= k < |a| ensures Tame(a[k].command) { assert a[k] == ys[k]; }
    BlankBefore(a, key);
    KeyFoldConcat(None, a + b, c, key);
    KeyFoldConcat(None, a, b, key);
    assert b[..0] == [];
    Idle(Some([1]), c, key);
  }

  lemma ReplayEnds(ys: Entries, p: nat, q: nat, key: string)
    requires p < q < |ys| && Swaps(ys[p].command, key) && Swaps(ys[q].command, key)
    requires forall k :: 0 <= k < |ys| ==> ys[k].command == Recommand(ys[k].command, k == p, k == q)
    requires !Touches(ys, key)
    ensures KeyFold(Some([1]), ys, key) == Some([2])
  {
    forall k | 0 <= k < |ys| ensures !Writes(ys[k].command, key) { }
    var a, b, c := ys[..p], [ys[p]], ys[p + 1..];
    assert ys == a + b + c;
    Idle(Some([1]), a, key);
    KeyFoldConcat(Some([1]), a + b, c, key);
    KeyFoldConcat(Some([1]), a, b, key);
    assert b[..0] == [];
    Idle(Some([2]), c, key);
  }

  lemma RecastBreaks(ys: Entries, i: nat, j: nat, p: nat, q: nat, key: string)
    requires i <= p < q < j <= |ys| && Swaps(ys[p].command, key) && Swaps(ys[q].command, key)
    requires forall k :: 0 <= k < |ys| ==> ys[k].command == Recommand(ys[k].command, k == p, k == q)
    requires forall k :: i <= k < j ==> !Writes(ys[k].command, key)
    ensures !ReplaysRight(ys, i, j, j)
  {
    OnePassEnds(ys[..j], p, q, key);
    ReplayEnds(ys[i..j], p - i, q - i, key);
    EntryOfFold(map[], ys[..j], key);
    EntryOfFold(Fold(map[], ys[..j]), ys[i..j], key);
  }

  /** Operations and keys that fail the condition have values for which the replay goes wrong. */
  lemma ShapeBreaks(xs: Entries, i: nat, j: nat, key: string) returns (ys: Entries)
    requires i <= j <= |xs| && !Settled(xs[i..j], key)
    ensures SameShape(xs, ys) && !ReplaysRight(ys, i, j, j)
    ensures forall k :: 0 <= k < |xs| ==> ys[k].index == xs[k].index && ys[k].term == xs[k].term
    ensures forall k :: 0 <= k < |xs| && xs[k].command == NOOP ==> ys[k] == xs[k]
  {
    var p, q := TwoSwaps(xs[i..j], key);
    ys := Recast(xs, i + p, i + q);
    assert SameShape(xs, ys);
    forall k | i <= k < j ensures !Writes(ys[k].command, key) {
      assert SameCommandShape(xs[k].command, ys[k].command) && xs[i..j][k - i] == xs[k];
    }
    RecastBreaks(ys, i, j, i + p, i + q, key);
  }

  /** The exact condition, in operations and keys: a stretch is replayed right over every store that stands
      inside it, whatever the values, exactly when every key with two CASes or more also has a Put or a
      Delete there. */
  lemma ReplayIff(xs: Entries, i: nat, j: nat)
    requires i <= j <= |xs|
    ensures Replayable(xs[i..j]) <==>
            forall ys, d: nat :: SameShape(xs, ys) && i <= d <= j ==> ReplaysRight(ys, i, d, j)
  {
    if Replayable(xs[i..j]) {
      forall ys, d: nat | SameShape(xs, ys) && i <= d <= j ensures ReplaysRight(ys, i, d, j) {
        ShapeSlice(xs, ys, i, j);
        ShapeReplayable(xs[i..j], ys[i..j]);
        ReplayOverlap(ys, i, d, j);
      }
    } else {
      var key :| !Settled(xs[i..j], key);
      var ys := ShapeBreaks(xs, i, j, key);
    }
  }

  // ---------------------------------------------------------------------
  // Restarts over a store that survives them
  // ---------------------------------------------------------------------

  /** The store of a node that has applied the first `done` entries since it started, over whatever
      earlier passes, none of them past `high`, had left. */
  ghost predicate Replaying(s: Store, xs: Entries, done: nat, high: nat) {
    && done <= high <= |xs|
    && forall key :: ReplayingKey(s, xs, done, high, key)
  }

  ghost predicate ReplayingKey(s: Store, xs: Entries, done: nat, high: nat, key: string)
    requires done <= high <= |xs|
  {
    && (Touches(xs[..done], key) ==> Entry(s, key) == KeyFold(None, xs[..done], key))
    && (!Touches(xs[..high], key) && SwapCount(xs[..high], key) <= 1 ==> Entry(s, key) == KeyFold(None, xs[..high], key))
  }

  /** Once the replay has reached the highest entry ever applied, the store is that of one clean pass. */
  lemma CaughtUpStore(s: Store, xs: Entries, done: nat)
    requires done <= |xs| && Replayable(xs[..done]) && Replaying(s, xs, done, done)
    ensures s == Fold(map[], xs[..done])
  {
    forall key ensures Entry(s, key) == Entry(Fold(map[], xs[..done]), key) {
      assert ReplayingKey(s, xs, done, done, key) && Settled(xs[..done], key);
      EntryOfFold(map[], xs[..done], key);
    }
    SameEntriesSameStore(s, Fold(map[], xs[..done]));
  }

  /** What a second pass over `ys` makes of a key that a first pass over `a + ys + rest` has left. */
  lemma QuietKeyAdvances(a: Entries, ys: Entries, rest: Entries, k: nat, key: string)
    requires !Touches(a + ys + rest, key) && SwapCount(a + ys + rest, key) <= 1 && k <= |ys|
    ensures KeyFold(KeyFold(None, a + ys + rest, key), ys, key) == KeyFold(None, a + ys + rest, key)
    ensures KeyFold(KeyFold(None, a + ys[..k], key), ys, key) == KeyFold(None, a + ys, key)
  {
    TouchesConcat(a + ys, rest, key);
    TouchesConcat(a, ys, key);
    SwapCountConcat(a + ys, rest, key);
    SwapCountConcat(a, ys, key);
    KeyFoldConcat(None, a + ys, rest, key);
    KeyFoldConcat(None, a, ys, key);
    KeyFoldConcat(None, a, ys[..k], key);
    var e := KeyFold(None, a, key);
    OneSwapTwice(e, ys, k, key);
    OneSwapTwice(e, ys, |ys|, key);
    assert ys[..|ys|] == ys;
    if SwapCount(ys, key) == 0 {
      UntouchedStays(KeyFold(None, a + ys + rest, key), ys, key);
    } else {
      UntouchedStays(KeyFold(None, a + ys, key), rest, key);
    }
  }

  lemma TouchedKeyAdvances(s: Store, a: Entries, ys: Entries, key: string)
    requires Touches(a, key) ==> Entry(s, key) == KeyFold(None, a, key)
    requires Touches(a + ys, key)
    ensures KeyFold(Entry(s, key), ys, key) == KeyFold(None, a + ys, key)
  {
    TouchesConcat(a, ys, key);
    KeyFoldConcat(None, a, ys, key);
    if Touches(ys, key) { TouchedForgets(Entry(s, key), KeyFold(None, a, key), ys, key); }
  }

  /** A key that is quiet up to `top` keeps through a second pass what the first pass left. */
  lemma QuietKeyStays(e: Option<Bytes>, xs: Entries, done: nat, high: nat, next: nat, key: string)
    requires done <= high <= |xs| && done <= next <= |xs|
    requires var top := Max(high, next); !Touches(xs[..top], key) && SwapCount(xs[..top], key) <= 1
    requires e == KeyFold(None, xs[..high], key)
    ensures KeyFold(e, xs[done..next], key) == KeyFold(None, xs[..Max(high, next)], key)
  {
    var a, ys, top := xs[..done], xs[done..next], Max(high, next);
    var k := Min(high, next) - done;
    assert xs[..top] == a + ys + xs[next..top];
    QuietKeyAdvances(a, ys, xs[next..top], k, key);
    if high <= next { assert xs[..high] == a + ys[..k] && xs[..top] == a + ys; }
  }

  lemma QuietBelow(xs: Entries, high: nat, top: nat, key: string)
    requires high <= top <= |xs| && !Touches(xs[..top], key) && SwapCount(xs[..top], key) <= 1
    ensures !Touches(xs[..high], key) && SwapCount(xs[..high], key) <= 1
  {
    assert xs[..top] == xs[..high] + xs[high..top];
    TouchesConcat(xs[..high], xs[high..top], key);
    SwapCountConcat(xs[..high], xs[high..top], key);
  }

  lemma ReplayAdvancesKey(s: Store, xs: Entries, done: nat, high: nat, next: nat, key: string)
    requires done <= high <= |xs| && done <= next <= |xs| && ReplayingKey(s, xs, done, high, key)
    ensures ReplayingKey(Fold(s, xs[done..next]), xs, next, Max(high, next), key)
  {
    var top := Max(high, next);
    EntryOfFold(s, xs[done..next], key);
    if Touches(xs[..next], key) {
      assert xs[..next] == xs[..done] + xs[done..next];
      TouchedKeyAdvances(s, xs[..done], xs[done..next], key);
    }
    if !Touches(xs[..top], key) && SwapCount(xs[..top], key) <= 1 {
      QuietBelow(xs, high, top, key);
      QuietKeyStays(Entry(s, key), xs, done, high, next, key);
    }
  }

  /** Applying the next stretch of the log advances the replay. */
  lemma ReplayAdvances(s: Store, xs: Entries, done: nat, high: nat, next: nat)
    requires Replaying(s, xs, done, high) && done <= next <= |xs|
    ensures Replaying(Fold(s, xs[done..next]), xs, next, Max(high, next))
  {
    forall key ensures ReplayingKey(Fold(s, xs[done..next]), xs, next, Max(high, next), key) {
      assert ReplayingKey(s, xs, done, high, key);
      ReplayAdvancesKey(s, xs, done, high, next, key);
    }
  }

  /** Starting over keeps what is there. */
  lemma ReplayRestarts(s: Store, xs: Entries, done: nat, high: nat)
    requires Replaying(s, xs, done, high)
    ensures Replaying(s, xs, 0, high)
  {
    forall key ensures ReplayingKey(s, xs, 0, high, key) {
      assert ReplayingKey(s, xs, done, high, key);
    }
  }

  /** A node that has applied a prefix of its log to an empty store. */
  ghost predicate Standing(n: Node, xs: Entries, commit: nat) {
    && n.log == FromSeq(xs) && n.lastApplied <= commit <= |xs| && n.store == Fold(map[], xs[..n.lastApplied])
  }

  ghost function Replayed(n: Node, commit: nat): Store {
    ApplyCommitted(Restart(n, true).(commitIndex := commit)).store
  }

  lemma ReplayedIs(n: Node, xs: Entries, commit: nat)
    requires Standing(n, xs, commit)
    ensures Replayed(n, commit) == Fold(Fold(map[], xs[..n.lastApplied]), xs[0..commit])
  {
    ApplyPlain(Restart(n, true).(commitIndex := commit), xs);
  }

  /** Restart replay: a node whose store survives the restart and whose `lastApplied` does not ends, once
      it has applied at least as much again, with the store of a single pass. */
  lemma RestartReplay(n: Node, xs: Entries, commit: nat)
    requires Standing(n, xs, commit) && Replayable(xs[..commit])
    ensures Replayed(n, commit) == Fold(map[], xs[..commit])
  {
    ReplayedIs(n, xs, commit);
    assert xs[0..commit] == xs[..commit];
    ReplayOverlap(xs, 0, n.lastApplied, commit);
  }

  /** And only then, in operations and keys: for any other log some values and some node go wrong. */
  lemma RestartReplayIff(xs: Entries, commit: nat)
    requires commit <= |xs|
    ensures Replayable(xs[..commit]) <==>
            forall ys, n :: SameShape(xs, ys) && Standing(n, ys, commit) ==> Replayed(n, commit) == Fold(map[], ys[..commit])
  {
    assert xs[0..commit] == xs[..commit];
    if Replayable(xs[..commit]) {
      forall ys, n | SameShape(xs, ys) && Standing(n, ys, commit) ensures Replayed(n, commit) == Fold(map[], ys[..commit]) {
        assert ys[0..commit] == ys[..commit];
        ShapeSlice(xs, ys, 0, commit);
        ShapeReplayable(xs[..commit], ys[..commit]);
        RestartReplay(n, ys, commit);
      }
    } else {
      var key :| !Settled(xs[..commit], key);
      var ys := ShapeBreaks(xs, 0, commit, key);
      var n := FRESH.(log := FromSeq(ys), lastApplied := commit, store := Fold(map[], ys[..commit]));
      ReplayedIs(n, ys, commit);
      assert Standing(n, ys, commit);
    }
  }

  // ---------------------------------------------------------------------
  // Snapshots
  // ---------------------------------------------------------------------

  /** Snapshot catch-up: a store captured at index `i`, installed and then advanced to `j`,
      is the store of applying everything up to `j`. */
  lemma SnapshotCatchUp(self: NodeID, n: Node, req: SnapshotRequest, xs: Entries, j: nat)
    requires req.term >= n.currentTerm
    requires req.lastIncludedIndex <= j <= |xs|
    requires req.data == Encoded(Fold(map[], xs[..req.lastIncludedIndex]))
    requires forall k :: req.lastIncludedIndex < k <= j ==> k in n.log.entries && n.log.entries[k] == xs[k - 1]
    ensures var r := HandleSnapshot(self, n, req);
            && r.1.success && r.0.lastApplied == r.0.commitIndex == req.lastIncludedIndex
            && ApplyCommitted(r.0.(commitIndex := j)).store == Fold(map[], xs[..j])
            && ApplyCommitted(r.0.(commitIndex := j)).lastApplied == j
  {
    var i := req.lastIncludedIndex;
    ApplyStretch(HandleSnapshot(self, n, req).0.(commitIndex := j), xs);
    assert xs[..j] == xs[..i] + xs[i..j];
    FoldConcat(map[], xs[..i], xs[i..j]);
  }

  /** A snapshot whose data was read late, at `d`, though it is labelled `i`: if the entries in between
      and after are replayable, the node still ends with the right store once it has applied up to `d` or
      further. */
  lemma LateSnapshotCatchUp(self: NodeID, n: Node, req: SnapshotRequest, xs: Entries, d: nat, j: nat)
    requires LateInstall(n, req, xs, d, j) && Replayable(xs[req.lastIncludedIndex..j])
    ensures ApplyCommitted(HandleSnapshot(self, n, req).0.(commitIndex := j)).store == Fold(map[], xs[..j])
  {
    LateInstallIs(self, n, req, xs, d, j);
    ReplayOverlap(xs, req.lastIncludedIndex, d, j);
  }

  /** The node accepts the snapshot and holds the entries after it. */
  ghost predicate LateInstall(n: Node, req: SnapshotRequest, xs: Entries, d: nat, j: nat) {
    && req.term >= n.currentTerm && req.lastIncludedIndex <= d <= j <= |xs|
    && req.data == Encoded(Fold(map[], xs[..d]))
    && (forall k :: req.lastIncludedIndex < k <= j ==> k in n.log.entries && n.log.entries[k] == xs[k - 1])
  }

  lemma LateInstallIs(self: NodeID, n: Node, req: SnapshotRequest, xs: Entries, d: nat, j: nat)
    requires LateInstall(n, req, xs, d, j)
    ensures ApplyCommitted(HandleSnapshot(self, n, req).0.(commitIndex := j)).store ==
            Fold(Fold(map[], xs[..d]), xs[req.lastIncludedIndex..j])
  {
    ApplyStretch(HandleSnapshot(self, n, req).0.(commitIndex := j), xs);
  }

  /** And only then, in operations and keys. */
  lemma LateSnapshotIff(self: NodeID, xs: Entries, i: nat, j: nat)
    requires i <= j <= |xs|
    ensures Replayable(xs[i..j]) <==>
            forall ys, n, req: SnapshotRequest, d: nat ::
              SameShape(xs, ys) && req.lastIncludedIndex == i && LateInstall(n, req, ys, d, j) ==>
              ApplyCommitted(HandleSnapshot(self, n, req).0.(commitIndex := j)).store == Fold(map[], ys[..j])
  {
    if Replayable(xs[i..j]) {
      forall ys, n, req: SnapshotRequest, d: nat |
        SameShape(xs, ys) && req.lastIncludedIndex == i && LateInstall(n, req, ys, d, j)
        ensures ApplyCommitted(HandleSnapshot(self, n, req).0.(commitIndex := j)).store == Fold(map[], ys[..j])
      {
        ShapeSlice(xs, ys, i, j);
        ShapeReplayable(xs[i..j], ys[i..j]);
        LateSnapshotCatchUp(self, n, req, ys, d, j);
      }
    } else {
      var key :| !Settled(xs[i..j], key);
      var ys := ShapeBreaks(xs, i, j, key);
      var n := FRESH.(log := FromSeq(ys));
      var req := SnapshotRequest(0, NO_NODE, i, 0, Encoded(Fold(map[], ys[..j])));
      assert LateInstall(n, req, ys, j, j);
      LateInstallIs(self, n, req, ys, j, j);
    }
  }
}
