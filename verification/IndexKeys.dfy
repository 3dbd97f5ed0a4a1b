/** Log indices as eight-byte big-endian keys, so that the order of keys is the order of indices. */
module IndexKeys {
  import opened Types

  type Key = seq<Byte>

  const KEY_LENGTH := 8

  /** 2 to the power 64. */
  const INDEX_LIMIT: nat := 0x1_0000_0000_0000_0000

  /** Indices the source can hold. */
  type Index = i: nat | i < INDEX_LIMIT

  function Power256(k: nat): nat {
    if k == 0 then 1 else 256 * Power256(k - 1)
  }

  /** The lowest `k` bytes of `i`, most significant first. */
  function BigEndian(i: nat, k: nat): (b: Key)
    ensures |b| == k
  {
    if k == 0 then [] else BigEndian(i / 256, k - 1) + [i % 256]
  }

  function Number(b: Key): nat {
    if b == [] then 0 else 256 * Number(b[..|b| - 1]) + b[|b| - 1]
  }

  function IndexKey(i: Index): Key {
    BigEndian(i, KEY_LENGTH)
  }

  function KeyIndex(b: Key): nat {
    Number(b)
  }

  /** Byte-lexicographic order. */
  predicate Before(a: Key, b: Key) {
    if b == [] then false
    else if a == [] then true
    else a[0] < b[0] || (a[0] == b[0] && Before(a[1..], b[1..]))
  }

  lemma LimitIsPower()
    ensures Power256(KEY_LENGTH) == INDEX_LIMIT
  {
    assert Power256(4) == 0x1_0000_0000 by {
      assert Power256(1) == 256 && Power256(2) == 256 * Power256(1) && Power256(3) == 256 * Power256(2);
    }
    assert Power256(5) == 256 * Power256(4) && Power256(6) == 256 * Power256(5) && Power256(7) == 256 * Power256(6);
  }

  lemma {:induction false} NumberOfBigEndian(i: nat, k: nat)
    requires i < Power256(k)
    ensures Number(BigEndian(i, k)) == i
    decreases k
  {
    if k > 0 {
      NumberOfBigEndian(i / 256, k - 1);
      assert BigEndian(i, k)[..k - 1] == BigEndian(i / 256, k - 1);
    }
  }

  lemma {:induction false} BigEndianOfNumber(b: Key)
    ensures Number(b) < Power256(|b|)
    ensures BigEndian(Number(b), |b|) == b
    decreases |b|
  {
    if b != [] {
      var front, last := b[..|b| - 1], b[|b| - 1];
      BigEndianOfNumber(front);
      assert Number(b) == 256 * Number(front) + last;
      assert Number(b) / 256 == Number(front) && Number(b) % 256 == last;
      assert b == front + [last];
    }
  }

  /** Decoding undoes encoding for every 64-bit index, and encoding undoes decoding for every key. */
  lemma KeyRoundTrip(i: Index, b: Key)
    requires |b| == KEY_LENGTH
    ensures |IndexKey(i)| == KEY_LENGTH && KeyIndex(IndexKey(i)) == i
    ensures KeyIndex(b) < INDEX_LIMIT && IndexKey(KeyIndex(b)) == b
  {
    LimitIsPower();
    NumberOfBigEndian(i, KEY_LENGTH);
    BigEndianOfNumber(b);
  }

  lemma {:induction false} BeforeSnoc(a: Key, b: Key, x: Byte, y: Byte)
    requires |a| == |b|
    ensures Before(a + [x], b + [y]) <==> Before(a, b) || (a == b && x < y)
    decreases |a|
  {
    if a != [] {
      BeforeSnoc(a[1..], b[1..], x, y);
      assert (a + [x])[1..] == a[1..] + [x] && (b + [y])[1..] == b[1..] + [y];
      assert a == b <==> a[0] == b[0] && a[1..] == b[1..] by {
        if a[0] == b[0] && a[1..] == b[1..] { assert a == [a[0]] + a[1..] && b == [b[0]] + b[1..]; }
      }
    }
  }

  lemma {:induction false} BigEndianOrder(i: nat, j: nat, k: nat)
    requires i < Power256(k) && j < Power256(k)
    ensures Before(BigEndian(i, k), BigEndian(j, k)) <==> i < j
    decreases k
  {
    if k > 0 {
      BigEndianOrder(i / 256, j / 256, k - 1);
      BeforeSnoc(BigEndian(i / 256, k - 1), BigEndian(j / 256, k - 1), i % 256, j % 256);
      if BigEndian(i / 256, k - 1) == BigEndian(j / 256, k - 1) {
        NumberOfBigEndian(i / 256, k - 1);
        NumberOfBigEndian(j / 256, k - 1);
      }
    }
  }

  /** The order of keys is the order of the indices they encode. */
  lemma KeyOrder(i: Index, j: Index)
    ensures Before(IndexKey(i), IndexKey(j)) <==> i < j
  {
    LimitIsPower();
    BigEndianOrder(i, j, KEY_LENGTH);
  }

  /** The same on the keys. */
  lemma KeyOrderOf(a: Key, b: Key)
    requires |a| == KEY_LENGTH && |b| == KEY_LENGTH
    ensures Before(a, b) <==> KeyIndex(a) < KeyIndex(b)
    ensures a == b <==> KeyIndex(a) == KeyIndex(b)
  {
    KeyRoundTrip(0, a);
    KeyRoundTrip(0, b);
    KeyOrder(KeyIndex(a), KeyIndex(b));
  }
}
