/** Outbox keys: 8-byte big-endian counters, which the store orders byte by byte. */
module OutboxKeys {
  import opened Lexical

  type Byte = n: nat | n < 256
  type Key = seq<Byte>

  const KeyBytes: nat := 8
  const KeyLimit: nat := 0x1_0000_0000_0000_0000

  /** The last `len` bytes of n, most significant first. */
  function BigEndian(n: nat, len: nat): (k: Key)
    ensures |k| == len
  {
    if len == 0 then [] else BigEndian(n / 256, len - 1) + [n % 256]
  }

  function Value(k: Key): nat {
    if k == [] then 0 else 256 * Value(k[..|k| - 1]) + k[|k| - 1]
  }

  function Number(b: Byte): int {
    b
  }

  /** The order of the store's cursor. */
  predicate Less(a: Key, b: Key) {
    Before(a, b, Number)
  }

  function Power(len: nat): nat {
    if len == 0 then 1 else 256 * Power(len - 1)
  }

  lemma {:induction false} ValueOfBigEndian(n: nat, len: nat)
    requires n < Power(len)
    ensures Value(BigEndian(n, len)) == n
  {
    if len == 0 {
    } else {
      var k := BigEndian(n / 256, len - 1);
      ValueOfBigEndian(n / 256, len - 1);
      assert (k + [n % 256])[..len - 1] == k;
    }
  }

  /** Keys of one length are ordered as the numbers they encode. */
  lemma {:induction false} LessIsNumeric(a: Key, b: Key)
    requires |a| == |b|
    ensures Less(a, b) <==> Value(a) < Value(b)
    ensures Value(a) == Value(b) ==> a == b
  {
    if a == [] {
    } else {
      var n := |a| - 1;
      LessIsNumeric(a[..n], b[..n]);
      assert a == a[..n] + [a[n]] && b == b[..n] + [b[n]];
      BeforeAppend(a[..n], b[..n], a[n], b[n], Number);
    }
  }

  function KeyOf(n: nat): Key {
    BigEndian(n, KeyBytes)
  }

  /** Below 2^64 the store's key order is the order of the counter, and no two counts share a key. */
  lemma KeyOrder(m: nat, n: nat)
    requires m < KeyLimit && n < KeyLimit
    ensures Less(KeyOf(m), KeyOf(n)) <==> m < n
    ensures KeyOf(m) == KeyOf(n) <==> m == n
    ensures Value(KeyOf(m)) == m
  {
    assert Power(8) == KeyLimit by {
      assert Power(4) == 0x1_0000_0000;
      assert Power(8) == 256 * 256 * 256 * 256 * Power(4);
    }
    ValueOfBigEndian(m, KeyBytes);
    ValueOfBigEndian(n, KeyBytes);
    LessIsNumeric(KeyOf(m), KeyOf(n));
  }
}
