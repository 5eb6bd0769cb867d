/**
 * Record keys of the "todos" bucket: `itob` (main.go:146-150) lays an id out as
 * the 8 big-endian bytes of `uint64(id)`, and bbolt orders keys as
 * `bytes.Compare` does, byte by byte from the front.
 */
module Keys {
  import opened Machine

  type Bytes = seq<Byte>

  /** 256 to the power n. */
  function Pow256(n: nat): (p: nat)
    ensures p >= 1
  {
    if n == 0 then 1 else 256 * Pow256(n - 1)
  }

  /** The n-byte big-endian layout of u, most significant byte first (u taken modulo 256^n). */
  function BytesOf(u: nat, n: nat): (b: Bytes)
    ensures |b| == n
  {
    if n == 0 then [] else BytesOf(u / 256, n - 1) + [u % 256]
  }

  /** The unsigned value of a big-endian byte string; on 8 bytes, `binary.BigEndian.Uint64`. */
  function ValueOf(b: Bytes): nat
  {
    if b == [] then 0 else ValueOf(b[..|b| - 1]) * 256 + b[|b| - 1]
  }

  /**
   * itob: a fresh 8-byte buffer filled by `binary.BigEndian.PutUint64(b, uint64(v))`,
   * byte i being `byte(uint64(v) >> (56 - 8 * i))`.
   */
  function Itob(v: Int64): (key: Bytes)
    ensures |key| == 8
  {
    var u := AsUint64(v);
    [ u / 0x100_0000_0000_0000 % 0x100, u / 0x1_0000_0000_0000 % 0x100,
      u / 0x100_0000_0000 % 0x100,      u / 0x1_0000_0000 % 0x100,
      u / 0x100_0000 % 0x100,           u / 0x1_0000 % 0x100,
      u / 0x100 % 0x100,                u % 0x100 ]
  }

  /** `bytes.Compare(a, b) < 0`: lexicographic order, a proper prefix sorting first. */
  function LexLess(a: Bytes, b: Bytes): bool
  {
    if a == [] then b != []
    else if b == [] then false
    else a[0] < b[0] || (a[0] == b[0] && LexLess(a[1..], b[1..]))
  }

  predicate StrictlyAscending(keys: seq<Bytes>)
  {
    forall i, j :: 0 <= i < j < |keys| ==> LexLess(keys[i], keys[j])
  }

  /** k is the first key of s in bbolt's order. */
  predicate IsLeast(k: Bytes, s: set<Bytes>)
  {
    k in s && forall o :: o in s ==> o == k || LexLess(k, o)
  }

  // ---------------------------------------------------------------------------
  // The key layout: itob is the 8-byte big-endian encoding, and it is invertible.

  lemma Pow256Eight()
    ensures Pow256(8) == TWO_TO_THE_64
  {
  }

  /** PutUint64's shifts and the byte-at-a-time layout agree. */
  lemma ItobIsBytesOf(v: Int64)
    ensures Itob(v) == BytesOf(AsUint64(v), 8)
  {
    var u := AsUint64(v);
    var q1, q2, q3 := u / 0x100, u / 0x1_0000, u / 0x100_0000;
    var q4, q5, q6, q7 := u / 0x1_0000_0000, u / 0x100_0000_0000, u / 0x1_0000_0000_0000, u / 0x100_0000_0000_0000;
    assert q1 / 0x100 == q2 && q2 / 0x100 == q3 && q3 / 0x100 == q4;
    assert q4 / 0x100 == q5 && q5 / 0x100 == q6 && q6 / 0x100 == q7;
    calc {
      BytesOf(u, 8);
      BytesOf(q1, 7) + [u % 256];
      BytesOf(q2, 6) + [q1 % 256, u % 256];
      BytesOf(q3, 5) + [q2 % 256, q1 % 256, u % 256];
      BytesOf(q4, 4) + [q3 % 256, q2 % 256, q1 % 256, u % 256];
      BytesOf(q5, 3) + [q4 % 256, q3 % 256, q2 % 256, q1 % 256, u % 256];
      BytesOf(q6, 2) + [q5 % 256, q4 % 256, q3 % 256, q2 % 256, q1 % 256, u % 256];
      BytesOf(q7, 1) + [q6 % 256, q5 % 256, q4 % 256, q3 % 256, q2 % 256, q1 % 256, u % 256];
      [q7 % 256, q6 % 256, q5 % 256, q4 % 256, q3 % 256, q2 % 256, q1 % 256, u % 256];
    }
  }

  lemma {:induction false} ValueOfBytesOf(u: nat, n: nat)
    requires u < Pow256(n)
    ensures ValueOf(BytesOf(u, n)) == u
  {
    if n > 0 {
      ValueOfBytesOf(u / 256, n - 1);
      var b := BytesOf(u / 256, n - 1) + [u % 256];
      assert b[..|b| - 1] == BytesOf(u / 256, n - 1);
    }
  }

  lemma {:induction false} BytesOfValueOf(b: Bytes)
    ensures BytesOf(ValueOf(b), |b|) == b
  {
    if b != [] {
      var p := b[..|b| - 1];
      BytesOfValueOf(p);
      assert b == p + [b[|b| - 1]];
    }
  }

  lemma {:induction false} ValueOfBound(b: Bytes)
    ensures ValueOf(b) < Pow256(|b|)
  {
    if b != [] {
      ValueOfBound(b[..|b| - 1]);
    }
  }

  /** Reading an itob key back as a big-endian uint64 gives `uint64(v)`, and `int` of that gives v. */
  lemma ItobDecodes(v: Int64)
    ensures ValueOf(Itob(v)) == AsUint64(v)
    ensures AsInt64(ValueOf(Itob(v))) == v
  {
    ItobIsBytesOf(v);
    Pow256Eight();
    ValueOfBytesOf(AsUint64(v), 8);
  }

  /** Every 8-byte key is itob of exactly one id. */
  lemma ItobOnto(key: Bytes)
    requires |key| == 8
    ensures ValueOf(key) < TWO_TO_THE_64
    ensures Itob(AsInt64(ValueOf(key))) == key
  {
    ValueOfBound(key);
    Pow256Eight();
    ItobIsBytesOf(AsInt64(ValueOf(key)));
    BytesOfValueOf(key);
  }

  /** Distinct ids get distinct keys. */
  lemma ItobInjective(a: Int64, b: Int64)
    ensures Itob(a) == Itob(b) <==> a == b
  {
    ItobDecodes(a);
    ItobDecodes(b);
  }

  /** The vectors of main_test.go:74-97, and the key of id -1. */
  lemma ItobExamples()
    ensures Itob(42) == [0, 0, 0, 0, 0, 0, 0, 42]
    ensures Itob(0) == [0, 0, 0, 0, 0, 0, 0, 0]
    ensures Itob(-1) == [255, 255, 255, 255, 255, 255, 255, 255]
  {
  }

  // ---------------------------------------------------------------------------
  // bbolt's key order is a strict total order.

  lemma {:induction false} LexLessIrreflexive(a: Bytes)
    ensures !LexLess(a, a)
  {
    if a != [] {
      LexLessIrreflexive(a[1..]);
    }
  }

  lemma {:induction false} LexLessAsymmetric(a: Bytes, b: Bytes)
    ensures !(LexLess(a, b) && LexLess(b, a))
  {
    if a != [] && b != [] && a[0] == b[0] {
      LexLessAsymmetric(a[1..], b[1..]);
    }
  }

  lemma {:induction false} LexLessTransitive(a: Bytes, b: Bytes, c: Bytes)
    requires LexLess(a, b) && LexLess(b, c)
    ensures LexLess(a, c)
  {
    if a != [] && a[0] == b[0] && b[0] == c[0] {
      LexLessTransitive(a[1..], b[1..], c[1..]);
    }
  }

  lemma {:induction false} LexLessTotal(a: Bytes, b: Bytes)
    requires a != b
    ensures LexLess(a, b) || LexLess(b, a)
  {
    if a != [] && b != [] && a[0] == b[0] {
      assert a == [a[0]] + a[1..] && b == [b[0]] + b[1..];
      LexLessTotal(a[1..], b[1..]);
    }
  }

  /** Keys in strictly ascending order are pairwise distinct, so there are as many of them as the set they make up. */
  lemma {:induction false} AscendingKeysCount(keys: seq<Bytes>)
    requires StrictlyAscending(keys)
    ensures |set k | k in keys| == |keys|
    decreases |keys|
  {
    if keys != [] {
      var n := |keys| - 1;
      var init := keys[..n];
      AscendingKeysCount(init);
      forall i | 0 <= i < n
        ensures init[i] != keys[n]
      {
        assert LexLess(keys[i], keys[n]);
        LexLessIrreflexive(keys[n]);
      }
      assert keys == init + [keys[n]];
      assert (set k | k in keys) == (set k | k in init) + {keys[n]};
    }
  }

  /** Every non-empty finite set of keys has a first key: the one a cursor visits first. */
  lemma {:induction false} LeastExists(s: set<Bytes>)
    requires s != {}
    ensures exists k :: IsLeast(k, s)
    decreases s
  {
    var x :| x in s;
    if s == {x} {
      assert IsLeast(x, s);
    } else {
      var rest := s - {x};
      LeastExists(rest);
      var m :| IsLeast(m, rest);
      if LexLess(x, m) {
        forall o | o in s
          ensures o == x || LexLess(x, o)
        {
          if o != x && o != m {
            LexLessTransitive(x, m, o);
          }
        }
        assert IsLeast(x, s);
      } else {
        LexLessTotal(x, m);
        assert IsLeast(m, s);
      }
    }
  }

  // ---------------------------------------------------------------------------
  // On keys of equal length the byte order is the order of their unsigned values.

  lemma {:induction false} LexLessSnoc(a: Bytes, b: Bytes, x: Byte, y: Byte)
    requires |a| == |b|
    ensures LexLess(a + [x], b + [y]) <==> LexLess(a, b) || (a == b && x < y)
  {
    if a != [] {
      assert (a + [x])[1..] == a[1..] + [x];
      assert (b + [y])[1..] == b[1..] + [y];
      LexLessSnoc(a[1..], b[1..], x, y);
      assert a == [a[0]] + a[1..] && b == [b[0]] + b[1..];
    }
  }

  lemma {:induction false} LexLessIffValueLess(a: Bytes, b: Bytes)
    requires |a| == |b|
    ensures LexLess(a, b) <==> ValueOf(a) < ValueOf(b)
  {
    if a != [] {
      var n := |a| - 1;
      var pa, pb := a[..n], b[..n];
      LexLessIffValueLess(pa, pb);
      LexLessSnoc(pa, pb, a[n], b[n]);
      assert a == pa + [a[n]] && b == pb + [b[n]];
      if ValueOf(pa) == ValueOf(pb) {
        BytesOfValueOf(pa);
        BytesOfValueOf(pb);
      }
    }
  }

  /** Key order is the order of the ids read as `uint64`. */
  lemma ItobOrdersLikeUnsigned(a: Int64, b: Int64)
    ensures LexLess(Itob(a), Itob(b)) <==> AsUint64(a) < AsUint64(b)
  {
    ItobDecodes(a);
    ItobDecodes(b);
    LexLessIffValueLess(Itob(a), Itob(b));
  }

  /** For non-negative ids, key order is ascending id order. */
  lemma ItobOrdersNonNegativeIds(a: Int64, b: Int64)
    requires 0 <= a && 0 <= b
    ensures LexLess(Itob(a), Itob(b)) <==> a < b
  {
    ItobOrdersLikeUnsigned(a, b);
  }

  /** A negative id, read as `uint64`, sorts after every non-negative one. */
  lemma NegativeIdsSortLast(a: Int64, b: Int64)
    requires 0 <= a && b < 0
    ensures LexLess(Itob(a), Itob(b))
  {
    ItobOrdersLikeUnsigned(a, b);
  }
}
