/**
 The string hash of the map (tecc_map.c:43-50): FNV-1a, one byte after the other, in 64-bit unsigned
 arithmetic. A word is a number below 2^64 and multiplication is reduced modulo 2^64.
 */
module Fnv {
  import opened Bytes

  const RANGE: int := 0x1_0000_0000_0000_0000
  const OFFSET_BASIS: nat := 14695981039346656037
  const PRIME: int := 1099511628211

  /** PRIME is odd; this is its inverse modulo RANGE. */
  const INVERSE: int := 14886173955864302971

  type Word = w: nat | w < RANGE

  /** Exclusive or, bit by bit. */
  function Xor(a: nat, b: nat): nat {
    if a == 0 && b == 0 then 0 else (if a % 2 == b % 2 then 0 else 1) + 2 * Xor(a / 2, b / 2)
  }

  /** Bit `i` of a number. */
  function Bit(a: nat, i: nat): nat {
    if i == 0 then a % 2 else Bit(a / 2, i - 1)
  }

  /** A bit of the result is 1 exactly where the two bits differ. */
  lemma {:induction false} XorBit(a: nat, b: nat, i: nat)
    ensures Bit(Xor(a, b), i) == if Bit(a, i) == Bit(b, i) then 0 else 1
  {
    if a == 0 && b == 0 {
      ZeroBit(i);
    } else if i > 0 {
      XorBit(a / 2, b / 2, i - 1);
    }
  }

  lemma {:induction false} ZeroBit(i: nat)
    ensures Bit(0, i) == 0
  {
    if i > 0 {
      ZeroBit(i - 1);
    }
  }

  function Pow2(n: nat): nat {
    if n == 0 then 1 else 2 * Pow2(n - 1)
  }

  lemma {:induction false} PowAdd(m: nat, n: nat)
    ensures Pow2(m + n) == Pow2(m) * Pow2(n)
  {
    if m > 0 {
      PowAdd(m - 1, n);
    }
  }

  lemma WordBits()
    ensures Pow2(64) == RANGE
  {
    assert Pow2(8) == 0x100;
    PowAdd(8, 8);
    PowAdd(16, 16);
    PowAdd(32, 32);
  }

  lemma {:induction false} XorBound(a: nat, b: nat, n: nat)
    requires a < Pow2(n) && b < Pow2(n)
    ensures Xor(a, b) < Pow2(n)
  {
    if n > 0 && (a != 0 || b != 0) {
      XorBound(a / 2, b / 2, n - 1);
    }
  }

  function Absorb(h: Word, b: Byte): Word {
    Xor(h, b) * PRIME % RANGE
  }

  function Fold(h: Word, s: seq<Byte>): Word {
    if s == [] then h else Absorb(Fold(h, s[..|s| - 1]), s[|s| - 1])
  }

  function Hash(s: seq<Byte>): Word {
    Fold(OFFSET_BASIS, s)
  }

  /** The loop over a C string. */
  method HashString(s: seq<Byte>) returns (h: Word)
    requires 0 in s
    ensures h == Hash(Text(s))
  {
    h := OFFSET_BASIS;
    var i := 0;
    while s[i] != 0
      invariant 0 <= i < |s| && 0 !in s[..i] && 0 in s[i..]
      invariant h == Hash(s[..i])
      decreases |s| - i
    {
      assert s[..i + 1][..i] == s[..i];
      assert s[i..] == [s[i]] + s[i + 1..];
      var x := Xor(h, s[i]);
      h := x * PRIME % RANGE;
      i := i + 1;
    }
    TextEnds(s, i);
  }

  // ----- Published values of the hash

  /** A number of `n` bits only changes the low `n` bits. */
  lemma {:induction false} XorLow(g: nat, r: nat, b: nat, n: nat)
    requires r < Pow2(n) && b < Pow2(n)
    ensures Pow2(n) * g >= 0 && Xor(Pow2(n) * g + r, b) == Pow2(n) * g + Xor(r, b)
  {
    if n == 0 {
      XorZero(g);
    } else {
      var m := Pow2(n - 1) * g;
      assert Pow2(n) * g == 2 * m;
      XorLow(g, r / 2, b / 2, n - 1);
      assert (2 * m + r) / 2 == m + r / 2 && (2 * m + r) % 2 == r % 2;
      if 2 * m + r == 0 && b == 0 {
        assert Xor(r, b) == 0;
      }
    }
  }

  lemma {:induction false} XorZero(h: nat)
    ensures Xor(h, 0) == h
  {
    if h > 0 {
      XorZero(h / 2);
    }
  }

  /** One step of the hash on given numbers: `h` is `high` and a byte `r`, and `x` that byte with `b`. */
  lemma Step(high: nat, r: Byte, b: Byte, x: Byte, wraps: nat, product: Word)
    requires 0x100 * high + r < RANGE && Xor(r, b) == x && (0x100 * high + x) * PRIME == RANGE * wraps + product
    ensures Absorb(0x100 * high + r, b) == product
  {
    assert Pow2(8) == 0x100;
    XorLow(high, r, b, 8);
  }

  lemma FoldStep(h: Word, s: seq<Byte>, b: Byte)
    ensures Fold(h, s + [b]) == Absorb(Fold(h, s), b)
  {
    assert (s + [b])[..|s|] == s;
  }

  /** The empty string and "a". */
  lemma KnownHashes()
    ensures Hash([]) == 0xcbf29ce484222325
    ensures Hash([0x61]) == 0xaf63dc4c8601ec8c
  {
    hide Fold, Absorb;
    HashOfNothing();
    XorOfA();
    hide Xor;
    Step(0xcbf29ce4842223, 0x25, 0x61, 0x44, 0xcbf29ce5de, 0xaf63dc4c8601ec8c);
    FoldStep(OFFSET_BASIS, [], 0x61);
    assert [] + [0x61] == [0x61];
  }

  lemma XorOfA()
    ensures Xor(0x25, 0x61) == 0x44
  {
    assert Xor(1, 3) == 2;
    assert Xor(2, 6) == 4;
    assert Xor(4, 12) == 8;
    assert Xor(9, 24) == 17;
    assert Xor(18, 48) == 34;
  }

  lemma HashOfNothing()
    ensures Hash([]) == Fold(OFFSET_BASIS, []) == OFFSET_BASIS
  {
  }

  // ----- Absorbing a byte can be undone

  lemma {:induction false} XorInjective(a: nat, b: nat, c: nat, d: nat)
    requires a == c || b == d
    ensures Xor(a, b) == Xor(c, d) <==> a == c && b == d
  {
    if a != 0 || b != 0 || c != 0 || d != 0 {
      XorInjective(a / 2, b / 2, c / 2, d / 2);
      assert a == 2 * (a / 2) + a % 2 && b == 2 * (b / 2) + b % 2;
      assert c == 2 * (c / 2) + c % 2 && d == 2 * (d / 2) + d % 2;
    }
  }

  /** A multiple of PRIME is a multiple of RANGE only if its factor is. */
  lemma Cancel(d: int, k: int)
    requires -RANGE < d < RANGE && d * PRIME == k * RANGE
    ensures d == 0
  {
    var wraps: int := PRIME * INVERSE / RANGE;
    assert PRIME * INVERSE == wraps * RANGE + 1;
    var e: int := k * INVERSE - d * wraps;
    assert d == e * RANGE;
  }

  lemma TimesInjective(x: Word, y: Word)
    requires x * PRIME % RANGE == y * PRIME % RANGE
    ensures x == y
  {
    var p, q := x * PRIME / RANGE, y * PRIME / RANGE;
    assert x * PRIME == p * RANGE + x * PRIME % RANGE;
    assert y * PRIME == q * RANGE + y * PRIME % RANGE;
    Cancel(x - y, p - q);
  }

  lemma Injective(h: Word, b: Byte, g: Word, c: Byte)
    requires h == g || b == c
    ensures Absorb(h, b) == Absorb(g, c) <==> h == g && b == c
  {
    WordBits();
    XorBound(h, b, 64);
    XorBound(g, c, 64);
    if Absorb(h, b) == Absorb(g, c) {
      TimesInjective(Xor(h, b), Xor(g, c));
      XorInjective(h, b, g, c);
    }
  }

  lemma {:induction false} FoldInjective(h: Word, g: Word, s: seq<Byte>)
    ensures Fold(h, s) == Fold(g, s) <==> h == g
  {
    if s != [] {
      var n := |s| - 1;
      FoldInjective(h, g, s[..n]);
      Injective(Fold(h, s[..n]), s[n], Fold(g, s[..n]), s[n]);
    }
  }

  lemma {:induction false} FoldConcat(h: Word, s: seq<Byte>, t: seq<Byte>)
    ensures Fold(h, s + t) == Fold(Fold(h, s), t)
  {
    if t == [] {
      assert s + t == s;
    } else {
      var n := |t| - 1;
      assert (s + t)[..|s + t| - 1] == s + t[..n];
      FoldConcat(h, s, t[..n]);
    }
  }

  /** A common ending never makes or hides a collision, whatever the lengths of the beginnings. */
  lemma CommonEnding(s: seq<Byte>, t: seq<Byte>, ending: seq<Byte>)
    ensures Hash(s + ending) == Hash(t + ending) <==> Hash(s) == Hash(t)
  {
    FoldConcat(OFFSET_BASIS, s, ending);
    FoldConcat(OFFSET_BASIS, t, ending);
    FoldInjective(Hash(s), Hash(t), ending);
  }

  /** Two strings of equal length that differ in exactly one byte never collide. */
  lemma OneByteDiffers(s: seq<Byte>, t: seq<Byte>, i: nat)
    requires |s| == |t| && i < |s| && s[i] != t[i]
    requires forall j :: 0 <= j < |s| && j != i ==> s[j] == t[j]
    ensures Hash(s) != Hash(t)
  {
    var a, b := s[..i + 1], t[..i + 1];
    assert a[..i] == s[..i] == b[..i] == t[..i];
    Injective(Hash(s[..i]), s[i], Hash(s[..i]), t[i]);
    assert s == a + s[i + 1..] && t == b + s[i + 1..];
    CommonEnding(a, b, s[i + 1..]);
  }
}
