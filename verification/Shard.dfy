/** Keyed sharding (shard/shard.go): a stable index from a 32-bit hash, and a subject carrying it. */
module Shard {
  import opened Basics
  import opened Decimal
  import opened Subjects

  const FNV_OFFSET := 2166136261
  const FNV_PRIME := 16777619
  const TWO_32 := 0x1_0000_0000

  type Byte = x: nat | x < 256

  /** Exclusive-or, bit by bit. */
  function Xor(a: nat, b: nat): nat
    decreases a + b
  {
    if a + b == 0 then 0 else (a % 2 + b % 2) % 2 + 2 * Xor(a / 2, b / 2)
  }

  /** Exclusive-or with a byte changes the low byte only. */
  function XorByte(h: nat, b: Byte): nat {
    h - h % 256 + Xor(h % 256, b)
  }

  /** One round of 32-bit FNV-1a, with the product taken modulo 2^32. */
  function Mix(h: nat, b: Byte): nat {
    XorByte(h, b) * FNV_PRIME % TWO_32
  }

  function Fnv(key: seq<Byte>): (r: nat)
    ensures r < TWO_32
  {
    if key == [] then FNV_OFFSET else Mix(Fnv(key[..|key| - 1]), key[|key| - 1])
  }

  method Fnv32a(key: seq<Byte>) returns (hash: nat)
    ensures hash == Fnv(key)
  {
    hash := FNV_OFFSET;
    for i := 0 to |key|
      invariant hash == Fnv(key[..i])
    {
      assert key[..i + 1][..i] == key[..i];
      hash := XorByte(hash, key[i]);
      hash := hash * FNV_PRIME % TWO_32;
    }
    assert key[..|key|] == key;
  }

  /** The inverse of the prime modulo 2^32. */
  const FNV_INVERSE := 899433627

  lemma ProductUndone(x: nat)
    requires x < TWO_32
    ensures x * FNV_PRIME % TWO_32 * FNV_INVERSE % TWO_32 == x
  {
    var p := x * FNV_PRIME;
    var q := p / TWO_32;
    assert p == q * TWO_32 + p % TWO_32;
    var c := FNV_PRIME * FNV_INVERSE / TWO_32;
    assert FNV_PRIME * FNV_INVERSE == c * TWO_32 + 1;
    assert p * FNV_INVERSE == x * (FNV_PRIME * FNV_INVERSE) == (x * c) * TWO_32 + x;
    assert p % TWO_32 * FNV_INVERSE == p * FNV_INVERSE - (q * FNV_INVERSE) * TWO_32;
    assert p % TWO_32 * FNV_INVERSE == (x * c - q * FNV_INVERSE) * TWO_32 + x;
    Remainder(x * c - q * FNV_INVERSE, x);
  }

  lemma Remainder(k: int, x: nat)
    requires x < TWO_32
    ensures (k * TWO_32 + x) % TWO_32 == x
  {}

  lemma {:induction false} XorBelow(a: nat, b: nat, k: nat)
    requires a < Pow2(k) && b < Pow2(k)
    ensures Xor(a, b) < Pow2(k)
  {
    if k > 0 {
      XorBelow(a / 2, b / 2, k - 1);
    }
  }

  lemma {:induction false} XorSame(a: nat, c: nat, b: nat, d: nat)
    requires Xor(a, b) == Xor(c, d)
    ensures a == c <==> b == d
    decreases a + b + c + d
  {
    if a + b + c + d > 0 {
      XorHalves(a, b);
      XorHalves(c, d);
      XorSame(a / 2, c / 2, b / 2, d / 2);
      Halves(a, c);
      Halves(b, d);
      Parity(a % 2, b % 2, c % 2, d % 2);
    }
  }

  lemma Halves(a: nat, c: nat)
    ensures a == c <==> a / 2 == c / 2 && a % 2 == c % 2
  {}

  lemma Parity(a: nat, b: nat, c: nat, d: nat)
    requires a < 2 && b < 2 && c < 2 && d < 2 && (a + b) % 2 == (c + d) % 2
    ensures a == c <==> b == d
  {}

  lemma XorHalves(a: nat, b: nat)
    ensures Xor(a, b) % 2 == (a % 2 + b % 2) % 2 && Xor(a, b) / 2 == Xor(a / 2, b / 2)
  {}

  lemma ByteXor(low: Byte, b: Byte)
    ensures Xor(low, b) < 256
  {
    assert Pow2(4) == 16 && Pow2(8) == 16 * Pow2(4);
    XorBelow(low, b, 8);
  }

  lemma Parts(q: nat, p: nat, x: nat, y: nat)
    requires x < 256 && y < 256 && q * 256 + x == p * 256 + y
    ensures q == p && x == y
  {}

  lemma XorByteBelow(h: nat, b: Byte)
    requires h < TWO_32
    ensures XorByte(h, b) < TWO_32
  {
    ByteXor(h % 256, b);
    assert h / 256 < 0x100_0000;
  }

  lemma XorByteSame(h: nat, g: nat, a: Byte, b: Byte)
    requires XorByte(h, a) == XorByte(g, b)
    ensures h == g <==> a == b
  {
    ByteXor(h % 256, a);
    ByteXor(g % 256, b);
    Parts(h / 256, g / 256, Xor(h % 256, a), Xor(g % 256, b));
    XorSame(h % 256, g % 256, a, b);
  }

  /** A round loses nothing: neither the hash before it nor the byte. */
  lemma MixInjective(h: nat, g: nat, a: Byte, b: Byte)
    requires h < TWO_32 && g < TWO_32 && Mix(h, a) == Mix(g, b)
    ensures h == g <==> a == b
  {
    XorByteBelow(h, a);
    XorByteBelow(g, b);
    ProductUndone(XorByte(h, a));
    ProductUndone(XorByte(g, b));
    XorByteSame(h, g, a, b);
  }

  lemma FnvLast(key: seq<Byte>, b: Byte)
    ensures Fnv(key + [b]) == Mix(Fnv(key), b)
  {
    assert (key + [b])[..|key|] == key;
  }

  /** Keys that differ in exactly one byte have different hashes. */
  lemma {:induction false} OneByteApart(p: seq<Byte>, a: Byte, b: Byte, rest: seq<Byte>)
    requires a != b
    ensures Fnv(p + [a] + rest) != Fnv(p + [b] + rest)
  {
    if rest == [] {
      assert p + [a] + rest == p + [a] && p + [b] + rest == p + [b];
      Differ(p, p, a, b);
    } else {
      var n := |rest| - 1;
      var x, y := p + [a] + rest[..n], p + [b] + rest[..n];
      OneByteApart(p, a, b, rest[..n]);
      assert p + [a] + rest == x + [rest[n]] && p + [b] + rest == y + [rest[n]];
      Differ(x, y, rest[n], rest[n]);
    }
  }

  /** Of two keys, either what comes before the last byte or the last byte has the same hash: one of them only. */
  lemma Differ(x: seq<Byte>, y: seq<Byte>, a: Byte, b: Byte)
    requires Fnv(x) == Fnv(y) <==> a != b
    ensures Fnv(x + [a]) != Fnv(y + [b])
  {
    FnvLast(x, a);
    FnvLast(y, b);
    if Mix(Fnv(x), a) == Mix(Fnv(y), b) {
      MixInjective(Fnv(x), Fnv(y), a, b);
    }
  }

  /** The low bit and the rest of an exclusive-or. */
  lemma XorBit(a: nat, b: nat, r: nat)
    requires Xor(a / 2, b / 2) == r
    ensures Xor(a, b) == (a % 2 + b % 2) % 2 + 2 * r
  {}

  lemma HighXor(x: nat, y: nat)
    requires x == 0xC && y == 0x6
    ensures Xor(x, y) == 0xA
  {
    XorBit(x / 2 / 2 / 2, y / 2 / 2 / 2, 0);
    XorBit(x / 2 / 2, y / 2 / 2, 1);
    XorBit(x / 2, y / 2, 2);
    XorBit(x, y, 5);
  }

  lemma LowXor(x: nat, y: nat)
    requires x == 0xC5 && y == 0x61
    ensures Xor(x, y) == 0xA4
  {
    HighXor(x / 2 / 2 / 2 / 2, y / 2 / 2 / 2 / 2);
    XorBit(x / 2 / 2 / 2, y / 2 / 2 / 2, 10);
    XorBit(x / 2 / 2, y / 2 / 2, 20);
    XorBit(x / 2, y / 2, 41);
    XorBit(x, y, 82);
  }

  lemma KnownMix(h: nat, a: Byte)
    requires h == 0x811C9DC5 && a == 0x61
    ensures Mix(h, a) == 0xE40C292C
  {
    KnownXor(h, a);
    KnownProduct(XorByte(h, a));
  }

  lemma KnownXor(h: nat, a: Byte)
    requires h == 0x811C9DC5 && a == 0x61
    ensures XorByte(h, a) == 0x811C9DA4
  {
    assert h % 256 == 0xC5;
    LowXor(h % 256, a);
  }

  lemma KnownProduct(x: nat)
    requires x == 0x811C9DA4
    ensures x * FNV_PRIME % TWO_32 == 0xE40C292C
  {}

  /** The published values of 32-bit FNV-1a for the empty string and for "a". */
  lemma KnownHashes(a: Byte)
    requires a == 0x61
    ensures Fnv([]) == 0x811C9DC5 && Fnv([a]) == 0xE40C292C
  {
    KnownMix(Fnv([]), a);
    FnvLast([], a);
    assert [] + [a] == [a];
  }

  datatype Indexed = Index(i: nat) | DivideByZero

  /** uint32(numShards) keeps the low 32 bits, so a positive multiple of 2^32 divides by zero. */
  function IndexOf(key: seq<Byte>, numShards: int): (r: Indexed)
    ensures numShards <= 0 ==> r == Index(0)
    ensures numShards > 0 ==> (r == DivideByZero <==> numShards % TWO_32 == 0)
    ensures numShards > 0 && r.Index? ==> r.i < numShards && r.i < TWO_32
  {
    if numShards <= 0 then Index(0)
    else
      var n := numShards % TWO_32;
      if n == 0 then DivideByZero else Index(Fnv(key) % n)
  }

  lemma Division(x: nat, n: nat)
    requires n > 0
    ensures x % n < n && x == n * (x / n) + x % n
  {}

  /** The index is the hash up to a multiple of the number of shards, so it depends on the whole key. */
  lemma IndexIsResidue(key: seq<Byte>, numShards: nat)
    requires 0 < numShards < TWO_32
    ensures IndexOf(key, numShards).Index?
    ensures var i := IndexOf(key, numShards).i; i < numShards && Fnv(key) == numShards * (Fnv(key) / numShards) + i
  {
    Division(Fnv(key), numShards);
  }

  /** The digits of `n`, written from the end of a 20-byte buffer. */
  method Itoa(n0: nat) returns (s: string)
    requires n0 <= 0x7FFF_FFFF_FFFF_FFFF
    ensures s == Render(n0)
  {
    if n0 == 0 {
      return "0";
    }
    var buf := new char[20];
    var i, n: nat := 20, n0;
    TwentyDigits();
    while n > 0
      invariant 0 <= i <= 20 && n < Pow10(i) && (n == 0 ==> i < 20)
      invariant Render(n0) == if n == 0 then buf[i..] else Render(n) + buf[i..]
      decreases n
    {
      assert i > 0;
      i := i - 1;
      buf[i] := DigitChar(n % 10);
      assert buf[i..] == [DigitChar(n % 10)] + buf[i + 1..];
      n := n / 10;
    }
    return buf[i..];
  }

  function SubjectOf(prefix: string, index: nat, action: string): string {
    if action == "" then prefix + "." + Render(index) else prefix + "." + Render(index) + "." + action
  }

  method Subject(prefix: string, key: seq<Byte>, numShards: int, action: string) returns (r: string)
    requires IndexOf(key, numShards).Index?
    ensures r == SubjectOf(prefix, IndexOf(key, numShards).i, action)
  {
    var idx := IndexOf(key, numShards).i;
    var digits := Itoa(idx);
    if action == "" {
      return prefix + "." + digits;
    }
    return prefix + "." + digits + "." + action;
  }

  lemma DigitsAreToken(n: nat)
    ensures DotFree(Render(n)) && TokenOk(Render(n), false)
  {
    var t := Render(n);
    forall i | 0 <= i < |t| ensures '!' <= t[i] <= '~' && t[i] != '.' && t[i] != '*' && t[i] != '>' {
      assert IsDigit(t[i]);
    }
    PrintableHasNoSpace(t);
  }

  /** The subject of valid literal parts, within the length limit, is a valid literal subject; its tokens
      are those of the prefix, the shard number and those of the action; and the shard number parses
      back to the index. */
  lemma ShardSubject(prefix: string, index: nat, action: string)
    requires ValidSubject(prefix, false) && (action == "" || ValidSubject(action, false))
    requires |SubjectOf(prefix, index, action)| <= MAX_SUBJECT_BYTES
    ensures ValidSubject(SubjectOf(prefix, index, action), false)
    ensures Split(SubjectOf(prefix, index, action)) ==
            Split(prefix) + [Render(index)] + if action == "" then [] else Split(action)
    ensures Parse(Split(SubjectOf(prefix, index, action))[|Split(prefix)|]) == index
  {
    var digits := Render(index);
    DigitsAreToken(index);
    SplitWhole(digits);
    SplitConcat(prefix, digits);
    ParseRender(index);
    if action != "" {
      SplitConcat(prefix + "." + digits, action);
    }
  }
}
