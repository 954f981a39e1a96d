/** Subjects as token lists, and the single-pass validator of validate.go.  A Go string is a sequence of
    bytes, one char each; it need not be valid UTF-8. */
module Subjects {

  // ----- Tokens

  function Split(s: string): (r: seq<string>)
    ensures |r| >= 1
  {
    if s == [] then [[]]
    else if s[0] == '.' then [[]] + Split(s[1..])
    else var r := Split(s[1..]); [[s[0]] + r[0]] + r[1..]
  }

  function Join(ts: seq<string>): string
    requires |ts| >= 1
  {
    if |ts| == 1 then ts[0] else ts[0] + "." + Join(ts[1..])
  }

  predicate DotFree(t: string) { '.' !in t }

  lemma {:induction false} SplitWhole(t: string)
    requires DotFree(t)
    ensures Split(t) == [t]
  {
    if t != [] {
      SplitWhole(t[1..]);
      assert [t[0]] + t[1..] == t;
    }
  }

  lemma {:induction false} SplitConcat(a: string, b: string)
    ensures Split(a + "." + b) == Split(a) + Split(b)
  {
    if a == [] {
      assert a + "." + b == "." + b;
      assert ("." + b)[1..] == b;
    } else {
      assert (a + "." + b)[1..] == a[1..] + "." + b;
      SplitConcat(a[1..], b);
    }
  }

  lemma {:induction false} SplitDotFree(s: string)
    ensures forall i :: 0 <= i < |Split(s)| ==> DotFree(Split(s)[i])
  {
    if s != [] {
      SplitDotFree(s[1..]);
    }
  }

  lemma {:induction false} JoinSplit(s: string)
    ensures Join(Split(s)) == s
  {
    if s != [] {
      JoinSplit(s[1..]);
      var r := Split(s[1..]);
      if s[0] == '.' {
        assert Split(s)[1..] == r;
      } else {
        var q := [[s[0]] + r[0]] + r[1..];
        assert |r| > 1 ==> q[1..] == r[1..];
      }
    }
  }

  /** Splitting undoes joining. */
  lemma {:induction false} SplitJoin(ts: seq<string>)
    requires |ts| >= 1 && forall i :: 0 <= i < |ts| ==> DotFree(ts[i])
    ensures Split(Join(ts)) == ts
  {
    if |ts| == 1 {
      SplitWhole(ts[0]);
    } else {
      SplitWhole(ts[0]);
      SplitConcat(ts[0], Join(ts[1..]));
      SplitJoin(ts[1..]);
    }
  }

  // ----- Validation

  const MAX_SUBJECT_BYTES := 1020

  // ----- Runes

  predicate Continues(c: char) { 0x80 <= c as int <= 0xBF }

  /** The second byte of a sequence of three or four: no overlong forms, surrogates or values past U+10FFFF. */
  predicate Second(b: int, c: char) {
    && (if b == 0xE0 then 0xA0 else if b == 0xF0 then 0x90 else 0x80) <= c as int
    && c as int <= if b == 0xED then 0x9F else if b == 0xF4 then 0x8F else 0xBF
  }

  /** The first rune of a string and its width, as `range` decodes it; an invalid byte is U+FFFD. */
  function FirstRune(t: string): (r: (int, nat))
    requires t != []
    ensures 1 <= r.1 <= |t|
  {
    var b := t[0] as int;
    if b < 0x80 then (b, 1)
    else if 0xC2 <= b <= 0xDF && |t| >= 2 && Continues(t[1]) then
      ((b - 0xC0) * 0x40 + (t[1] as int - 0x80), 2)
    else if 0xE0 <= b <= 0xEF && |t| >= 3 && Second(b, t[1]) && Continues(t[2]) then
      ((b - 0xE0) * 0x1000 + (t[1] as int - 0x80) * 0x40 + (t[2] as int - 0x80), 3)
    else if 0xF0 <= b <= 0xF4 && |t| >= 4 && Second(b, t[1]) && Continues(t[2]) && Continues(t[3]) then
      ((b - 0xF0) * 0x40000 + (t[1] as int - 0x80) * 0x1000 + (t[2] as int - 0x80) * 0x40 + (t[3] as int - 0x80), 4)
    else (0xFFFD, 1)
  }

  /** A Unicode scalar value. */
  predicate Scalar(r: int) { 0 <= r <= 0x10FFFF && !(0xD800 <= r <= 0xDFFF) }

  /** The UTF-8 form of a scalar value. */
  function Utf8(r: int): string
    requires Scalar(r)
  {
    var c1, c2, c3 := Tail(r), Tail(r / 0x40), Tail(r / 0x40 / 0x40);
    if r < 0x80 then [r as char]
    else if r < 0x800 then [(0xC0 + r / 0x40) as char, c1]
    else if r < 0x10000 then [(0xE0 + r / 0x40 / 0x40) as char, c2, c1]
    else [(0xF0 + r / 0x40 / 0x40 / 0x40) as char, c3, c2, c1]
  }

  /** The continuation byte with the low six bits of `r`. */
  function Tail(r: nat): (c: char)
    ensures Continues(c) && c as int - 0x80 == r - r / 0x40 * 0x40
  {
    (0x80 + r % 0x40) as char
  }

  lemma TailOf(q: nat, c: char)
    requires Continues(c)
    ensures var r := q * 0x40 + (c as int - 0x80); r / 0x40 == q && Tail(r) == c
  {}

  /** Decoding finds every encoded value, whatever follows it. */
  lemma RuneDecodes(r: int, rest: string)
    requires Scalar(r)
    ensures FirstRune(Utf8(r) + rest) == (r, |Utf8(r)|)
  {
    var u, t := Utf8(r), Utf8(r) + rest;
    assert t[0] == u[0] && (|u| > 1 ==> t[1] == u[1]) && (|u| > 2 ==> t[2] == u[2]) && (|u| > 3 ==> t[3] == u[3]);
  }

  /** And it finds nothing else: whatever it decodes is the UTF-8 form of the result, or a byte replaced by U+FFFD. */
  lemma RuneEncodes(t: string)
    requires t != []
    ensures var (r, w) := FirstRune(t); (Scalar(r) && t[..w] == Utf8(r)) || (r, w) == (0xFFFD, 1)
  {
    match FirstRune(t).1
    case 2 => TailOf(t[0] as int - 0xC0, t[1]);
    case 3 => ThreeBytes(t);
    case 4 => FourBytes(t);
    case _ =>
  }

  lemma ThreeBytes(t: string)
    requires t != [] && FirstRune(t).1 == 3
    ensures Scalar(FirstRune(t).0) && t[..3] == Utf8(FirstRune(t).0)
  {
    var a, b := t[0] as int - 0xE0, t[1] as int - 0x80;
    TailOf(a, t[1]);
    TailOf(a * 0x40 + b, t[2]);
    assert FirstRune(t).0 == (a * 0x40 + b) * 0x40 + (t[2] as int - 0x80);
    assert t[..3] == [t[0], t[1], t[2]];
  }

  lemma FourBytes(t: string)
    requires t != [] && FirstRune(t).1 == 4
    ensures Scalar(FirstRune(t).0) && t[..4] == Utf8(FirstRune(t).0)
  {
    var a, b, c := t[0] as int - 0xF0, t[1] as int - 0x80, t[2] as int - 0x80;
    TailOf(a, t[1]);
    TailOf(a * 0x40 + b, t[2]);
    TailOf((a * 0x40 + b) * 0x40 + c, t[3]);
    assert FirstRune(t).0 == ((a * 0x40 + b) * 0x40 + c) * 0x40 + (t[3] as int - 0x80);
    assert t[..4] == [t[0], t[1], t[2], t[3]];
  }

  function Runes(t: string): seq<int> {
    if t == [] then [] else [FirstRune(t).0] + Runes(t[FirstRune(t).1..])
  }

  /** unicode.IsSpace. */
  predicate IsSpace(r: int) {
    || 0x09 <= r <= 0x0D || r == 0x20 || r == 0x85 || r == 0xA0 || r == 0x1680 || 0x2000 <= r <= 0x200a
    || r == 0x2028 || r == 0x2029 || r == 0x202f || r == 0x205f || r == 0x3000
  }

  predicate HasSpace(t: string) { exists r :: r in Runes(t) && IsSpace(r) }

  lemma {:induction false} PrintableHasNoSpace(t: string)
    requires forall i :: 0 <= i < |t| ==> '!' <= t[i] <= '~'
    ensures !HasSpace(t)
  {
    if t != [] {
      PrintableHasNoSpace(t[1..]);
    }
  }

  predicate HasWildcard(t: string) { '*' in t || '>' in t }

  predicate TokenOk(t: string, allowWildcards: bool) {
    t != "" && !HasSpace(t) && (if t == "*" || t == ">" then allowWildcards else !HasWildcard(t))
  }

  /** The subject grammar on tokens: every token is in order and `>` stands last. */
  predicate TokensOk(ts: seq<string>, allowWildcards: bool) {
    && (forall i :: 0 <= i < |ts| ==> TokenOk(ts[i], allowWildcards))
    && (forall i :: 0 <= i < |ts| - 1 ==> ts[i] != ">")
  }

  predicate ValidSubject(s: string, allowWildcards: bool) {
    s != "" && |s| <= 1020 && TokensOk(Split(s), allowWildcards)
  }

  lemma TokensOkHead(t: string, rest: seq<string>, allow: bool)
    requires |rest| >= 1
    ensures TokensOk([t] + rest, allow) <==> TokenOk(t, allow) && t != ">" && TokensOk(rest, allow)
  {
    var ts := [t] + rest;
    if TokensOk(ts, allow) {
      assert ts[0] == t;
      forall i | 0 <= i < |rest| ensures TokenOk(rest[i], allow) && (i < |rest| - 1 ==> rest[i] != ">") {
        assert ts[i + 1] == rest[i];
      }
    }
  }

  /** The checks on one nonempty token, `last` if it ends the subject. */
  method CheckToken(token: string, last: bool, allowWildcards: bool) returns (ok: bool)
    requires token != ""
    ensures ok <==> TokenOk(token, allowWildcards) && (token == ">" ==> last)
  {
    var spaced := HasWhitespace(token);
    if spaced {
      return false;
    }
    if token == ">" {
      if !allowWildcards {
        return false;
      }
      return last;
    } else if token == "*" {
      return allowWildcards;
    }
    return !HasWildcard(token);
  }

  /** The scanner accepts exactly the subjects of the grammar, without building the token list. */
  method ValidateSubject(s: string, allowWildcards: bool) returns (ok: bool)
    ensures ok <==> ValidSubject(s, allowWildcards)
  {
    if s == "" {
      return false;
    }
    if |s| > MAX_SUBJECT_BYTES {
      return false;
    }
    var start, i, fullWildcardSeen := 0, 0, false;
    ghost var whole := TokensOk(Split(s), allowWildcards);
    assert s[0..] == s;
    while i <= |s|
      invariant 0 <= start <= i <= |s| + 1 && (i == |s| + 1 <==> start == |s| + 1)
      invariant i <= |s| ==> !fullWildcardSeen && forall k :: start <= k < i ==> s[k] != '.'
      invariant i <= |s| ==> whole == TokensOk(Split(s[start..]), allowWildcards)
      invariant i == |s| + 1 ==> whole
    {
      if i < |s| && s[i] != '.' {
        i := i + 1;
        continue;
      }
      Scanned(s, start, i, allowWildcards);
      if fullWildcardSeen {
        return false;
      }
      if start == i {
        return false;
      }
      var good := CheckToken(s[start..i], i == |s|, allowWildcards);
      if !good {
        return false;
      }
      fullWildcardSeen := s[start..i] == ">";
      start := i + 1;
      i := i + 1;
    }
    return true;
  }

  /** What one token contributes to the verdict. */
  lemma Scanned(s: string, start: nat, i: nat, allow: bool)
    requires start <= i <= |s| && (forall k :: start <= k < i ==> s[k] != '.') && (i < |s| ==> s[i] == '.')
    ensures i == |s| ==> (TokensOk(Split(s[start..]), allow) <==> TokenOk(s[start..i], allow))
    ensures i < |s| ==>
      (TokensOk(Split(s[start..]), allow) <==> TokenOk(s[start..i], allow) && s[start..i] != ">" && TokensOk(Split(s[i + 1..]), allow))
  {
    var t := s[start..i];
    if i == |s| {
      assert s[start..] == t;
      SplitWhole(t);
      assert [t][0] == t;
    } else {
      assert s[start..] == t + "." + s[i + 1..];
      SplitWhole(t);
      SplitConcat(t, s[i + 1..]);
      TokensOkHead(t, Split(s[i + 1..]), allow);
    }
  }

  method HasWhitespace(t: string) returns (r: bool)
    ensures r <==> HasSpace(t)
  {
    var i := 0;
    assert t[0..] == t;
    while i < |t|
      invariant 0 <= i <= |t| && (HasSpace(t) <==> HasSpace(t[i..]))
    {
      var (rune, width) := FirstRune(t[i..]);
      assert Runes(t[i..])[0] == rune && Runes(t[i..]) == [rune] + Runes(t[i..][width..]);
      if IsSpace(rune) {
        return true;
      }
      assert t[i..][width..] == t[i + width..];
      i := i + width;
    }
    return false;
  }
}
