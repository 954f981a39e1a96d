/** The covering wildcard of several filter subjects (consumer_filter.go) and what it covers. */
module Filters {
  import opened Subjects

  // ----- What a filter selects

  /** A filter, token by token, matches a literal subject: `*` stands for one token, `>` for one or more. */
  predicate Matches(f: seq<string>, s: seq<string>) {
    if f == [] then s == []
    else if f[0] == ">" then s != []
    else s != [] && (f[0] == "*" || f[0] == s[0]) && Matches(f[1..], s[1..])
  }

  /** A subject that can be published. */
  predicate Literal(s: seq<string>) { TokensOk(s, false) }

  /** Every publishable subject selected by `f` is selected by `g`. */
  ghost predicate Covers(g: string, f: string) {
    forall s :: Literal(s) && Matches(Split(f), s) ==> Matches(Split(g), s)
  }

  // ----- The longest common token prefix

  ghost predicate Common(tokens: seq<seq<string>>, k: nat) {
    && (tokens != [] ==> k <= |tokens[0]|)
    && forall i :: 0 <= i < |tokens| ==> k <= |tokens[i]| && tokens[i][..k] == tokens[0][..k]
  }

  /** `k` is the length of the longest prefix all token lists share. */
  ghost predicate Longest(tokens: seq<seq<string>>, k: nat) {
    Common(tokens, k) && !Common(tokens, k + 1)
  }

  function Tokens(subjects: seq<string>): (r: seq<seq<string>>)
    ensures |r| == |subjects| && forall i :: 0 <= i < |r| ==> r[i] == Split(subjects[i])
  {
    seq(|subjects|, i requires 0 <= i < |subjects| => Split(subjects[i]))
  }

  lemma CommonStep(tokens: seq<seq<string>>, k: nat)
    requires |tokens| > 0 && Common(tokens, k)
    ensures Common(tokens, k + 1) <==>
      k < |tokens[0]| && forall i :: 0 <= i < |tokens| ==> k < |tokens[i]| && tokens[i][k] == tokens[0][k]
  {
    if k < |tokens[0]| && forall i :: 0 <= i < |tokens| ==> k < |tokens[i]| && tokens[i][k] == tokens[0][k] {
      forall i | 0 <= i < |tokens| ensures tokens[i][..k + 1] == tokens[0][..k + 1] {
        assert tokens[i][..k + 1] == tokens[i][..k] + [tokens[i][k]];
        assert tokens[0][..k + 1] == tokens[0][..k] + [tokens[0][k]];
      }
    }
    if Common(tokens, k + 1) {
      forall i | 0 <= i < |tokens| ensures k < |tokens[i]| && tokens[i][k] == tokens[0][k] {
        assert tokens[i][..k + 1][k] == tokens[0][..k + 1][k];
      }
    }
  }

  ghost predicate AllOfLength(tokens: seq<seq<string>>, k: nat) {
    forall i :: 0 <= i < |tokens| ==> |tokens[i]| == k
  }

  /** What the derived wildcard is, given the shared prefix length. */
  ghost predicate IsWildcard(tokens: seq<seq<string>>, k: nat, r: string) {
    if k == 0 then r == ""
    else tokens != [] && k <= |tokens[0]| && r == if AllOfLength(tokens, k) then Join(tokens[0][..k]) else Join(tokens[0][..k]) + ".>"
  }

  method CommonWildcardSubject(subjects: seq<string>) returns (r: string, ghost k: nat)
    ensures subjects == [] ==> r == ""
    ensures subjects != [] ==> Longest(Tokens(subjects), k) && IsWildcard(Tokens(subjects), k, r)
  {
    if subjects == [] {
      return "", 0;
    }
    var tokens := Tokens(subjects);
    var minLen := |tokens[0]|;
    for i := 0 to |tokens|
      invariant forall j :: 0 <= j < i ==> minLen <= |tokens[j]|
      invariant exists j :: 0 <= j < |tokens| && |tokens[j]| == minLen
    {
      if |tokens[i]| < minLen {
        minLen := |tokens[i]|;
      }
    }
    var common := 0;
    while common < minLen
      invariant common <= minLen && Common(tokens, common)
      invariant forall j :: 0 <= j < |tokens| ==> minLen <= |tokens[j]|
    {
      var tok := tokens[0][common];
      var matched := true;
      for j := 1 to |tokens|
        invariant matched && forall m :: 0 <= m < j ==> tokens[m][common] == tok
      {
        if tokens[j][common] != tok {
          matched := false;
          break;
        }
      }
      CommonStep(tokens, common);
      if !matched {
        break;
      }
      common := common + 1;
    }
    k := common;
    assert !Common(tokens, common + 1) by { CommonStep(tokens, common); }
    if common == 0 {
      return "", k;
    }
    var prefix := Join(tokens[0][..common]);
    var allExact := true;
    for i := 0 to |tokens|
      invariant allExact && forall j :: 0 <= j < i ==> |tokens[j]| == common
    {
      if |tokens[i]| != common {
        allExact := false;
        break;
      }
    }
    if allExact {
      return prefix, k;
    }
    return prefix + ".>", k;
  }

  // ----- What the wildcard covers

  lemma {:induction false} MatchesPrefix(p: seq<string>, rest: seq<string>, s: seq<string>)
    requires rest != [] && Matches(p + rest, s)
    ensures Matches(p + [">"], s)
  {
    if p == [] {
      assert p + rest == rest && p + [">"] == [">"];
    } else {
      assert (p + rest)[1..] == p[1..] + rest;
      assert (p + [">"])[1..] == p[1..] + [">"];
      if p[0] != ">" {
        MatchesPrefix(p[1..], rest, s[1..]);
      }
    }
  }

  lemma {:induction false} MatchesTooShort(p: seq<string>, s: seq<string>)
    requires |s| <= |p| && forall i :: 0 <= i < |p| ==> p[i] != ">"
    ensures !Matches(p + [">"], s)
  {
    if p == [] {
      assert p + [">"] == [">"];
    } else {
      assert (p + [">"])[1..] == p[1..] + [">"];
      if s != [] {
        MatchesTooShort(p[1..], s[1..]);
      }
    }
  }

  /** A literal subject that a filter without `>` selects. */
  function Instance(f: seq<string>): (s: seq<string>)
    ensures |s| == |f|
  {
    if f == [] then [] else [if f[0] == "*" then "a" else f[0]] + Instance(f[1..])
  }

  /** Every token is `*` or can occur in a publishable subject. */
  predicate Plain(f: seq<string>) {
    forall i :: 0 <= i < |f| ==> f[i] == "*" || TokenOk(f[i], false)
  }

  lemma {:induction false} PlainMatches(f: seq<string>)
    requires Plain(f)
    ensures Matches(f, Instance(f)) && Literal(Instance(f))
  {
    if f != [] {
      assert forall i :: 0 <= i < |f[1..]| ==> f[1..][i] == f[i + 1];
      PlainMatches(f[1..]);
      PrintableHasNoSpace("a");
      var s := Instance(f);
      assert s[1..] == Instance(f[1..]);
      forall i | 0 <= i < |s| ensures TokenOk(s[i], false) && s[i] != ">" {
        if i > 0 { assert s[i] == s[1..][i - 1]; }
      }
    }
  }

  /** A filter with another token than these selects nothing publishable, or ends in `>` early. */
  lemma {:induction false} OthersAreCovered(f: seq<string>, s: seq<string>)
    requires !Plain(f) && Literal(s) && Matches(f, s)
    ensures Matches(f + [">"], s)
  {
    assert (f + [">"])[1..] == f[1..] + [">"];
    if f[0] != ">" {
      assert s[0] == f[0] || f[0] == "*";
      var i :| 0 <= i < |f| && f[i] != "*" && !TokenOk(f[i], false);
      assert f[1..][i - 1] == f[i];
      assert forall j :: 0 <= j < |s[1..]| ==> s[1..][j] == s[j + 1];
      OthersAreCovered(f[1..], s[1..]);
    }
  }

  lemma SplitWildcard(p: seq<string>)
    requires |p| > 0 && forall i :: 0 <= i < |p| ==> DotFree(p[i])
    ensures Split(Join(p) + ".>") == p + [">"]
  {
    SplitJoin(p);
    SplitConcat(Join(p), ">");
    SplitWhole(">");
    assert Join(p) + ".>" == Join(p) + "." + ">";
  }

  /** The derived wildcard covers the whole of a filter exactly if that filter has more tokens than the
      shared prefix, or all filters are equal, or it selects nothing a longer filter would miss. */
  lemma WildcardCovers(subjects: seq<string>, k: nat, r: string, j: nat)
    requires subjects != [] && k > 0 && Common(Tokens(subjects), k) && IsWildcard(Tokens(subjects), k, r) && j < |subjects|
    ensures Covers(r, subjects[j]) <==>
      |Split(subjects[j])| > k || AllOfLength(Tokens(subjects), k) || !Plain(Split(subjects[j]))
  {
    var tokens := Tokens(subjects);
    var f, p := tokens[j], tokens[0][..k];
    assert f[..k] == p;
    SplitDotFree(subjects[0]);
    if AllOfLength(tokens, k) {
      assert f == p;
      SplitJoin(p);
    } else {
      SplitWildcard(p);
      if |f| > k {
        forall s | Literal(s) && Matches(f, s) ensures Matches(Split(r), s) {
          assert f == p + f[k..];
          MatchesPrefix(p, f[k..], s);
        }
      } else {
        assert f == p;
        if Plain(f) {
          PlainMatches(f);
          MatchesTooShort(f, Instance(f));
        } else {
          forall s | Literal(s) && Matches(f, s) ensures Matches(Split(r), s) {
            OthersAreCovered(f, s);
          }
        }
      }
    }
  }

  /** A filter beside a longer one that begins with it is not covered. */
  lemma ShortFilterNotCovered(a: string, b: string)
    requires DotFree(a) && DotFree(b) && TokenOk(a, false)
    ensures var subjects := [a, a + "." + b];
      && Longest(Tokens(subjects), 1) && IsWildcard(Tokens(subjects), 1, a + ".>")
      && !Covers(a + ".>", a) && Covers(a + ".>", a + "." + b)
  {
    var subjects := [a, a + "." + b];
    var tokens := Tokens(subjects);
    SplitWhole(a);
    SplitWhole(b);
    SplitConcat(a, b);
    assert tokens[0] == [a] && tokens[1] == [a, b];
    assert tokens[1][..1] == [a] && Join(tokens[0][..1]) == a;
    assert !AllOfLength(tokens, 1) by { assert |tokens[1]| == 2; }
    WildcardCovers(subjects, 1, a + ".>", 0);
    WildcardCovers(subjects, 1, a + ".>", 1);
  }

  /** `orders` beside `orders.x` gives `orders.>`, which misses `orders` itself. */
  lemma OrdersNotCovered()
    ensures IsWildcard(Tokens(["orders", "orders.x"]), 1, "orders.>") && !Covers("orders.>", "orders")
  {
    PrintableHasNoSpace("orders");
    assert "orders" + "." + "x" == "orders.x" && "orders" + ".>" == "orders.>";
    ShortFilterNotCovered("orders", "x");
  }

  ghost predicate AllEqual(subjects: seq<string>) {
    forall i :: 0 <= i < |subjects| ==> subjects[i] == subjects[0]
  }

  /** The shared prefix is the whole of every filter exactly if all filters are equal. */
  lemma ExactMeansEqual(subjects: seq<string>, k: nat)
    requires subjects != [] && Longest(Tokens(subjects), k)
    ensures AllOfLength(Tokens(subjects), k) <==> AllEqual(subjects)
  {
    var tokens := Tokens(subjects);
    if AllOfLength(tokens, k) {
      forall i | 0 <= i < |subjects| ensures subjects[i] == subjects[0] {
        assert tokens[i] == tokens[i][..k] == tokens[0][..k] == tokens[0];
        JoinSplit(subjects[i]);
        JoinSplit(subjects[0]);
      }
    }
    if AllEqual(subjects) && k < |tokens[0]| {
      CommonStep(tokens, k);
    }
  }

  /** The subject a consumer subscribes with. */
  method ConsumerFilterSubjects(subjects: seq<string>) returns (r: string)
    ensures |subjects| == 0 ==> r == ">"
    ensures |subjects| == 1 ==> r == subjects[0]
    ensures forall k: nat :: |subjects| > 1 && Longest(Tokens(subjects), k) ==>
      CoversAllBut(subjects, k, r) && exists w :: IsWildcard(Tokens(subjects), k, w) && r == if w == "" then ">" else w
  {
    if |subjects| == 0 {
      return ">";
    }
    if |subjects| == 1 {
      return subjects[0];
    }
    ghost var k0;
    r, k0 := CommonWildcardSubject(subjects);
    forall k: nat | Longest(Tokens(subjects), k) ensures k == k0 {
      LongestUnique(Tokens(subjects), k, k0);
    }
    ExactMeansEqual(subjects, k0);
    if r == "" {
      r := ">";
      SplitWhole(">");
      return;
    }
    forall j | 0 <= j < |subjects| ensures Covers(r, subjects[j]) <==> Covered(subjects, k0, j) {
      WildcardCovers(subjects, k0, r, j);
    }
  }

  /** More tokens than the shared prefix, or all filters equal, or no shared prefix, or no publishable
      subject selected by the tokens as they stand. */
  ghost predicate Covered(subjects: seq<string>, k: nat, j: nat)
    requires j < |subjects|
  {
    k == 0 || |Split(subjects[j])| > k || AllEqual(subjects) || !Plain(Split(subjects[j]))
  }

  ghost predicate CoversAllBut(subjects: seq<string>, k: nat, r: string) {
    forall j :: 0 <= j < |subjects| ==> (Covers(r, subjects[j]) <==> Covered(subjects, k, j))
  }

  lemma LongestUnique(tokens: seq<seq<string>>, k: nat, m: nat)
    requires Longest(tokens, k) && Longest(tokens, m)
    ensures k == m
  {
    if k < m { Shorter(tokens, k + 1, m); }
    if m < k { Shorter(tokens, m + 1, k); }
  }

  lemma Shorter(tokens: seq<seq<string>>, k: nat, m: nat)
    requires Common(tokens, m) && k <= m
    ensures Common(tokens, k)
  {
    forall i | 0 <= i < |tokens| ensures k <= |tokens[i]| && tokens[i][..k] == tokens[0][..k] {
      assert tokens[i][..k] == tokens[i][..m][..k];
      assert tokens[0][..k] == tokens[0][..m][..k];
    }
  }
}
