/**
 String operations of the Go standard library that the operator relies on, for ASCII text
 (one `char` per byte), with the facts about splitting and joining that the pattern language,
 the approval parser and the object names rest on.
 */
module Text {

  lemma TailOfConcat<T>(xs: seq<T>, ys: seq<T>)
    requires xs != []
    ensures (xs + ys)[0] == xs[0] && (xs + ys)[1..] == xs[1..] + ys
  {
  }

  lemma Associative<T>(xs: seq<T>, ys: seq<T>, zs: seq<T>)
    ensures (xs + ys) + zs == xs + (ys + zs)
  {
  }

  /** A sequence around one of its positions. */
  lemma AroundPosition<T>(xs: seq<T>, k: nat)
    requires k < |xs|
    ensures xs[..k] + [xs[k]] == xs[..k + 1]
    ensures xs == (xs[..k] + [xs[k]]) + xs[k + 1..]
  {
  }

  predicate HasPrefix(s: string, prefix: string) {
    |prefix| <= |s| && s[..|prefix|] == prefix
  }

  predicate HasSuffix(s: string, suffix: string) {
    |suffix| <= |s| && s[|s| - |suffix|..] == suffix
  }

  predicate OccursAt(s: string, sub: string, k: int) {
    0 <= k && k + |sub| <= |s| && s[k..k + |sub|] == sub
  }

  /** Position of the first occurrence of `sub`, or -1 (strings.Index). */
  function Index(s: string, sub: string): (k: int)
    ensures k == -1 || OccursAt(s, sub, k)
    ensures forall j :: OccursAt(s, sub, j) ==> 0 <= k <= j
  {
    if HasPrefix(s, sub) then 0
    else if s == "" then -1
    else
      var k := Index(s[1..], sub);
      assert forall j :: OccursAt(s, sub, j) && j > 0 ==> OccursAt(s[1..], sub, j - 1) by {
        forall j | OccursAt(s, sub, j) && j > 0 ensures OccursAt(s[1..], sub, j - 1) {
          assert s[1..][j - 1..j - 1 + |sub|] == s[j..j + |sub|];
        }
      }
      assert OccursAt(s[1..], sub, k) ==> OccursAt(s, sub, k + 1) by {
        if OccursAt(s[1..], sub, k) {
          assert s[1..][k..k + |sub|] == s[k + 1..k + 1 + |sub|];
        }
      }
      if k < 0 then -1 else k + 1
  }

  predicate Contains(s: string, sub: string) {
    Index(s, sub) >= 0
  }

  function ToLowerChar(c: char): char {
    if 'A' <= c <= 'Z' then c - 'A' + 'a' else c
  }

  function ToLower(s: string): (t: string)
    ensures |t| == |s|
    ensures forall k :: 0 <= k < |s| ==> t[k] == ToLowerChar(s[k])
  {
    if s == "" then "" else [ToLowerChar(s[0])] + ToLower(s[1..])
  }

  /** Pieces of `s` between occurrences of `sep`; always at least one (strings.Split). */
  function Split(s: string, sep: char): (parts: seq<string>)
    ensures |parts| >= 1
  {
    if s == "" then [""]
    else
      var rest := Split(s[1..], sep);
      if s[0] == sep then [""] + rest else [[s[0]] + rest[0]] + rest[1..]
  }

  function Join(parts: seq<string>, sep: char): string
    requires |parts| >= 1
  {
    if |parts| == 1 then parts[0] else parts[0] + [sep] + Join(parts[1..], sep)
  }

  /** No piece contains the separator. */
  lemma {:induction false} SplitPieces(s: string, sep: char)
    ensures forall part :: part in Split(s, sep) ==> sep !in part
  {
    if s == "" {
    } else {
      SplitPieces(s[1..], sep);
      var rest := Split(s[1..], sep);
      forall part | part in Split(s, sep) ensures sep !in part {
        assert part == "" || part == [s[0]] + rest[0] || part in rest;
      }
    }
  }

  /** Joining the pieces gives the text back. */
  lemma {:induction false} JoinSplit(s: string, sep: char)
    ensures Join(Split(s, sep), sep) == s
  {
    if s == "" {
    } else {
      JoinSplit(s[1..], sep);
      var rest := Split(s[1..], sep);
      if s[0] == sep {
        assert ([""] + rest)[1..] == rest;
      } else {
        var parts := [[s[0]] + rest[0]] + rest[1..];
        assert parts[1..] == rest[1..];
        assert Join(parts, sep) == [s[0]] + Join(rest, sep);
      }
    }
  }

  lemma {:induction false} SplitUnbroken(s: string, sep: char)
    requires sep !in s
    ensures Split(s, sep) == [s]
  {
    if s == "" {
    } else {
      SplitUnbroken(s[1..], sep);
      assert [s[0]] + s[1..] == s;
    }
  }

  /** Splitting undoes gluing two texts with the separator. */
  lemma {:induction false} SplitConcat(a: string, b: string, sep: char)
    ensures Split(a + [sep] + b, sep) == Split(a, sep) + Split(b, sep)
  {
    if a == "" {
      SplitStep(sep, b, sep);
      assert a + [sep] + b == [sep] + b;
    } else {
      var c, t := a[0], a[1..];
      SplitConcat(t, b, sep);
      assert a + [sep] + b == [c] + (t + [sep] + b);
      assert a == [c] + t;
      SplitStep(c, t, sep);
      SplitStep(c, t + [sep] + b, sep);
      SpliceFirst(c, Split(t, sep), Split(b, sep));
    }
  }

  lemma SpliceFirst(c: char, xs: seq<string>, ys: seq<string>)
    requires |xs| >= 1
    ensures [[c] + (xs + ys)[0]] + (xs + ys)[1..] == ([[c] + xs[0]] + xs[1..]) + ys
    ensures [""] + (xs + ys) == ([""] + xs) + ys
  {
  }

  lemma SplitStep(c: char, t: string, sep: char)
    ensures var rest := Split(t, sep);
            Split([c] + t, sep) == if c == sep then [""] + rest else [[c] + rest[0]] + rest[1..]
  {
    assert ([c] + t)[1..] == t;
  }

  lemma {:induction false} JoinConcat(xs: seq<string>, ys: seq<string>, sep: char)
    requires |xs| >= 1 && |ys| >= 1
    ensures Join(xs + ys, sep) == Join(xs, sep) + [sep] + Join(ys, sep)
  {
    if |xs| == 1 {
      assert (xs + ys)[1..] == ys;
    } else {
      JoinConcat(xs[1..], ys, sep);
      assert (xs + ys)[1..] == xs[1..] + ys;
    }
  }

  /** Splitting is injective, so statements about segments are statements about the text. */
  lemma SplitInjective(a: string, b: string, sep: char)
    ensures Split(a, sep) == Split(b, sep) <==> a == b
  {
    JoinSplit(a, sep);
    JoinSplit(b, sep);
  }

  // ---- decimal numbers (the %d verb for non-negative arguments)

  predicate IsDigit(c: char) {
    '0' <= c <= '9'
  }

  predicate AllDigits(s: string) {
    forall k :: 0 <= k < |s| ==> IsDigit(s[k])
  }

  function Digit(d: nat): (c: char)
    requires d < 10
    ensures IsDigit(c) && (c - '0') as nat == d
  {
    '0' + d as char
  }

  function Decimal(n: nat): (s: string)
    ensures s != "" && AllDigits(s)
  {
    if n < 10 then [Digit(n)] else Decimal(n / 10) + [Digit(n % 10)]
  }

  function ParseDecimal(s: string): nat
    requires AllDigits(s)
  {
    if s == "" then 0
    else ParseDecimal(s[..|s| - 1]) * 10 + (s[|s| - 1] - '0') as nat
  }

  lemma {:induction false} ParsePrinted(n: nat)
    ensures ParseDecimal(Decimal(n)) == n
  {
    if n < 10 {
      assert Decimal(n)[..0] == "";
      assert ParseDecimal("") == 0;
    } else {
      ParsePrinted(n / 10);
      var s := Decimal(n);
      assert s[..|s| - 1] == Decimal(n / 10);
      assert s[|s| - 1] == Digit(n % 10);
    }
  }

  lemma DecimalInjective(m: nat, n: nat)
    ensures Decimal(m) == Decimal(n) <==> m == n
  {
    ParsePrinted(m);
    ParsePrinted(n);
  }

  lemma {:induction false} LeadingDigit(n: nat)
    ensures n > 0 ==> Decimal(n)[0] != '0'
  {
    if n < 10 {
      assert (Digit(n) - '0') as nat == n;
    } else {
      LeadingDigit(n / 10);
    }
  }

  lemma {:induction false} PrintsBack(s: string)
    requires AllDigits(s) && s != "" && (|s| > 1 ==> s[0] != '0')
    ensures s == Decimal(ParseDecimal(s))
  {
    var init, d := s[..|s| - 1], (s[|s| - 1] - '0') as nat;
    assert s == init + [Digit(d)];
    if |s| > 1 {
      PrintsBack(init);
      assert init[0] == s[0];
    }
  }

  /** The decimal form of a number: its digits, worth `n`, without a leading zero. */
  lemma DecimalExactly(n: nat, s: string)
    ensures s == Decimal(n) <==> AllDigits(s) && s != "" && (|s| > 1 ==> s[0] != '0') && ParseDecimal(s) == n
  {
    ParsePrinted(n);
    LeadingDigit(n);
    if AllDigits(s) && s != "" && (|s| > 1 ==> s[0] != '0') {
      PrintsBack(s);
    }
  }
}
