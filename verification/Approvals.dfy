/**
 Reading "approve-risky-paths:" lines out of an issue body.
 */
module Approvals {
  import opened Text

  const MARKER := "approve-risky-paths:"

  predicate IsSeparator(c: char) {
    c == ' ' || c == '\t' || c == ',' || c == '`'
  }

  /** Length of the longest separator-free prefix. */
  function RunLength(s: string): (n: nat)
    ensures n <= |s|
    ensures forall k :: 0 <= k < n ==> !IsSeparator(s[k])
    ensures n < |s| ==> IsSeparator(s[n])
  {
    if s == "" || IsSeparator(s[0]) then 0 else 1 + RunLength(s[1..])
  }

  /** Maximal separator-free runs, in order (strings.FieldsFunc). */
  function Fields(s: string): seq<string> {
    if s == "" then []
    else if IsSeparator(s[0]) then Fields(s[1..])
    else [s[..RunLength(s)]] + Fields(s[RunLength(s)..])
  }

  function LineGlobs(line: string): seq<string> {
    var at := Index(ToLower(line), MARKER);
    if at < 0 then [] else Fields(line[at + |MARKER|..])
  }

  function AllGlobs(lines: seq<string>): seq<string> {
    if lines == [] then [] else LineGlobs(lines[0]) + AllGlobs(lines[1..])
  }

  /** The globs approved by an issue body. */
  function Approved(body: string): seq<string> {
    AllGlobs(Split(body, '\n'))
  }

  method ParseApprovedGlobs(body: string) returns (globs: seq<string>)
    ensures globs == Approved(body)
  {
    globs := [];
    var lines := Split(body, '\n');
    for i := 0 to |lines|
      invariant globs == AllGlobs(lines[..i])
    {
      OneMoreLine(lines, i);
      var at := Index(ToLower(lines[i]), MARKER);
      if at < 0 {
        continue;
      }
      globs := AppendTokens(globs, lines[i][at + |MARKER|..]);
    }
    assert lines[..|lines|] == lines;
  }

  lemma OneMoreLine(lines: seq<string>, i: nat)
    requires i < |lines|
    ensures AllGlobs(lines[..i + 1]) == AllGlobs(lines[..i]) + LineGlobs(lines[i])
  {
    AllGlobsAppend(lines[..i], lines[i]);
    assert lines[..i] + [lines[i]] == lines[..i + 1];
  }

  /** The inner loop over the tokens after the marker. */
  method AppendTokens(globs: seq<string>, rest: string) returns (more: seq<string>)
    ensures more == globs + Fields(rest)
  {
    more := globs;
    var tokens := Fields(rest);
    FieldsAreTokens(rest);
    for j := 0 to |tokens|
      invariant more == globs + tokens[..j]
    {
      assert IsField(tokens[j]);
      if tokens[j] != "" {
        more := more + [tokens[j]];
      }
    }
    assert tokens[..|tokens|] == tokens;
  }

  lemma AllGlobsAppend(lines: seq<string>, line: string)
    ensures AllGlobs(lines + [line]) == AllGlobs(lines) + LineGlobs(line)
  {
    AllGlobsConcat(lines, [line]);
    assert [line][1..] == [];
    assert AllGlobs([line]) == LineGlobs(line) + AllGlobs([]);
  }

  // ---- what the parser returns

  /** A text that can stand as one approved glob. */
  predicate IsToken(s: string) {
    s != "" && forall k :: 0 <= k < |s| ==> !IsSeparator(s[k]) && s[k] != '\n'
  }

  predicate IsField(s: string) {
    s != "" && forall k :: 0 <= k < |s| ==> !IsSeparator(s[k])
  }

  lemma {:induction false} FieldsAreTokens(s: string)
    ensures forall f :: f in Fields(s) ==> IsField(f) && forall c :: c in f ==> c in s
  {
    if s == "" {
    } else {
      if IsSeparator(s[0]) {
        FieldsAreTokens(s[1..]);
      } else {
        FieldsAreTokens(s[RunLength(s)..]);
        assert IsField(s[..RunLength(s)]);
      }
    }
  }

  /** Every approved glob is a non-empty token. */
  lemma ApprovedAreTokens(body: string)
    ensures forall g :: g in Approved(body) ==> IsToken(g)
  {
    SplitPieces(body, '\n');
    AllGlobsAreTokens(Split(body, '\n'));
  }

  lemma LineGlobsAreTokens(line: string)
    requires '\n' !in line
    ensures forall g :: g in LineGlobs(line) ==> IsToken(g)
  {
    var at := Index(ToLower(line), MARKER);
    if at >= 0 {
      var rest := line[at + |MARKER|..];
      FieldsAreTokens(rest);
      forall f | f in Fields(rest) ensures IsToken(f) {
        assert forall k :: 0 <= k < |f| ==> f[k] in f && f[k] in rest && f[k] in line;
      }
    }
  }

  lemma {:induction false} AllGlobsAreTokens(lines: seq<string>)
    requires forall line :: line in lines ==> '\n' !in line
    ensures forall g :: g in AllGlobs(lines) ==> IsToken(g)
  {
    if lines == [] {
    } else {
      AllGlobsAreTokens(lines[1..]);
      LineGlobsAreTokens(lines[0]);
    }
  }

  /** A separator between two texts only separates. */
  lemma {:induction false} FieldsConcat(a: string, sep: char, b: string)
    requires IsSeparator(sep)
    ensures Fields(a + [sep] + b) == Fields(a) + Fields(b)
  {
    var s := a + [sep] + b;
    if a == "" {
      assert s[1..] == b;
    } else if IsSeparator(a[0]) {
      FieldsConcat(a[1..], sep, b);
      assert s[1..] == a[1..] + [sep] + b;
    } else {
      var n := RunLength(a);
      RunStops(a, [sep] + b);
      assert a + ([sep] + b) == s;
      FieldsConcat(a[n..], sep, b);
      assert s[n..] == a[n..] + [sep] + b;
      assert s[..n] == a[..n];
    }
  }

  lemma {:induction false} RunStops(a: string, t: string)
    requires t != "" && IsSeparator(t[0])
    ensures RunLength(a + t) == RunLength(a)
  {
    if a == "" || IsSeparator(a[0]) {
    } else {
      RunStops(a[1..], t);
      assert (a + t)[1..] == a[1..] + t;
    }
  }

  lemma {:induction false} FieldsOfToken(s: string)
    requires IsField(s)
    ensures Fields(s) == [s]
  {
    var n := RunLength(s);
    assert n == |s|;
    assert s[..n] == s && s[n..] == "";
  }

  /** Parsing a text with a line break is parsing both parts. */
  lemma ApprovedConcat(a: string, b: string)
    ensures Approved(a + "\n" + b) == Approved(a) + Approved(b)
  {
    SplitConcat(a, b, '\n');
    AllGlobsConcat(Split(a, '\n'), Split(b, '\n'));
  }

  lemma {:induction false} AllGlobsConcat(xs: seq<string>, ys: seq<string>)
    ensures AllGlobs(xs + ys) == AllGlobs(xs) + AllGlobs(ys)
  {
    if xs == [] {
      assert xs + ys == ys;
    } else {
      AllGlobsConcat(xs[1..], ys);
      TailOfConcat(xs, ys);
      Associative(LineGlobs(xs[0]), AllGlobs(xs[1..]), AllGlobs(ys));
    }
  }

  /** The line that approves the given globs. */
  function ApprovalLine(globs: seq<string>): string {
    if globs == [] then MARKER else MARKER + " " + Join(globs, ' ')
  }

  /** Writing an approval line and reading it back gives the same globs, in order. */
  lemma ApprovalRoundTrip(globs: seq<string>)
    requires forall g :: g in globs ==> IsToken(g)
    ensures Approved(ApprovalLine(globs)) == globs
  {
    if globs == [] {
      MarkerLine("");
      assert MARKER + "" == MARKER;
    } else {
      var list := Join(globs, ' ');
      JoinedTokens(globs);
      MarkerLine(" " + list);
      assert MARKER + " " + list == MARKER + (" " + list);
      FieldsConcat("", ' ', list);
      assert "" + [' '] + list == " " + list;
    }
  }

  lemma {:induction false} JoinedTokens(globs: seq<string>)
    requires |globs| >= 1
    requires forall g :: g in globs ==> IsToken(g)
    ensures Fields(Join(globs, ' ')) == globs
    ensures '\n' !in Join(globs, ' ')
  {
    assert IsToken(globs[0]);
    FieldsOfToken(globs[0]);
    if |globs| == 1 {
    } else {
      JoinedTokens(globs[1..]);
      FieldsConcat(globs[0], ' ', Join(globs[1..], ' '));
      assert [globs[0]] + globs[1..] == globs;
    }
  }

  /** A single line starting with the marker approves the fields that follow it. */
  lemma MarkerLine(rest: string)
    requires '\n' !in rest
    ensures Approved(MARKER + rest) == Fields(rest)
  {
    var line := MARKER + rest;
    MarkerIsPlain();
    SplitUnbroken(line, '\n');
    MarkerFirst(rest);
    assert line[|MARKER|..] == rest;
    AllGlobsAppend([], line);
    assert [] + [line] == [line];
  }

  /** A text with none of the four separators and no line break in it. */
  predicate IsPlain(s: string) {
    s != "" && ' ' !in s && '\t' !in s && ',' !in s && '`' !in s && '\n' !in s
  }

  lemma PlainIsToken(s: string)
    ensures IsPlain(s) <==> IsToken(s)
  {
    assert (forall k :: 0 <= k < |s| ==> !IsSeparator(s[k]) && s[k] != '\n') <==>
             (forall c :: c in s ==> !IsSeparator(c) && c != '\n');
  }

  /**
   Exactly four characters separate two globs on an approval line: a space, a tab, a comma and a backquote. Any other
   but a line break is part of a glob.
   */
  lemma SeparatorsExactly(x: string, c: char, y: string)
    requires IsPlain(x) && IsPlain(y) && c != '\n'
    ensures Approved("approve-risky-paths:" + x + [c] + y)
         == if c == ' ' || c == '\t' || c == ',' || c == '`' then [x, y] else [x + [c] + y]
  {
    var list := x + [c] + y;
    assert "approve-risky-paths:" + x + [c] + y == MARKER + list;
    MarkerLine(list);
    PlainIsToken(x);
    PlainIsToken(y);
    FieldsOfToken(x);
    FieldsOfToken(y);
    if IsSeparator(c) {
      FieldsConcat(x, c, y);
    } else {
      assert forall k :: 0 <= k < |list| ==> list[k] == (if k < |x| then x[k] else if k == |x| then c else y[k - |x| - 1]);
      FieldsOfToken(list);
    }
  }

  /** The marker in any mixture of cases. */
  predicate IsMarker(m: string) {
    && |m| == 20
    && forall k :: 0 <= k < 20 ==> SameLetter(m[k], "approve-risky-paths:"[k])
  }

  predicate SameLetter(c: char, lower: char) {
    c == lower || ('A' <= c <= 'Z' && 'a' <= lower <= 'z' && c - 'A' == lower - 'a')
  }

  /** The marker counts in any mixture of cases, and after any text that neither breaks the line nor holds its first letter. */
  lemma MarkerAnywhere(before: string, m: string, x: string)
    requires IsMarker(m) && IsPlain(x)
    requires 'a' !in before && 'A' !in before && '\n' !in before
    ensures Approved(before + m + " " + x) == [x]
  {
    var line := before + m + (" " + x);
    assert before + m + " " + x == line;
    FoundAfter(before, m, " " + x);
    MarkerUnbroken(m);
    SplitUnbroken(line, '\n');
    assert line[|before| + 20..] == " " + x;
    AllGlobsAppend([], line);
    assert [] + [line] == [line];
    AfterSpace(x);
  }

  lemma AfterSpace(x: string)
    requires IsPlain(x)
    ensures Fields(" " + x) == [x]
  {
    PlainIsToken(x);
    FieldsConcat("", ' ', x);
    FieldsOfToken(x);
    assert "" + [' '] + x == " " + x;
  }

  lemma MarkerUnbroken(m: string)
    requires IsMarker(m)
    ensures '\n' !in m
  {
    MarkerIsPlain();
    forall k | 0 <= k < 20 ensures m[k] != '\n' {
      assert SameLetter(m[k], MARKER[k]) && MARKER[k] in MARKER;
    }
  }

  lemma FoundAfter(before: string, m: string, rest: string)
    requires IsMarker(m) && 'a' !in before && 'A' !in before
    ensures Index(ToLower(before + m + rest), MARKER) == |before|
  {
    var line := before + m + rest;
    var lower := ToLower(line);
    forall k | 0 <= k < 20 ensures lower[|before| + k] == MARKER[k] {
      assert line[|before| + k] == m[k] && SameLetter(m[k], MARKER[k]);
      LowerOf(m[k], k);
    }
    assert forall k :: 0 <= k < |before| ==> line[k] == before[k] && before[k] in before && lower[k] != 'a';
    FirstMarker(lower, |before|);
  }

  lemma LowerOf(c: char, k: nat)
    requires k < 20 && SameLetter(c, MARKER[k])
    ensures ToLowerChar(c) == MARKER[k]
  {
    MarkerIsPlain();
    assert MARKER[k] in MARKER;
  }

  lemma FirstMarker(lower: string, at: nat)
    requires at + 20 <= |lower|
    requires forall k :: 0 <= k < 20 ==> lower[at + k] == MARKER[k]
    requires forall k :: 0 <= k < at ==> lower[k] != 'a'
    ensures Index(lower, MARKER) == at
  {
    assert lower[at..at + 20] == MARKER;
    assert OccursAt(lower, MARKER, at);
    forall j | OccursAt(lower, MARKER, j) ensures j >= at {
      assert lower[j] == lower[j..j + 20][0] == 'a';
    }
  }

  lemma MarkerFirst(rest: string)
    ensures Index(ToLower(MARKER + rest), MARKER) == 0
  {
    var lower := ToLower(MARKER + rest);
    MarkerIsPlain();
    assert forall k :: 0 <= k < |MARKER| ==> lower[k] == ToLowerChar(MARKER[k]) == MARKER[k];
    assert lower[0..|MARKER|] == MARKER;
    assert OccursAt(lower, MARKER, 0);
  }

  lemma MarkerIsPlain()
    ensures forall c :: c in MARKER ==> ToLowerChar(c) == c && c != '\n'
  {
  }
}
