/**
 The approval parser on any text, byte by byte, with the library's lowercasing as a parameter: it indexes the
 line with a position found in the lowercased line, so it stays in bounds only while lowercasing does not push the
 marker past the end.
 */
module NonAscii {
  import opened Text
  import opened Glob
  import opened Approvals

  type Lower = string -> string

  /** The globs of one line; none if the slice after the marker starts beyond the line's end. */
  function GlobsOf(low: Lower, line: string): Option<seq<string>> {
    var at := Index(low(line), MARKER);
    if at < 0 then Some([])
    else if at + |MARKER| > |line| then None
    else Some(Fields(line[at + |MARKER|..]))
  }

  function GlobsOfAll(low: Lower, lines: seq<string>): Option<seq<string>> {
    if lines == [] then Some([])
    else
      var first, rest := GlobsOf(low, lines[0]), GlobsOfAll(low, lines[1..]);
      if first.None? || rest.None? then None else Some(first.value + rest.value)
  }

  /** What the parser returns for a body; none where it slices out of bounds. */
  function ParsedBody(low: Lower, body: string): Option<seq<string>> {
    GlobsOfAll(low, Split(body, '\n'))
  }

  /** Lowercasing leaves the end of the marker within the line. */
  predicate MarkerInside(low: Lower, line: string) {
    Index(low(line), MARKER) >= 0 ==> Index(low(line), MARKER) + |MARKER| <= |line|
  }

  /** The parser stays in bounds exactly on the bodies whose lines all keep their marker inside. */
  lemma InBoundsExactly(low: Lower, body: string)
    ensures ParsedBody(low, body).Some? <==> forall line :: line in Split(body, '\n') ==> MarkerInside(low, line)
  {
    AllInBounds(low, Split(body, '\n'));
  }

  lemma {:induction false} AllInBounds(low: Lower, lines: seq<string>)
    ensures GlobsOfAll(low, lines).Some? <==> forall line :: line in lines ==> MarkerInside(low, line)
  {
    if lines == [] {
    } else {
      AllInBounds(low, lines[1..]);
      assert lines[0] in lines && lines == [lines[0]] + lines[1..];
      assert GlobsOf(low, lines[0]).Some? <==> MarkerInside(low, lines[0]);
    }
  }

  /** On lines that are lowercased as ASCII is, the parser returns the approved globs. */
  lemma AsciiBody(low: Lower, body: string)
    requires forall line :: line in Split(body, '\n') ==> low(line) == ToLower(line)
    ensures ParsedBody(low, body) == Some(Approved(body))
  {
    AsciiLines(low, Split(body, '\n'));
  }

  lemma {:induction false} AsciiLines(low: Lower, lines: seq<string>)
    requires forall line :: line in lines ==> low(line) == ToLower(line)
    ensures GlobsOfAll(low, lines) == Some(AllGlobs(lines))
  {
    if lines == [] {
    } else {
      AsciiLines(low, lines[1..]);
      assert lines[0] in lines;
    }
  }

  /** A prefix that grows, with nothing after the marker, takes the slice out of bounds. */
  lemma GrownPrefix(low: Lower, prefix: string, grown: string)
    requires '\n' !in prefix && |grown| > |prefix|
    requires low(prefix + MARKER) == grown + MARKER && Index(grown + MARKER, MARKER) == |grown|
    ensures ParsedBody(low, prefix + MARKER).None?
  {
    var line := prefix + MARKER;
    MarkerIsPlain();
    SplitUnbroken(line, '\n');
    AllInBounds(low, [line]);
    assert !MarkerInside(low, line) && line in [line];
  }

  /** For instance the letter U+023A, two bytes of UTF-8, whose lower case U+2C65 takes three. */
  lemma LetterThatGrows(low: Lower)
    requires low([0xC8 as char, 0xBA as char] + MARKER) == [0xE2 as char, 0xB1 as char, 0xA5 as char] + MARKER
    ensures ParsedBody(low, [0xC8 as char, 0xBA as char] + MARKER).None?
  {
    var prefix, grown := [0xC8 as char, 0xBA as char], [0xE2 as char, 0xB1 as char, 0xA5 as char];
    assert MARKER[0] == 'a' && 'a' !in grown;
    AfterOthers(grown, MARKER);
    GrownPrefix(low, prefix, grown);
  }

  lemma AfterOthers(prefix: string, sub: string)
    requires sub != "" && sub[0] !in prefix
    ensures Index(prefix + sub, sub) == |prefix|
  {
    var s := prefix + sub;
    assert s[|prefix|..|prefix| + |sub|] == sub;
    assert OccursAt(s, sub, |prefix|);
    var at := Index(s, sub);
    assert s[at] == s[at..at + |sub|][0];
  }
}
