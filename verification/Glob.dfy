/**
 The pattern language of the diff policy. `path.Match` is a parameter: every statement holds for
 whatever single-pattern matcher the library provides.
 */
module Glob {
  import opened Text

  type PathMatch = (string, string) -> bool

  datatype Option<+T> = None | Some(value: T)

  function TrimSlashes(p: string): string {
    if p != "" && p[|p| - 1] == '/' then TrimSlashes(p[..|p| - 1]) else p
  }

  /** Last element of a path after dropping trailing slashes (path.Base). */
  function Base(p: string): string {
    if p == "" then "."
    else
      var parts := Split(TrimSlashes(p), '/');
      if parts[|parts| - 1] == "" then "/" else parts[|parts| - 1]
  }

  predicate GlobMatch(pm: PathMatch, pattern: string, p: string) {
    if HasSuffix(pattern, "/**") then
      var prefix := pattern[..|pattern| - 3];
      p == prefix || HasPrefix(p, prefix + "/")
    else if HasPrefix(pattern, "**/") then
      var suffix := pattern[3..];
      ('*' in suffix && pm(suffix, Base(p))) || p == suffix || HasSuffix(p, "/" + suffix)
    else if '*' in pattern then pm(pattern, p)
    else p == pattern
  }

  /** The first pattern that matches, if any. */
  function MatchAny(pm: PathMatch, patterns: seq<string>, p: string): (pat: Option<string>)
    ensures pat.Some? ==> pat.value in patterns && GlobMatch(pm, pat.value, p)
    ensures pat.None? ==> forall q :: q in patterns ==> !GlobMatch(pm, q, p)
  {
    if patterns == [] then None
    else if GlobMatch(pm, patterns[0], p) then Some(patterns[0])
    else MatchAny(pm, patterns[1..], p)
  }

  predicate MatchedByAny(pm: PathMatch, patterns: seq<string>, p: string) {
    MatchAny(pm, patterns, p).Some?
  }

  // ---- what the two directory forms mean

  function Segments(p: string): seq<string> {
    Split(p, '/')
  }

  predicate EndsWith(xs: seq<string>, ys: seq<string>) {
    |ys| <= |xs| && xs[|xs| - |ys|..] == ys
  }

  /** Gluing with a slash and extending the segments are the same thing. */
  lemma GluedSegments(a: string, b: string)
    ensures Segments(a + "/" + b) == Segments(a) + Segments(b)
  {
    SplitConcat(a, b, '/');
  }

  lemma SegmentsDetermine(p: string, xs: seq<string>, ys: seq<string>)
    requires Segments(p) == xs + ys && |xs| >= 1 && |ys| >= 1
    ensures p == Join(xs, '/') + "/" + Join(ys, '/')
  {
    JoinSplit(p, '/');
    JoinConcat(xs, ys, '/');
  }

  // `<prefix>/**` matches exactly the paths whose segments begin with those of `prefix`.
  lemma PrefixGlob(pm: PathMatch, prefix: string, p: string)
    ensures GlobMatch(pm, prefix + "/**", p) <==> Segments(prefix) <= Segments(p)
  {
    var pattern := prefix + "/**";
    assert pattern[|pattern| - 3..] == "/**" && pattern[..|pattern| - 3] == prefix;
    if HasPrefix(p, prefix + "/") {
      var rest := p[|prefix| + 1..];
      assert p == prefix + "/" + rest;
      GluedSegments(prefix, rest);
    }
    if Segments(prefix) <= Segments(p) {
      var xs, ys := Segments(prefix), Segments(p)[|Segments(prefix)|..];
      assert Segments(p) == xs + ys;
      if ys == [] {
        SplitInjective(p, prefix, '/');
      } else {
        SegmentsDetermine(p, xs, ys);
        JoinSplit(prefix, '/');
        assert p[..|prefix| + 1] == prefix + "/";
      }
    }
  }

  /** A path ends with a slash and `suffix`, or is `suffix`, exactly if its segments end with those of `suffix`. */
  lemma SuffixSegments(suffix: string, p: string)
    ensures p == suffix || HasSuffix(p, "/" + suffix) <==> EndsWith(Segments(p), Segments(suffix))
  {
    if HasSuffix(p, "/" + suffix) {
      var front := p[..|p| - |suffix| - 1];
      assert p == front + "/" + suffix;
      GluedSegments(front, suffix);
    }
    if EndsWith(Segments(p), Segments(suffix)) {
      var n := |Segments(p)| - |Segments(suffix)|;
      var xs, ys := Segments(p)[..n], Segments(suffix);
      assert Segments(p) == xs + ys;
      if n == 0 {
        SplitInjective(p, suffix, '/');
      } else {
        SegmentsDetermine(p, xs, ys);
        JoinSplit(suffix, '/');
        assert p[|p| - |suffix| - 1..] == "/" + suffix;
      }
    }
  }

  // A star-free `**/<suffix>` matches exactly the paths whose segments end with those of `suffix`.
  lemma SuffixGlob(pm: PathMatch, suffix: string, p: string)
    requires '*' !in suffix
    ensures GlobMatch(pm, "**/" + suffix, p) <==> EndsWith(Segments(p), Segments(suffix))
  {
    var pattern := "**/" + suffix;
    StarFreeEnd(pattern);
    assert pattern[..3] == "**/" && pattern[3..] == suffix;
    SuffixSegments(suffix, p);
  }

  lemma StarFreeEnd(pattern: string)
    requires |pattern| >= 1 && pattern[|pattern| - 1] != '*'
    ensures !HasSuffix(pattern, "/**")
  {
    if |pattern| >= 3 {
      assert pattern[|pattern| - 3..][2] == pattern[|pattern| - 1];
    }
  }

  // Any other pattern with a star is for the library's matcher: on the whole path, or after `**/` on its last element.
  lemma StarGlob(pm: PathMatch, pattern: string, p: string)
    requires '*' in pattern && !HasSuffix(pattern, "/**")
    ensures !HasPrefix(pattern, "**/") ==> (GlobMatch(pm, pattern, p) <==> pm(pattern, p))
    ensures HasPrefix(pattern, "**/") && '*' in pattern[3..] ==>
              (GlobMatch(pm, pattern, p) <==> pm(pattern[3..], Base(p)) || EndsWith(Segments(p), Segments(pattern[3..])))
  {
    if HasPrefix(pattern, "**/") {
      SuffixSegments(pattern[3..], p);
    }
  }

  /** The last element of a path is its last segment, wherever there is one. */
  lemma BaseIsLast(p: string)
    requires p != "" && p[|p| - 1] != '/'
    ensures Base(p) == LastSegment(p)
  {
    JoinSplit(p, '/');
    LastNotEmpty(p);
  }

  lemma LastNotEmpty(p: string)
    requires p != "" && p[|p| - 1] != '/'
    ensures LastSegment(p) != ""
  {
    if LastSegment(p) == "" {
      var segments := Segments(p);
      JoinSplit(p, '/');
      if |segments| > 1 {
        var front := segments[..|segments| - 1];
        assert segments == front + [""];
        JoinConcat(front, [""], '/');
      }
    }
  }

  /** A pattern with neither a star nor a slash names one segment. */
  lemma NameGlob(pm: PathMatch, name: string, p: string)
    requires '*' !in name && '/' !in name
    ensures GlobMatch(pm, name, p) <==> Segments(p) == [name]
    ensures GlobMatch(pm, "**/" + name, p) <==> LastSegment(p) == name
  {
    if |name| >= 3 {
      StarFreeEnd(name);
      assert name[..3][0] == name[0];
    }
    SplitUnbroken(name, '/');
    SplitInjective(p, name, '/');
    SuffixGlob(pm, name, p);
  }

  function LastSegment(p: string): string {
    var segments := Segments(p);
    segments[|segments| - 1]
  }

  function FirstSegment(p: string): string {
    Segments(p)[0]
  }
}
