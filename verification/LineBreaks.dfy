/**
 Issue bodies with carriage returns: a line that ends in "\r\n" leaves the "\r" on its last glob, so advice that
 is not on the last line clears nothing.
 */
module LineBreaks {
  import opened Text
  import opened Glob
  import opened Approvals
  import opened DiffPolicy

  const CR := "\r"

  /** All but the last pattern with a carriage return behind it. */
  function WithCr(globs: seq<string>): seq<string> {
    if |globs| <= 1 then globs else [globs[0] + CR] + WithCr(globs[1..])
  }

  lemma TokenCr(glob: string)
    requires IsToken(glob)
    ensures IsToken(glob + CR)
  {
    assert forall k :: 0 <= k < |glob + CR| ==> (glob + CR)[k] == (if k < |glob| then glob[k] else '\r');
  }

  /** What an approval line approves when a carriage return follows it. */
  lemma LineBeforeCr(glob: string)
    requires IsToken(glob)
    ensures Approved(ApprovalLine([glob]) + CR) == [glob + CR]
  {
    TokenCr(glob);
    ApprovalRoundTrip([glob + CR]);
    assert ApprovalLine([glob + CR]) == ApprovalLine([glob]) + CR by {
      Associative(MARKER + " ", glob, CR);
    }
  }

  /** The issue body after adding the recommended lines with "\r\n" between them. */
  function FollowAdviceCrlf(body: string, vs: seq<Violation>): string
    decreases vs
  {
    if vs == [] then body
    else if vs[0].RiskyPath? then FollowAdviceCrlf(body + CR + "\n" + ApprovalLine([vs[0].pattern]), vs[1..])
    else FollowAdviceCrlf(body, vs[1..])
  }

  lemma {:induction false} AdviceTextCrlf(pm: PathMatch, body: string, vs: seq<Violation>)
    requires WellAdvised(pm, vs)
    ensures Approved(FollowAdviceCrlf(body, vs))
         == if Advised(vs) == [] then Approved(body) else Approved(body + CR) + WithCr(Advised(vs))
    decreases vs
  {
    if vs == [] {
    } else {
      if vs[0].RiskyPath? {
        var glob := vs[0].pattern;
        var line := ApprovalLine([glob]);
        AdviceTextCrlf(pm, body + CR + "\n" + line, vs[1..]);
        ApprovedConcat(body + CR, line);
        ApprovalRoundTrip([glob]);
        LineBeforeCr(glob);
        ApprovedConcat(body + CR, line + CR);
        Associative(body + CR + "\n", line, CR);
        Associative(Approved(body + CR), [glob + CR], WithCr(Advised(vs[1..])));
        AdvisedStep(glob, Advised(vs[1..]));
      } else {
        AdviceTextCrlf(pm, body, vs[1..]);
      }
    }
  }

  lemma AdvisedStep(glob: string, rest: seq<string>)
    ensures WithCr([glob] + rest) == if rest == [] then [glob] else [glob + CR] + WithCr(rest)
  {
    assert ([glob] + rest)[1..] == rest;
  }

  /** No risky path is matched by a risky pattern with a carriage return behind it. */
  ghost predicate CrMatchesNothing(pm: PathMatch, policy: Policy) {
    forall pat, p {:trigger CrMatches(pm, pat, p)} ::
      pat in policy.risky && Matches(pm, policy.risky, p) ==> !CrMatches(pm, pat, p)
  }

  predicate CrMatches(pm: PathMatch, pat: string, p: string) {
    GlobMatch(pm, pat + CR, p)
  }

  lemma {:induction false} OnlyTheLast(pm: PathMatch, policy: Policy, globs: seq<string>, p: string)
    requires CrMatchesNothing(pm, policy) && Matches(pm, policy.risky, p)
    requires |globs| >= 1 && forall glob :: glob in globs ==> glob in policy.risky
    ensures MatchedByAny(pm, WithCr(globs), p) <==> GlobMatch(pm, globs[|globs| - 1], p)
  {
    if |globs| == 1 {
    } else {
      OnlyTheLast(pm, policy, globs[1..], p);
      assert globs[0] in globs && !CrMatches(pm, globs[0], p);
      assert MatchAny(pm, [globs[0] + CR] + WithCr(globs[1..]), p).Some? <==> MatchAny(pm, WithCr(globs[1..]), p).Some?;
    }
  }

  ghost predicate FromPolicy(pm: PathMatch, vs: seq<Violation>, policy: Policy) {
    forall v :: v in vs && v.RiskyPath? ==> v.pattern in policy.risky && GlobMatch(pm, v.pattern, v.path)
  }

  lemma {:induction false} ReportsFromPolicy(pm: PathMatch, files: seq<CommitFile>, approved: seq<string>, policy: Policy)
    ensures FromPolicy(pm, FileViolations(pm, files, approved, policy), policy)
  {
    if files == [] {
    } else {
      ReportsFromPolicy(pm, files[1..], approved, policy);
    }
  }

  lemma {:induction false} AdvisedFromPolicy(pm: PathMatch, vs: seq<Violation>, policy: Policy)
    requires FromPolicy(pm, vs, policy)
    ensures forall glob :: glob in Advised(vs) ==> glob in policy.risky
  {
    if vs == [] {
    } else {
      AdvisedFromPolicy(pm, vs[1..], policy);
    }
  }

  lemma {:induction false} WithoutTheLast(pm: PathMatch, vs: seq<Violation>, globs: seq<string>, policy: Policy)
    requires FromPolicy(pm, vs, policy) && CrMatchesNothing(pm, policy)
    requires |globs| >= 1 && forall glob :: glob in globs ==> glob in policy.risky
    ensures Without(pm, vs, WithCr(globs)) == Without(pm, vs, [globs[|globs| - 1]])
  {
    if vs == [] {
    } else {
      WithoutTheLast(pm, vs[1..], globs, policy);
      if vs[0].RiskyPath? {
        assert vs[0] in vs && Matches(pm, policy.risky, vs[0].path);
        OnlyTheLast(pm, policy, globs, vs[0].path);
      }
    }
  }

  /**
   Advice followed with "\r\n" line breaks: of the report on the old body with a carriage return behind it, exactly
   the entries that the last recommended pattern matches are gone.
   */
  lemma CrlfAdviceExactly(pm: PathMatch, files: seq<CommitFile>, body: string, policy: Policy)
    requires (forall pat :: pat in policy.risky ==> IsToken(pat)) && CrMatchesNothing(pm, policy)
    requires Advised(Violations(pm, files, body, policy)) != []
    ensures var vs := Violations(pm, files, body, policy);
            Violations(pm, files, FollowAdviceCrlf(body, vs), policy)
              == Without(pm, Violations(pm, files, body + CR, policy), [LastAdvised(vs)])
  {
    CrlfReport(pm, files, body, Violations(pm, files, body, policy), policy);
  }

  lemma CrlfReport(pm: PathMatch, files: seq<CommitFile>, body: string, vs: seq<Violation>, policy: Policy)
    requires (forall pat :: pat in policy.risky ==> IsToken(pat)) && CrMatchesNothing(pm, policy)
    requires vs == Violations(pm, files, body, policy) && Advised(vs) != []
    ensures Violations(pm, files, FollowAdviceCrlf(body, vs), policy)
         == Without(pm, Violations(pm, files, body + CR, policy), [LastAdvised(vs)])
  {
    AdvisedByCrlf(pm, files, body, vs, policy);
    ReportsAlike(pm, files, body + CR, FollowAdviceCrlf(body, vs), Advised(vs), LastAdvised(vs), policy);
  }

  lemma ReportsAlike(pm: PathMatch, files: seq<CommitFile>, before: string, text: string, globs: seq<string>, last: string,
                     policy: Policy)
    requires CrMatchesNothing(pm, policy)
    requires |globs| >= 1 && last == globs[|globs| - 1] && forall glob :: glob in globs ==> glob in policy.risky
    requires Approved(text) == Approved(before) + WithCr(globs)
    ensures Violations(pm, files, text, policy) == Without(pm, Violations(pm, files, before, policy), [last])
  {
    ApprovedAlike(pm, files, Approved(before), globs, policy);
  }

  function LastAdvised(vs: seq<Violation>): string
    requires Advised(vs) != []
  {
    var globs := Advised(vs);
    globs[|globs| - 1]
  }

  lemma AdvisedByCrlf(pm: PathMatch, files: seq<CommitFile>, body: string, vs: seq<Violation>, policy: Policy)
    requires forall pat :: pat in policy.risky ==> IsToken(pat)
    requires vs == Violations(pm, files, body, policy) && Advised(vs) != []
    ensures Approved(FollowAdviceCrlf(body, vs)) == Approved(body + CR) + WithCr(Advised(vs))
    ensures forall glob :: glob in Advised(vs) ==> glob in policy.risky
  {
    RiskyPatterns(pm, files, Approved(body), policy);
    AdviceTextCrlf(pm, body, vs);
    ReportsFromPolicy(pm, files, Approved(body), policy);
    AdvisedFromPolicy(pm, vs, policy);
  }

  /** What becomes of a report when patterns are approved with carriage returns but for the last. */
  lemma ApprovedAlike(pm: PathMatch, files: seq<CommitFile>, approved: seq<string>, globs: seq<string>, policy: Policy)
    requires CrMatchesNothing(pm, policy)
    requires |globs| >= 1 && forall glob :: glob in globs ==> glob in policy.risky
    ensures var sizes := SizeViolations(|files|, TotalLines(files), policy);
            FileViolations(pm, files, approved + WithCr(globs), policy) + sizes
              == Without(pm, FileViolations(pm, files, approved, policy) + sizes, [globs[|globs| - 1]])
  {
    var last := [globs[|globs| - 1]];
    var perFile := FileViolations(pm, files, approved, policy);
    var sizes := SizeViolations(|files|, TotalLines(files), policy);
    MoreApproved(pm, files, approved, WithCr(globs), policy);
    ReportsFromPolicy(pm, files, approved, policy);
    WithoutTheLast(pm, perFile, globs, policy);
    WithoutConcat(pm, perFile, sizes, last);
    NothingRisky(pm, sizes, last);
  }

  lemma {:induction false} WithoutClears(pm: PathMatch, vs: seq<Violation>, approved: seq<string>)
    ensures (forall v :: v in Without(pm, vs, approved) ==> !v.RiskyPath?) <==>
              forall v :: v in vs && v.RiskyPath? ==> MatchedByAny(pm, approved, v.path)
  {
    if vs == [] {
    } else {
      WithoutClears(pm, vs[1..], approved);
      assert vs == [vs[0]] + vs[1..];
    }
  }

  /** Such advice clears the risky entries exactly when its last pattern matches all of them. */
  lemma CrlfAdviceClears(pm: PathMatch, files: seq<CommitFile>, body: string, policy: Policy)
    requires (forall pat :: pat in policy.risky ==> IsToken(pat)) && CrMatchesNothing(pm, policy)
    requires Advised(Violations(pm, files, body, policy)) != []
    ensures var vs := Violations(pm, files, body, policy);
            NothingRiskyIn(Violations(pm, files, FollowAdviceCrlf(body, vs), policy)) <==>
              CoversRisky(pm, LastAdvised(vs), Violations(pm, files, body + CR, policy))
  {
    var vs := Violations(pm, files, body, policy);
    CrlfAdviceExactly(pm, files, body, policy);
    ClearedByOne(pm, Violations(pm, files, body + CR, policy), LastAdvised(vs),
                 Violations(pm, files, FollowAdviceCrlf(body, vs), policy));
  }

  lemma ClearedByOne(pm: PathMatch, vs: seq<Violation>, glob: string, left: seq<Violation>)
    requires left == Without(pm, vs, [glob])
    ensures NothingRiskyIn(left) <==> CoversRisky(pm, glob, vs)
  {
    WithoutClears(pm, vs, [glob]);
    forall p ensures MatchedByAny(pm, [glob], p) <==> GlobMatch(pm, glob, p) {
      assert MatchAny(pm, [], p).None?;
    }
  }

  predicate NothingRiskyIn(vs: seq<Violation>) {
    forall v :: v in vs ==> !v.RiskyPath?
  }

  predicate CoversRisky(pm: PathMatch, glob: string, vs: seq<Violation>) {
    forall v :: v in vs && v.RiskyPath? ==> GlobMatch(pm, glob, v.path)
  }

  // ---- the shipped policy

  predicate NoCr(name: string) {
    '\r' !in name
  }

  lemma ManifestsNoCr()
    ensures forall name :: name in MANIFESTS ==> NoCr(name) && IsPlainName(name)
  {
    LockNames();
    OtherLockNames();
    BuildNames();
    PackageNames();
    LockNoCr();
    BuildNoCr();
  }

  lemma LockNoCr()
    ensures NoCr("package.json") && NoCr("package-lock.json") && NoCr("yarn.lock") && NoCr("pnpm-lock.yaml")
  {
  }

  lemma BuildNoCr()
    ensures NoCr("Dockerfile") && NoCr("Makefile") && NoCr("pyproject.toml") && NoCr("setup.py")
    ensures NoCr("Gemfile") && NoCr("Cargo.toml") && NoCr("go.mod")
  {
  }

  lemma {:induction false} PairedForms(names: seq<string>)
    ensures forall pat :: pat in Paired(names) ==> exists name :: name in names && (pat == name || pat == AnyDepth(name))
  {
    if names == [] {
    } else {
      PairedForms(names[1..]);
      forall pat | pat in Paired(names) ensures exists name :: name in names && (pat == name || pat == AnyDepth(name)) {
        if pat in Paired(names[1..]) {
          var name :| name in names[1..] && (pat == name || pat == AnyDepth(name));
          assert name in names;
        } else {
          assert names[0] in names;
        }
      }
    }
  }

  /** Every risky pattern is a manifest's name, at the top or at any depth. */
  lemma RiskyForms(pat: string)
    requires pat in RISKY
    ensures exists name :: name in MANIFESTS && (pat == name || pat == AnyDepth(name))
  {
    RiskyList();
    FormsAround(MANIFESTS[..4], "Dockerfile", MANIFESTS[5..], pat);
  }

  lemma FormsAround(xs: seq<string>, name: string, ys: seq<string>, pat: string)
    requires pat in Paired(xs) + [AnyDepth(name)] + Paired(ys)
    ensures exists nm :: nm in xs + [name] + ys && (pat == nm || pat == AnyDepth(nm))
  {
    PairedForms(xs);
    PairedForms(ys);
    assert name in xs + [name] + ys;
    if pat in Paired(xs) {
      var nm :| nm in xs && (pat == nm || pat == AnyDepth(nm));
      assert nm in xs + [name] + ys;
    } else if pat in Paired(ys) {
      var nm :| nm in ys && (pat == nm || pat == AnyDepth(nm));
      assert nm in xs + [name] + ys;
    }
  }

  /** Under the shipped policy a pattern with a carriage return behind it matches no risky path. */
  lemma ShippedCr(pm: PathMatch, maxFiles: int, maxLines: int)
    ensures CrMatchesNothing(pm, ShippedPolicy(maxFiles, maxLines))
  {
    forall pat, p | pat in RISKY && Matches(pm, RISKY, p) ensures !CrMatches(pm, pat, p) {
      RiskyPaths(pm, p);
      ManifestsNoCr();
      RiskyForms(pat);
      var name :| name in MANIFESTS && (pat == name || pat == AnyDepth(name));
      PlainCr(pm, name, p);
      assert AnyDepth(name) + CR == AnyDepth(name + CR);
    }
  }

  lemma PlainCr(pm: PathMatch, name: string, p: string)
    requires IsPlainName(name) && NoCr(LastSegment(p))
    ensures !GlobMatch(pm, name + CR, p) && !GlobMatch(pm, AnyDepth(name + CR), p)
  {
    var long := name + CR;
    assert long[|name|] == '\r' && '\r' in long;
    assert forall k :: 0 <= k < |long| ==> long[k] == (if k < |name| then name[k] else '\r');
    NameGlob(pm, long, p);
    assert Segments(p) == [long] ==> LastSegment(p) == long;
  }

  /** The same for the shipped policy, for any caps. */
  lemma ShippedCrlfClears(pm: PathMatch, files: seq<CommitFile>, body: string, maxFiles: int, maxLines: int)
    requires Advised(Violations(pm, files, body, ShippedPolicy(maxFiles, maxLines))) != []
    ensures var policy := ShippedPolicy(maxFiles, maxLines);
            var vs := Violations(pm, files, body, policy);
            NothingRiskyIn(Violations(pm, files, FollowAdviceCrlf(body, vs), policy)) <==>
              CoversRisky(pm, LastAdvised(vs), Violations(pm, files, body + CR, policy))
  {
    ShippedCr(pm, maxFiles, maxLines);
    RiskyParts(pm, "");
    CrlfAdviceClears(pm, files, body, ShippedPolicy(maxFiles, maxLines));
  }

  lemma {:induction false} NoAdvice(vs: seq<Violation>)
    requires forall v :: v in vs ==> !v.RiskyPath?
    ensures Advised(vs) == []
  {
    if vs == [] {
    } else {
      NoAdvice(vs[1..]);
    }
  }

  lemma NothingApproved()
    ensures Approved("") == [] && Approved(CR) == []
  {
    SplitUnbroken("", '\n');
    SplitUnbroken(CR, '\n');
    NoMarker("");
    NoMarker(CR);
    AllGlobsAppend([], "");
    AllGlobsAppend([], CR);
    assert [] + [""] == [""] && [] + [CR] == [CR];
  }

  lemma NoMarker(line: string)
    requires |line| < |MARKER|
    ensures LineGlobs(line) == []
  {
    assert !OccursAt(ToLower(line), MARKER, Index(ToLower(line), MARKER));
  }

  /** A file that only the risky list is about. */
  ghost predicate JustRisky(pm: PathMatch, f: CommitFile) {
    LastSegment(f.filename) in MANIFESTS && !Matches(pm, RESTRICTED, f.filename)
  }

  lemma RiskyReport(pm: PathMatch, f: CommitFile, policy: Policy) returns (pat: string)
    requires JustRisky(pm, f) && policy.restricted == RESTRICTED && policy.risky == RISKY
    ensures FileViolation(pm, f, [], policy) == [RiskyPath(f.filename, pat)]
    ensures pat in RISKY && GlobMatch(pm, pat, f.filename)
  {
    RiskyPaths(pm, f.filename);
    pat := ReportOf(pm, f, policy);
  }

  lemma ReportOf(pm: PathMatch, f: CommitFile, policy: Policy) returns (pat: string)
    requires Matches(pm, policy.risky, f.filename) && !Matches(pm, policy.restricted, f.filename)
    ensures FileViolation(pm, f, [], policy) == [RiskyPath(f.filename, pat)]
    ensures pat in policy.risky && GlobMatch(pm, pat, f.filename)
  {
    pat := MatchAny(pm, policy.risky, f.filename).value;
    assert MatchAny(pm, [], f.filename).None?;
  }

  /** A risky pattern matches only paths that end in one and the same name. */
  lemma OneName(pm: PathMatch, pat: string, p: string, q: string)
    requires pat in RISKY && GlobMatch(pm, pat, p) && GlobMatch(pm, pat, q)
    ensures LastSegment(p) == LastSegment(q)
  {
    ManifestsNoCr();
    RiskyForms(pat);
    var name :| name in MANIFESTS && (pat == name || pat == AnyDepth(name));
    NameGlob(pm, name, p);
    NameGlob(pm, name, q);
  }

  lemma TwoFiles(pm: PathMatch, first: CommitFile, second: CommitFile, body: string, policy: Policy, a: Violation, b: Violation)
    requires Approved(body) == []
    requires FileViolation(pm, first, [], policy) == [a] && FileViolation(pm, second, [], policy) == [b]
    ensures Violations(pm, [first, second], body, policy)
         == [a, b] + SizeViolations(2, TotalLines([first, second]), policy)
  {
    FilesAppend(pm, [], first, [], policy);
    FilesAppend(pm, [first], second, [], policy);
    assert [] + [first] == [first] && [first] + [second] == [first, second];
    assert [] + [a] == [a] && [a] + [b] == [a, b];
  }

  /** Two manifests of different names and no approvals yet: after the advice with "\r\n", the first is still reported. */
  lemma CrlfKeepsFirst(pm: PathMatch, first: CommitFile, second: CommitFile, maxFiles: int, maxLines: int)
    requires JustRisky(pm, first) && JustRisky(pm, second)
    requires LastSegment(first.filename) != LastSegment(second.filename)
    ensures var policy, files := ShippedPolicy(maxFiles, maxLines), [first, second];
            exists v :: v in Violations(pm, files, FollowAdviceCrlf("", Violations(pm, files, "", policy)), policy)
                        && v.RiskyPath? && v.path == first.filename
  {
    var policy, files := ShippedPolicy(maxFiles, maxLines), [first, second];
    NothingApproved();
    ShippedCr(pm, maxFiles, maxLines);
    RiskyParts(pm, "");
    var patA := RiskyReport(pm, first, policy);
    var patB := RiskyReport(pm, second, policy);
    if GlobMatch(pm, patB, first.filename) {
      OneName(pm, patB, first.filename, second.filename);
    }
    FirstStays(pm, first, second, policy, patA, patB);
  }

  lemma FirstStays(pm: PathMatch, first: CommitFile, second: CommitFile, policy: Policy, patA: string, patB: string)
    requires (forall pat :: pat in policy.risky ==> IsToken(pat)) && CrMatchesNothing(pm, policy)
    requires Approved("") == [] && Approved(CR) == []
    requires FileViolation(pm, first, [], policy) == [RiskyPath(first.filename, patA)]
    requires FileViolation(pm, second, [], policy) == [RiskyPath(second.filename, patB)]
    requires !GlobMatch(pm, patB, first.filename)
    ensures var files := [first, second];
            RiskyPath(first.filename, patA)
              in Violations(pm, files, FollowAdviceCrlf("", Violations(pm, files, "", policy)), policy)
  {
    var files, a, b := [first, second], RiskyPath(first.filename, patA), RiskyPath(second.filename, patB);
    var sizes := SizeViolations(2, TotalLines(files), policy);
    TwoFiles(pm, first, second, "", policy, a, b);
    TwoFiles(pm, first, second, CR, policy, a, b);
    TwoAdvised(a, b, sizes);
    CrlfAdviceExactly(pm, files, "", policy);
    assert "" + CR == CR;
    KeepsUnmatched(pm, [a, b] + sizes, [patB]);
    assert a in [a, b] + sizes && MatchAny(pm, [], a.path).None?;
  }

  lemma TwoAdvised(a: Violation, b: Violation, sizes: seq<Violation>)
    requires a.RiskyPath? && b.RiskyPath? && forall v :: v in sizes ==> !v.RiskyPath?
    ensures Advised([a, b] + sizes) == [a.pattern, b.pattern]
  {
    NoAdvice(sizes);
    assert ([a, b] + sizes)[1..] == [b] + sizes && ([b] + sizes)[1..] == sizes;
  }

  lemma {:induction false} KeepsUnmatched(pm: PathMatch, vs: seq<Violation>, approved: seq<string>)
    ensures forall v :: v in vs && !(v.RiskyPath? && MatchedByAny(pm, approved, v.path)) ==> v in Without(pm, vs, approved)
  {
    if vs == [] {
    } else {
      KeepsUnmatched(pm, vs[1..], approved);
    }
  }

  /** For instance these two. */
  lemma CrlfExample(pm: PathMatch, first: CommitFile, second: CommitFile, maxFiles: int, maxLines: int)
    requires first.filename == "package.json" && second.filename == "package-lock.json"
    ensures var policy, files := ShippedPolicy(maxFiles, maxLines), [first, second];
            exists v :: v in Violations(pm, files, FollowAdviceCrlf("", Violations(pm, files, "", policy)), policy)
                        && v.RiskyPath? && v.path == "package.json"
  {
    assert MANIFESTS[0] == "package.json" && MANIFESTS[1] == "package-lock.json";
    TopManifest(pm, first.filename);
    TopManifest(pm, second.filename);
    CrlfKeepsFirst(pm, first, second, maxFiles, maxLines);
  }

  lemma NotGuarded(name: string)
    requires |name| == 12 || |name| > 13
    ensures name !in GUARDED_DIRS && name !in GUARDED_FILES
  {
  }

  lemma TopManifest(pm: PathMatch, name: string)
    requires name in MANIFESTS && (|name| == 12 || |name| > 13)
    ensures LastSegment(name) == name && !Matches(pm, RESTRICTED, name)
  {
    ManifestsNoCr();
    NotGuarded(name);
    TopLevel(pm, name);
  }

  lemma TopLevel(pm: PathMatch, name: string)
    requires '/' !in name && name !in GUARDED_DIRS && name !in GUARDED_FILES
    ensures LastSegment(name) == name && !Matches(pm, RESTRICTED, name)
  {
    SplitUnbroken(name, '/');
    RestrictedPaths(pm, name);
  }
}
