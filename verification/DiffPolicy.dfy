/**
 What an agent's pull request may change: the decision loop and the shipped policy.
 */
module DiffPolicy {
  import opened Text
  import opened Glob
  import opened Approvals

  datatype CommitFile = CommitFile(filename: string, additions: int, deletions: int)

  datatype Policy = Policy(restricted: seq<string>, risky: seq<string>, maxFiles: int, maxLines: int)

  /** One reason a pull request is rejected; the values that the Detail text is rendered from. */
  datatype Violation =
    | RestrictedPath(path: string, pattern: string)
    | RiskyPath(path: string, pattern: string)
    | TooManyFiles(count: int, limit: int)
    | TooManyLines(count: int, limit: int)
  {
    function Reason(): string {
      match this
      case RestrictedPath(_, _) => "restricted-path"
      case RiskyPath(_, _) => "risky-path"
      case TooManyFiles(_, _) => "too-many-files"
      case TooManyLines(_, _) => "too-many-lines"
    }
  }

  function FileViolation(pm: PathMatch, f: CommitFile, approved: seq<string>, policy: Policy): seq<Violation> {
    var restricted := MatchAny(pm, policy.restricted, f.filename);
    var risky := MatchAny(pm, policy.risky, f.filename);
    if restricted.Some? then [RestrictedPath(f.filename, restricted.value)]
    else if risky.Some? && !MatchedByAny(pm, approved, f.filename) then [RiskyPath(f.filename, risky.value)]
    else []
  }

  function FileViolations(pm: PathMatch, files: seq<CommitFile>, approved: seq<string>, policy: Policy): seq<Violation> {
    if files == [] then []
    else FileViolation(pm, files[0], approved, policy) + FileViolations(pm, files[1..], approved, policy)
  }

  function TotalLines(files: seq<CommitFile>): int {
    if files == [] then 0 else files[0].additions + files[0].deletions + TotalLines(files[1..])
  }

  function SizeViolations(files: int, lines: int, policy: Policy): seq<Violation> {
    (if files > policy.maxFiles then [TooManyFiles(files, policy.maxFiles)] else []) +
    (if lines > policy.maxLines then [TooManyLines(lines, policy.maxLines)] else [])
  }

  /** Every violation of the policy by the given file set, in report order. */
  function Violations(pm: PathMatch, files: seq<CommitFile>, body: string, policy: Policy): seq<Violation> {
    FileViolations(pm, files, Approved(body), policy) + SizeViolations(|files|, TotalLines(files), policy)
  }

  method EvaluateDiff(pm: PathMatch, files: seq<CommitFile>, body: string, policy: Policy)
    returns (violations: seq<Violation>)
    ensures violations == Violations(pm, files, body, policy)
  {
    var approved := ParseApprovedGlobs(body);
    violations := [];
    var totalLines := 0;
    for i := 0 to |files|
      invariant violations == FileViolations(pm, files[..i], approved, policy)
      invariant totalLines == TotalLines(files[..i])
    {
      var f := files[i];
      AroundPosition(files, i);
      FilesAppend(pm, files[..i], f, approved, policy);
      totalLines := totalLines + f.additions + f.deletions;
      var restricted := MatchAny(pm, policy.restricted, f.filename);
      if restricted.Some? {
        violations := violations + [RestrictedPath(f.filename, restricted.value)];
        continue;
      }
      var risky := MatchAny(pm, policy.risky, f.filename);
      if risky.Some? {
        if !MatchedByAny(pm, approved, f.filename) {
          violations := violations + [RiskyPath(f.filename, risky.value)];
        }
      }
    }
    assert files[..|files|] == files;
    if |files| > policy.maxFiles {
      violations := violations + [TooManyFiles(|files|, policy.maxFiles)];
    }
    if totalLines > policy.maxLines {
      violations := violations + [TooManyLines(totalLines, policy.maxLines)];
    }
  }

  lemma FilesAppend(pm: PathMatch, files: seq<CommitFile>, f: CommitFile, approved: seq<string>, policy: Policy)
    ensures FileViolations(pm, files + [f], approved, policy)
         == FileViolations(pm, files, approved, policy) + FileViolation(pm, f, approved, policy)
    ensures TotalLines(files + [f]) == TotalLines(files) + f.additions + f.deletions
  {
    FilesConcat(pm, files, [f], approved, policy);
    assert [f][1..] == [];
  }

  lemma {:induction false} FilesConcat(pm: PathMatch, xs: seq<CommitFile>, ys: seq<CommitFile>,
                                       approved: seq<string>, policy: Policy)
    ensures FileViolations(pm, xs + ys, approved, policy)
         == FileViolations(pm, xs, approved, policy) + FileViolations(pm, ys, approved, policy)
    ensures TotalLines(xs + ys) == TotalLines(xs) + TotalLines(ys)
  {
    if xs == [] {
      assert xs + ys == ys;
    } else {
      FilesConcat(pm, xs[1..], ys, approved, policy);
      TailOfConcat(xs, ys);
      Associative(FileViolation(pm, xs[0], approved, policy), FileViolations(pm, xs[1..], approved, policy),
                  FileViolations(pm, ys, approved, policy));
    }
  }

  // ---- the exact decision

  predicate Matches(pm: PathMatch, patterns: seq<string>, p: string) {
    exists pat :: pat in patterns && GlobMatch(pm, pat, p)
  }

  predicate FileAllowed(pm: PathMatch, f: CommitFile, body: string, policy: Policy) {
    && !Matches(pm, policy.restricted, f.filename)
    && (Matches(pm, policy.risky, f.filename) ==> Matches(pm, Approved(body), f.filename))
  }

  /** A file set passes exactly when every file is allowed and both size caps hold. */
  lemma ExactDecision(pm: PathMatch, files: seq<CommitFile>, body: string, policy: Policy)
    ensures Violations(pm, files, body, policy) == [] <==>
            && (forall f :: f in files ==> FileAllowed(pm, f, body, policy))
            && |files| <= policy.maxFiles
            && TotalLines(files) <= policy.maxLines
  {
    NoFileViolations(pm, files, body, policy);
  }

  lemma {:induction false} NoFileViolations(pm: PathMatch, files: seq<CommitFile>, body: string, policy: Policy)
    ensures FileViolations(pm, files, Approved(body), policy) == [] <==>
            forall f :: f in files ==> FileAllowed(pm, f, body, policy)
  {
    if files == [] {
    } else {
      NoFileViolations(pm, files[1..], body, policy);
      OneFile(pm, files[0], body, policy);
      assert files == [files[0]] + files[1..];
    }
  }

  /** Each file is reported at most once, under its own name, and restricted beats risky. */
  lemma OneFile(pm: PathMatch, f: CommitFile, body: string, policy: Policy)
    ensures var vs := FileViolation(pm, f, Approved(body), policy);
            && (vs == [] <==> FileAllowed(pm, f, body, policy))
            && (vs != [] ==> |vs| == 1 && (vs[0].RestrictedPath? || vs[0].RiskyPath?) && vs[0].path == f.filename)
            && (vs != [] && vs[0].RiskyPath? <==>
                  !Matches(pm, policy.restricted, f.filename) && !FileAllowed(pm, f, body, policy))
  {
  }

  /**
   The size entries of a report: each cap that is passed is reported once, under its own name, with the count that
   passed it and the cap; and the files come before the lines.
   */
  lemma SizesExactly(pm: PathMatch, files: seq<CommitFile>, body: string, policy: Policy)
    ensures var vs, lines := Violations(pm, files, body, policy), TotalLines(files);
            var perFile := |FileViolations(pm, files, Approved(body), policy)|;
            && (forall k :: 0 <= k < perFile ==> vs[k].RestrictedPath? || vs[k].RiskyPath?)
            && (|files| <= policy.maxFiles && lines <= policy.maxLines ==> |vs| == perFile)
            && (|files| > policy.maxFiles && lines <= policy.maxLines ==>
                  |vs| == perFile + 1 && vs[perFile] == TooManyFiles(|files|, policy.maxFiles))
            && (|files| <= policy.maxFiles && lines > policy.maxLines ==>
                  |vs| == perFile + 1 && vs[perFile] == TooManyLines(lines, policy.maxLines))
            && (|files| > policy.maxFiles && lines > policy.maxLines ==>
                  && |vs| == perFile + 2
                  && vs[perFile] == TooManyFiles(|files|, policy.maxFiles)
                  && vs[perFile + 1] == TooManyLines(lines, policy.maxLines))
  {
    OnlyFileEntries(pm, files, Approved(body), policy);
    var perFile := FileViolations(pm, files, Approved(body), policy);
    assert forall k :: 0 <= k < |perFile| ==> Violations(pm, files, body, policy)[k] == perFile[k] && perFile[k] in perFile;
  }

  lemma {:induction false} OnlyFileEntries(pm: PathMatch, files: seq<CommitFile>, approved: seq<string>, policy: Policy)
    ensures var vs := FileViolations(pm, files, approved, policy);
            forall v :: v in vs ==> v.RestrictedPath? || v.RiskyPath?
  {
    if files == [] {
    } else {
      OnlyFileEntries(pm, files[1..], approved, policy);
    }
  }

  /** The lines counted are those added and those deleted, of every file. */
  lemma LinesExactly(files: seq<CommitFile>, f: CommitFile)
    ensures TotalLines([]) == 0
    ensures TotalLines(files + [f]) == TotalLines(files) + f.additions + f.deletions
  {
    FilesAppend((pattern, p) => false, files, f, [], Policy([], [], 0, 0));
  }

  /** The order in which the files arrive only permutes the report. */
  lemma OrderIrrelevant(pm: PathMatch, files: seq<CommitFile>, others: seq<CommitFile>, body: string, policy: Policy)
    requires multiset(files) == multiset(others)
    ensures multiset(Violations(pm, files, body, policy)) == multiset(Violations(pm, others, body, policy))
  {
    Permuted(pm, files, others, Approved(body), policy);
    assert |files| == |multiset(files)| == |multiset(others)| == |others|;
  }

  lemma {:induction false} Permuted(pm: PathMatch, xs: seq<CommitFile>, ys: seq<CommitFile>,
                                    approved: seq<string>, policy: Policy)
    requires multiset(xs) == multiset(ys)
    ensures multiset(FileViolations(pm, xs, approved, policy)) == multiset(FileViolations(pm, ys, approved, policy))
    ensures TotalLines(xs) == TotalLines(ys)
    decreases |xs|
  {
    if xs == [] {
      assert |multiset(ys)| == 0;
    } else {
      var k := SameElsewhere(xs, ys);
      var rest := ys[..k] + ys[k + 1..];
      TakeOut(pm, ys, k, approved, policy);
      Permuted(pm, xs[1..], rest, approved, policy);
    }
  }

  lemma SameElsewhere(xs: seq<CommitFile>, ys: seq<CommitFile>) returns (k: nat)
    requires multiset(xs) == multiset(ys) && xs != []
    ensures k < |ys| && ys[k] == xs[0]
    ensures multiset(xs[1..]) == multiset(ys[..k] + ys[k + 1..])
  {
    DetachFirst(xs);
    k := Position(xs[0], ys);
    Detach(ys, k);
  }

  lemma Position<T>(x: T, ys: seq<T>) returns (k: nat)
    requires x in multiset(ys)
    ensures k < |ys| && ys[k] == x
  {
    k :| 0 <= k < |ys| && ys[k] == x;
  }

  lemma Detach<T>(xs: seq<T>, k: nat)
    requires k < |xs|
    ensures multiset(xs[..k] + xs[k + 1..]) == multiset(xs) - multiset{xs[k]}
  {
    AroundPosition(xs, k);
    assert multiset(xs) == multiset(xs[..k]) + multiset([xs[k]]) + multiset(xs[k + 1..]);
  }

  lemma DetachFirst<T>(xs: seq<T>)
    requires xs != []
    ensures multiset(xs[1..]) == multiset(xs) - multiset{xs[0]}
    ensures xs[0] in multiset(xs)
  {
    assert xs == [xs[0]] + xs[1..];
  }

  lemma TakeOut(pm: PathMatch, ys: seq<CommitFile>, k: nat, approved: seq<string>, policy: Policy)
    requires k < |ys|
    ensures var rest := ys[..k] + ys[k + 1..];
            && multiset(FileViolations(pm, ys, approved, policy))
                 == multiset(FileViolation(pm, ys[k], approved, policy)) + multiset(FileViolations(pm, rest, approved, policy))
            && TotalLines(ys) == ys[k].additions + ys[k].deletions + TotalLines(rest)
  {
    var front, y, back := ys[..k], ys[k], ys[k + 1..];
    AroundPosition(ys, k);
    FilesAppend(pm, front, y, approved, policy);
    FilesConcat(pm, front + [y], back, approved, policy);
    FilesConcat(pm, front, back, approved, policy);
  }

  // ---- approvals

  /** The report without the risky-path entries that `approved` covers. */
  function Without(pm: PathMatch, vs: seq<Violation>, approved: seq<string>): seq<Violation> {
    if vs == [] then []
    else if vs[0].RiskyPath? && MatchedByAny(pm, approved, vs[0].path) then Without(pm, vs[1..], approved)
    else [vs[0]] + Without(pm, vs[1..], approved)
  }

  function NotRisky(vs: seq<Violation>): seq<Violation> {
    if vs == [] then []
    else if vs[0].RiskyPath? then NotRisky(vs[1..]) else [vs[0]] + NotRisky(vs[1..])
  }

  /** Text added to the issue removes precisely the risky-path entries it approves, and nothing else changes. */
  lemma AddedApprovals(pm: PathMatch, files: seq<CommitFile>, body: string, extra: string, policy: Policy)
    ensures Violations(pm, files, body + "\n" + extra, policy)
         == Without(pm, Violations(pm, files, body, policy), Approved(extra))
  {
    ApprovedConcat(body, extra);
    MoreApproved(pm, files, Approved(body), Approved(extra), policy);
    var sizes := SizeViolations(|files|, TotalLines(files), policy);
    WithoutConcat(pm, FileViolations(pm, files, Approved(body), policy), sizes, Approved(extra));
    NothingRisky(pm, sizes, Approved(extra));
  }

  lemma {:induction false} NothingRisky(pm: PathMatch, vs: seq<Violation>, approved: seq<string>)
    requires forall v :: v in vs ==> !v.RiskyPath?
    ensures Without(pm, vs, approved) == NotRisky(vs) == vs
  {
    if vs == [] {
    } else {
      NothingRisky(pm, vs[1..], approved);
      assert vs == [vs[0]] + vs[1..];
    }
  }

  lemma {:induction false} WithoutConcat(pm: PathMatch, xs: seq<Violation>, ys: seq<Violation>, approved: seq<string>)
    ensures Without(pm, xs + ys, approved) == Without(pm, xs, approved) + Without(pm, ys, approved)
  {
    if xs == [] {
      assert xs + ys == ys;
    } else {
      WithoutConcat(pm, xs[1..], ys, approved);
      TailOfConcat(xs, ys);
      Associative([xs[0]], Without(pm, xs[1..], approved), Without(pm, ys, approved));
    }
  }

  lemma {:induction false} NotRiskyConcat(xs: seq<Violation>, ys: seq<Violation>)
    ensures NotRisky(xs + ys) == NotRisky(xs) + NotRisky(ys)
  {
    if xs == [] {
      assert xs + ys == ys;
    } else {
      NotRiskyConcat(xs[1..], ys);
      TailOfConcat(xs, ys);
      Associative([xs[0]], NotRisky(xs[1..]), NotRisky(ys));
    }
  }

  lemma {:induction false} MoreApproved(pm: PathMatch, files: seq<CommitFile>,
                                        a: seq<string>, b: seq<string>, policy: Policy)
    ensures FileViolations(pm, files, a + b, policy) == Without(pm, FileViolations(pm, files, a, policy), b)
  {
    if files == [] {
    } else {
      MoreApproved(pm, files[1..], a, b, policy);
      var first := FileViolation(pm, files[0], a, policy);
      WithoutConcat(pm, first, FileViolations(pm, files[1..], a, policy), b);
      assert MatchedByAny(pm, a + b, files[0].filename)
        <==> MatchedByAny(pm, a, files[0].filename) || MatchedByAny(pm, b, files[0].filename);
      assert |first| == 1 ==> first[1..] == [];
    }
  }

  /** The issue body after adding the line that each risky-path entry recommends. */
  function FollowAdvice(body: string, vs: seq<Violation>): string
    decreases vs
  {
    if vs == [] then body
    else if vs[0].RiskyPath? then FollowAdvice(body + "\n" + ApprovalLine([vs[0].pattern]), vs[1..])
    else FollowAdvice(body, vs[1..])
  }

  /** Following the advice clears every risky-path entry and leaves the rest of the report as it was. */
  lemma AdviceIsSound(pm: PathMatch, files: seq<CommitFile>, body: string, policy: Policy)
    requires forall pat :: pat in policy.risky ==> IsToken(pat)
    ensures var vs := Violations(pm, files, body, policy);
            Violations(pm, files, FollowAdvice(body, vs), policy) == NotRisky(vs)
  {
    var vs := Violations(pm, files, body, policy);
    RiskyPatterns(pm, files, Approved(body), policy);
    AdviceText(pm, body, vs);
    AdvisedPatterns(vs);
    var extra := Advised(vs);
    MoreApproved(pm, files, Approved(body), extra, policy);
    var perFile := FileViolations(pm, files, Approved(body), policy);
    var sizes := SizeViolations(|files|, TotalLines(files), policy);
    WithoutConcat(pm, perFile, sizes, extra);
    NotRiskyConcat(perFile, sizes);
    NothingRisky(pm, sizes, extra);
    CoveredByAdvice(pm, perFile, extra);
  }

  function Advised(vs: seq<Violation>): seq<string> {
    if vs == [] then []
    else if vs[0].RiskyPath? then [vs[0].pattern] + Advised(vs[1..]) else Advised(vs[1..])
  }

  ghost predicate WellAdvised(pm: PathMatch, vs: seq<Violation>) {
    forall v :: v in vs && v.RiskyPath? ==> IsToken(v.pattern) && GlobMatch(pm, v.pattern, v.path)
  }

  lemma {:induction false} RiskyPatterns(pm: PathMatch, files: seq<CommitFile>, approved: seq<string>, policy: Policy)
    requires forall pat :: pat in policy.risky ==> IsToken(pat)
    ensures WellAdvised(pm, FileViolations(pm, files, approved, policy))
  {
    if files == [] {
    } else {
      RiskyPatterns(pm, files[1..], approved, policy);
    }
  }

  lemma {:induction false} AdviceText(pm: PathMatch, body: string, vs: seq<Violation>)
    requires WellAdvised(pm, vs)
    ensures Approved(FollowAdvice(body, vs)) == Approved(body) + Advised(vs)
    decreases vs
  {
    if vs == [] {
    } else {
      if vs[0].RiskyPath? {
        var line := ApprovalLine([vs[0].pattern]);
        ApprovedConcat(body, line);
        ApprovalRoundTrip([vs[0].pattern]);
        AdviceText(pm, body + "\n" + line, vs[1..]);
        Associative(Approved(body), [vs[0].pattern], Advised(vs[1..]));
      } else {
        AdviceText(pm, body, vs[1..]);
      }
    }
  }

  lemma {:induction false} AdvisedPatterns(vs: seq<Violation>)
    ensures forall v :: v in vs && v.RiskyPath? ==> v.pattern in Advised(vs)
  {
    if vs == [] {
    } else {
      AdvisedPatterns(vs[1..]);
    }
  }

  lemma {:induction false} CoveredByAdvice(pm: PathMatch, vs: seq<Violation>, extra: seq<string>)
    requires WellAdvised(pm, vs)
    requires forall v :: v in vs && v.RiskyPath? ==> v.pattern in extra
    ensures Without(pm, vs, extra) == NotRisky(vs)
  {
    if vs == [] {
    } else {
      CoveredByAdvice(pm, vs[1..], extra);
      assert vs[0] in vs;
    }
  }

  // ---- the shipped policy

  const RESTRICTED: seq<string> := [
    ".github/**",
    ".devcontainer/**",
    "Dockerfile",
    ".mcp.json",
    "operator/**",
    "deploy/**"
  ]

  const RISKY: seq<string> := [
    "package.json", "**/package.json",
    "package-lock.json", "**/package-lock.json",
    "yarn.lock", "**/yarn.lock",
    "pnpm-lock.yaml", "**/pnpm-lock.yaml",
    "**/Dockerfile",
    "Makefile", "**/Makefile",
    "pyproject.toml", "**/pyproject.toml",
    "setup.py", "**/setup.py",
    "Gemfile", "**/Gemfile",
    "Cargo.toml", "**/Cargo.toml",
    "go.mod", "**/go.mod"
  ]

  /** The default policy, with the two caps that the environment may override. */
  function ShippedPolicy(maxFiles: int, maxLines: int): Policy {
    Policy(RESTRICTED, RISKY, maxFiles, maxLines)
  }

  /** The eleven build and install manifests. */
  const MANIFESTS: seq<string> := [
    "package.json", "package-lock.json", "yarn.lock", "pnpm-lock.yaml", "Dockerfile", "Makefile",
    "pyproject.toml", "setup.py", "Gemfile", "Cargo.toml", "go.mod"
  ]

  const GUARDED_DIRS: seq<string> := [".github", ".devcontainer", "operator", "deploy"]
  const GUARDED_FILES: seq<string> := ["Dockerfile", ".mcp.json"]

  function AnyDepth(name: string): string {
    "**/" + name
  }

  /** Each name in its top-level and its any-depth form. */
  function Paired(names: seq<string>): seq<string> {
    if names == [] then [] else [names[0], AnyDepth(names[0])] + Paired(names[1..])
  }

  /** Each directory as a pattern for everything below it. */
  function Below(dirs: seq<string>): seq<string> {
    if dirs == [] then [] else [dirs[0] + "/**"] + Below(dirs[1..])
  }

  predicate IsPlainName(name: string) {
    IsToken(name) && '*' !in name && '/' !in name
  }

  lemma MatchesConcat(pm: PathMatch, xs: seq<string>, ys: seq<string>, p: string)
    ensures Matches(pm, xs + ys, p) <==> Matches(pm, xs, p) || Matches(pm, ys, p)
  {
    assert forall pat :: pat in xs + ys <==> pat in xs || pat in ys;
  }

  lemma {:induction false} PairedMatches(pm: PathMatch, names: seq<string>, p: string)
    requires forall name :: name in names ==> IsPlainName(name)
    ensures Matches(pm, Paired(names), p) <==> LastSegment(p) in names
    ensures forall pat :: pat in Paired(names) ==> IsToken(pat)
  {
    if names == [] {
    } else {
      PairedMatches(pm, names[1..], p);
      NameForms(pm, names[0], p);
      MatchesConcat(pm, [names[0], AnyDepth(names[0])], Paired(names[1..]), p);
    }
  }

  lemma NameForms(pm: PathMatch, name: string, p: string)
    requires IsPlainName(name)
    ensures Matches(pm, [AnyDepth(name)], p) <==> LastSegment(p) == name
    ensures Matches(pm, [name, AnyDepth(name)], p) <==> LastSegment(p) == name
    ensures IsToken(AnyDepth(name))
  {
    NameGlob(pm, name, p);
    assert AnyDepth(name) in [AnyDepth(name)] && AnyDepth(name) in [name, AnyDepth(name)];
    assert forall k :: 0 <= k < |AnyDepth(name)| ==> AnyDepth(name)[k] == (if k < 3 then "**/"[k] else name[k - 3]);
  }

  lemma {:induction false} BelowMatches(pm: PathMatch, dirs: seq<string>, p: string)
    requires forall dir :: dir in dirs ==> IsPlainName(dir)
    ensures Matches(pm, Below(dirs), p) <==> FirstSegment(p) in dirs
  {
    if dirs == [] {
    } else {
      BelowMatches(pm, dirs[1..], p);
      assert dirs[0] in dirs;
      SplitUnbroken(dirs[0], '/');
      PrefixGlob(pm, dirs[0], p);
      OnePattern(pm, dirs[0] + "/**", p);
      MatchesConcat(pm, [dirs[0] + "/**"], Below(dirs[1..]), p);
    }
  }

  lemma OnePattern(pm: PathMatch, pat: string, p: string)
    ensures Matches(pm, [pat], p) <==> GlobMatch(pm, pat, p)
  {
    assert pat in [pat];
  }

  lemma {:induction false} NamesMatch(pm: PathMatch, names: seq<string>, p: string)
    requires forall name :: name in names ==> IsPlainName(name)
    ensures Matches(pm, names, p) <==> p in names
  {
    forall name | name in names ensures GlobMatch(pm, name, p) <==> p == name {
      NameGlob(pm, name, p);
      SplitUnbroken(name, '/');
      SplitInjective(p, name, '/');
    }
  }

  lemma PairedStep(name: string, names: seq<string>)
    ensures Paired([name] + names) == [name, AnyDepth(name)] + Paired(names)
  {
    assert ([name] + names)[1..] == names;
  }

  lemma PairedOne(a: string)
    ensures Paired([a]) == [a, AnyDepth(a)]
  {
    PairedStep(a, []);
    assert [a] + [] == [a];
  }

  lemma PairedTwo(a: string, b: string)
    ensures Paired([a, b]) == [a, AnyDepth(a), b, AnyDepth(b)]
  {
    PairedOne(b);
    PairedStep(a, [b]);
    assert [a] + [b] == [a, b];
  }

  lemma {:induction false} PairedConcat(xs: seq<string>, ys: seq<string>)
    ensures Paired(xs + ys) == Paired(xs) + Paired(ys)
  {
    if xs == [] {
      assert xs + ys == ys;
    } else {
      PairedConcat(xs[1..], ys);
      TailOfConcat(xs, ys);
      Associative([xs[0], AnyDepth(xs[0])], Paired(xs[1..]), Paired(ys));
    }
  }

  /** The risky list is the manifests at any depth, the Dockerfile without its top-level form. */
  lemma RiskyList()
    ensures RISKY == Paired(MANIFESTS[..4]) + [AnyDepth("Dockerfile")] + Paired(MANIFESTS[5..])
    ensures MANIFESTS == MANIFESTS[..4] + ["Dockerfile"] + MANIFESTS[5..]
  {
    ManifestPatterns();
    BuildPatterns();
    PairedTwo("package.json", "package-lock.json");
    PairedTwo("yarn.lock", "pnpm-lock.yaml");
    PairedConcat(["package.json", "package-lock.json"], ["yarn.lock", "pnpm-lock.yaml"]);
    assert MANIFESTS[..4] == ["package.json", "package-lock.json"] + ["yarn.lock", "pnpm-lock.yaml"];
    PairedTwo("Makefile", "pyproject.toml");
    PairedTwo("setup.py", "Gemfile");
    PairedTwo("Cargo.toml", "go.mod");
    PairedConcat(["Makefile", "pyproject.toml"], ["setup.py", "Gemfile"]);
    PairedConcat(["Makefile", "pyproject.toml"] + ["setup.py", "Gemfile"], ["Cargo.toml", "go.mod"]);
    assert MANIFESTS[5..] == ["Makefile", "pyproject.toml"] + ["setup.py", "Gemfile"] + ["Cargo.toml", "go.mod"];
  }

  lemma ManifestPatterns()
    ensures AnyDepth("package.json") == "**/package.json"
    ensures AnyDepth("package-lock.json") == "**/package-lock.json"
    ensures AnyDepth("yarn.lock") == "**/yarn.lock"
    ensures AnyDepth("pnpm-lock.yaml") == "**/pnpm-lock.yaml"
    ensures AnyDepth("Dockerfile") == "**/Dockerfile"
  {
  }

  lemma BuildPatterns()
    ensures AnyDepth("Makefile") == "**/Makefile"
    ensures AnyDepth("pyproject.toml") == "**/pyproject.toml"
    ensures AnyDepth("setup.py") == "**/setup.py"
    ensures AnyDepth("Gemfile") == "**/Gemfile"
    ensures AnyDepth("Cargo.toml") == "**/Cargo.toml"
    ensures AnyDepth("go.mod") == "**/go.mod"
  {
  }

  lemma LockNames()
    ensures IsPlainName("package.json") && IsPlainName("package-lock.json")
  {
  }

  lemma OtherLockNames()
    ensures IsPlainName("yarn.lock") && IsPlainName("pnpm-lock.yaml")
  {
  }

  lemma BuildNames()
    ensures IsPlainName("Dockerfile") && IsPlainName("Makefile") && IsPlainName("pyproject.toml")
  {
  }

  lemma PackageNames()
    ensures IsPlainName("setup.py") && IsPlainName("Gemfile") && IsPlainName("Cargo.toml") && IsPlainName("go.mod")
  {
  }

  lemma GuardNames()
    ensures IsPlainName(".github") && IsPlainName(".devcontainer") && IsPlainName("operator") && IsPlainName("deploy")
  {
  }

  lemma GuardFileNames()
    ensures IsPlainName("Dockerfile") && IsPlainName(".mcp.json")
  {
  }

  lemma RiskyParts(pm: PathMatch, p: string)
    ensures Matches(pm, RISKY, p) <==> LastSegment(p) in MANIFESTS
    ensures forall pat :: pat in RISKY ==> IsToken(pat)
  {
    LockNames();
    OtherLockNames();
    BuildNames();
    PackageNames();
    RiskyList();
    AroundOne(pm, MANIFESTS[..4], "Dockerfile", MANIFESTS[5..], p);
  }

  lemma AroundOne(pm: PathMatch, xs: seq<string>, name: string, ys: seq<string>, p: string)
    requires forall n :: n in xs + [name] + ys ==> IsPlainName(n)
    ensures Matches(pm, Paired(xs) + [AnyDepth(name)] + Paired(ys), p) <==> LastSegment(p) in xs + [name] + ys
    ensures forall pat :: pat in Paired(xs) + [AnyDepth(name)] + Paired(ys) ==> IsToken(pat)
  {
    assert name in xs + [name] + ys;
    PairedMatches(pm, xs, p);
    PairedMatches(pm, ys, p);
    NameForms(pm, name, p);
    MatchesConcat(pm, Paired(xs), [AnyDepth(name)], p);
    MatchesConcat(pm, Paired(xs) + [AnyDepth(name)], Paired(ys), p);
  }

  /** A path is risky exactly when its last segment is one of the manifests. */
  lemma RiskyPaths(pm: PathMatch, p: string)
    ensures Matches(pm, RISKY, p) <==>
              LastSegment(p) in ["package.json", "package-lock.json", "yarn.lock", "pnpm-lock.yaml", "Dockerfile", "Makefile",
                                 "pyproject.toml", "setup.py", "Gemfile", "Cargo.toml", "go.mod"]
    ensures Matches(pm, RISKY, p) <==> LastSegment(p) in MANIFESTS
  {
    RiskyParts(pm, p);
  }

  /** Moving a file between directories never changes whether it is risky. */
  lemma RiskyAtAnyDepth(pm: PathMatch, dir: string, p: string)
    ensures Matches(pm, RISKY, dir + "/" + p) <==> Matches(pm, RISKY, p)
  {
    RiskyPaths(pm, p);
    RiskyPaths(pm, dir + "/" + p);
    LastOfGlued(dir, p);
  }

  lemma LastOfGlued(dir: string, p: string)
    ensures LastSegment(dir + "/" + p) == LastSegment(p)
  {
    GluedSegments(dir, p);
  }

  lemma BelowTwo(a: string, b: string)
    ensures Below([a, b]) == [a + "/**", b + "/**"]
  {
    assert [a, b][1..] == [b] && [b][1..] == [];
    assert Below([b]) == [b + "/**"] + Below([]);
  }

  lemma RestrictedList()
    ensures RESTRICTED == Below(GUARDED_DIRS[..2]) + GUARDED_FILES + Below(GUARDED_DIRS[2..])
    ensures GUARDED_DIRS == GUARDED_DIRS[..2] + GUARDED_DIRS[2..]
  {
    assert ".github" + "/**" == ".github/**" && ".devcontainer" + "/**" == ".devcontainer/**";
    assert "operator" + "/**" == "operator/**" && "deploy" + "/**" == "deploy/**";
    BelowTwo(".github", ".devcontainer");
    BelowTwo("operator", "deploy");
    assert GUARDED_DIRS[..2] == [".github", ".devcontainer"] && GUARDED_DIRS[2..] == ["operator", "deploy"];
  }

  /** A path is restricted exactly when it lies in a guarded directory or is a guarded top-level file. */
  lemma RestrictedPaths(pm: PathMatch, p: string)
    ensures Matches(pm, RESTRICTED, p) <==>
              || FirstSegment(p) in [".github", ".devcontainer", "operator", "deploy"]
              || p in ["Dockerfile", ".mcp.json"]
    ensures Matches(pm, RESTRICTED, p) <==> FirstSegment(p) in GUARDED_DIRS || p in GUARDED_FILES
  {
    GuardNames();
    GuardFileNames();
    RestrictedList();
    Surrounded(pm, GUARDED_DIRS[..2], GUARDED_FILES, GUARDED_DIRS[2..], p);
  }

  lemma Surrounded(pm: PathMatch, xs: seq<string>, names: seq<string>, ys: seq<string>, p: string)
    requires forall n :: n in xs || n in names || n in ys ==> IsPlainName(n)
    ensures Matches(pm, Below(xs) + names + Below(ys), p) <==> FirstSegment(p) in xs + ys || p in names
  {
    BelowMatches(pm, xs, p);
    BelowMatches(pm, ys, p);
    NamesMatch(pm, names, p);
    MatchesConcat(pm, Below(xs), names, p);
    MatchesConcat(pm, Below(xs) + names, Below(ys), p);
  }

  /** The advice of the shipped policy can be written down as it is. */
  lemma ShippedAdviceIsSound(pm: PathMatch, files: seq<CommitFile>, body: string, maxFiles: int, maxLines: int)
    ensures var policy := ShippedPolicy(maxFiles, maxLines);
            var vs := Violations(pm, files, body, policy);
            Violations(pm, files, FollowAdvice(body, vs), policy) == NotRisky(vs)
  {
    RiskyParts(pm, "");
    AdviceIsSound(pm, files, body, ShippedPolicy(maxFiles, maxLines));
  }
}
