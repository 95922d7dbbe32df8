/**
 The operator's data: DevTasks, sandbox namespaces and what GitHub returns, with the pure
 decisions taken on them. Times are whole seconds, the precision of a stored status.
 */
module Domain {
  import opened Text
  import opened Glob

  // ---- the DevTask resource

  /** `Unset` is the empty phase of a freshly created resource. */
  datatype Phase =
    | Unset | Pending | Building | Running | AwaitingReview | AwaitingRevision
    | BlockedOnClarification | Failed | Completed

  predicate IsTerminal(phase: Phase) {
    phase.Completed? || phase.Failed?
  }

  datatype Spec = Spec(issueNumber: int, repo: string)

  datatype Status = Status(
    phase: Phase, namespace: string, prNumber: int,
    startedAt: Option<nat>, failedAt: Option<nat>, message: string)

  const FRESH := Status(Unset, "", 0, None, None, "")

  datatype Task = Task(name: string, spec: Spec, status: Status)

  predicate IsRepoChar(c: char) {
    'a' <= c <= 'z' || 'A' <= c <= 'Z' || '0' <= c <= '9' || c == '_' || c == '.' || c == '-'
  }

  predicate IsRepoPart(s: string) {
    s != "" && forall k :: 0 <= k < |s| ==> IsRepoChar(s[k])
  }

  /** What the resource schema admits. */
  predicate ValidSpec(spec: Spec) {
    && spec.issueNumber >= 1
    && var parts := Split(spec.repo, '/'); |parts| == 2 && IsRepoPart(parts[0]) && IsRepoPart(parts[1])
  }

  // ---- names

  predicate IsLowerAlnum(c: char) {
    'a' <= c <= 'z' || '0' <= c <= '9'
  }

  /** What the API server accepts as the name of a DevTask: lower-case labels between dots, none with a dash at its ends. */
  predicate IsObjectName(s: string) {
    |s| <= 253 && IsDotted(s)
  }

  predicate IsDotted(s: string) {
    && s != "" && IsLowerAlnum(s[0]) && IsLowerAlnum(s[|s| - 1])
    && forall k :: 0 <= k < |s| ==> FitsName(s, k)
  }

  predicate FitsName(s: string, k: nat)
    requires k < |s|
  {
    || IsLowerAlnum(s[k])
    || s[k] == '-'
    || (s[k] == '.' && 0 < k < |s| - 1 && IsLowerAlnum(s[k - 1]) && IsLowerAlnum(s[k + 1]))
  }

  predicate IsLabel(s: string) {
    && s != "" && IsLowerAlnum(s[0]) && IsLowerAlnum(s[|s| - 1])
    && forall k :: 0 <= k < |s| ==> IsLowerAlnum(s[k]) || s[k] == '-'
  }

  /** Such a name is a list of labels with dots between them. */
  lemma ObjectNameExactly(s: string)
    ensures IsObjectName(s) <==>
              |s| <= 253 && forall part :: part in Split(s, '.') ==>
                && part != ""
                && (forall c :: c in part ==> 'a' <= c <= 'z' || '0' <= c <= '9' || c == '-')
                && part[0] != '-' && part[|part| - 1] != '-'
  {
    Labels(s);
    forall part | part in Split(s, '.')
      ensures IsLabel(part) <==>
                && part != ""
                && (forall c :: c in part ==> 'a' <= c <= 'z' || '0' <= c <= '9' || c == '-')
                && part[0] != '-' && part[|part| - 1] != '-'
    {
      LabelExactly(part);
    }
  }

  lemma LabelExactly(part: string)
    ensures IsLabel(part) <==>
              && part != ""
              && (forall c :: c in part ==> 'a' <= c <= 'z' || '0' <= c <= '9' || c == '-')
              && part[0] != '-' && part[|part| - 1] != '-'
  {
    assert (forall c :: c in part ==> IsLowerAlnum(c) || c == '-') <==>
           (forall k :: 0 <= k < |part| ==> IsLowerAlnum(part[k]) || part[k] == '-');
  }

  lemma {:induction false} Labels(s: string)
    ensures IsDotted(s) <==> forall part :: part in Split(s, '.') ==> IsLabel(part)
    decreases |s|
  {
    if '.' !in s {
      SplitUnbroken(s, '.');
      Undotted(s);
    } else {
      var a, b := FirstDot(s);
      SplitConcat(a, b, '.');
      SplitUnbroken(a, '.');
      Labels(b);
      DottedParts(a, b);
    }
  }

  lemma Undotted(s: string)
    requires '.' !in s
    ensures IsDotted(s) <==> IsLabel(s)
  {
    if IsDotted(s) {
      forall k | 0 <= k < |s| ensures IsLowerAlnum(s[k]) || s[k] == '-' {
        assert FitsName(s, k) && s[k] in s;
      }
    }
  }

  lemma FirstDot(s: string) returns (a: string, b: string)
    requires '.' in s
    ensures s == a + ['.'] + b && '.' !in a && |b| < |s|
  {
    var d :| 0 <= d < |s| && s[d] == '.';
    var k := 0;
    while s[k] != '.'
      invariant 0 <= k <= d && '.' !in s[..k]
      decreases d - k
    {
      AroundPosition(s, k);
      k := k + 1;
    }
    AroundPosition(s, k);
    a, b := s[..k], s[k + 1..];
  }

  lemma DottedParts(a: string, b: string)
    requires '.' !in a
    ensures IsDotted(a + ['.'] + b) <==> IsLabel(a) && IsDotted(b)
  {
    hide IsDotted, IsLabel;
    if IsDotted(a + ['.'] + b) {
      PartBefore(a, b);
      PartAfter(a, b);
    }
    if IsLabel(a) && IsDotted(b) {
      PartsTogether(a, b);
    }
  }

  lemma PartBefore(a: string, b: string)
    requires '.' !in a && IsDotted(a + ['.'] + b)
    ensures IsLabel(a)
  {
    var s := a + ['.'] + b;
    assert FitsName(s, |a|) && s[0] == a[0] && s[|a| - 1] == a[|a| - 1];
    forall k | 0 <= k < |a| ensures IsLowerAlnum(a[k]) || a[k] == '-' {
      assert FitsName(s, k) && s[k] == a[k];
    }
  }

  lemma PartAfter(a: string, b: string)
    requires IsDotted(a + ['.'] + b)
    ensures IsDotted(b)
  {
    var s := a + ['.'] + b;
    assert FitsName(s, |a|) && s[|s| - 1] == b[|b| - 1] && s[|a| + 1] == b[0];
    assert s[|a| + 1..] == b;
    forall k | 0 <= k < |b| ensures FitsName(b, k) {
      assert FitsName(s, |a| + 1 + k);
    }
  }

  lemma PartsTogether(a: string, b: string)
    requires IsLabel(a) && IsDotted(b)
    ensures IsDotted(a + ['.'] + b)
  {
    var s := a + ['.'] + b;
    assert s[|s| - 1] == b[|b| - 1];
    forall k | 0 <= k < |s| ensures FitsName(s, k) {
      if k > |a| {
        assert FitsName(b, k - |a| - 1);
      }
    }
  }

  /** The part of "owner/name" after the first slash. */
  function RepoName(repo: string): string {
    var k := Index(repo, "/");
    if k < 0 then repo else repo[k + 1..]
  }

  function NumberText(n: int): string {
    if n < 0 then "-" + Decimal(-n) else Decimal(n)
  }

  function TaskNamespace(spec: Spec): string {
    "devtask-" + NumberText(spec.issueNumber)
  }

  function TaskName(repo: string, issueNumber: int): string {
    RepoName(repo) + "-" + NumberText(issueNumber)
  }

  function Branch(issueNumber: int): string {
    "claude/issue-" + NumberText(issueNumber)
  }

  predicate IsTaskBranch(ref: string, issueNumber: int) {
    HasPrefix(ref, Branch(issueNumber) + "-") || ref == Branch(issueNumber)
  }

  /** Tasks for different issues get different sandbox namespaces. */
  lemma NamespaceInjective(a: Spec, b: Spec)
    requires a.issueNumber >= 1 && b.issueNumber >= 1
    ensures TaskNamespace(a) == TaskNamespace(b) <==> a.issueNumber == b.issueNumber
    ensures TaskNamespace(a) != ""
  {
    DecimalInjective(a.issueNumber, b.issueNumber);
    assert TaskNamespace(a)[8..] == Decimal(a.issueNumber);
    assert TaskNamespace(b)[8..] == Decimal(b.issueNumber);
  }

  /** A task name determines the repository's name and the issue, whatever dashes and digits the name has. */
  lemma TaskNameInjective(repo: string, m: int, other: string, n: int)
    requires m >= 1 && n >= 1
    ensures TaskName(repo, m) == TaskName(other, n) <==> RepoName(repo) == RepoName(other) && m == n
  {
    if TaskName(repo, m) == TaskName(other, n) {
      LastDash(RepoName(repo), Decimal(m), RepoName(other), Decimal(n));
      DecimalInjective(m, n);
    }
  }

  lemma LastDash(a: string, x: string, b: string, y: string)
    requires AllDigits(x) && AllDigits(y)
    requires a + "-" + x == b + "-" + y
    ensures a == b && x == y
  {
    var s := a + "-" + x;
    assert s[|a|] == '-' && s[|b|] == '-';
    assert forall k :: |a| < k < |s| ==> s[k] == x[k - |a| - 1];
    assert forall k :: |b| < k < |s| ==> s[k] == y[k - |b| - 1];
    assert |a| == |b|;
    assert a == s[..|a|] && b == s[..|b|];
    assert x == s[|a| + 1..] && y == s[|b| + 1..];
  }

  lemma RepoNameOf(owner: string, name: string)
    requires '/' !in owner
    ensures RepoName(owner + "/" + name) == name
  {
    var repo := owner + "/" + name;
    assert repo[|owner|..|owner| + 1] == "/";
    assert OccursAt(repo, "/", |owner|);
    forall k | OccursAt(repo, "/", k) ensures k >= |owner| {
      assert repo[k] == repo[k..k + 1][0] == '/';
    }
    assert repo[|owner| + 1..] == name;
  }

  /** The name of a task, spelled out. */
  lemma TaskNameSpelled(owner: string, name: string, n: int)
    requires '/' !in owner && n >= 1
    ensures TaskName(owner + "/" + name, n) == name + "-" + Decimal(n)
  {
    RepoNameOf(owner, name);
  }

  /** What the resource schema admits, spelled out. */
  lemma AdmittedExactly(owner: string, name: string, n: int)
    requires '/' !in owner && '/' !in name
    ensures ValidSpec(Spec(n, owner + "/" + name)) <==>
              && n >= 1 && owner != "" && name != ""
              && forall c :: c in owner || c in name ==>
                   'a' <= c <= 'z' || 'A' <= c <= 'Z' || '0' <= c <= '9' || c == '_' || c == '.' || c == '-'
  {
    SplitConcat(owner, name, '/');
    SplitUnbroken(owner, '/');
    SplitUnbroken(name, '/');
    assert owner + ['/'] + name == owner + "/" + name;
    assert [owner] + [name] == [owner, name];
    assert (forall c :: c in owner ==> IsRepoChar(c)) <==> (forall k :: 0 <= k < |owner| ==> IsRepoChar(owner[k]));
    assert (forall c :: c in name ==> IsRepoChar(c)) <==> (forall k :: 0 <= k < |name| ==> IsRepoChar(name[k]));
  }

  /** The owner is not part of the name: equally named repositories share their task names. */
  lemma OwnersShareTaskNames(owner: string, other: string, name: string, issueNumber: int)
    requires '/' !in owner && '/' !in other
    ensures TaskName(owner + "/" + name, issueNumber) == TaskName(other + "/" + name, issueNumber)
  {
    RepoNameOf(owner, name);
    RepoNameOf(other, name);
  }

  /** No branch belongs to two issues. */
  lemma BranchUnambiguous(ref: string, m: int, n: int)
    requires m >= 1 && n >= 1
    requires IsTaskBranch(ref, m) && IsTaskBranch(ref, n)
    ensures m == n
  {
    BranchNumber(ref, m);
    BranchNumber(ref, n);
    DecimalInjective(m, n);
  }

  function LeadingDigits(s: string): string {
    if s == "" || !IsDigit(s[0]) then "" else [s[0]] + LeadingDigits(s[1..])
  }

  lemma BranchNumber(ref: string, n: int)
    requires n >= 1 && IsTaskBranch(ref, n)
    ensures |ref| >= 13 && LeadingDigits(ref[13..]) == Decimal(n)
  {
    var digits := Decimal(n);
    assert Branch(n) == "claude/issue-" + digits;
    if ref == Branch(n) {
      assert ref[13..] == digits + "";
      DigitsThen(digits, "");
    } else {
      var rest := ref[|Branch(n)| + 1..];
      assert ref == Branch(n) + "-" + rest;
      assert ref[13..] == digits + ("-" + rest);
      DigitsThen(digits, "-" + rest);
    }
  }

  /** A branch of issue `n`: its number in decimal after the common stem, and then nothing or a dash and any text. */
  predicate OfIssue(ref: string, n: int) {
    && n >= 0
    && |ref| >= 13 && ref[..13] == "claude/issue-"
    && LeadingDigits(ref[13..]) == Decimal(n)
    && (ref[13..] == Decimal(n) || (|ref| > 13 + |Decimal(n)| && ref[13 + |Decimal(n)|] == '-'))
  }

  /** The test on branches, for every ref. */
  lemma BranchExactly(ref: string, n: int)
    requires n >= 1
    ensures IsTaskBranch(ref, n) <==>
              && |ref| >= 13 && ref[..13] == "claude/issue-"
              && LeadingDigits(ref[13..]) == Decimal(n)
              && (ref[13..] == Decimal(n) || (|ref| > 13 + |Decimal(n)| && ref[13 + |Decimal(n)|] == '-'))
  {
    assert Branch(n) == "claude/issue-" + Decimal(n);
    if IsTaskBranch(ref, n) {
      BranchNumber(ref, n);
      assert ref[..|Branch(n)|] == Branch(n);
      assert ref[..13] == Branch(n)[..13];
      if ref != Branch(n) {
        assert ref[|Branch(n)|] == (Branch(n) + "-")[|Branch(n)|];
      }
    }
    if OfIssue(ref, n) {
      DigitsLead(ref[13..]);
      assert ref[..|Branch(n)|] == Branch(n) by {
        assert ref[..13 + |Decimal(n)|] == ref[..13] + ref[13..][..|Decimal(n)|];
      }
      if |ref| == |Branch(n)| {
        assert ref == ref[..|Branch(n)|];
      } else {
        assert ref[..|Branch(n)| + 1] == ref[..|Branch(n)|] + [ref[|Branch(n)|]];
      }
    }
  }

  lemma IsOfIssue(ref: string, n: int)
    requires n >= 1
    ensures IsTaskBranch(ref, n) <==> OfIssue(ref, n)
  {
    BranchExactly(ref, n);
  }

  lemma {:induction false} DigitsLead(s: string)
    ensures var digits := LeadingDigits(s); |digits| <= |s| && s[..|digits|] == digits
  {
    if s == "" || !IsDigit(s[0]) {
    } else {
      DigitsLead(s[1..]);
      var digits := LeadingDigits(s[1..]);
      assert s[..|digits| + 1] == [s[0]] + s[1..][..|digits|];
    }
  }

  lemma {:induction false} DigitsThen(digits: string, rest: string)
    requires AllDigits(digits)
    requires rest == "" || !IsDigit(rest[0])
    ensures LeadingDigits(digits + rest) == digits
  {
    if digits == "" {
      assert digits + rest == rest;
    } else {
      DigitsThen(digits[1..], rest);
      TailOfConcat(digits, rest);
    }
  }

  // ---- sandbox namespaces

  datatype Creds = Creds(
    githubToken: string, claudeToken: string, claudeAuthMode: string, gitAuthorName: string, gitAuthorEmail: string)

  /** Which of the three pod builders produced a pod. */
  datatype AgentRun = InitialRun | ResumeRun | RevisionRun(prNumber: int)

  datatype PodSpec = PodSpec(task: Spec, run: AgentRun)

  datatype PodPhase = PodPending | PodRunning | PodSucceeded | PodFailed | PodUnknown

  /** `cycle` counts the spawn that created the pod; the operator never reads it. */
  datatype Pod = Pod(spec: PodSpec, phase: PodPhase, cycle: nat)

  /** A namespace and its contents. `lifetime` tells apart successive namespaces of one name. */
  datatype Space = Space(
    lifetime: nat, owner: string, policy: Option<string>, secret: Option<Creds>, pods: map<string, Pod>)

  const AGENT := "agent"
  const AGENT_REV := "agent-rev"

  function Pods(sp: Option<Space>): map<string, Pod> {
    if sp.Some? then sp.value.pods else map[]
  }

  /** The pod that getPod prefers. */
  function CurrentPod(sp: Option<Space>): Option<Pod> {
    if AGENT_REV in Pods(sp) then Some(Pods(sp)[AGENT_REV])
    else if AGENT in Pods(sp) then Some(Pods(sp)[AGENT])
    else None
  }

  /** The pod of that name is there, and of the given cycle or an earlier one. */
  predicate Leftover(sp: Option<Space>, pod: string, cycle: nat) {
    pod in Pods(sp) && Pods(sp)[pod].cycle <= cycle
  }

  /** The pod that getPod prefers is there, and of the given cycle. */
  predicate HasFreshPod(sp: Option<Space>, cycle: nat) {
    CurrentPod(sp).Some? && CurrentPod(sp).value.cycle == cycle
  }

  // ---- GitHub

  datatype PullRequest = PullRequest(
    number: int, ref: string, url: string, merged: bool, state: string, labels: seq<string>)

  datatype Comment = Comment(body: string, userType: string, login: string, association: string)

  datatype Issue = Issue(number: int, isPullRequest: bool)

  predicate MergedOrClosed(pr: PullRequest) {
    pr.merged || pr.state == "closed"
  }

  /** First open pull request on the issue's canonical branch. */
  function FindByBranch(prs: seq<PullRequest>, issueNumber: int): (found: Option<PullRequest>)
    ensures found.Some? ==> found.value in prs && IsTaskBranch(found.value.ref, issueNumber)
    ensures found.None? ==> forall pr :: pr in prs ==> !IsTaskBranch(pr.ref, issueNumber)
  {
    if prs == [] then None
    else if IsTaskBranch(prs[0].ref, issueNumber) then Some(prs[0])
    else FindByBranch(prs[1..], issueNumber)
  }

  /** One pull request is never picked up for two issues. */
  lemma PullRequestUnshared(prs: seq<PullRequest>, others: seq<PullRequest>, m: int, n: int)
    requires m >= 1 && n >= 1 && m != n
    ensures FindByBranch(prs, m).Some? && FindByBranch(others, n).Some? ==>
              FindByBranch(prs, m).value.ref != FindByBranch(others, n).value.ref
  {
    if FindByBranch(prs, m).Some? && FindByBranch(others, n).Some?
       && FindByBranch(prs, m).value.ref == FindByBranch(others, n).value.ref {
      BranchUnambiguous(FindByBranch(prs, m).value.ref, m, n);
    }
  }

  predicate AsksClarification(comments: seq<Comment>) {
    exists k :: 0 <= k < |comments| && HasPrefix(comments[k].body, "/clarification:")
  }

  predicate LinksPullRequest(comments: seq<Comment>) {
    exists k :: 0 <= k < |comments| && Contains(comments[k].body, "PR: https://")
  }

  /** The last comment comes from an owner, member or collaborator who is not a bot. */
  predicate HumanReplied(comments: seq<Comment>) {
    comments != [] &&
    var last := comments[|comments| - 1];
    && last.userType != "Bot"
    && last.login !in ["github-actions[bot]", "app/github-actions"]
    && last.association in ["OWNER", "MEMBER", "COLLABORATOR"]
  }
}
