/**
 What a pass does next, told from the replies it has had, without reference to the points of module Protocol: the calls
 in the words of the cluster and of GitHub, the statuses field by field, the delays in seconds. Every pass of every run
 follows these rules.
 */
module Rules {
  import opened Text
  import opened Glob
  import opened DiffPolicy
  import opened Domain
  import opened Protocol
  import opened TaskInvariant

  /** The next call, or the end of the pass: seconds until it is asked for again (0 for not at all), and whether in error. */
  datatype Act = Does(call: Call) | Ends(after: int, failed: bool)

  // ---- what the replies say

  /** The last comment is by an owner, member or collaborator, and not by a bot. */
  predicate FromAuthorisedHuman(comments: seq<Comment>) {
    comments != [] &&
    var last := comments[|comments| - 1];
    && last.userType != "Bot"
    && last.login != "github-actions[bot]" && last.login != "app/github-actions"
    && (last.association == "OWNER" || last.association == "MEMBER" || last.association == "COLLABORATOR")
  }

  /** Some comment begins with the request for clarification. */
  predicate HoldsRequest(comments: seq<Comment>) {
    exists k :: 0 <= k < |comments| && "/clarification:" <= comments[k].body
  }

  /** Some comment has a link to a pull request in it. */
  ghost predicate HoldsLink(comments: seq<Comment>) {
    exists k, i :: 0 <= k < |comments| && OccursAt(comments[k].body, "PR: https://", i)
  }

  /** The first pull request whose branch is the issue's. */
  function OwnPull(prs: seq<PullRequest>, n: int): Option<PullRequest> {
    if prs == [] then None else if OfIssue(prs[0].ref, n) then Some(prs[0]) else OwnPull(prs[1..], n)
  }

  /** What a search for the task's pull request has brought: nothing legible, or one, or none. */
  function Sought(t: Task, rep: Reply): Option<Option<PullRequest>> {
    if !rep.Got? then None
    else if t.status.prNumber == 0 then
      if rep.answer.Pulls? then Some(OwnPull(rep.answer.prs, t.spec.issueNumber)) else None
    else if rep.answer.Pull? then Some(Some(rep.answer.pr)) else None
  }

  function ReasonText(v: Violation): string {
    if v.RestrictedPath? then "restricted-path"
    else if v.RiskyPath? then "risky-path"
    else if v.TooManyFiles? then "too-many-files"
    else "too-many-lines"
  }

  /** The files of all pages read. */
  function FilesIn(log: seq<Exchange>): seq<CommitFile> {
    if log == [] then []
    else
      var earlier, x := FilesIn(log[..|log| - 1]), log[|log| - 1];
      if x.call.GitHub? && x.call.query.ListFiles? && x.reply.Got? && x.reply.answer.Page?
      then earlier + x.reply.answer.files else earlier
  }

  /** The pull request that the last search brought. */
  function PullIn(t: Task, log: seq<Exchange>): Option<PullRequest> {
    if log == [] then None
    else
      var x := log[|log| - 1];
      if x.call.GitHub? && (x.call.query.GetPull? || x.call.query.ListOpenPulls?)
      then if Sought(t, x.reply).Some? then Sought(t, x.reply).value else None
      else PullIn(t, log[..|log| - 1])
  }

  /** The credentials last read. */
  function CredsIn(log: seq<Exchange>): Option<Creds> {
    if log == [] then None
    else
      var x := log[|log| - 1];
      if x.call.ReadCredentials? && x.reply.Got? && x.reply.answer.Credentials? then Some(x.reply.answer.creds)
      else CredsIn(log[..|log| - 1])
  }

  lemma LogGrows(t: Task, log: seq<Exchange>, x: Exchange)
    ensures FilesIn(log + [x])
         == FilesIn(log) + if x.call.GitHub? && x.call.query.ListFiles? && x.reply.Got? && x.reply.answer.Page?
                           then x.reply.answer.files else []
    ensures PullIn(t, log + [x])
         == if x.call.GitHub? && (x.call.query.GetPull? || x.call.query.ListOpenPulls?)
            then if Sought(t, x.reply).Some? then Sought(t, x.reply).value else None
            else PullIn(t, log)
    ensures CredsIn(log + [x])
         == if x.call.ReadCredentials? && x.reply.Got? && x.reply.answer.Credentials? then Some(x.reply.answer.creds)
            else CredsIn(log)
  {
    assert (log + [x])[..|log|] == log;
  }

  predicate IsMade(rep: Reply) {
    rep == Done || rep == AlreadyExists
  }

  // ---- the rules

  function OwnSpace(t: Task): string {
    "devtask-" + Decimal(if t.spec.issueNumber >= 0 then t.spec.issueNumber else 0)
  }

  /** Seconds until the next pass after a status has been written. */
  function Delay(cfg: Config, next: Status): int {
    match next.phase
    case Building => 30
    case Running => 30
    case AwaitingReview => 120
    case BlockedOnClarification => 60
    case Failed => if next.namespace == "" then 0 else cfg.ttl
    case _ => 0
  }

  /** A task to be spawned: fresh, sent back for a revision, or resumed after a clarification. */
  function SpawnRule(cfg: Config, t: Task, log: seq<Exchange>, now: nat): Act {
    var s := t.status;
    if log == [] then
      if s.phase == Unset then Does(CreateNamespace(OwnSpace(t), t.name))
      else if s.phase == AwaitingRevision then Does(GitHub(RemoveLabel(s.prNumber, "needs-revision")))
      else Does(GitHub(ListComments))
    else
      var call, rep := log[|log| - 1].call, log[|log| - 1].reply;
      match call
      case GitHub(_) =>
        if s.phase == AwaitingRevision then Does(DeletePod(s.namespace, "agent-rev"))
        else if rep.Got? && rep.answer.Comments? && FromAuthorisedHuman(rep.answer.comments)
        then Does(Call.ReadCredentials) else Ends(60, false)
      case DeletePod(_, _) => Does(Call.ReadCredentials)
      case ReadCredentials =>
        if rep.Got? && rep.answer.Credentials? then
          if s.phase == Unset then Does(CreateSecret(OwnSpace(t), rep.answer.creds))
          else Does(CreateNamespace(OwnSpace(t), t.name))
        else Ends(30, true)
      case CreateNamespace(_, _) => if IsMade(rep) then Does(CreatePolicy(OwnSpace(t), cfg.egress)) else Ends(0, true)
      case CreatePolicy(_, _) =>
        if !IsMade(rep) then Ends(0, true)
        else if s.phase == Unset then Does(Call.ReadCredentials)
        else if CredsIn(log).Some? then Does(CreateSecret(OwnSpace(t), CredsIn(log).value)) else Ends(0, true)
      case CreateSecret(_, _) =>
        if !IsMade(rep) then Ends(0, true)
        else if s.phase == Unset then Does(CreatePod(OwnSpace(t), "agent", PodSpec(t.spec, InitialRun)))
        else if s.phase == AwaitingRevision
        then Does(CreatePod(OwnSpace(t), "agent-rev", PodSpec(t.spec, RevisionRun(s.prNumber))))
        else Does(CreatePod(OwnSpace(t), "agent", PodSpec(t.spec, ResumeRun)))
      case CreatePod(_, _, _) =>
        if !IsMade(rep) then Ends(0, true)
        else
          var message := if s.phase == Unset then "envbuilder building devcontainer"
                         else if s.phase == AwaitingRevision then "addressing review feedback"
                         else "resuming after clarification";
          Does(UpdateStatus(Status(Building, OwnSpace(t), s.prNumber, Some(now), s.failedAt, message)))
      case UpdateStatus(next) => Ends(30, rep != Done)
      case _ => Ends(0, true)
  }

  /** What the phase of the pod that was read decides. */
  function PodRule(t: Task, phase: PodPhase): Act {
    match phase
    case PodRunning =>
      if t.status.phase == Building
      then Does(UpdateStatus(t.status.(phase := Running, message := "agent running")))
      else Ends(30, false)
    case PodSucceeded =>
      Does(GitHub(if t.status.prNumber == 0 then ListOpenPulls else GetPull(t.status.prNumber)))
    case PodFailed => Does(GitHub(ListComments))
    case PodPending => Ends(30, false)
    case PodUnknown => Ends(30, false)
  }

  function FailedStatus(s: Status, message: string, now: nat): Status {
    Status(Failed, s.namespace, s.prNumber, s.startedAt, Some(now), message)
  }

  function InReview(s: Status, pr: PullRequest): Status {
    Status(AwaitingReview, s.namespace, pr.number, s.startedAt, s.failedAt, "agent completed")
  }

  /** A task in Building or Running. */
  ghost function ActiveRule(cfg: Config, t: Task, log: seq<Exchange>, now: nat): Act {
    var s := t.status;
    if log == [] then Does(GetPod(s.namespace, "agent-rev"))
    else
      var call, rep := log[|log| - 1].call, log[|log| - 1].reply;
      match call
      case GetPod(_, pod) =>
        if rep.GotPod? then PodRule(t, rep.pod.phase)
        else if pod == "agent-rev" then Does(GetPod(s.namespace, "agent"))
        else Ends(30, rep != NotFound)
      case GitHub(query) => QueryRule(cfg, t, log, query, rep, now)
      case DeleteNamespace(_) =>
        if |log| >= 2 && log[|log| - 2].call == GitHub(ListComments)
        then Does(UpdateStatus(s.(phase := BlockedOnClarification, message := "agent requested clarification")))
        else Does(UpdateStatus(FailedStatus(s, "diff policy: " + FirstReason(log), now).(namespace := "")))
      case UpdateStatus(next) => Ends(Delay(cfg, next), rep != Done)
      case _ => Ends(0, true)
  }

  /** The first reason given in the last comment on the pull request. */
  function FirstReason(log: seq<Exchange>): string {
    if log == [] then ""
    else
      var call := log[|log| - 1].call;
      if call.GitHub? && call.query.CommentOnPull? && call.query.violations != []
      then ReasonText(call.query.violations[0]) else FirstReason(log[..|log| - 1])
  }

  /** After a query of an active task's pass to GitHub. */
  ghost function QueryRule(cfg: Config, t: Task, log: seq<Exchange>, query: Query, rep: Reply, now: nat): Act {
    match query
    case GetPull(_) => SoughtRule(t, rep, now)
    case ListOpenPulls => SoughtRule(t, rep, now)
    case ListFiles(number, _) =>
      if !rep.Got? || !rep.answer.Page? then Ends(30, true)
      else if rep.answer.nextPage == 0 then Does(GitHub(GetIssueBody))
      else Does(GitHub(ListFiles(number, rep.answer.nextPage)))
    case GetIssueBody =>
      if !rep.Got? || !rep.answer.IssueBody? || PullIn(t, log).None? then Ends(30, true)
      else
        var pr := PullIn(t, log).value;
        var violations := Violations(cfg.pathMatch, FilesIn(log), rep.answer.text, cfg.policy);
        if violations != [] then Does(GitHub(CommentOnPull(pr.number, violations)))
        else if pr.url == "" then Does(UpdateStatus(InReview(t.status, pr)))
        else Does(GitHub(ListComments))
    case CommentOnPull(number, _) => if rep.Got? then Does(GitHub(ClosePull(number))) else Ends(30, true)
    case ClosePull(_) => if rep.Got? then Does(DeleteNamespace(t.status.namespace)) else Ends(30, true)
    case ListComments =>
      if |log| >= 2 && log[|log| - 2].call.GetPod? then
        if rep.Got? && rep.answer.Comments? && HoldsRequest(rep.answer.comments)
        then Does(DeleteNamespace(t.status.namespace))
        else Does(UpdateStatus(FailedStatus(t.status, "agent pod failed", now)))
      else if !rep.Got? || !rep.answer.Comments? || PullIn(t, log).None? then Ends(30, true)
      else if HoldsLink(rep.answer.comments) then Does(UpdateStatus(InReview(t.status, PullIn(t, log).value)))
      else Does(GitHub(CommentOnIssue("PR: " + PullIn(t, log).value.url)))
    case CommentOnIssue(_) =>
      if rep.Got? && PullIn(t, log).Some? then Does(UpdateStatus(InReview(t.status, PullIn(t, log).value)))
      else Ends(30, true)
    case RemoveLabel(_, _) => Ends(0, true)
  }

  /** After the search for the pull request. */
  function SoughtRule(t: Task, rep: Reply, now: nat): Act {
    var sought := Sought(t, rep);
    if sought.None? then Ends(30, true)
    else if sought.value.None? then
      Does(UpdateStatus(FailedStatus(
        t.status, "agent pod exited 0 but no PR was opened on the canonical branch", now)))
    else Does(GitHub(ListFiles(sought.value.value.number, 0)))
  }

  /** A task in review. */
  function ReviewRule(t: Task, log: seq<Exchange>): Act {
    var s := t.status;
    if log == [] then Does(GitHub(GetPull(s.prNumber)))
    else
      var call, rep := log[|log| - 1].call, log[|log| - 1].reply;
      match call
      case GitHub(_) =>
        if !rep.Got? || !rep.answer.Pull? then Ends(120, false)
        else if |log| == 1 then
          if rep.answer.pr.merged || rep.answer.pr.state == "closed" then Does(DeleteNamespace(s.namespace))
          else Does(GitHub(GetPull(s.prNumber)))
        else if "needs-revision" in rep.answer.pr.labels
        then Does(UpdateStatus(s.(phase := AwaitingRevision, message := "reviewer requested changes")))
        else Ends(120, false)
      case DeleteNamespace(_) =>
        Does(UpdateStatus(s.(phase := Completed, message := "PR merged or closed, namespace deleted")))
      case UpdateStatus(_) => Ends(0, rep != Done)
      case _ => Ends(0, true)
  }

  /** A failed task. */
  function ExpiryRule(cfg: Config, t: Task, log: seq<Exchange>, now: nat): Act {
    var s := t.status;
    if log == [] then
      if s.namespace == "" || s.failedAt.None? then Ends(0, false)
      else if now < s.failedAt.value + cfg.ttl then Ends(s.failedAt.value + cfg.ttl - now, false)
      else Does(DeleteNamespace(s.namespace))
    else
      var call, rep := log[|log| - 1].call, log[|log| - 1].reply;
      match call
      case DeleteNamespace(_) =>
        if rep == Done || rep == NotFound then Does(UpdateStatus(s.(namespace := ""))) else Ends(60, true)
      case UpdateStatus(_) => Ends(0, rep != Done)
      case _ => Ends(0, true)
  }

  /** The next act of a pass over `t` with these calls behind it, the last of them answered at `now`. */
  ghost function Rule(cfg: Config, t: Task, log: seq<Exchange>, now: nat): Act {
    match t.status.phase
    case Unset => SpawnRule(cfg, t, log, now)
    case AwaitingRevision => SpawnRule(cfg, t, log, now)
    case BlockedOnClarification => SpawnRule(cfg, t, log, now)
    case Building => ActiveRule(cfg, t, log, now)
    case Running => ActiveRule(cfg, t, log, now)
    case AwaitingReview => ReviewRule(t, log)
    case Failed => ExpiryRule(cfg, t, log, now)
    case Completed => Ends(0, false)
    case Pending => Ends(30, false)
  }

  // ---- the machine follows them

  /** What the machine is about to do at a point. */
  function ActAt(cfg: Config, t: Task, pt: Point): Act {
    if pt.Return? then Ends(pt.res.after, pt.failed) else Does(CallAt(cfg, t, pt))
  }

  function LastCall(log: seq<Exchange>): Call {
    if log == [] then NoCall else log[|log| - 1].call
  }

  /** What the point remembers is what the replies said. */
  ghost predicate Recalls(cfg: Config, t: Task, log: seq<Exchange>, pt: Point) {
    match pt
    case EnsureNamespace(_, known) => known.Some? ==> CredsIn(log) == known
    case EnsurePolicy(_, known) => known.Some? ==> CredsIn(log) == known
    case GetRevisionPod => log == []
    case GetAgentPod => |log| == 1 && LastCall(log).GetPod?
    case ReadClarification => LastCall(log).GetPod?
    case FindPull => FilesIn(log) == [] && LastCall(log).GetPod?
    case ReadFiles(pr, _, files) => PullIn(t, log) == Some(pr) && FilesIn(log) == files
    case ReadIssue(pr, files) => PullIn(t, log) == Some(pr) && FilesIn(log) == files
    case PostRejection(_, violations) => violations != []
    case CloseRejected(_, reason) => LastCall(log).GitHub? && LastCall(log).query.CommentOnPull? && FirstReason(log) == reason
    case ReadLink(pr) => PullIn(t, log) == Some(pr) && LastCall(log) == GitHub(GetIssueBody)
    case PostLink(pr) => PullIn(t, log) == Some(pr)
    case CheckPull => log == []
    case CheckLabel => |log| == 1
    case DropNamespace(purpose) =>
      && (purpose.ForClarification? ==> LastCall(log) == GitHub(ListComments))
      && (purpose.ForRejection? ==>
            LastCall(log).GitHub? && LastCall(log).query.ClosePull? && FirstReason(log) == purpose.reason)
    case Write(next, res) => res.after == Delay(cfg, next)
    case _ => true
  }

  lemma SamePull(prs: seq<PullRequest>, n: int)
    requires n >= 1
    ensures FindByBranch(prs, n) == OwnPull(prs, n)
  {
    if prs == [] {
    } else {
      IsOfIssue(prs[0].ref, n);
      SamePull(prs[1..], n);
    }
  }

  lemma SameSought(t: Task, rep: Reply)
    requires t.spec.issueNumber >= 1
    ensures FoundPull(t, rep) == Sought(t, rep)
  {
    if rep.Got? && rep.answer.Pulls? {
      SamePull(rep.answer.prs, t.spec.issueNumber);
    }
  }

  lemma SameLink(comments: seq<Comment>)
    ensures LinksPullRequest(comments) <==> HoldsLink(comments)
  {
    if LinksPullRequest(comments) {
      var k :| 0 <= k < |comments| && Contains(comments[k].body, "PR: https://");
      assert OccursAt(comments[k].body, "PR: https://", Index(comments[k].body, "PR: https://"));
    }
    if HoldsLink(comments) {
      var k, i :| 0 <= k < |comments| && OccursAt(comments[k].body, "PR: https://", i);
      assert Contains(comments[k].body, "PR: https://");
    }
  }

  lemma SameReadings(comments: seq<Comment>)
    ensures HumanReplied(comments) <==> FromAuthorisedHuman(comments)
    ensures AsksClarification(comments) <==> HoldsRequest(comments)
  {
  }

  /** `pt` is where the rules lead after `log`, the last reply having come at `now`. */
  ghost predicate Keeps(cfg: Config, t: Task, log: seq<Exchange>, pt: Point, now: nat) {
    ActAt(cfg, t, pt) == Rule(cfg, t, log, now) && Recalls(cfg, t, log, pt)
  }

  lemma RuleBegins(cfg: Config, t: Task, sp: Option<Space>, now: nat)
    requires ValidConfig(cfg) && ValidSpec(t.spec) && StatusOk(t.spec, t.status, now)
    ensures Keeps(cfg, t, [], Begin(cfg, t, now), now)
  {
  }

  lemma SpawnPrepares(cfg: Config, t: Task, log: seq<Exchange>, pt: Point, sp: Option<Space>, rep: Reply, now: nat)
    requires ValidSpec(t.spec) && StatusOk(t.spec, t.status, now) && PointOk(cfg, t, pt, sp, now)
    requires Recalls(cfg, t, log, pt) && (pt.Unlabel? || pt.DropRevisionPod? || pt.ReadReply?)
    ensures Keeps(cfg, t, log + [Exchange(CallAt(cfg, t, pt), rep)], After(cfg, t, pt, rep, now), now)
  {
    LogGrows(t, log, Exchange(CallAt(cfg, t, pt), rep));
    if rep.Got? && rep.answer.Comments? {
      SameReadings(rep.answer.comments);
    }
  }

  lemma SpawnSecures(cfg: Config, t: Task, log: seq<Exchange>, pt: Point, sp: Option<Space>, rep: Reply, now: nat)
    requires ValidSpec(t.spec) && StatusOk(t.spec, t.status, now) && PointOk(cfg, t, pt, sp, now)
    requires Recalls(cfg, t, log, pt) && (pt.NeedCreds? || pt.EnsureNamespace? || pt.EnsurePolicy?)
    ensures Keeps(cfg, t, log + [Exchange(CallAt(cfg, t, pt), rep)], After(cfg, t, pt, rep, now), now)
  {
    LogGrows(t, log, Exchange(CallAt(cfg, t, pt), rep));
  }

  lemma SpawnFills(cfg: Config, t: Task, log: seq<Exchange>, pt: Point, sp: Option<Space>, rep: Reply, now: nat)
    requires ValidSpec(t.spec) && StatusOk(t.spec, t.status, now) && PointOk(cfg, t, pt, sp, now)
    requires Recalls(cfg, t, log, pt) && pt.EnsureSecret?
    ensures Keeps(cfg, t, log + [Exchange(CallAt(cfg, t, pt), rep)], After(cfg, t, pt, rep, now), now)
  {
    LogGrows(t, log, Exchange(CallAt(cfg, t, pt), rep));
  }

  lemma SpawnCreates(cfg: Config, t: Task, log: seq<Exchange>, pt: Point, sp: Option<Space>, rep: Reply, now: nat)
    requires ValidSpec(t.spec) && StatusOk(t.spec, t.status, now) && PointOk(cfg, t, pt, sp, now)
    requires Recalls(cfg, t, log, pt) && pt.EnsurePod?
    ensures Keeps(cfg, t, log + [Exchange(CallAt(cfg, t, pt), rep)], After(cfg, t, pt, rep, now), now)
  {
    LogGrows(t, log, Exchange(CallAt(cfg, t, pt), rep));
  }

  lemma PodFollows(cfg: Config, t: Task, log: seq<Exchange>, pt: Point, rep: Reply, now: nat)
    requires IsActive(t.status.phase)
    requires Recalls(cfg, t, log, pt) && (pt.GetRevisionPod? || pt.GetAgentPod?)
    ensures Keeps(cfg, t, log + [Exchange(CallAt(cfg, t, pt), rep)], After(cfg, t, pt, rep, now), now)
  {
    LogGrows(t, log, Exchange(CallAt(cfg, t, pt), rep));
    assert |log| == 1 ==> log[..0] == [];
    assert FilesIn([]) == [];
  }

  lemma AfterQuery(cfg: Config, t: Task, log: seq<Exchange>, query: Query, rep: Reply, now: nat)
    requires IsActive(t.status.phase)
    ensures var longer := log + [Exchange(GitHub(query), rep)];
            Rule(cfg, t, longer, now) == QueryRule(cfg, t, longer, query, rep, now)
  {
  }

  lemma ClarificationFollows(cfg: Config, t: Task, log: seq<Exchange>, pt: Point, rep: Reply, now: nat)
    requires IsActive(t.status.phase) && t.status.namespace != ""
    requires Recalls(cfg, t, log, pt) && pt.ReadClarification?
    ensures Keeps(cfg, t, log + [Exchange(CallAt(cfg, t, pt), rep)], After(cfg, t, pt, rep, now), now)
  {
    if rep.Got? && rep.answer.Comments? {
      SameReadings(rep.answer.comments);
    }
  }

  lemma FindActs(cfg: Config, t: Task, log: seq<Exchange>, rep: Reply, now: nat)
    requires IsActive(t.status.phase) && t.spec.issueNumber >= 1
    ensures ActAt(cfg, t, After(cfg, t, FindPull, rep, now)) == SoughtRule(t, rep, now)
  {
    hide FoundPull, Sought;
    SameSought(t, rep);
  }

  lemma FindGoes(cfg: Config, t: Task, rep: Reply, now: nat)
    requires t.spec.issueNumber >= 1
    ensures var next, sought := After(cfg, t, FindPull, rep, now), Sought(t, rep);
            if sought.None? then next == Return(HALF_MINUTE, true)
            else if sought.value.Some? then next == ReadFiles(sought.value.value, 0, [])
            else next.Write? && next.next.phase.Failed? && next.next.namespace == t.status.namespace && next.res.after == cfg.ttl
  {
    SameSought(t, rep);
  }

  lemma FindRecalls(cfg: Config, t: Task, log: seq<Exchange>, rep: Reply, now: nat)
    requires t.status.namespace != "" && t.spec.issueNumber >= 1 && FilesIn(log) == []
    ensures Recalls(cfg, t, log + [Exchange(GitHub(FindQuery(t)), rep)], After(cfg, t, FindPull, rep, now))
  {
    hide After, FilesIn, PullIn, CredsIn;
    LogGrows(t, log, Exchange(GitHub(FindQuery(t)), rep));
    FindGoes(cfg, t, rep, now);
  }

  lemma FindFollows(cfg: Config, t: Task, log: seq<Exchange>, pt: Point, rep: Reply, now: nat)
    requires IsActive(t.status.phase) && t.status.namespace != "" && t.spec.issueNumber >= 1
    requires Recalls(cfg, t, log, pt) && pt.FindPull?
    ensures Keeps(cfg, t, log + [Exchange(CallAt(cfg, t, pt), rep)], After(cfg, t, pt, rep, now), now)
  {
    hide Rule, After, ActAt, SoughtRule;
    AfterQuery(cfg, t, log, FindQuery(t), rep, now);
    FindActs(cfg, t, log, rep, now);
    FindRecalls(cfg, t, log, rep, now);
  }

  lemma FilesFollows(cfg: Config, t: Task, log: seq<Exchange>, pt: Point, rep: Reply, now: nat)
    requires IsActive(t.status.phase)
    requires Recalls(cfg, t, log, pt) && pt.ReadFiles?
    ensures Keeps(cfg, t, log + [Exchange(CallAt(cfg, t, pt), rep)], After(cfg, t, pt, rep, now), now)
  {
    LogGrows(t, log, Exchange(CallAt(cfg, t, pt), rep));
  }

  lemma IssueFollows(cfg: Config, t: Task, log: seq<Exchange>, pt: Point, rep: Reply, now: nat)
    requires IsActive(t.status.phase)
    requires Recalls(cfg, t, log, pt) && pt.ReadIssue?
    ensures Keeps(cfg, t, log + [Exchange(CallAt(cfg, t, pt), rep)], After(cfg, t, pt, rep, now), now)
  {
    hide Violations, SpawnRule, ReviewRule, ExpiryRule, PodRule, HoldsLink;
    LogGrows(t, log, Exchange(CallAt(cfg, t, pt), rep));
  }

  lemma LinkFollows(cfg: Config, t: Task, log: seq<Exchange>, pt: Point, rep: Reply, now: nat)
    requires IsActive(t.status.phase)
    requires Recalls(cfg, t, log, pt) && (pt.ReadLink? || pt.PostLink?)
    ensures Keeps(cfg, t, log + [Exchange(CallAt(cfg, t, pt), rep)], After(cfg, t, pt, rep, now), now)
  {
    LogGrows(t, log, Exchange(CallAt(cfg, t, pt), rep));
    if rep.Got? && rep.answer.Comments? {
      SameLink(rep.answer.comments);
    }
  }

  lemma ReasonGrows(log: seq<Exchange>, x: Exchange)
    ensures FirstReason(log + [x])
         == if x.call.GitHub? && x.call.query.CommentOnPull? && x.call.query.violations != []
            then ReasonText(x.call.query.violations[0]) else FirstReason(log)
  {
    assert (log + [x])[..|log|] == log;
  }

  lemma RejectionFollows(cfg: Config, t: Task, log: seq<Exchange>, pt: Point, rep: Reply, now: nat)
    requires IsActive(t.status.phase)
    requires Recalls(cfg, t, log, pt) && (pt.PostRejection? || pt.CloseRejected?)
    ensures Keeps(cfg, t, log + [Exchange(CallAt(cfg, t, pt), rep)], After(cfg, t, pt, rep, now), now)
  {
    ReasonGrows(log, Exchange(CallAt(cfg, t, pt), rep));
  }

  lemma CheckFollows(cfg: Config, t: Task, log: seq<Exchange>, pt: Point, sp: Option<Space>, rep: Reply, now: nat)
    requires ValidSpec(t.spec) && StatusOk(t.spec, t.status, now) && PointOk(cfg, t, pt, sp, now)
    requires Recalls(cfg, t, log, pt) && pt.CheckPull?
    ensures Keeps(cfg, t, log + [Exchange(CallAt(cfg, t, pt), rep)], After(cfg, t, pt, rep, now), now)
  {
    hide SpawnRule, ActiveRule, ExpiryRule, FirstReason, FilesIn, PullIn, CredsIn;
  }

  lemma LabelFollows(cfg: Config, t: Task, log: seq<Exchange>, pt: Point, sp: Option<Space>, rep: Reply, now: nat)
    requires ValidSpec(t.spec) && StatusOk(t.spec, t.status, now) && PointOk(cfg, t, pt, sp, now)
    requires Recalls(cfg, t, log, pt) && pt.CheckLabel?
    ensures Keeps(cfg, t, log + [Exchange(CallAt(cfg, t, pt), rep)], After(cfg, t, pt, rep, now), now)
  {
    hide SpawnRule, ActiveRule, ExpiryRule, FirstReason, FilesIn, PullIn, CredsIn;
  }

  lemma DropWhileActive(cfg: Config, t: Task, log: seq<Exchange>, pt: Point, sp: Option<Space>, rep: Reply, now: nat)
    requires ValidSpec(t.spec) && StatusOk(t.spec, t.status, now) && PointOk(cfg, t, pt, sp, now)
    requires Recalls(cfg, t, log, pt) && pt.DropNamespace? && IsActive(t.status.phase)
    ensures Keeps(cfg, t, log + [Exchange(CallAt(cfg, t, pt), rep)], After(cfg, t, pt, rep, now), now)
  {
    ReasonGrows(log, Exchange(CallAt(cfg, t, pt), rep));
  }

  lemma DropOtherwise(cfg: Config, t: Task, log: seq<Exchange>, pt: Point, sp: Option<Space>, rep: Reply, now: nat)
    requires ValidSpec(t.spec) && StatusOk(t.spec, t.status, now) && PointOk(cfg, t, pt, sp, now)
    requires Recalls(cfg, t, log, pt) && pt.DropNamespace? && !IsActive(t.status.phase)
    ensures Keeps(cfg, t, log + [Exchange(CallAt(cfg, t, pt), rep)], After(cfg, t, pt, rep, now), now)
  {
  }

  lemma WriteFollows(cfg: Config, t: Task, log: seq<Exchange>, pt: Point, sp: Option<Space>, rep: Reply, now: nat)
    requires ValidSpec(t.spec) && StatusOk(t.spec, t.status, now) && PointOk(cfg, t, pt, sp, now)
    requires Recalls(cfg, t, log, pt) && pt.Write?
    ensures Keeps(cfg, t, log + [Exchange(CallAt(cfg, t, pt), rep)], After(cfg, t, pt, rep, now), now)
  {
  }

  /** The reply to each call leads where the rules say. */
  lemma RuleFollows(cfg: Config, t: Task, log: seq<Exchange>, pt: Point, sp: Option<Space>, rep: Reply, now: nat)
    requires ValidSpec(t.spec) && StatusOk(t.spec, t.status, now) && PointOk(cfg, t, pt, sp, now)
    requires Recalls(cfg, t, log, pt) && !pt.Return?
    ensures Keeps(cfg, t, log + [Exchange(CallAt(cfg, t, pt), rep)], After(cfg, t, pt, rep, now), now)
  {
    hide Keeps, After, CallAt, Recalls;
    NamespaceInjective(t.spec, t.spec);
    if pt.Unlabel? || pt.DropRevisionPod? || pt.ReadReply? {
      SpawnPrepares(cfg, t, log, pt, sp, rep, now);
    } else if pt.NeedCreds? || pt.EnsureNamespace? || pt.EnsurePolicy? {
      SpawnSecures(cfg, t, log, pt, sp, rep, now);
    } else if pt.EnsureSecret? {
      SpawnFills(cfg, t, log, pt, sp, rep, now);
    } else if pt.EnsurePod? {
      SpawnCreates(cfg, t, log, pt, sp, rep, now);
    } else if pt.CheckPull? {
      CheckFollows(cfg, t, log, pt, sp, rep, now);
    } else if pt.CheckLabel? {
      LabelFollows(cfg, t, log, pt, sp, rep, now);
    } else if pt.DropNamespace? {
      if IsActive(t.status.phase) {
        DropWhileActive(cfg, t, log, pt, sp, rep, now);
      } else {
        DropOtherwise(cfg, t, log, pt, sp, rep, now);
      }
    } else if pt.Write? {
      WriteFollows(cfg, t, log, pt, sp, rep, now);
    } else {
      ActiveFollows(cfg, t, log, pt, rep, now);
    }
  }

  lemma ActiveFollows(cfg: Config, t: Task, log: seq<Exchange>, pt: Point, rep: Reply, now: nat)
    requires IsActive(t.status.phase) && t.status.namespace != "" && t.spec.issueNumber >= 1
    requires Recalls(cfg, t, log, pt)
    requires pt.GetRevisionPod? || pt.GetAgentPod? || pt.ReadClarification? || pt.FindPull? || pt.ReadFiles? || pt.ReadIssue?
             || pt.PostRejection? || pt.CloseRejected? || pt.ReadLink? || pt.PostLink?
    ensures Keeps(cfg, t, log + [Exchange(CallAt(cfg, t, pt), rep)], After(cfg, t, pt, rep, now), now)
  {
    hide Keeps, After, CallAt, Recalls;
    match pt
    case GetRevisionPod => PodFollows(cfg, t, log, pt, rep, now);
    case GetAgentPod => PodFollows(cfg, t, log, pt, rep, now);
    case ReadClarification => ClarificationFollows(cfg, t, log, pt, rep, now);
    case FindPull => FindFollows(cfg, t, log, pt, rep, now);
    case ReadFiles(_, _, _) => FilesFollows(cfg, t, log, pt, rep, now);
    case ReadIssue(_, _) => IssueFollows(cfg, t, log, pt, rep, now);
    case PostRejection(_, _) => RejectionFollows(cfg, t, log, pt, rep, now);
    case CloseRejected(_, _) => RejectionFollows(cfg, t, log, pt, rep, now);
    case _ => LinkFollows(cfg, t, log, pt, rep, now);
  }
}
