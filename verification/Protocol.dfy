/**
 One reconcile pass as a sequence of API calls: the call made at each point, and the point reached
 on each reply. Nothing here touches the cluster; module Machine says what the calls do to it.
 */
module Protocol {
  import opened Glob
  import opened DiffPolicy
  import opened Domain

  datatype Config = Config(ttl: nat, egress: string, policy: Policy, pathMatch: PathMatch, maxTasks: int)

  /** The lifetime of a failed task's namespace is positive, as loadFailedNamespaceTTL guarantees. */
  predicate ValidConfig(cfg: Config) {
    cfg.ttl > 0
  }

  // ---- calls and replies

  datatype Query =
    | GetPull(number: int)
    | ListOpenPulls
    | ListFiles(number: int, page: int)
    | GetIssueBody
    | CommentOnPull(number: int, violations: seq<Violation>)
    | ClosePull(number: int)
    | ListComments
    | CommentOnIssue(text: string)
    | RemoveLabel(number: int, name: string)

  datatype Call =
    | CreateNamespace(ns: string, owner: string)
    | CreatePolicy(ns: string, egress: string)
    | CreateSecret(ns: string, creds: Creds)
    | CreatePod(ns: string, pod: string, spec: PodSpec)
    | DeleteNamespace(ns: string)
    | DeletePod(ns: string, pod: string)
    | GetPod(ns: string, pod: string)
    | UpdateStatus(status: Status)
    | ReadCredentials
    | GitHub(query: Query)
    | NoCall

  /** What the world contributes to a call: whether it goes through, and any data it returns. */
  datatype Answer =
    | Fails
    | Works
    | Credentials(creds: Creds)
    | Pull(pr: PullRequest)
    | Pulls(prs: seq<PullRequest>)
    | Page(files: seq<CommitFile>, nextPage: int)
    | IssueBody(text: string)
    | Comments(comments: seq<Comment>)

  datatype Reply =
    | Err
    | NotFound
    | AlreadyExists
    | Done
    | GotPod(pod: Pod)
    | Got(answer: Answer)

  datatype Exchange = Exchange(call: Call, reply: Reply)

  // ---- points of a pass

  datatype Plan = First | Revise | Resume

  datatype Purpose = ForCompletion | ForClarification | ForRejection(reason: string) | ForExpiry

  /** Seconds until the requested requeue; 0 requests none. */
  datatype Result = Result(after: int)

  /** Named after the call about to be made. */
  datatype Point =
    | NeedCreds(plan: Plan)
    | EnsureNamespace(plan: Plan, known: Option<Creds>)
    | EnsurePolicy(plan: Plan, known: Option<Creds>)
    | EnsureSecret(plan: Plan, creds: Creds)
    | EnsurePod(plan: Plan)
    | Unlabel
    | DropRevisionPod
    | ReadReply
    | GetRevisionPod
    | GetAgentPod
    | ReadClarification
    | FindPull
    | ReadFiles(pr: PullRequest, page: int, files: seq<CommitFile>)
    | ReadIssue(pr: PullRequest, files: seq<CommitFile>)
    | PostRejection(pr: PullRequest, violations: seq<Violation>)
    | CloseRejected(pr: PullRequest, reason: string)
    | ReadLink(pr: PullRequest)
    | PostLink(pr: PullRequest)
    | CheckPull
    | CheckLabel
    | DropNamespace(purpose: Purpose)
    | Write(next: Status, res: Result)
    | Return(res: Result, failed: bool)

  const NOTHING := Result(0)
  const HALF_MINUTE := Result(30)
  const MINUTE := Result(60)
  const TWO_MINUTES := Result(120)
  const REVISION_LABEL := "needs-revision"

  function PodName(plan: Plan): string {
    if plan.Revise? then AGENT_REV else AGENT
  }

  function RunOf(task: Task, plan: Plan): AgentRun {
    match plan
    case First => InitialRun
    case Resume => ResumeRun
    case Revise => RevisionRun(task.status.prNumber)
  }

  function SpawnMessage(plan: Plan): string {
    match plan
    case First => "envbuilder building devcontainer"
    case Resume => "resuming after clarification"
    case Revise => "addressing review feedback"
  }

  function FindQuery(task: Task): Query {
    if task.status.prNumber != 0 then GetPull(task.status.prNumber) else ListOpenPulls
  }

  function LinkText(pr: PullRequest): string {
    "PR: " + pr.url
  }

  function CallAt(cfg: Config, task: Task, pt: Point): Call {
    var home := TaskNamespace(task.spec);
    match pt
    case NeedCreds(_) => ReadCredentials
    case EnsureNamespace(_, _) => CreateNamespace(home, task.name)
    case EnsurePolicy(_, _) => CreatePolicy(home, cfg.egress)
    case EnsureSecret(_, creds) => CreateSecret(home, creds)
    case EnsurePod(plan) => CreatePod(home, PodName(plan), PodSpec(task.spec, RunOf(task, plan)))
    case Unlabel => GitHub(RemoveLabel(task.status.prNumber, REVISION_LABEL))
    case DropRevisionPod => DeletePod(task.status.namespace, AGENT_REV)
    case ReadReply => GitHub(ListComments)
    case GetRevisionPod => GetPod(task.status.namespace, AGENT_REV)
    case GetAgentPod => GetPod(task.status.namespace, AGENT)
    case ReadClarification => GitHub(ListComments)
    case FindPull => GitHub(FindQuery(task))
    case ReadFiles(pr, page, _) => GitHub(ListFiles(pr.number, page))
    case ReadIssue(_, _) => GitHub(GetIssueBody)
    case PostRejection(pr, violations) => GitHub(CommentOnPull(pr.number, violations))
    case CloseRejected(pr, _) => GitHub(ClosePull(pr.number))
    case ReadLink(_) => GitHub(ListComments)
    case PostLink(pr) => GitHub(CommentOnIssue(LinkText(pr)))
    case CheckPull => GitHub(FindQuery(task))
    case CheckLabel => GitHub(GetPull(task.status.prNumber))
    case DropNamespace(_) => DeleteNamespace(task.status.namespace)
    case Write(next, _) => UpdateStatus(next)
    case Return(_, _) => NoCall
  }

  // ---- statuses written

  function BuildingStatus(task: Task, plan: Plan, now: nat): Status {
    task.status.(phase := Building, namespace := TaskNamespace(task.spec), startedAt := Some(now),
                 message := SpawnMessage(plan))
  }

  function MarkedFailed(status: Status, message: string, now: nat): Status {
    status.(phase := Failed, message := message, failedAt := Some(now))
  }

  function ReviewStatus(task: Task, pr: PullRequest): Status {
    task.status.(prNumber := pr.number, phase := AwaitingReview, message := "agent completed")
  }

  /** The write that follows a namespace deletion. */
  function AfterDrop(task: Task, purpose: Purpose, now: nat): Point {
    match purpose
    case ForCompletion =>
      Write(task.status.(phase := Completed, message := "PR merged or closed, namespace deleted"), NOTHING)
    case ForClarification =>
      Write(task.status.(phase := BlockedOnClarification, message := "agent requested clarification"), MINUTE)
    case ForRejection(reason) =>
      Write(MarkedFailed(task.status, "diff policy: " + reason, now).(namespace := ""), NOTHING)
    case ForExpiry =>
      Write(task.status.(namespace := ""), NOTHING)
  }

  // ---- the replies

  /** The pull request that findPRForTask makes of the reply to its query, or the error. */
  function FoundPull(task: Task, rep: Reply): Option<Option<PullRequest>> {
    if task.status.prNumber != 0 then
      if rep.Got? && rep.answer.Pull? then Some(Some(rep.answer.pr)) else None
    else
      if rep.Got? && rep.answer.Pulls? then Some(FindByBranch(rep.answer.prs, task.spec.issueNumber)) else None
  }

  predicate Created(rep: Reply) {
    rep.Done? || rep.AlreadyExists?
  }

  predicate Deleted(rep: Reply) {
    rep.Done? || rep.NotFound?
  }

  /** What the active pod's phase leads to. */
  function OnPod(cfg: Config, task: Task, phase: PodPhase): Point {
    match phase
    case PodRunning =>
      if task.status.phase != Running
      then Write(task.status.(phase := Running, message := "agent running"), HALF_MINUTE)
      else Return(HALF_MINUTE, false)
    case PodSucceeded => FindPull
    case PodFailed => ReadClarification
    case _ => Return(HALF_MINUTE, false)
  }

  /** Verdict of the diff policy on the collected files. */
  function OnIssue(cfg: Config, task: Task, pr: PullRequest, files: seq<CommitFile>, body: string): Point {
    var violations := Violations(cfg.pathMatch, files, body, cfg.policy);
    if violations != [] then PostRejection(pr, violations)
    else if pr.url == "" then Write(ReviewStatus(task, pr), TWO_MINUTES)
    else ReadLink(pr)
  }

  /** The switch on the phase at the start of a pass. */
  function Begin(cfg: Config, task: Task, now: nat): Point {
    match task.status.phase
    case Unset => EnsureNamespace(First, None)
    case Building => GetRevisionPod
    case Running => GetRevisionPod
    case AwaitingReview => CheckPull
    case AwaitingRevision => if task.status.prNumber == 0 then DropRevisionPod else Unlabel
    case BlockedOnClarification => ReadReply
    case Completed => Return(NOTHING, false)
    case Failed =>
      if task.status.namespace == "" || task.status.failedAt.None? then Return(NOTHING, false)
      else if now - task.status.failedAt.value < cfg.ttl
      then Return(Result(cfg.ttl - (now - task.status.failedAt.value)), false)
      else DropNamespace(ForExpiry)
    case Pending => Return(HALF_MINUTE, false)
  }

  /** Where the pass goes on the reply to the call made at `pt`. */
  function After(cfg: Config, task: Task, pt: Point, rep: Reply, now: nat): Point {
    match pt
    case NeedCreds(plan) =>
      if rep.Got? && rep.answer.Credentials? then
        if plan.First? then EnsureSecret(plan, rep.answer.creds) else EnsureNamespace(plan, Some(rep.answer.creds))
      else Return(HALF_MINUTE, true)
    case EnsureNamespace(plan, known) =>
      if Created(rep) then EnsurePolicy(plan, known) else Return(NOTHING, true)
    case EnsurePolicy(plan, known) =>
      if !Created(rep) then Return(NOTHING, true)
      else if known.None? then NeedCreds(plan) else EnsureSecret(plan, known.value)
    case EnsureSecret(plan, _) =>
      if Created(rep) then EnsurePod(plan) else Return(NOTHING, true)
    case EnsurePod(plan) =>
      if Created(rep) then Write(BuildingStatus(task, plan, now), HALF_MINUTE) else Return(NOTHING, true)
    case Unlabel => DropRevisionPod
    case DropRevisionPod => NeedCreds(Revise)
    case ReadReply =>
      if rep.Got? && rep.answer.Comments? && HumanReplied(rep.answer.comments) then NeedCreds(Resume)
      else Return(MINUTE, false)
    case GetRevisionPod =>
      if rep.GotPod? then OnPod(cfg, task, rep.pod.phase) else GetAgentPod
    case GetAgentPod =>
      if rep.GotPod? then OnPod(cfg, task, rep.pod.phase) else Return(HALF_MINUTE, !rep.NotFound?)
    case ReadClarification =>
      if rep.Got? && rep.answer.Comments? && AsksClarification(rep.answer.comments) then DropNamespace(ForClarification)
      else Write(MarkedFailed(task.status, "agent pod failed", now), Result(cfg.ttl))
    case FindPull =>
      var found := FoundPull(task, rep);
      if found.None? then Return(HALF_MINUTE, true)
      else if found.value.None? then
        Write(MarkedFailed(task.status, "agent pod exited 0 but no PR was opened on the canonical branch", now),
              Result(cfg.ttl))
      else ReadFiles(found.value.value, 0, [])
    case ReadFiles(pr, page, files) =>
      if rep.Got? && rep.answer.Page? then
        if rep.answer.nextPage == 0 then ReadIssue(pr, files + rep.answer.files)
        else ReadFiles(pr, rep.answer.nextPage, files + rep.answer.files)
      else Return(HALF_MINUTE, true)
    case ReadIssue(pr, files) =>
      if rep.Got? && rep.answer.IssueBody? then OnIssue(cfg, task, pr, files, rep.answer.text)
      else Return(HALF_MINUTE, true)
    case PostRejection(pr, violations) =>
      if rep.Got? && violations != [] then CloseRejected(pr, violations[0].Reason()) else Return(HALF_MINUTE, true)
    case CloseRejected(_, reason) =>
      if rep.Got? then DropNamespace(ForRejection(reason)) else Return(HALF_MINUTE, true)
    case ReadLink(pr) =>
      if rep.Got? && rep.answer.Comments? then
        if LinksPullRequest(rep.answer.comments) then Write(ReviewStatus(task, pr), TWO_MINUTES) else PostLink(pr)
      else Return(HALF_MINUTE, true)
    case PostLink(pr) =>
      if rep.Got? then Write(ReviewStatus(task, pr), TWO_MINUTES) else Return(HALF_MINUTE, true)
    case CheckPull =>
      var found := FoundPull(task, rep);
      if found.None? then Return(TWO_MINUTES, false)
      else if found.value.Some? && MergedOrClosed(found.value.value) then DropNamespace(ForCompletion)
      else if task.status.prNumber == 0 then Return(TWO_MINUTES, false)
      else CheckLabel
    case CheckLabel =>
      if rep.Got? && rep.answer.Pull? && REVISION_LABEL in rep.answer.pr.labels then
        Write(task.status.(phase := AwaitingRevision, message := "reviewer requested changes"), NOTHING)
      else Return(TWO_MINUTES, false)
    case DropNamespace(purpose) =>
      if purpose.ForExpiry? && !Deleted(rep) then Return(MINUTE, true) else AfterDrop(task, purpose, now)
    case Write(_, res) => Return(res, !rep.Done?)
    case Return(res, failed) => Return(res, failed)
  }
}
