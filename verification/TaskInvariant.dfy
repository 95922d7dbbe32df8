/**
 What holds of one task, its pass in flight and its namespace at every point between API calls.
 The steps of module Machine that concern one task keep it; module Safety lifts this to the world.
 */
module TaskInvariant {
  import opened Glob
  import opened DiffPolicy
  import opened Domain
  import opened Protocol
  import opened Machine
  import opened Grounds

  // ---- the stored status

  predicate IsActive(phase: Phase) {
    phase.Building? || phase.Running?
  }

  /** The edges of the lifecycle; the last one clears the namespace of an expired failure. */
  predicate Edge(from: Phase, to: Phase) {
    || (to.Building? && (from.Unset? || from.AwaitingRevision? || from.BlockedOnClarification?))
    || (from.Building? && to.Running?)
    || (IsActive(from) && (to.AwaitingReview? || to.BlockedOnClarification? || to.Failed?))
    || (from.AwaitingReview? && (to.AwaitingRevision? || to.Completed?))
    || (from.Failed? && to.Failed?)
  }

  ghost predicate StatusOk(spec: Spec, s: Status, now: nat) {
    && !s.phase.Pending?
    && (s.phase.Unset? ==> s == FRESH)
    && (!s.phase.Unset? ==> s.startedAt.Some?)
    && (!s.phase.Unset? && !s.phase.Failed? ==> s.namespace == TaskNamespace(spec))
    && (s.phase.Failed? ==> s.namespace == "" || s.namespace == TaskNamespace(spec))
    && (s.failedAt.Some? <==> s.phase.Failed?)
    && (s.failedAt.Some? ==> s.failedAt.value <= now)
    && (s.phase.AwaitingReview? || s.phase.AwaitingRevision? || s.phase.Completed? ==> s.prNumber != 0)
    && s.prNumber >= 0
  }

  /** A status the pass may write over the stored one. */
  ghost predicate WriteOk(spec: Spec, s: Status, next: Status, now: nat) {
    && StatusOk(spec, next, now)
    && Edge(s.phase, next.phase)
    && (s.prNumber != 0 || !next.phase.AwaitingReview? ==> next.prNumber == s.prNumber)
  }

  // ---- the sandbox

  /** The namespace carries the task's name, and was filled in order: policy, Secret, pods. */
  ghost predicate SandboxOk(cfg: Config, owner: string, sp: Option<Space>) {
    sp.Some? ==>
      && sp.value.owner == owner
      && (forall pod :: pod in sp.value.pods ==> sp.value.policy.Some? && sp.value.secret.Some?)
      && (sp.value.secret.Some? ==> sp.value.policy.Some?)
      && (sp.value.policy.Some? ==> sp.value.policy.value == cfg.egress)
  }

  predicate HasPolicy(sp: Option<Space>) {
    sp.Some? && sp.value.policy.Some?
  }

  predicate HasSecret(sp: Option<Space>) {
    sp.Some? && sp.value.secret.Some?
  }

  // ---- points

  predicate PlanFits(plan: Plan, phase: Phase) {
    match plan
    case First => phase.Unset?
    case Revise => phase.AwaitingRevision?
    case Resume => phase.BlockedOnClarification?
  }

  predicate PullOk(s: Status, pr: PullRequest) {
    pr.number > 0 && (s.prNumber != 0 ==> pr.number == s.prNumber)
  }

  /** Seconds since the epoch at which a failed task's namespace expires. */
  function Deadline(cfg: Config, s: Status): nat
    requires s.failedAt.Some?
  {
    s.failedAt.value + cfg.ttl
  }

  predicate Expired(cfg: Config, s: Status, now: nat) {
    s.phase.Failed? && s.namespace != "" && s.failedAt.Some? && now >= Deadline(cfg, s)
  }

  ghost predicate PointOk(cfg: Config, task: Task, pt: Point, sp: Option<Space>, now: nat) {
    var s := task.status;
    match pt
    case NeedCreds(plan) => PlanFits(plan, s.phase) && (plan.First? ==> HasPolicy(sp))
    case EnsureNamespace(plan, known) => PlanFits(plan, s.phase) && (known.None? <==> plan.First?)
    case EnsurePolicy(plan, known) => PlanFits(plan, s.phase) && (known.None? <==> plan.First?) && sp.Some?
    case EnsureSecret(plan, _) => PlanFits(plan, s.phase) && HasPolicy(sp)
    case EnsurePod(plan) => PlanFits(plan, s.phase) && HasPolicy(sp) && HasSecret(sp)
    case Unlabel => s.phase.AwaitingRevision?
    case DropRevisionPod => s.phase.AwaitingRevision?
    case ReadReply => s.phase.BlockedOnClarification?
    case GetRevisionPod => IsActive(s.phase)
    case GetAgentPod => IsActive(s.phase)
    case ReadClarification => IsActive(s.phase)
    case FindPull => IsActive(s.phase)
    case ReadFiles(pr, _, _) => IsActive(s.phase) && PullOk(s, pr)
    case ReadIssue(pr, _) => IsActive(s.phase) && PullOk(s, pr)
    case PostRejection(pr, violations) => IsActive(s.phase) && PullOk(s, pr) && violations != []
    case CloseRejected(pr, _) => IsActive(s.phase) && PullOk(s, pr)
    case ReadLink(pr) => IsActive(s.phase) && PullOk(s, pr)
    case PostLink(pr) => IsActive(s.phase) && PullOk(s, pr)
    case CheckPull => s.phase.AwaitingReview?
    case CheckLabel => s.phase.AwaitingReview?
    case DropNamespace(purpose) =>
      (match purpose
       case ForCompletion => s.phase.AwaitingReview?
       case ForClarification => IsActive(s.phase)
       case ForRejection(_) => IsActive(s.phase)
       case ForExpiry => Expired(cfg, s, now))
    case Write(next, _) =>
      && WriteOk(task.spec, s, next, now)
      && (next.phase.Building? ==> HasPolicy(sp) && HasSecret(sp))
      && (s.phase.Failed? ==> Expired(cfg, s, now) && next == s.(namespace := "") && sp.None?)
    case Return(_, _) => true
  }

  ghost predicate CoreOk(cfg: Config, e: Entry, sp: Option<Space>, now: nat) {
    && ValidConfig(cfg)
    && ValidSpec(e.task.spec)
    && StatusOk(e.task.spec, e.task.status, now)
    && SandboxOk(cfg, e.task.name, sp)
    && (e.pass.Some? ==>
          && (!e.pass.value.point.Return? ==> e.pass.value.copy == e.task)
          && PointOk(cfg, e.task, e.pass.value.point, sp, now))
  }

  /** GitHub gives a fetched pull request the number it was asked for, and all numbers are positive. */
  predicate Honest(e: Entry, ans: Answer) {
    e.pass.Some? && (e.pass.value.point.FindPull? || e.pass.value.point.CheckPull?) ==>
      HonestAnswer(e.task.status, ans)
  }

  predicate HonestAnswer(s: Status, ans: Answer) {
    && (ans.Pull? ==> PullOk(s, ans.pr))
    && (ans.Pulls? ==> forall pr :: pr in ans.prs ==> pr.number > 0)
  }

  lemma CoreSpawnStart(cfg: Config, e: Entry, sp: Option<Space>, ans: Answer, now: nat, lifetime: nat)
    requires e.pass.Some? && CoreOk(cfg, e, sp, now) && Honest(e, ans)
    requires var pt := e.pass.value.point; pt.NeedCreds? || pt.EnsureNamespace? || pt.EnsurePolicy?
    ensures var (e', sp') := Advance(cfg, e, sp, ans, now, lifetime); CoreOk(cfg, e', sp', now)
  {
  }

  lemma CoreSpawnEnd(cfg: Config, e: Entry, sp: Option<Space>, ans: Answer, now: nat, lifetime: nat)
    requires e.pass.Some? && CoreOk(cfg, e, sp, now) && Honest(e, ans)
    requires var pt := e.pass.value.point; pt.EnsureSecret? || pt.EnsurePod?
    ensures var (e', sp') := Advance(cfg, e, sp, ans, now, lifetime); CoreOk(cfg, e', sp', now)
  {
  }

  lemma CoreRevisionDrop(cfg: Config, e: Entry, sp: Option<Space>, ans: Answer, now: nat, lifetime: nat)
    requires e.pass.Some? && CoreOk(cfg, e, sp, now) && e.pass.value.point.DropRevisionPod?
    ensures var (e', sp') := Advance(cfg, e, sp, ans, now, lifetime); CoreOk(cfg, e', sp', now)
  {
  }

  /** Points whose call leaves the cluster as it is. */
  predicate Reads(pt: Point) {
    || pt.Unlabel? || pt.ReadReply? || pt.GetRevisionPod? || pt.GetAgentPod? || pt.ReadClarification?
    || pt.FindPull? || pt.CheckPull? || pt.CheckLabel? || pt.ReadFiles? || pt.ReadIssue?
    || pt.PostRejection? || pt.CloseRejected? || pt.ReadLink? || pt.PostLink?
  }

  lemma CallReads(cfg: Config, e: Entry, sp: Option<Space>, ans: Answer, now: nat, lifetime: nat) returns (rep: Reply)
    requires e.pass.Some? && Reads(e.pass.value.point)
    ensures var p := e.pass.value;
            Advance(cfg, e, sp, ans, now, lifetime)
              == (e.(pass := Some(Pass(p.copy, After(cfg, p.copy, p.point, rep, now),
                                       p.log + [Exchange(CallAt(cfg, p.copy, p.point), rep)]))), sp)
    ensures rep == Serve(sp, CallAt(cfg, e.pass.value.copy, e.pass.value.point), ans, lifetime, e.book.cycle + 1).1
    ensures rep.Got? ==> rep.answer == ans
  {
    var p := e.pass.value;
    rep := Serve(sp, CallAt(cfg, p.copy, p.point), ans, lifetime, e.book.cycle + 1).1;
  }

  /** The reply to a read. */
  function ReplyTo(cfg: Config, task: Task, pt: Point, sp: Option<Space>, ans: Answer): Reply {
    var call := CallAt(cfg, task, pt);
    if ans.Fails? then Err
    else if call.GetPod? then if call.pod in Pods(sp) then GotPod(Pods(sp)[call.pod]) else NotFound
    else Got(ans)
  }

  lemma ReadAnswered(cfg: Config, e: Entry, sp: Option<Space>, ans: Answer, now: nat, lifetime: nat)
    requires e.pass.Some? && Reads(e.pass.value.point)
    ensures var p := e.pass.value;
            var rep := ReplyTo(cfg, p.copy, p.point, sp, ans);
            Advance(cfg, e, sp, ans, now, lifetime)
              == (e.(pass := Some(Pass(p.copy, After(cfg, p.copy, p.point, rep, now),
                                       p.log + [Exchange(CallAt(cfg, p.copy, p.point), rep)]))), sp)
  {
    var rep := CallReads(cfg, e, sp, ans, now, lifetime);
    ServedRead(cfg, e.pass.value.copy, e.pass.value.point, sp, ans, lifetime, e.book.cycle + 1);
  }

  lemma ServedRead(cfg: Config, task: Task, pt: Point, sp: Option<Space>, ans: Answer, lifetime: nat, cycle: nat)
    requires Reads(pt)
    ensures Serve(sp, CallAt(cfg, task, pt), ans, lifetime, cycle).1 == ReplyTo(cfg, task, pt, sp, ans)
  {
  }

  lemma PodReadsLead(cfg: Config, task: Task, pt: Point, sp: Option<Space>, rep: Reply, now: nat)
    requires StatusOk(task.spec, task.status, now) && PointOk(cfg, task, pt, sp, now)
    requires pt.Unlabel? || pt.ReadReply? || pt.GetRevisionPod? || pt.GetAgentPod? || pt.ReadClarification?
    ensures PointOk(cfg, task, After(cfg, task, pt, rep, now), sp, now)
  {
  }

  lemma FoundPullOk(task: Task, rep: Reply)
    requires rep.Got? ==> HonestAnswer(task.status, rep.answer)
    ensures var found := FoundPull(task, rep);
            found.Some? && found.value.Some? ==> PullOk(task.status, found.value.value)
  {
  }

  lemma FailureOk(cfg: Config, task: Task, message: string, res: Result, sp: Option<Space>, now: nat)
    requires StatusOk(task.spec, task.status, now) && IsActive(task.status.phase)
    ensures PointOk(cfg, task, Write(MarkedFailed(task.status, message, now), res), sp, now)
  {
  }

  lemma FindPullLeads(cfg: Config, task: Task, sp: Option<Space>, rep: Reply, now: nat)
    requires StatusOk(task.spec, task.status, now) && IsActive(task.status.phase)
    requires var found := FoundPull(task, rep); found.Some? && found.value.Some? ==> PullOk(task.status, found.value.value)
    ensures PointOk(cfg, task, After(cfg, task, FindPull, rep, now), sp, now)
  {
    var next := After(cfg, task, FindPull, rep, now);
    if next.Write? {
      FailureOk(cfg, task, next.next.message, next.res, sp, now);
    }
  }

  lemma ReviewReadsLead(cfg: Config, task: Task, pt: Point, sp: Option<Space>, rep: Reply, now: nat)
    requires StatusOk(task.spec, task.status, now) && PointOk(cfg, task, pt, sp, now)
    requires pt.CheckPull? || pt.CheckLabel?
    ensures PointOk(cfg, task, After(cfg, task, pt, rep, now), sp, now)
  {
  }

  lemma FileReadsLead(cfg: Config, task: Task, pt: Point, sp: Option<Space>, rep: Reply, now: nat)
    requires StatusOk(task.spec, task.status, now) && PointOk(cfg, task, pt, sp, now)
    requires pt.ReadFiles? || pt.ReadIssue?
    ensures PointOk(cfg, task, After(cfg, task, pt, rep, now), sp, now)
  {
  }

  lemma RejectionLeads(cfg: Config, task: Task, pt: Point, sp: Option<Space>, rep: Reply, now: nat)
    requires StatusOk(task.spec, task.status, now) && PointOk(cfg, task, pt, sp, now)
    requires pt.PostRejection? || pt.CloseRejected?
    ensures PointOk(cfg, task, After(cfg, task, pt, rep, now), sp, now)
  {
  }

  lemma LinkReadsLead(cfg: Config, task: Task, pt: Point, sp: Option<Space>, rep: Reply, now: nat)
    requires StatusOk(task.spec, task.status, now) && PointOk(cfg, task, pt, sp, now)
    requires pt.ReadLink? || pt.PostLink?
    ensures PointOk(cfg, task, After(cfg, task, pt, rep, now), sp, now)
  {
  }

  lemma CoreReads(cfg: Config, e: Entry, sp: Option<Space>, ans: Answer, now: nat, lifetime: nat)
    requires e.pass.Some? && CoreOk(cfg, e, sp, now) && Honest(e, ans) && Reads(e.pass.value.point)
    ensures var (e', sp') := Advance(cfg, e, sp, ans, now, lifetime); CoreOk(cfg, e', sp', now)
  {
    var pt := e.pass.value.point;
    var rep := CallReads(cfg, e, sp, ans, now, lifetime);
    if pt.Unlabel? || pt.ReadReply? || pt.GetRevisionPod? || pt.GetAgentPod? || pt.ReadClarification? {
      PodReadsLead(cfg, e.task, pt, sp, rep, now);
    } else if pt.FindPull? {
      FoundPullOk(e.task, rep);
      FindPullLeads(cfg, e.task, sp, rep, now);
    } else if pt.CheckPull? || pt.CheckLabel? {
      ReviewReadsLead(cfg, e.task, pt, sp, rep, now);
    } else if pt.ReadLink? || pt.PostLink? {
      LinkReadsLead(cfg, e.task, pt, sp, rep, now);
    } else if pt.ReadFiles? || pt.ReadIssue? {
      FileReadsLead(cfg, e.task, pt, sp, rep, now);
    } else {
      RejectionLeads(cfg, e.task, pt, sp, rep, now);
    }
  }

  lemma DropLeads(cfg: Config, task: Task, pt: Point, sp: Option<Space>, sp': Option<Space>, rep: Reply, now: nat)
    requires StatusOk(task.spec, task.status, now) && PointOk(cfg, task, pt, sp, now) && pt.DropNamespace?
    requires Deleted(rep) ==> sp'.None?
    ensures PointOk(cfg, task, After(cfg, task, pt, rep, now), sp', now)
  {
  }

  lemma CoreDrop(cfg: Config, e: Entry, sp: Option<Space>, ans: Answer, now: nat, lifetime: nat)
    requires e.pass.Some? && CoreOk(cfg, e, sp, now) && e.pass.value.point.DropNamespace?
    ensures var (e', sp') := Advance(cfg, e, sp, ans, now, lifetime); CoreOk(cfg, e', sp', now)
  {
    var p := e.pass.value;
    var (sp', rep) := Serve(sp, CallAt(cfg, p.copy, p.point), ans, lifetime, e.book.cycle + 1);
    DropLeads(cfg, e.task, p.point, sp, sp', rep, now);
  }

  /** The status write in full. */
  lemma WriteLogged(cfg: Config, e: Entry, sp: Option<Space>, ans: Answer, now: nat, lifetime: nat)
    requires e.pass.Some? && e.pass.value.point.Write?
    ensures Advance(cfg, e, sp, ans, now, lifetime) == (Written(e, ans.Fails?), sp)
  {
  }

  function Written(e: Entry, fails: bool): Entry
    requires e.pass.Some? && e.pass.value.point.Write?
  {
    var p := e.pass.value;
    var log := p.log + [Exchange(UpdateStatus(p.point.next), if fails then Err else Done)];
    var e' := if fails then e else Stored(e, p.point.next);
    e'.(pass := Some(Pass(p.copy, Return(p.point.res, fails), log)))
  }

  lemma CoreWrite(cfg: Config, e: Entry, sp: Option<Space>, fails: bool, now: nat)
    requires e.pass.Some? && e.pass.value.point.Write? && CoreOk(cfg, e, sp, now)
    ensures CoreOk(cfg, Written(e, fails), sp, now)
  {
  }

  /** Each API call keeps the core invariant. */
  lemma CoreKept(cfg: Config, e: Entry, sp: Option<Space>, ans: Answer, now: nat, lifetime: nat)
    requires e.pass.Some? && CoreOk(cfg, e, sp, now) && Honest(e, ans)
    ensures var (e', sp') := Advance(cfg, e, sp, ans, now, lifetime); CoreOk(cfg, e', sp', now)
  {
    var pt := e.pass.value.point;
    if pt.NeedCreds? || pt.EnsureNamespace? || pt.EnsurePolicy? {
      CoreSpawnStart(cfg, e, sp, ans, now, lifetime);
    } else if pt.EnsureSecret? || pt.EnsurePod? {
      CoreSpawnEnd(cfg, e, sp, ans, now, lifetime);
    } else if pt.DropRevisionPod? {
      CoreRevisionDrop(cfg, e, sp, ans, now, lifetime);
    } else if Reads(pt) {
      CoreReads(cfg, e, sp, ans, now, lifetime);
    } else if pt.DropNamespace? {
      CoreDrop(cfg, e, sp, ans, now, lifetime);
    } else if pt.Write? {
      WriteLogged(cfg, e, sp, ans, now, lifetime);
      CoreWrite(cfg, e, sp, ans.Fails?, now);
    }
  }

  // ---- which pod drives the task

  predicate AfterRevisionDrop(pt: Point) {
    pt.NeedCreds? || pt.EnsureNamespace? || pt.EnsurePolicy? || pt.EnsureSecret? || pt.EnsurePod?
  }

  /** A pod of the coming cycle is the one that this spawn creates; no two pods are of one cycle. */
  ghost predicate CyclesOk(e: Entry, sp: Option<Space>) {
    var s, cycle, pods := e.task.status, e.book.cycle, Pods(sp);
    && (AGENT in pods && AGENT_REV in pods ==> pods[AGENT].cycle != pods[AGENT_REV].cycle)
    && (AGENT in pods ==> pods[AGENT].cycle <= cycle || Built(e, pods[AGENT], s.phase.Unset?, InitialRun)
                          || Built(e, pods[AGENT], s.phase.BlockedOnClarification?, ResumeRun))
    && (AGENT_REV in pods ==> pods[AGENT_REV].cycle <= cycle
                              || Built(e, pods[AGENT_REV], s.phase.AwaitingRevision?, RevisionRun(s.prNumber)))
    && (s.phase.Unset? ==> cycle == 0 && AGENT_REV !in pods && (AGENT in pods ==> pods[AGENT].cycle == 1))
  }

  ghost predicate Built(e: Entry, pod: Pod, spawning: bool, run: AgentRun) {
    spawning && pod.cycle == e.book.cycle + 1 && pod.spec == PodSpec(e.task.spec, run)
  }

  /** The operator still owes the task something. */
  predicate Unsettled(s: Status) {
    !s.phase.Completed? && !(s.phase.Failed? && s.namespace == "")
  }

  /** The task is settled, or its pass is about to write that it is. */
  predicate Settling(e: Entry) {
    !Unsettled(e.task.status) || (e.pass.Some? && e.pass.value.point.Write? && !Unsettled(e.pass.value.point.next))
  }

  /** Calls that neither create nor delete a pod, nor write the status. */
  predicate LeavesPods(pt: Point) {
    !pt.EnsurePod? && !pt.DropRevisionPod? && !pt.DropNamespace? && !pt.Write?
  }

  lemma PodsLeft(cfg: Config, e: Entry, sp: Option<Space>, ans: Answer, now: nat, lifetime: nat)
    requires e.pass.Some? && LeavesPods(e.pass.value.point)
    ensures var (e', sp') := Advance(cfg, e, sp, ans, now, lifetime);
            e'.task == e.task && e'.book == e.book && Pods(sp') == Pods(sp)
  {
    if Reads(e.pass.value.point) {
      var rep := CallReads(cfg, e, sp, ans, now, lifetime);
    } else {
      SpawnLeavesPods(cfg, e, sp, ans, now, lifetime);
    }
  }

  lemma SpawnLeavesPods(cfg: Config, e: Entry, sp: Option<Space>, ans: Answer, now: nat, lifetime: nat)
    requires e.pass.Some? && LeavesPods(e.pass.value.point) && !Reads(e.pass.value.point)
    ensures var (e', sp') := Advance(cfg, e, sp, ans, now, lifetime);
            e'.task == e.task && e'.book == e.book && Pods(sp') == Pods(sp)
  {
  }

  lemma PodCycles(cfg: Config, e: Entry, sp: Option<Space>, ans: Answer, now: nat, lifetime: nat)
    requires e.pass.Some? && CoreOk(cfg, e, sp, now) && CyclesOk(e, sp)
    requires var pt := e.pass.value.point; pt.EnsurePod?
    ensures var (e', sp') := Advance(cfg, e, sp, ans, now, lifetime); CyclesOk(e', sp')
  {
  }

  lemma RevisionDropCycles(cfg: Config, e: Entry, sp: Option<Space>, ans: Answer, now: nat, lifetime: nat)
    requires e.pass.Some? && CoreOk(cfg, e, sp, now) && CyclesOk(e, sp) && e.pass.value.point.DropRevisionPod?
    ensures var (e', sp') := Advance(cfg, e, sp, ans, now, lifetime); CyclesOk(e', sp')
  {
  }

  /** No read of a revision leads on to its spawn, and none leads straight to a write that settles a task. */
  lemma ReadsLead(cfg: Config, task: Task, pt: Point, sp: Option<Space>, rep: Reply, now: nat)
    requires StatusOk(task.spec, task.status, now) && PointOk(cfg, task, pt, sp, now) && Reads(pt)
    ensures var next := After(cfg, task, pt, rep, now);
            && (task.status.phase.AwaitingRevision? ==> next == DropRevisionPod)
            && (next.Write? ==> Unsettled(next.next))
  {
    assert IsActive(task.status.phase) || task.status.phase.AwaitingReview? ==>
        task.status.namespace == TaskNamespace(task.spec) && |TaskNamespace(task.spec)| >= 8;
  }

  lemma DropCycles(cfg: Config, e: Entry, sp: Option<Space>, ans: Answer, now: nat, lifetime: nat)
    requires e.pass.Some? && CoreOk(cfg, e, sp, now) && CyclesOk(e, sp)
    requires var pt := e.pass.value.point; pt.DropNamespace?
    ensures var (e', sp') := Advance(cfg, e, sp, ans, now, lifetime); CyclesOk(e', sp')
  {
  }

  lemma WriteCycles(cfg: Config, e: Entry, sp: Option<Space>, fails: bool, now: nat)
    requires e.pass.Some? && e.pass.value.point.Write? && e.pass.value.copy == e.task
    requires WriteOk(e.task.spec, e.task.status, e.pass.value.point.next, now) && CyclesOk(e, sp)
    ensures CyclesOk(Written(e, fails), sp)
  {
  }

  /** Each API call keeps the cycles of the pods in order. */
  lemma CyclesKept(cfg: Config, e: Entry, sp: Option<Space>, ans: Answer, now: nat, lifetime: nat)
    requires e.pass.Some? && CoreOk(cfg, e, sp, now) && CyclesOk(e, sp)
    ensures var (e', sp') := Advance(cfg, e, sp, ans, now, lifetime); CyclesOk(e', sp')
  {
    var pt := e.pass.value.point;
    if pt.EnsurePod? {
      PodCycles(cfg, e, sp, ans, now, lifetime);
    } else if pt.DropRevisionPod? {
      RevisionDropCycles(cfg, e, sp, ans, now, lifetime);
    } else if pt.DropNamespace? {
      DropCycles(cfg, e, sp, ans, now, lifetime);
    } else if pt.Write? {
      WriteLogged(cfg, e, sp, ans, now, lifetime);
      WriteCycles(cfg, e, sp, ans.Fails?, now);
    } else {
      PodsLeft(cfg, e, sp, ans, now, lifetime);
    }
  }

  // ---- what the calls of a pass have established

  /** One successful page of a file listing: what was asked for and what came back. */
  datatype PageRead = PageRead(number: int, page: int, files: seq<CommitFile>, nextPage: int)

  /** The first pod read. */
  function Driver(log: seq<Exchange>): Option<Pod> {
    if log == [] then None
    else
      var earlier := Driver(log[..|log| - 1]);
      var last := log[|log| - 1];
      if earlier.None? && last.reply.GotPod? then Some(last.reply.pod) else earlier
  }

  /** The read of the revision pod failed with something other than "not found". */
  predicate Misread(log: seq<Exchange>) {
    log != [] &&
    (Misread(log[..|log| - 1]) ||
     (log[|log| - 1].call.GetPod? && log[|log| - 1].call.pod == AGENT_REV && log[|log| - 1].reply.Err?))
  }

  /** The pull request found for the task. */
  function Found(task: Task, log: seq<Exchange>): Option<PullRequest> {
    if log == [] then None
    else
      var last := log[|log| - 1];
      if last.call == GitHub(FindQuery(task)) && FoundPull(task, last.reply).Some?
      then FoundPull(task, last.reply).value else Found(task, log[..|log| - 1])
  }

  /** The pages read, in order. */
  function PagesRead(log: seq<Exchange>): seq<PageRead> {
    if log == [] then []
    else
      var earlier := PagesRead(log[..|log| - 1]);
      var last := log[|log| - 1];
      if last.call.GitHub? && last.call.query.ListFiles? && last.reply.Got? && last.reply.answer.Page?
      then earlier + [PageRead(last.call.query.number, last.call.query.page, last.reply.answer.files, last.reply.answer.nextPage)]
      else earlier
  }

  /** The issue body read. */
  function BodyRead(log: seq<Exchange>): Option<string> {
    if log == [] then None
    else
      var last := log[|log| - 1];
      if last.call == GitHub(GetIssueBody) && last.reply.Got? && last.reply.answer.IssueBody?
      then Some(last.reply.answer.text) else BodyRead(log[..|log| - 1])
  }

  function AllFiles(pages: seq<PageRead>): seq<CommitFile> {
    if pages == [] then [] else AllFiles(pages[..|pages| - 1]) + pages[|pages| - 1].files
  }

  /** The pages follow one another from the first, and `expected` comes next. */
  predicate Chained(pages: seq<PageRead>, number: int, expected: int) {
    if pages == [] then expected == 0
    else
      var last := pages[|pages| - 1];
      && last.number == number
      && last.nextPage == expected
      && Chained(pages[..|pages| - 1], number, last.page)
      && (|pages| > 1 ==> last.page != 0)
  }

  /** Every page of the pull request's file list, first to last. */
  predicate CompleteListing(pages: seq<PageRead>, number: int) {
    pages != [] && Chained(pages, number, 0)
  }

  /** The pass listed the whole of pull request `number` and read the issue. */
  predicate Examined(task: Task, log: seq<Exchange>, number: int) {
    && Found(task, log).Some? && Found(task, log).value.number == number
    && CompleteListing(PagesRead(log), number)
    && BodyRead(log).Some?
  }

  /** The policy's verdict on what the pass read. */
  function Verdict(cfg: Config, log: seq<Exchange>): seq<Violation>
    requires BodyRead(log).Some?
  {
    Violations(cfg.pathMatch, AllFiles(PagesRead(log)), BodyRead(log).value, cfg.policy)
  }

  predicate Passed(cfg: Config, task: Task, log: seq<Exchange>, number: int) {
    Examined(task, log, number) && Verdict(cfg, log) == []
  }

  predicate Rejected(cfg: Config, task: Task, log: seq<Exchange>) {
    && Found(task, log).Some?
    && Examined(task, log, Found(task, log).value.number)
    && Verdict(cfg, log) != []
  }

  /** The pull request was closed by this pass. */
  predicate Closed(log: seq<Exchange>, number: int) {
    exists k :: 0 <= k < |log| && log[k].call == GitHub(ClosePull(number)) && log[k].reply.Got?
  }

  predicate Listing(task: Task, log: seq<Exchange>, pr: PullRequest, files: seq<CommitFile>) {
    && Found(task, log) == Some(pr)
    && files == AllFiles(PagesRead(log))
    && BodyRead(log).None?
  }

  ghost predicate GateOk(cfg: Config, e: Entry, sp: Option<Space>) {
    e.pass.Some? && IsActive(e.task.status.phase) && !e.pass.value.point.Return? ==>
      var log := e.pass.value.log;
      && GatePoint(cfg, e.task, log, sp, e.pass.value.point)
      && (!e.pass.value.point.GetRevisionPod? && !e.pass.value.point.GetAgentPod? ==> Driver(log).Some?)
  }

  /** A pass that has just brought its task to review had passed the policy. */
  ghost predicate ReviewedOk(cfg: Config, e: Entry) {
    e.pass.Some? && e.pass.value.point.Return? && Reviewed(e) ==>
      var p := e.pass.value;
      IsActive(p.copy.status.phase) && Passed(cfg, p.copy, p.log, e.task.status.prNumber)
  }

  /** The pass began before the review that the task is in now. */
  predicate Reviewed(e: Entry)
    requires e.pass.Some?
  {
    e.task.status.phase.AwaitingReview? && !e.pass.value.copy.status.phase.AwaitingReview?
  }

  ghost predicate GatePoint(cfg: Config, task: Task, log: seq<Exchange>, sp: Option<Space>, pt: Point) {
    match pt
    case GetRevisionPod => log == []
    case GetAgentPod =>
      && Driver(log).None? && PagesRead(log) == [] && BodyRead(log).None?
      && (!Misread(log) ==> AGENT_REV !in Pods(sp))
    case FindPull => PagesRead(log) == [] && BodyRead(log).None?
    case ReadFiles(pr, page, files) =>
      && Listing(task, log, pr, files)
      && Chained(PagesRead(log), pr.number, page)
      && (PagesRead(log) != [] ==> page != 0)
    case ReadIssue(pr, files) => Listing(task, log, pr, files) && CompleteListing(PagesRead(log), pr.number)
    case PostRejection(pr, violations) =>
      Found(task, log) == Some(pr) && Rejected(cfg, task, log) && violations == Verdict(cfg, log)
    case CloseRejected(pr, reason) =>
      Found(task, log) == Some(pr) && Rejected(cfg, task, log) && reason == Verdict(cfg, log)[0].Reason()
    case ReadLink(pr) => Passed(cfg, task, log, pr.number)
    case PostLink(pr) => Passed(cfg, task, log, pr.number)
    case DropNamespace(purpose) =>
      purpose.ForRejection? ==>
        && Rejected(cfg, task, log) && Closed(log, Found(task, log).value.number)
        && purpose.reason == Verdict(cfg, log)[0].Reason()
    case Write(next, _) =>
      && (next.phase.AwaitingReview? ==> Passed(cfg, task, log, next.prNumber))
      && (next.phase.Failed? && next.namespace == "" ==>
            && Rejected(cfg, task, log) && Closed(log, Found(task, log).value.number)
            && next.message == "diff policy: " + Verdict(cfg, log)[0].Reason())
    case _ => true
  }

  /** How one more exchange changes what the log shows. */
  lemma LogAppend(task: Task, log: seq<Exchange>, x: Exchange)
    ensures Driver(log + [x]) == (if Driver(log).None? && x.reply.GotPod? then Some(x.reply.pod) else Driver(log))
    ensures Misread(log + [x]) <==> Misread(log) || (x.call.GetPod? && x.call.pod == AGENT_REV && x.reply.Err?)
    ensures Found(task, log + [x])
         == (if x.call == GitHub(FindQuery(task)) && FoundPull(task, x.reply).Some?
             then FoundPull(task, x.reply).value else Found(task, log))
    ensures PagesRead(log + [x])
         == (if x.call.GitHub? && x.call.query.ListFiles? && x.reply.Got? && x.reply.answer.Page?
             then PagesRead(log) + [PageRead(x.call.query.number, x.call.query.page,
                                             x.reply.answer.files, x.reply.answer.nextPage)]
             else PagesRead(log))
    ensures BodyRead(log + [x])
         == (if x.call == GitHub(GetIssueBody) && x.reply.Got? && x.reply.answer.IssueBody?
             then Some(x.reply.answer.text) else BodyRead(log))
  {
    assert (log + [x])[..|log|] == log;
  }

  lemma PagesAppend(pages: seq<PageRead>, x: PageRead, number: int, expected: int)
    requires Chained(pages, number, x.page) && x.number == number
    requires pages != [] ==> x.page != 0
    ensures AllFiles(pages + [x]) == AllFiles(pages) + x.files
    ensures Chained(pages + [x], number, x.nextPage)
  {
    assert (pages + [x])[..|pages|] == pages;
  }

  lemma ClosedAppend(log: seq<Exchange>, x: Exchange, number: int)
    ensures Closed(log + [x], number) <==> Closed(log, number) || (x.call == GitHub(ClosePull(number)) && x.reply.Got?)
  {
    assert forall k :: 0 <= k < |log| ==> (log + [x])[k] == log[k];
    assert (log + [x])[|log|] == x;
  }

  lemma GatePods(cfg: Config, e: Entry, sp: Option<Space>, ans: Answer, now: nat, lifetime: nat)
    requires e.pass.Some? && e.pass.value.copy == e.task && IsActive(e.task.status.phase) && CyclesOk(e, sp) && GateOk(cfg, e, sp)
    requires var pt := e.pass.value.point; pt.GetRevisionPod? || pt.GetAgentPod?
    ensures var (e', sp') := Advance(cfg, e, sp, ans, now, lifetime); GateOk(cfg, e', sp')
  {
    var p := e.pass.value;
    var rep := ReplyTo(cfg, p.copy, p.point, sp, ans);
    ReadAnswered(cfg, e, sp, ans, now, lifetime);
    GatePod(cfg, e.task, p.log, sp, p.point, rep, now);
  }

  /** A pod found leads on to its case; none found leads to the next pod or to a return. */
  lemma GatePod(cfg: Config, task: Task, log: seq<Exchange>, sp: Option<Space>, pt: Point, rep: Reply, now: nat)
    requires pt.GetRevisionPod? || pt.GetAgentPod?
    requires IsActive(task.status.phase) && GatePoint(cfg, task, log, sp, pt)
    requires rep.GotPod? || rep.NotFound? || rep.Err?
    requires var call := CallAt(cfg, task, pt); rep.NotFound? ==> call.GetPod? && call.pod !in Pods(sp)
    ensures var next, longer := After(cfg, task, pt, rep, now), log + [Exchange(CallAt(cfg, task, pt), rep)];
            && (!next.Return? ==> GatePoint(cfg, task, longer, sp, next))
            && (!next.Return? && !next.GetRevisionPod? && !next.GetAgentPod? ==> Driver(longer).Some?)
  {
    LogAppend(task, log, Exchange(CallAt(cfg, task, pt), rep));
  }

  /** Past the pod reads, the reply to the call at `pt` leads to a point that the longer log justifies. */
  ghost predicate GateAfter(cfg: Config, task: Task, log: seq<Exchange>, pt: Point, rep: Reply, now: nat) {
    var next := After(cfg, task, pt, rep, now);
    && !next.GetRevisionPod? && !next.GetAgentPod?
    && GatePoint(cfg, task, log + [Exchange(CallAt(cfg, task, pt), rep)], None, next)
  }

  lemma GatePodFailed(cfg: Config, task: Task, log: seq<Exchange>, sp: Option<Space>, pt: Point, rep: Reply, now: nat)
    requires pt.ReadClarification? && GatePoint(cfg, task, log, sp, pt)
    requires task.status.namespace != ""
    ensures GateAfter(cfg, task, log, pt, rep, now)
  {
    LogAppend(task, log, Exchange(CallAt(cfg, task, pt), rep));
  }

  lemma GatePodSucceeded(cfg: Config, task: Task, log: seq<Exchange>, sp: Option<Space>, pt: Point, rep: Reply, now: nat)
    requires pt.FindPull? && GatePoint(cfg, task, log, sp, pt)
    requires task.status.namespace != ""
    ensures GateAfter(cfg, task, log, pt, rep, now)
  {
    LogAppend(task, log, Exchange(CallAt(cfg, task, pt), rep));
  }

  lemma GateFiles(cfg: Config, task: Task, log: seq<Exchange>, sp: Option<Space>, pt: Point, rep: Reply, now: nat)
    requires pt.ReadFiles? && GatePoint(cfg, task, log, sp, pt)
    ensures GateAfter(cfg, task, log, pt, rep, now)
  {
    LogAppend(task, log, Exchange(CallAt(cfg, task, pt), rep));
    if rep.Got? && rep.answer.Page? {
      PagesAppend(PagesRead(log), PageRead(pt.pr.number, pt.page, rep.answer.files, rep.answer.nextPage),
                  pt.pr.number, rep.answer.nextPage);
    }
  }

  lemma GateIssue(cfg: Config, task: Task, log: seq<Exchange>, sp: Option<Space>, pt: Point, rep: Reply, now: nat)
    requires pt.ReadIssue? && GatePoint(cfg, task, log, sp, pt)
    ensures GateAfter(cfg, task, log, pt, rep, now)
  {
    var longer := log + [Exchange(CallAt(cfg, task, pt), rep)];
    LogAppend(task, log, Exchange(CallAt(cfg, task, pt), rep));
    if rep.Got? && rep.answer.IssueBody? {
      GateVerdict(cfg, task, longer, pt.pr, pt.files, rep.answer.text);
    }
  }

  /** The verdict on a complete listing and the issue's text either rejects or passes. */
  lemma GateVerdict(cfg: Config, task: Task, log: seq<Exchange>, pr: PullRequest, files: seq<CommitFile>, text: string)
    requires Found(task, log) == Some(pr) && AllFiles(PagesRead(log)) == files
    requires CompleteListing(PagesRead(log), pr.number) && BodyRead(log) == Some(text)
    ensures var next := OnIssue(cfg, task, pr, files, text);
            && !next.GetRevisionPod? && !next.GetAgentPod?
            && GatePoint(cfg, task, log, None, next)
  {
  }

  lemma GateRejection(cfg: Config, task: Task, log: seq<Exchange>, sp: Option<Space>, pt: Point, rep: Reply, now: nat)
    requires pt.PostRejection? && GatePoint(cfg, task, log, sp, pt)
    ensures GateAfter(cfg, task, log, pt, rep, now)
  {
    LogAppend(task, log, Exchange(CallAt(cfg, task, pt), rep));
  }

  lemma GateClosing(cfg: Config, task: Task, log: seq<Exchange>, sp: Option<Space>, pt: Point, rep: Reply, now: nat)
    requires pt.CloseRejected? && GatePoint(cfg, task, log, sp, pt)
    ensures GateAfter(cfg, task, log, pt, rep, now)
  {
    LogAppend(task, log, Exchange(CallAt(cfg, task, pt), rep));
    if Found(task, log).Some? {
      ClosedAppend(log, Exchange(CallAt(cfg, task, pt), rep), Found(task, log).value.number);
    }
  }

  lemma GateReadLink(cfg: Config, task: Task, log: seq<Exchange>, sp: Option<Space>, pt: Point, rep: Reply, now: nat)
    requires pt.ReadLink? && GatePoint(cfg, task, log, sp, pt)
    ensures GateAfter(cfg, task, log, pt, rep, now)
  {
    LogAppend(task, log, Exchange(CallAt(cfg, task, pt), rep));
  }

  lemma GatePostLink(cfg: Config, task: Task, log: seq<Exchange>, sp: Option<Space>, pt: Point, rep: Reply, now: nat)
    requires pt.PostLink? && GatePoint(cfg, task, log, sp, pt)
    ensures GateAfter(cfg, task, log, pt, rep, now)
  {
    LogAppend(task, log, Exchange(CallAt(cfg, task, pt), rep));
  }

  lemma GateDrop(cfg: Config, task: Task, log: seq<Exchange>, sp: Option<Space>, pt: Point, rep: Reply, now: nat)
    requires pt.DropNamespace? && (pt.purpose.ForClarification? || pt.purpose.ForRejection?) && GatePoint(cfg, task, log, sp, pt)
    requires task.status.namespace != ""
    ensures GateAfter(cfg, task, log, pt, rep, now)
  {
    LogAppend(task, log, Exchange(CallAt(cfg, task, pt), rep));
    if Found(task, log).Some? {
      ClosedAppend(log, Exchange(CallAt(cfg, task, pt), rep), Found(task, log).value.number);
    }
  }

  lemma GateReply(cfg: Config, task: Task, log: seq<Exchange>, sp: Option<Space>, pt: Point, rep: Reply, now: nat)
    requires GatePoint(cfg, task, log, sp, pt) && task.status.namespace != ""
    requires pt.ReadClarification? || pt.FindPull? || pt.ReadFiles? || pt.ReadIssue? || pt.PostRejection?
             || pt.CloseRejected? || pt.ReadLink? || pt.PostLink?
             || (pt.DropNamespace? && (pt.purpose.ForClarification? || pt.purpose.ForRejection?))
    ensures GateAfter(cfg, task, log, pt, rep, now)
  {
    if pt.ReadClarification? {
      GatePodFailed(cfg, task, log, sp, pt, rep, now);
    } else if pt.FindPull? {
      GatePodSucceeded(cfg, task, log, sp, pt, rep, now);
    } else if pt.ReadFiles? {
      GateFiles(cfg, task, log, sp, pt, rep, now);
    } else if pt.ReadIssue? {
      GateIssue(cfg, task, log, sp, pt, rep, now);
    } else if pt.PostRejection? {
      GateRejection(cfg, task, log, sp, pt, rep, now);
    } else if pt.CloseRejected? {
      GateClosing(cfg, task, log, sp, pt, rep, now);
    } else if pt.ReadLink? {
      GateReadLink(cfg, task, log, sp, pt, rep, now);
    } else if pt.PostLink? {
      GatePostLink(cfg, task, log, sp, pt, rep, now);
    } else {
      GateDrop(cfg, task, log, sp, pt, rep, now);
    }
  }

  lemma SpaceIrrelevant(cfg: Config, task: Task, log: seq<Exchange>, sp: Option<Space>, sp': Option<Space>, pt: Point)
    requires GatePoint(cfg, task, log, sp, pt) && !pt.GetAgentPod?
    ensures GatePoint(cfg, task, log, sp', pt)
  {
  }

  /** From the reply to the pass: the first pod read stays. */
  lemma GateLift(cfg: Config, e: Entry, sp: Option<Space>, e': Entry, sp': Option<Space>, rep: Reply, now: nat)
    requires e.pass.Some? && IsActive(e.task.status.phase) && GateOk(cfg, e, sp)
    requires var pt := e.pass.value.point; !pt.GetRevisionPod? && !pt.GetAgentPod? && !pt.Return?
    requires GateAfter(cfg, e.task, e.pass.value.log, e.pass.value.point, rep, now)
    requires var p := e.pass.value;
             e' == Entry(e.task, Some(Pass(e.task, After(cfg, e.task, p.point, rep, now),
                                           p.log + [Exchange(CallAt(cfg, e.task, p.point), rep)])), e'.book)
    ensures GateOk(cfg, e', sp')
  {
    var p := e.pass.value;
    LogAppend(e.task, p.log, Exchange(CallAt(cfg, e.task, p.point), rep));
    SpaceIrrelevant(cfg, e.task, e'.pass.value.log, None, sp', e'.pass.value.point);
  }

  /** Each API call keeps the record of the gate. */
  lemma GateKept(cfg: Config, e: Entry, sp: Option<Space>, ans: Answer, now: nat, lifetime: nat)
    requires e.pass.Some? && CoreOk(cfg, e, sp, now) && CyclesOk(e, sp) && GateOk(cfg, e, sp)
    ensures var (e', sp') := Advance(cfg, e, sp, ans, now, lifetime); GateOk(cfg, e', sp')
  {
    var pt := e.pass.value.point;
    NamespaceInjective(e.task.spec, e.task.spec);
    if pt.Return? || pt.Write? {
    } else if !IsActive(e.task.status.phase) {
      GateElsewhere(cfg, e, sp, ans, now, lifetime);
    } else if pt.GetRevisionPod? || pt.GetAgentPod? {
      GatePods(cfg, e, sp, ans, now, lifetime);
    } else {
      var rep := CallLogged(cfg, e, sp, ans, now, lifetime);
      GateReply(cfg, e.task, e.pass.value.log, sp, pt, rep, now);
      var (e', sp') := Advance(cfg, e, sp, ans, now, lifetime);
      GateLift(cfg, e, sp, e', sp', rep, now);
    }
  }

  /** Each API call keeps the record of a review entered. */
  lemma ReviewedKept(cfg: Config, e: Entry, sp: Option<Space>, ans: Answer, now: nat, lifetime: nat)
    requires e.pass.Some? && CoreOk(cfg, e, sp, now) && GateOk(cfg, e, sp) && ReviewedOk(cfg, e)
    ensures ReviewedOk(cfg, Advance(cfg, e, sp, ans, now, lifetime).0)
  {
    if e.pass.value.point.Write? {
      ReviewWritten(cfg, e, sp, ans, now, lifetime);
    } else if !e.pass.value.point.Return? {
      var rep := CallLogged(cfg, e, sp, ans, now, lifetime);
    }
  }

  lemma ReviewWritten(cfg: Config, e: Entry, sp: Option<Space>, ans: Answer, now: nat, lifetime: nat)
    requires e.pass.Some? && e.pass.value.point.Write? && e.pass.value.copy == e.task
    requires WriteOk(e.task.spec, e.task.status, e.pass.value.point.next, now) && GateOk(cfg, e, sp)
    ensures ReviewedOk(cfg, Advance(cfg, e, sp, ans, now, lifetime).0)
  {
    var p := e.pass.value;
    WriteLogged(cfg, e, sp, ans, now, lifetime);
    PassedAppend(cfg, e.task, p.log, Exchange(UpdateStatus(p.point.next), if ans.Fails? then Err else Done),
                 p.point.next.prNumber);
  }

  /** A status write does not change what a pass has read. */
  lemma PassedAppend(cfg: Config, task: Task, log: seq<Exchange>, x: Exchange, number: int)
    requires x.call.UpdateStatus?
    ensures Passed(cfg, task, log + [x], number) <==> Passed(cfg, task, log, number)
  {
    LogAppend(task, log, x);
  }

  /** A pass that starts outside Building and Running never becomes one of them before it returns. */
  lemma GateElsewhere(cfg: Config, e: Entry, sp: Option<Space>, ans: Answer, now: nat, lifetime: nat)
    requires e.pass.Some? && !e.pass.value.point.Return?
    requires !IsActive(e.task.status.phase)
    ensures var (e', sp') := Advance(cfg, e, sp, ans, now, lifetime); GateOk(cfg, e', sp')
  {
  }

  // ---- wakeups

  /** An unsettled task is being worked on, queued, or due to be queued. */
  ghost predicate WakeOk(e: Entry) {
    Unsettled(e.task.status) ==>
      match e.pass
      case None => e.book.ready || e.book.timers != {}
      case Some(p) => p.point.Return? ==> p.point.failed || p.point.res.after > 0 || e.book.ready
  }

  lemma WakeKept(cfg: Config, e: Entry, sp: Option<Space>, ans: Answer, now: nat, lifetime: nat)
    requires e.pass.Some? && CoreOk(cfg, e, sp, now) && WakeOk(e)
    ensures var (e', sp') := Advance(cfg, e, sp, ans, now, lifetime); WakeOk(e')
  {
    var p := e.pass.value;
    if p.point.Write? {
      WriteLogged(cfg, e, sp, ans, now, lifetime);
    } else if !p.point.Return? {
      CallWakes(cfg, e, sp, ans, now, lifetime);
    }
  }

  lemma CallWakes(cfg: Config, e: Entry, sp: Option<Space>, ans: Answer, now: nat, lifetime: nat)
    requires e.pass.Some? && ValidConfig(cfg) && !e.pass.value.point.Return? && !e.pass.value.point.Write?
    ensures WakeOk(Advance(cfg, e, sp, ans, now, lifetime).0)
  {
    var p := e.pass.value;
    var rep := CallLogged(cfg, e, sp, ans, now, lifetime);
    ReturnsAreWoken(cfg, p.copy, p.point, rep, now);
  }

  /** A pass that ends before its status write asks to be run again. */
  lemma ReturnsAreWoken(cfg: Config, task: Task, pt: Point, rep: Reply, now: nat)
    requires ValidConfig(cfg) && !pt.Return? && !pt.Write?
    ensures var next := After(cfg, task, pt, rep, now);
            next.Return? ==> next.failed || next.res.after > 0
  {
  }

  // ---- the invariant of one task

  ghost predicate TaskInv(cfg: Config, e: Entry, sp: Option<Space>, now: nat) {
    && CoreOk(cfg, e, sp, now)
    && CyclesOk(e, sp)
    && GateOk(cfg, e, sp)
    && ReviewedOk(cfg, e)
    && GroundsOk(e)
    && WakeOk(e)
  }

  lemma PointsFit(cfg: Config, task: Task, pt: Point, sp: Option<Space>, now: nat)
    requires PointOk(cfg, task, pt, sp, now)
    ensures Fits(task.status.phase, pt)
  {
  }

  lemma NewTaskOk(cfg: Config, name: string, spec: Spec, now: nat)
    requires ValidConfig(cfg) && ValidSpec(spec)
    ensures TaskInv(cfg, NewEntry(name, spec), None, now)
  {
  }

  lemma AdvanceKept(cfg: Config, e: Entry, sp: Option<Space>, ans: Answer, now: nat, lifetime: nat)
    requires TaskInv(cfg, e, sp, now) && e.pass.Some? && Honest(e, ans)
    ensures var (e', sp') := Advance(cfg, e, sp, ans, now, lifetime); TaskInv(cfg, e', sp', now)
  {
    CoreKept(cfg, e, sp, ans, now, lifetime);
    CyclesKept(cfg, e, sp, ans, now, lifetime);
    GateKept(cfg, e, sp, ans, now, lifetime);
    ReviewedKept(cfg, e, sp, ans, now, lifetime);
    PointsFit(cfg, e.task, e.pass.value.point, sp, now);
    GroundsKept(cfg, e, sp, ans, now, lifetime);
    WakeKept(cfg, e, sp, ans, now, lifetime);
  }

  lemma StartCore(cfg: Config, e: Entry, sp: Option<Space>, now: nat)
    requires CoreOk(cfg, e, sp, now)
    ensures CoreOk(cfg, Started(cfg, e, now), sp, now)
  {
  }

  lemma StartCycles(cfg: Config, e: Entry, sp: Option<Space>, now: nat)
    requires CoreOk(cfg, e, sp, now) && CyclesOk(e, sp)
    ensures CyclesOk(Started(cfg, e, now), sp)
  {
  }

  lemma StartGate(cfg: Config, e: Entry, sp: Option<Space>, now: nat)
    requires GateOk(cfg, e, sp) && ReviewedOk(cfg, e) && GroundsOk(e)
    ensures var e' := Started(cfg, e, now); GateOk(cfg, e', sp) && ReviewedOk(cfg, e') && GroundsOk(e')
  {
  }

  lemma StartWake(cfg: Config, e: Entry, now: nat)
    requires WakeOk(e) && ValidConfig(cfg) && StatusOk(e.task.spec, e.task.status, now)
    ensures WakeOk(Started(cfg, e, now))
  {
  }

  lemma StartKept(cfg: Config, e: Entry, sp: Option<Space>, now: nat)
    requires TaskInv(cfg, e, sp, now)
    ensures TaskInv(cfg, Started(cfg, e, now), sp, now)
  {
    StartCore(cfg, e, sp, now);
    StartCycles(cfg, e, sp, now);
    StartGate(cfg, e, sp, now);
    StartWake(cfg, e, now);
  }

  lemma FinishKept(cfg: Config, e: Entry, sp: Option<Space>, now: nat)
    requires TaskInv(cfg, e, sp, now)
    ensures TaskInv(cfg, Finished(e, now), sp, now)
  {
    if e.pass.Some? && e.pass.value.point.Return? {
      assert now + e.pass.value.point.res.after in e.book.timers + {now + e.pass.value.point.res.after};
    }
  }

  lemma FiredKept(cfg: Config, e: Entry, sp: Option<Space>, due: nat, now: nat)
    requires TaskInv(cfg, e, sp, now)
    ensures TaskInv(cfg, Fired(e, due, now), sp, now)
  {
  }

  lemma RestartKept(cfg: Config, e: Entry, sp: Option<Space>, now: nat)
    requires TaskInv(cfg, e, sp, now)
    ensures TaskInv(cfg, Restarted(e), sp, now)
  {
  }

  /** Moving a pod's phase leaves which pods there are, and their cycles and specs. */
  lemma MovedPods(sp: Option<Space>, pod: string, phase: PodPhase)
    ensures var sp' := MovePod(sp, pod, phase);
            && sp'.Some? == sp.Some? && HasPolicy(sp') == HasPolicy(sp) && HasSecret(sp') == HasSecret(sp)
            && Pods(sp').Keys == Pods(sp).Keys
            && (forall p :: p in Pods(sp') ==>
                  Pods(sp')[p].cycle == Pods(sp)[p].cycle && Pods(sp')[p].spec == Pods(sp)[p].spec)
  {
  }

  lemma CoreMoves(cfg: Config, e: Entry, sp: Option<Space>, pod: string, phase: PodPhase, now: nat)
    requires CoreOk(cfg, e, sp, now)
    ensures CoreOk(cfg, e, MovePod(sp, pod, phase), now)
  {
  }

  lemma CyclesMove(e: Entry, sp: Option<Space>, sp': Option<Space>)
    requires CyclesOk(e, sp)
    requires sp'.Some? == sp.Some? && Pods(sp').Keys == Pods(sp).Keys
    requires forall p :: p in Pods(sp') ==>
               Pods(sp')[p].cycle == Pods(sp)[p].cycle && Pods(sp')[p].spec == Pods(sp)[p].spec
    ensures CyclesOk(e, sp')
  {
    assert forall p: string :: p in Pods(sp') <==> p in Pods(sp).Keys;
  }

  lemma GateMoves(cfg: Config, e: Entry, sp: Option<Space>, sp': Option<Space>)
    requires GateOk(cfg, e, sp) && Pods(sp').Keys == Pods(sp).Keys
    ensures GateOk(cfg, e, sp')
  {
    assert AGENT_REV in Pods(sp') <==> AGENT_REV in Pods(sp).Keys;
  }

  lemma PodsMove(cfg: Config, e: Entry, sp: Option<Space>, pod: string, phase: PodPhase, now: nat)
    requires TaskInv(cfg, e, sp, now)
    ensures TaskInv(cfg, e, MovePod(sp, pod, phase), now)
  {
    MovedPods(sp, pod, phase);
    CoreMoves(cfg, e, sp, pod, phase, now);
    CyclesMove(e, sp, MovePod(sp, pod, phase));
    GateMoves(cfg, e, sp, MovePod(sp, pod, phase));
  }

  lemma CyclesLost(e: Entry, sp: Option<Space>, pod: string)
    requires CyclesOk(e, sp)
    ensures CyclesOk(e, WithoutPod(sp, pod))
  {
  }

  lemma CoreLost(cfg: Config, e: Entry, sp: Option<Space>, pod: string, now: nat)
    requires CoreOk(cfg, e, sp, now)
    ensures CoreOk(cfg, e, WithoutPod(sp, pod), now)
  {
  }

  lemma GateLost(cfg: Config, e: Entry, sp: Option<Space>, pod: string)
    requires GateOk(cfg, e, sp)
    ensures GateOk(cfg, e, WithoutPod(sp, pod))
  {
  }

  lemma PodLost(cfg: Config, e: Entry, sp: Option<Space>, pod: string, now: nat)
    requires TaskInv(cfg, e, sp, now)
    ensures TaskInv(cfg, e, WithoutPod(sp, pod), now)
  {
    CoreLost(cfg, e, sp, pod, now);
    CyclesLost(e, sp, pod);
    GateLost(cfg, e, sp, pod);
  }

  lemma TimePasses(cfg: Config, e: Entry, sp: Option<Space>, now: nat, later: nat)
    requires TaskInv(cfg, e, sp, now) && now <= later
    ensures TaskInv(cfg, e, sp, later)
  {
  }
}
