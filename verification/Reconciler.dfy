/**
 The reconciler as it runs: each method makes its API calls against the server and updates the fields of the
 task it read. The contracts say that the calls made are those of module Protocol and that the pass ends where
 the method returns, so everything proved of runs of the machine holds of this code.
 */
module Reconciler {
  import opened Text
  import opened Glob
  import opened DiffPolicy
  import opened Domain
  import opened Protocol
  import opened Machine
  import opened TaskInvariant
  import opened Safety
  import opened Cluster

  /** The operator's own copy of a DevTask, edited field by field and written back. */
  class DevTask {
    const name: string
    const spec: Spec
    var phase: Phase
    var namespace: string
    var prNumber: int
    var startedAt: Option<nat>
    var failedAt: Option<nat>
    var message: string

    function CurrentStatus(): Status
      reads this
    {
      Status(phase, namespace, prNumber, startedAt, failedAt, message)
    }

    function Value(): Task
      reads this
    {
      Task(name, spec, CurrentStatus())
    }

    constructor (t: Task)
      ensures Value() == t
    {
      name, spec := t.name, t.spec;
      phase, namespace, prNumber := t.status.phase, t.status.namespace, t.status.prNumber;
      startedAt, failedAt, message := t.status.startedAt, t.status.failedAt, t.status.message;
    }
  }

  // ---- searches

  method FirstOnBranch(prs: seq<PullRequest>, issueNumber: int) returns (found: Option<PullRequest>)
    ensures found == FindByBranch(prs, issueNumber)
    ensures issueNumber >= 1 ==>
              (found.None? <==> forall k :: 0 <= k < |prs| ==> !OfIssue(prs[k].ref, issueNumber))
    ensures issueNumber >= 1 && found.Some? ==>
              exists k :: 0 <= k < |prs| && found.value == prs[k] && OfIssue(prs[k].ref, issueNumber)
                          && forall i :: 0 <= i < k ==> !OfIssue(prs[i].ref, issueNumber)
  {
    hide OfIssue;
    var prefix, legacy := Branch(issueNumber) + "-", Branch(issueNumber);
    var i := 0;
    while i < |prs|
      invariant 0 <= i <= |prs|
      invariant FindByBranch(prs, issueNumber) == FindByBranch(prs[i..], issueNumber)
      invariant issueNumber >= 1 ==> forall k :: 0 <= k < i ==> !OfIssue(prs[k].ref, issueNumber)
    {
      if issueNumber >= 1 {
        IsOfIssue(prs[i].ref, issueNumber);
      }
      if HasPrefix(prs[i].ref, prefix) || prs[i].ref == legacy {
        return Some(prs[i]);
      }
      i := i + 1;
    }
    return None;
  }

  method AnyClarification(comments: seq<Comment>) returns (found: bool)
    ensures found == AsksClarification(comments)
    ensures found <==> exists k :: 0 <= k < |comments| && "/clarification:" <= comments[k].body
  {
    var i := 0;
    while i < |comments|
      invariant 0 <= i <= |comments|
      invariant forall k :: 0 <= k < i ==> !HasPrefix(comments[k].body, "/clarification:")
    {
      if HasPrefix(comments[i].body, "/clarification:") {
        return true;
      }
      i := i + 1;
    }
    return false;
  }

  method AnyLink(comments: seq<Comment>) returns (found: bool)
    ensures found == LinksPullRequest(comments)
    ensures found <==> exists k, i :: 0 <= k < |comments| && OccursAt(comments[k].body, "PR: https://", i)
  {
    var i := 0;
    while i < |comments|
      invariant 0 <= i <= |comments|
      invariant forall k :: 0 <= k < i ==> !Contains(comments[k].body, "PR: https://")
    {
      if Contains(comments[i].body, "PR: https://") {
        return true;
      }
      i := i + 1;
    }
    return false;
  }

  method HasLabel(labels: seq<string>, wanted: string) returns (found: bool)
    ensures found <==> wanted in labels
  {
    var i := 0;
    while i < |labels|
      invariant 0 <= i <= |labels|
      invariant wanted !in labels[..i]
    {
      if labels[i] == wanted {
        return true;
      }
      i := i + 1;
    }
    return false;
  }

  // ---- paging

  /** `all` holds the files of the pages read, in order; `page` is next while there is `more`. */
  predicate Collected(log: seq<Exchange>, number: int, page: int, all: seq<CommitFile>, more: bool) {
    var pages := PagesRead(log);
    && all == AllFiles(pages) && Chained(pages, number, page)
    && if more then pages != [] ==> page != 0 else pages != [] && page == 0
  }

  lemma PageCollected(task: Task, log: seq<Exchange>, number: int, page: int, all: seq<CommitFile>, rep: Reply)
    requires Collected(log, number, page, all, true) && rep.Got? && rep.answer.Page?
    ensures Collected(log + [Exchange(GitHub(ListFiles(number, page)), rep)], number, rep.answer.nextPage,
                      all + rep.answer.files, rep.answer.nextPage != 0)
  {
    LogAppend(task, log, Exchange(GitHub(ListFiles(number, page)), rep));
    PagesAppend(PagesRead(log), PageRead(number, page, rep.answer.files, rep.answer.nextPage), number, rep.answer.nextPage);
  }

  /** The reconciler, one pass at a time. */
  class Controller {
    const server: Server

    constructor (server: Server)
      ensures this.server == server
    {
      this.server := server;
    }

    // ---- calls on the cluster

    method ReadCredentials(task: DevTask, ghost copy: Task, ghost plan: Plan) returns (creds: Option<Creds>)
      requires server.Valid() && task.Value() == copy && server.At(task.name, copy, NeedCreds(plan))
      modifies server`world, server`events, server`script
      ensures server.Valid()
      ensures server.At(task.name, copy,
                        if creds.None? then Return(HALF_MINUTE, true)
                        else if plan.First? then EnsureSecret(plan, creds.value)
                        else EnsureNamespace(plan, creds))
    {
      var rep := server.Do(task.name, Call.ReadCredentials, copy, NeedCreds(plan));
      creds := if rep.Got? && rep.answer.Credentials? then Some(rep.answer.creds) else None;
    }

    method CreateTaskNamespace(task: DevTask, ghost copy: Task, ghost plan: Plan, ghost known: Option<Creds>) returns (err: bool)
      requires server.Valid() && task.Value() == copy && server.At(task.name, copy, EnsureNamespace(plan, known))
      modifies server`world, server`events, server`script
      ensures server.Valid()
      ensures server.At(task.name, copy, if err then Return(NOTHING, true) else EnsurePolicy(plan, known))
    {
      var rep := server.Do(task.name, CreateNamespace(TaskNamespace(task.spec), task.name), copy, EnsureNamespace(plan, known));
      err := !Created(rep);
    }

    method CreateNetworkPolicy(task: DevTask, ghost copy: Task, ghost plan: Plan, ghost known: Option<Creds>) returns (err: bool)
      requires server.Valid() && task.Value() == copy && server.At(task.name, copy, EnsurePolicy(plan, known))
      modifies server`world, server`events, server`script
      ensures server.Valid()
      ensures server.At(task.name, copy,
                        if err then Return(NOTHING, true)
                        else if known.None? then NeedCreds(plan)
                        else EnsureSecret(plan, known.value))
    {
      var rep := server.Do(task.name, CreatePolicy(TaskNamespace(task.spec), server.cfg.egress), copy, EnsurePolicy(plan, known));
      err := !Created(rep);
    }

    /** The namespace and its egress policy. */
    method OpenNamespace(task: DevTask, ghost copy: Task, ghost plan: Plan, ghost known: Option<Creds>) returns (err: bool)
      requires server.Valid() && task.Value() == copy && server.At(task.name, copy, EnsureNamespace(plan, known))
      modifies server`world, server`events, server`script
      ensures server.Valid()
      ensures server.At(task.name, copy,
                        if err then Return(NOTHING, true)
                        else if known.None? then NeedCreds(plan)
                        else EnsureSecret(plan, known.value))
    {
      err := CreateTaskNamespace(task, copy, plan, known);
      if !err {
        err := CreateNetworkPolicy(task, copy, plan, known);
      }
    }

    method CreateTaskSecret(task: DevTask, creds: Creds, ghost copy: Task, ghost plan: Plan) returns (err: bool)
      requires server.Valid() && task.Value() == copy && server.At(task.name, copy, EnsureSecret(plan, creds))
      modifies server`world, server`events, server`script
      ensures server.Valid()
      ensures server.At(task.name, copy, if err then Return(NOTHING, true) else EnsurePod(plan))
    {
      var rep := server.Do(task.name, CreateSecret(TaskNamespace(task.spec), creds), copy, EnsureSecret(plan, creds));
      err := !Created(rep);
    }

    method CreateAgentPod(task: DevTask, pod: string, spec: PodSpec, ghost copy: Task, ghost plan: Plan) returns (err: bool)
      requires server.Valid() && task.Value() == copy && server.At(task.name, copy, EnsurePod(plan))
      requires pod == PodName(plan) && spec == PodSpec(task.spec, RunOf(copy, plan))
      modifies server`world, server`events, server`script
      ensures server.Valid()
      ensures server.At(task.name, copy,
                        if err then Return(NOTHING, true)
                        else Write(BuildingStatus(copy, plan, server.Now()), HALF_MINUTE))
    {
      var rep := server.Do(task.name, CreatePod(TaskNamespace(task.spec), pod, spec), copy, EnsurePod(plan));
      err := !Created(rep);
    }

    /** The namespace's credentials and its agent pod. */
    method FillNamespace(task: DevTask, creds: Creds, pod: string, spec: PodSpec, ghost copy: Task, ghost plan: Plan)
      returns (err: bool)
      requires server.Valid() && task.Value() == copy && server.At(task.name, copy, EnsureSecret(plan, creds))
      requires pod == PodName(plan) && spec == PodSpec(task.spec, RunOf(copy, plan))
      modifies server`world, server`events, server`script
      ensures server.Valid()
      ensures server.At(task.name, copy,
                        if err then Return(NOTHING, true)
                        else Write(BuildingStatus(copy, plan, server.Now()), HALF_MINUTE))
    {
      err := CreateTaskSecret(task, creds, copy, plan);
      if !err {
        err := CreateAgentPod(task, pod, spec, copy, plan);
      }
    }

    method WriteStatus(task: DevTask, res: Result, ghost copy: Task) returns (failed: bool)
      requires server.Valid() && task.name == copy.name && server.At(task.name, copy, Write(task.CurrentStatus(), res))
      modifies server`world, server`events, server`script
      ensures server.Valid()
      ensures server.At(task.name, copy, Return(res, failed))
    {
      var rep := server.Do(task.name, UpdateStatus(task.CurrentStatus()), copy, Write(task.CurrentStatus(), res));
      failed := !rep.Done?;
    }

    /** The error of a deletion counts only on the expiry path. */
    method RemoveNamespace(task: DevTask, ghost copy: Task, ghost purpose: Purpose) returns (err: bool)
      requires server.Valid() && task.Value() == copy && server.At(task.name, copy, DropNamespace(purpose))
      modifies server`world, server`events, server`script
      ensures server.Valid()
      ensures server.At(task.name, copy,
                        if err && purpose.ForExpiry? then Return(MINUTE, true) else AfterDrop(copy, purpose, server.Now()))
    {
      var rep := server.Do(task.name, DeleteNamespace(task.namespace), copy, DropNamespace(purpose));
      err := !Deleted(rep);
    }

    // ---- spawning

    method MarkBuilding(task: DevTask, message: string)
      modifies task
      ensures task.CurrentStatus()
           == old(task.CurrentStatus()).(phase := Building, namespace := TaskNamespace(task.spec),
                                         startedAt := Some(server.Now()), message := message)
    {
      task.phase := Building;
      task.namespace := TaskNamespace(task.spec);
      task.startedAt := Some(server.Now());
      task.message := message;
    }

    /** The end of every spawn: the Secret, the pod, and the entry to Building. */
    method FinishSpawn(task: DevTask, creds: Creds, pod: string, spec: PodSpec, message: string,
                       ghost copy: Task, ghost plan: Plan) returns (res: Result, failed: bool)
      requires server.Valid() && task.Value() == copy && server.At(task.name, copy, EnsureSecret(plan, creds))
      requires pod == PodName(plan) && spec == PodSpec(task.spec, RunOf(copy, plan)) && message == SpawnMessage(plan)
      modifies server`world, server`events, server`script, task
      ensures server.Valid()
      ensures server.At(task.name, copy, Return(res, failed))
    {
      var err := FillNamespace(task, creds, pod, spec, copy, plan);
      if err {
        return NOTHING, true;
      }
      MarkBuilding(task, message);
      failed := WriteStatus(task, HALF_MINUTE, copy);
      return HALF_MINUTE, failed;
    }

    /** A fresh task: the sandbox from nothing. */
    method StartTask(task: DevTask, ghost copy: Task) returns (res: Result, failed: bool)
      requires server.Valid() && task.Value() == copy && server.At(task.name, copy, EnsureNamespace(First, None))
      modifies server`world, server`events, server`script, task
      ensures server.Valid()
      ensures server.At(task.name, copy, Return(res, failed))
    {
      hide Run, Next;
      var err := OpenNamespace(task, copy, First, None);
      if err {
        return NOTHING, true;
      }
      var creds := ReadCredentials(task, copy, First);
      if creds.None? {
        return HALF_MINUTE, true;
      }
      res, failed := FinishSpawn(task, creds.value, AGENT, PodSpec(task.spec, InitialRun),
                                 "envbuilder building devcontainer", copy, First);
    }

    method SpawnAgentSandbox(task: DevTask, pod: string, spec: PodSpec, message: string,
                             ghost copy: Task, ghost plan: Plan) returns (res: Result, failed: bool)
      requires !plan.First?
      requires server.Valid() && task.Value() == copy && server.At(task.name, copy, NeedCreds(plan))
      requires pod == PodName(plan) && spec == PodSpec(task.spec, RunOf(copy, plan)) && message == SpawnMessage(plan)
      modifies server`world, server`events, server`script, task
      ensures server.Valid()
      ensures server.At(task.name, copy, Return(res, failed))
    {
      var creds := ReadCredentials(task, copy, plan);
      if creds.None? {
        return HALF_MINUTE, true;
      }
      var err := OpenNamespace(task, copy, plan, creds);
      if err {
        return NOTHING, true;
      }
      res, failed := FinishSpawn(task, creds.value, pod, spec, message, copy, plan);
    }

    // ---- GitHub

    /** The recorded pull request, or the first open one on the task's branch. */
    method FindPRForTask(task: DevTask, ghost copy: Task, ghost pt: Point)
      returns (found: Option<PullRequest>, err: bool, ghost rep: Reply)
      requires server.Valid() && task.Value() == copy && server.At(task.name, copy, pt) && (pt.FindPull? || pt.CheckPull?)
      modifies server`world, server`events, server`script
      ensures server.Valid()
      ensures server.At(task.name, copy, After(server.cfg, copy, pt, rep, server.Now()))
      ensures FoundPull(copy, rep) == if err then None else Some(found)
      ensures server.LogOf(task.name)
           == old(server.LogOf(task.name))
              + [Exchange(GitHub(if copy.status.prNumber != 0 then GetPull(copy.status.prNumber) else ListOpenPulls), rep)]
      ensures copy.status.prNumber != 0 ==>
                (err <==> !(rep.Got? && rep.answer.Pull?)) && (!err ==> found == Some(rep.answer.pr))
      ensures copy.status.prNumber == 0 ==> (err <==> !(rep.Got? && rep.answer.Pulls?))
      ensures copy.status.prNumber == 0 && copy.spec.issueNumber >= 1 && !err ==>
                var prs, n := rep.answer.prs, copy.spec.issueNumber;
                if found.None? then forall k :: 0 <= k < |prs| ==> !OfIssue(prs[k].ref, n)
                else exists k :: 0 <= k < |prs| && found.value == prs[k] && OfIssue(prs[k].ref, n)
                                 && forall i :: 0 <= i < k ==> !OfIssue(prs[i].ref, n)
    {
      var reply;
      if task.prNumber != 0 {
        reply := server.Do(task.name, GitHub(GetPull(task.prNumber)), copy, pt);
        rep := reply;
        if reply.Got? && reply.answer.Pull? {
          return Some(reply.answer.pr), false, rep;
        }
        return None, true, rep;
      }
      reply := server.Do(task.name, GitHub(ListOpenPulls), copy, pt);
      rep := reply;
      if !reply.Got? || !reply.answer.Pulls? {
        return None, true, rep;
      }
      found := FirstOnBranch(reply.answer.prs, task.spec.issueNumber);
      return found, false, rep;
    }

    /** Every page of the pull request's files, in order, or an error. */
    method ListPRFiles(task: DevTask, pr: PullRequest, ghost copy: Task) returns (all: seq<CommitFile>, err: bool)
      requires server.Valid() && task.Value() == copy && server.At(task.name, copy, ReadFiles(pr, 0, []))
      modifies server`world, server`events, server`script
      ensures server.Valid()
      ensures server.At(task.name, copy, if err then Return(HALF_MINUTE, true) else ReadIssue(pr, all))
      ensures !err && PagesRead(old(server.LogOf(task.name))) == [] ==>
                var pages := PagesRead(server.LogOf(task.name)); CompleteListing(pages, pr.number) && all == AllFiles(pages)
    {
      ghost var first := PagesRead(server.LogOf(task.name)) == [];
      all, err := [], false;
      var page, more := 0, true;
      while more
        invariant server.Valid()
        invariant server.At(task.name, copy,
                            if err then Return(HALF_MINUTE, true)
                            else if more then ReadFiles(pr, page, all) else ReadIssue(pr, all))
        invariant err ==> !more
        invariant first && !err ==>
                    Collected(server.LogOf(task.name), pr.number, page, all, more)
        decreases |server.script|, more
      {
        ghost var log := server.LogOf(task.name);
        var rep := server.Do(task.name, GitHub(ListFiles(pr.number, page)), copy, ReadFiles(pr, page, all));
        if !rep.Got? || !rep.answer.Page? {
          err, more := true, false;
        } else {
          if first {
            PageCollected(copy, log, pr.number, page, all, rep);
          }
          all := all + rep.answer.files;
          page := rep.answer.nextPage;
          more := page != 0;
        }
      }
    }

    method GetIssueBodyText(task: DevTask, ghost copy: Task, ghost pt: Point) returns (body: Option<string>)
      requires server.Valid() && task.Value() == copy && server.At(task.name, copy, pt) && pt.ReadIssue?
      modifies server`world, server`events, server`script
      ensures server.Valid()
      ensures server.At(task.name, copy,
                        if body.None? then Return(HALF_MINUTE, true)
                        else OnIssue(server.cfg, copy, pt.pr, pt.files, body.value))
    {
      var rep := server.Do(task.name, GitHub(GetIssueBody), copy, pt);
      body := if rep.Got? && rep.answer.IssueBody? then Some(rep.answer.text) else None;
    }

    /** Comment, then close; either may fail. */
    method RejectPR(task: DevTask, pr: PullRequest, violations: seq<Violation>, ghost copy: Task) returns (err: bool)
      requires violations != []
      requires server.Valid() && task.Value() == copy && server.At(task.name, copy, PostRejection(pr, violations))
      modifies server`world, server`events, server`script
      ensures server.Valid()
      ensures server.At(task.name, copy,
                        if err then Return(HALF_MINUTE, true) else DropNamespace(ForRejection(violations[0].Reason())))
    {
      var rep := server.Do(task.name, GitHub(CommentOnPull(pr.number, violations)), copy, PostRejection(pr, violations));
      if !rep.Got? {
        return true;
      }
      rep := server.Do(task.name, GitHub(ClosePull(pr.number)), copy, CloseRejected(pr, violations[0].Reason()));
      return !rep.Got?;
    }

    /** Idempotent: no comment is posted when the list read already has a link. */
    method EnsureLinkOnIssue(task: DevTask, pr: PullRequest, ghost copy: Task) returns (err: bool)
      requires server.Valid() && task.Value() == copy
      requires server.At(task.name, copy, if pr.url == "" then Write(ReviewStatus(copy, pr), TWO_MINUTES) else ReadLink(pr))
      modifies server`world, server`events, server`script
      ensures server.Valid()
      ensures server.At(task.name, copy,
                        if err then Return(HALF_MINUTE, true) else Write(ReviewStatus(copy, pr), TWO_MINUTES))
    {
      if pr.url == "" {
        return false;
      }
      var rep := server.Do(task.name, GitHub(ListComments), copy, ReadLink(pr));
      if !rep.Got? || !rep.answer.Comments? {
        return true;
      }
      var linked := AnyLink(rep.answer.comments);
      if linked {
        return false;
      }
      err := PostLinkOnIssue(task, pr, copy);
    }

    method PostLinkOnIssue(task: DevTask, pr: PullRequest, ghost copy: Task) returns (err: bool)
      requires server.Valid() && task.Value() == copy && server.At(task.name, copy, PostLink(pr))
      modifies server`world, server`events, server`script
      ensures server.Valid()
      ensures server.At(task.name, copy,
                        if err then Return(HALF_MINUTE, true) else Write(ReviewStatus(copy, pr), TWO_MINUTES))
    {
      var rep := server.Do(task.name, GitHub(CommentOnIssue("PR: " + pr.url)), copy, PostLink(pr));
      err := !rep.Got?;
    }

    // ---- the active pod

    method MarkFailed(task: DevTask, message: string)
      modifies task
      ensures task.CurrentStatus() == MarkedFailed(old(task.CurrentStatus()), message, server.Now())
      ensures var s := old(task.CurrentStatus());
              task.CurrentStatus() == Status(Failed, s.namespace, s.prNumber, s.startedAt, Some(server.Now()), message)
    {
      task.phase := Failed;
      task.message := message;
      task.failedAt := Some(server.Now());
    }

    /** The revision pod if it can be read, else the initial one. */
    method GetAgentPodOf(task: DevTask, ghost copy: Task) returns (pod: Option<Pod>, missing: bool)
      requires server.Valid() && task.Value() == copy && server.At(task.name, copy, GetRevisionPod)
      modifies server`world, server`events, server`script
      ensures server.Valid()
      ensures server.At(task.name, copy,
                        if pod.Some? then OnPod(server.cfg, copy, pod.value.phase) else Return(HALF_MINUTE, !missing))
    {
      var rep := server.Do(task.name, GetPod(task.namespace, AGENT_REV), copy, GetRevisionPod);
      if rep.GotPod? {
        return Some(rep.pod), false;
      }
      rep := server.Do(task.name, GetPod(task.namespace, AGENT), copy, GetAgentPod);
      if rep.GotPod? {
        return Some(rep.pod), false;
      }
      return None, rep.NotFound?;
    }

    method ReconcileActivePod(task: DevTask, ghost copy: Task) returns (res: Result, failed: bool)
      requires server.Valid() && task.Value() == copy && server.At(task.name, copy, GetRevisionPod)
      modifies server`world, server`events, server`script, task
      ensures server.Valid()
      ensures server.At(task.name, copy, Return(res, failed))
    {
      var pod, missing := GetAgentPodOf(task, copy);
      if pod.None? {
        return HALF_MINUTE, !missing;
      }
      match pod.value.phase {
        case PodRunning =>
          if task.phase != Running {
            task.phase := Running;
            task.message := "agent running";
            failed := WriteStatus(task, HALF_MINUTE, copy);
            return HALF_MINUTE, failed;
          }
        case PodSucceeded =>
          res, failed := HandlePodSucceeded(task, copy);
          return;
        case PodFailed =>
          res, failed := HandlePodFailed(task, copy);
          return;
        case _ =>
      }
      return HALF_MINUTE, false;
    }

    method HasClarificationComment(task: DevTask, ghost copy: Task) returns (clarified: bool)
      requires server.Valid() && task.Value() == copy && server.At(task.name, copy, ReadClarification)
      modifies server`world, server`events, server`script
      ensures server.Valid()
      ensures server.At(task.name, copy,
                        if clarified then DropNamespace(ForClarification)
                        else Write(MarkedFailed(copy.status, "agent pod failed", server.Now()), Result(server.cfg.ttl)))
    {
      var rep := server.Do(task.name, GitHub(ListComments), copy, ReadClarification);
      clarified := false;
      if rep.Got? && rep.answer.Comments? {
        clarified := AnyClarification(rep.answer.comments);
      }
    }

    method HandClarification(task: DevTask, ghost copy: Task) returns (res: Result, failed: bool)
      requires server.Valid() && task.Value() == copy && server.At(task.name, copy, DropNamespace(ForClarification))
      modifies server`world, server`events, server`script, task
      ensures server.Valid()
      ensures server.At(task.name, copy, Return(res, failed))
    {
      var _ := RemoveNamespace(task, copy, ForClarification);
      task.phase := BlockedOnClarification;
      task.message := "agent requested clarification";
      failed := WriteStatus(task, MINUTE, copy);
      return MINUTE, failed;
    }

    method HandlePodFailed(task: DevTask, ghost copy: Task) returns (res: Result, failed: bool)
      requires server.Valid() && task.Value() == copy && server.At(task.name, copy, ReadClarification)
      modifies server`world, server`events, server`script, task
      ensures server.Valid()
      ensures server.At(task.name, copy, Return(res, failed))
    {
      var clarified := HasClarificationComment(task, copy);
      if clarified {
        res, failed := HandClarification(task, copy);
        return;
      }
      MarkFailed(task, "agent pod failed");
      failed := WriteStatus(task, Result(server.cfg.ttl), copy);
      return Result(server.cfg.ttl), failed;
    }

    method HandlePodSucceeded(task: DevTask, ghost copy: Task) returns (res: Result, failed: bool)
      requires server.Valid() && task.Value() == copy && server.At(task.name, copy, FindPull)
      modifies server`world, server`events, server`script, task
      ensures server.Valid()
      ensures server.At(task.name, copy, Return(res, failed))
    {
      hide Run, Next;
      var found, err, rep := FindPRForTask(task, copy, FindPull);
      if err {
        return HALF_MINUTE, true;
      }
      if found.None? {
        MarkFailed(task, "agent pod exited 0 but no PR was opened on the canonical branch");
        failed := WriteStatus(task, Result(server.cfg.ttl), copy);
        return Result(server.cfg.ttl), failed;
      }
      res, failed := ExaminePR(task, found.value, copy);
    }

    /** The whole diff and the issue, then the policy's verdict. */
    method ExaminePR(task: DevTask, pr: PullRequest, ghost copy: Task) returns (res: Result, failed: bool)
      requires server.Valid() && task.Value() == copy && server.At(task.name, copy, ReadFiles(pr, 0, []))
      modifies server`world, server`events, server`script, task
      ensures server.Valid()
      ensures server.At(task.name, copy, Return(res, failed))
    {
      var files, err := ListPRFiles(task, pr, copy);
      if err {
        return HALF_MINUTE, true;
      }
      var body := GetIssueBodyText(task, copy, ReadIssue(pr, files));
      if body.None? {
        return HALF_MINUTE, true;
      }
      res, failed := Judge(task, pr, files, body.value, copy);
    }

    method Judge(task: DevTask, pr: PullRequest, files: seq<CommitFile>, body: string, ghost copy: Task)
      returns (res: Result, failed: bool)
      requires server.Valid() && task.Value() == copy
      requires server.At(task.name, copy, OnIssue(server.cfg, copy, pr, files, body))
      modifies server`world, server`events, server`script, task
      ensures server.Valid()
      ensures server.At(task.name, copy, Return(res, failed))
    {
      var violations := EvaluateDiff(server.cfg.pathMatch, files, body, server.cfg.policy);
      if violations != [] {
        res, failed := Reject(task, pr, violations, copy);
      } else {
        res, failed := Advertise(task, pr, copy);
      }
    }

    method Reject(task: DevTask, pr: PullRequest, violations: seq<Violation>, ghost copy: Task)
      returns (res: Result, failed: bool)
      requires violations != []
      requires server.Valid() && task.Value() == copy && server.At(task.name, copy, PostRejection(pr, violations))
      modifies server`world, server`events, server`script, task
      ensures server.Valid()
      ensures server.At(task.name, copy, Return(res, failed))
    {
      hide Run, Next;
      var err := RejectPR(task, pr, violations, copy);
      if err {
        return HALF_MINUTE, true;
      }
      var _ := RemoveNamespace(task, copy, ForRejection(violations[0].Reason()));
      MarkFailed(task, "diff policy: " + violations[0].Reason());
      task.namespace := "";
      failed := WriteStatus(task, NOTHING, copy);
      return NOTHING, failed;
    }

    method Advertise(task: DevTask, pr: PullRequest, ghost copy: Task) returns (res: Result, failed: bool)
      requires server.Valid() && task.Value() == copy
      requires server.At(task.name, copy, if pr.url == "" then Write(ReviewStatus(copy, pr), TWO_MINUTES) else ReadLink(pr))
      modifies server`world, server`events, server`script, task
      ensures server.Valid()
      ensures server.At(task.name, copy, Return(res, failed))
    {
      var err := EnsureLinkOnIssue(task, pr, copy);
      if err {
        return HALF_MINUTE, true;
      }
      task.prNumber := pr.number;
      task.phase := AwaitingReview;
      task.message := "agent completed";
      failed := WriteStatus(task, TWO_MINUTES, copy);
      return TWO_MINUTES, failed;
    }

    // ---- the other phases

    method IsPRMergedOrClosed(task: DevTask, ghost copy: Task) returns (merged: bool, err: bool)
      requires server.Valid() && task.Value() == copy && server.At(task.name, copy, CheckPull)
      modifies server`world, server`events, server`script
      ensures server.Valid()
      ensures server.At(task.name, copy,
                        if err then Return(TWO_MINUTES, false)
                        else if merged then DropNamespace(ForCompletion)
                        else if task.prNumber == 0 then Return(TWO_MINUTES, false)
                        else CheckLabel)
    {
      var found, bad, rep := FindPRForTask(task, copy, CheckPull);
      if bad || found.None? {
        return false, bad;
      }
      return found.value.merged || found.value.state == "closed", false;
    }

    method PRHasRevisionLabel(task: DevTask, ghost copy: Task) returns (labelled: bool, err: bool)
      requires server.Valid() && task.Value() == copy
      requires server.At(task.name, copy, if task.prNumber == 0 then Return(TWO_MINUTES, false) else CheckLabel)
      modifies server`world, server`events, server`script
      ensures server.Valid()
      ensures server.At(task.name, copy,
                        if labelled && !err
                        then Write(copy.status.(phase := AwaitingRevision, message := "reviewer requested changes"), NOTHING)
                        else Return(TWO_MINUTES, false))
    {
      if task.prNumber == 0 {
        return false, false;
      }
      var rep := server.Do(task.name, GitHub(GetPull(task.prNumber)), copy, CheckLabel);
      if !rep.Got? || !rep.answer.Pull? {
        return false, true;
      }
      labelled := HasLabel(rep.answer.pr.labels, REVISION_LABEL);
      return labelled, false;
    }

    method Complete(task: DevTask, ghost copy: Task) returns (res: Result, failed: bool)
      requires server.Valid() && task.Value() == copy && server.At(task.name, copy, DropNamespace(ForCompletion))
      modifies server`world, server`events, server`script, task
      ensures server.Valid()
      ensures server.At(task.name, copy, Return(res, failed))
    {
      var _ := RemoveNamespace(task, copy, ForCompletion);
      task.phase := Completed;
      task.message := "PR merged or closed, namespace deleted";
      failed := WriteStatus(task, NOTHING, copy);
      return NOTHING, failed;
    }

    method CheckRevision(task: DevTask, ghost copy: Task) returns (res: Result, failed: bool)
      requires server.Valid() && task.Value() == copy
      requires server.At(task.name, copy, if task.prNumber == 0 then Return(TWO_MINUTES, false) else CheckLabel)
      modifies server`world, server`events, server`script, task
      ensures server.Valid()
      ensures server.At(task.name, copy, Return(res, failed))
    {
      var labelled, err := PRHasRevisionLabel(task, copy);
      if err || !labelled {
        return TWO_MINUTES, false;
      }
      task.phase := AwaitingRevision;
      task.message := "reviewer requested changes";
      failed := WriteStatus(task, NOTHING, copy);
      return NOTHING, failed;
    }

    method ReconcileReview(task: DevTask, ghost copy: Task) returns (res: Result, failed: bool)
      requires server.Valid() && task.Value() == copy && server.At(task.name, copy, CheckPull)
      modifies server`world, server`events, server`script, task
      ensures server.Valid()
      ensures server.At(task.name, copy, Return(res, failed))
    {
      var merged, err := IsPRMergedOrClosed(task, copy);
      if err {
        return TWO_MINUTES, false;
      }
      if merged {
        res, failed := Complete(task, copy);
        return;
      }
      res, failed := CheckRevision(task, copy);
    }

    /** The outcome of removing the label does not matter. */
    method RemoveRevisionLabel(task: DevTask, ghost copy: Task)
      requires server.Valid() && task.Value() == copy
      requires server.At(task.name, copy, if task.prNumber == 0 then DropRevisionPod else Unlabel)
      modifies server`world, server`events, server`script
      ensures server.Valid()
      ensures server.At(task.name, copy, DropRevisionPod)
    {
      if task.prNumber != 0 {
        var _ := server.Do(task.name, GitHub(RemoveLabel(task.prNumber, REVISION_LABEL)), copy, Unlabel);
      }
    }

    method ReconcileRevision(task: DevTask, ghost copy: Task) returns (res: Result, failed: bool)
      requires server.Valid() && task.Value() == copy
      requires server.At(task.name, copy, if task.prNumber == 0 then DropRevisionPod else Unlabel)
      modifies server`world, server`events, server`script, task
      ensures server.Valid()
      ensures server.At(task.name, copy, Return(res, failed))
    {
      RemoveRevisionLabel(task, copy);
      var _ := server.Do(task.name, DeletePod(task.namespace, AGENT_REV), copy, DropRevisionPod);
      res, failed := SpawnAgentSandbox(task, AGENT_REV, PodSpec(task.spec, RevisionRun(task.prNumber)),
                                       "addressing review feedback", copy, Revise);
    }

    method ReconcileBlocked(task: DevTask, ghost copy: Task) returns (res: Result, failed: bool)
      requires server.Valid() && task.Value() == copy && server.At(task.name, copy, ReadReply)
      modifies server`world, server`events, server`script, task
      ensures server.Valid()
      ensures server.At(task.name, copy, Return(res, failed))
    {
      var rep := server.Do(task.name, GitHub(ListComments), copy, ReadReply);
      if !rep.Got? || !rep.answer.Comments? || !HumanReplied(rep.answer.comments) {
        return MINUTE, false;
      }
      res, failed := SpawnAgentSandbox(task, AGENT, PodSpec(task.spec, ResumeRun),
                                       "resuming after clarification", copy, Resume);
    }

    method ReconcileFailed(task: DevTask, ghost copy: Task) returns (res: Result, failed: bool)
      requires task.phase == Failed
      requires server.Valid() && task.Value() == copy && server.At(task.name, copy, Begin(server.cfg, copy, server.Now()))
      modifies server`world, server`events, server`script, task
      ensures server.Valid()
      ensures server.At(task.name, copy, Return(res, failed))
    {
      if task.namespace == "" || task.failedAt.None? {
        return NOTHING, false;
      }
      var elapsed := server.Now() - task.failedAt.value;
      if elapsed < server.cfg.ttl {
        return Result(server.cfg.ttl - elapsed), false;
      }
      var err := RemoveNamespace(task, copy, ForExpiry);
      if err {
        return MINUTE, true;
      }
      task.namespace := "";
      failed := WriteStatus(task, NOTHING, copy);
      return NOTHING, failed;
    }

    /** One pass over a task: whatever its phase, the calls made are the machine's and so is the result. */
    method Reconcile(task: DevTask) returns (res: Result, failed: bool)
      requires server.Valid() && server.At(task.name, task.Value(), Begin(server.cfg, task.Value(), server.Now()))
      modifies server`world, server`events, server`script, task
      ensures server.Valid()
      ensures server.At(task.name, old(task.Value()), Return(res, failed))
    {
      ghost var copy := task.Value();
      match task.phase {
        case Unset => res, failed := StartTask(task, copy);
        case Building | Running => res, failed := ReconcileActivePod(task, copy);
        case AwaitingReview => res, failed := ReconcileReview(task, copy);
        case AwaitingRevision => res, failed := ReconcileRevision(task, copy);
        case BlockedOnClarification => res, failed := ReconcileBlocked(task, copy);
        case Completed => res, failed := NOTHING, false;
        case Failed => res, failed := ReconcileFailed(task, copy);
        case Pending => res, failed := HALF_MINUTE, false;
      }
    }

    /**
     The work queue's handling of one queued task. The history grows by the start of one pass, its calls among the
     steps of everyone else, and its end; and a task that the pass brought to review had passed the policy in it.
     */
    method Process(name: string) returns (ghost log: seq<Exchange>)
      requires server.Valid()
      requires name in server.world.tasks
      requires var e := server.world.tasks[name]; e.task.name == name && e.pass.None? && e.book.ready
      modifies server
      ensures server.Valid() && server.before == old(server.events)
      ensures var n := |old(server.events)|;
              && old(server.events) + [Start(name)] <= server.events && n + 1 < |server.events|
              && server.events[|server.events| - 1] == Finish(name)
              && (forall k :: n < k < |server.events| - 1 ==> !server.events[k].Restart? && server.events[k] != Finish(name))
      ensures name in server.world.tasks && server.world.tasks[name].pass.None?
      ensures EndsWithLog(server.cfg, server.origin, server.events[..|server.events| - 1], name,
                          old(server.world).tasks[name].task, log)
      ensures GoodRun(server.cfg, server.origin, server.events) ==>
                var t, t' := old(server.world).tasks[name].task, server.world.tasks[name].task;
                && Inv(server.cfg, server.world)
                && (t'.status.phase == AwaitingReview && t.status.phase != AwaitingReview ==>
                      IsActive(t.status.phase) && Passed(server.cfg, t, log, t'.status.prNumber))
    {
      ghost var copy := server.world.tasks[name].task;
      log := RunPass(name);
      ghost var events := server.events;
      server.Close(name);
      if GoodRun(server.cfg, server.origin, server.events) {
        PassEnds(server.cfg, server.origin, events, name, copy);
        RunInv(server.cfg, server.origin, server.events);
      }
    }

    /** The pass itself, up to its return. */
    method RunPass(name: string) returns (ghost log: seq<Exchange>)
      requires server.Valid()
      requires name in server.world.tasks
      requires var e := server.world.tasks[name]; e.task.name == name && e.pass.None? && e.book.ready
      modifies server
      ensures server.Valid() && server.before == old(server.events) && server.InPass(name)
      ensures name in server.world.tasks && server.world.tasks[name].pass.Some?
      ensures var p := server.world.tasks[name].pass.value;
              p.point.Return? && p.copy == old(server.world).tasks[name].task && p.log == log
    {
      server.Open(name);
      var task := new DevTask(server.world.tasks[name].task);
      var res, failed := Reconcile(task);
      log := server.LogOf(name);
    }
  }

  /** After these events the pass over `name` that read `copy` is at its return, with these calls behind it. */
  ghost predicate EndsWithLog(cfg: Config, w0: World, events: seq<Event>, name: string, copy: Task, log: seq<Exchange>) {
    var w := Run(cfg, w0, events);
    && name in w.tasks && w.tasks[name].pass.Some?
    && var p := w.tasks[name].pass.value; p.point.Return? && p.copy == copy && p.log == log
  }

  /** At the end of a pass that brought its task to review, the log shows that it passed the policy. */
  lemma PassEnds(cfg: Config, w0: World, events: seq<Event>, name: string, copy: Task)
    requires GoodRun(cfg, w0, events + [Finish(name)])
    requires var w := Run(cfg, w0, events);
             && name in w.tasks && w.tasks[name].pass.Some?
             && w.tasks[name].pass.value.point.Return? && w.tasks[name].pass.value.copy == copy
    ensures var w := Run(cfg, w0, events);
            w.tasks[name].task.status.phase == AwaitingReview && copy.status.phase != AwaitingReview ==>
              && IsActive(copy.status.phase)
              && Passed(cfg, copy, w.tasks[name].pass.value.log, w.tasks[name].task.status.prNumber)
  {
    assert (events + [Finish(name)])[..|events|] == events;
    GoodPrefix(cfg, w0, events + [Finish(name)], |events|);
    RunInv(cfg, w0, events);
    assert TaskOk(cfg, Run(cfg, w0, events), name);
  }
}
