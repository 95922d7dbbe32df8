/**
 What decides what a pass does, at every moment of every run, read off its calls and their replies: the phase of the
 pod it read, the pull requests it found, the last comment, the request for clarification, the label.
 */
module Outcomes {
  import opened Text
  import opened Glob
  import opened Domain
  import opened Protocol
  import opened Machine
  import opened TaskInvariant
  import opened Safety
  import opened Lifecycle
  import opened Rules
  import opened Passes

  /** A moment of a good run at which a pass over `n` is on. */
  ghost predicate During(cfg: Config, w0: World, events: seq<Event>, j: nat, n: string, e: Entry) {
    && GoodRun(cfg, w0, events) && j <= |events|
    && n in At(cfg, w0, events, j).tasks && At(cfg, w0, events, j).tasks[n] == e && e.pass.Some?
  }

  /** A log that follows the rules, and the act that they lead to. */
  ghost predicate LeadsTo(cfg: Config, t: Task, log: seq<Exchange>, act: Act) {
    LogRuled(cfg, t, log) && exists now: nat :: Rule(cfg, t, log, now) == act
  }

  lemma DuringByRule(cfg: Config, w0: World, events: seq<Event>, j: nat, n: string, e: Entry)
    requires During(cfg, w0, events, j, n, e)
    ensures var p := e.pass.value;
            && LeadsTo(cfg, p.copy, p.log, ActAt(cfg, p.copy, p.point))
            && e.task == p.copy.(status := StatusIn(p.copy, p.log)) && ValidSpec(p.copy.spec)
  {
    hide Run, Next, Rule;
    var d := StandsByRule(cfg, w0, events, j, n);
    var p := e.pass.value;
    KeepsRecalls(cfg, p.copy, p.log, p.point, At(cfg, w0, events, d).now);
    LogByRule(cfg, w0, events, j, n);
    StoredAsWritten(cfg, w0, events, j, n);
    AtAny(cfg, w0, events, j);
    assert TaskOk(cfg, At(cfg, w0, events, j), n);
  }

  /** What the rules ask for after `k` calls is call `k`, or what comes next. */
  function Step(log: seq<Exchange>, act: Act, k: nat): Act
    requires k <= |log|
  {
    if k < |log| then Does(log[k].call) else act
  }

  lemma StepByRule(cfg: Config, t: Task, log: seq<Exchange>, act: Act, k: nat) returns (now: nat)
    requires LeadsTo(cfg, t, log, act) && k <= |log|
    ensures Rule(cfg, t, log[..k], now) == Step(log, act, k)
  {
    hide Rule;
    if k < |log| {
      assert CallRuled(cfg, t, log, k);
      now :| Rule(cfg, t, log[..k], now) == Does(log[k].call);
    } else {
      assert log[..k] == log;
      now :| Rule(cfg, t, log, now) == act;
    }
  }

  // ---- a blocked task

  /** A reply that ends the block. */
  predicate Heard(rep: Reply) {
    rep.Got? && rep.answer.Comments? && FromAuthorisedHuman(rep.answer.comments)
  }

  lemma BlockedLog(cfg: Config, t: Task, log: seq<Exchange>, act: Act)
    requires LeadsTo(cfg, t, log, act) && t.status.phase.BlockedOnClarification? && log != []
    ensures log[0].call == GitHub(ListComments)
    ensures if Heard(log[0].reply) then Step(log, act, 1) == Does(Call.ReadCredentials)
            else |log| == 1 && act == Ends(60, false)
  {
    var a := StepByRule(cfg, t, log, act, 0);
    var b := StepByRule(cfg, t, log, act, 1);
    assert log[..0] == [] && log[..1] == [log[0]];
  }

  /**
   In every run, a pass over a blocked task that has read the comments heads for the credentials exactly if the last of
   them is by an owner, member or collaborator and not by a bot; otherwise it returns for a minute and leaves the task.
   */
  lemma BlockedExactly(cfg: Config, w0: World, events: seq<Event>, j: nat, n: string, e: Entry)
    requires During(cfg, w0, events, j, n, e)
    requires e.pass.value.copy.status.phase == BlockedOnClarification && e.pass.value.log != []
    ensures var p := e.pass.value;
            var rep := p.log[0].reply;
            && p.log[0].call == GitHub(ListComments)
            && if rep.Got? && rep.answer.Comments? && rep.answer.comments != []
                  && (var last := rep.answer.comments[|rep.answer.comments| - 1];
                      && last.userType != "Bot" && last.login != "github-actions[bot]" && last.login != "app/github-actions"
                      && (last.association == "OWNER" || last.association == "MEMBER" || last.association == "COLLABORATOR"))
               then if |p.log| == 1 then p.point.NeedCreds? else p.log[1].call == Call.ReadCredentials
               else |p.log| == 1 && p.point == Return(Result(60), false) && e.task == p.copy
  {
    hide Run, Next, Rule;
    DuringByRule(cfg, w0, events, j, n, e);
    var p := e.pass.value;
    BlockedLog(cfg, p.copy, p.log, ActAt(cfg, p.copy, p.point));
  }

  /** A change of phase is a pass's write, and follows the rules. */
  lemma WritesByRule(cfg: Config, w0: World, events: seq<Event>, k: nat, n: string, w: World, w': World)
    requires Moves(cfg, w0, events, k, n, w, w')
    ensures var e := w.tasks[n];
            && During(cfg, w0, events, k, n, e) && e.pass.value.copy == e.task && e.pass.value.point.Write?
            && LeadsTo(cfg, e.task, e.pass.value.log, Does(UpdateStatus(w'.tasks[n].task.status)))
            && ValidSpec(e.task.spec)
  {
    hide Run, Next, Rule;
    MovesAreWrites(cfg, w0, events, k, n, w, w');
    DuringByRule(cfg, w0, events, k, n, w.tasks[n]);
  }

  // ---- a task in review

  predicate PullRead(rep: Reply) {
    rep.Got? && rep.answer.Pull?
  }

  lemma ReviewLog(cfg: Config, t: Task, log: seq<Exchange>, act: Act)
    requires LeadsTo(cfg, t, log, act) && t.status.phase.AwaitingReview? && log != []
    ensures log[0].call == GitHub(GetPull(t.status.prNumber))
    ensures !PullRead(log[0].reply) ==> |log| == 1 && act == Ends(120, false)
    ensures PullRead(log[0].reply) ==>
              Step(log, act, 1)
                == if log[0].reply.answer.pr.merged || log[0].reply.answer.pr.state == "closed"
                   then Does(DeleteNamespace(t.status.namespace)) else Does(GitHub(GetPull(t.status.prNumber)))
    ensures |log| > 1 && log[1].call == DeleteNamespace(t.status.namespace) ==>
              Step(log, act, 2)
                == Does(UpdateStatus(t.status.(phase := Completed, message := "PR merged or closed, namespace deleted")))
    ensures |log| > 1 && log[1].call == GitHub(GetPull(t.status.prNumber)) ==>
              if PullRead(log[1].reply) && "needs-revision" in log[1].reply.answer.pr.labels
              then Step(log, act, 2)
                     == Does(UpdateStatus(t.status.(phase := AwaitingRevision, message := "reviewer requested changes")))
              else |log| == 2 && act == Ends(120, false)
  {
    var a := StepByRule(cfg, t, log, act, 0);
    var b := StepByRule(cfg, t, log, act, 1);
    assert log[..0] == [] && log[..1] == [log[0]];
    if |log| > 1 {
      var c := StepByRule(cfg, t, log, act, 2);
      assert log[..2] == [log[0], log[1]];
    }
  }

  /**
   In every run, a pass over a task in review that has read the pull request: exactly if it was merged or is closed, the
   namespace is torn down and the task completed; otherwise it is read again and, exactly if it has the label, the task
   is sent back; and in all other cases the pass returns for two minutes and leaves the task.
   */
  lemma ReviewExactly(cfg: Config, w0: World, events: seq<Event>, j: nat, n: string, e: Entry)
    requires During(cfg, w0, events, j, n, e)
    requires e.pass.value.copy.status.phase == AwaitingReview && e.pass.value.log != []
    ensures var p, s := e.pass.value, e.pass.value.copy.status;
            var first := p.log[0].reply;
            && p.log[0].call == GitHub(GetPull(s.prNumber))
            && if first.Got? && first.answer.Pull? then
                 if first.answer.pr.merged || first.answer.pr.state == "closed" then
                   && (if |p.log| == 1 then p.point.DropNamespace? else p.log[1].call == DeleteNamespace(s.namespace))
                   && (|p.log| == 2 ==> p.point.Write?)
                   && (|p.log| > 2 ==>
                         p.log[2].call
                           == UpdateStatus(s.(phase := Completed, message := "PR merged or closed, namespace deleted")))
                 else if |p.log| == 1 then p.point.CheckLabel?
                 else
                   && p.log[1].call == GitHub(GetPull(s.prNumber))
                   && var again := p.log[1].reply;
                      if again.Got? && again.answer.Pull? && "needs-revision" in again.answer.pr.labels then
                        if |p.log| == 2 then p.point.Write?
                        else p.log[2].call == UpdateStatus(s.(phase := AwaitingRevision, message := "reviewer requested changes"))
                      else |p.log| == 2 && p.point == Return(Result(120), false) && e.task == p.copy
               else |p.log| == 1 && p.point == Return(Result(120), false) && e.task == p.copy
  {
    hide Run, Next, Rule;
    DuringByRule(cfg, w0, events, j, n, e);
    var p := e.pass.value;
    ReviewLog(cfg, p.copy, p.log, ActAt(cfg, p.copy, p.point));
    ReviewPoint(cfg, w0, events, j, n, e);
    if forall k :: 0 <= k < |p.log| ==> !p.log[k].call.UpdateStatus? {
      NothingWritten(p.copy, p.log);
    }
  }

  /** The first reading of the pull request is the first call, and it is not the search of an active task. */
  lemma ReviewPoint(cfg: Config, w0: World, events: seq<Event>, j: nat, n: string, e: Entry)
    requires During(cfg, w0, events, j, n, e) && e.pass.value.copy.status.phase == AwaitingReview
    ensures e.pass.value.point.CheckPull? ==> e.pass.value.log == []
    ensures !e.pass.value.point.FindPull?
  {
    hide Run, Next, Rule;
    var d := StandsByRule(cfg, w0, events, j, n);
    AtAny(cfg, w0, events, j);
    assert TaskOk(cfg, At(cfg, w0, events, j), n);
  }

  /** A pass returns once it has tried to write the status. */
  lemma WriteIsLast(cfg: Config, t: Task, log: seq<Exchange>, act: Act, k: nat)
    requires LeadsTo(cfg, t, log, act) && k < |log| && log[k].call.UpdateStatus?
    ensures |log| == k + 1 && act.Ends?
  {
    var now := StepByRule(cfg, t, log, act, k + 1);
    assert log[..k + 1][k] == log[k];
  }

  // ---- a task in Building or Running

  predicate OnlyPods(log: seq<Exchange>) {
    forall k :: 0 <= k < |log| ==> log[k].call.GetPod?
  }

  /** A pass over a task whose pod failed reads the comments, and then clears the namespace or writes. */
  predicate AfterFailure(log: seq<Exchange>) {
    && |log| > 0
    && (forall k :: 0 <= k < |log| ==>
          var call := log[k].call;
          call.GetPod? || call == GitHub(ListComments) || call.DeleteNamespace? || call.UpdateStatus?)
    && var last := log[|log| - 1].call;
       && (last.GetPod? ==> log[|log| - 1].reply.GotPod?)
       && (last == GitHub(ListComments) ==> |log| >= 2 && log[|log| - 2].call.GetPod?)
       && (last.DeleteNamespace? ==> |log| >= 2 && log[|log| - 2].call == GitHub(ListComments))
  }

  function RunningStatus(s: Status): Status {
    s.(phase := Running, message := "agent running")
  }

  /** The calls of a pass over an active task, by the pod it has read. */
  ghost predicate DrivenLog(t: Task, log: seq<Exchange>) {
    match Driver(log)
    case None => OnlyPods(log) && forall k :: 0 <= k < |log| ==> !log[k].reply.GotPod?
    case Some(pod) =>
      log != [] &&
      var x := log[|log| - 1];
      match pod.phase
      case PodSucceeded => true
      case PodFailed => AfterFailure(log) && (x.call.GetPod? ==> x.reply == GotPod(pod))
      case PodRunning =>
        || (OnlyPods(log) && x.reply == GotPod(pod))
        || (t.status.phase.Building? && OnlyPods(log[..|log| - 1]) && x.call == UpdateStatus(RunningStatus(t.status)))
      case _ => OnlyPods(log) && x.reply == GotPod(pod)
  }

  /** A log that follows the rules is the one before its last call, and that call follows the rules. */
  lemma LastByRule(cfg: Config, t: Task, log: seq<Exchange>) returns (now: nat)
    requires LogRuled(cfg, t, log) && log != []
    ensures var init := log[..|log| - 1];
            && LogRuled(cfg, t, init) && log == init + [log[|log| - 1]] && Rule(cfg, t, init, now) == Does(log[|log| - 1].call)
  {
    hide Rule;
    var init := log[..|log| - 1];
    forall k | 0 <= k < |init| ensures CallRuled(cfg, t, init, k) {
      assert CallRuled(cfg, t, log, k) && init[..k] == log[..k];
    }
    assert CallRuled(cfg, t, log, |init|);
    now :| Rule(cfg, t, log[..|init|], now) == Does(log[|init|].call);
  }

  lemma UndrivenAct(cfg: Config, t: Task, log: seq<Exchange>, now: nat)
    requires IsActive(t.status.phase) && DrivenLog(t, log) && Driver(log).None?
    ensures Rule(cfg, t, log, now).Does? ==> Rule(cfg, t, log, now).call.GetPod?
  {
  }

  /** After the read of a pod that neither succeeded nor failed, or after the write that a running one calls for. */
  lemma QuietAct(cfg: Config, t: Task, log: seq<Exchange>, now: nat, phase: PodPhase)
    requires IsActive(t.status.phase) && log != [] && phase in {PodPending, PodUnknown, PodRunning}
    requires var x := log[|log| - 1];
             if x.call.GetPod? then x.reply.GotPod? && x.reply.pod.phase == phase
             else phase == PodRunning && t.status.phase == Building && x.call == UpdateStatus(RunningStatus(t.status))
    ensures Rule(cfg, t, log, now)
         == if phase != PodRunning || t.status.phase.Running? then Ends(30, false)
            else if log[|log| - 1].call.GetPod? then Does(UpdateStatus(RunningStatus(t.status)))
            else Ends(30, log[|log| - 1].reply != Done)
  {
    hide QueryRule;
  }

  lemma FailureAct(cfg: Config, t: Task, log: seq<Exchange>, now: nat)
    requires IsActive(t.status.phase) && AfterFailure(log) && Rule(cfg, t, log, now).Does?
    requires log[|log| - 1].call.GetPod? ==> log[|log| - 1].reply.pod.phase.PodFailed?
    ensures var last, call := log[|log| - 1].call, Rule(cfg, t, log, now).call;
            && (last.GetPod? ==> call == GitHub(ListComments))
            && (last == GitHub(ListComments) ==> call.DeleteNamespace? || call.UpdateStatus?)
            && (last.DeleteNamespace? ==> call.UpdateStatus?)
            && !last.UpdateStatus?
            && (call.UpdateStatus? ==>
                  || call.status.phase == BlockedOnClarification
                  || (call.status.phase == Failed && call.status.message == "agent pod failed"))
  {
  }

  lemma DrivenNext(cfg: Config, t: Task, log: seq<Exchange>, x: Exchange, now: nat)
    requires IsActive(t.status.phase) && DrivenLog(t, log) && Rule(cfg, t, log, now) == Does(x.call)
    ensures DrivenLog(t, log + [x])
  {
    hide Rule;
    if Driver(log).None? {
      UndrivenAct(cfg, t, log, now);
    } else if Driver(log).value.phase.PodFailed? {
      FailureAct(cfg, t, log, now);
    } else if !Driver(log).value.phase.PodSucceeded? {
      QuietAct(cfg, t, log, now, Driver(log).value.phase);
    }
    LogAppend(t, log, x);
    assert (log + [x])[..|log|] == log;
  }

  lemma {:induction false} Driven(cfg: Config, t: Task, log: seq<Exchange>)
    requires IsActive(t.status.phase) && LogRuled(cfg, t, log)
    ensures DrivenLog(t, log)
  {
    hide Rule;
    if log == [] {
    } else {
      var now := LastByRule(cfg, t, log);
      Driven(cfg, t, log[..|log| - 1]);
      DrivenNext(cfg, t, log[..|log| - 1], log[|log| - 1], now);
    }
  }

  lemma DuringDriven(cfg: Config, w0: World, events: seq<Event>, j: nat, n: string, e: Entry)
    requires During(cfg, w0, events, j, n, e) && IsActive(e.pass.value.copy.status.phase)
    ensures var p := e.pass.value;
            && LeadsTo(cfg, p.copy, p.log, ActAt(cfg, p.copy, p.point)) && DrivenLog(p.copy, p.log)
            && e.task == p.copy.(status := StatusIn(p.copy, p.log)) && ValidSpec(p.copy.spec)
  {
    hide Run, Next, Rule;
    DuringByRule(cfg, w0, events, j, n, e);
    Driven(cfg, e.pass.value.copy, e.pass.value.log);
  }

  lemma NowByRule(cfg: Config, t: Task, log: seq<Exchange>, act: Act) returns (now: nat)
    requires LeadsTo(cfg, t, log, act)
    ensures Rule(cfg, t, log, now) == act
  {
    hide Rule;
    now :| Rule(cfg, t, log, now) == act;
  }

  /** In every run, a pass over an active task asks GitHub for anything but comments only once it has read a succeeded pod. */
  lemma SearchesRest(cfg: Config, w0: World, events: seq<Event>, j: nat, n: string, e: Entry, k: nat)
    requires During(cfg, w0, events, j, n, e) && e.pass.value.copy.status.phase in {Building, Running}
    requires k < |e.pass.value.log|
    requires e.pass.value.log[k].call.GitHub? && e.pass.value.log[k].call != GitHub(ListComments)
    ensures Driver(e.pass.value.log).Some? && Driver(e.pass.value.log).value.phase == PodSucceeded
  {
    hide Run, Next, Rule;
    DuringDriven(cfg, w0, events, j, n, e);
  }

  /** In every run, a pass over a task in Building that has read a running pod writes Running, with its message, and no more. */
  lemma RunningPodExactly(cfg: Config, w0: World, events: seq<Event>, j: nat, n: string, e: Entry)
    requires During(cfg, w0, events, j, n, e) && e.pass.value.copy.status.phase == Building
    requires Driver(e.pass.value.log).Some? && Driver(e.pass.value.log).value.phase == PodRunning
    ensures var p := e.pass.value;
            var running := p.copy.status.(phase := Running, message := "agent running");
            && |p.log| > 0
            && (forall k :: 0 <= k < |p.log| - 1 ==> p.log[k].call.GetPod?)
            && var last := p.log[|p.log| - 1];
               if last.call.GetPod? then p.point.Write? && p.point.next == running && e.task == p.copy
               else
                 && last.call == UpdateStatus(running) && p.point == Return(Result(30), last.reply != Done)
                 && e.task == if last.reply == Done then p.copy.(status := running) else p.copy
  {
    hide Run, Next, Rule;
    DuringDriven(cfg, w0, events, j, n, e);
    var p := e.pass.value;
    var now := NowByRule(cfg, p.copy, p.log, ActAt(cfg, p.copy, p.point));
    QuietAct(cfg, p.copy, p.log, now, Driver(p.log).value.phase);
    var init := p.log[..|p.log| - 1];
    assert forall k :: 0 <= k < |init| ==> init[k] == p.log[k];
    NothingWritten(p.copy, init);
  }

  /** In every run, a pass that has read a pod with nothing new to tell writes nothing and returns for half a minute. */
  lemma QuietPodExactly(cfg: Config, w0: World, events: seq<Event>, j: nat, n: string, e: Entry)
    requires During(cfg, w0, events, j, n, e) && e.pass.value.copy.status.phase in {Building, Running}
    requires Driver(e.pass.value.log).Some?
    requires var phase := Driver(e.pass.value.log).value.phase;
             || phase == PodPending || phase == PodUnknown
             || (phase == PodRunning && e.pass.value.copy.status.phase == Running)
    ensures var p := e.pass.value;
            && (forall k :: 0 <= k < |p.log| ==> p.log[k].call.GetPod?)
            && p.point == Return(Result(30), false) && e.task == p.copy
  {
    hide Run, Next, Rule;
    DuringDriven(cfg, w0, events, j, n, e);
    var p := e.pass.value;
    var now := NowByRule(cfg, p.copy, p.log, ActAt(cfg, p.copy, p.point));
    QuietAct(cfg, p.copy, p.log, now, Driver(p.log).value.phase);
    NothingWritten(p.copy, p.log);
  }

  /**
   In every run, a task enters AwaitingReview, or Failed for want of a pull request or by the diff policy, only in a pass
   that read a succeeded pod.
   */
  lemma SuccessRests(cfg: Config, w0: World, events: seq<Event>, k: nat, n: string, w: World, w': World)
    requires Moves(cfg, w0, events, k, n, w, w')
    requires var s := w'.tasks[n].task.status;
             || s.phase == AwaitingReview
             || (s.phase == Failed && s.message == "agent pod exited 0 but no PR was opened on the canonical branch")
             || (s.phase == Failed && "diff policy: " <= s.message)
    ensures w.tasks[n].task.status.phase in {Building, Running} && w.tasks[n].pass.Some?
    ensures var log := w.tasks[n].pass.value.log; Driver(log).Some? && Driver(log).value.phase == PodSucceeded
  {
    hide Run, Next, Rule;
    NextStatus(cfg, w0, events, k, n);
    WritesByRule(cfg, w0, events, k, n, w, w');
    var e, s := w.tasks[n], w'.tasks[n].task.status;
    var log := e.pass.value.log;
    MessagesDiffer();
    Driven(cfg, e.task, log);
    OnlyOnSuccess(cfg, e.task, log, s);
  }

  lemma OnlyOnSuccess(cfg: Config, t: Task, log: seq<Exchange>, s: Status)
    requires LeadsTo(cfg, t, log, Does(UpdateStatus(s))) && IsActive(t.status.phase) && DrivenLog(t, log)
    requires s.phase != Running && s.phase != BlockedOnClarification
    requires s.phase == Failed ==> s.message != "agent pod failed"
    ensures Driver(log).Some? && Driver(log).value.phase == PodSucceeded
  {
    hide Rule;
    var now := NowByRule(cfg, t, log, Does(UpdateStatus(s)));
    if Driver(log).None? {
      UndrivenAct(cfg, t, log, now);
    } else if Driver(log).value.phase.PodFailed? {
      FailureAct(cfg, t, log, now);
    } else if !Driver(log).value.phase.PodSucceeded? {
      QuietAct(cfg, t, log, now, Driver(log).value.phase);
    }
  }

  lemma MessagesDiffer()
    ensures "agent pod failed" != "agent pod exited 0 but no PR was opened on the canonical branch"
    ensures !("diff policy: " <= "agent pod failed")
  {
    assert |"agent pod failed"| == 16;
    assert "agent pod failed"[0] == 'a' && "diff policy: "[0] == 'd';
  }

  // ---- the search for the pull request

  predicate Searches(call: Call) {
    call.GitHub? && (call.query.ListOpenPulls? || call.query.GetPull?)
  }

  lemma {:induction false} OwnPullExactly(prs: seq<PullRequest>, n: int)
    ensures OwnPull(prs, n).None? <==> forall k :: 0 <= k < |prs| ==> !OfIssue(prs[k].ref, n)
  {
    if prs == [] {
    } else {
      OwnPullExactly(prs[1..], n);
      assert forall k :: 0 <= k < |prs| - 1 ==> prs[1..][k] == prs[k + 1];
    }
  }

  lemma SearchLog(cfg: Config, t: Task, log: seq<Exchange>, act: Act, k: nat)
    requires LeadsTo(cfg, t, log, act) && IsActive(t.status.phase) && k < |log| && Searches(log[k].call)
    ensures var next, sought := Step(log, act, k + 1), Sought(t, log[k].reply);
            if sought.None? then next == Ends(30, true)
            else if sought.value.Some? then next == Does(GitHub(ListFiles(sought.value.value.number, 0)))
            else next.Does? && next.call.UpdateStatus? && next.call.status.phase.Failed?
                 && next.call.status.message == "agent pod exited 0 but no PR was opened on the canonical branch"
  {
    var now := StepByRule(cfg, t, log, act, k + 1);
    assert log[..k + 1][k] == log[k];
    SearchAct(cfg, t, log[..k + 1], now);
  }

  lemma SearchAct(cfg: Config, t: Task, log: seq<Exchange>, now: nat)
    requires IsActive(t.status.phase) && log != [] && Searches(log[|log| - 1].call)
    ensures Rule(cfg, t, log, now) == SoughtRule(t, log[|log| - 1].reply, now)
  {
  }

  /**
   In every run, a pass of an active task whose search for a pull request came back without one on the task's branches
   fails the task, unless that write fails.
   */
  lemma EmptySearch(cfg: Config, w0: World, events: seq<Event>, j: nat, n: string, e: Entry, k: nat)
    requires During(cfg, w0, events, j, n, e) && e.pass.value.copy.status.phase in {Building, Running}
    requires k < |e.pass.value.log|
    requires var x := e.pass.value.log[k]; x.call == GitHub(ListOpenPulls) && x.reply.Got? && x.reply.answer.Pulls?
    requires e.pass.value.copy.status.prNumber == 0
    requires forall pr :: pr in e.pass.value.log[k].reply.answer.prs ==> !OfIssue(pr.ref, e.pass.value.copy.spec.issueNumber)
    ensures var p := e.pass.value;
            if |p.log| == k + 1 then p.point.Write?
            else
              && |p.log| == k + 2 && p.log[k + 1].call.UpdateStatus? && p.point.Return?
              && p.log[k + 1].call.status.phase == Failed
              && p.log[k + 1].call.status.message == "agent pod exited 0 but no PR was opened on the canonical branch"
              && (p.log[k + 1].reply == Done ==> e.task.status == p.log[k + 1].call.status)
  {
    hide Run, Next, Rule;
    DuringByRule(cfg, w0, events, j, n, e);
    var p := e.pass.value;
    EmptyLog(cfg, p.copy, p.log, ActAt(cfg, p.copy, p.point), k);
  }

  lemma EmptyLog(cfg: Config, t: Task, log: seq<Exchange>, act: Act, k: nat)
    requires LeadsTo(cfg, t, log, act) && IsActive(t.status.phase) && t.status.prNumber == 0 && k < |log|
    requires log[k].call == GitHub(ListOpenPulls) && log[k].reply.Got? && log[k].reply.answer.Pulls?
    requires forall pr :: pr in log[k].reply.answer.prs ==> !OfIssue(pr.ref, t.spec.issueNumber)
    ensures Step(log, act, k + 1).Does?
    ensures var call := Step(log, act, k + 1).call;
            && call.UpdateStatus? && call.status.phase.Failed?
            && call.status.message == "agent pod exited 0 but no PR was opened on the canonical branch"
            && (|log| > k + 1 ==> |log| == k + 2 && act.Ends? && (log[k + 1].reply == Done ==> StatusIn(t, log) == call.status))
  {
    hide Rule, OfIssue;
    OwnPullExactly(log[k].reply.answer.prs, t.spec.issueNumber);
    SearchLog(cfg, t, log, act, k);
    if |log| > k + 1 {
      WriteIsLast(cfg, t, log, act, k + 1);
    }
  }

  /** In every run, it goes on with the files of the first pull request on the task's branches. */
  lemma FoundSearch(cfg: Config, w0: World, events: seq<Event>, j: nat, n: string, e: Entry, k: nat, i: nat)
    requires During(cfg, w0, events, j, n, e) && e.pass.value.copy.status.phase in {Building, Running}
    requires k < |e.pass.value.log| && e.pass.value.copy.status.prNumber == 0
    requires var x := e.pass.value.log[k]; x.call == GitHub(ListOpenPulls) && x.reply.Got? && x.reply.answer.Pulls?
    requires var prs, number := e.pass.value.log[k].reply.answer.prs, e.pass.value.copy.spec.issueNumber;
             i < |prs| && OfIssue(prs[i].ref, number) && forall m :: 0 <= m < i ==> !OfIssue(prs[m].ref, number)
    ensures var p, pr := e.pass.value, e.pass.value.log[k].reply.answer.prs[i];
            if |p.log| == k + 1 then p.point.ReadFiles? && p.point.pr.number == pr.number && p.point.page == 0
            else p.log[k + 1].call == GitHub(ListFiles(pr.number, 0))
  {
    hide Run, Next, Rule, OfIssue;
    DuringByRule(cfg, w0, events, j, n, e);
    var p := e.pass.value;
    OwnPullFirst(p.log[k].reply.answer.prs, p.copy.spec.issueNumber, i);
    SearchLog(cfg, p.copy, p.log, ActAt(cfg, p.copy, p.point), k);
  }

  lemma {:induction false} OwnPullFirst(prs: seq<PullRequest>, n: int, i: nat)
    requires i < |prs| && OfIssue(prs[i].ref, n) && forall m :: 0 <= m < i ==> !OfIssue(prs[m].ref, n)
    ensures OwnPull(prs, n) == Some(prs[i])
  {
    if i == 0 {
    } else {
      OwnPullFirst(prs[1..], n, i - 1);
    }
  }

  /** In every run, a search that fails leaves the task as it was, and the pass is tried again. */
  lemma FailedSearch(cfg: Config, w0: World, events: seq<Event>, j: nat, n: string, e: Entry, k: nat)
    requires During(cfg, w0, events, j, n, e) && e.pass.value.copy.status.phase in {Building, Running}
    requires k < |e.pass.value.log|
    requires var x := e.pass.value.log[k];
             && x.call.GitHub? && (x.call.query.ListOpenPulls? || x.call.query.GetPull?)
             && !(x.reply.Got? && (x.reply.answer.Pulls? || x.reply.answer.Pull?))
    ensures var p := e.pass.value; |p.log| == k + 1 && p.point == Return(Result(30), true) && e.task == p.copy
  {
    hide Run, Next, Rule;
    DuringByRule(cfg, w0, events, j, n, e);
    var p := e.pass.value;
    SearchLog(cfg, p.copy, p.log, ActAt(cfg, p.copy, p.point), k);
    EndsUnwritten(cfg, p.copy, p.log, ActAt(cfg, p.copy, p.point));
  }

  /** A pass whose last call was not the status write has written nothing. */
  lemma EndsUnwritten(cfg: Config, t: Task, log: seq<Exchange>, act: Act)
    requires LeadsTo(cfg, t, log, act) && log != [] && !log[|log| - 1].call.UpdateStatus?
    ensures StatusIn(t, log) == t.status
  {
    hide Rule;
    forall k | 0 <= k < |log| ensures !log[k].call.UpdateStatus? {
      if log[k].call.UpdateStatus? {
        WriteIsLast(cfg, t, log, act, k);
      }
    }
    NothingWritten(t, log);
  }

  // ---- a failed pod

  lemma CommentsAct(cfg: Config, t: Task, log: seq<Exchange>, now: nat)
    requires IsActive(t.status.phase) && |log| >= 2 && log[|log| - 2].call.GetPod? && log[|log| - 1].call == GitHub(ListComments)
    ensures var rep, act := log[|log| - 1].reply, Rule(cfg, t, log, now);
            if rep.Got? && rep.answer.Comments? && HoldsRequest(rep.answer.comments)
            then act == Does(DeleteNamespace(t.status.namespace))
            else act.Does? && act.call.UpdateStatus? && act.call.status.phase == Failed
                 && act.call.status.message == "agent pod failed"
  {
  }

  lemma TeardownAct(cfg: Config, t: Task, log: seq<Exchange>, now: nat)
    requires IsActive(t.status.phase) && |log| >= 2
    requires log[|log| - 2].call == GitHub(ListComments) && log[|log| - 1].call.DeleteNamespace?
    ensures Rule(cfg, t, log, now)
         == Does(UpdateStatus(t.status.(phase := BlockedOnClarification, message := "agent requested clarification")))
  {
  }

  /**
   In every run, a pass over an active task that has read the comments after its pod failed tears the namespace down and
   blocks the task exactly if a comment begins with the request; otherwise, and if they cannot be read, it fails the task.
   */
  lemma ClarificationExactly(cfg: Config, w0: World, events: seq<Event>, j: nat, n: string, e: Entry, k: nat)
    requires During(cfg, w0, events, j, n, e) && e.pass.value.copy.status.phase in {Building, Running}
    requires 0 < k < |e.pass.value.log|
    requires e.pass.value.log[k - 1].call.GetPod? && e.pass.value.log[k].call == GitHub(ListComments)
    ensures var p, s, rep := e.pass.value, e.pass.value.copy.status, e.pass.value.log[k].reply;
            if rep.Got? && rep.answer.Comments?
               && exists i :: 0 <= i < |rep.answer.comments| && "/clarification:" <= rep.answer.comments[i].body
            then
              && (if |p.log| == k + 1 then p.point.DropNamespace? else p.log[k + 1].call == DeleteNamespace(s.namespace))
              && (|p.log| == k + 2 ==> p.point.Write?)
              && (|p.log| > k + 2 ==>
                    p.log[k + 2].call
                      == UpdateStatus(s.(phase := BlockedOnClarification, message := "agent requested clarification")))
            else if |p.log| == k + 1 then p.point.Write?
            else
              && p.log[k + 1].call.UpdateStatus? && p.log[k + 1].call.status.phase == Failed
              && p.log[k + 1].call.status.message == "agent pod failed"
  {
    hide Run, Next, Rule;
    DuringByRule(cfg, w0, events, j, n, e);
    var p := e.pass.value;
    FailureLog(cfg, p.copy, p.log, ActAt(cfg, p.copy, p.point), k);
  }

  lemma FailureLog(cfg: Config, t: Task, log: seq<Exchange>, act: Act, k: nat)
    requires LeadsTo(cfg, t, log, act) && IsActive(t.status.phase) && 0 < k < |log|
    requires log[k - 1].call.GetPod? && log[k].call == GitHub(ListComments)
    ensures var next, rep := Step(log, act, k + 1), log[k].reply;
            if rep.Got? && rep.answer.Comments? && HoldsRequest(rep.answer.comments)
            then next == Does(DeleteNamespace(t.status.namespace))
            else next.Does? && next.call.UpdateStatus? && next.call.status.phase == Failed
                 && next.call.status.message == "agent pod failed"
    ensures |log| > k + 1 && log[k + 1].call.DeleteNamespace? ==>
              Step(log, act, k + 2)
                == Does(UpdateStatus(t.status.(phase := BlockedOnClarification, message := "agent requested clarification")))
  {
    hide Rule;
    var now := StepByRule(cfg, t, log, act, k + 1);
    var read := log[..k + 1];
    assert read[k - 1] == log[k - 1] && read[k] == log[k];
    CommentsAct(cfg, t, read, now);
    if |log| > k + 1 && log[k + 1].call.DeleteNamespace? {
      var later := StepByRule(cfg, t, log, act, k + 2);
      var torn := log[..k + 2];
      assert torn[k] == log[k] && torn[k + 1] == log[k + 1];
      TeardownAct(cfg, t, torn, later);
    }
  }

  // ---- the link on the issue

  /** The exchange read a comment with a link. */
  ghost predicate ReadsLink(x: Exchange) {
    x.call == GitHub(ListComments) && x.reply.Got? && x.reply.answer.Comments? && HoldsLink(x.reply.answer.comments)
  }

  lemma ReviewAct(cfg: Config, t: Task, log: seq<Exchange>, now: nat, s: Status)
    requires IsActive(t.status.phase) && Rule(cfg, t, log, now) == Does(UpdateStatus(s)) && s.phase.AwaitingReview?
    ensures log != [] && PullIn(t, log).Some? && PullIn(t, log).value.number == s.prNumber
    ensures var x := log[|log| - 1];
            || PullIn(t, log).value.url == "" || ReadsLink(x)
            || (x.call.GitHub? && x.call.query.CommentOnIssue? && x.reply.Got?)
  {
  }

  lemma LinkAct(cfg: Config, t: Task, log: seq<Exchange>, now: nat, text: string)
    requires IsActive(t.status.phase) && Rule(cfg, t, log, now) == Does(GitHub(CommentOnIssue(text)))
    ensures PullIn(t, log).Some? && text == "PR: " + PullIn(t, log).value.url
  {
  }

  /**
   In every run, a task enters review only in a pass that found a pull request, with the number recorded; and if that one
   has a URL, the pass has last read a comment with a link on the issue, or posted the link there.
   */
  lemma LinkRests(cfg: Config, w0: World, events: seq<Event>, k: nat, n: string, w: World, w': World)
    requires Moves(cfg, w0, events, k, n, w, w') && w'.tasks[n].task.status.phase == AwaitingReview
    ensures w.tasks[n].pass.Some? && w.tasks[n].pass.value.log != []
    ensures var log := w.tasks[n].pass.value.log;
            var found, x := PullIn(w.tasks[n].task, log), log[|log| - 1];
            && found.Some? && found.value.number == w'.tasks[n].task.status.prNumber
            && (found.value.url != "" ==>
                  || (x.call == GitHub(CommentOnIssue("PR: " + found.value.url)) && x.reply.Got?)
                  || (x.call == GitHub(ListComments) && x.reply.Got? && x.reply.answer.Comments?
                      && exists c, i :: c in x.reply.answer.comments && OccursAt(c.body, "PR: https://", i)))
  {
    hide Run, Next, Rule;
    NextStatus(cfg, w0, events, k, n);
    WritesByRule(cfg, w0, events, k, n, w, w');
    var t, log, s := w.tasks[n].task, w.tasks[n].pass.value.log, w'.tasks[n].task.status;
    var now := NowByRule(cfg, t, log, Does(UpdateStatus(s)));
    ReviewAct(cfg, t, log, now, s);
    var init, x := log[..|log| - 1], log[|log| - 1];
    if x.call.GitHub? && x.call.query.CommentOnIssue? {
      var earlier := LastByRule(cfg, t, log);
      LinkAct(cfg, t, init, earlier, x.call.query.text);
      LogGrows(t, init, x);
    }
  }

  // ---- spawning

  lemma RevisionLog(cfg: Config, t: Task, log: seq<Exchange>, act: Act)
    requires LeadsTo(cfg, t, log, act) && t.status.phase.AwaitingRevision?
    ensures Step(log, act, 0) == Does(GitHub(RemoveLabel(t.status.prNumber, "needs-revision")))
    ensures |log| > 0 ==> Step(log, act, 1) == Does(DeletePod(t.status.namespace, "agent-rev"))
    ensures |log| > 1 ==> Step(log, act, 2) == Does(Call.ReadCredentials)
  {
    var a := StepByRule(cfg, t, log, act, 0);
    assert log[..0] == [];
    if |log| > 0 {
      var b := StepByRule(cfg, t, log, act, 1);
      assert log[..1] == [log[0]];
    }
    if |log| > 1 {
      var c := StepByRule(cfg, t, log, act, 2);
      assert log[..2] == [log[0], log[1]];
    }
  }

  /**
   In every run, a pass over a task sent back first removes the label and then deletes the last revision's pod; it goes on to the
   credentials whether or not these calls fail.
   */
  lemma RevisionExactly(cfg: Config, w0: World, events: seq<Event>, j: nat, n: string, e: Entry)
    requires During(cfg, w0, events, j, n, e) && e.pass.value.copy.status.phase == AwaitingRevision
    ensures var p, s := e.pass.value, e.pass.value.copy.status;
            && (|p.log| > 0 ==> p.log[0].call == GitHub(RemoveLabel(s.prNumber, "needs-revision")))
            && (|p.log| > 1 ==> p.log[1].call == DeletePod(s.namespace, "agent-rev"))
            && (|p.log| > 2 ==> p.log[2].call == Call.ReadCredentials)
            && (|p.log| < 3 ==> !p.point.Return? && e.task == p.copy)
  {
    hide Run, Next, Rule;
    DuringByRule(cfg, w0, events, j, n, e);
    var p := e.pass.value;
    RevisionLog(cfg, p.copy, p.log, ActAt(cfg, p.copy, p.point));
    if |p.log| < 3 {
      NothingWritten(p.copy, p.log);
    }
  }

  lemma CreateAct(cfg: Config, t: Task, log: seq<Exchange>, now: nat)
    requires Rule(cfg, t, log, now).Does? && Rule(cfg, t, log, now).call.CreatePod?
    ensures log != [] && log[|log| - 1].call.CreateSecret? && log[|log| - 1].reply in {Done, AlreadyExists}
    ensures var call := Rule(cfg, t, log, now).call;
            match t.status.phase
            case Unset => call.pod == "agent" && call.spec == PodSpec(t.spec, InitialRun)
            case AwaitingRevision => call.pod == "agent-rev" && call.spec == PodSpec(t.spec, RevisionRun(t.status.prNumber))
            case BlockedOnClarification => call.pod == "agent" && call.spec == PodSpec(t.spec, ResumeRun)
            case _ => false
  {
  }

  /**
   In every run, a pass creates a pod only right after the Secret is there, and the pod is the one for the phase it found the
   task in: agent for a new task and for a resumed one, agent-rev with the pull request's number for a revision.
   */
  lemma PodsExactly(cfg: Config, w0: World, events: seq<Event>, j: nat, n: string, e: Entry, k: nat)
    requires During(cfg, w0, events, j, n, e) && k < |e.pass.value.log| && e.pass.value.log[k].call.CreatePod?
    ensures k > 0 && e.pass.value.log[k - 1].call.CreateSecret? && e.pass.value.log[k - 1].reply in {Done, AlreadyExists}
    ensures var t, call := e.pass.value.copy, e.pass.value.log[k].call;
            match t.status.phase
            case Unset => call.pod == "agent" && call.spec == PodSpec(t.spec, InitialRun)
            case AwaitingRevision => call.pod == "agent-rev" && call.spec == PodSpec(t.spec, RevisionRun(t.status.prNumber))
            case BlockedOnClarification => call.pod == "agent" && call.spec == PodSpec(t.spec, ResumeRun)
            case _ => false
  {
    hide Run, Next, Rule;
    DuringByRule(cfg, w0, events, j, n, e);
    var p := e.pass.value;
    var now := StepByRule(cfg, p.copy, p.log, ActAt(cfg, p.copy, p.point), k);
    CreateAct(cfg, p.copy, p.log[..k], now);
  }
}
