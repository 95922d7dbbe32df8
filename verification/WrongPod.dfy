/**
 A whole run that ends on the wrong pod: a task is spawned, reviewed, sent back and spawned again, and then one
 failed read makes its pass take the first cycle's finished pod for the second cycle's.
 */
module WrongPod {
  import opened Glob
  import opened DiffPolicy
  import opened Domain
  import opened Protocol
  import opened Machine
  import opened TaskInvariant
  import opened Safety
  import opened Lifecycle
  import opened Convergence
  import opened Scenario

  // ---- the review

  /** The agent's pull request: nothing in it, no page to link to, and a reviewer's label on it. */
  function ThePull(spec: Spec): PullRequest {
    PullRequest(7, Branch(spec.issueNumber), "", false, "open", [REVISION_LABEL])
  }

  lemma PullPoints(cfg: Config, task: Task, sp: Option<Space>)
    requires task.status.prNumber == 0
    ensures var pr := ThePull(task.spec);
            && After(cfg, task, FindPull, ReplyTo(cfg, task, FindPull, sp, Pulls([pr])), 0) == ReadFiles(pr, 0, [])
            && After(cfg, task, ReadFiles(pr, 0, []), ReplyTo(cfg, task, ReadFiles(pr, 0, []), sp, Page([], 0)), 0)
                 == ReadIssue(pr, [])
  {
    var pr := ThePull(task.spec);
    assert IsTaskBranch(pr.ref, task.spec.issueNumber);
    assert FindByBranch([pr], task.spec.issueNumber) == Some(pr);
  }

  lemma VerdictPoint(cfg: Config, task: Task, sp: Option<Space>)
    requires cfg.policy.maxFiles >= 0 && cfg.policy.maxLines >= 0
    ensures var pr := ThePull(task.spec);
            After(cfg, task, ReadIssue(pr, []), ReplyTo(cfg, task, ReadIssue(pr, []), sp, IssueBody("")), 0)
              == Write(ReviewStatus(task, pr), TWO_MINUTES)
  {
    ExactDecision(cfg.pathMatch, [], "", cfg.policy);
  }

  /** A pass over a task whose pod succeeded brings it to review. */
  lemma Reviews(cfg: Config, w0: World, events: seq<Event>, n: string, task: Task, sp: Option<Space>, cycle: nat)
    returns (later: seq<Event>)
    requires Ran(cfg, w0, events, n) && Rests(Run(cfg, w0, events), n, task, sp, cycle)
    requires IsActive(task.status.phase) && task.status.prNumber == 0
    requires AGENT in Pods(sp) && AGENT_REV !in Pods(sp) && Pods(sp)[AGENT].phase == PodSucceeded
    requires cfg.policy.maxFiles >= 0 && cfg.policy.maxLines >= 0
    ensures Ran(cfg, w0, later, n) && events <= later
    ensures Rests(Run(cfg, w0, later), n, task.(status := ReviewStatus(task, ThePull(task.spec))), sp, cycle)
  {
    var found := FindsPod(cfg, w0, events, n, task, sp, cycle, Works);
    var examined := Examines(cfg, w0, found, n, task, sp, cycle);
    later := Writes(cfg, w0, examined, n, task, sp, cycle, ReviewStatus(task, ThePull(task.spec)), TWO_MINUTES);
  }

  lemma Examines(cfg: Config, w0: World, events: seq<Event>, n: string, task: Task, sp: Option<Space>, cycle: nat)
    returns (later: seq<Event>)
    requires Ran(cfg, w0, events, n) && Stands(Run(cfg, w0, events), n, task, sp, cycle, FindPull)
    requires task.status.prNumber == 0 && cfg.policy.maxFiles >= 0 && cfg.policy.maxLines >= 0
    ensures Ran(cfg, w0, later, n) && events <= later
    ensures Stands(Run(cfg, w0, later), n, task, sp, cycle, Write(ReviewStatus(task, ThePull(task.spec)), TWO_MINUTES))
  {
    var pr := ThePull(task.spec);
    PullPoints(cfg, task, sp);
    VerdictPoint(cfg, task, sp);
    Goes(cfg, w0, events, n, task, sp, cycle, FindPull, Pulls([pr]));
    var es1 := events + [Answered(n, Pulls([pr]))];
    Goes(cfg, w0, es1, n, task, sp, cycle, ReadFiles(pr, 0, []), Page([], 0));
    var es2 := es1 + [Answered(n, Page([], 0))];
    Goes(cfg, w0, es2, n, task, sp, cycle, ReadIssue(pr, []), IssueBody(""));
    later := es2 + [Answered(n, IssueBody(""))];
  }

  // ---- sent back

  function SentBack(task: Task): Status {
    task.status.(phase := AwaitingRevision, message := "reviewer requested changes")
  }

  lemma ReviewPoints(cfg: Config, task: Task, sp: Option<Space>)
    requires task.status.prNumber == 7
    ensures var pr := ThePull(task.spec);
            && After(cfg, task, CheckPull, ReplyTo(cfg, task, CheckPull, sp, Pull(pr)), 0) == CheckLabel
            && After(cfg, task, CheckLabel, ReplyTo(cfg, task, CheckLabel, sp, Pull(pr)), 0) == Write(SentBack(task), NOTHING)
  {
  }

  /** A pass over a task in review finds the label. */
  lemma SendsBack(cfg: Config, w0: World, events: seq<Event>, n: string, task: Task, sp: Option<Space>, cycle: nat)
    returns (later: seq<Event>)
    requires Ran(cfg, w0, events, n) && Rests(Run(cfg, w0, events), n, task, sp, cycle)
    requires task.status.phase.AwaitingReview? && task.status.prNumber == 7
    ensures Ran(cfg, w0, later, n) && events <= later
    ensures Rests(Run(cfg, w0, later), n, task.(status := SentBack(task)), sp, cycle)
  {
    var labelled := FindsLabel(cfg, w0, events, n, task, sp, cycle);
    later := Writes(cfg, w0, labelled, n, task, sp, cycle, SentBack(task), NOTHING);
  }

  lemma FindsLabel(cfg: Config, w0: World, events: seq<Event>, n: string, task: Task, sp: Option<Space>, cycle: nat)
    returns (later: seq<Event>)
    requires Ran(cfg, w0, events, n) && Rests(Run(cfg, w0, events), n, task, sp, cycle)
    requires task.status.phase.AwaitingReview? && task.status.prNumber == 7
    ensures Ran(cfg, w0, later, n) && events <= later
    ensures Stands(Run(cfg, w0, later), n, task, sp, cycle, Write(SentBack(task), NOTHING))
  {
    var pr := ThePull(task.spec);
    ReviewPoints(cfg, task, sp);
    Starts(cfg, w0, events, n, task, sp, cycle);
    var es1 := events + [Start(n)];
    Goes(cfg, w0, es1, n, task, sp, cycle, CheckPull, Pull(pr));
    var es2 := es1 + [Answered(n, Pull(pr))];
    Goes(cfg, w0, es2, n, task, sp, cycle, CheckLabel, Pull(pr));
    later := es2 + [Answered(n, Pull(pr))];
  }

  // ---- the whole

  /** The first cycle, through review and back to a revision: the run so far, and a moment at which it is in review. */
  lemma FirstCycle(cfg: Config, n: string, spec: Spec, c: Creds) returns (events: seq<Event>, k: nat)
    requires ValidConfig(cfg) && ValidSpec(spec) && cfg.policy.maxFiles >= 0 && cfg.policy.maxLines >= 0
    ensures var w0 := OneTask(n, spec);
            var w := Run(cfg, w0, events);
            && Ran(cfg, w0, events, n) && k <= |events|
            && n in At(cfg, w0, events, k).tasks && At(cfg, w0, events, k).tasks[n].task.status.phase == AwaitingReview
            && AwaitsSpawn(w, n) && w.tasks[n].task.status.phase == AwaitingRevision && w.tasks[n].book.cycle == 1
            && AGENT in Pods(SpaceOf(w, n))
            && Pods(SpaceOf(w, n))[AGENT].phase == PodSucceeded && Pods(SpaceOf(w, n))[AGENT].cycle == 1
  {
    var w0 := OneTask(n, spec);
    Begins(cfg, n, spec);
    var comments := SomeReply();
    var spawned := SpawnsOnce(cfg, w0, [], n, c, comments);
    var w1 := Run(cfg, w0, spawned);
    var task := w1.tasks[n].task;
    var moved := Reports(cfg, w0, spawned, n, task, SpaceOf(w1, n), 1, PodSucceeded);
    var sp := SpaceOf(Run(cfg, w0, moved), n);
    var reviewed := Reviews(cfg, w0, moved, n, task, sp, 1);
    var later := task.(status := ReviewStatus(task, ThePull(task.spec)));
    events := SendsBack(cfg, w0, reviewed, n, later, sp, 1);
    k := |reviewed|;
    assert events[..k] == reviewed;
  }

  /**
   The wrong pod, in a run that every hypothesis allows: in the second cycle, with its own pod there, the read of that
   pod fails, and the pass goes on to the pull request on the word of the first cycle's pod. On the way the task was in
   review.
   */
  lemma MisreadRun(cfg: Config, n: string, spec: Spec, c: Creds) returns (events: seq<Event>, k: nat)
    requires ValidConfig(cfg) && ValidSpec(spec) && cfg.policy.maxFiles >= 0 && cfg.policy.maxLines >= 0
    ensures var w0 := OneTask(n, spec);
            && GoodRun(cfg, w0, events) && k <= |events|
            && n in At(cfg, w0, events, k).tasks && At(cfg, w0, events, k).tasks[n].task.status.phase == AwaitingReview
    ensures var w := Run(cfg, OneTask(n, spec), events);
            && n in w.tasks && w.tasks[n].pass.Some?
            && var e, sp := w.tasks[n], SpaceOf(w, n);
               && e.task.status.phase == Building && e.book.cycle == 2
               && CurrentPod(sp).Some? && CurrentPod(sp).value.cycle == e.book.cycle
               && e.pass.value.point == FindPull
               && Driver(e.pass.value.log).Some? && Driver(e.pass.value.log).value.cycle < e.book.cycle
  {
    var w0 := OneTask(n, spec);
    var first;
    first, k := FirstCycle(cfg, n, spec, c);
    var comments := SomeReply();
    var second := SpawnsOnce(cfg, w0, first, n, c, comments);
    var w2 := Run(cfg, w0, second);
    events := FindsPod(cfg, w0, second, n, w2.tasks[n].task, SpaceOf(w2, n), 2, Fails);
    assert events[..k] == first[..k];
  }
}
