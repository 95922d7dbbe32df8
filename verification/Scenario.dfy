/**
 Runs built event by event: one task, alone in its world, with nothing going wrong unless it is said to.
 */
module Scenario {
  import opened Glob
  import opened Domain
  import opened Protocol
  import opened Machine
  import opened TaskInvariant
  import opened Safety
  import opened View
  import opened Convergence
  import opened Entries

  // ---- runs of one task, event by event

  /** A world with one new task and nothing else. */
  function OneTask(n: string, spec: Spec): World {
    World(map[n := NewEntry(n, spec)], map[], Idle, 0, 0)
  }

  /** A run that the hypotheses allow, in which no time has passed. */
  ghost predicate Ran(cfg: Config, w0: World, events: seq<Event>, n: string) {
    GoodRun(cfg, w0, events) && n in Run(cfg, w0, events).tasks && Run(cfg, w0, events).now == 0
  }

  /** Events that create no task and take no time. */
  predicate Plain(event: Event) {
    !event.Submit? && !event.PollAnswered? && !event.Tick?
  }

  lemma Then(cfg: Config, w0: World, events: seq<Event>, n: string, event: Event)
    requires Ran(cfg, w0, events, n) && Plain(event) && HonestEvent(Run(cfg, w0, events), event)
    ensures Ran(cfg, w0, events + [event], n)
    ensures Run(cfg, w0, events + [event]) == Next(cfg, Run(cfg, w0, events), event)
    ensures var w := Run(cfg, w0, events);
            ViewOf(Run(cfg, w0, events + [event]), n) == ViewStep(cfg, ViewOf(w, n), n, event, 0, w.lifetimes)
    ensures TaskInv(cfg, Run(cfg, w0, events).tasks[n], SpaceOf(Run(cfg, w0, events), n), 0)
  {
    var w := Run(cfg, w0, events);
    RunStep(cfg, w0, events, event);
    RunInv(cfg, w0, events);
    DistinctKept(cfg, w, event);
    assert (events + [event])[..|events|] == events;
    ViewSteps(cfg, w, event, n);
    NoTime(cfg, w, event);
    assert TaskOk(cfg, w, n);
  }

  lemma NoTime(cfg: Config, w: World, event: Event)
    requires Plain(event)
    ensures Next(cfg, w, event).now == w.now
  {
  }

  /** Events whose answers no hypothesis is about. */
  predicate Harmless(event: Event) {
    event.Start? || (event.Answered? && !event.ans.Pull? && !event.ans.Pulls?)
  }

  lemma {:induction false} ThenAll(cfg: Config, w0: World, events: seq<Event>, n: string, more: seq<Event>)
    requires Ran(cfg, w0, events, n) && forall k :: 0 <= k < |more| ==> Harmless(more[k])
    ensures Ran(cfg, w0, events + more, n)
    decreases |more|
  {
    if more == [] {
      assert events + more == events;
    } else {
      var k := |more| - 1;
      ThenAll(cfg, w0, events, n, more[..k]);
      ThenHarmless(cfg, w0, events + more[..k], n, more[k]);
      assert events + more == events + more[..k] + [more[k]];
    }
  }

  lemma ThenHarmless(cfg: Config, w0: World, events: seq<Event>, n: string, event: Event)
    requires Ran(cfg, w0, events, n) && Harmless(event)
    ensures Ran(cfg, w0, events + [event], n)
  {
    Then(cfg, w0, events, n, event);
  }

  /** No call fails, no pod is lost and no pass cut off, and what comments are read are `comments`. */
  predicate Smooth(event: Event, comments: seq<Comment>) {
    && !event.PodVanishes? && !event.Restart? && (event.Answered? ==> !event.ans.Fails?) && HearsAt(event, comments)
  }

  predicate SmoothFrom(events: seq<Event>, i: nat, comments: seq<Comment>) {
    forall k :: i <= k < |events| ==> Smooth(events[k], comments)
  }

  // ---- where the task stands

  /** Between passes, queued. */
  ghost predicate Rests(w: World, n: string, task: Task, sp: Option<Space>, cycle: nat) {
    && n in w.tasks && SpaceOf(w, n) == sp && w.tasks[n].task == task && w.tasks[n].pass.None?
    && w.tasks[n].book.ready && w.tasks[n].book.cycle == cycle
  }

  /** In a pass that stands at `pt`. */
  ghost predicate Stands(w: World, n: string, task: Task, sp: Option<Space>, cycle: nat, pt: Point) {
    && n in w.tasks && SpaceOf(w, n) == sp && w.tasks[n].task == task
    && w.tasks[n].pass.Some? && w.tasks[n].pass.value.copy == task && w.tasks[n].pass.value.point == pt
    && w.tasks[n].book.cycle == cycle
  }

  lemma Starts(cfg: Config, w0: World, events: seq<Event>, n: string, task: Task, sp: Option<Space>, cycle: nat)
    requires Ran(cfg, w0, events, n) && Rests(Run(cfg, w0, events), n, task, sp, cycle)
    ensures Ran(cfg, w0, events + [Start(n)], n)
    ensures Stands(Run(cfg, w0, events + [Start(n)]), n, task, sp, cycle, Begin(cfg, task, 0))
    ensures Run(cfg, w0, events + [Start(n)]).tasks[n].pass.value.log == []
  {
    Then(cfg, w0, events, n, Start(n));
    var w := Run(cfg, w0, events);
    assert ViewStep(cfg, ViewOf(w, n), n, Start(n), 0, w.lifetimes) == Seen(Started(cfg, w.tasks[n], 0), sp);
  }

  /** A read is answered, and the pass goes where the answer leads. */
  lemma Goes(cfg: Config, w0: World, events: seq<Event>, n: string, task: Task, sp: Option<Space>, cycle: nat,
             pt: Point, ans: Answer)
    requires Ran(cfg, w0, events, n) && Stands(Run(cfg, w0, events), n, task, sp, cycle, pt)
    requires Reads(pt) && Honest(Run(cfg, w0, events).tasks[n], ans)
    ensures Ran(cfg, w0, events + [Answered(n, ans)], n)
    ensures Stands(Run(cfg, w0, events + [Answered(n, ans)]), n, task, sp, cycle,
                   After(cfg, task, pt, ReplyTo(cfg, task, pt, sp, ans), 0))
    ensures Run(cfg, w0, events + [Answered(n, ans)]).tasks[n].pass.value.log
         == Run(cfg, w0, events).tasks[n].pass.value.log
            + [Exchange(CallAt(cfg, task, pt), ReplyTo(cfg, task, pt, sp, ans))]
  {
    var w := Run(cfg, w0, events);
    Then(cfg, w0, events, n, Answered(n, ans));
    GoesOn(cfg, w, Run(cfg, w0, events + [Answered(n, ans)]), n, task, sp, cycle, pt, ans);
  }

  lemma GoesOn(cfg: Config, w: World, w': World, n: string, task: Task, sp: Option<Space>, cycle: nat, pt: Point, ans: Answer)
    requires Stands(w, n, task, sp, cycle, pt) && Reads(pt) && n in w'.tasks
    requires ViewOf(w', n) == ViewStep(cfg, ViewOf(w, n), n, Answered(n, ans), 0, w.lifetimes)
    ensures Stands(w', n, task, sp, cycle, After(cfg, task, pt, ReplyTo(cfg, task, pt, sp, ans), 0))
    ensures w'.tasks[n].pass.value.log
         == w.tasks[n].pass.value.log + [Exchange(CallAt(cfg, task, pt), ReplyTo(cfg, task, pt, sp, ans))]
  {
    ReadAnswered(cfg, w.tasks[n], sp, ans, 0, w.lifetimes);
    assert ViewOf(w', n).space == SpaceOf(w', n);
  }

  /** The status write goes through, and the pass is over. */
  lemma Writes(cfg: Config, w0: World, events: seq<Event>, n: string, task: Task, sp: Option<Space>, cycle: nat,
               next: Status, res: Result) returns (later: seq<Event>)
    requires Ran(cfg, w0, events, n) && Stands(Run(cfg, w0, events), n, task, sp, cycle, Write(next, res))
    requires !next.phase.Building?
    ensures Ran(cfg, w0, later, n) && later == events + [Answered(n, Works)] + [Finish(n)]
    ensures Rests(Run(cfg, w0, later), n, task.(status := next), sp, cycle)
  {
    Then(cfg, w0, events, n, Answered(n, Works));
    WroteOn(cfg, Run(cfg, w0, events), Run(cfg, w0, events + [Answered(n, Works)]), n, task, sp, cycle, next, res);
    Ends(cfg, w0, events + [Answered(n, Works)], n);
    later := events + [Answered(n, Works)] + [Finish(n)];
  }

  lemma WroteOn(cfg: Config, w: World, w': World, n: string, task: Task, sp: Option<Space>, cycle: nat, next: Status, res: Result)
    requires Stands(w, n, task, sp, cycle, Write(next, res)) && n in w'.tasks
    requires !next.phase.Building?
    requires ViewOf(w', n) == ViewStep(cfg, ViewOf(w, n), n, Answered(n, Works), 0, w.lifetimes)
    ensures var e := w'.tasks[n];
            && e.task == task.(status := next) && SpaceOf(w', n) == sp && e.book.cycle == cycle
            && e.book.ready && e.pass == Some(Pass(task, Return(res, false), e.pass.value.log))
  {
    WriteLogged(cfg, w.tasks[n], sp, Works, 0, w.lifetimes);
    assert ViewOf(w', n).space == SpaceOf(w', n);
  }

  lemma Ends(cfg: Config, w0: World, events: seq<Event>, n: string)
    requires Ran(cfg, w0, events, n)
    requires var e := Run(cfg, w0, events).tasks[n];
             e.pass.Some? && e.pass.value.point.Return? && !e.pass.value.point.failed && e.book.ready
    ensures Ran(cfg, w0, events + [Finish(n)], n)
    ensures var w, w' := Run(cfg, w0, events), Run(cfg, w0, events + [Finish(n)]);
            && w'.tasks[n].task == w.tasks[n].task && w'.tasks[n].pass.None? && w'.tasks[n].book.ready
            && w'.tasks[n].book.cycle == w.tasks[n].book.cycle
            && SpaceOf(w', n) == SpaceOf(w, n)
  {
    var w := Run(cfg, w0, events);
    Then(cfg, w0, events, n, Finish(n));
    assert ViewStep(cfg, ViewOf(w, n), n, Finish(n), 0, w.lifetimes) == Seen(Finished(w.tasks[n], 0), SpaceOf(w, n));
  }

  // ---- the spawns

  lemma Begins(cfg: Config, n: string, spec: Spec)
    requires ValidConfig(cfg) && ValidSpec(spec)
    ensures Ran(cfg, OneTask(n, spec), [], n) && AwaitsSpawn(Run(cfg, OneTask(n, spec), []), n)
  {
  }

  lemma HelpIsSmooth(direct: seq<Event>, n: string, c: Creds, comments: seq<Comment>)
    requires Undisturbed(direct, n, c) && Hears(direct, comments)
    ensures forall k :: 0 <= k < |direct| ==> Harmless(direct[k]) && Smooth(direct[k], comments)
  {
    forall k | 0 <= k < |direct| ensures Harmless(direct[k]) && Smooth(direct[k], comments) {
      assert (direct[k] == Start(n) && k == 0) || Helps(direct[k], n, c);
      assert HearsAt(direct[k], comments);
    }
  }

  /** A queued task that waits for a spawn gets it, and its pass ends. */
  lemma SpawnsOnce(cfg: Config, w0: World, events: seq<Event>, n: string, c: Creds, comments: seq<Comment>)
    returns (later: seq<Event>)
    requires Ran(cfg, w0, events, n) && AwaitsSpawn(Run(cfg, w0, events), n) && HumanReplied(comments)
    ensures Ran(cfg, w0, later, n) && events <= later && SmoothFrom(later, |events|, comments)
    ensures var w, w' := Run(cfg, w0, events), Run(cfg, w0, later);
            var task, plan := w.tasks[n].task, PlanOf(w.tasks[n].task.status.phase);
            && Rests(w', n, w'.tasks[n].task, SpaceOf(w', n), w.tasks[n].book.cycle + 1)
            && w'.tasks[n].task.status.phase == Building && w'.tasks[n].task.spec == task.spec
            && w'.tasks[n].task.status.prNumber == task.status.prNumber
            && InFront(SpaceOf(w', n), plan, w.tasks[n].book.cycle + 1)
            && KeepsAgent(SpaceOf(w, n), SpaceOf(w', n))
  {
    var w := Run(cfg, w0, events);
    RunInv(cfg, w0, events);
    var direct := DirectAttempt(cfg, w, n, c, comments);
    HelpIsSmooth(direct, n, c, comments);
    ThenAll(cfg, w0, events, n, direct);
    RunConcat(cfg, w0, events, direct);
    Ends(cfg, w0, events + direct, n);
    later := events + direct + [Finish(n)];
  }

  /** The kubelet reports a phase of the initial pod. */
  lemma Reports(cfg: Config, w0: World, events: seq<Event>, n: string, task: Task, sp: Option<Space>, cycle: nat,
                phase: PodPhase) returns (later: seq<Event>)
    requires Ran(cfg, w0, events, n) && Rests(Run(cfg, w0, events), n, task, sp, cycle)
    requires AGENT in Pods(sp) && AGENT_REV !in Pods(sp)
    ensures Ran(cfg, w0, later, n) && later == events + [PodMoves(TaskNamespace(task.spec), AGENT, phase)]
    ensures var sp' := SpaceOf(Run(cfg, w0, later), n);
            && Rests(Run(cfg, w0, later), n, task, sp', cycle)
            && AGENT in Pods(sp') && AGENT_REV !in Pods(sp')
            && Pods(sp')[AGENT] == Pods(sp)[AGENT].(phase := phase)
  {
    var w := Run(cfg, w0, events);
    var event := PodMoves(Home(w.tasks[n]), AGENT, phase);
    Then(cfg, w0, events, n, event);
    later := events + [event];
    assert AGENT != AGENT_REV;
    assert ViewStep(cfg, ViewOf(w, n), n, event, 0, w.lifetimes) == Seen(w.tasks[n], MovePod(sp, AGENT, phase));
  }

  // ---- the pod read

  lemma PodPoints(cfg: Config, task: Task, sp: Option<Space>)
    requires AGENT in Pods(sp)
    ensures AGENT_REV !in Pods(sp) ==>
              After(cfg, task, GetRevisionPod, ReplyTo(cfg, task, GetRevisionPod, sp, Works), 0) == GetAgentPod
    ensures After(cfg, task, GetRevisionPod, ReplyTo(cfg, task, GetRevisionPod, sp, Fails), 0) == GetAgentPod
    ensures After(cfg, task, GetAgentPod, ReplyTo(cfg, task, GetAgentPod, sp, Works), 0)
         == OnPod(cfg, task, Pods(sp)[AGENT].phase)
    ensures ReplyTo(cfg, task, GetAgentPod, sp, Works) == GotPod(Pods(sp)[AGENT])
    ensures ReplyTo(cfg, task, GetRevisionPod, sp, Fails) == Err
  {
  }

  /** The start of a pass over an active task, up to the read of the initial pod. */
  lemma FindsPod(cfg: Config, w0: World, events: seq<Event>, n: string, task: Task, sp: Option<Space>, cycle: nat, first: Answer)
    returns (later: seq<Event>)
    requires Ran(cfg, w0, events, n) && Rests(Run(cfg, w0, events), n, task, sp, cycle)
    requires IsActive(task.status.phase) && AGENT in Pods(sp)
    requires first == Fails || (first == Works && AGENT_REV !in Pods(sp))
    ensures Ran(cfg, w0, later, n) && later == events + [Start(n)] + [Answered(n, first)] + [Answered(n, Works)]
    ensures Stands(Run(cfg, w0, later), n, task, sp, cycle, OnPod(cfg, task, Pods(sp)[AGENT].phase))
    ensures var log := Run(cfg, w0, later).tasks[n].pass.value.log;
            Driver(log) == Some(Pods(sp)[AGENT]) && (first == Fails ==> Misread(log))
  {
    PodPoints(cfg, task, sp);
    Starts(cfg, w0, events, n, task, sp, cycle);
    var es1 := events + [Start(n)];
    Goes(cfg, w0, es1, n, task, sp, cycle, GetRevisionPod, first);
    var es2 := es1 + [Answered(n, first)];
    Goes(cfg, w0, es2, n, task, sp, cycle, GetAgentPod, Works);
    later := es2 + [Answered(n, Works)];
    ReadLog(cfg, task, sp, first);
  }

  lemma ReadLog(cfg: Config, task: Task, sp: Option<Space>, first: Answer)
    requires AGENT in Pods(sp) && (first == Fails || (first == Works && AGENT_REV !in Pods(sp)))
    ensures var x := Exchange(CallAt(cfg, task, GetRevisionPod), ReplyTo(cfg, task, GetRevisionPod, sp, first));
            var y := Exchange(CallAt(cfg, task, GetAgentPod), ReplyTo(cfg, task, GetAgentPod, sp, Works));
            && Driver([] + [x] + [y]) == Some(Pods(sp)[AGENT])
            && (first == Fails ==> Misread([] + [x] + [y]))
  {
    var x := Exchange(CallAt(cfg, task, GetRevisionPod), ReplyTo(cfg, task, GetRevisionPod, sp, first));
    var y := Exchange(CallAt(cfg, task, GetAgentPod), ReplyTo(cfg, task, GetAgentPod, sp, Works));
    LogAppend(task, [], x);
    LogAppend(task, [] + [x], y);
  }
}
