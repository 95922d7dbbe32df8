/**
 The concurrency cap, for every interleaving of the poller with the reconcile passes.
 Neither honest replies nor distinct issue numbers are needed here.
 */
module Capacity {
  import opened Glob
  import opened Domain
  import opened Protocol
  import opened Machine
  import opened Safety

  /** A pass over a finished task can only clear its namespace. */
  ghost predicate StaysTerminal(e: Entry) {
    e.pass.Some? && !e.pass.value.point.Return? ==>
      var p := e.pass.value;
      && p.copy == e.task
      && (e.task.status.phase in {Completed, Failed} ==>
            p.point == DropNamespace(ForExpiry) || (p.point.Write? && p.point.next.phase in {Completed, Failed}))
  }

  ghost predicate TerminalInv(w: World) {
    forall n {:trigger TerminalAt(w, n)} :: n in w.tasks ==> TerminalAt(w, n)
  }

  ghost predicate TerminalAt(w: World, n: string)
    requires n in w.tasks
  {
    StaysTerminal(w.tasks[n])
  }

  lemma CallStaysTerminal(cfg: Config, e: Entry, sp: Option<Space>, ans: Answer, now: nat, lifetime: nat)
    requires e.pass.Some? && StaysTerminal(e)
    ensures var e' := Advance(cfg, e, sp, ans, now, lifetime).0;
            StaysTerminal(e') && (e.task.status.phase in {Completed, Failed} ==> e'.task.status.phase in {Completed, Failed})
  {
    CallRefreshes(cfg, e, sp, ans, now, lifetime);
  }

  lemma CallRefreshes(cfg: Config, e: Entry, sp: Option<Space>, ans: Answer, now: nat, lifetime: nat)
    requires e.pass.Some? && StaysTerminal(e)
    ensures var e' := Advance(cfg, e, sp, ans, now, lifetime).0;
            e'.pass.Some? && (e'.pass.value.point.Return? || e'.pass.value.copy == e'.task)
    ensures e.task.status.phase in {Completed, Failed} && !e.pass.value.point.Return? ==>
              var e' := Advance(cfg, e, sp, ans, now, lifetime).0;
              && e'.task.status.phase in {Completed, Failed}
              && (e'.pass.value.point.Return? ||
                  (e'.pass.value.point.Write? && e'.pass.value.point.next.phase in {Completed, Failed}))
  {
  }

  /** No step but a creation adds an active task: nothing terminal becomes active again. */
  lemma TaskStaysTerminal(cfg: Config, w: World, event: Event, n: string)
    requires n in w.tasks && TerminalAt(w, n)
    ensures n in Next(cfg, w, event).tasks && TerminalAt(Next(cfg, w, event), n)
    ensures w.tasks[n].task.status.phase in {Completed, Failed} ==>
              Next(cfg, w, event).tasks[n].task.status.phase in {Completed, Failed}
  {
    if event.Answered? && event.name == n && w.tasks[n].pass.Some? {
      var e := w.tasks[n];
      CallStaysTerminal(cfg, e, Lookup(w.spaces, Workplace(cfg, e)), event.ans, w.now, w.lifetimes);
    }
  }

  /** The tasks that are neither completed nor failed. */
  function Unfinished(tasks: map<string, Entry>): set<string> {
    set n | n in tasks && tasks[n].task.status.phase != Completed && tasks[n].task.status.phase != Failed
  }

  lemma ActiveIsUnfinished(tasks: map<string, Entry>)
    ensures ActiveTasks(tasks) == Unfinished(tasks)
  {
  }

  /** A task in Completed or Failed takes no room, and a task in any other phase takes one place. */
  lemma TakesRoom(tasks: map<string, Entry>, n: string)
    requires n in tasks
    ensures tasks[n].task.status.phase in {Completed, Failed} ==> |ActiveTasks(tasks)| == |ActiveTasks(tasks - {n})|
    ensures tasks[n].task.status.phase
              in {Unset, Pending, Building, Running, AwaitingReview, AwaitingRevision, BlockedOnClarification} ==>
              |ActiveTasks(tasks)| == |ActiveTasks(tasks - {n})| + 1
  {
    if tasks[n].task.status.phase in {Completed, Failed} {
      assert ActiveTasks(tasks) == ActiveTasks(tasks - {n});
    } else {
      assert ActiveTasks(tasks) == ActiveTasks(tasks - {n}) + {n};
    }
  }

  function ActiveCount(w: World): nat {
    |Unfinished(w.tasks)|
  }

  /** While a poll is in its loop, its local count bounds the true one from above. */
  predicate PollBound(cfg: Config, w: World) {
    && (w.poll.PollLookup? || w.poll.PollCreate? ==> ActiveCount(w) <= w.poll.active)
    && (w.poll.PollCreate? ==> w.poll.active < cfg.maxTasks)
  }

  lemma SubsetSize<T>(a: set<T>, b: set<T>)
    requires a <= b
    ensures |a| <= |b|
  {
    if a == {} {
    } else {
      var x :| x in a;
      SubsetSize(a - {x}, b - {x});
    }
  }

  /** The active tasks after a step: fewer, or one newcomer more. */
  lemma ActiveStep(cfg: Config, w: World, event: Event)
    requires TerminalInv(w)
    ensures TerminalInv(Next(cfg, w, event))
    ensures ActiveCount(Next(cfg, w, event)) <= ActiveCount(w) + |Next(cfg, w, event).tasks.Keys - w.tasks.Keys|
  {
    var w' := Next(cfg, w, event);
    forall n | n in w'.tasks ensures TerminalAt(w', n) {
      if n in w.tasks {
        assert TerminalAt(w, n);
        TaskStaysTerminal(cfg, w, event, n);
      } else {
        NewcomersAreFresh(cfg, w, event, n);
      }
    }
    var newcomers := w'.tasks.Keys - w.tasks.Keys;
    forall n | n in Unfinished(w'.tasks) ensures n in Unfinished(w.tasks) + newcomers {
      if n in w.tasks {
        assert TerminalAt(w, n);
        TaskStaysTerminal(cfg, w, event, n);
      }
    }
    SubsetSize(Unfinished(w'.tasks), Unfinished(w.tasks) + newcomers);
  }

  lemma NewcomersAreFresh(cfg: Config, w: World, event: Event, n: string)
    requires n !in w.tasks && n in Next(cfg, w, event).tasks
    ensures Next(cfg, w, event).tasks[n].pass.None?
  {
  }

  /** The poller is the only creator, one task at a time and only below the cap. */
  lemma Newcomers(cfg: Config, w: World, event: Event)
    requires !event.Submit?
    ensures var w' := Next(cfg, w, event);
            var newcomers := w'.tasks.Keys - w.tasks.Keys;
            && |newcomers| <= 1
            && (newcomers != {} ==>
                  && event.PollAnswered? && w.poll.PollCreate?
                  && (w'.poll.Idle? || (w'.poll.PollLookup? && w'.poll.active == w.poll.active + 1)))
  {
    if event.PollAnswered? {
      PollNewcomers(cfg, w, event.pollAns);
    } else {
      NoCreation(cfg, w, event);
      assert Next(cfg, w, event).tasks.Keys - w.tasks.Keys == {};
    }
  }

  lemma PollNewcomers(cfg: Config, w: World, ans: PollAnswer)
    ensures var w' := PollStep(cfg, w, ans);
            var newcomers := w'.tasks.Keys - w.tasks.Keys;
            && |newcomers| <= 1
            && (newcomers != {} ==>
                  && w.poll.PollCreate?
                  && (w'.poll.Idle? || (w'.poll.PollLookup? && w'.poll.active == w.poll.active + 1)))
  {
    var newcomers := PollStep(cfg, w, ans).tasks.Keys - w.tasks.Keys;
    if w.poll.PollCreate? && w.poll.issues != [] {
      SubsetSize(newcomers, {TaskName(w.poll.repo, w.poll.issues[0].number)});
    } else {
      assert newcomers == {};
    }
  }

  lemma CapStep(cfg: Config, w: World, event: Event)
    requires TerminalInv(w) && PollBound(cfg, w) && !event.Submit?
    ensures TerminalInv(Next(cfg, w, event)) && PollBound(cfg, Next(cfg, w, event))
    ensures ActiveCount(Next(cfg, w, event)) <= ActiveCount(w) || ActiveCount(Next(cfg, w, event)) <= cfg.maxTasks
  {
    var w' := Next(cfg, w, event);
    ActiveStep(cfg, w, event);
    Newcomers(cfg, w, event);
    var newcomers := w'.tasks.Keys - w.tasks.Keys;
    if newcomers == {} {
      PollMoves(cfg, w, event);
    }
  }

  /** A step that creates nothing leaves the loop's count alone, or sets it to the true count. */
  lemma PollMoves(cfg: Config, w: World, event: Event)
    requires PollBound(cfg, w) && TerminalInv(w)
    requires Next(cfg, w, event).tasks.Keys - w.tasks.Keys == {}
    ensures PollBound(cfg, Next(cfg, w, event))
  {
    ActiveStep(cfg, w, event);
    StepLeavesPoll(cfg, w, event, Next(cfg, w, event));
  }

  lemma StepLeavesPoll(cfg: Config, w: World, event: Event, w': World)
    requires w' == Next(cfg, w, event) && PollBound(cfg, w) && ActiveCount(w') <= ActiveCount(w)
    requires w'.tasks.Keys - w.tasks.Keys == {}
    ensures PollBound(cfg, w')
  {
    if event.PollAnswered? {
      PollAnswers(cfg, w, event.pollAns);
      StillBound(cfg, w, w');
    } else {
      OthersLeavePoll(cfg, w, event);
    }
  }

  lemma StillBound(cfg: Config, w: World, w': World)
    requires PollBound(cfg, w) && ActiveCount(w') <= ActiveCount(w)
    requires var poll := w'.poll;
             && (poll.PollLookup? && w.poll.PollCount? ==> poll.active == ActiveCount(w))
             && (poll.PollLookup? || poll.PollCreate? ==> w.poll.PollCount? || w.poll.PollLookup? || w.poll.PollCreate?)
             && (poll.PollLookup? && !w.poll.PollCount? ==> poll.active == w.poll.active)
             && (poll.PollCreate? ==> poll.active < cfg.maxTasks && w.poll.PollLookup? && poll.active == w.poll.active)
    ensures PollBound(cfg, w')
  {
  }

  lemma OthersLeavePoll(cfg: Config, w: World, event: Event)
    requires !event.PollAnswered?
    ensures var poll := Next(cfg, w, event).poll;
            poll == w.poll || poll.Idle? || poll.PollCreds?
  {
  }

  /** The local count after a poller call that creates nothing. */
  lemma PollAnswers(cfg: Config, w: World, ans: PollAnswer)
    requires PollStep(cfg, w, ans).tasks.Keys - w.tasks.Keys == {}
    ensures var poll := PollStep(cfg, w, ans).poll;
            && (poll.PollLookup? && w.poll.PollCount? ==> poll.active == ActiveCount(w))
            && (poll.PollLookup? || poll.PollCreate? ==> w.poll.PollCount? || w.poll.PollLookup? || w.poll.PollCreate?)
            && (poll.PollLookup? && !w.poll.PollCount? ==> poll.active == w.poll.active)
            && (poll.PollCreate? ==> poll.active < cfg.maxTasks && w.poll.PollLookup? && poll.active == w.poll.active)
  {
    if w.poll.PollCreate? {
      UncreatedCount(cfg, w, ans);
    } else {
      LookupCount(cfg, w, ans);
    }
  }

  lemma LookupCount(cfg: Config, w: World, ans: PollAnswer)
    requires !w.poll.PollCreate?
    ensures var poll := PollStep(cfg, w, ans).poll;
            && (poll.PollLookup? && w.poll.PollCount? ==> poll.active == ActiveCount(w))
            && (poll.PollLookup? || poll.PollCreate? ==> w.poll.PollCount? || w.poll.PollLookup?)
            && (poll.PollLookup? && !w.poll.PollCount? ==> poll.active == w.poll.active)
            && (poll.PollCreate? ==> poll.active < cfg.maxTasks && w.poll.PollLookup? && poll.active == w.poll.active)
  {
    ActiveIsUnfinished(w.tasks);
  }

  lemma UncreatedCount(cfg: Config, w: World, ans: PollAnswer)
    requires w.poll.PollCreate? && PollStep(cfg, w, ans).tasks.Keys - w.tasks.Keys == {}
    ensures var poll := PollStep(cfg, w, ans).poll; poll.Idle? || (poll.PollLookup? && poll.active == w.poll.active)
  {
    if w.poll.issues != [] {
      var name := TaskName(w.poll.repo, w.poll.issues[0].number);
      assert name !in PollStep(cfg, w, ans).tasks.Keys - w.tasks.Keys;
    }
  }

  predicate OnlyPollerCreates(events: seq<Event>) {
    forall k :: 0 <= k < |events| ==> !events[k].Submit?
  }

  /** The number of non-terminal tasks never exceeds the cap, nor the initial number where that was larger. */
  lemma {:induction false} ConcurrencyCap(cfg: Config, w0: World, events: seq<Event>)
    requires TerminalInv(w0) && w0.poll.Idle? && OnlyPollerCreates(events)
    ensures var w := Run(cfg, w0, events);
            && (|Unfinished(w.tasks)| <= cfg.maxTasks || |Unfinished(w.tasks)| <= |Unfinished(w0.tasks)|)
            && PollBound(cfg, w) && TerminalInv(w)
  {
    if events == [] {
    } else {
      var k := |events| - 1;
      ConcurrencyCap(cfg, w0, events[..k]);
      CapStep(cfg, Run(cfg, w0, events[..k]), events[k]);
    }
  }

  /** The event that created a task: a poll's create call, made below the cap. */
  ghost predicate CreatedBelowCap(cfg: Config, w0: World, events: seq<Event>, m: nat, name: string) {
    && m < |events| && events[m].PollAnswered?
    && var w, w' := Run(cfg, w0, events[..m]), Run(cfg, w0, events[..m + 1]);
       name !in w.tasks && name in w'.tasks && w.poll.PollCreate? && ActiveCount(w) < cfg.maxTasks
  }

  /** Every task that came into being in a run was created by a poll, at a moment below the cap. */
  lemma {:induction false} NewTasksBelowCap(cfg: Config, w0: World, events: seq<Event>, i: nat, name: string) returns (m: nat)
    requires TerminalInv(w0) && w0.poll.Idle? && OnlyPollerCreates(events) && i <= |events|
    requires name !in Run(cfg, w0, events[..i]).tasks && name in Run(cfg, w0, events).tasks
    ensures i <= m && CreatedBelowCap(cfg, w0, events, m, name)
  {
    assert events[..|events|] == events;
    if i < |events| {
      var k := |events| - 1;
      assert events[..k][..i] == events[..i];
      if name in Run(cfg, w0, events[..k]).tasks {
        m := NewTasksBelowCap(cfg, w0, events[..k], i, name);
        Extended(cfg, w0, events, k, m, name);
      } else {
        m := k;
        CreatedLast(cfg, w0, events, k, name);
      }
    }
  }

  lemma Extended(cfg: Config, w0: World, events: seq<Event>, k: nat, m: nat, name: string)
    requires k <= |events| && CreatedBelowCap(cfg, w0, events[..k], m, name)
    ensures CreatedBelowCap(cfg, w0, events, m, name)
  {
    assert events[..k][..m] == events[..m] && events[..k][..m + 1] == events[..m + 1];
  }

  lemma CreatedLast(cfg: Config, w0: World, events: seq<Event>, k: nat, name: string)
    requires TerminalInv(w0) && w0.poll.Idle? && OnlyPollerCreates(events) && k == |events| - 1
    requires name !in Run(cfg, w0, events[..k]).tasks && name in Run(cfg, w0, events).tasks
    ensures CreatedBelowCap(cfg, w0, events, k, name)
  {
    ConcurrencyCap(cfg, w0, events[..k]);
    CreatedNow(cfg, Run(cfg, w0, events[..k]), events[k], name);
    assert events[..k + 1] == events;
  }

  lemma CreatedNow(cfg: Config, w: World, event: Event, name: string)
    requires PollBound(cfg, w) && !event.Submit?
    requires name !in w.tasks && name in Next(cfg, w, event).tasks
    ensures event.PollAnswered? && w.poll.PollCreate? && ActiveCount(w) < cfg.maxTasks
  {
    Newcomers(cfg, w, event);
    assert name in Next(cfg, w, event).tasks.Keys - w.tasks.Keys;
  }
}
