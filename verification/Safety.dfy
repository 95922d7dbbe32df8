/**
 The invariant of every run: each task, with its pass and its namespace, satisfies TaskInvariant after
 every event, whatever the interleaving.
 */
module Safety {
  import opened Glob
  import opened Domain
  import opened Protocol
  import opened Machine
  import opened TaskInvariant

  function SpaceOf(w: World, name: string): Option<Space>
    requires name in w.tasks
  {
    Lookup(w.spaces, Home(w.tasks[name]))
  }

  ghost predicate TaskOk(cfg: Config, w: World, n: string)
    requires n in w.tasks
  {
    TaskInv(cfg, w.tasks[n], SpaceOf(w, n), w.now)
  }

  ghost predicate TasksOk(cfg: Config, w: World) {
    forall n {:trigger TaskOk(cfg, w, n)} :: n in w.tasks ==> TaskOk(cfg, w, n)
  }

  /** Every namespace is some task's, and its lifetime number has been given out. */
  ghost predicate SpacesOk(w: World) {
    && (forall ns :: ns in w.spaces ==> exists n :: n in w.tasks && Home(w.tasks[n]) == ns)
    && (forall ns :: ns in w.spaces ==> w.spaces[ns].lifetime < w.lifetimes)
  }

  ghost predicate Inv(cfg: Config, w: World) {
    ValidConfig(cfg) && TasksOk(cfg, w) && SpacesOk(w)
  }

  /** No two tasks are for the same issue number. */
  predicate Distinct(w: World) {
    forall m, n {:trigger SameIssue(w, m, n)} :: m in w.tasks && n in w.tasks && SameIssue(w, m, n) ==> m == n
  }

  predicate SameIssue(w: World, m: string, n: string)
    requires m in w.tasks && n in w.tasks
  {
    w.tasks[m].task.spec.issueNumber == w.tasks[n].task.spec.issueNumber
  }

  /** A world before the operator has done anything. */
  predicate Initial(w: World) {
    && w.spaces == map[]
    && w.poll.Idle?
    && forall n :: n in w.tasks ==>
         ValidSpec(w.tasks[n].task.spec) && w.tasks[n] == NewEntry(w.tasks[n].task.name, w.tasks[n].task.spec)
  }

  predicate HonestEvent(w: World, event: Event) {
    event.Answered? && event.name in w.tasks ==> Honest(w.tasks[event.name], event.ans)
  }

  /** Every reply in the run is one GitHub can give. */
  predicate HonestRun(cfg: Config, w: World, events: seq<Event>) {
    events != [] ==>
      var earlier := events[..|events| - 1];
      HonestRun(cfg, w, earlier) && HonestEvent(Run(cfg, w, earlier), events[|events| - 1])
  }

  lemma InitialInv(cfg: Config, w: World)
    requires Initial(w) && ValidConfig(cfg)
    ensures Inv(cfg, w)
  {
    forall n | n in w.tasks ensures TaskOk(cfg, w, n) {
      NewTaskOk(cfg, w.tasks[n].task.name, w.tasks[n].task.spec, w.now);
    }
  }

  // ---- tasks only accumulate

  predicate Grows(w: World, w': World) {
    forall n :: n in w.tasks ==> n in w'.tasks && w'.tasks[n].task.spec == w.tasks[n].task.spec
  }

  lemma StepGrows(cfg: Config, w: World, event: Event)
    ensures Grows(w, Next(cfg, w, event)) && w.now <= Next(cfg, w, event).now
  {
    if event.Answered? {
      AnsweredGrows(cfg, w, event.name, event.ans);
    } else if event.PollAnswered? {
      PollGrows(cfg, w, event.pollAns);
    }
  }

  lemma AnsweredGrows(cfg: Config, w: World, n: string, ans: Answer)
    ensures Grows(w, AnsweredStep(cfg, w, n, ans)) && w.now == AnsweredStep(cfg, w, n, ans).now
  {
  }

  lemma PollGrows(cfg: Config, w: World, ans: PollAnswer)
    ensures Grows(w, PollStep(cfg, w, ans)) && w.now == PollStep(cfg, w, ans).now
  {
  }

  lemma GrowsDistinct(w: World, w': World)
    requires Grows(w, w') && Distinct(w')
    ensures Distinct(w)
  {
    forall m, n | m in w.tasks && n in w.tasks && SameIssue(w, m, n) ensures m == n {
      assert SameIssue(w', m, n);
    }
  }

  /** Only a creation brings in a new issue. */
  lemma DistinctKept(cfg: Config, w: World, event: Event)
    requires Distinct(w) && !event.Submit? && !event.PollAnswered?
    ensures Distinct(Next(cfg, w, event))
  {
    var w' := Next(cfg, w, event);
    StepGrows(cfg, w, event);
    NoCreation(cfg, w, event);
    forall m, n | m in w'.tasks && n in w'.tasks && SameIssue(w', m, n) ensures m == n {
      assert SameIssue(w, m, n);
    }
  }

  lemma NoCreation(cfg: Config, w: World, event: Event)
    requires !event.Submit? && !event.PollAnswered?
    ensures Next(cfg, w, event).tasks.Keys == w.tasks.Keys
  {
  }

  // ---- one call

  /** A pass only ever calls into its own task's namespace. */
  lemma CallsStayHome(cfg: Config, e: Entry, sp: Option<Space>, now: nat)
    requires e.pass.Some? && CoreOk(cfg, e, sp, now)
    ensures var target := Target(CallAt(cfg, e.pass.value.copy, e.pass.value.point));
            target.None? || target.value == Home(e)
  {
  }

  lemma UntargetedCall(cfg: Config, e: Entry, sp: Option<Space>, ans: Answer, now: nat, lifetime: nat)
    requires e.pass.Some? && Target(CallAt(cfg, e.pass.value.copy, e.pass.value.point)).None?
    ensures Advance(cfg, e, sp, ans, now, lifetime).1 == sp
  {
  }

  /** `w'` is `w` after a step of one task that left its namespace as `sp'`. */
  ghost predicate StepOf(w: World, name: string, e': Entry, sp': Option<Space>, w': World)
    requires name in w.tasks
  {
    && w'.tasks == w.tasks[name := e']
    && w'.now == w.now && w'.poll == w.poll
    && Lookup(w'.spaces, Home(w.tasks[name])) == sp'
    && (forall ns :: ns != Home(w.tasks[name]) ==> Lookup(w'.spaces, ns) == Lookup(w.spaces, ns))
    && w.lifetimes <= w'.lifetimes
    && (sp'.Some? && SpaceOf(w, name).None? ==> w.lifetimes < w'.lifetimes)
  }

  lemma StoredAway(w: World, name: string, e': Entry, sp': Option<Space>)
    requires name in w.tasks
    ensures var home := Home(w.tasks[name]);
            StepOf(w, name, e', sp',
                   World(w.tasks[name := e'], Store(w.spaces, home, sp'), w.poll, w.now, w.lifetimes + 1))
    ensures sp' == SpaceOf(w, name) ==> StepOf(w, name, e', sp', WithTask(w, name, e'))
  {
  }

  /** In the world, an answered call is the task's own step and touches nobody else. */
  lemma AnsweredLocally(cfg: Config, w: World, name: string, ans: Answer)
    requires name in w.tasks && w.tasks[name].pass.Some?
    requires CoreOk(cfg, w.tasks[name], SpaceOf(w, name), w.now)
    ensures var (e', sp') := Advance(cfg, w.tasks[name], SpaceOf(w, name), ans, w.now, w.lifetimes);
            StepOf(w, name, e', sp', AnsweredStep(cfg, w, name, ans))
  {
    var e, sp := w.tasks[name], SpaceOf(w, name);
    var (e', sp') := Advance(cfg, e, sp, ans, w.now, w.lifetimes);
    CallsStayHome(cfg, e, sp, w.now);
    StoredAway(w, name, e', sp');
    if Target(CallAt(cfg, e.pass.value.copy, e.pass.value.point)).None? {
      UntargetedCall(cfg, e, sp, ans, w.now, w.lifetimes);
    }
  }

  /** A call never renames a lifetime: it keeps the namespace's, or starts the next one. */
  lemma CallLifetime(cfg: Config, e: Entry, sp: Option<Space>, ans: Answer, now: nat, lifetime: nat)
    requires e.pass.Some?
    ensures var sp' := Advance(cfg, e, sp, ans, now, lifetime).1;
            sp'.Some? ==> sp'.value.lifetime == if sp.Some? then sp.value.lifetime else lifetime
    ensures Advance(cfg, e, sp, ans, now, lifetime).0.task.spec == e.task.spec
  {
  }

  /** One task's step keeps the world's invariant if it keeps the task's. */
  lemma StepKeepsInv(cfg: Config, w: World, name: string, e': Entry, sp': Option<Space>, w': World)
    requires Inv(cfg, w) && Distinct(w) && name in w.tasks
    requires StepOf(w, name, e', sp', w')
    requires TaskInv(cfg, e', sp', w.now) && e'.task.spec == w.tasks[name].task.spec
    requires sp'.Some? ==>
               sp'.value.lifetime == if SpaceOf(w, name).Some? then SpaceOf(w, name).value.lifetime else w.lifetimes
    ensures Inv(cfg, w')
  {
    var home := Home(w.tasks[name]);
    forall n | n in w'.tasks ensures TaskOk(cfg, w', n) {
      assert TaskOk(cfg, w, n) && TaskOk(cfg, w, name);
      if n != name {
        assert !SameIssue(w, n, name);
        NamespaceInjective(w.tasks[n].task.spec, w.tasks[name].task.spec);
      }
    }
    forall ns | ns in w'.spaces
      ensures w'.spaces[ns].lifetime < w'.lifetimes
      ensures exists n :: n in w'.tasks && Home(w'.tasks[n]) == ns
    {
      assert Lookup(w'.spaces, ns) == Some(w'.spaces[ns]);
      if ns == home {
        assert Home(w'.tasks[name]) == ns;
      } else {
        assert Lookup(w.spaces, ns) == Some(w.spaces[ns]);
        var n :| n in w.tasks && Home(w.tasks[n]) == ns;
        assert Home(w'.tasks[n]) == ns;
      }
    }
  }

  lemma AnsweredInv(cfg: Config, w: World, name: string, ans: Answer)
    requires Inv(cfg, w) && Distinct(w) && HonestEvent(w, Answered(name, ans))
    ensures Inv(cfg, AnsweredStep(cfg, w, name, ans))
  {
    if name in w.tasks && w.tasks[name].pass.Some? {
      var e, sp := w.tasks[name], SpaceOf(w, name);
      assert TaskOk(cfg, w, name);
      var (e', sp') := Advance(cfg, e, sp, ans, w.now, w.lifetimes);
      AnsweredLocally(cfg, w, name, ans);
      AdvanceKept(cfg, e, sp, ans, w.now, w.lifetimes);
      CallLifetime(cfg, e, sp, ans, w.now, w.lifetimes);
      StepKeepsInv(cfg, w, name, e', sp', AnsweredStep(cfg, w, name, ans));
    }
  }

  /** A step of the work queue: the task's entry changes, its namespace does not. */
  lemma EntryKeepsInv(cfg: Config, w: World, name: string, e': Entry)
    requires Inv(cfg, w) && Distinct(w) && name in w.tasks
    requires TaskInv(cfg, e', SpaceOf(w, name), w.now) && e'.task.spec == w.tasks[name].task.spec
    ensures Inv(cfg, WithTask(w, name, e'))
  {
    StoredAway(w, name, e', SpaceOf(w, name));
    StepKeepsInv(cfg, w, name, e', SpaceOf(w, name), WithTask(w, name, e'));
  }

  lemma NewcomerHasNoSpace(cfg: Config, w: World, name: string, spec: Spec)
    requires Inv(cfg, w) && CanCreate(w, name, spec)
    requires Distinct(WithTask(w, name, NewEntry(name, spec)))
    ensures TaskNamespace(spec) !in w.spaces
  {
    var w' := WithTask(w, name, NewEntry(name, spec));
    forall n | n in w.tasks ensures Home(w.tasks[n]) != TaskNamespace(spec) {
      assert !SameIssue(w', n, name) && TaskOk(cfg, w, n);
      NamespaceInjective(w.tasks[n].task.spec, spec);
    }
  }

  lemma CreationInv(cfg: Config, w: World, name: string, spec: Spec)
    requires Inv(cfg, w) && CanCreate(w, name, spec)
    requires Distinct(WithTask(w, name, NewEntry(name, spec)))
    ensures Inv(cfg, WithTask(w, name, NewEntry(name, spec)))
  {
    var e := NewEntry(name, spec);
    var w' := WithTask(w, name, e);
    NewTaskOk(cfg, name, spec, w.now);
    NewcomerHasNoSpace(cfg, w, name, spec);
    forall n | n in w'.tasks ensures TaskOk(cfg, w', n) {
      if n != name {
        assert TaskOk(cfg, w, n);
      }
    }
    forall ns | ns in w'.spaces ensures exists n :: n in w'.tasks && Home(w'.tasks[n]) == ns {
      var n :| n in w.tasks && Home(w.tasks[n]) == ns;
      assert Home(w'.tasks[n]) == ns;
    }
  }

  lemma PodMovesInv(cfg: Config, w: World, ns: string, pod: string, phase: PodPhase)
    requires Inv(cfg, w)
    ensures Inv(cfg, Next(cfg, w, PodMoves(ns, pod, phase)))
  {
    PodMovesTasks(cfg, w, ns, pod, phase);
    PodMovesSpaces(cfg, w, ns, pod, phase);
  }

  lemma PodMovesTasks(cfg: Config, w: World, ns: string, pod: string, phase: PodPhase)
    requires TasksOk(cfg, w)
    ensures TasksOk(cfg, Next(cfg, w, PodMoves(ns, pod, phase)))
  {
    var w' := Next(cfg, w, PodMoves(ns, pod, phase));
    forall n | n in w'.tasks ensures TaskOk(cfg, w', n) {
      assert TaskOk(cfg, w, n);
      PodMovesAt(cfg, w, ns, pod, phase, n);
    }
  }

  lemma PodMovesSpaces(cfg: Config, w: World, ns: string, pod: string, phase: PodPhase)
    requires SpacesOk(w)
    ensures SpacesOk(Next(cfg, w, PodMoves(ns, pod, phase)))
  {
    SpacesKept(w, Next(cfg, w, PodMoves(ns, pod, phase)));
  }

  lemma PodMovesAt(cfg: Config, w: World, ns: string, pod: string, phase: PodPhase, n: string)
    requires n in w.tasks && TaskOk(cfg, w, n)
    ensures TaskOk(cfg, Next(cfg, w, PodMoves(ns, pod, phase)), n)
  {
    PodsMove(cfg, w.tasks[n], SpaceOf(w, n), pod, phase, w.now);
    var w' := Next(cfg, w, PodMoves(ns, pod, phase));
    assert SpaceOf(w', n) == if Home(w.tasks[n]) == ns then MovePod(SpaceOf(w, n), pod, phase) else SpaceOf(w, n);
  }

  lemma PodVanishesInv(cfg: Config, w: World, ns: string, pod: string)
    requires Inv(cfg, w)
    ensures Inv(cfg, Next(cfg, w, PodVanishes(ns, pod)))
  {
    PodVanishesTasks(cfg, w, ns, pod);
    PodVanishesSpaces(cfg, w, ns, pod);
  }

  lemma PodVanishesTasks(cfg: Config, w: World, ns: string, pod: string)
    requires TasksOk(cfg, w)
    ensures TasksOk(cfg, Next(cfg, w, PodVanishes(ns, pod)))
  {
    var w' := Next(cfg, w, PodVanishes(ns, pod));
    forall n | n in w'.tasks ensures TaskOk(cfg, w', n) {
      assert TaskOk(cfg, w, n);
      PodVanishesAt(cfg, w, ns, pod, n);
    }
  }

  lemma PodVanishesSpaces(cfg: Config, w: World, ns: string, pod: string)
    requires SpacesOk(w)
    ensures SpacesOk(Next(cfg, w, PodVanishes(ns, pod)))
  {
    SpacesKept(w, Next(cfg, w, PodVanishes(ns, pod)));
  }

  lemma PodVanishesAt(cfg: Config, w: World, ns: string, pod: string, n: string)
    requires n in w.tasks && TaskOk(cfg, w, n)
    ensures TaskOk(cfg, Next(cfg, w, PodVanishes(ns, pod)), n)
  {
    PodLost(cfg, w.tasks[n], SpaceOf(w, n), pod, w.now);
    var w' := Next(cfg, w, PodVanishes(ns, pod));
    assert SpaceOf(w', n) == if Home(w.tasks[n]) == ns then WithoutPod(SpaceOf(w, n), pod) else SpaceOf(w, n);
  }

  /** Ownership and lifetimes survive a step that keeps the tasks' specs and the namespaces' lifetimes. */
  lemma SpacesKept(w: World, w': World)
    requires SpacesOk(w)
    requires Grows(w, w') && w'.lifetimes == w.lifetimes
    requires forall ns :: ns in w'.spaces ==> ns in w.spaces && w'.spaces[ns].lifetime == w.spaces[ns].lifetime
    ensures SpacesOk(w')
  {
    forall ns | ns in w'.spaces ensures exists n :: n in w'.tasks && Home(w'.tasks[n]) == ns {
      var n :| n in w.tasks && Home(w.tasks[n]) == ns;
      assert Home(w'.tasks[n]) == ns;
    }
  }

  lemma RestartInv(cfg: Config, w: World)
    requires Inv(cfg, w)
    ensures Inv(cfg, Next(cfg, w, Restart))
  {
    var w' := Next(cfg, w, Restart);
    forall n | n in w'.tasks ensures TaskOk(cfg, w', n) {
      assert TaskOk(cfg, w, n);
      RestartKept(cfg, w.tasks[n], SpaceOf(w, n), w.now);
    }
    SpacesKept(w, w');
  }

  lemma TickInv(cfg: Config, w: World, seconds: nat)
    requires Inv(cfg, w)
    ensures Inv(cfg, Next(cfg, w, Tick(seconds)))
  {
    var w' := Next(cfg, w, Tick(seconds));
    forall n | n in w'.tasks ensures TaskOk(cfg, w', n) {
      assert TaskOk(cfg, w, n);
      TimePasses(cfg, w.tasks[n], SpaceOf(w, n), w.now, w'.now);
    }
    SpacesKept(w, w');
  }

  lemma StartInv(cfg: Config, w: World, n: string)
    requires Inv(cfg, w) && Distinct(w) && n in w.tasks
    ensures Inv(cfg, Next(cfg, w, Start(n)))
  {
    assert TaskOk(cfg, w, n);
    StartKept(cfg, w.tasks[n], SpaceOf(w, n), w.now);
    EntryKeepsInv(cfg, w, n, Started(cfg, w.tasks[n], w.now));
  }

  lemma FinishInv(cfg: Config, w: World, n: string)
    requires Inv(cfg, w) && Distinct(w) && n in w.tasks
    ensures Inv(cfg, Next(cfg, w, Finish(n)))
  {
    assert TaskOk(cfg, w, n);
    FinishKept(cfg, w.tasks[n], SpaceOf(w, n), w.now);
    EntryKeepsInv(cfg, w, n, Finished(w.tasks[n], w.now));
  }

  lemma FireInv(cfg: Config, w: World, n: string, due: nat)
    requires Inv(cfg, w) && Distinct(w) && n in w.tasks
    ensures Inv(cfg, Next(cfg, w, TimerFires(n, due)))
  {
    assert TaskOk(cfg, w, n);
    FiredKept(cfg, w.tasks[n], SpaceOf(w, n), due, w.now);
    EntryKeepsInv(cfg, w, n, Fired(w.tasks[n], due, w.now));
  }

  lemma QueueInv(cfg: Config, w: World, event: Event)
    requires Inv(cfg, w) && Distinct(w)
    requires event.Start? || event.Finish? || event.TimerFires?
    ensures Inv(cfg, Next(cfg, w, event))
  {
    if event.name in w.tasks {
      match event
      case Start(n) => StartInv(cfg, w, n);
      case Finish(n) => FinishInv(cfg, w, n);
      case TimerFires(n, due) => FireInv(cfg, w, n, due);
    }
  }

  lemma PollInv(cfg: Config, w: World, ans: PollAnswer)
    requires Inv(cfg, w) && Distinct(PollStep(cfg, w, ans))
    ensures Inv(cfg, PollStep(cfg, w, ans))
  {
    var w' := PollStep(cfg, w, ans);
    var created := PollCreates(cfg, w, ans);
    if created.Some? {
      var name, spec := created.value.name, created.value.spec;
      GrowsDistinct(WithTask(w, name, NewEntry(name, spec)), w');
      CreationInv(cfg, w, name, spec);
      PollIrrelevant(cfg, WithTask(w, name, NewEntry(name, spec)), w'.poll);
    } else {
      PollIrrelevant(cfg, w, w'.poll);
    }
  }

  /** The only task a poller step can change is one it creates. */
  lemma PollCreates(cfg: Config, w: World, ans: PollAnswer) returns (created: Option<Task>)
    ensures var w' := PollStep(cfg, w, ans);
            && (created.None? ==> w' == w.(poll := w'.poll))
            && (created.Some? ==>
                  var (name, spec) := (created.value.name, created.value.spec);
                  CanCreate(w, name, spec) && w' == WithTask(w, name, NewEntry(name, spec)).(poll := w'.poll))
  {
    if w.poll.PollCreate? && w.poll.issues != [] && !ans.PollFails? {
      var number := w.poll.issues[0].number;
      var name, spec := TaskName(w.poll.repo, number), Spec(number, w.poll.repo);
      created := if CanCreate(w, name, spec) then Some(Task(name, spec, FRESH)) else None;
    } else {
      created := None;
    }
  }

  lemma PollIrrelevant(cfg: Config, w: World, poll: Poll)
    requires Inv(cfg, w)
    ensures Inv(cfg, w.(poll := poll))
  {
    forall n | n in w.tasks ensures TaskOk(cfg, w.(poll := poll), n) {
      assert TaskOk(cfg, w, n);
    }
  }

  /** Every event keeps the invariant. */
  lemma InvStep(cfg: Config, w: World, event: Event)
    requires Inv(cfg, w) && HonestEvent(w, event) && Distinct(Next(cfg, w, event))
    ensures Inv(cfg, Next(cfg, w, event))
  {
    StepGrows(cfg, w, event);
    GrowsDistinct(w, Next(cfg, w, event));
    match event
    case Tick(seconds) => TickInv(cfg, w, seconds);
    case PodMoves(ns, pod, phase) => PodMovesInv(cfg, w, ns, pod, phase);
    case PodVanishes(ns, pod) => PodVanishesInv(cfg, w, ns, pod);
    case Submit(name, spec) =>
      if CanCreate(w, name, spec) {
        CreationInv(cfg, w, name, spec);
      }
    case TimerFires(_, _) => QueueInv(cfg, w, event);
    case Start(_) => QueueInv(cfg, w, event);
    case Answered(name, ans) => AnsweredInv(cfg, w, name, ans);
    case Finish(_) => QueueInv(cfg, w, event);
    case Restart => RestartInv(cfg, w);
    case PollStart(_) => PollIrrelevant(cfg, w, Next(cfg, w, event).poll);
    case PollAnswered(ans) => PollInv(cfg, w, ans);
  }

  /** The hypotheses on a run: it starts before any work, replies are honest, issue numbers are distinct. */
  ghost predicate GoodRun(cfg: Config, w0: World, events: seq<Event>) {
    && ValidConfig(cfg)
    && Initial(w0)
    && HonestRun(cfg, w0, events)
    && Distinct(Run(cfg, w0, events))
  }

  lemma GoodPrefix(cfg: Config, w0: World, events: seq<Event>, k: nat)
    requires GoodRun(cfg, w0, events) && k <= |events|
    ensures GoodRun(cfg, w0, events[..k])
  {
    RunGrows(cfg, w0, events, k);
    GrowsDistinct(Run(cfg, w0, events[..k]), Run(cfg, w0, events));
    HonestPrefix(cfg, w0, events, k);
  }

  lemma {:induction false} HonestPrefix(cfg: Config, w0: World, events: seq<Event>, k: nat)
    requires HonestRun(cfg, w0, events) && k <= |events|
    ensures HonestRun(cfg, w0, events[..k])
    ensures k < |events| ==> HonestEvent(Run(cfg, w0, events[..k]), events[k])
  {
    if k == |events| {
      assert events[..k] == events;
    } else {
      var earlier := events[..|events| - 1];
      HonestPrefix(cfg, w0, earlier, k);
      assert earlier[..k] == events[..k];
    }
  }

  lemma {:induction false} RunGrows(cfg: Config, w0: World, events: seq<Event>, k: nat)
    requires k <= |events|
    ensures Grows(Run(cfg, w0, events[..k]), Run(cfg, w0, events))
    ensures Run(cfg, w0, events[..k]).now <= Run(cfg, w0, events).now
  {
    if k == |events| {
      assert events[..k] == events;
    } else {
      var init := events[..|events| - 1];
      assert init[..k] == events[..k];
      RunGrows(cfg, w0, init, k);
      StepGrows(cfg, Run(cfg, w0, init), events[|events| - 1]);
    }
  }

  /** The invariant holds after every good run. */
  lemma {:induction false} RunInv(cfg: Config, w0: World, events: seq<Event>)
    requires GoodRun(cfg, w0, events)
    ensures Inv(cfg, Run(cfg, w0, events))
  {
    if events == [] {
      InitialInv(cfg, w0);
    } else {
      var k := |events| - 1;
      GoodPrefix(cfg, w0, events, k);
      HonestPrefix(cfg, w0, events, k);
      RunInv(cfg, w0, events[..k]);
      InvStep(cfg, Run(cfg, w0, events[..k]), events[k]);
    }
  }
}
