/**
 The operator as a transition system. Every API call of every reconcile pass and of the poller is one
 event, and events of different actors interleave freely.
 */
module Machine {
  import opened Glob
  import opened Domain
  import opened Protocol

  // ---- what one task carries

  /** A reconcile pass in flight: the copy of the task it read, its point and its calls so far. */
  datatype Pass = Pass(copy: Task, point: Point, log: seq<Exchange>)

  /**
   `cycle` counts entries to Building. `ready` and `timers` are the work queue: whether the task is queued now, and
   when delayed requeues are due.
   */
  datatype Book = Book(cycle: nat, ready: bool, timers: set<nat>)

  datatype Entry = Entry(task: Task, pass: Option<Pass>, book: Book)

  function NewEntry(name: string, spec: Spec): Entry {
    Entry(Task(name, spec, FRESH), None, Book(0, true, {}))
  }

  // ---- the API server

  /** The namespace a call works in. */
  function Target(call: Call): Option<string> {
    match call
    case CreateNamespace(ns, _) => Some(ns)
    case CreatePolicy(ns, _) => Some(ns)
    case CreateSecret(ns, _) => Some(ns)
    case CreatePod(ns, _, _) => Some(ns)
    case DeleteNamespace(ns) => Some(ns)
    case DeletePod(ns, _) => Some(ns)
    case GetPod(ns, _) => Some(ns)
    case _ => None
  }

  /** Effect of a call on the namespace it works in, with the reply. A call that fails has no effect. */
  function Serve(sp: Option<Space>, call: Call, ans: Answer, lifetime: nat, cycle: nat): (Option<Space>, Reply) {
    if ans.Fails? then (sp, Err)
    else match call
      case CreateNamespace(_, owner) =>
        if sp.Some? then (sp, AlreadyExists) else (Some(Space(lifetime, owner, None, None, map[])), Done)
      case CreatePolicy(_, egress) =>
        if sp.None? then (sp, NotFound)
        else if sp.value.policy.Some? then (sp, AlreadyExists)
        else (Some(sp.value.(policy := Some(egress))), Done)
      case CreateSecret(_, creds) =>
        if sp.None? then (sp, NotFound)
        else if sp.value.secret.Some? then (sp, AlreadyExists)
        else (Some(sp.value.(secret := Some(creds))), Done)
      case CreatePod(_, pod, spec) =>
        if sp.None? then (sp, NotFound)
        else if pod in sp.value.pods then (sp, AlreadyExists)
        else (Some(sp.value.(pods := sp.value.pods[pod := Pod(spec, PodPending, cycle)])), Done)
      case DeleteNamespace(_) =>
        if sp.None? then (sp, NotFound) else (None, Done)
      case DeletePod(_, pod) =>
        if sp.None? || pod !in sp.value.pods then (sp, NotFound) else (WithoutPod(sp, pod), Done)
      case GetPod(_, pod) =>
        if sp.None? || pod !in sp.value.pods then (sp, NotFound) else (sp, GotPod(sp.value.pods[pod]))
      case UpdateStatus(_) => (sp, Done)
      case ReadCredentials => (sp, Got(ans))
      case GitHub(_) => (sp, Got(ans))
      case NoCall => (sp, Err)
  }

  function WithoutPod(sp: Option<Space>, pod: string): Option<Space> {
    if sp.None? then None else Some(sp.value.(pods := sp.value.pods - {pod}))
  }

  function MovePod(sp: Option<Space>, pod: string, phase: PodPhase): Option<Space> {
    if sp.None? || pod !in sp.value.pods then sp
    else Some(sp.value.(pods := sp.value.pods[pod := sp.value.pods[pod].(phase := phase)]))
  }

  // ---- steps of one task

  /** The status write: a stored change raises a watch event, which queues the task. */
  function Stored(e: Entry, status: Status): Entry {
    e.(task := e.task.(status := status),
       book := e.book.(ready := true,
                       cycle := if status.phase.Building? && !e.task.status.phase.Building? then e.book.cycle + 1
                                else e.book.cycle))
  }

  /** One API call of a pass: its effect, its reply, and the point it leads to. */
  function Advance(cfg: Config, e: Entry, sp: Option<Space>, ans: Answer, now: nat, lifetime: nat): (Entry, Option<Space>)
    requires e.pass.Some?
  {
    var p := e.pass.value;
    var call := CallAt(cfg, p.copy, p.point);
    if call.NoCall? then (e, sp)
    else
      var (sp', rep) := Serve(sp, call, ans, lifetime, e.book.cycle + 1);
      var stored := if call.UpdateStatus? && rep.Done? then Stored(e, call.status) else e;
      var next := Pass(p.copy, After(cfg, p.copy, p.point, rep, now), p.log + [Exchange(call, rep)]);
      (stored.(pass := Some(next)), sp')
  }

  /** A call that is not the status write moves the pass on and leaves the stored task. */
  lemma CallLogged(cfg: Config, e: Entry, sp: Option<Space>, ans: Answer, now: nat, lifetime: nat) returns (rep: Reply)
    requires e.pass.Some? && !e.pass.value.point.Return? && !e.pass.value.point.Write?
    ensures var p, e' := e.pass.value, Advance(cfg, e, sp, ans, now, lifetime).0;
            && e'.pass == Some(Pass(p.copy, After(cfg, p.copy, p.point, rep, now),
                                    p.log + [Exchange(CallAt(cfg, p.copy, p.point), rep)]))
            && e'.task == e.task && e'.book.cycle == e.book.cycle
  {
    var p := e.pass.value;
    rep := Serve(sp, CallAt(cfg, p.copy, p.point), ans, lifetime, e.book.cycle + 1).1;
  }

  function Started(cfg: Config, e: Entry, now: nat): Entry {
    if e.pass.Some? || !e.book.ready then e
    else e.(pass := Some(Pass(e.task, Begin(cfg, e.task, now), [])), book := e.book.(ready := false))
  }

  /** The work queue's handling of a finished pass: errors are retried, a positive delay sets a timer. */
  function Finished(e: Entry, now: nat): Entry {
    if e.pass.None? || !e.pass.value.point.Return? then e
    else
      var pt := e.pass.value.point;
      e.(pass := None,
         book := if pt.failed then e.book.(ready := true)
                 else if pt.res.after > 0 then e.book.(timers := e.book.timers + {now + pt.res.after})
                 else e.book)
  }

  function Fired(e: Entry, due: nat, now: nat): Entry {
    if due in e.book.timers && due <= now
    then e.(book := e.book.(timers := e.book.timers - {due}, ready := true)) else e
  }

  /** A restarted operator forgets its passes and timers and lists every task again. */
  function Restarted(e: Entry): Entry {
    e.(pass := None, book := e.book.(ready := true, timers := {}))
  }

  // ---- the poller

  datatype Poll =
    | Idle
    | PollCreds(repo: string)
    | PollIssues(repo: string)
    | PollCount(repo: string, issues: seq<Issue>)
    | PollLookup(repo: string, issues: seq<Issue>, active: nat)
    | PollCreate(repo: string, issues: seq<Issue>, active: nat)

  datatype PollAnswer = PollFails | PollWorks | PollListed(issues: seq<Issue>)

  /** The head of the loop over the issues: pull requests in the list are passed over. */
  function NextIssue(repo: string, issues: seq<Issue>, active: nat): (poll: Poll)
    ensures poll.Idle? || (poll.PollLookup? && poll.issues != [] && poll.active == active)
  {
    if issues == [] then Idle
    else if issues[0].isPullRequest then NextIssue(repo, issues[1..], active)
    else PollLookup(repo, issues, active)
  }

  // ---- the whole

  datatype World = World(tasks: map<string, Entry>, spaces: map<string, Space>, poll: Poll, now: nat, lifetimes: nat)

  datatype Event =
    | Tick(seconds: nat)
    | PodMoves(ns: string, pod: string, phase: PodPhase)
    | PodVanishes(ns: string, pod: string)
    | Submit(name: string, spec: Spec)
    | TimerFires(name: string, due: nat)
    | Start(name: string)
    | Answered(name: string, ans: Answer)
    | Finish(name: string)
    | Restart
    | PollStart(repo: string)
    | PollAnswered(pollAns: PollAnswer)

  function Lookup(spaces: map<string, Space>, ns: string): Option<Space> {
    if ns in spaces then Some(spaces[ns]) else None
  }

  function Store(spaces: map<string, Space>, ns: string, sp: Option<Space>): map<string, Space> {
    if sp.Some? then spaces[ns := sp.value] else spaces - {ns}
  }

  function ActiveTasks(tasks: map<string, Entry>): set<string> {
    set n | n in tasks && !IsTerminal(tasks[n].task.status.phase)
  }

  function WithTask(w: World, name: string, e: Entry): World {
    w.(tasks := w.tasks[name := e])
  }

  /** Creation is refused for a name in use or not admissible, and for a spec the schema does not admit. */
  predicate CanCreate(w: World, name: string, spec: Spec) {
    name !in w.tasks && IsObjectName(name) && ValidSpec(spec)
  }

  function Home(e: Entry): string {
    TaskNamespace(e.task.spec)
  }

  /** The namespace that the pending call of a pass works in, or else the task's own. */
  function Workplace(cfg: Config, e: Entry): string
    requires e.pass.Some?
  {
    var target := Target(CallAt(cfg, e.pass.value.copy, e.pass.value.point));
    if target.Some? then target.value else Home(e)
  }

  /** The pending call of a task's pass completes. */
  function AnsweredStep(cfg: Config, w: World, name: string, ans: Answer): World {
    if name !in w.tasks || w.tasks[name].pass.None? then w
    else
      var e := w.tasks[name];
      var ns := Workplace(cfg, e);
      var (e', sp') := Advance(cfg, e, Lookup(w.spaces, ns), ans, w.now, w.lifetimes);
      if Target(CallAt(cfg, e.pass.value.copy, e.pass.value.point)).None? then WithTask(w, name, e')
      else World(w.tasks[name := e'], Store(w.spaces, ns, sp'), w.poll, w.now, w.lifetimes + 1)
  }

  function PollStep(cfg: Config, w: World, ans: PollAnswer): World {
    match w.poll
    case Idle => w
    case PollCreds(repo) =>
      w.(poll := if ans.PollFails? || '/' !in repo then Idle else PollIssues(repo))
    case PollIssues(repo) =>
      w.(poll := if ans.PollListed? then PollCount(repo, ans.issues) else Idle)
    case PollCount(repo, issues) =>
      w.(poll := if ans.PollFails? then Idle else NextIssue(repo, issues, |ActiveTasks(w.tasks)|))
    case PollLookup(repo, issues, active) =>
      if issues == [] then w.(poll := Idle)
      else if ans.PollFails? || TaskName(repo, issues[0].number) in w.tasks || active >= cfg.maxTasks
      then w.(poll := NextIssue(repo, issues[1..], active))
      else w.(poll := PollCreate(repo, issues, active))
    case PollCreate(repo, issues, active) =>
      if issues == [] then w.(poll := Idle)
      else
        var name, spec := TaskName(repo, issues[0].number), Spec(issues[0].number, repo);
        if ans.PollFails? || !CanCreate(w, name, spec) then w.(poll := NextIssue(repo, issues[1..], active))
        else WithTask(w, name, NewEntry(name, spec)).(poll := NextIssue(repo, issues[1..], active + 1))
  }

  function Next(cfg: Config, w: World, event: Event): World {
    match event
    case Tick(seconds) => w.(now := w.now + seconds)
    case PodMoves(ns, pod, phase) => w.(spaces := Store(w.spaces, ns, MovePod(Lookup(w.spaces, ns), pod, phase)))
    case PodVanishes(ns, pod) => w.(spaces := Store(w.spaces, ns, WithoutPod(Lookup(w.spaces, ns), pod)))
    case Submit(name, spec) => if CanCreate(w, name, spec) then WithTask(w, name, NewEntry(name, spec)) else w
    case TimerFires(name, due) => if name in w.tasks then WithTask(w, name, Fired(w.tasks[name], due, w.now)) else w
    case Start(name) => if name in w.tasks then WithTask(w, name, Started(cfg, w.tasks[name], w.now)) else w
    case Answered(name, ans) => AnsweredStep(cfg, w, name, ans)
    case Finish(name) => if name in w.tasks then WithTask(w, name, Finished(w.tasks[name], w.now)) else w
    case Restart => w.(tasks := map n | n in w.tasks :: Restarted(w.tasks[n]), poll := Idle)
    case PollStart(repo) => if w.poll.Idle? then w.(poll := PollCreds(repo)) else w
    case PollAnswered(ans) => PollStep(cfg, w, ans)
  }

  /** The world after a sequence of events. */
  function Run(cfg: Config, w: World, events: seq<Event>): World {
    if events == [] then w else Next(cfg, Run(cfg, w, events[..|events| - 1]), events[|events| - 1])
  }

  lemma RunStep(cfg: Config, w: World, events: seq<Event>, event: Event)
    ensures Run(cfg, w, events + [event]) == Next(cfg, Run(cfg, w, events), event)
  {
    assert (events + [event])[..|events|] == events;
  }

  lemma {:induction false} RunConcat(cfg: Config, w: World, xs: seq<Event>, ys: seq<Event>)
    ensures Run(cfg, w, xs + ys) == Run(cfg, Run(cfg, w, xs), ys)
  {
    if ys == [] {
      assert xs + ys == xs;
    } else {
      var init := ys[..|ys| - 1];
      RunConcat(cfg, w, xs, init);
      assert (xs + ys)[..|xs + ys| - 1] == xs + init;
    }
  }
}
