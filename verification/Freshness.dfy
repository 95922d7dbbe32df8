/**
 Which pod a task works with: exactly when the pod that getPod prefers is the one of the latest spawn, at every moment,
 and which pod a pass goes by.
 */
module Freshness {
  import opened Glob
  import opened Domain
  import opened Protocol
  import opened Machine
  import opened TaskInvariant
  import opened Safety
  import opened View
  import opened Lifecycle
  import opened Entries

  // ---- from the entry on

  /** An active task's pod of that name, before and after: it stays, or vanishes, or goes with the namespace. */
  predicate PodStays(sp: Option<Space>, sp': Option<Space>, pod: string, gone: bool) {
    && (pod in Pods(sp') ==>
          && pod in Pods(sp) && Pods(sp')[pod].cycle == Pods(sp)[pod].cycle && Pods(sp')[pod].spec == Pods(sp)[pod].spec)
    && (CurrentPod(sp').Some? ==> (pod in Pods(sp') <==> pod in Pods(sp) && !gone))
  }

  lemma ActiveNext(cfg: Config, v: Seen, n: string, event: Event, now: nat, lifetimes: nat, pod: string)
    requires TaskInv(cfg, v.entry, v.space, now) && IsActive(v.entry.task.status.phase)
    ensures var v' := ViewStep(cfg, v, n, event, now, lifetimes);
            && v'.entry.book.cycle == v.entry.book.cycle
            && PodStays(v.space, v'.space, pod, event == PodVanishes(Home(v.entry), pod))
  {
    if event.Answered? && event.name == n && v.entry.pass.Some? {
      ActiveCall(cfg, v.entry, v.space, event.ans, now, lifetimes);
    } else {
      if event.PodMoves? {
        MovedPods(v.space, event.pod, event.phase);
        assert pod in Pods(MovePod(v.space, event.pod, event.phase)) <==> pod in Pods(v.space).Keys;
      }
    }
  }

  lemma ActiveCall(cfg: Config, e: Entry, sp: Option<Space>, ans: Answer, now: nat, lifetime: nat)
    requires CoreOk(cfg, e, sp, now) && e.pass.Some? && IsActive(e.task.status.phase)
    ensures var (e', sp') := Advance(cfg, e, sp, ans, now, lifetime);
            e'.book.cycle == e.book.cycle && (sp' == sp || sp'.None?)
  {
    if Writing(e) {
      WriteLogged(cfg, e, sp, ans, now, lifetime);
    }
  }

  /** When a pod of an active task vanishes, one of an earlier cycle takes its place exactly if agent-rev goes and agent stays. */
  lemma VanishedExactly(cfg: Config, w0: World, events: seq<Event>, k: nat, n: string)
    requires GoodRun(cfg, w0, events) && k < |events| && n in At(cfg, w0, events, k).tasks
    requires var w := At(cfg, w0, events, k);
             && events[k].PodVanishes? && events[k].ns == Home(w.tasks[n])
             && IsActive(w.tasks[n].task.status.phase)
             && HasFreshPod(SpaceOf(w, n), w.tasks[n].book.cycle)
    ensures n in At(cfg, w0, events, k + 1).tasks
    ensures var w, w' := At(cfg, w0, events, k), At(cfg, w0, events, k + 1);
            && w'.tasks[n].book.cycle == w.tasks[n].book.cycle
            && (CurrentPod(SpaceOf(w', n)).Some? && CurrentPod(SpaceOf(w', n)).value.cycle != w'.tasks[n].book.cycle <==>
                  events[k].pod == AGENT_REV && AGENT_REV in Pods(SpaceOf(w, n)) && AGENT in Pods(SpaceOf(w, n)))
  {
    AtView(cfg, w0, events, k, n);
    var w := At(cfg, w0, events, k);
    LosesPod(w.tasks[n], SpaceOf(w, n), events[k].pod);
  }

  lemma LosesPod(e: Entry, sp: Option<Space>, pod: string)
    requires CyclesOk(e, sp) && IsActive(e.task.status.phase) && HasFreshPod(sp, e.book.cycle)
    ensures var sp' := WithoutPod(sp, pod);
            CurrentPod(sp').Some? && CurrentPod(sp').value.cycle != e.book.cycle <==>
              pod == AGENT_REV && AGENT_REV in Pods(sp) && AGENT in Pods(sp)
  {
  }

  /** Nothing else changes which pod an active task's current pod is of: it stays of its cycle, or goes. */
  lemma OtherwiseKept(cfg: Config, w0: World, events: seq<Event>, k: nat, n: string)
    requires GoodRun(cfg, w0, events) && k < |events| && n in At(cfg, w0, events, k).tasks
    requires var w := At(cfg, w0, events, k);
             IsActive(w.tasks[n].task.status.phase) && !(events[k].PodVanishes? && events[k].ns == Home(w.tasks[n]))
    ensures n in At(cfg, w0, events, k + 1).tasks
    ensures var w, w' := At(cfg, w0, events, k), At(cfg, w0, events, k + 1);
            var now, later := CurrentPod(SpaceOf(w, n)), CurrentPod(SpaceOf(w', n));
            && w'.tasks[n].book.cycle == w.tasks[n].book.cycle
            && (later.Some? ==> now.Some? && later.value.cycle == now.value.cycle && later.value.spec == now.value.spec)
  {
    AtView(cfg, w0, events, k, n);
    var w := At(cfg, w0, events, k);
    ActiveNext(cfg, ViewOf(w, n), n, events[k], w.now, w.lifetimes, AGENT);
    ActiveNext(cfg, ViewOf(w, n), n, events[k], w.now, w.lifetimes, AGENT_REV);
  }

  /** The agent pods of an active task are those of its entry that have not vanished since. */
  ghost predicate StaysFrom(cfg: Config, w0: World, events: seq<Event>, i: nat, j: nat, n: string)
    requires i <= j <= |events|
  {
    && n in At(cfg, w0, events, i).tasks && n in At(cfg, w0, events, j).tasks
    && var w, w' := At(cfg, w0, events, i), At(cfg, w0, events, j);
       && w'.tasks[n].book.cycle == w.tasks[n].book.cycle && Home(w'.tasks[n]) == Home(w.tasks[n])
       && PodStays(SpaceOf(w, n), SpaceOf(w', n), AGENT, Vanishes(events, i, j, Home(w.tasks[n]), AGENT))
       && PodStays(SpaceOf(w, n), SpaceOf(w', n), AGENT_REV, Vanishes(events, i, j, Home(w.tasks[n]), AGENT_REV))
  }

  lemma StaysNext(cfg: Config, w0: World, events: seq<Event>, i: nat, j: nat, n: string)
    requires GoodRun(cfg, w0, events) && i <= j < |events| && StaysFrom(cfg, w0, events, i, j, n)
    requires IsActive(At(cfg, w0, events, j).tasks[n].task.status.phase)
    ensures StaysFrom(cfg, w0, events, i, j + 1, n)
  {
    var w := At(cfg, w0, events, j);
    AtView(cfg, w0, events, j, n);
    ActiveNext(cfg, ViewOf(w, n), n, events[j], w.now, w.lifetimes, AGENT);
    ActiveNext(cfg, ViewOf(w, n), n, events[j], w.now, w.lifetimes, AGENT_REV);
    VanishesNext(events, i, j, Home(w.tasks[n]), AGENT);
    VanishesNext(events, i, j, Home(w.tasks[n]), AGENT_REV);
  }

  /** An active task has entered Building, and been active since. */
  lemma {:induction false} EnteredBefore(cfg: Config, w0: World, events: seq<Event>, j: nat, n: string) returns (k: nat)
    requires GoodRun(cfg, w0, events) && j <= |events| && n in At(cfg, w0, events, j).tasks
    requires IsActive(At(cfg, w0, events, j).tasks[n].task.status.phase)
    ensures k < j && Enters(cfg, w0, events, k, n, At(cfg, w0, events, k), At(cfg, w0, events, k + 1))
    ensures StaysFrom(cfg, w0, events, k + 1, j, n)
    decreases j
  {
    hide *;
    var earlier := ActiveBefore(cfg, w0, events, j, n);
    if earlier {
      k := EnteredBefore(cfg, w0, events, j - 1, n);
      StaysNext(cfg, w0, events, k + 1, j - 1, n);
    } else {
      k := j - 1;
    }
  }

  /** An active task was active before the last event, or that event was its entry to Building. */
  lemma ActiveBefore(cfg: Config, w0: World, events: seq<Event>, j: nat, n: string) returns (earlier: bool)
    requires GoodRun(cfg, w0, events) && j <= |events| && n in At(cfg, w0, events, j).tasks
    requires IsActive(At(cfg, w0, events, j).tasks[n].task.status.phase)
    ensures j > 0
    ensures earlier ==>
              n in At(cfg, w0, events, j - 1).tasks && IsActive(At(cfg, w0, events, j - 1).tasks[n].task.status.phase)
    ensures !earlier ==>
              && Enters(cfg, w0, events, j - 1, n, At(cfg, w0, events, j - 1), At(cfg, w0, events, j))
              && StaysFrom(cfg, w0, events, j, j, n)
  {
    WasThere(cfg, w0, events, j, n);
    NextStatus(cfg, w0, events, j - 1, n);
    earlier := IsActive(At(cfg, w0, events, j - 1).tasks[n].task.status.phase);
  }

  /**
   At every moment of every run, a current pod of an active task is the one of the latest spawn exactly if the pod in
   front at the entry was: agent-rev, unless it was absent or has vanished since, and then agent.
   */
  lemma FreshSinceEntry(cfg: Config, w0: World, events: seq<Event>, j: nat, n: string) returns (k: nat)
    requires GoodRun(cfg, w0, events) && j <= |events| && n in At(cfg, w0, events, j).tasks
    requires var w := At(cfg, w0, events, j); IsActive(w.tasks[n].task.status.phase) && CurrentPod(SpaceOf(w, n)).Some?
    ensures k < j && Enters(cfg, w0, events, k, n, At(cfg, w0, events, k), At(cfg, w0, events, k + 1))
    ensures var w, w' := At(cfg, w0, events, k + 1), At(cfg, w0, events, j);
            var pods, c := Pods(SpaceOf(w, n)), w.tasks[n].book.cycle;
            var front := if AGENT_REV in pods && !Vanishes(events, k + 1, j, Home(w.tasks[n]), AGENT_REV)
                         then AGENT_REV else AGENT;
            && w'.tasks[n].book.cycle == c
            && front in pods
            && (HasFreshPod(SpaceOf(w', n), c) <==> pods[front].cycle == c)
  {
    k := EnteredBefore(cfg, w0, events, j, n);
  }

  // ---- without losses

  /** The event is no loss for `n`: no deletion by its own pass fails, and no pod in its namespace vanishes. */
  predicate Spares(w: World, event: Event, n: string) {
    n in w.tasks ==>
      && !(Deletes(ViewOf(w, n), event, n) && event.ans.Fails?)
      && !(event.PodVanishes? && event.ns == Home(w.tasks[n]))
  }

  ghost predicate SparesAt(cfg: Config, w0: World, events: seq<Event>, k: nat, n: string)
    requires k < |events|
  {
    Spares(At(cfg, w0, events, k), events[k], n)
  }

  /** No event of the run so far is a loss for `n`. */
  ghost predicate NoLoss(cfg: Config, w0: World, events: seq<Event>, j: nat, n: string)
    requires j <= |events|
  {
    forall k :: 0 <= k < j ==> SparesAt(cfg, w0, events, k, n)
  }

  lemma NoneVanishes(cfg: Config, w0: World, events: seq<Event>, i: nat, j: nat, n: string, pod: string)
    requires i <= j <= |events| && NoLoss(cfg, w0, events, j, n) && n in At(cfg, w0, events, i).tasks
    ensures !Vanishes(events, i, j, Home(At(cfg, w0, events, i).tasks[n]), pod)
  {
    forall k | i <= k < j ensures events[k] != PodVanishes(Home(At(cfg, w0, events, i).tasks[n]), pod) {
      assert SparesAt(cfg, w0, events, k, n);
      AtGrows(cfg, w0, events, i, k);
    }
  }

  /** Without losses, every entry to Building finds the pod of its own spawn current. */
  lemma EntryIsFresh(cfg: Config, w0: World, events: seq<Event>, k: nat, n: string, w: World, w': World)
    requires Enters(cfg, w0, events, k, n, w, w') && NoLoss(cfg, w0, events, k, n)
    ensures HasFreshPod(SpaceOf(w', n), w'.tasks[n].book.cycle)
  {
    var p := EntryFrom(cfg, w0, events, k, n, w, w');
    AtGrows(cfg, w0, events, p, p + 1);
    NoneVanishes(cfg, w0, events, p + 1, k, n, AGENT);
    NoneVanishes(cfg, w0, events, p + 1, k, n, AGENT_REV);
    NothingLeft(cfg, w0, events, p, n);
  }

  /** No leftover is in the way of the spawn that the task waits for or is in. */
  predicate Unobstructed(e: Entry, sp: Option<Space>) {
    && (e.task.status.phase.Unset? ==> !Leftover(sp, AGENT, e.book.cycle))
    && (InRevision(e) ==> !Leftover(sp, AGENT_REV, e.book.cycle))
    && (Blocked(e) ==> !Leftover(sp, AGENT, e.book.cycle) && !Leftover(sp, AGENT_REV, e.book.cycle))
  }

  /** Without losses, nothing is ever in the way. */
  lemma NothingLeft(cfg: Config, w0: World, events: seq<Event>, p: nat, n: string)
    requires GoodRun(cfg, w0, events) && p <= |events| && n in At(cfg, w0, events, p).tasks
    requires NoLoss(cfg, w0, events, p, n)
    ensures Unobstructed(At(cfg, w0, events, p).tasks[n], SpaceOf(At(cfg, w0, events, p), n))
  {
    AtAny(cfg, w0, events, p);
    assert TaskOk(cfg, At(cfg, w0, events, p), n);
    var e, sp := At(cfg, w0, events, p).tasks[n], SpaceOf(At(cfg, w0, events, p), n);
    if e.task.status.phase.Unset? {
      NoPastBefore(e, sp);
    }
    if InRevision(e) {
      var d := DroppedBefore(cfg, w0, events, p, n);
      assert SparesAt(cfg, w0, events, d, n);
    }
    if Blocked(e) {
      var d := ClearedBefore(cfg, w0, events, p, n);
      assert SparesAt(cfg, w0, events, d, n);
    }
  }

  /**
   As long as no deletion by a task's own passes fails and none of its pods vanishes, the pod that getPod prefers for
   it while it is active is the one of the latest spawn, at every moment and over any number of cycles.
   */
  lemma PodAlwaysFresh(cfg: Config, w0: World, events: seq<Event>, j: nat, n: string)
    requires GoodRun(cfg, w0, events) && j <= |events| && n in At(cfg, w0, events, j).tasks
    requires NoLoss(cfg, w0, events, j, n)
    requires IsActive(At(cfg, w0, events, j).tasks[n].task.status.phase)
    ensures var w := At(cfg, w0, events, j);
            CurrentPod(SpaceOf(w, n)).Some? ==> HasFreshPod(SpaceOf(w, n), w.tasks[n].book.cycle)
  {
    if CurrentPod(SpaceOf(At(cfg, w0, events, j), n)).Some? {
      var k := EnteredBefore(cfg, w0, events, j, n);
      EntryIsFresh(cfg, w0, events, k, n, At(cfg, w0, events, k), At(cfg, w0, events, k + 1));
      NoneVanishes(cfg, w0, events, k + 1, j, n, AGENT_REV);
      NoneVanishes(cfg, w0, events, k + 1, j, n, AGENT);
    }
  }

  // ---- the pod a pass goes by

  /** The pod that a read asks for. */
  function PodAsked(pt: Point): string {
    if pt.GetRevisionPod? then AGENT_REV else AGENT
  }

  predicate AsksForPod(pt: Point) {
    pt.GetRevisionPod? || pt.GetAgentPod?
  }

  /** Event `r` answers the pod read of a pass of `n` that first finds a pod. */
  ghost predicate ReadsDriver(cfg: Config, w0: World, events: seq<Event>, r: nat, n: string) {
    && GoodRun(cfg, w0, events) && r < |events|
    && Answers(At(cfg, w0, events, r), events[r], n) && n in At(cfg, w0, events, r + 1).tasks
    && var p := At(cfg, w0, events, r).tasks[n].pass.value;
       && AsksForPod(p.point) && Driver(p.log).None?
       && var q := At(cfg, w0, events, r + 1).tasks[n].pass;
          q.Some? && Driver(q.value.log).Some?
  }

  lemma PodRead(cfg: Config, e: Entry, sp: Option<Space>, ans: Answer, now: nat, lifetime: nat)
    requires TaskInv(cfg, e, sp, now) && e.pass.Some? && AsksForPod(e.pass.value.point) && Driver(e.pass.value.log).None?
    ensures var e' := Advance(cfg, e, sp, ans, now, lifetime).0;
            && e'.pass.Some? && e'.book == e.book && e'.pass.value.copy == e.task && IsActive(e.task.status.phase)
            && (Driver(e'.pass.value.log).Some? ==>
                  && PodAsked(e.pass.value.point) in Pods(sp)
                  && Driver(e'.pass.value.log).value == Pods(sp)[PodAsked(e.pass.value.point)])
  {
    var p := e.pass.value;
    ReadAnswered(cfg, e, sp, ans, now, lifetime);
    PodFound(cfg, p.copy, p.log, p.point, sp, ans);
  }

  lemma PodFound(cfg: Config, task: Task, log: seq<Exchange>, pt: Point, sp: Option<Space>, ans: Answer)
    requires AsksForPod(pt) && Driver(log).None?
    ensures var longer := log + [Exchange(CallAt(cfg, task, pt), ReplyTo(cfg, task, pt, sp, ans))];
            Driver(longer).Some? ==> PodAsked(pt) in Pods(sp) && Driver(longer).value == Pods(sp)[PodAsked(pt)]
  {
    LogAppend(task, log, Exchange(CallAt(cfg, task, pt), ReplyTo(cfg, task, pt, sp, ans)));
  }

  /** The rest of the pass keeps the first pod read, and the cycle. */
  lemma DriverStays(cfg: Config, v: Seen, n: string, event: Event, now: nat, lifetimes: nat)
    requires TaskInv(cfg, v.entry, v.space, now)
    requires v.entry.pass.Some? && IsActive(v.entry.pass.value.copy.status.phase) && Driver(v.entry.pass.value.log).Some?
    requires !event.Restart? && event != Finish(n)
    ensures var e, e' := v.entry, ViewStep(cfg, v, n, event, now, lifetimes).entry;
            && e'.pass.Some? && e'.pass.value.copy == e.pass.value.copy
            && Driver(e'.pass.value.log) == Driver(e.pass.value.log) && e'.book.cycle == e.book.cycle
  {
    if event.Answered? && event.name == n {
      AnsweredKeepsDriver(cfg, v.entry, v.space, event.ans, now, lifetimes);
    }
  }

  lemma AnsweredKeepsDriver(cfg: Config, e: Entry, sp: Option<Space>, ans: Answer, now: nat, lifetime: nat)
    requires TaskInv(cfg, e, sp, now)
    requires e.pass.Some? && IsActive(e.pass.value.copy.status.phase) && Driver(e.pass.value.log).Some?
    ensures var e' := Advance(cfg, e, sp, ans, now, lifetime).0;
            && e'.pass.Some? && e'.pass.value.copy == e.pass.value.copy
            && Driver(e'.pass.value.log) == Driver(e.pass.value.log) && e'.book.cycle == e.book.cycle
  {
    if e.pass.value.point.Write? {
      WriteKeepsDriver(cfg, e, sp, ans, now, lifetime);
    } else if !e.pass.value.point.Return? {
      CallKeepsDriver(cfg, e, sp, ans, now, lifetime);
    }
  }

  lemma CallKeepsDriver(cfg: Config, e: Entry, sp: Option<Space>, ans: Answer, now: nat, lifetime: nat)
    requires e.pass.Some? && Driver(e.pass.value.log).Some? && !e.pass.value.point.Return? && !e.pass.value.point.Write?
    ensures var e' := Advance(cfg, e, sp, ans, now, lifetime).0;
            && e'.pass.Some? && e'.pass.value.copy == e.pass.value.copy
            && Driver(e'.pass.value.log) == Driver(e.pass.value.log) && e'.book.cycle == e.book.cycle
  {
    var p := e.pass.value;
    var rep := CallLogged(cfg, e, sp, ans, now, lifetime);
    LogAppend(e.task, p.log, Exchange(CallAt(cfg, p.copy, p.point), rep));
  }

  lemma WriteKeepsDriver(cfg: Config, e: Entry, sp: Option<Space>, ans: Answer, now: nat, lifetime: nat)
    requires e.pass.Some? && Driver(e.pass.value.log).Some? && e.pass.value.point.Write?
    requires Edge(e.task.status.phase, e.pass.value.point.next.phase) && IsActive(e.task.status.phase)
    ensures var e' := Advance(cfg, e, sp, ans, now, lifetime).0;
            && e'.pass.Some? && e'.pass.value.copy == e.pass.value.copy
            && Driver(e'.pass.value.log) == Driver(e.pass.value.log) && e'.book.cycle == e.book.cycle
  {
    var p := e.pass.value;
    WriteLogged(cfg, e, sp, ans, now, lifetime);
    LogAppend(e.task, p.log, Exchange(UpdateStatus(p.point.next), if ans.Fails? then Err else Done));
  }

  /** The pass of `n` in `w'` goes by the pod that was read in `w`. */
  predicate GoesBy(w: World, w': World, n: string) {
    && n in w.tasks && n in w'.tasks && w.tasks[n].pass.Some? && w'.tasks[n].pass.Some?
    && var e, e' := w.tasks[n], w'.tasks[n];
       && e'.pass.value.copy == e.task && IsActive(e.task.status.phase) && e'.book.cycle == e.book.cycle
       && PodAsked(e.pass.value.point) in Pods(SpaceOf(w, n))
       && Driver(e'.pass.value.log) == Some(Pods(SpaceOf(w, n))[PodAsked(e.pass.value.point)])
  }

  lemma DriverRead(cfg: Config, w0: World, events: seq<Event>, r: nat, n: string)
    requires ReadsDriver(cfg, w0, events, r, n)
    ensures GoesBy(At(cfg, w0, events, r), At(cfg, w0, events, r + 1), n)
  {
    var w := At(cfg, w0, events, r);
    AtView(cfg, w0, events, r, n);
    DriverSeen(cfg, ViewOf(w, n), n, events[r], w.now, w.lifetimes);
  }

  lemma DriverSeen(cfg: Config, v: Seen, n: string, event: Event, now: nat, lifetimes: nat)
    requires TaskInv(cfg, v.entry, v.space, now) && event.Answered? && event.name == n && v.entry.pass.Some?
    requires AsksForPod(v.entry.pass.value.point) && Driver(v.entry.pass.value.log).None?
    ensures var e, e' := v.entry, ViewStep(cfg, v, n, event, now, lifetimes).entry;
            && e'.pass.Some? && e'.pass.value.copy == e.task && IsActive(e.task.status.phase)
            && e'.book.cycle == e.book.cycle
            && (Driver(e'.pass.value.log).Some? ==>
                  && PodAsked(e.pass.value.point) in Pods(v.space)
                  && Driver(e'.pass.value.log).value == Pods(v.space)[PodAsked(e.pass.value.point)])
  {
    PodRead(cfg, v.entry, v.space, event.ans, now, lifetimes);
  }

  /** Whatever a pass does after its pod read, it does on the pod found there. */
  lemma {:induction false} DriverFrom(cfg: Config, w0: World, events: seq<Event>, i: nat, j: nat, v: World, n: string)
    requires GoodRun(cfg, w0, events) && i <= j <= |events| && OnePass(events, i, j, n)
    requires GoesBy(v, At(cfg, w0, events, i), n)
    ensures GoesBy(v, At(cfg, w0, events, j), n)
    decreases j
  {
    hide Run;
    if i == j {
    } else {
      DriverFrom(cfg, w0, events, i, j - 1, v, n);
      DriverNext(cfg, w0, events, j - 1, v, n);
    }
  }

  lemma DriverNext(cfg: Config, w0: World, events: seq<Event>, j: nat, v: World, n: string)
    requires GoodRun(cfg, w0, events) && j < |events| && !events[j].Restart? && events[j] != Finish(n)
    requires GoesBy(v, At(cfg, w0, events, j), n)
    ensures GoesBy(v, At(cfg, w0, events, j + 1), n)
  {
    AtView(cfg, w0, events, j, n);
    var w := At(cfg, w0, events, j);
    DriverStays(cfg, ViewOf(w, n), n, events[j], w.now, w.lifetimes);
  }

  /** The initial pod is read although there is a revision pod. */
  predicate PassesOver(e: Entry, sp: Option<Space>)
    requires e.pass.Some?
  {
    e.pass.value.point.GetAgentPod? && AGENT_REV in Pods(sp)
  }

  lemma PodInFront(cfg: Config, e: Entry, sp: Option<Space>, now: nat)
    requires TaskInv(cfg, e, sp, now) && e.pass.Some? && AsksForPod(e.pass.value.point)
    requires PodAsked(e.pass.value.point) in Pods(sp)
    ensures CurrentPod(sp).Some?
    ensures PassesOver(e, sp) ==> Misread(e.pass.value.log)
    ensures HasFreshPod(sp, e.book.cycle) ==>
              (Pods(sp)[PodAsked(e.pass.value.point)].cycle == e.book.cycle <==> !PassesOver(e, sp))
  {
  }

  /**
   With the current pod of the latest spawn at the read, whatever the pass does after it, it does on that pod exactly
   if the read did not pass over a revision pod; and it only does that after a failed read of the revision pod.
   */
  lemma DriverExactly(cfg: Config, w0: World, events: seq<Event>, r: nat, j: nat, n: string)
    requires ReadsDriver(cfg, w0, events, r, n) && r < j <= |events| && OnePass(events, r + 1, j, n)
    requires var w := At(cfg, w0, events, r); HasFreshPod(SpaceOf(w, n), w.tasks[n].book.cycle)
    ensures n in At(cfg, w0, events, j).tasks && At(cfg, w0, events, j).tasks[n].pass.Some?
    ensures var w := At(cfg, w0, events, r);
            var e, e' := w.tasks[n], At(cfg, w0, events, j).tasks[n];
            && IsActive(e'.pass.value.copy.status.phase) && Driver(e'.pass.value.log).Some?
            && (Driver(e'.pass.value.log).value.cycle == e'.book.cycle <==> !PassesOver(e, SpaceOf(w, n)))
            && (PassesOver(e, SpaceOf(w, n)) ==> Misread(e.pass.value.log))
  {
    var w := At(cfg, w0, events, r);
    DriverRead(cfg, w0, events, r, n);
    DriverFrom(cfg, w0, events, r + 1, j, w, n);
    AtView(cfg, w0, events, r, n);
    PodInFront(cfg, w.tasks[n], SpaceOf(w, n), w.now);
  }

  /** Without losses that is so in every run. */
  lemma DrivingPodIsFresh(cfg: Config, w0: World, events: seq<Event>, r: nat, j: nat, n: string)
    requires ReadsDriver(cfg, w0, events, r, n) && r < j <= |events| && OnePass(events, r + 1, j, n)
    requires NoLoss(cfg, w0, events, r, n)
    ensures n in At(cfg, w0, events, j).tasks && At(cfg, w0, events, j).tasks[n].pass.Some?
    ensures var w := At(cfg, w0, events, r);
            var e, e' := w.tasks[n], At(cfg, w0, events, j).tasks[n];
            && IsActive(e'.pass.value.copy.status.phase) && Driver(e'.pass.value.log).Some?
            && (Driver(e'.pass.value.log).value.cycle == e'.book.cycle <==> !PassesOver(e, SpaceOf(w, n)))
            && (PassesOver(e, SpaceOf(w, n)) ==> Misread(e.pass.value.log))
  {
    var w := At(cfg, w0, events, r);
    DriverRead(cfg, w0, events, r, n);
    AtView(cfg, w0, events, r, n);
    PodInFront(cfg, w.tasks[n], SpaceOf(w, n), w.now);
    PodAlwaysFresh(cfg, w0, events, r, n);
    DriverExactly(cfg, w0, events, r, j, n);
  }
}
