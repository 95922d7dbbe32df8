/**
 Entries to Building, and exactly when they find the pod of their own spawn current: each is traced back to the calls
 that it rests on, the creation of the pod and the deletions before it.
 */
module Entries {
  import opened Glob
  import opened Domain
  import opened Protocol
  import opened Machine
  import opened TaskInvariant
  import opened Safety
  import opened View
  import opened Lifecycle

  // ---- the events in question

  /** A pod of that name vanishes in the meantime. */
  predicate Vanishes(events: seq<Event>, i: nat, j: nat, ns: string, pod: string)
    requires j <= |events|
  {
    exists k :: i <= k < j && events[k] == PodVanishes(ns, pod)
  }

  lemma VanishesNext(events: seq<Event>, i: nat, j: nat, ns: string, pod: string)
    requires i <= j < |events|
    ensures Vanishes(events, i, j + 1, ns, pod) <==> Vanishes(events, i, j, ns, pod) || events[j] == PodVanishes(ns, pod)
  {
  }

  /** The event answers the deletion of the old revision pod. */
  predicate DropsRevisionPod(w: World, event: Event, n: string) {
    Answers(w, event, n) && w.tasks[n].pass.value.point.DropRevisionPod?
  }

  /** The event answers a deletion of the task's namespace. */
  predicate TearsDown(w: World, event: Event, n: string) {
    Answers(w, event, n) && w.tasks[n].pass.value.point.DropNamespace?
  }

  /** The event answers the creation of an agent pod. */
  predicate CreatesPod(w: World, event: Event, n: string) {
    Answers(w, event, n) && w.tasks[n].pass.value.point.EnsurePod?
  }

  /** None of `n`'s passes deletes its namespace in the meantime. */
  ghost predicate NoTeardown(cfg: Config, w0: World, events: seq<Event>, i: nat, j: nat, n: string)
    requires j <= |events|
  {
    forall k :: i <= k < j ==> !TearsDownAt(cfg, w0, events, k, n)
  }

  ghost predicate TearsDownAt(cfg: Config, w0: World, events: seq<Event>, k: nat, n: string)
    requires k < |events|
  {
    TearsDown(At(cfg, w0, events, k), events[k], n)
  }

  lemma NoTeardownNext(cfg: Config, w0: World, events: seq<Event>, i: nat, j: nat, n: string)
    requires i <= j < |events| && NoTeardown(cfg, w0, events, i, j, n) && !TearsDownAt(cfg, w0, events, j, n)
    ensures NoTeardown(cfg, w0, events, i, j + 1, n)
  {
    hide Run;
  }

  lemma NoTeardownYet(cfg: Config, w0: World, events: seq<Event>, i: nat, n: string)
    requires i <= |events|
    ensures NoTeardown(cfg, w0, events, i, i, n)
  {
    hide Run;
  }

  // ---- pods across one event

  /** The event answers a call of the task's own pass that deletes. */
  predicate Deletes(v: Seen, event: Event, n: string) {
    && event.Answered? && event.name == n && v.entry.pass.Some?
    && (v.entry.pass.value.point.DropNamespace? || v.entry.pass.value.point.DropRevisionPod?)
  }

  /** A pod of a past cycle stays until it is deleted or vanishes, and no new one comes. */
  lemma LeftoverNext(cfg: Config, v: Seen, n: string, event: Event, now: nat, lifetimes: nat, pod: string)
    requires !Deletes(v, event, n)
    ensures var c := v.entry.book.cycle;
            Leftover(ViewStep(cfg, v, n, event, now, lifetimes).space, pod, c) <==>
              Leftover(v.space, pod, c) && event != PodVanishes(Home(v.entry), pod)
  {
    if event.Answered? && event.name == n && v.entry.pass.Some? {
      LeftoverCall(cfg, v.entry, v.space, event.ans, now, lifetimes, pod);
    } else if event.PodMoves? {
      MovedPods(v.space, event.pod, event.phase);
      assert pod in Pods(MovePod(v.space, event.pod, event.phase)) <==> pod in Pods(v.space).Keys;
    }
  }

  lemma LeftoverCall(cfg: Config, e: Entry, sp: Option<Space>, ans: Answer, now: nat, lifetime: nat, pod: string)
    requires e.pass.Some? && !e.pass.value.point.DropNamespace? && !e.pass.value.point.DropRevisionPod?
    ensures Leftover(Advance(cfg, e, sp, ans, now, lifetime).1, pod, e.book.cycle) <==> Leftover(sp, pod, e.book.cycle)
  {
    if LeavesPods(e.pass.value.point) {
      PodsLeft(cfg, e, sp, ans, now, lifetime);
    }
  }

  // ---- back from an entry to Building to the calls it rests on

  predicate IsSpawning(phase: Phase) {
    phase.Unset? || phase.AwaitingRevision? || phase.BlockedOnClarification?
  }

  function PlanOf(phase: Phase): Plan
    requires IsSpawning(phase)
  {
    if phase.Unset? then First else if phase.AwaitingRevision? then Revise else Resume
  }

  /** The pass is about to write that the task is in Building. */
  predicate AboutToBuild(e: Entry) {
    Writing(e) && e.pass.value.point.next.phase.Building?
  }

  predicate AboutToBlock(e: Entry) {
    Writing(e) && e.pass.value.point.next.phase.BlockedOnClarification?
  }

  /** The pass of `e'` is that of `e`, as far or further along. */
  predicate SamePass(e: Entry, e': Entry) {
    e.pass.Some? && e'.pass.Some? && e'.pass.value.copy == e.pass.value.copy && e.pass.value.log <= e'.pass.value.log
  }

  lemma BuildingNext(cfg: Config, v: Seen, n: string, event: Event, now: nat, lifetimes: nat)
    requires TaskInv(cfg, v.entry, v.space, now)
    requires AboutToBuild(ViewStep(cfg, v, n, event, now, lifetimes).entry)
    ensures var v' := ViewStep(cfg, v, n, event, now, lifetimes);
            && v'.entry.task == v.entry.task && v'.entry.book.cycle == v.entry.book.cycle
            && IsSpawning(v.entry.task.status.phase) && SamePass(v.entry, v'.entry)
            && if AboutToBuild(v.entry) then !(event.Answered? && event.name == n)
               else && event.Answered? && event.name == n && !event.ans.Fails?
                    && v.entry.pass.value.point == EnsurePod(PlanOf(v.entry.task.status.phase))
                    && PodName(PlanOf(v.entry.task.status.phase)) in Pods(v'.space)
  {
    if event.Answered? && event.name == n && v.entry.pass.Some? {
      BuildingCall(cfg, v.entry, v.space, event.ans, now, lifetimes);
    }
  }

  lemma BuildingCall(cfg: Config, e: Entry, sp: Option<Space>, ans: Answer, now: nat, lifetime: nat)
    requires CoreOk(cfg, e, sp, now) && e.pass.Some? && AboutToBuild(Advance(cfg, e, sp, ans, now, lifetime).0)
    ensures var (e', sp') := Advance(cfg, e, sp, ans, now, lifetime);
            && e'.task == e.task && e'.book.cycle == e.book.cycle && IsSpawning(e.task.status.phase) && SamePass(e, e')
            && !ans.Fails? && e.pass.value.point == EnsurePod(PlanOf(e.task.status.phase))
            && PodName(PlanOf(e.task.status.phase)) in Pods(sp')
  {
    if Reads(e.pass.value.point) {
      var rep := CallReads(cfg, e, sp, ans, now, lifetime);
      ReadsBuildNothing(cfg, e.pass.value.copy, e.pass.value.point, rep, now);
    }
  }

  lemma ReadsBuildNothing(cfg: Config, task: Task, pt: Point, rep: Reply, now: nat)
    requires Reads(pt)
    ensures var next := After(cfg, task, pt, rep, now);
            next.Write? ==> !next.next.phase.Building? && !next.next.phase.BlockedOnClarification?
  {
  }

  /** Which pods of past cycles are there at `k`, from those at `i`: all but the vanished. */
  ghost predicate LeftFrom(cfg: Config, w0: World, events: seq<Event>, i: nat, k: nat, n: string, pod: string)
    requires i <= k <= |events|
  {
    && n in At(cfg, w0, events, i).tasks && n in At(cfg, w0, events, k).tasks
    && LeftAt(events, i, k, At(cfg, w0, events, i), At(cfg, w0, events, k), n, pod)
  }

  predicate LeftAt(events: seq<Event>, i: nat, k: nat, w: World, w': World, n: string, pod: string)
    requires i <= k <= |events| && n in w.tasks && n in w'.tasks
  {
    && w'.tasks[n].book.cycle == w.tasks[n].book.cycle && Home(w'.tasks[n]) == Home(w.tasks[n])
    && (Leftover(SpaceOf(w', n), pod, w.tasks[n].book.cycle) <==>
          Leftover(SpaceOf(w, n), pod, w.tasks[n].book.cycle) && !Vanishes(events, i, k, Home(w.tasks[n]), pod))
  }

  lemma LeftFromNext(cfg: Config, w0: World, events: seq<Event>, i: nat, k: nat, n: string, pod: string)
    requires GoodRun(cfg, w0, events) && i <= k < |events| && LeftFrom(cfg, w0, events, i, k, n, pod)
    requires !Deletes(ViewOf(At(cfg, w0, events, k), n), events[k], n)
    requires n in At(cfg, w0, events, k + 1).tasks
    requires At(cfg, w0, events, k + 1).tasks[n].book.cycle == At(cfg, w0, events, k).tasks[n].book.cycle
    ensures LeftFrom(cfg, w0, events, i, k + 1, n, pod)
  {
    var w := At(cfg, w0, events, k);
    AtView(cfg, w0, events, k, n);
    LeftoverNext(cfg, ViewOf(w, n), n, events[k], w.now, w.lifetimes, pod);
    VanishesNext(events, i, k, Home(w.tasks[n]), pod);
  }

  /** The spawned pod is there at `k` unless it vanished since its creation at `p`. */
  ghost predicate CreatedAt(cfg: Config, w0: World, events: seq<Event>, p: nat, k: nat, n: string)
    requires p < k <= |events|
  {
    && CreatesPod(At(cfg, w0, events, p), events[p], n) && !events[p].ans.Fails? && n in At(cfg, w0, events, k).tasks
    && var w, w' := At(cfg, w0, events, p), At(cfg, w0, events, k);
       && SamePass(w.tasks[n], w'.tasks[n]) && w'.tasks[n].task == w.tasks[n].task && IsSpawning(w.tasks[n].task.status.phase)
       && w.tasks[n].pass.value.point == EnsurePod(PlanOf(w.tasks[n].task.status.phase))
       && var pod := PodName(PlanOf(w.tasks[n].task.status.phase));
          pod in Pods(SpaceOf(w', n)) <==> !Vanishes(events, p + 1, k, Home(w.tasks[n]), pod)
  }

  /** Without a call of its own pass, a task only loses the pods that vanish. */
  lemma PodsNext(cfg: Config, v: Seen, n: string, event: Event, now: nat, lifetimes: nat, pod: string)
    requires !(event.Answered? && event.name == n)
    ensures var sp' := ViewStep(cfg, v, n, event, now, lifetimes).space;
            && (pod in Pods(sp') <==> pod in Pods(v.space) && event != PodVanishes(Home(v.entry), pod))
            && (pod in Pods(sp') ==> Pods(sp')[pod].cycle == Pods(v.space)[pod].cycle)
  {
    if event.PodMoves? {
      MovedPods(v.space, event.pod, event.phase);
      assert pod in Pods(MovePod(v.space, event.pod, event.phase)) <==> pod in Pods(v.space).Keys;
    }
  }

  lemma CreatedNext(cfg: Config, w0: World, events: seq<Event>, p: nat, k: nat, n: string)
    requires GoodRun(cfg, w0, events) && p < k < |events| && CreatedAt(cfg, w0, events, p, k, n)
    requires !(events[k].Answered? && events[k].name == n)
    requires n in At(cfg, w0, events, k + 1).tasks
    requires SamePass(At(cfg, w0, events, k).tasks[n], At(cfg, w0, events, k + 1).tasks[n])
    requires Home(At(cfg, w0, events, k).tasks[n]) == Home(At(cfg, w0, events, p).tasks[n])
    ensures CreatedAt(cfg, w0, events, p, k + 1, n)
  {
    var w, w' := At(cfg, w0, events, p), At(cfg, w0, events, k);
    var pod := PodName(PlanOf(w.tasks[n].task.status.phase));
    AtView(cfg, w0, events, k, n);
    PodsNext(cfg, ViewOf(w', n), n, events[k], w'.now, w'.lifetimes, pod);
    VanishesNext(events, p + 1, k, Home(w.tasks[n]), pod);
    TaskLeft(cfg, ViewOf(w', n), n, events[k], w'.now, w'.lifetimes);
  }

  lemma TaskLeft(cfg: Config, v: Seen, n: string, event: Event, now: nat, lifetimes: nat)
    requires !(event.Answered? && event.name == n)
    ensures ViewStep(cfg, v, n, event, now, lifetimes).entry.task == v.entry.task
  {
  }

  /** An entry to Building rests on the creation of its pod in the same pass. */
  lemma {:induction false} CreatedBefore(cfg: Config, w0: World, events: seq<Event>, k: nat, n: string) returns (p: nat)
    requires GoodRun(cfg, w0, events) && k <= |events| && n in At(cfg, w0, events, k).tasks
    requires AboutToBuild(At(cfg, w0, events, k).tasks[n])
    ensures p < k && CreatedAt(cfg, w0, events, p, k, n)
    ensures LeftFrom(cfg, w0, events, p, k, n, AGENT) && LeftFrom(cfg, w0, events, p, k, n, AGENT_REV)
    decreases k
  {
    hide Run;
    var earlier := BuildingBefore(cfg, w0, events, k, n);
    if earlier {
      p := CreatedBefore(cfg, w0, events, k - 1, n);
      CreatedNext(cfg, w0, events, p, k - 1, n);
    } else {
      p := k - 1;
    }
    LeftFromNext(cfg, w0, events, p, k - 1, n, AGENT);
    LeftFromNext(cfg, w0, events, p, k - 1, n, AGENT_REV);
  }

  /** A pass about to enter Building was so before the last event, or that event answered the creation of the pod. */
  lemma BuildingBefore(cfg: Config, w0: World, events: seq<Event>, k: nat, n: string) returns (earlier: bool)
    requires GoodRun(cfg, w0, events) && k <= |events| && n in At(cfg, w0, events, k).tasks
    requires AboutToBuild(At(cfg, w0, events, k).tasks[n])
    ensures k > 0 && n in At(cfg, w0, events, k - 1).tasks
    ensures !Deletes(ViewOf(At(cfg, w0, events, k - 1), n), events[k - 1], n)
    ensures var e, e' := At(cfg, w0, events, k - 1).tasks[n], At(cfg, w0, events, k).tasks[n];
            e'.book.cycle == e.book.cycle && Home(e') == Home(e) && SamePass(e, e')
    ensures earlier ==>
              AboutToBuild(At(cfg, w0, events, k - 1).tasks[n]) && !(events[k - 1].Answered? && events[k - 1].name == n)
    ensures !earlier ==> CreatedAt(cfg, w0, events, k - 1, k, n)
  {
    hide Run, Next;
    WasThere(cfg, w0, events, k, n);
    AtView(cfg, w0, events, k - 1, n);
    var w := At(cfg, w0, events, k - 1);
    BuildingNext(cfg, ViewOf(w, n), n, events[k - 1], w.now, w.lifetimes);
    earlier := AboutToBuild(w.tasks[n]);
  }

  /** A revision past the deletion of its old pod, up to the write that enters Building. */
  predicate InRevision(e: Entry) {
    && e.task.status.phase.AwaitingRevision? && e.pass.Some?
    && (AfterRevisionDrop(e.pass.value.point) || e.pass.value.point.Write?)
  }

  lemma RevisionNext(cfg: Config, v: Seen, n: string, event: Event, now: nat, lifetimes: nat)
    requires TaskInv(cfg, v.entry, v.space, now) && InRevision(ViewStep(cfg, v, n, event, now, lifetimes).entry)
    ensures var v' := ViewStep(cfg, v, n, event, now, lifetimes);
            && v'.entry.task == v.entry.task && v'.entry.book.cycle == v.entry.book.cycle && SamePass(v.entry, v'.entry)
            && (!InRevision(v.entry) ==>
                  && event.Answered? && event.name == n && v.entry.pass.value.point.DropRevisionPod?
                  && (Leftover(v'.space, AGENT_REV, v.entry.book.cycle) <==>
                        event.ans.Fails? && Leftover(v.space, AGENT_REV, v.entry.book.cycle)))
  {
    if event.Answered? && event.name == n && v.entry.pass.Some? {
      RevisionCall(cfg, v.entry, v.space, event.ans, now, lifetimes);
    }
  }

  lemma RevisionCall(cfg: Config, e: Entry, sp: Option<Space>, ans: Answer, now: nat, lifetime: nat)
    requires CoreOk(cfg, e, sp, now) && e.pass.Some? && InRevision(Advance(cfg, e, sp, ans, now, lifetime).0)
    ensures var (e', sp') := Advance(cfg, e, sp, ans, now, lifetime);
            && e'.task == e.task && e'.book.cycle == e.book.cycle && SamePass(e, e')
            && (!InRevision(e) ==>
                  && e.pass.value.point.DropRevisionPod?
                  && (Leftover(sp', AGENT_REV, e.book.cycle) <==> ans.Fails? && Leftover(sp, AGENT_REV, e.book.cycle)))
  {
    if Reads(e.pass.value.point) {
      var rep := CallReads(cfg, e, sp, ans, now, lifetime);
      ReadsLead(cfg, e.task, e.pass.value.point, sp, rep, now);
    } else if e.pass.value.point.Write? {
      WriteLogged(cfg, e, sp, ans, now, lifetime);
    }
  }

  /** The old revision pod is there at `k` exactly if its deletion at `d` failed on it and it has not vanished since. */
  ghost predicate DroppedAt(cfg: Config, w0: World, events: seq<Event>, d: nat, k: nat, n: string)
    requires d < k <= |events|
  {
    && DropsRevisionPod(At(cfg, w0, events, d), events[d], n) && n in At(cfg, w0, events, k).tasks
    && var w, w' := At(cfg, w0, events, d), At(cfg, w0, events, k);
       && SamePass(w.tasks[n], w'.tasks[n]) && w'.tasks[n].task == w.tasks[n].task
       && w'.tasks[n].book.cycle == w.tasks[n].book.cycle
       && (Leftover(SpaceOf(w', n), AGENT_REV, w.tasks[n].book.cycle) <==>
             && events[d].ans.Fails? && Leftover(SpaceOf(w, n), AGENT_REV, w.tasks[n].book.cycle)
             && !Vanishes(events, d + 1, k, Home(w.tasks[n]), AGENT_REV))
  }

  lemma DroppedNext(cfg: Config, w0: World, events: seq<Event>, d: nat, k: nat, n: string)
    requires GoodRun(cfg, w0, events) && d < k < |events| && DroppedAt(cfg, w0, events, d, k, n)
    requires InRevision(At(cfg, w0, events, k).tasks[n])
    requires n in At(cfg, w0, events, k + 1).tasks && InRevision(At(cfg, w0, events, k + 1).tasks[n])
    ensures DroppedAt(cfg, w0, events, d, k + 1, n)
  {
    hide Run, Next, Advance;
    var w := At(cfg, w0, events, k);
    AtView(cfg, w0, events, k, n);
    RevisionNext(cfg, ViewOf(w, n), n, events[k], w.now, w.lifetimes);
    LeftoverNext(cfg, ViewOf(w, n), n, events[k], w.now, w.lifetimes, AGENT_REV);
    VanishesNext(events, d + 1, k, Home(w.tasks[n]), AGENT_REV);
  }

  /** A revision in its spawn has called for the deletion of the old pod in the same pass. */
  lemma {:induction false} DroppedBefore(cfg: Config, w0: World, events: seq<Event>, k: nat, n: string) returns (d: nat)
    requires GoodRun(cfg, w0, events) && k <= |events| && n in At(cfg, w0, events, k).tasks
    requires InRevision(At(cfg, w0, events, k).tasks[n])
    ensures d < k && DroppedAt(cfg, w0, events, d, k, n)
    decreases k
  {
    hide Run;
    WasThere(cfg, w0, events, k, n);
    AtView(cfg, w0, events, k - 1, n);
    var w := At(cfg, w0, events, k - 1);
    RevisionNext(cfg, ViewOf(w, n), n, events[k - 1], w.now, w.lifetimes);
    if InRevision(w.tasks[n]) {
      d := DroppedBefore(cfg, w0, events, k - 1, n);
      DroppedNext(cfg, w0, events, d, k - 1, n);
    } else {
      d := k - 1;
    }
  }

  // ---- back from a block to the teardown before it

  predicate Blocked(e: Entry) {
    e.task.status.phase.BlockedOnClarification? || AboutToBlock(e)
  }

  /** The event answers the teardown for a clarification. */
  predicate ClearsForClarification(w: World, event: Event, n: string) {
    Answers(w, event, n) && w.tasks[n].pass.value.point == DropNamespace(ForClarification)
  }

  lemma BlockedNext(cfg: Config, v: Seen, n: string, event: Event, now: nat, lifetimes: nat)
    requires TaskInv(cfg, v.entry, v.space, now) && Blocked(ViewStep(cfg, v, n, event, now, lifetimes).entry)
    ensures var v' := ViewStep(cfg, v, n, event, now, lifetimes);
            && v'.entry.book.cycle == v.entry.book.cycle
            && if Blocked(v.entry) then !Deletes(v, event, n)
               else && event.Answered? && event.name == n && v.entry.pass.Some?
                    && v.entry.pass.value.point == DropNamespace(ForClarification)
                    && v'.space == (if event.ans.Fails? then v.space else None)
                    && IsActive(v.entry.task.status.phase)
  {
    if event.Answered? && event.name == n && v.entry.pass.Some? {
      BlockedCall(cfg, v.entry, v.space, event.ans, now, lifetimes);
    }
  }

  lemma BlockedCall(cfg: Config, e: Entry, sp: Option<Space>, ans: Answer, now: nat, lifetime: nat)
    requires CoreOk(cfg, e, sp, now) && e.pass.Some? && Blocked(Advance(cfg, e, sp, ans, now, lifetime).0)
    ensures var (e', sp') := Advance(cfg, e, sp, ans, now, lifetime);
            && e'.book.cycle == e.book.cycle
            && if Blocked(e) then !e.pass.value.point.DropNamespace? && !e.pass.value.point.DropRevisionPod?
               else && e.pass.value.point == DropNamespace(ForClarification)
                    && sp' == (if ans.Fails? then sp else None)
                    && IsActive(e.task.status.phase)
  {
    if Reads(e.pass.value.point) {
      var rep := CallReads(cfg, e, sp, ans, now, lifetime);
      ReadsBuildNothing(cfg, e.pass.value.copy, e.pass.value.point, rep, now);
    } else if e.pass.value.point.Write? {
      WriteLogged(cfg, e, sp, ans, now, lifetime);
    }
  }

  /** The agent pods of past cycles at `k` are those that the teardown at `d` failed on and that have not vanished since. */
  ghost predicate ClearedAt(cfg: Config, w0: World, events: seq<Event>, d: nat, k: nat, n: string)
    requires d < k <= |events|
  {
    && ClearsForClarification(At(cfg, w0, events, d), events[d], n) && n in At(cfg, w0, events, k).tasks
    && var w, w' := At(cfg, w0, events, d), At(cfg, w0, events, k);
       && w'.tasks[n].book.cycle == w.tasks[n].book.cycle && Home(w'.tasks[n]) == Home(w.tasks[n])
       && LeftByTeardown(events, d, k, w, w', n, AGENT) && LeftByTeardown(events, d, k, w, w', n, AGENT_REV)
  }

  predicate LeftByTeardown(events: seq<Event>, d: nat, k: nat, w: World, w': World, n: string, pod: string)
    requires d < k <= |events| && events[d].Answered? && n in w.tasks && n in w'.tasks
  {
    Leftover(SpaceOf(w', n), pod, w.tasks[n].book.cycle) <==>
      && events[d].ans.Fails? && pod in Pods(SpaceOf(w, n))
      && !Vanishes(events, d + 1, k, Home(w.tasks[n]), pod)
  }

  lemma ClearedNext(cfg: Config, w0: World, events: seq<Event>, d: nat, k: nat, n: string)
    requires GoodRun(cfg, w0, events) && d < k < |events| && ClearedAt(cfg, w0, events, d, k, n)
    requires Blocked(At(cfg, w0, events, k).tasks[n])
    requires n in At(cfg, w0, events, k + 1).tasks && Blocked(At(cfg, w0, events, k + 1).tasks[n])
    ensures ClearedAt(cfg, w0, events, d, k + 1, n)
  {
    var w := At(cfg, w0, events, k);
    AtView(cfg, w0, events, k, n);
    BlockedNext(cfg, ViewOf(w, n), n, events[k], w.now, w.lifetimes);
    LeftoverNext(cfg, ViewOf(w, n), n, events[k], w.now, w.lifetimes, AGENT);
    LeftoverNext(cfg, ViewOf(w, n), n, events[k], w.now, w.lifetimes, AGENT_REV);
    VanishesNext(events, d + 1, k, Home(w.tasks[n]), AGENT);
    VanishesNext(events, d + 1, k, Home(w.tasks[n]), AGENT_REV);
  }

  /** The cycles of an active task's pods are past or present. */
  lemma PastCycles(e: Entry, sp: Option<Space>, pod: string)
    requires CyclesOk(e, sp) && IsActive(e.task.status.phase) && (pod == AGENT || pod == AGENT_REV)
    ensures Leftover(sp, pod, e.book.cycle) <==> pod in Pods(sp)
  {
  }

  /** A blocked task has called for a teardown, and for no other since. */
  lemma {:induction false} ClearedBefore(cfg: Config, w0: World, events: seq<Event>, k: nat, n: string) returns (d: nat)
    requires GoodRun(cfg, w0, events) && k <= |events| && n in At(cfg, w0, events, k).tasks
    requires Blocked(At(cfg, w0, events, k).tasks[n])
    ensures d < k && ClearedAt(cfg, w0, events, d, k, n) && NoTeardown(cfg, w0, events, d + 1, k, n)
    decreases k
  {
    hide *;
    var earlier := BlockedBefore(cfg, w0, events, k, n);
    if earlier {
      d := ClearedBefore(cfg, w0, events, k - 1, n);
      ClearedNext(cfg, w0, events, d, k - 1, n);
      NoTeardownNext(cfg, w0, events, d + 1, k - 1, n);
    } else {
      d := k - 1;
      NoTeardownYet(cfg, w0, events, k, n);
    }
  }

  /** A blocked task was blocked before the last event, or that event answered the teardown. */
  lemma BlockedBefore(cfg: Config, w0: World, events: seq<Event>, k: nat, n: string) returns (earlier: bool)
    requires GoodRun(cfg, w0, events) && k <= |events| && n in At(cfg, w0, events, k).tasks
    requires Blocked(At(cfg, w0, events, k).tasks[n])
    ensures k > 0
    ensures earlier ==>
              && n in At(cfg, w0, events, k - 1).tasks && Blocked(At(cfg, w0, events, k - 1).tasks[n])
              && !TearsDownAt(cfg, w0, events, k - 1, n)
    ensures !earlier ==> ClearedAt(cfg, w0, events, k - 1, k, n)
  {
    WasThere(cfg, w0, events, k, n);
    AtView(cfg, w0, events, k - 1, n);
    var w := At(cfg, w0, events, k - 1);
    BlockedNext(cfg, ViewOf(w, n), n, events[k - 1], w.now, w.lifetimes);
    earlier := Blocked(w.tasks[n]);
    if !earlier {
      PastCycles(w.tasks[n], SpaceOf(w, n), AGENT);
      PastCycles(w.tasks[n], SpaceOf(w, n), AGENT_REV);
    }
  }

  // ---- the entry to Building

  /** Event `k` takes task `n` into Building. */
  ghost predicate Enters(cfg: Config, w0: World, events: seq<Event>, k: nat, n: string, w: World, w': World) {
    Moves(cfg, w0, events, k, n, w, w') && w'.tasks[n].task.status.phase == Building
  }

  lemma EntryPods(cfg: Config, w0: World, events: seq<Event>, k: nat, n: string, w: World, w': World)
    requires Enters(cfg, w0, events, k, n, w, w')
    ensures TaskInv(cfg, w.tasks[n], SpaceOf(w, n), w.now)
    ensures AboutToBuild(w.tasks[n]) && IsSpawning(w.tasks[n].task.status.phase)
    ensures SpaceOf(w', n) == SpaceOf(w, n) && Home(w'.tasks[n]) == Home(w.tasks[n])
    ensures w'.tasks[n].book.cycle == w.tasks[n].book.cycle + 1
    ensures HasFreshPod(SpaceOf(w', n), w'.tasks[n].book.cycle) <==> PodReady(w.tasks[n], SpaceOf(w, n))
  {
    MovesAreWrites(cfg, w0, events, k, n, w, w');
    assert ViewOf(w', n).space == SpaceOf(w', n) && ViewOf(w', n).entry == w'.tasks[n];
    EntryPod(w.tasks[n], SpaceOf(w, n));
  }

  /** The pod of the spawn in hand is there, and no leftover is in front of it. */
  predicate PodReady(e: Entry, sp: Option<Space>) {
    && IsSpawning(e.task.status.phase)
    && SpawnPod(e) in Pods(sp) && !Leftover(sp, SpawnPod(e), e.book.cycle)
    && (e.task.status.phase.BlockedOnClarification? ==> !Leftover(sp, AGENT_REV, e.book.cycle))
  }

  /** The name of the pod that the spawn creates. */
  function SpawnPod(e: Entry): string
    requires IsSpawning(e.task.status.phase)
  {
    PodName(PlanOf(e.task.status.phase))
  }

  lemma EntryPod(e: Entry, sp: Option<Space>)
    requires CyclesOk(e, sp) && IsSpawning(e.task.status.phase)
    ensures HasFreshPod(sp, e.book.cycle + 1) <==> PodReady(e, sp)
  {
  }

  /** What the entry at `k` finds, from the creation of its pod at `p` on. */
  lemma EntryFrom(cfg: Config, w0: World, events: seq<Event>, k: nat, n: string, w: World, w': World) returns (p: nat)
    requires Enters(cfg, w0, events, k, n, w, w')
    ensures p < k && CreatesPod(At(cfg, w0, events, p), events[p], n)
    ensures var e := At(cfg, w0, events, p).tasks[n];
            && SamePass(e, w.tasks[n]) && e.task == w.tasks[n].task && e.book.cycle == w.tasks[n].book.cycle
            && IsSpawning(e.task.status.phase) && e.pass.value.point == EnsurePod(PlanOf(e.task.status.phase))
    ensures HasFreshPod(SpaceOf(w', n), w'.tasks[n].book.cycle)
       <==> SpawnedSince(events, p, k, At(cfg, w0, events, p).tasks[n], SpaceOf(At(cfg, w0, events, p), n))
  {
    EntryPods(cfg, w0, events, k, n, w, w');
    p := CreatedBefore(cfg, w0, events, k, n);
    SpawnedFrom(events, p, k, At(cfg, w0, events, p), w, n);
  }

  lemma SpawnedFrom(events: seq<Event>, p: nat, k: nat, v: World, w: World, n: string)
    requires p < k <= |events| && events[p].Answered? && n in v.tasks && n in w.tasks
    requires w.tasks[n].task == v.tasks[n].task && w.tasks[n].book.cycle == v.tasks[n].book.cycle
    requires IsSpawning(v.tasks[n].task.status.phase)
    requires SpawnPod(v.tasks[n]) in Pods(SpaceOf(w, n)) <==>
               !Vanishes(events, p + 1, k, Home(v.tasks[n]), SpawnPod(v.tasks[n]))
    requires LeftAt(events, p, k, v, w, n, AGENT) && LeftAt(events, p, k, v, w, n, AGENT_REV)
    ensures PodReady(w.tasks[n], SpaceOf(w, n)) <==> SpawnedSince(events, p, k, v.tasks[n], SpaceOf(v, n))
  {
    var ns := Home(w.tasks[n]);
    assert Vanishes(events, p, k, ns, AGENT) <==> Vanishes(events, p + 1, k, ns, AGENT);
    assert Vanishes(events, p, k, ns, AGENT_REV) <==> Vanishes(events, p + 1, k, ns, AGENT_REV);
  }

  /** The pod created from here on stays, no leftover has its name now, and none in front of it is left at the end. */
  predicate SpawnedSince(events: seq<Event>, p: nat, k: nat, e: Entry, sp: Option<Space>)
    requires p < k <= |events| && IsSpawning(e.task.status.phase)
  {
    && !Vanishes(events, p + 1, k, Home(e), SpawnPod(e)) && !Leftover(sp, SpawnPod(e), e.book.cycle)
    && (e.task.status.phase.BlockedOnClarification? ==>
          !Leftover(sp, AGENT_REV, e.book.cycle) || Vanishes(events, p + 1, k, Home(e), AGENT_REV))
  }

  /** A new task's pod is current on its entry to Building exactly if it has not vanished since its creation. */
  lemma FirstFreshExactly(cfg: Config, w0: World, events: seq<Event>, k: nat, n: string, w: World, w': World)
    returns (p: nat)
    requires Enters(cfg, w0, events, k, n, w, w') && w.tasks[n].task.status.phase == Unset
    ensures p < k && CreatesPod(At(cfg, w0, events, p), events[p], n)
    ensures SamePass(At(cfg, w0, events, p).tasks[n], w.tasks[n])
    ensures HasFreshPod(SpaceOf(w', n), w'.tasks[n].book.cycle) <==>
              !Vanishes(events, p + 1, k, Home(w.tasks[n]), AGENT)
  {
    p := EntryFrom(cfg, w0, events, k, n, w, w');
    AtView(cfg, w0, events, p, n);
    NoPastBefore(At(cfg, w0, events, p).tasks[n], SpaceOf(At(cfg, w0, events, p), n));
  }

  lemma NoPastBefore(e: Entry, sp: Option<Space>)
    requires CyclesOk(e, sp) && e.task.status.phase.Unset?
    ensures !Leftover(sp, AGENT, e.book.cycle)
  {
  }

  /**
   A revision's pod is current on its entry to Building exactly if it has not vanished since its creation at `p`, and
   made way for it had been: the deletion at `d` was answered, or no pod of a past cycle was there, or it vanished.
   */
  lemma RevisionFreshExactly(cfg: Config, w0: World, events: seq<Event>, k: nat, n: string, w: World, w': World)
    returns (d: nat, p: nat)
    requires Enters(cfg, w0, events, k, n, w, w') && w.tasks[n].task.status.phase == AwaitingRevision
    ensures d < p < k
    ensures DropsRevisionPod(At(cfg, w0, events, d), events[d], n) && CreatesPod(At(cfg, w0, events, p), events[p], n)
    ensures SamePass(At(cfg, w0, events, d).tasks[n], At(cfg, w0, events, p).tasks[n])
    ensures SamePass(At(cfg, w0, events, p).tasks[n], w.tasks[n])
    ensures At(cfg, w0, events, d).tasks[n].book.cycle == w.tasks[n].book.cycle
    ensures var ns := Home(w.tasks[n]);
            HasFreshPod(SpaceOf(w', n), w'.tasks[n].book.cycle) <==>
              && !Vanishes(events, p + 1, k, ns, AGENT_REV)
              && (|| !events[d].ans.Fails?
                  || !Leftover(SpaceOf(At(cfg, w0, events, d), n), AGENT_REV, w.tasks[n].book.cycle)
                  || Vanishes(events, d + 1, p, ns, AGENT_REV))
  {
    p := EntryFrom(cfg, w0, events, k, n, w, w');
    d := DroppedBefore(cfg, w0, events, p, n);
  }

  /**
   A resumed task's pod is current on its entry to Building exactly if it has not vanished since its creation at `p`,
   and neither agent pod that the teardown at `d` failed on is left: the initial one when its successor is created, the
   revision pod at the entry.
   */
  lemma ResumeFreshExactly(cfg: Config, w0: World, events: seq<Event>, k: nat, n: string, w: World, w': World)
    returns (d: nat, p: nat)
    requires Enters(cfg, w0, events, k, n, w, w') && w.tasks[n].task.status.phase == BlockedOnClarification
    ensures d < p < k
    ensures ClearsForClarification(At(cfg, w0, events, d), events[d], n) && NoTeardown(cfg, w0, events, d + 1, p, n)
    ensures CreatesPod(At(cfg, w0, events, p), events[p], n) && SamePass(At(cfg, w0, events, p).tasks[n], w.tasks[n])
    ensures var ns, pods := Home(w.tasks[n]), Pods(SpaceOf(At(cfg, w0, events, d), n));
            HasFreshPod(SpaceOf(w', n), w'.tasks[n].book.cycle) <==>
              && !Vanishes(events, p + 1, k, ns, AGENT)
              && (!events[d].ans.Fails? || AGENT !in pods || Vanishes(events, d + 1, p, ns, AGENT))
              && (|| !events[d].ans.Fails? || AGENT_REV !in pods
                  || Vanishes(events, d + 1, p, ns, AGENT_REV) || Vanishes(events, p + 1, k, ns, AGENT_REV))
  {
    p := EntryFrom(cfg, w0, events, k, n, w, w');
    d := ClearedBefore(cfg, w0, events, p, n);
  }
}
