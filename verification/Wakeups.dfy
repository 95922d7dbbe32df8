/**
 The work queue never forgets an unsettled task, and a failed task's namespace goes exactly when it is due.
 */
module Wakeups {
  import opened Glob
  import opened Domain
  import opened Protocol
  import opened Machine
  import opened TaskInvariant
  import opened Safety
  import opened View
  import opened Lifecycle

  /** At every moment an unsettled task is in a pass, queued, or has a timer running. */
  lemma NoLostWakeup(cfg: Config, w0: World, events: seq<Event>, n: string)
    requires GoodRun(cfg, w0, events) && n in Run(cfg, w0, events).tasks
    requires Unsettled(Run(cfg, w0, events).tasks[n].task.status)
    ensures var e := Run(cfg, w0, events).tasks[n]; e.pass.Some? || e.book.ready || e.book.timers != {}
  {
    RunInv(cfg, w0, events);
    var w := Run(cfg, w0, events);
    assert TaskOk(cfg, w, n);
  }

  /** A failed task that still names its namespace, waiting in the queue. */
  predicate FailedAndQueued(w: World, n: string) {
    && n in w.tasks && w.tasks[n].pass.None? && w.tasks[n].book.ready
    && w.tasks[n].task.status.phase == Failed && w.tasks[n].task.status.namespace != ""
    && w.tasks[n].task.status.failedAt.Some?
  }

  /** A pass over a failed task that has set its mind on `after` seconds, for a task last written as `task`. */
  predicate Waiting(e: Entry, task: Task, after: int) {
    e.task == task && e.pass == Some(Pass(task, Return(Result(after), false), []))
  }

  lemma WaitBegins(cfg: Config, e: Entry, now: nat)
    requires e.pass.None? && e.book.ready && e.task.status.phase == Failed && e.task.status.namespace != ""
    requires e.task.status.failedAt.Some? && e.task.status.failedAt.value <= now < e.task.status.failedAt.value + cfg.ttl
    ensures Waiting(Started(cfg, e, now), e.task, e.task.status.failedAt.value + cfg.ttl - now)
  {
  }

  lemma WaitStays(cfg: Config, v: Seen, n: string, event: Event, now: nat, lifetimes: nat, task: Task, after: int)
    requires Waiting(v.entry, task, after) && !event.Restart? && event != Finish(n)
    ensures Waiting(ViewStep(cfg, v, n, event, now, lifetimes).entry, task, after)
  {
  }

  lemma {:induction false} WaitUntil(cfg: Config, w0: World, events: seq<Event>, i: nat, j: nat, n: string)
    requires GoodRun(cfg, w0, events) && i < j <= |events| && events[i] == Start(n) && OnePass(events, i, j, n)
    requires var w := At(cfg, w0, events, i); FailedAndQueued(w, n) && w.now < w.tasks[n].task.status.failedAt.value + cfg.ttl
    ensures n in At(cfg, w0, events, j).tasks
    ensures var w := At(cfg, w0, events, i);
            Waiting(At(cfg, w0, events, j).tasks[n], w.tasks[n].task, w.tasks[n].task.status.failedAt.value + cfg.ttl - w.now)
    decreases j
  {
    hide Run;
    if j == i + 1 {
      WaitStarts(cfg, w0, events, i, n);
    } else {
      var w := At(cfg, w0, events, i);
      WaitUntil(cfg, w0, events, i, j - 1, n);
      WaitGoesOn(cfg, w0, events, j - 1, n, w.tasks[n].task, w.tasks[n].task.status.failedAt.value + cfg.ttl - w.now);
    }
  }

  lemma WaitStarts(cfg: Config, w0: World, events: seq<Event>, i: nat, n: string)
    requires GoodRun(cfg, w0, events) && i < |events| && events[i] == Start(n)
    requires var w := At(cfg, w0, events, i); FailedAndQueued(w, n) && w.now < w.tasks[n].task.status.failedAt.value + cfg.ttl
    ensures n in At(cfg, w0, events, i + 1).tasks
    ensures var w := At(cfg, w0, events, i);
            Waiting(At(cfg, w0, events, i + 1).tasks[n], w.tasks[n].task, w.tasks[n].task.status.failedAt.value + cfg.ttl - w.now)
  {
    AtView(cfg, w0, events, i, n);
    var w := At(cfg, w0, events, i);
    WaitBegins(cfg, w.tasks[n], w.now);
  }

  lemma WaitGoesOn(cfg: Config, w0: World, events: seq<Event>, k: nat, n: string, task: Task, after: int)
    requires GoodRun(cfg, w0, events) && k < |events| && OnePass(events, k, k + 1, n)
    requires n in At(cfg, w0, events, k).tasks && Waiting(At(cfg, w0, events, k).tasks[n], task, after)
    ensures n in At(cfg, w0, events, k + 1).tasks && Waiting(At(cfg, w0, events, k + 1).tasks[n], task, after)
  {
    AtView(cfg, w0, events, k, n);
    var w := At(cfg, w0, events, k);
    WaitStays(cfg, ViewOf(w, n), n, events[k], w.now, w.lifetimes, task, after);
  }

  /**
   In every run, a pass over a failed task that starts before the deadline sets one timer when it finishes: for the
   deadline, later only by the time the pass itself took; and it writes nothing.
   */
  lemma ExpiryTimer(cfg: Config, w0: World, events: seq<Event>, i: nat, j: nat, n: string)
    requires GoodRun(cfg, w0, events) && i < j < |events| && events[i] == Start(n) && events[j] == Finish(n)
    requires OnePass(events, i, j, n)
    requires var w := At(cfg, w0, events, i); FailedAndQueued(w, n) && w.now < w.tasks[n].task.status.failedAt.value + cfg.ttl
    ensures n in At(cfg, w0, events, j).tasks && n in At(cfg, w0, events, j + 1).tasks
    ensures var w, v, v' := At(cfg, w0, events, i), At(cfg, w0, events, j), At(cfg, w0, events, j + 1);
            && v'.tasks[n].task == w.tasks[n].task && v'.tasks[n].pass.None?
            && v'.tasks[n].book.timers
                 == v.tasks[n].book.timers + {w.tasks[n].task.status.failedAt.value + cfg.ttl + (v.now - w.now)}
            && w.now <= v.now
  {
    hide Run, Next;
    WaitUntil(cfg, w0, events, i, j, n);
    AtView(cfg, w0, events, j, n);
    AtGrows(cfg, w0, events, i, j);
  }

  /** A pass over a failed task that has come to its deadline, last written as `task`: delete, write, return. */
  predicate Expiring(v: Seen, task: Task) {
    && v.entry.pass.Some? && v.entry.pass.value.copy == task
    && var p := v.entry.pass.value;
       && (p.log == [] ==> p.point == DropNamespace(ForExpiry) && v.entry.task == task)
       && (|p.log| == 1 ==>
             p.point == Write(task.status.(namespace := ""), NOTHING) && v.entry.task == task && v.space.None?)
       && (|p.log| >= 2 ==>
             && p.point == Return(NOTHING, false) && v.space.None?
             && v.entry.task == task.(status := task.status.(namespace := "")))
  }

  lemma ExpiryBegins(cfg: Config, e: Entry, sp: Option<Space>, now: nat)
    requires e.pass.None? && e.book.ready && e.task.status.phase == Failed && e.task.status.namespace != ""
    requires e.task.status.failedAt.Some? && now >= e.task.status.failedAt.value + cfg.ttl
    ensures Expiring(Seen(Started(cfg, e, now), sp), e.task)
  {
  }

  lemma ExpiryNext(cfg: Config, v: Seen, n: string, event: Event, now: nat, lifetimes: nat, task: Task)
    requires Expiring(v, task) && !event.Restart? && event != Finish(n)
    requires event.Answered? && event.name == n ==> !event.ans.Fails?
    ensures Expiring(ViewStep(cfg, v, n, event, now, lifetimes), task)
  {
    if event.Answered? && event.name == n && v.entry.pass.value.point.Write? {
      WriteLogged(cfg, v.entry, v.space, event.ans, now, lifetimes);
    }
  }

  /** No call of `n`'s passes fails in the meantime. */
  predicate NoneFails(events: seq<Event>, i: nat, j: nat, n: string)
    requires j <= |events|
  {
    forall k :: i <= k < j && events[k].Answered? && events[k].name == n ==> !events[k].ans.Fails?
  }

  lemma {:induction false} ExpiryFrom(cfg: Config, w0: World, events: seq<Event>, i: nat, j: nat, n: string, task: Task)
    requires GoodRun(cfg, w0, events) && i <= j <= |events| && OnePass(events, i, j, n) && NoneFails(events, i, j, n)
    requires n in At(cfg, w0, events, i).tasks && Expiring(ViewOf(At(cfg, w0, events, i), n), task)
    ensures n in At(cfg, w0, events, j).tasks && Expiring(ViewOf(At(cfg, w0, events, j), n), task)
    decreases j
  {
    hide Run, Next;
    if i == j {
    } else {
      ExpiryFrom(cfg, w0, events, i, j - 1, n, task);
      ExpiryGoesOn(cfg, w0, events, j - 1, n, task);
    }
  }

  /**
   In every run, a pass over a failed task that starts at the deadline or after it and of which no call fails deletes the
   namespace, clears its name and returns; nothing anyone else does keeps it from that.
   */
  lemma ExpiryPass(cfg: Config, w0: World, events: seq<Event>, i: nat, j: nat, n: string)
    requires GoodRun(cfg, w0, events) && i < j <= |events| && events[i] == Start(n)
    requires OnePass(events, i, j, n) && NoneFails(events, i, j, n)
    requires var w := At(cfg, w0, events, i); FailedAndQueued(w, n) && w.now >= w.tasks[n].task.status.failedAt.value + cfg.ttl
    ensures n in At(cfg, w0, events, j).tasks
    ensures Expiring(ViewOf(At(cfg, w0, events, j), n), At(cfg, w0, events, i).tasks[n].task)
  {
    hide Run, Next;
    ExpiryStarts(cfg, w0, events, i, n);
    ExpiryFrom(cfg, w0, events, i + 1, j, n, At(cfg, w0, events, i).tasks[n].task);
  }

  lemma ExpiryStarts(cfg: Config, w0: World, events: seq<Event>, i: nat, n: string)
    requires GoodRun(cfg, w0, events) && i < |events| && events[i] == Start(n)
    requires var w := At(cfg, w0, events, i); FailedAndQueued(w, n) && w.now >= w.tasks[n].task.status.failedAt.value + cfg.ttl
    ensures n in At(cfg, w0, events, i + 1).tasks
    ensures Expiring(ViewOf(At(cfg, w0, events, i + 1), n), At(cfg, w0, events, i).tasks[n].task)
  {
    AtView(cfg, w0, events, i, n);
    var w := At(cfg, w0, events, i);
    ExpiryBegins(cfg, w.tasks[n], SpaceOf(w, n), w.now);
  }

  lemma ExpiryGoesOn(cfg: Config, w0: World, events: seq<Event>, k: nat, n: string, task: Task)
    requires GoodRun(cfg, w0, events) && k < |events| && OnePass(events, k, k + 1, n) && NoneFails(events, k, k + 1, n)
    requires n in At(cfg, w0, events, k).tasks && Expiring(ViewOf(At(cfg, w0, events, k), n), task)
    ensures n in At(cfg, w0, events, k + 1).tasks && Expiring(ViewOf(At(cfg, w0, events, k + 1), n), task)
  {
    AtView(cfg, w0, events, k, n);
    var w := At(cfg, w0, events, k);
    ExpiryNext(cfg, ViewOf(w, n), n, events[k], w.now, w.lifetimes, task);
  }

  /** When such a pass is over, the name is cleared and the namespace gone. */
  lemma ExpiryClears(cfg: Config, w0: World, events: seq<Event>, i: nat, j: nat, n: string)
    requires GoodRun(cfg, w0, events) && i < j <= |events| && events[i] == Start(n)
    requires OnePass(events, i, j, n) && NoneFails(events, i, j, n)
    requires var w := At(cfg, w0, events, i); FailedAndQueued(w, n) && w.now >= w.tasks[n].task.status.failedAt.value + cfg.ttl
    requires n in At(cfg, w0, events, j).tasks && At(cfg, w0, events, j).tasks[n].pass.Some?
    requires At(cfg, w0, events, j).tasks[n].pass.value.point.Return?
    ensures var w, w' := At(cfg, w0, events, i), At(cfg, w0, events, j);
            && w'.tasks[n].task.status == w.tasks[n].task.status.(namespace := "")
            && Home(w'.tasks[n]) !in w'.spaces
  {
    ExpiryPass(cfg, w0, events, i, j, n);
  }

  /** One answered call, with the invariant carried along. */
  lemma LocalStep(cfg: Config, w: World, n: string, ans: Answer, e': Entry, sp': Option<Space>)
    requires Inv(cfg, w) && Distinct(w) && n in w.tasks && w.tasks[n].pass.Some? && Honest(w.tasks[n], ans)
    requires Advance(cfg, w.tasks[n], SpaceOf(w, n), ans, w.now, w.lifetimes) == (e', sp')
    ensures var w' := Next(cfg, w, Answered(n, ans));
            && Inv(cfg, w') && Distinct(w') && n in w'.tasks
            && w'.tasks[n] == e' && SpaceOf(w', n) == sp' && w'.now == w.now
            && Home(e') == Home(w.tasks[n])
  {
    hide Run;
    StepLands(cfg, w, n, ans, e', sp');
    AnsweredInv(cfg, w, n, ans);
    DistinctKept(cfg, w, Answered(n, ans));
  }

  lemma StepLands(cfg: Config, w: World, n: string, ans: Answer, e': Entry, sp': Option<Space>)
    requires TasksOk(cfg, w) && n in w.tasks && w.tasks[n].pass.Some?
    requires Advance(cfg, w.tasks[n], SpaceOf(w, n), ans, w.now, w.lifetimes) == (e', sp')
    ensures var w' := AnsweredStep(cfg, w, n, ans);
            && n in w'.tasks && w'.tasks[n] == e' && SpaceOf(w', n) == sp' && w'.now == w.now
            && Home(e') == Home(w.tasks[n])
  {
    assert TaskOk(cfg, w, n);
    AnsweredLocally(cfg, w, n, ans);
    CallLifetime(cfg, w.tasks[n], SpaceOf(w, n), ans, w.now, w.lifetimes);
  }

  /** The namespace of a failed task is forgotten only at or after the deadline, and only once it is gone. */
  lemma ClearedWhenDue(cfg: Config, w0: World, events: seq<Event>, k: nat, n: string)
    requires GoodRun(cfg, w0, events) && k < |events| && n in At(cfg, w0, events, k).tasks
    requires var s := At(cfg, w0, events, k).tasks[n].task.status; s.phase == Failed && s.namespace != ""
    ensures n in At(cfg, w0, events, k + 1).tasks
    ensures var w, w' := At(cfg, w0, events, k), At(cfg, w0, events, k + 1);
            w'.tasks[n].task.status != w.tasks[n].task.status ==>
              && w'.tasks[n].task.status == w.tasks[n].task.status.(namespace := "")
              && w.tasks[n].task.status.failedAt.Some?
              && w.now >= w.tasks[n].task.status.failedAt.value + cfg.ttl
              && Home(w.tasks[n]) !in w.spaces
  {
    NextStatus(cfg, w0, events, k, n);
    var w := At(cfg, w0, events, k);
    AtAny(cfg, w0, events, k);
    StatusStep(cfg, w, events[k], n);
    assert TaskOk(cfg, w, n);
  }
}
