/**
 The times that are stored with a status, and what a failed task keeps for its lifetime.
 */
module Failures {
  import opened Glob
  import opened Domain
  import opened Protocol
  import opened Machine
  import opened TaskInvariant
  import opened Safety
  import opened View
  import opened Lifecycle
  import opened Rules
  import opened Passes

  ghost predicate SameCopyAt(cfg: Config, w0: World, events: seq<Event>, m: nat, j: nat, n: string)
    requires m <= j <= |events|
  {
    && n in At(cfg, w0, events, m).tasks && n in At(cfg, w0, events, j).tasks
    && At(cfg, w0, events, m).tasks[n].pass.Some? && At(cfg, w0, events, j).tasks[n].pass.Some?
    && At(cfg, w0, events, m).tasks[n].pass.value.copy == At(cfg, w0, events, j).tasks[n].pass.value.copy
  }

  /** The pass over `n` that is on at `j` was started by event `s`. */
  ghost predicate OnSince(cfg: Config, w0: World, events: seq<Event>, s: nat, j: nat, n: string)
    requires s < j <= |events|
  {
    && events[s] == Start(n) && n in At(cfg, w0, events, s).tasks && At(cfg, w0, events, s).tasks[n].pass.None?
    && forall m :: s < m <= j ==> SameCopyAt(cfg, w0, events, m, j, n)
  }

  lemma {:induction false} PassSince(cfg: Config, w0: World, events: seq<Event>, j: nat, n: string) returns (s: nat)
    requires GoodRun(cfg, w0, events) && j <= |events| && n in At(cfg, w0, events, j).tasks
    requires At(cfg, w0, events, j).tasks[n].pass.Some?
    ensures s < j && OnSince(cfg, w0, events, s, j, n)
    decreases j
  {
    hide Run, Next, Ruled;
    var d := StandsByRule(cfg, w0, events, j, n);
    if At(cfg, w0, events, j).tasks[n].pass.value.log == [] {
      s := d;
    } else {
      s := PassSince(cfg, w0, events, d, n);
    }
    forall m | s < m <= j ensures SameCopyAt(cfg, w0, events, m, j, n) {
      if m <= d {
        assert SameCopyAt(cfg, w0, events, m, d, n);
      } else {
        assert SamePassAt(cfg, w0, events, m, j, n);
      }
    }
  }

  lemma FailedNow(cfg: Config, t: Task, log: seq<Exchange>, now: nat, s: Status)
    requires IsActive(t.status.phase) && Rule(cfg, t, log, now) == Does(UpdateStatus(s)) && s.phase.Failed?
    ensures log != [] && s.failedAt == Some(now)
  {
    hide FilesIn, PullIn, FirstReason;
  }

  lemma StartedNow(cfg: Config, t: Task, log: seq<Exchange>, now: nat, s: Status)
    requires !IsActive(t.status.phase) && Rule(cfg, t, log, now) == Does(UpdateStatus(s)) && s.phase.Building?
    ensures log != [] && log[|log| - 1].call.CreatePod? && s.startedAt == Some(now)
  {
  }

  /**
   In every run, a task that fails gets as its time of failure the clock at the reply that decided it: the one to the last
   call of its pass before the status write. That is after the start of the pass and before the write.
   */
  lemma FailureStamp(cfg: Config, w0: World, events: seq<Event>, k: nat, n: string, w: World, w': World)
    returns (s: nat, d: nat)
    requires Moves(cfg, w0, events, k, n, w, w') && w'.tasks[n].task.status.phase == Failed
    ensures s < d < k && OnSince(cfg, w0, events, s, k, n) && LastStep(cfg, w0, events, d, k, n)
    ensures events[d].Answered? && events[d].name == n
    ensures w'.tasks[n].task.status.failedAt == Some(At(cfg, w0, events, d).now)
    ensures At(cfg, w0, events, s).now <= At(cfg, w0, events, d).now <= w.now
  {
    hide Run, Next, Rule, Ruled;
    d := MoveByRule(cfg, w0, events, k, n, w, w');
    NextStatus(cfg, w0, events, k, n);
    FailedNow(cfg, w.tasks[n].task, w.tasks[n].pass.value.log, At(cfg, w0, events, d).now, w'.tasks[n].task.status);
    s := StampedSince(cfg, w0, events, d, k, n);
  }

  /** And a task that is spawned gets as its start the clock at the reply to the creation of its pod. */
  lemma SpawnStamp(cfg: Config, w0: World, events: seq<Event>, k: nat, n: string, w: World, w': World)
    returns (s: nat, d: nat)
    requires Moves(cfg, w0, events, k, n, w, w') && w'.tasks[n].task.status.phase == Building
    ensures s < d < k && OnSince(cfg, w0, events, s, k, n) && LastStep(cfg, w0, events, d, k, n)
    ensures events[d].Answered? && events[d].name == n
    ensures w.tasks[n].pass.value.log[|w.tasks[n].pass.value.log| - 1].call.CreatePod?
    ensures w'.tasks[n].task.status.startedAt == Some(At(cfg, w0, events, d).now)
    ensures At(cfg, w0, events, s).now <= At(cfg, w0, events, d).now <= w.now
  {
    hide Run, Next, Rule, Ruled;
    d := MoveByRule(cfg, w0, events, k, n, w, w');
    NextStatus(cfg, w0, events, k, n);
    StartedNow(cfg, w.tasks[n].task, w.tasks[n].pass.value.log, At(cfg, w0, events, d).now, w'.tasks[n].task.status);
    s := StampedSince(cfg, w0, events, d, k, n);
  }

  /** A change of phase writes what the rules say at the time of the pass's last step. */
  lemma MoveByRule(cfg: Config, w0: World, events: seq<Event>, k: nat, n: string, w: World, w': World) returns (d: nat)
    requires Moves(cfg, w0, events, k, n, w, w')
    ensures d < k && LastStep(cfg, w0, events, d, k, n) && w.tasks[n].pass.value.copy == w.tasks[n].task
    ensures Rule(cfg, w.tasks[n].task, w.tasks[n].pass.value.log, At(cfg, w0, events, d).now)
         == Does(UpdateStatus(w'.tasks[n].task.status))
  {
    hide Run, Next, Rule;
    MovesAreWrites(cfg, w0, events, k, n, w, w');
    d := StandsByRule(cfg, w0, events, k, n);
    var p := w.tasks[n].pass.value;
    KeepsRecalls(cfg, p.copy, p.log, p.point, At(cfg, w0, events, d).now);
  }

  lemma StampedSince(cfg: Config, w0: World, events: seq<Event>, d: nat, k: nat, n: string) returns (s: nat)
    requires GoodRun(cfg, w0, events) && d < k <= |events| && LastStep(cfg, w0, events, d, k, n)
    requires At(cfg, w0, events, k).tasks[n].pass.value.log != []
    ensures s < d && OnSince(cfg, w0, events, s, k, n)
    ensures At(cfg, w0, events, s).now <= At(cfg, w0, events, d).now <= At(cfg, w0, events, k).now
  {
    hide Run, Next;
    s := PassSince(cfg, w0, events, d, n);
    AtGrows(cfg, w0, events, s, d);
    AtGrows(cfg, w0, events, d, k);
    forall m | s < m <= k ensures SameCopyAt(cfg, w0, events, m, k, n) {
      if m <= d {
        assert SameCopyAt(cfg, w0, events, m, d, n);
      } else {
        assert SamePassAt(cfg, w0, events, m, k, n);
      }
    }
  }

  // ---- the lifetime of a failed task's namespace

  predicate KeepsSpace(v: Seen, v': Seen) {
    && v'.entry.task == v.entry.task
    && (v.space.Some? ==> v'.space.Some? && v'.space.value.lifetime == v.space.value.lifetime)
  }

  lemma KeptNext(cfg: Config, v: Seen, n: string, event: Event, now: nat, lifetimes: nat, failed: nat)
    requires TaskInv(cfg, v.entry, v.space, now)
    requires v.entry.task.status.phase == Failed && v.entry.task.status.failedAt == Some(failed) && now < failed + cfg.ttl
    ensures KeepsSpace(v, ViewStep(cfg, v, n, event, now, lifetimes))
  {
    if event.Answered? && event.name == n && v.entry.pass.Some? {
      KeptCall(cfg, v.entry, v.space, event.ans, now, lifetimes, failed);
    }
  }

  lemma KeptCall(cfg: Config, e: Entry, sp: Option<Space>, ans: Answer, now: nat, lifetime: nat, failed: nat)
    requires CoreOk(cfg, e, sp, now) && e.pass.Some?
    requires e.task.status.phase == Failed && e.task.status.failedAt == Some(failed) && now < failed + cfg.ttl
    ensures Advance(cfg, e, sp, ans, now, lifetime) == (e, sp)
  {
  }

  lemma {:induction false} KeptUntil(cfg: Config, w0: World, events: seq<Event>, i: nat, j: nat, n: string, failed: nat)
    requires GoodRun(cfg, w0, events) && i <= j <= |events| && n in At(cfg, w0, events, i).tasks
    requires var s := At(cfg, w0, events, i).tasks[n].task.status; s.phase == Failed && s.failedAt == Some(failed)
    requires At(cfg, w0, events, j).now < failed + cfg.ttl
    ensures n in At(cfg, w0, events, j).tasks
    ensures KeepsSpace(ViewOf(At(cfg, w0, events, i), n), ViewOf(At(cfg, w0, events, j), n))
    decreases j
  {
    hide Run, Next;
    if i == j {
    } else {
      AtGrows(cfg, w0, events, j - 1, j);
      KeptUntil(cfg, w0, events, i, j - 1, n, failed);
      KeptOn(cfg, w0, events, j - 1, n, failed);
    }
  }

  lemma KeptOn(cfg: Config, w0: World, events: seq<Event>, k: nat, n: string, failed: nat)
    requires GoodRun(cfg, w0, events) && k < |events| && n in At(cfg, w0, events, k).tasks
    requires var s := At(cfg, w0, events, k).tasks[n].task.status; s.phase == Failed && s.failedAt == Some(failed)
    requires At(cfg, w0, events, k).now < failed + cfg.ttl
    ensures n in At(cfg, w0, events, k + 1).tasks
    ensures KeepsSpace(ViewOf(At(cfg, w0, events, k), n), ViewOf(At(cfg, w0, events, k + 1), n))
  {
    hide Run, Next;
    AtView(cfg, w0, events, k, n);
    var w := At(cfg, w0, events, k);
    KeptNext(cfg, ViewOf(w, n), n, events[k], w.now, w.lifetimes, failed);
  }

  /**
   In every run, a task that has failed keeps its status, with the namespace it names, and the namespace itself stays in
   the cluster, until the configured lifetime has passed since the reply that decided the failure.
   */
  lemma NamespaceKept(cfg: Config, w0: World, events: seq<Event>, k: nat, j: nat, n: string, w: World, w': World)
    returns (d: nat)
    requires Moves(cfg, w0, events, k, n, w, w') && w'.tasks[n].task.status.phase == Failed && k < j <= |events|
    ensures d < k && events[d].Answered? && events[d].name == n && LastStep(cfg, w0, events, d, k, n)
    ensures n in At(cfg, w0, events, j).tasks
    ensures At(cfg, w0, events, j).now < At(cfg, w0, events, d).now + cfg.ttl ==>
              var v := At(cfg, w0, events, j);
              && v.tasks[n].task.status == w'.tasks[n].task.status
              && var ns := w'.tasks[n].task.status.namespace;
                 ns in w'.spaces ==> ns in v.spaces && v.spaces[ns].lifetime == w'.spaces[ns].lifetime
  {
    hide Run, Next;
    var s;
    s, d := FailureStamp(cfg, w0, events, k, n, w, w');
    AtGrows(cfg, w0, events, k + 1, j);
    if At(cfg, w0, events, j).now < At(cfg, w0, events, d).now + cfg.ttl {
      KeptUntil(cfg, w0, events, k + 1, j, n, At(cfg, w0, events, d).now);
      FailedHome(cfg, w0, events, k + 1, n);
    }
  }

  lemma FailedHome(cfg: Config, w0: World, events: seq<Event>, k: nat, n: string)
    requires GoodRun(cfg, w0, events) && k <= |events| && n in At(cfg, w0, events, k).tasks
    requires At(cfg, w0, events, k).tasks[n].task.status.phase == Failed
    ensures var e := At(cfg, w0, events, k).tasks[n]; e.task.status.namespace == "" || e.task.status.namespace == Home(e)
    ensures "" !in At(cfg, w0, events, k).spaces
  {
    AtAny(cfg, w0, events, k);
    var w := At(cfg, w0, events, k);
    assert TaskOk(cfg, w, n);
  }
}
