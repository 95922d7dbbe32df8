/**
 Deletions that fail and writes that fail after them: exactly when they leave a namespace with nobody to remove it, and
 a task that stays as it is for ever.
 */
module Losses {
  import opened Glob
  import opened Domain
  import opened Protocol
  import opened Machine
  import opened TaskInvariant
  import opened Safety
  import opened View
  import opened Lifecycle
  import opened Entries

  // ---- namespaces

  lemma UnsettledStays(cfg: Config, v: Seen, n: string, event: Event, now: nat, lifetimes: nat)
    requires TaskInv(cfg, v.entry, v.space, now) && !Settling(v.entry)
    requires !(event.Answered? && event.name == n && v.entry.pass.Some? && v.entry.pass.value.point.DropNamespace?)
    ensures !Settling(ViewStep(cfg, v, n, event, now, lifetimes).entry)
  {
    if event.Answered? && event.name == n && v.entry.pass.Some? {
      if Writing(v.entry) {
        WriteLogged(cfg, v.entry, v.space, event.ans, now, lifetimes);
      } else {
        UnsettledCall(cfg, v.entry, v.space, event.ans, now, lifetimes);
      }
    }
  }

  lemma UnsettledCall(cfg: Config, e: Entry, sp: Option<Space>, ans: Answer, now: nat, lifetime: nat)
    requires CoreOk(cfg, e, sp, now) && e.pass.Some? && !Writing(e) && !Settling(e)
    requires !e.pass.value.point.DropNamespace?
    ensures !Settling(Advance(cfg, e, sp, ans, now, lifetime).0)
  {
    if Reads(e.pass.value.point) {
      var rep := CallReads(cfg, e, sp, ans, now, lifetime);
      ReadsLead(cfg, e.task, e.pass.value.point, sp, rep, now);
    }
  }

  /** Without a teardown, a settled task's namespace neither comes nor goes. */
  lemma SettledSpace(cfg: Config, v: Seen, n: string, event: Event, now: nat, lifetimes: nat)
    requires TaskInv(cfg, v.entry, v.space, now) && Settling(v.entry)
    requires !(event.Answered? && event.name == n && v.entry.pass.Some? && v.entry.pass.value.point.DropNamespace?)
    ensures ViewStep(cfg, v, n, event, now, lifetimes).space.Some? == v.space.Some?
  {
    if event.Answered? && event.name == n && v.entry.pass.Some? {
      SettledCall(cfg, v.entry, v.space, event.ans, now, lifetimes);
    }
  }

  lemma SettledCall(cfg: Config, e: Entry, sp: Option<Space>, ans: Answer, now: nat, lifetime: nat)
    requires CoreOk(cfg, e, sp, now) && e.pass.Some? && Settling(e) && !e.pass.value.point.DropNamespace?
    ensures Advance(cfg, e, sp, ans, now, lifetime).1 == sp
  {
    if Writing(e) {
      WriteLogged(cfg, e, sp, ans, now, lifetime);
    }
  }

  lemma TornSpace(cfg: Config, v: Seen, n: string, event: Event, now: nat, lifetimes: nat)
    requires event.Answered? && event.name == n && v.entry.pass.Some? && v.entry.pass.value.point.DropNamespace?
    ensures ViewStep(cfg, v, n, event, now, lifetimes).space == (if event.ans.Fails? then v.space else None)
  {
  }

  /** At `j`, the namespace is there exactly if it was at `d` and its deletion failed. */
  ghost predicate TornAt(cfg: Config, w0: World, events: seq<Event>, d: nat, j: nat, n: string)
    requires d < j <= |events|
  {
    && TearsDown(At(cfg, w0, events, d), events[d], n) && n in At(cfg, w0, events, j).tasks
    && var w, w' := At(cfg, w0, events, d), At(cfg, w0, events, j);
       && Home(w'.tasks[n]) == Home(w.tasks[n])
       && (SpaceOf(w', n).Some? <==> events[d].ans.Fails? && SpaceOf(w, n).Some?)
  }

  lemma TornNext(cfg: Config, w0: World, events: seq<Event>, d: nat, j: nat, n: string)
    requires GoodRun(cfg, w0, events) && d < j < |events| && TornAt(cfg, w0, events, d, j, n)
    requires Settling(At(cfg, w0, events, j).tasks[n]) && !TearsDown(At(cfg, w0, events, j), events[j], n)
    ensures TornAt(cfg, w0, events, d, j + 1, n)
  {
    AtView(cfg, w0, events, j, n);
    var w := At(cfg, w0, events, j);
    SettledSpace(cfg, ViewOf(w, n), n, events[j], w.now, w.lifetimes);
  }

  lemma TornFirst(cfg: Config, w0: World, events: seq<Event>, d: nat, n: string)
    requires GoodRun(cfg, w0, events) && d < |events| && TearsDown(At(cfg, w0, events, d), events[d], n)
    ensures TornAt(cfg, w0, events, d, d + 1, n)
  {
    AtView(cfg, w0, events, d, n);
    var w := At(cfg, w0, events, d);
    TornSpace(cfg, ViewOf(w, n), n, events[d], w.now, w.lifetimes);
  }

  /** A task that is settled or about to be has called for a teardown, and for no other since. */
  lemma {:induction false} TornBefore(cfg: Config, w0: World, events: seq<Event>, j: nat, n: string) returns (d: nat)
    requires GoodRun(cfg, w0, events) && j <= |events| && n in At(cfg, w0, events, j).tasks
    requires Settling(At(cfg, w0, events, j).tasks[n])
    ensures d < j && TornAt(cfg, w0, events, d, j, n) && NoTeardown(cfg, w0, events, d + 1, j, n)
    decreases j
  {
    hide Run, Next;
    WasThere(cfg, w0, events, j, n);
    if TearsDown(At(cfg, w0, events, j - 1), events[j - 1], n) {
      d := j - 1;
      TornFirst(cfg, w0, events, d, n);
      NoTeardownYet(cfg, w0, events, j, n);
    } else {
      UnsettledNext(cfg, w0, events, j - 1, n);
      d := TornBefore(cfg, w0, events, j - 1, n);
      TornNext(cfg, w0, events, d, j - 1, n);
      NoTeardownNext(cfg, w0, events, d + 1, j - 1, n);
    }
  }

  lemma UnsettledNext(cfg: Config, w0: World, events: seq<Event>, k: nat, n: string)
    requires GoodRun(cfg, w0, events) && k < |events| && n in At(cfg, w0, events, k).tasks
    requires !TearsDown(At(cfg, w0, events, k), events[k], n)
    requires n in At(cfg, w0, events, k + 1).tasks && Settling(At(cfg, w0, events, k + 1).tasks[n])
    ensures Settling(At(cfg, w0, events, k).tasks[n])
  {
    AtView(cfg, w0, events, k, n);
    var w := At(cfg, w0, events, k);
    if !Settling(w.tasks[n]) {
      UnsettledStays(cfg, ViewOf(w, n), n, events[k], w.now, w.lifetimes);
    }
  }

  /**
   In every run, a settled task has called for a teardown, and it leaves a namespace behind exactly when its last one
   failed on a namespace that was there.
   */
  lemma TornDownExactly(cfg: Config, w0: World, events: seq<Event>, j: nat, n: string) returns (d: nat)
    requires GoodRun(cfg, w0, events) && j <= |events| && n in At(cfg, w0, events, j).tasks
    requires !Unsettled(At(cfg, w0, events, j).tasks[n].task.status)
    ensures d < j && TearsDown(At(cfg, w0, events, d), events[d], n) && NoTeardown(cfg, w0, events, d + 1, j, n)
    ensures var w, earlier := At(cfg, w0, events, j), At(cfg, w0, events, d);
            Home(w.tasks[n]) in w.spaces <==> events[d].ans.Fails? && Home(earlier.tasks[n]) in earlier.spaces
  {
    d := TornBefore(cfg, w0, events, j, n);
  }

  /** So with no failed teardown of its own, a settled task leaves no namespace. */
  lemma TornDown(cfg: Config, w0: World, events: seq<Event>, j: nat, n: string)
    requires GoodRun(cfg, w0, events) && j <= |events| && n in At(cfg, w0, events, j).tasks
    requires !Unsettled(At(cfg, w0, events, j).tasks[n].task.status)
    requires forall k :: 0 <= k < j && TearsDownAt(cfg, w0, events, k, n) ==> !events[k].ans.Fails?
    ensures Home(At(cfg, w0, events, j).tasks[n]) !in At(cfg, w0, events, j).spaces
  {
    var d := TornDownExactly(cfg, w0, events, j, n);
    assert TearsDownAt(cfg, w0, events, d, n);
  }

  // ---- a task whose pod is gone

  /** An active task without a pod, and no pass that could do anything about it. */
  ghost predicate Wedged(v: Seen) {
    && IsActive(v.entry.task.status.phase) && CurrentPod(v.space).None?
    && (v.entry.pass.Some? ==>
          var pt := v.entry.pass.value.point; pt.GetRevisionPod? || pt.GetAgentPod? || pt.Return?)
  }

  lemma WedgedStays(cfg: Config, v: Seen, n: string, event: Event, now: nat, lifetimes: nat)
    requires TaskInv(cfg, v.entry, v.space, now) && Wedged(v)
    ensures var v' := ViewStep(cfg, v, n, event, now, lifetimes); Wedged(v') && v'.entry.task == v.entry.task
  {
    if event.Answered? && event.name == n && v.entry.pass.Some? {
      WedgedCall(cfg, v.entry, v.space, event.ans, now, lifetimes);
    } else if event.PodMoves? {
      MovedPods(v.space, event.pod, event.phase);
      NoPodStill(v.space, MovePod(v.space, event.pod, event.phase));
    }
  }

  lemma NoPodStill(sp: Option<Space>, sp': Option<Space>)
    requires Pods(sp').Keys == Pods(sp).Keys && CurrentPod(sp).None?
    ensures CurrentPod(sp').None?
  {
    assert AGENT !in Pods(sp).Keys && AGENT_REV !in Pods(sp).Keys;
  }

  lemma WedgedCall(cfg: Config, e: Entry, sp: Option<Space>, ans: Answer, now: nat, lifetime: nat)
    requires CoreOk(cfg, e, sp, now) && e.pass.Some? && Wedged(Seen(e, sp))
    ensures var (e', sp') := Advance(cfg, e, sp, ans, now, lifetime);
            Wedged(Seen(e', sp')) && e'.task == e.task
  {
  }

  /** Such a task keeps its status for ever, whatever happens, and with it a place under the concurrency cap. */
  lemma {:induction false} WedgedForever(cfg: Config, w0: World, events: seq<Event>, i: nat, j: nat, n: string)
    requires GoodRun(cfg, w0, events) && i <= j <= |events|
    requires n in At(cfg, w0, events, i).tasks && Wedged(ViewOf(At(cfg, w0, events, i), n))
    ensures n in At(cfg, w0, events, j).tasks && Wedged(ViewOf(At(cfg, w0, events, j), n))
    ensures At(cfg, w0, events, j).tasks[n].task == At(cfg, w0, events, i).tasks[n].task
    ensures At(cfg, w0, events, j).tasks[n].task.status.phase in {Building, Running}
    decreases j
  {
    hide Run, Next;
    if i == j {
    } else {
      WedgedForever(cfg, w0, events, i, j - 1, n);
      WedgedNext(cfg, w0, events, j - 1, n);
    }
  }

  lemma WedgedNext(cfg: Config, w0: World, events: seq<Event>, k: nat, n: string)
    requires GoodRun(cfg, w0, events) && k < |events|
    requires n in At(cfg, w0, events, k).tasks && Wedged(ViewOf(At(cfg, w0, events, k), n))
    ensures n in At(cfg, w0, events, k + 1).tasks && Wedged(ViewOf(At(cfg, w0, events, k + 1), n))
    ensures At(cfg, w0, events, k + 1).tasks[n].task == At(cfg, w0, events, k).tasks[n].task
  {
    AtView(cfg, w0, events, k, n);
    var w := At(cfg, w0, events, k);
    WedgedStays(cfg, ViewOf(w, n), n, events[k], w.now, w.lifetimes);
  }

  /** One way there: the namespace is torn down for a clarification or a rejection and the status write then fails. */
  lemma WriteFailureWedges(cfg: Config, w0: World, events: seq<Event>, k: nat, n: string)
    requires GoodRun(cfg, w0, events) && k < |events|
    requires Answers(At(cfg, w0, events, k), events[k], n) && events[k].ans.Fails?
    requires var w := At(cfg, w0, events, k);
             && Writing(w.tasks[n]) && IsActive(w.tasks[n].task.status.phase)
             && w.tasks[n].pass.value.point.next.phase in {BlockedOnClarification, Failed}
             && Home(w.tasks[n]) !in w.spaces
    ensures n in At(cfg, w0, events, k + 1).tasks && Wedged(ViewOf(At(cfg, w0, events, k + 1), n))
  {
    AtView(cfg, w0, events, k, n);
    var w := At(cfg, w0, events, k);
    WriteLogged(cfg, w.tasks[n], SpaceOf(w, n), events[k].ans, w.now, w.lifetimes);
  }
}
