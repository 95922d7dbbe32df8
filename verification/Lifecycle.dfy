/**
 What every run of the operator keeps, in the terms of the resource and the cluster.
 */
module Lifecycle {
  import opened Glob
  import opened Domain
  import opened Protocol
  import opened Machine
  import opened Grounds
  import opened TaskInvariant
  import opened Safety
  import opened View

  /** The world after the first `k` events. */
  function At(cfg: Config, w0: World, events: seq<Event>, k: nat): World
    requires k <= |events|
  {
    Run(cfg, w0, events[..k])
  }

  lemma AtStep(cfg: Config, w0: World, events: seq<Event>, k: nat)
    requires GoodRun(cfg, w0, events) && k < |events|
    ensures At(cfg, w0, events, k + 1) == Next(cfg, At(cfg, w0, events, k), events[k])
    ensures Inv(cfg, At(cfg, w0, events, k)) && HonestEvent(At(cfg, w0, events, k), events[k])
  {
    assert events[..k + 1] == events[..k] + [events[k]];
    RunStep(cfg, w0, events[..k], events[k]);
    HonestPrefix(cfg, w0, events, k);
    AtAny(cfg, w0, events, k);
  }

  lemma AtAny(cfg: Config, w0: World, events: seq<Event>, k: nat)
    requires GoodRun(cfg, w0, events) && k <= |events|
    ensures Inv(cfg, At(cfg, w0, events, k)) && Distinct(At(cfg, w0, events, k))
  {
    GoodPrefix(cfg, w0, events, k);
    RunInv(cfg, w0, events[..k]);
  }

  /** One event of a run, as one task sees it. */
  lemma AtView(cfg: Config, w0: World, events: seq<Event>, k: nat, n: string)
    requires GoodRun(cfg, w0, events) && k < |events| && n in At(cfg, w0, events, k).tasks
    ensures n in At(cfg, w0, events, k + 1).tasks
    ensures var w, w' := At(cfg, w0, events, k), At(cfg, w0, events, k + 1);
            && ViewOf(w', n) == ViewStep(cfg, ViewOf(w, n), n, events[k], w.now, w.lifetimes)
            && TaskInv(cfg, w.tasks[n], SpaceOf(w, n), w.now) && TaskInv(cfg, w'.tasks[n], SpaceOf(w', n), w'.now)
            && Home(w'.tasks[n]) == Home(w.tasks[n])
            && HonestEvent(w, events[k]) && w.now <= w'.now
  {
    var w := At(cfg, w0, events, k);
    AtStep(cfg, w0, events, k);
    AtAny(cfg, w0, events, k);
    AtAny(cfg, w0, events, k + 1);
    ViewSteps(cfg, w, events[k], n);
    StepGrows(cfg, w, events[k]);
    assert TaskOk(cfg, w, n) && TaskOk(cfg, At(cfg, w0, events, k + 1), n);
  }

  /** A task that is past its creation was there before the last event. */
  lemma WasThere(cfg: Config, w0: World, events: seq<Event>, k: nat, n: string)
    requires GoodRun(cfg, w0, events) && k <= |events| && n in At(cfg, w0, events, k).tasks
    requires var e := At(cfg, w0, events, k).tasks[n]; e.pass.Some? || !e.task.status.phase.Unset?
    ensures k > 0 && n in At(cfg, w0, events, k - 1).tasks
  {
    if k > 0 && n !in At(cfg, w0, events, k - 1).tasks {
      AtStep(cfg, w0, events, k - 1);
      Newcomer(cfg, At(cfg, w0, events, k - 1), events[k - 1], n);
    }
  }

  lemma Newcomer(cfg: Config, w: World, event: Event, n: string)
    requires n !in w.tasks && n in Next(cfg, w, event).tasks
    ensures var e := Next(cfg, w, event).tasks[n]; e.pass.None? && e.task.status == FRESH
  {
    if event.PollAnswered? {
      var created := PollCreates(cfg, w, event.pollAns);
    }
  }

  lemma AtGrows(cfg: Config, w0: World, events: seq<Event>, i: nat, j: nat)
    requires i <= j <= |events|
    ensures Grows(At(cfg, w0, events, i), At(cfg, w0, events, j))
    ensures At(cfg, w0, events, i).now <= At(cfg, w0, events, j).now
  {
    assert events[..j][..i] == events[..i];
    RunGrows(cfg, w0, events[..j], i);
  }

  /** The pending call of `n`'s pass is answered by this event. */
  predicate Answers(w: World, event: Event, n: string) {
    event.Answered? && event.name == n && n in w.tasks && w.tasks[n].pass.Some?
  }

  /** No event of these ends a pass over `n`. */
  predicate OnePass(events: seq<Event>, i: nat, j: nat, n: string)
    requires j <= |events|
  {
    forall k :: i <= k < j ==> !events[k].Restart? && events[k] != Finish(n)
  }

  /** The entry of a task after an event. */
  function EntryAfter(cfg: Config, w: World, event: Event, n: string): Entry
    requires n in w.tasks
  {
    StepGrows(cfg, w, event);
    Next(cfg, w, event).tasks[n]
  }

  // ---- the status

  /** The pending status write of a pass, if that is the point it has reached. */
  predicate Writing(e: Entry) {
    e.pass.Some? && e.pass.value.point.Write?
  }

  lemma CallWritesStatus(cfg: Config, e: Entry, sp: Option<Space>, ans: Answer, now: nat, lifetime: nat)
    requires e.pass.Some?
    ensures Advance(cfg, e, sp, ans, now, lifetime).0.task.status
         == if Writing(e) && !ans.Fails? then e.pass.value.point.next else e.task.status
  {
  }

  /** A task's status changes only when the status write of its own pass goes through. */
  lemma StatusStep(cfg: Config, w: World, event: Event, n: string)
    requires n in w.tasks
    ensures var e := w.tasks[n];
            EntryAfter(cfg, w, event, n).task.status
              == if event.Answered? && event.name == n && Writing(e) && !event.ans.Fails?
                 then e.pass.value.point.next else e.task.status
  {
    if event.Answered? {
      if event.name == n && w.tasks[n].pass.Some? {
        var e := w.tasks[n];
        CallWritesStatus(cfg, e, Lookup(w.spaces, Workplace(cfg, e)), event.ans, w.now, w.lifetimes);
      }
    } else {
      StatusElsewhere(cfg, w, event, n);
    }
  }

  lemma StatusElsewhere(cfg: Config, w: World, event: Event, n: string)
    requires n in w.tasks && !event.Answered?
    ensures EntryAfter(cfg, w, event, n).task.status == w.tasks[n].task.status
  {
  }

  /** The stored status at every moment of every run. */
  lemma StatusInvariant(cfg: Config, w0: World, events: seq<Event>, n: string)
    requires GoodRun(cfg, w0, events) && n in Run(cfg, w0, events).tasks
    ensures var w := Run(cfg, w0, events);
            var t := w.tasks[n].task;
            var s := t.status;
            && s.phase != Pending
            && (s.phase == Unset ==> s == FRESH)
            && (s.phase != Unset && s.phase != Failed ==> s.namespace == TaskNamespace(t.spec))
            && (s.phase != Unset ==> s.startedAt.Some?)
            && (s.phase == Failed ==> s.namespace == "" || s.namespace == TaskNamespace(t.spec))
            && (s.failedAt.Some? <==> s.phase == Failed)
            && (s.phase in {AwaitingReview, AwaitingRevision, Completed} ==> s.prNumber != 0)
  {
    RunInv(cfg, w0, events);
    var w := Run(cfg, w0, events);
    assert TaskOk(cfg, w, n);
  }

  /** What one event may do to a status. */
  ghost predicate StatusMove(s: Status, s': Status) {
    && (s'.phase == s.phase || Edge(s.phase, s'.phase))
    && (s.prNumber != 0 ==> s'.prNumber == s.prNumber)
    && (s.phase == Failed ==> s'.failedAt == s.failedAt && (s'.namespace == s.namespace || s'.namespace == ""))
    && (s.phase == Completed ==> s' == s)
  }

  lemma StatusMoves(cfg: Config, w: World, event: Event, n: string)
    requires n in w.tasks && Inv(cfg, w)
    ensures StatusMove(w.tasks[n].task.status, EntryAfter(cfg, w, event, n).task.status)
  {
    StatusStep(cfg, w, event, n);
    assert TaskOk(cfg, w, n);
    WritesMove(cfg, w.tasks[n], SpaceOf(w, n), w.now);
  }

  lemma WritesMove(cfg: Config, e: Entry, sp: Option<Space>, now: nat)
    requires TaskInv(cfg, e, sp, now)
    ensures StatusMove(e.task.status, e.task.status)
    ensures Writing(e) ==> StatusMove(e.task.status, e.pass.value.point.next)
  {
  }

  ghost predicate StatusFollows(s: Status, s': Status) {
    && (s.prNumber != 0 ==> s'.prNumber == s.prNumber)
    && (s.phase == Completed ==> s' == s)
    && (s.phase == Failed ==> s'.phase == Failed && s'.failedAt == s.failedAt)
  }

  lemma NextStatus(cfg: Config, w0: World, events: seq<Event>, k: nat, n: string)
    requires GoodRun(cfg, w0, events) && k < |events| && n in At(cfg, w0, events, k).tasks
    ensures n in At(cfg, w0, events, k + 1).tasks
    ensures At(cfg, w0, events, k + 1).tasks[n] == EntryAfter(cfg, At(cfg, w0, events, k), events[k], n)
    ensures StatusMove(At(cfg, w0, events, k).tasks[n].task.status, At(cfg, w0, events, k + 1).tasks[n].task.status)
  {
    var w := At(cfg, w0, events, k);
    AtStep(cfg, w0, events, k);
    StatusMoves(cfg, w, events[k], n);
    StepGrows(cfg, w, events[k]);
  }

  lemma FollowsTransitively(a: Status, b: Status, c: Status)
    requires StatusFollows(a, b) && StatusMove(b, c)
    ensures StatusFollows(a, c)
  {
  }

  /** Along a run, a recorded pull request number stays, and Completed and Failed are never left. */
  lemma {:induction false} StatusHistory(cfg: Config, w0: World, events: seq<Event>, i: nat, j: nat, n: string)
    requires GoodRun(cfg, w0, events) && i <= j <= |events|
    requires n in At(cfg, w0, events, i).tasks
    ensures n in At(cfg, w0, events, j).tasks
    ensures StatusFollows(At(cfg, w0, events, i).tasks[n].task.status, At(cfg, w0, events, j).tasks[n].task.status)
    decreases j
  {
    if i == j {
    } else {
      StatusHistory(cfg, w0, events, i, j - 1, n);
      NextStatus(cfg, w0, events, j - 1, n);
      FollowsTransitively(At(cfg, w0, events, i).tasks[n].task.status, At(cfg, w0, events, j - 1).tasks[n].task.status,
                          At(cfg, w0, events, j).tasks[n].task.status);
    }
  }

  // ---- the sandbox

  /** At every moment, a pod implies the namespace's policy, as configured, and its credentials. */
  lemma SandboxBeforePod(cfg: Config, w0: World, events: seq<Event>, ns: string, pod: string)
    requires GoodRun(cfg, w0, events)
    requires ns in Run(cfg, w0, events).spaces && pod in Run(cfg, w0, events).spaces[ns].pods
    ensures var sp := Run(cfg, w0, events).spaces[ns]; sp.policy == Some(cfg.egress) && sp.secret.Some?
    ensures exists n :: n in Run(cfg, w0, events).tasks && Home(Run(cfg, w0, events).tasks[n]) == ns
                        && Run(cfg, w0, events).spaces[ns].owner == Run(cfg, w0, events).tasks[n].task.name
  {
    RunInv(cfg, w0, events);
    var w := Run(cfg, w0, events);
    var n :| n in w.tasks && Home(w.tasks[n]) == ns;
    assert TaskOk(cfg, w, n);
  }

  /** At every moment, credentials are in a namespace only behind the configured egress policy. */
  lemma SecretBehindPolicy(cfg: Config, w0: World, events: seq<Event>, ns: string)
    requires GoodRun(cfg, w0, events)
    requires ns in Run(cfg, w0, events).spaces && Run(cfg, w0, events).spaces[ns].secret.Some?
    ensures Run(cfg, w0, events).spaces[ns].policy == Some(cfg.egress)
  {
    RunInv(cfg, w0, events);
    var w := Run(cfg, w0, events);
    var n :| n in w.tasks && Home(w.tasks[n]) == ns;
    assert TaskOk(cfg, w, n);
  }

  /** `later` is the same namespace, further along. */
  predicate SameLifetime(earlier: Space, later: Space) {
    && earlier.lifetime == later.lifetime
    && (earlier.policy.Some? ==> later.policy == earlier.policy)
    && (earlier.secret.Some? ==> later.secret == earlier.secret)
  }

  lemma CallWritesOnce(cfg: Config, e: Entry, sp: Option<Space>, ans: Answer, now: nat, lifetime: nat)
    requires e.pass.Some?
    ensures var sp' := Advance(cfg, e, sp, ans, now, lifetime).1;
            sp'.Some? ==> if sp.Some? then SameLifetime(sp.value, sp'.value) else sp'.value.lifetime == lifetime
  {
  }

  /** One event either keeps a namespace with its policy and Secret, or starts a new lifetime. */
  lemma StepWritesOnce(cfg: Config, w: World, event: Event, ns: string)
    requires ns in Next(cfg, w, event).spaces
    ensures var w' := Next(cfg, w, event);
            if ns in w.spaces then SameLifetime(w.spaces[ns], w'.spaces[ns])
            else w.lifetimes <= w'.spaces[ns].lifetime < w'.lifetimes
    ensures w.lifetimes <= Next(cfg, w, event).lifetimes
  {
    if event.Answered? && event.name in w.tasks && w.tasks[event.name].pass.Some? {
      var e := w.tasks[event.name];
      CallWritesOnce(cfg, e, Lookup(w.spaces, Workplace(cfg, e)), event.ans, w.now, w.lifetimes);
    }
  }

  /** What is known of a namespace lifetime at a later moment, if it is still there. */
  ghost predicate Endures(earlier: Space, w: World, ns: string) {
    && earlier.lifetime < w.lifetimes
    && (ns in w.spaces && w.spaces[ns].lifetime == earlier.lifetime ==> SameLifetime(earlier, w.spaces[ns]))
  }

  lemma EnduresStep(cfg: Config, w: World, event: Event, earlier: Space, ns: string)
    requires Endures(earlier, w, ns)
    ensures Endures(earlier, Next(cfg, w, event), ns)
  {
    MoreLifetimes(cfg, w, event);
    if ns in Next(cfg, w, event).spaces {
      StepWritesOnce(cfg, w, event, ns);
    }
  }

  /** Policy and Secret never change within one lifetime of a namespace. */
  lemma {:induction false} WriteOnce(cfg: Config, w0: World, events: seq<Event>, i: nat, j: nat, ns: string)
    requires GoodRun(cfg, w0, events) && i <= j <= |events|
    requires ns in At(cfg, w0, events, i).spaces
    ensures Endures(At(cfg, w0, events, i).spaces[ns], At(cfg, w0, events, j), ns)
    decreases j
  {
    if i == j {
      AtAny(cfg, w0, events, i);
    } else {
      WriteOnce(cfg, w0, events, i, j - 1, ns);
      AtStep(cfg, w0, events, j - 1);
      EnduresStep(cfg, At(cfg, w0, events, j - 1), events[j - 1], At(cfg, w0, events, i).spaces[ns], ns);
    }
  }

  lemma MoreLifetimes(cfg: Config, w: World, event: Event)
    ensures w.lifetimes <= Next(cfg, w, event).lifetimes
  {
  }

  // ---- the policy gate

  lemma WritesAreGated(cfg: Config, e: Entry, sp: Option<Space>, now: nat)
    requires TaskInv(cfg, e, sp, now) && Writing(e)
    ensures var s, next, log := e.task.status, e.pass.value.point.next, e.pass.value.log;
            && (next.phase.AwaitingReview? ==> IsActive(s.phase) && Passed(cfg, e.task, log, next.prNumber))
            && (next.phase.Failed? && next.namespace == "" && !s.phase.Failed? ==>
                  && Rejected(cfg, e.task, log) && Closed(log, Found(e.task, log).value.number)
                  && next.message == "diff policy: " + Verdict(cfg, log)[0].Reason())
  {
  }

  /** The two worlds around event `k`, when that event changes the phase of `n`. */
  ghost predicate Moves(cfg: Config, w0: World, events: seq<Event>, k: nat, n: string, w: World, w': World) {
    && GoodRun(cfg, w0, events) && k < |events|
    && w == At(cfg, w0, events, k) && w' == At(cfg, w0, events, k + 1)
    && n in w.tasks && n in w'.tasks
    && w'.tasks[n].task.status.phase != w.tasks[n].task.status.phase
  }

  lemma MovesAreWrites(cfg: Config, w0: World, events: seq<Event>, k: nat, n: string, w: World, w': World)
    requires Moves(cfg, w0, events, k, n, w, w')
    ensures TaskInv(cfg, w.tasks[n], SpaceOf(w, n), w.now)
    ensures Writing(w.tasks[n]) && w'.tasks[n].task.status == w.tasks[n].pass.value.point.next
    ensures ViewOf(w', n) == Seen(Written(w.tasks[n], false), SpaceOf(w, n))
  {
    AtView(cfg, w0, events, k, n);
    MoveIsWrite(cfg, ViewOf(w, n), n, events[k], w.now, w.lifetimes);
  }

  lemma MoveIsWrite(cfg: Config, v: Seen, n: string, event: Event, now: nat, lifetimes: nat)
    requires TaskInv(cfg, v.entry, v.space, now)
    requires ViewStep(cfg, v, n, event, now, lifetimes).entry.task.status != v.entry.task.status
    ensures Writing(v.entry)
    ensures ViewStep(cfg, v, n, event, now, lifetimes) == Seen(Written(v.entry, false), v.space)
  {
    if event.Answered? {
      CallWritesStatus(cfg, v.entry, v.space, event.ans, now, lifetimes);
      if Writing(v.entry) {
        WriteLogged(cfg, v.entry, v.space, event.ans, now, lifetimes);
      }
    }
  }

  /** Every entry to AwaitingReview, on every cycle, passed the policy on the whole of the recorded pull request. */
  lemma PolicyGate(cfg: Config, w0: World, events: seq<Event>, k: nat, n: string, w: World, w': World)
    requires Moves(cfg, w0, events, k, n, w, w')
    requires w'.tasks[n].task.status.phase == AwaitingReview
    ensures var e := w.tasks[n];
            && e.pass.Some? && IsActive(e.task.status.phase)
            && Passed(cfg, e.task, e.pass.value.log, w'.tasks[n].task.status.prNumber)
  {
    MovesAreWrites(cfg, w0, events, k, n, w, w');
    WritesAreGated(cfg, w.tasks[n], SpaceOf(w, n), w.now);
  }

  /** A task fails with its namespace cleared only after a pass read the whole pull request, found a violation and closed it. */
  lemma RejectionGate(cfg: Config, w0: World, events: seq<Event>, k: nat, n: string, w: World, w': World)
    requires Moves(cfg, w0, events, k, n, w, w')
    requires w'.tasks[n].task.status.phase == Failed && w'.tasks[n].task.status.namespace == ""
    ensures var e := w.tasks[n];
            && e.pass.Some? && Rejected(cfg, e.task, e.pass.value.log)
            && Closed(e.pass.value.log, Found(e.task, e.pass.value.log).value.number)
            && w'.tasks[n].task.status.message == "diff policy: " + Verdict(cfg, e.pass.value.log)[0].Reason()
  {
    MovesAreWrites(cfg, w0, events, k, n, w, w');
    WritesAreGated(cfg, w.tasks[n], SpaceOf(w, n), w.now);
  }

  // ---- the other decisions taken on GitHub

  lemma WritesAreGrounded(cfg: Config, e: Entry, sp: Option<Space>, now: nat)
    requires TaskInv(cfg, e, sp, now) && Writing(e)
    ensures var from, to, log := e.task.status.phase, e.pass.value.point.next.phase, e.pass.value.log;
            && (from == BlockedOnClarification ==> Shown(e.task, log, HumanAnswered))
            && (to == BlockedOnClarification ==> Shown(e.task, log, AgentAsked))
            && (to == Completed ==> Shown(e.task, log, PullDone))
            && (to == AwaitingRevision ==> Shown(e.task, log, RevisionAsked))
  {
  }

  /**
   A blocked task resumes only after its pass read a last comment by an authorised human; a task blocks only
   after a clarification was read, completes only after its pull request was read as merged or closed, and goes
   to revision only after the label was read.
   */
  lemma MovesAreGrounded(cfg: Config, w0: World, events: seq<Event>, k: nat, n: string, w: World, w': World)
    requires Moves(cfg, w0, events, k, n, w, w')
    ensures var e, to := w.tasks[n], w'.tasks[n].task.status.phase;
            && e.pass.Some?
            && (e.task.status.phase == BlockedOnClarification ==> Shown(e.task, e.pass.value.log, HumanAnswered))
            && (to == BlockedOnClarification ==> Shown(e.task, e.pass.value.log, AgentAsked))
            && (to == Completed ==> Shown(e.task, e.pass.value.log, PullDone))
            && (to == AwaitingRevision ==> Shown(e.task, e.pass.value.log, RevisionAsked))
  {
    MovesAreWrites(cfg, w0, events, k, n, w, w');
    WritesAreGrounded(cfg, w.tasks[n], SpaceOf(w, n), w.now);
  }
}
