/**
 Failed pods and clarifications: any old comment that asks for clarification counts when a pod fails, while a blocked
 task resumes on the last one. So there are comments with which a task is blocked and resumed for ever.
 */
module Clarification {
  import opened Glob
  import opened Domain
  import opened Protocol
  import opened Machine
  import opened TaskInvariant
  import opened Safety
  import opened View
  import opened Lifecycle
  import opened Wakeups
  import opened Convergence
  import opened Scenario

  // ---- where a failed pod leads

  /** The comments that were read hold a request for clarification. */
  predicate Asked(ans: Answer) {
    ans.Comments? && AsksClarification(ans.comments)
  }

  function PhaseFor(asked: bool): Phase {
    if asked then BlockedOnClarification else Failed
  }

  /** A pass over `task` past its read of the comments; `smooth` says that no call has failed since. */
  predicate Judged(e: Entry, task: Task, asked: bool, smooth: bool) {
    && e.pass.Some? && e.pass.value.copy == task && IsActive(task.status.phase)
    && match e.pass.value.point
       case DropNamespace(purpose) => asked && purpose == ForClarification && e.task == task
       case Write(next, _) => next.phase == PhaseFor(asked) && e.task == task
       case Return(_, _) => e.task.status.phase == PhaseFor(asked) || (!smooth && e.task == task)
       case _ => false
  }

  lemma JudgedFirst(cfg: Config, e: Entry, sp: Option<Space>, ans: Answer, now: nat, lifetime: nat)
    requires CoreOk(cfg, e, sp, now) && e.pass.Some? && e.pass.value.point.ReadClarification?
    ensures Judged(Advance(cfg, e, sp, ans, now, lifetime).0, e.task, Asked(ans), true)
  {
  }

  lemma JudgedCall(cfg: Config, e: Entry, sp: Option<Space>, ans: Answer, now: nat, lifetime: nat,
                   task: Task, asked: bool, smooth: bool)
    requires Judged(e, task, asked, smooth)
    ensures Judged(Advance(cfg, e, sp, ans, now, lifetime).0, task, asked, smooth && !ans.Fails?)
  {
    if e.pass.value.point.Write? {
      WriteLogged(cfg, e, sp, ans, now, lifetime);
    }
  }

  lemma JudgedNext(cfg: Config, v: Seen, n: string, event: Event, now: nat, lifetimes: nat,
                   task: Task, asked: bool, smooth: bool)
    requires Judged(v.entry, task, asked, smooth) && !event.Restart? && event != Finish(n)
    ensures Judged(ViewStep(cfg, v, n, event, now, lifetimes).entry, task, asked,
                   smooth && (event.Answered? && event.name == n ==> !event.ans.Fails?))
  {
    if event.Answered? && event.name == n {
      JudgedCall(cfg, v.entry, v.space, event.ans, now, lifetimes, task, asked, smooth);
    }
  }

  /** Event `r` answers the read of the comments after a pod failed. */
  ghost predicate ReadsComments(cfg: Config, w0: World, events: seq<Event>, r: nat, n: string) {
    && GoodRun(cfg, w0, events) && r < |events|
    && Answers(At(cfg, w0, events, r), events[r], n)
    && At(cfg, w0, events, r).tasks[n].pass.value.point.ReadClarification?
  }

  lemma JudgedFrom(cfg: Config, w0: World, events: seq<Event>, r: nat, n: string)
    requires ReadsComments(cfg, w0, events, r, n)
    ensures n in At(cfg, w0, events, r + 1).tasks
    ensures Judged(At(cfg, w0, events, r + 1).tasks[n], At(cfg, w0, events, r).tasks[n].task, Asked(events[r].ans), true)
  {
    AtView(cfg, w0, events, r, n);
    var w := At(cfg, w0, events, r);
    JudgedSeen(cfg, ViewOf(w, n), n, events[r], w.now, w.lifetimes);
  }

  lemma JudgedSeen(cfg: Config, v: Seen, n: string, event: Event, now: nat, lifetimes: nat)
    requires TaskInv(cfg, v.entry, v.space, now) && event.Answered? && event.name == n
    requires v.entry.pass.Some? && v.entry.pass.value.point.ReadClarification?
    ensures Judged(ViewStep(cfg, v, n, event, now, lifetimes).entry, v.entry.task, Asked(event.ans), true)
  {
    JudgedFirst(cfg, v.entry, v.space, event.ans, now, lifetimes);
  }

  lemma JudgedGoesOn(cfg: Config, w0: World, events: seq<Event>, k: nat, n: string, task: Task, asked: bool, smooth: bool)
    requires GoodRun(cfg, w0, events) && k < |events| && OnePass(events, k, k + 1, n)
    requires n in At(cfg, w0, events, k).tasks && Judged(At(cfg, w0, events, k).tasks[n], task, asked, smooth)
    ensures n in At(cfg, w0, events, k + 1).tasks
    ensures Judged(At(cfg, w0, events, k + 1).tasks[n], task, asked, smooth && NoneFails(events, k, k + 1, n))
  {
    AtView(cfg, w0, events, k, n);
    var w := At(cfg, w0, events, k);
    JudgedNext(cfg, ViewOf(w, n), n, events[k], w.now, w.lifetimes, task, asked, smooth);
  }

  lemma {:induction false} JudgedUntil(cfg: Config, w0: World, events: seq<Event>, r: nat, j: nat, n: string)
    requires ReadsComments(cfg, w0, events, r, n) && r < j <= |events| && OnePass(events, r + 1, j, n)
    ensures n in At(cfg, w0, events, j).tasks
    ensures Judged(At(cfg, w0, events, j).tasks[n], At(cfg, w0, events, r).tasks[n].task, Asked(events[r].ans),
                   NoneFails(events, r + 1, j, n))
    decreases j
  {
    hide Run, Next;
    if j == r + 1 {
      JudgedFrom(cfg, w0, events, r, n);
    } else {
      JudgedUntil(cfg, w0, events, r, j - 1, n);
      JudgedGoesOn(cfg, w0, events, j - 1, n, At(cfg, w0, events, r).tasks[n].task, Asked(events[r].ans),
                   NoneFails(events, r + 1, j - 1, n));
    }
  }

  /**
   In every run, a pass over a task whose pod failed takes it to Failed if the comments read hold no request for
   clarification or cannot be read, and to a block if they do; it leaves the task as it is only if a call fails.
   */
  lemma FailedPodExactly(cfg: Config, w0: World, events: seq<Event>, r: nat, j: nat, n: string)
    requires ReadsComments(cfg, w0, events, r, n) && r < j <= |events| && OnePass(events, r + 1, j, n)
    ensures n in At(cfg, w0, events, j).tasks && At(cfg, w0, events, j).tasks[n].pass.Some?
    ensures var t, t' := At(cfg, w0, events, r).tasks[n].task, At(cfg, w0, events, j).tasks[n].task;
            && (t' != t ==>
                  && (t'.status.phase == Failed <==> !Asked(events[r].ans))
                  && (t'.status.phase == BlockedOnClarification <==> Asked(events[r].ans)))
            && (NoneFails(events, r + 1, j, n) && At(cfg, w0, events, j).tasks[n].pass.value.point.Return? ==> t' != t)
  {
    JudgedUntil(cfg, w0, events, r, j, n);
  }

  // ---- blocked and resumed for ever

  /** The namespace of a task in a clarification is torn down. */
  lemma Clears(cfg: Config, w0: World, events: seq<Event>, n: string, task: Task, sp: Option<Space>, cycle: nat)
    requires Ran(cfg, w0, events, n)
    requires Stands(Run(cfg, w0, events), n, task, sp, cycle, DropNamespace(ForClarification))
    ensures Ran(cfg, w0, events + [Answered(n, Works)], n)
    ensures Stands(Run(cfg, w0, events + [Answered(n, Works)]), n, task, None, cycle, AfterDrop(task, ForClarification, 0))
  {
    Then(cfg, w0, events, n, Answered(n, Works));
    ClearsOn(cfg, Run(cfg, w0, events), Run(cfg, w0, events + [Answered(n, Works)]), n, task, sp, cycle);
  }

  lemma ClearsOn(cfg: Config, w: World, w': World, n: string, task: Task, sp: Option<Space>, cycle: nat)
    requires Stands(w, n, task, sp, cycle, DropNamespace(ForClarification)) && n in w'.tasks
    requires ViewOf(w', n) == ViewStep(cfg, ViewOf(w, n), n, Answered(n, Works), 0, w.lifetimes)
    ensures Stands(w', n, task, None, cycle, AfterDrop(task, ForClarification, 0))
  {
    ClearsCall(cfg, w.tasks[n], sp, w.lifetimes);
    assert ViewOf(w', n).space == SpaceOf(w', n);
  }

  lemma ClearsCall(cfg: Config, e: Entry, sp: Option<Space>, lifetime: nat)
    requires e.pass.Some? && e.pass.value.point == DropNamespace(ForClarification)
    ensures var (e', sp') := Advance(cfg, e, sp, Works, 0, lifetime);
            && sp'.None? && e'.task == e.task && e'.book == e.book && e'.pass.Some?
            && e'.pass.value.copy == e.pass.value.copy
            && e'.pass.value.point == AfterDrop(e.pass.value.copy, ForClarification, 0)
  {
  }

  function BlockedStatus(task: Task): Status {
    task.status.(phase := BlockedOnClarification, message := "agent requested clarification")
  }

  /** A pass over a task whose pod failed reads the comments. */
  lemma Asks(cfg: Config, w0: World, events: seq<Event>, n: string, task: Task, sp: Option<Space>, cycle: nat,
             comments: seq<Comment>) returns (later: seq<Event>)
    requires Ran(cfg, w0, events, n) && Rests(Run(cfg, w0, events), n, task, sp, cycle)
    requires IsActive(task.status.phase) && AsksClarification(comments)
    requires AGENT in Pods(sp) && AGENT_REV !in Pods(sp) && Pods(sp)[AGENT].phase == PodFailed
    ensures Ran(cfg, w0, later, n) && events <= later && SmoothFrom(later, |events|, comments)
    ensures Stands(Run(cfg, w0, later), n, task, sp, cycle, DropNamespace(ForClarification))
  {
    hide Run, Next;
    var read := FindsPod(cfg, w0, events, n, task, sp, cycle, Works);
    AskedGoes(cfg, w0, read, n, task, sp, cycle, comments);
    later := read + [Answered(n, Comments(comments))];
  }

  lemma AskedGoes(cfg: Config, w0: World, events: seq<Event>, n: string, task: Task, sp: Option<Space>, cycle: nat,
                  comments: seq<Comment>)
    requires Ran(cfg, w0, events, n) && Stands(Run(cfg, w0, events), n, task, sp, cycle, ReadClarification)
    requires AsksClarification(comments)
    ensures Ran(cfg, w0, events + [Answered(n, Comments(comments))], n)
    ensures Stands(Run(cfg, w0, events + [Answered(n, Comments(comments))]), n, task, sp, cycle,
                   DropNamespace(ForClarification))
  {
    Goes(cfg, w0, events, n, task, sp, cycle, ReadClarification, Comments(comments));
    AskedPoint(cfg, task, sp, comments);
  }

  lemma AskedPoint(cfg: Config, task: Task, sp: Option<Space>, comments: seq<Comment>)
    requires AsksClarification(comments)
    ensures After(cfg, task, ReadClarification, ReplyTo(cfg, task, ReadClarification, sp, Comments(comments)), 0)
         == DropNamespace(ForClarification)
  {
  }

  /** A pass over a task whose pod failed blocks it. */
  lemma Blocks(cfg: Config, w0: World, events: seq<Event>, n: string, task: Task, sp: Option<Space>, cycle: nat,
               comments: seq<Comment>) returns (later: seq<Event>)
    requires Ran(cfg, w0, events, n) && Rests(Run(cfg, w0, events), n, task, sp, cycle)
    requires IsActive(task.status.phase) && AsksClarification(comments)
    requires AGENT in Pods(sp) && AGENT_REV !in Pods(sp) && Pods(sp)[AGENT].phase == PodFailed
    ensures Ran(cfg, w0, later, n) && events <= later && SmoothFrom(later, |events|, comments)
    ensures Rests(Run(cfg, w0, later), n, task.(status := BlockedStatus(task)), None, cycle)
  {
    hide Run, Next;
    var judged := Asks(cfg, w0, events, n, task, sp, cycle, comments);
    Clears(cfg, w0, judged, n, task, sp, cycle);
    var cleared := judged + [Answered(n, Works)];
    later := Writes(cfg, w0, cleared, n, task, None, cycle, BlockedStatus(task), MINUTE);
  }

  /** One round: the task is spawned, its pod fails, and it is blocked. */
  lemma Round(cfg: Config, w0: World, events: seq<Event>, n: string, c: Creds, comments: seq<Comment>)
    returns (later: seq<Event>)
    requires Ran(cfg, w0, events, n) && AwaitsSpawn(Run(cfg, w0, events), n)
    requires !Run(cfg, w0, events).tasks[n].task.status.phase.AwaitingRevision?
    requires HumanReplied(comments) && AsksClarification(comments)
    ensures Ran(cfg, w0, later, n) && events <= later && SmoothFrom(later, |events|, comments)
    ensures var w, w' := Run(cfg, w0, events), Run(cfg, w0, later);
            && AwaitsSpawn(w', n) && w'.tasks[n].task.status.phase == BlockedOnClarification
            && w'.tasks[n].book.cycle == w.tasks[n].book.cycle + 1
  {
    var cycle := Run(cfg, w0, events).tasks[n].book.cycle + 1;
    var spawned := SpawnsOnce(cfg, w0, events, n, c, comments);
    var w1 := Run(cfg, w0, spawned);
    var task := w1.tasks[n].task;
    var failed := Reports(cfg, w0, spawned, n, task, SpaceOf(w1, n), cycle, PodFailed);
    later := Blocks(cfg, w0, failed, n, task, SpaceOf(Run(cfg, w0, failed), n), cycle, comments);
  }

  lemma {:induction false} Rounds(cfg: Config, n: string, spec: Spec, c: Creds, comments: seq<Comment>, k: nat)
    returns (events: seq<Event>)
    requires ValidConfig(cfg) && ValidSpec(spec) && HumanReplied(comments) && AsksClarification(comments)
    ensures var w0 := OneTask(n, spec);
            var w := Run(cfg, w0, events);
            && Ran(cfg, w0, events, n) && SmoothFrom(events, 0, comments)
            && AwaitsSpawn(w, n) && !w.tasks[n].task.status.phase.AwaitingRevision? && w.tasks[n].book.cycle == k
            && (k > 0 ==> w.tasks[n].task.status.phase == BlockedOnClarification)
  {
    if k == 0 {
      events := [];
      Begins(cfg, n, spec);
    } else {
      var earlier := Rounds(cfg, n, spec, c, comments, k - 1);
      events := Round(cfg, OneTask(n, spec), earlier, n, c, comments);
    }
  }

  /**
   With the same comments all along, the last one by an authorised human and one that asks for clarification among them,
   there is for every number a run in which nothing fails but the pods, and in which the task has been spawned that many
   times, is blocked, and has at no moment been in Failed.
   */
  lemma BlockedForEver(cfg: Config, n: string, spec: Spec, c: Creds, comments: seq<Comment>, k: nat)
    returns (events: seq<Event>)
    requires ValidConfig(cfg) && ValidSpec(spec) && HumanReplied(comments) && AsksClarification(comments) && k > 0
    ensures var w0 := OneTask(n, spec);
            var w := Run(cfg, w0, events);
            && GoodRun(cfg, w0, events) && SmoothFrom(events, 0, comments)
            && n in w.tasks && w.tasks[n].task.status.phase == BlockedOnClarification && w.tasks[n].book.cycle == k
    ensures forall m :: 0 <= m <= |events| ==> NotFailed(cfg, OneTask(n, spec), events, m, n)
  {
    var w0 := OneTask(n, spec);
    events := Rounds(cfg, n, spec, c, comments, k);
    forall m | 0 <= m <= |events| ensures NotFailed(cfg, w0, events, m, n) {
      AtGrows(cfg, w0, events, 0, m);
      StatusHistory(cfg, w0, events, m, |events|, n);
      assert events[..|events|] == events;
    }
  }

  ghost predicate NotFailed(cfg: Config, w0: World, events: seq<Event>, m: nat, n: string)
    requires m <= |events|
  {
    n in At(cfg, w0, events, m).tasks && At(cfg, w0, events, m).tasks[n].task.status.phase != Failed
  }

  /** One comment is enough. */
  lemma OneComment() returns (comments: seq<Comment>)
    ensures HumanReplied(comments) && AsksClarification(comments) && |comments| == 1
  {
    var body := "/clarification:";
    comments := [Comment(body, "User", "", "OWNER")];
    assert "User" != "Bot" && "" !in ["github-actions[bot]", "app/github-actions"];
  }
}
