/**
 What one undisturbed poll of a repository creates, exactly.
 */
module Polling {
  import opened Domain
  import opened Protocol
  import opened Machine
  import opened Capacity

  /** An issue that wants a task and can have one. */
  predicate Wanted(repo: string, issue: Issue) {
    && !issue.isPullRequest
    && ValidSpec(Spec(issue.number, repo)) && IsObjectName(TaskName(repo, issue.number))
  }

  /** The poll's loop over the issues when no call fails and nothing happens in between. */
  function PollLoop(limit: int, tasks: map<string, Entry>, repo: string, issues: seq<Issue>, active: nat): map<string, Entry>
    decreases |issues|
  {
    if issues == [] then tasks
    else
      var name, spec := TaskName(repo, issues[0].number), Spec(issues[0].number, repo);
      if !Wanted(repo, issues[0]) || name in tasks || active >= limit
      then PollLoop(limit, tasks, repo, issues[1..], active)
      else PollLoop(limit, tasks[name := NewEntry(name, spec)], repo, issues[1..], active + 1)
  }

  /** The numbers of the wanted issues without a task, in list order, each once. */
  function Missing(names: set<string>, repo: string, issues: seq<Issue>): seq<int>
    decreases |issues|
  {
    if issues == [] then []
    else
      var name := TaskName(repo, issues[0].number);
      if !Wanted(repo, issues[0]) || name in names then Missing(names, repo, issues[1..])
      else [issues[0].number] + Missing(names + {name}, repo, issues[1..])
  }

  /** The room that the cap leaves. */
  function Room(limit: int, active: nat): nat {
    if active < limit then limit - active else 0
  }

  function FirstOf<T>(xs: seq<T>, k: nat): seq<T> {
    if |xs| <= k then xs else xs[..k]
  }

  function Chosen(names: set<string>, repo: string, issues: seq<Issue>, room: nat): seq<int> {
    FirstOf(Missing(names, repo, issues), room)
  }

  /** One of the issues has this number and wants a task. */
  predicate WantsTask(repo: string, issues: seq<Issue>, n: int) {
    exists k :: 0 <= k < |issues| && issues[k].number == n && Wanted(repo, issues[k])
  }

  lemma MissingFirst(names: set<string>, repo: string, issues: seq<Issue>, n: int)
    requires issues != []
    requires n in Missing(names, repo, issues[1..]) <==> TaskName(repo, n) !in names && WantsTask(repo, issues[1..], n)
    requires var grown := if Wanted(repo, issues[0]) then names + {TaskName(repo, issues[0].number)} else names;
             n in Missing(grown, repo, issues[1..]) <==> TaskName(repo, n) !in grown && WantsTask(repo, issues[1..], n)
    ensures n in Missing(names, repo, issues) <==> TaskName(repo, n) !in names && WantsTask(repo, issues, n)
  {
    WantedSplit(repo, issues, n);
    if Wanted(repo, issues[0]) && n >= 1 {
      TaskNameInjective(repo, n, repo, issues[0].number);
    }
  }

  /** Nothing else is missing, and nothing is listed twice. */
  lemma {:induction false} MissingExactly(names: set<string>, repo: string, issues: seq<Issue>)
    ensures forall n :: n in Missing(names, repo, issues) <==>
              TaskName(repo, n) !in names && WantsTask(repo, issues, n)
    ensures forall i, j :: 0 <= i < j < |Missing(names, repo, issues)| ==>
              Missing(names, repo, issues)[i] != Missing(names, repo, issues)[j]
    decreases |issues|
  {
    if issues == [] {
    } else {
      var first, rest := issues[0], issues[1..];
      var name := TaskName(repo, first.number);
      var grown := if Wanted(repo, first) then names + {name} else names;
      MissingExactly(grown, repo, rest);
      MissingExactly(names, repo, rest);
      forall n ensures n in Missing(names, repo, issues) <==> TaskName(repo, n) !in names && WantsTask(repo, issues, n) {
        MissingFirst(names, repo, issues, n);
      }
    }
  }

  /** A repository whose name Kubernetes refuses in an object name never gets a task. */
  lemma {:induction false} RefusedName(names: set<string>, repo: string, issues: seq<Issue>, k: nat)
    requires k < |RepoName(repo)|
    requires var c := RepoName(repo)[k]; !IsLowerAlnum(c) && c != '-' && c != '.'
    ensures Missing(names, repo, issues) == []
    decreases |issues|
  {
    if issues == [] {
    } else {
      RefusedName(names, repo, issues[1..], k);
      var name := TaskName(repo, issues[0].number);
      assert name[k] == RepoName(repo)[k];
      assert !FitsName(name, k);
    }
  }

  /** The missing numbers come in list order: those missing among the first issues come first. */
  lemma {:induction false} MissingInOrder(names: set<string>, repo: string, issues: seq<Issue>, q: nat)
    requires q <= |issues|
    ensures Missing(names, repo, issues[..q]) <= Missing(names, repo, issues)
    decreases |issues|
  {
    if q == 0 {
    } else {
      var rest := issues[1..];
      assert issues[..q][1..] == rest[..q - 1] && issues[..q][0] == issues[0];
      if !Wanted(repo, issues[0]) || TaskName(repo, issues[0].number) in names {
        MissingInOrder(names, repo, rest, q - 1);
      } else {
        MissingInOrder(names + {TaskName(repo, issues[0].number)}, repo, rest, q - 1);
      }
    }
  }

  lemma WantedSplit(repo: string, issues: seq<Issue>, n: int)
    requires issues != []
    ensures WantsTask(repo, issues, n) <==>
              (issues[0].number == n && Wanted(repo, issues[0])) || WantsTask(repo, issues[1..], n)
    ensures WantsTask(repo, issues, n) ==> n >= 1
  {
    forall k | 0 <= k < |issues[1..]| ensures issues[1..][k] == issues[k + 1] {}
    if k :| 0 <= k < |issues| && issues[k].number == n && Wanted(repo, issues[k]) {
      if k > 0 {
        assert issues[1..][k - 1] == issues[k];
      }
    }
  }

  // ---- what the loop creates

  /** `after` is `tasks` with a fresh task for each number in `chosen`, and nothing else. */
  ghost predicate CreatedExactly(tasks: map<string, Entry>, after: map<string, Entry>, repo: string, chosen: seq<int>) {
    && (forall name :: name in tasks ==> name in after && after[name] == tasks[name])
    && (forall n :: n in chosen ==>
          TaskName(repo, n) !in tasks && TaskName(repo, n) in after
          && after[TaskName(repo, n)] == NewEntry(TaskName(repo, n), Spec(n, repo)))
    && (forall name :: name in after ==> name in tasks || exists n :: n in chosen && name == TaskName(repo, n))
  }

  lemma {:induction false} FullLoop(limit: int, tasks: map<string, Entry>, repo: string, issues: seq<Issue>, active: nat)
    requires active >= limit
    ensures PollLoop(limit, tasks, repo, issues, active) == tasks
  {
    if issues == [] {
    } else {
      FullLoop(limit, tasks, repo, issues[1..], active);
    }
  }

  /** The loop creates tasks for exactly the first missing issues that the cap has room for. */
  lemma ChosenFirst(limit: int, tasks: map<string, Entry>, grown: map<string, Entry>, repo: string, issues: seq<Issue>,
                    active: nat)
    requires active < limit && issues != [] && Wanted(repo, issues[0])
    requires var name := TaskName(repo, issues[0].number);
             name !in tasks && grown == tasks[name := NewEntry(name, Spec(issues[0].number, repo))]
    ensures Chosen(tasks.Keys, repo, issues, Room(limit, active))
         == [issues[0].number] + Chosen(grown.Keys, repo, issues[1..], Room(limit, active + 1))
  {
    assert grown.Keys == tasks.Keys + {TaskName(repo, issues[0].number)};
  }

  lemma {:induction false} LoopCreates(limit: int, tasks: map<string, Entry>, repo: string, issues: seq<Issue>, active: nat)
    ensures CreatedExactly(tasks, PollLoop(limit, tasks, repo, issues, active), repo,
                           Chosen(tasks.Keys, repo, issues, Room(limit, active)))
    decreases |issues|
  {
    if active >= limit {
      FullLoop(limit, tasks, repo, issues, active);
    } else if issues != [] {
      var number, rest := issues[0].number, issues[1..];
      var name, spec := TaskName(repo, number), Spec(number, repo);
      if !Wanted(repo, issues[0]) || name in tasks {
        LoopCreates(limit, tasks, repo, rest, active);
      } else {
        var grown := tasks[name := NewEntry(name, spec)];
        LoopCreates(limit, grown, repo, rest, active + 1);
        var later := Chosen(grown.Keys, repo, rest, Room(limit, active + 1));
        ChosenFirst(limit, tasks, grown, repo, issues, active);
        CreatedMore(tasks, name, NewEntry(name, spec), PollLoop(limit, tasks, repo, issues, active), repo, number, later);
      }
    }
  }

  lemma CreatedMore(tasks: map<string, Entry>, name: string, e: Entry, after: map<string, Entry>,
                    repo: string, number: int, later: seq<int>)
    requires name == TaskName(repo, number) && name !in tasks && e == NewEntry(name, Spec(number, repo))
    requires CreatedExactly(tasks[name := e], after, repo, later)
    ensures CreatedExactly(tasks, after, repo, [number] + later)
  {
    forall n | n in [number] + later
      ensures TaskName(repo, n) !in tasks && TaskName(repo, n) in after
              && after[TaskName(repo, n)] == NewEntry(TaskName(repo, n), Spec(n, repo))
    {
      assert n == number || n in later;
      assert name in tasks[name := e];
    }
    forall x | x in after ensures x in tasks || exists n :: n in [number] + later && x == TaskName(repo, n) {
      if x !in tasks {
        if x == name {
          assert number in [number] + later;
        } else {
          assert x !in tasks[name := e];
          var n :| n in later && x == TaskName(repo, n);
          assert n in [number] + later;
        }
      }
    }
  }

  /** What is missing after the loop is what the cap had no room for. */
  lemma LoopLeaves(limit: int, tasks: map<string, Entry>, repo: string, issues: seq<Issue>, active: nat)
    ensures var missing := Missing(tasks.Keys, repo, issues);
            var chosen := Chosen(tasks.Keys, repo, issues, Room(limit, active));
            missing == chosen + Missing(PollLoop(limit, tasks, repo, issues, active).Keys, repo, issues)
  {
    LoopCreates(limit, tasks, repo, issues, active);
    var room := Room(limit, active);
    var chosen := Chosen(tasks.Keys, repo, issues, room);
    KeysAfter(tasks, PollLoop(limit, tasks, repo, issues, active), repo, chosen);
    FirstIsPrefix(Missing(tasks.Keys, repo, issues), room);
    MissingAfter(tasks.Keys, repo, issues, |chosen|);
  }

  lemma FirstIsPrefix<T>(xs: seq<T>, k: nat)
    ensures var first := FirstOf(xs, k);
            |first| <= |xs| && first == xs[..|first|] && xs == first + xs[|first|..]
  {
  }

  lemma KeysAfter(tasks: map<string, Entry>, after: map<string, Entry>, repo: string, chosen: seq<int>)
    requires CreatedExactly(tasks, after, repo, chosen)
    ensures after.Keys == tasks.Keys + Names(repo, chosen)
  {
    forall x ensures x in after.Keys <==> x in tasks.Keys + Names(repo, chosen) {
      if x in Names(repo, chosen) {
        var n :| n in chosen && x == TaskName(repo, n);
        assert x in after;
      }
    }
  }

  function Names(repo: string, numbers: seq<int>): set<string> {
    set n | n in numbers :: TaskName(repo, n)
  }

  /** Giving the first `k` missing issues their tasks leaves exactly the rest missing. */
  lemma {:induction false} MissingAfter(names: set<string>, repo: string, issues: seq<Issue>, k: nat)
    requires k <= |Missing(names, repo, issues)|
    ensures Missing(names + Names(repo, Missing(names, repo, issues)[..k]), repo, issues) == Missing(names, repo, issues)[k..]
    decreases |issues|
  {
    if k == 0 {
      assert names + Names(repo, []) == names;
    } else {
      var rest, name := issues[1..], TaskName(repo, issues[0].number);
      if !Wanted(repo, issues[0]) || name in names {
        MissingAfter(names, repo, rest, k);
      } else {
        var tail := Missing(names + {name}, repo, rest);
        MissingAfter(names + {name}, repo, rest, k - 1);
        PrefixOfCons(issues[0].number, tail, k);
        NamesOfCons(repo, issues[0].number, tail[..k - 1]);
        assert names + ({name} + Names(repo, tail[..k - 1])) == names + {name} + Names(repo, tail[..k - 1]);
      }
    }
  }

  lemma PrefixOfCons<T>(x: T, tail: seq<T>, k: nat)
    requires 0 < k <= |tail| + 1
    ensures ([x] + tail)[..k] == [x] + tail[..k - 1] && ([x] + tail)[k..] == tail[k - 1..]
  {
  }

  lemma NamesOfCons(repo: string, number: int, numbers: seq<int>)
    ensures Names(repo, [number] + numbers) == {TaskName(repo, number)} + Names(repo, numbers)
  {
    forall x ensures x in Names(repo, [number] + numbers) <==> x in {TaskName(repo, number)} + Names(repo, numbers) {
      if x in {TaskName(repo, number)} + Names(repo, numbers) {
        if x == TaskName(repo, number) {
          assert number in [number] + numbers;
        } else {
          var n :| n in numbers && x == TaskName(repo, n);
          assert n in [number] + numbers;
        }
      }
    }
  }

  // ---- the run of the poller

  /** The issue list at which the loop stands. */
  function Pending(poll: Poll): seq<Issue> {
    match poll
    case PollLookup(_, issues, _) => issues
    case PollCreate(_, issues, _) => issues
    case _ => []
  }

  /** Calls still to be made before the loop ends, at most. */
  function CallsLeft(poll: Poll): nat {
    2 * |Pending(poll)| + if poll.PollLookup? && poll.issues != [] then 1 else 0
  }

  /** What the loop, from where it stands, will have created. */
  function Outcome(limit: int, w: World): map<string, Entry> {
    match w.poll
    case PollLookup(repo, issues, active) => PollLoop(limit, w.tasks, repo, issues, active)
    case PollCreate(repo, issues, active) =>
      if issues == [] then w.tasks
      else
        var name, spec := TaskName(repo, issues[0].number), Spec(issues[0].number, repo);
        if CanCreate(w, name, spec) then PollLoop(limit, w.tasks[name := NewEntry(name, spec)], repo, issues[1..], active + 1)
        else PollLoop(limit, w.tasks, repo, issues[1..], active)
    case _ => w.tasks
  }

  predicate InLoop(poll: Poll) {
    poll.PollLookup? || poll.PollCreate? || poll.Idle?
  }

  /** A loop never stands at a pull request. */
  predicate AtIssue(poll: Poll) {
    Pending(poll) != [] ==> !Pending(poll)[0].isPullRequest
  }

  /** The loop stands at an issue or is over, and is about to create only what it may. */
  predicate LoopOk(cfg: Config, w: World) {
    && InLoop(w.poll) && AtIssue(w.poll) && (w.poll.Idle? <==> Pending(w.poll) == [])
    && (w.poll.PollCreate? ==>
          TaskName(w.poll.repo, w.poll.issues[0].number) !in w.tasks && w.poll.active < cfg.maxTasks)
  }

  lemma {:induction false} HeadOfLoop(cfg: Config, w: World, repo: string, issues: seq<Issue>, active: nat)
    ensures var w' := w.(poll := NextIssue(repo, issues, active));
            && LoopOk(cfg, w') && CallsLeft(w'.poll) <= 2 * |issues| + 1
            && Outcome(cfg.maxTasks, w') == PollLoop(cfg.maxTasks, w.tasks, repo, issues, active)
  {
    if issues == [] || !issues[0].isPullRequest {
    } else {
      HeadOfLoop(cfg, w, repo, issues[1..], active);
    }
  }

  /** `w'` is `w` after a call of the loop that went through: the loop is nearer its end and will create the same. */
  predicate Nearer(cfg: Config, w: World, w': World) {
    && LoopOk(cfg, w') && Outcome(cfg.maxTasks, w') == Outcome(cfg.maxTasks, w)
    && (if w.poll.Idle? then w'.poll.Idle? else CallsLeft(w'.poll) < CallsLeft(w.poll))
  }

  /** The answer to a lookup. */
  lemma LookupAnswered(cfg: Config, w: World, ans: PollAnswer)
    requires w.poll.PollLookup? && w.poll.issues != []
    ensures var found := TaskName(w.poll.repo, w.poll.issues[0].number) in w.tasks;
            PollStep(cfg, w, ans)
              == w.(poll := if ans.PollFails? || found || w.poll.active >= cfg.maxTasks
                            then NextIssue(w.poll.repo, w.poll.issues[1..], w.poll.active)
                            else PollCreate(w.poll.repo, w.poll.issues, w.poll.active))
  {
  }

  /** The answer to a create call. */
  lemma CreateAnswered(cfg: Config, w: World, ans: PollAnswer)
    requires w.poll.PollCreate? && w.poll.issues != []
    ensures var name, spec := TaskName(w.poll.repo, w.poll.issues[0].number), Spec(w.poll.issues[0].number, w.poll.repo);
            var created, w' := !ans.PollFails? && CanCreate(w, name, spec), PollStep(cfg, w, ans);
            && w'.poll == NextIssue(w.poll.repo, w.poll.issues[1..], if created then w.poll.active + 1 else w.poll.active)
            && w'.tasks == (if created then w.tasks[name := NewEntry(name, spec)] else w.tasks)
            && w'.tasks.Keys == w.tasks.Keys + if created then {name} else {}
  {
  }

  lemma LookupCall(cfg: Config, w: World)
    requires LoopOk(cfg, w) && w.poll.PollLookup?
    ensures Nearer(cfg, w, PollStep(cfg, w, PollWorks))
  {
    LookupAnswered(cfg, w, PollWorks);
    if TaskName(w.poll.repo, w.poll.issues[0].number) in w.tasks || w.poll.active >= cfg.maxTasks {
      LookupPasses(cfg, w);
    } else {
      LookupPromises(cfg, w);
    }
  }

  lemma LookupPasses(cfg: Config, w: World)
    requires LoopOk(cfg, w) && w.poll.PollLookup?
    requires TaskName(w.poll.repo, w.poll.issues[0].number) in w.tasks || w.poll.active >= cfg.maxTasks
    ensures Nearer(cfg, w, w.(poll := NextIssue(w.poll.repo, w.poll.issues[1..], w.poll.active)))
  {
    HeadOfLoop(cfg, w, w.poll.repo, w.poll.issues[1..], w.poll.active);
  }

  lemma LookupPromises(cfg: Config, w: World)
    requires LoopOk(cfg, w) && w.poll.PollLookup?
    requires TaskName(w.poll.repo, w.poll.issues[0].number) !in w.tasks && w.poll.active < cfg.maxTasks
    ensures Nearer(cfg, w, w.(poll := PollCreate(w.poll.repo, w.poll.issues, w.poll.active)))
  {
    PromisesTheSame(cfg.maxTasks, w, w.poll.repo, w.poll.issues, w.poll.active);
  }

  lemma PromisesTheSame(limit: int, w: World, repo: string, issues: seq<Issue>, active: nat)
    requires issues != [] && !issues[0].isPullRequest && active < limit && TaskName(repo, issues[0].number) !in w.tasks
    ensures Outcome(limit, w.(poll := PollCreate(repo, issues, active))) == PollLoop(limit, w.tasks, repo, issues, active)
  {
    LoopHead(limit, w.tasks, repo, issues, active);
    var name, spec := TaskName(repo, issues[0].number), Spec(issues[0].number, repo);
    assert CanCreate(w.(poll := PollCreate(repo, issues, active)), name, spec) <==> IsObjectName(name) && ValidSpec(spec);
  }

  /** The loop's first issue, when it lacks a task and there is room. */
  lemma LoopHead(limit: int, tasks: map<string, Entry>, repo: string, issues: seq<Issue>, active: nat)
    requires issues != [] && !issues[0].isPullRequest && active < limit && TaskName(repo, issues[0].number) !in tasks
    ensures var name, spec := TaskName(repo, issues[0].number), Spec(issues[0].number, repo);
            PollLoop(limit, tasks, repo, issues, active)
              == if IsObjectName(name) && ValidSpec(spec)
                 then PollLoop(limit, tasks[name := NewEntry(name, spec)], repo, issues[1..], active + 1)
                 else PollLoop(limit, tasks, repo, issues[1..], active)
  {
  }

  lemma CreateCall(cfg: Config, w: World)
    requires LoopOk(cfg, w) && w.poll.PollCreate?
    ensures Nearer(cfg, w, PollStep(cfg, w, PollWorks))
  {
    var repo, issues, active := w.poll.repo, w.poll.issues, w.poll.active;
    var name, spec := TaskName(repo, issues[0].number), Spec(issues[0].number, repo);
    if CanCreate(w, name, spec) {
      HeadOfLoop(cfg, WithTask(w, name, NewEntry(name, spec)), repo, issues[1..], active + 1);
    } else {
      HeadOfLoop(cfg, w, repo, issues[1..], active);
    }
  }

  lemma LoopCall(cfg: Config, w: World)
    requires LoopOk(cfg, w)
    ensures Nearer(cfg, w, PollStep(cfg, w, PollWorks))
  {
    if w.poll.PollLookup? {
      LookupCall(cfg, w);
    } else if w.poll.PollCreate? {
      CreateCall(cfg, w);
    }
  }

  /** Poller calls that all go through, with nothing in between. */
  function Calls(k: nat): seq<Event> {
    if k == 0 then [] else Calls(k - 1) + [PollAnswered(PollWorks)]
  }

  /** `w'` is `w` after `k` calls of the loop. */
  predicate Further(cfg: Config, w: World, w': World, k: nat) {
    && LoopOk(cfg, w') && Outcome(cfg.maxTasks, w') == Outcome(cfg.maxTasks, w)
    && (w'.poll.Idle? || CallsLeft(w'.poll) + k <= CallsLeft(w.poll))
  }

  /** The world after `k` calls of the poller that go through. */
  function Looped(cfg: Config, w: World, k: nat): World {
    if k == 0 then w else PollStep(cfg, Looped(cfg, w, k - 1), PollWorks)
  }

  lemma {:induction false} CallsRun(cfg: Config, w: World, k: nat)
    ensures Run(cfg, w, Calls(k)) == Looped(cfg, w, k)
  {
    hide Next;
    if k == 0 {
    } else {
      var calls := Calls(k - 1);
      CallsRun(cfg, w, k - 1);
      OneMoreCall(cfg, w, calls, Looped(cfg, w, k - 1));
    }
  }

  lemma OneMoreCall(cfg: Config, w: World, calls: seq<Event>, v: World)
    requires Run(cfg, w, calls) == v
    ensures Run(cfg, w, calls + [PollAnswered(PollWorks)]) == PollStep(cfg, v, PollWorks)
  {
    RunStep(cfg, w, calls, PollAnswered(PollWorks));
  }

  lemma {:induction false} LoopRuns(cfg: Config, w: World, k: nat)
    requires LoopOk(cfg, w)
    ensures Further(cfg, w, Looped(cfg, w, k), k)
  {
    if k == 0 {
    } else {
      LoopRuns(cfg, w, k - 1);
      OneFurther(cfg, w, Looped(cfg, w, k - 1), k - 1);
    }
  }

  lemma OneFurther(cfg: Config, w: World, v: World, k: nat)
    requires Further(cfg, w, v, k)
    ensures Further(cfg, w, PollStep(cfg, v, PollWorks), k + 1)
  {
    LoopCall(cfg, v);
  }

  /** An undisturbed poll up to its loop. */
  function Opening(repo: string, issues: seq<Issue>): seq<Event> {
    [PollStart(repo), PollAnswered(PollWorks), PollAnswered(PollListed(issues)), PollAnswered(PollWorks)]
  }

  lemma Opened(cfg: Config, w: World, repo: string, issues: seq<Issue>)
    requires w.poll.Idle? && '/' in repo
    ensures Run(cfg, w, Opening(repo, issues)) == w.(poll := NextIssue(repo, issues, ActiveCount(w)))
  {
    var es := Opening(repo, issues);
    ListedIssues(cfg, w, repo, issues);
    assert es == es[..3] + [es[3]];
    RunStep(cfg, w, es[..3], es[3]);
    ActiveIsUnfinished(w.tasks);
  }

  lemma ListedIssues(cfg: Config, w: World, repo: string, issues: seq<Issue>)
    requires w.poll.Idle? && '/' in repo
    ensures Run(cfg, w, Opening(repo, issues)[..3]) == w.(poll := PollCount(repo, issues))
  {
    var es := Opening(repo, issues);
    assert es[..1] == [] + [es[0]] && es[..2] == es[..1] + [es[1]] && es[..3] == es[..2] + [es[2]];
    RunStep(cfg, w, [], es[0]);
    RunStep(cfg, w, es[..1], es[1]);
    RunStep(cfg, w, es[..2], es[2]);
  }

  /**
   An undisturbed poll creates a fresh task for exactly the first missing issues that the cap has room for,
   touches no task there already, finished or not, and leaves the other missing issues missing.
   */
  lemma PollExact(cfg: Config, w: World, repo: string, issues: seq<Issue>, k: nat)
    requires w.poll.Idle? && '/' in repo && k > 2 * |issues|
    ensures var w' := Run(cfg, w, Opening(repo, issues) + Calls(k));
            var missing, room := Missing(w.tasks.Keys, repo, issues), cfg.maxTasks - |Unfinished(w.tasks)|;
            var chosen := Chosen(w.tasks.Keys, repo, issues, Room(cfg.maxTasks, ActiveCount(w)));
            && w'.poll.Idle?
            && |chosen| == (if room <= 0 then 0 else if |missing| <= room then |missing| else room)
            && CreatedExactly(w.tasks, w'.tasks, repo, chosen)
            && Missing(w.tasks.Keys, repo, issues) == chosen + Missing(w'.tasks.Keys, repo, issues)
  {
    var active := ActiveCount(w);
    var w1 := w.(poll := NextIssue(repo, issues, active));
    Opened(cfg, w, repo, issues);
    HeadOfLoop(cfg, w, repo, issues, active);
    LoopRuns(cfg, w1, k);
    CallsRun(cfg, w1, k);
    RunConcat(cfg, w, Opening(repo, issues), Calls(k));
    LoopCreates(cfg.maxTasks, w.tasks, repo, issues, active);
    LoopLeaves(cfg.maxTasks, w.tasks, repo, issues, active);
  }

  /** Below the cap, with something missing, an undisturbed poll makes progress. */
  lemma PollProgress(cfg: Config, w: World, repo: string, issues: seq<Issue>, k: nat)
    requires w.poll.Idle? && '/' in repo && k > 2 * |issues|
    requires ActiveCount(w) < cfg.maxTasks && Missing(w.tasks.Keys, repo, issues) != []
    ensures |Missing(Run(cfg, w, Opening(repo, issues) + Calls(k)).tasks.Keys, repo, issues)|
              < |Missing(w.tasks.Keys, repo, issues)|
  {
    PollExact(cfg, w, repo, issues, k);
  }
}
