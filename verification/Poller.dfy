/**
 The poller as it runs. Its calls are those of the machine's poll, and its local count of active tasks is the
 machine's; an undisturbed poll is exact.
 */
module Poller {
  import opened Glob
  import opened Domain
  import opened Protocol
  import opened Machine
  import opened Capacity
  import opened Polling
  import opened Cluster

  /** The first `k` calls go through, and nobody else does anything meanwhile. */
  predicate Calm(script: seq<Turn>, k: nat) {
    |script| >= k && forall j :: 0 <= j < k ==> script[j].before == [] && !script[j].pollAnswer.PollFails?
  }

  /** The issues that an answer lists. */
  function Listed(turn: Turn): seq<Issue> {
    if turn.pollAnswer.PollListed? then turn.pollAnswer.issues else []
  }

  /** Credentials, the list of issues, the count, and at most two calls for each issue. */
  predicate CalmPoll(script: seq<Turn>) {
    |script| >= 2 && script[1].pollAnswer.PollListed? && Calm(script, 3 + 2 * |Listed(script[1])|)
  }

  /** A poll of `repo` that listed `issues` took the tasks from `was` to `tasks`, exactly. */
  ghost predicate PolledExactly(limit: int, was: map<string, Entry>, tasks: map<string, Entry>,
                                repo: string, issues: seq<Issue>)
  {
    CreatedExactly(was, tasks, repo, Chosen(was.Keys, repo, issues, Room(limit, |Unfinished(was)|)))
  }

  predicate IsListed(issues: seq<Issue>, n: int) {
    exists k :: 0 <= k < |issues| && issues[k].number == n && !issues[k].isPullRequest
  }

  lemma SuffixStep(issues: seq<Issue>, i: nat)
    requires i < |issues|
    ensures issues[i..] != [] && issues[i..][0] == issues[i] && issues[i..][1..] == issues[i + 1..]
  {
  }

  lemma OneMoreName(repo: string, numbers: seq<int>, n: int)
    ensures Names(repo, numbers + [n]) == Names(repo, numbers) + {TaskName(repo, n)}
  {
    assert n in numbers + [n];
    forall m | m in numbers ensures TaskName(repo, m) in Names(repo, numbers + [n]) {
      assert m in numbers + [n];
    }
  }

  lemma AddedNext(repo: string, was: seq<Event>, mid: seq<Event>, events: seq<Event>,
                  tasks: map<string, Entry>, middle: map<string, Entry>, later: map<string, Entry>,
                  numbers: seq<int>, created: bool, n: int)
    requires OnlyAdded(was, mid, tasks, middle, Names(repo, numbers))
    requires OnlyAdded(mid, events, middle, later, if created then {TaskName(repo, n)} else {})
    ensures OnlyAdded(was, events, tasks, later, Names(repo, if created then numbers + [n] else numbers))
  {
    OneMoreName(repo, numbers, n);
  }

  /** If the calls ahead are undisturbed, the task is created exactly when it can be, and they stay so. */
  ghost predicate CalmlyCreated(script: seq<Turn>, k: nat, was: World, name: string, spec: Spec, created: bool,
                                tasks: map<string, Entry>, rest: seq<Turn>)
  {
    Calm(script, k + 1) ==>
      && (created <==> CanCreate(was, name, spec))
      && tasks == (if created then was.tasks[name := NewEntry(name, spec)] else was.tasks)
      && Calm(rest, k)
  }

  lemma CalmTurn(script: seq<Turn>, k: nat, was: World, mid: World, name: string, spec: Spec, created: bool,
                 tasks: map<string, Entry>)
    requires Head(script).before == [] ==> mid == was
    requires created <==> !Head(script).pollAnswer.PollFails? && CanCreate(mid, name, spec)
    requires tasks == if created then mid.tasks[name := NewEntry(name, spec)] else mid.tasks
    ensures CalmlyCreated(script, k, was, name, spec, created, tasks, Rest(script))
  {
  }

  lemma CreatesOne(cfg: Config, w: World, ans: PollAnswer, repo: string, issues: seq<Issue>, active: nat,
                   name: string, spec: Spec, created: bool, tasks: map<string, Entry>)
    requires w.poll == PollCreate(repo, issues, active) && issues != []
    requires name == TaskName(repo, issues[0].number) && spec == Spec(issues[0].number, repo)
    requires created <==> !ans.PollFails? && CanCreate(w, name, spec)
    requires tasks == if created then w.tasks[name := NewEntry(name, spec)] else w.tasks
    ensures PollStep(cfg, w, ans).poll == NextIssue(repo, issues[1..], if created then active + 1 else active)
    ensures PollStep(cfg, w, ans).tasks == tasks && tasks.Keys == w.tasks.Keys + if created then {name} else {}
  {
    CreateAnswered(cfg, w, ans);
  }

  lemma AddedLast(was: seq<Event>, mid: seq<Event>, events: seq<Event>,
                  tasks: map<string, Entry>, middle: map<string, Entry>, later: map<string, Entry>, names: set<string>)
    requires OnlyAdded(was, mid, tasks, middle, {}) && later.Keys == middle.Keys + names
    requires OnlyPollerCreates(events) ==> OnlyPollerCreates(mid)
    ensures OnlyAdded(was, events, tasks, later, names)
  {
  }

  lemma StillListed(issues: seq<Issue>, i: nat, numbers: seq<int>, created: bool)
    requires i < |issues| && (created ==> !issues[i].isPullRequest)
    requires forall n :: n in numbers ==> IsListed(issues, n)
    ensures forall n :: n in (if created then numbers + [issues[i].number] else numbers) ==> IsListed(issues, n)
  {
  }

  /** Where the loop over the issues began. */
  datatype Progress = Progress(events: seq<Event>, tasks: map<string, Entry>, calm: bool, issues: seq<Issue>, count: nat)

  /** Before issue `i`, the loop has added the tasks of `added`, all listed, and undisturbed will end as it should. */
  ghost predicate OnTrack(server: Server, repo: string, was: Progress, i: nat, active: nat, added: seq<int>)
    reads server
  {
    && i <= |was.issues| && server.Valid() && server.InPoll(repo)
    && server.world.poll == NextIssue(repo, was.issues[i..], active)
    && OnlyAdded(was.events, server.events, was.tasks, server.world.tasks, Names(repo, added))
    && (forall n :: n in added ==> IsListed(was.issues, n))
    && (was.calm ==>
          && Calm(server.script, 2 * (|was.issues| - i))
          && PollLoop(server.cfg.maxTasks, server.world.tasks, repo, was.issues[i..], active)
               == PollLoop(server.cfg.maxTasks, was.tasks, repo, was.issues, was.count))
  }

  lemma LoopBegun(server: Server, repo: string, was: Progress)
    requires server.Valid() && server.InPoll(repo) && server.world.poll == NextIssue(repo, was.issues, was.count)
    requires was.events == server.events && was.tasks == server.world.tasks
    requires was.calm == Calm(server.script, 2 * |was.issues|)
    ensures OnTrack(server, repo, was, 0, was.count, [])
  {
    assert was.issues[0..] == was.issues && Names(repo, []) == {};
  }

  lemma LoopDone(server: Server, repo: string, was: Progress, active: nat, added: seq<int>)
    requires OnTrack(server, repo, was, |was.issues|, active, added)
    ensures server.Valid() && server.InPoll(repo) && server.world.poll.Idle?
    ensures forall n :: n in added ==> IsListed(was.issues, n)
    ensures OnlyAdded(was.events, server.events, was.tasks, server.world.tasks, Names(repo, added))
    ensures was.calm ==> server.world.tasks == PollLoop(server.cfg.maxTasks, was.tasks, repo, was.issues, was.count)
  {
    assert was.issues[|was.issues|..] == [];
  }

  lemma CountsOne(tasks: map<string, Entry>, rest: set<string>, n: string)
    requires n in rest && rest <= tasks.Keys
    ensures Unfinished(tasks) - (rest - {n})
         == if IsTerminal(tasks[n].task.status.phase) then Unfinished(tasks) - rest else Unfinished(tasks) - rest + {n}
  {
  }

  lemma NoneCounted(tasks: map<string, Entry>)
    ensures Unfinished(tasks) - tasks.Keys == {}
  {
  }

  class GitHubPoller {
    const server: Server

    constructor (server: Server)
      ensures this.server == server
    {
      this.server := server;
    }

    /** Counts the tasks that are not in a terminal phase. */
    method CountActive(tasks: map<string, Entry>) returns (active: nat)
      ensures active == |Unfinished(tasks)|
      ensures active == |set n | n in tasks && tasks[n].task.status.phase != Completed
                                           && tasks[n].task.status.phase != Failed|
    {
      assert Unfinished(tasks) == set n | n in tasks && tasks[n].task.status.phase != Completed
                                            && tasks[n].task.status.phase != Failed;
      hide Unfinished;
      var rest := tasks.Keys;
      ghost var counted: set<string> := {};
      NoneCounted(tasks);
      active := 0;
      while rest != {}
        invariant rest <= tasks.Keys
        invariant counted == Unfinished(tasks) - rest && active == |counted|
        decreases rest
      {
        var n :| n in rest;
        CountsOne(tasks, rest, n);
        rest := rest - {n};
        if !IsTerminal(tasks[n].task.status.phase) {
          counted := counted + {n};
          active := active + 1;
        }
      }
    }

    method LookupTask(name: string, ghost repo: string, ghost issues: seq<Issue>, ghost active: nat, ghost k: nat)
      returns (err: bool, found: bool)
      requires server.Valid() && server.InPoll(repo) && server.world.poll == PollLookup(repo, issues, active)
      requires issues != [] && name == TaskName(repo, issues[0].number)
      modifies server`world, server`events, server`script
      ensures server.Valid() && server.InPoll(repo)
      ensures server.world.poll == if err || found || active >= server.cfg.maxTasks then NextIssue(repo, issues[1..], active)
                                   else PollCreate(repo, issues, active)
      ensures OnlyAdded(old(server.events), server.events, old(server.world).tasks, server.world.tasks, {})
      ensures Calm(old(server.script), k + 1) ==>
                && !err && (found <==> name in old(server.world).tasks)
                && server.world.tasks == old(server.world).tasks && Calm(server.script, k)
    {
      var ans := server.PollTurn(repo);
      err, found := ans.PollFails?, name in server.world.tasks;
      LookupAnswered(server.cfg, server.world, ans);
      Take(repo, ans);
    }

    /** The answer is taken in. */
    method Take(ghost repo: string, ans: PollAnswer)
      requires server.Valid() && server.InPoll(repo)
      modifies server`world, server`events
      ensures server.Valid() && server.InPoll(repo)
      ensures server.world == PollStep(server.cfg, old(server.world), ans)
      ensures OnlyPollerCreates(server.events) ==> OnlyPollerCreates(old(server.events))
    {
      ghost var earlier := server.events;
      server.Apply(PollAnswered(ans));
      assert OnlyPollerCreates(server.events) ==> OnlyPollerCreates(earlier) by {
        assert server.events[..|earlier|] == earlier;
      }
    }

    method CreateTask(name: string, spec: Spec, ghost repo: string, ghost issues: seq<Issue>, ghost active: nat, ghost k: nat)
      returns (created: bool)
      requires server.Valid() && server.InPoll(repo) && server.world.poll == PollCreate(repo, issues, active)
      requires issues != [] && name == TaskName(repo, issues[0].number) && spec == Spec(issues[0].number, repo)
      modifies server`world, server`events, server`script
      ensures server.Valid() && server.InPoll(repo)
      ensures server.world.poll == NextIssue(repo, issues[1..], if created then active + 1 else active)
      ensures OnlyAdded(old(server.events), server.events, old(server.world).tasks, server.world.tasks,
                        if created then {name} else {})
      ensures CalmlyCreated(old(server.script), k, old(server.world), name, spec, created,
                            server.world.tasks, server.script)
    {
      var ans := server.PollTurn(repo);
      created := !ans.PollFails? && CanCreate(server.world, name, spec);
      ghost var mid, was := server.events, server.world.tasks;
      ghost var grown := if created then was[name := NewEntry(name, spec)] else was;
      CreatesOne(server.cfg, server.world, ans, repo, issues, active, name, spec, created, grown);
      CalmTurn(old(server.script), k, old(server.world), server.world, name, spec, created, grown);
      Take(repo, ans);
      AddedLast(old(server.events), mid, server.events, old(server.world).tasks, was, grown, if created then {name} else {});
    }

    /** Creates the task for an issue if it has none and creation is allowed. */
    method EnsureDevTask(repo: string, issueNumber: int, allowCreate: bool,
                         ghost issues: seq<Issue>, ghost active: nat, ghost k: nat) returns (created: bool)
      requires server.Valid() && server.InPoll(repo) && server.world.poll == PollLookup(repo, issues, active)
      requires issues != [] && issues[0].number == issueNumber && allowCreate == (active < server.cfg.maxTasks)
      modifies server`world, server`events, server`script
      ensures server.Valid() && server.InPoll(repo)
      ensures server.world.poll == NextIssue(repo, issues[1..], if created then active + 1 else active)
      ensures OnlyAdded(old(server.events), server.events, old(server.world).tasks, server.world.tasks,
                        if created then {TaskName(repo, issueNumber)} else {})
      ensures Calm(old(server.script), k + 2) ==>
                var name, spec := TaskName(repo, issueNumber), Spec(issueNumber, repo);
                && (created <==> allowCreate && CanCreate(old(server.world), name, spec))
                && server.world.tasks == (if created then old(server.world).tasks[name := NewEntry(name, spec)]
                                          else old(server.world).tasks)
                && Calm(server.script, k)
    {
      var name := TaskName(repo, issueNumber);
      var err, found := LookupTask(name, repo, issues, active, k + 1);
      if err || found || !allowCreate {
        return false;
      }
      created := CreateTask(name, Spec(issueNumber, repo), repo, issues, active, k);
    }

    /** The issues that carry the label, or an error. */
    method ListIssues(ghost repo: string, ghost k: nat) returns (issues: Option<seq<Issue>>)
      requires server.Valid() && server.InPoll(repo) && server.world.poll == PollIssues(repo)
      modifies server`world, server`events, server`script
      ensures server.Valid() && server.InPoll(repo)
      ensures server.world.poll == if issues.None? then Idle else PollCount(repo, issues.value)
      ensures OnlyAdded(old(server.events), server.events, old(server.world).tasks, server.world.tasks, {})
      ensures Calm(old(server.script), k + 1) ==> server.world.tasks == old(server.world).tasks && Calm(server.script, k)
      ensures old(server.script) != [] && old(server.script)[0].pollAnswer.PollListed? ==>
                issues == Some(old(server.script)[0].pollAnswer.issues)
    {
      var ans := server.PollTurn(repo);
      Take(repo, ans);
      issues := if ans.PollListed? then Some(ans.issues) else None;
    }

    /** The start of a poll: its credentials, and the form of the repository's name. */
    method OpenPoll(repo: string, ghost k: nat) returns (err: bool)
      requires server.Valid() && server.world.poll.Idle?
      modifies server
      ensures server.Valid() && server.before == old(server.events) && server.InPoll(repo)
      ensures server.world.poll == if err then Idle else PollIssues(repo)
      ensures OnlyAdded(old(server.events), server.events, old(server.world).tasks, server.world.tasks, {})
      ensures Calm(old(server.script), k + 1) ==>
                && (err <==> '/' !in repo) && server.world.tasks == old(server.world).tasks
                && Calm(server.script, k) && server.script == old(server.script)[1..]
    {
      server.StartPoll(repo);
      var ans := server.PollTurn(repo);
      Take(repo, ans);
      err := ans.PollFails? || '/' !in repo;
    }

    method CountActiveTasks(repo: string, ghost issues: seq<Issue>, ghost k: nat) returns (active: Option<nat>)
      requires server.Valid() && server.InPoll(repo) && server.world.poll == PollCount(repo, issues)
      modifies server`world, server`events, server`script
      ensures server.Valid() && server.InPoll(repo)
      ensures server.world.poll == if active.None? then Idle else NextIssue(repo, issues, active.value)
      ensures OnlyAdded(old(server.events), server.events, old(server.world).tasks, server.world.tasks, {})
      ensures Calm(old(server.script), k + 1) ==>
                && active == Some(ActiveCount(old(server.world)))
                && server.world.tasks == old(server.world).tasks && Calm(server.script, k)
    {
      var ans := server.PollTurn(repo);
      var count := CountActive(server.world.tasks);
      ActiveIsUnfinished(server.world.tasks);
      Take(repo, ans);
      active := if ans.PollFails? then None else Some(count);
    }

    /** The loop over the issues; `added` collects the numbers of those that got a task. */
    method CreateMissing(repo: string, issues: seq<Issue>, count: nat) returns (ghost added: seq<int>)
      requires server.Valid() && server.InPoll(repo) && server.world.poll == NextIssue(repo, issues, count)
      modifies server`world, server`events, server`script
      ensures server.Valid() && server.InPoll(repo) && server.world.poll.Idle?
      ensures forall n :: n in added ==> IsListed(issues, n)
      ensures OnlyAdded(old(server.events), server.events, old(server.world).tasks, server.world.tasks, Names(repo, added))
      ensures Calm(old(server.script), 2 * |issues|) ==>
                server.world.tasks == PollLoop(server.cfg.maxTasks, old(server.world).tasks, repo, issues, count)
    {
      hide *;
      ghost var was := Progress(server.events, server.world.tasks, Calm(server.script, 2 * |issues|), issues, count);
      var active: nat := count;
      var i := 0;
      added := [];
      LoopBegun(server, repo, was);
      while i < |issues|
        invariant 0 <= i <= |issues| && OnTrack(server, repo, was, i, active, added)
      {
        var created;
        created, added := Consider(repo, issues[i], active, was, i, added);
        if created {
          active := active + 1;
        }
        i := i + 1;
      }
      LoopDone(server, repo, was, active, added);
    }

    /** One issue of the list, with the account of the loop so far carried on. */
    method Consider(repo: string, issue: Issue, active: nat, ghost was: Progress, ghost i: nat, ghost added: seq<int>)
      returns (created: bool, ghost more: seq<int>)
      requires i < |was.issues| && issue == was.issues[i] && OnTrack(server, repo, was, i, active, added)
      modifies server`world, server`events, server`script
      ensures OnTrack(server, repo, was, i + 1, if created then active + 1 else active, more)
    {
      ghost var events, tasks := server.events, server.world.tasks;
      SuffixStep(was.issues, i);
      created := false;
      if !issue.isPullRequest {
        created := EnsureDevTask(repo, issue.number, active < server.cfg.maxTasks, was.issues[i..], active,
                                 2 * (|was.issues| - i - 1));
      }
      more := if created then added + [issue.number] else added;
      AddedNext(repo, was.events, events, server.events, was.tasks, tasks, server.world.tasks, added, created, issue.number);
      StillListed(was.issues, i, added, created);
    }

    /** Lists the issues, counts the active tasks and creates what is missing. */
    method CreateListed(repo: string, ghost n: nat) returns (err: bool, ghost listed: seq<Issue>, ghost added: seq<int>)
      requires server.Valid() && server.InPoll(repo) && server.world.poll == PollIssues(repo)
      modifies server`world, server`events, server`script
      ensures server.Valid() && server.InPoll(repo) && server.world.poll.Idle?
      ensures forall m :: m in added ==> IsListed(listed, m)
      ensures OnlyAdded(old(server.events), server.events, old(server.world).tasks, server.world.tasks, Names(repo, added))
      ensures Calm(old(server.script), 2 + 2 * n) && old(server.script)[0].pollAnswer.PollListed?
              && n == |Listed(old(server.script)[0])| ==>
                PolledExactly(server.cfg.maxTasks, old(server.world).tasks, server.world.tasks, repo,
                              Listed(old(server.script)[0]))
    {
      hide Run, Next;
      ghost var was := server.world.tasks;
      listed, added := [], [];
      var issues := ListIssues(repo, 1 + 2 * n);
      if issues.None? {
        return true, [], [];
      }
      listed := issues.value;
      var count := CountActiveTasks(repo, issues.value, 2 * n);
      if count.None? {
        return true, listed, [];
      }
      added := CreateMissing(repo, issues.value, count.value);
      LoopCreates(server.cfg.maxTasks, was, repo, issues.value, count.value);
      return false, listed, added;
    }

    /**
     One poll of a repository. The history grows by the start of the poll and its calls among the steps of everyone
     else; unless tasks were submitted otherwise too, the new tasks are those of listed issues; and undisturbed, the
     poll creates a fresh task for exactly the first missing issues that the cap has room for.
     */
    method PollRepo(repo: string) returns (err: bool, ghost listed: seq<Issue>, ghost added: seq<int>)
      requires server.Valid() && server.world.poll.Idle?
      modifies server
      ensures server.Valid() && server.world.poll.Idle?
      ensures server.before == old(server.events) && server.InPoll(repo)
      ensures forall m :: m in added ==> IsListed(listed, m)
      ensures OnlyAdded(old(server.events), server.events, old(server.world).tasks, server.world.tasks, Names(repo, added))
      ensures '/' in repo && CalmPoll(old(server.script)) ==>
                PolledExactly(server.cfg.maxTasks, old(server.world).tasks, server.world.tasks, repo,
                              Listed(old(server.script)[1]))
    {
      ghost var n := if |server.script| > 1 then |Listed(server.script[1])| else 0;
      listed, added := [], [];
      assert Names(repo, []) == {};
      err := OpenPoll(repo, 2 + 2 * n);
      if !err {
        err, listed, added := CreateListed(repo, n);
      }
    }

    /**
     With the poller as sole creator, whatever else goes on meanwhile: every new task is that of an issue this poll
     listed, was created at a moment below the cap, and the cap holds in the end.
     */
    method PollWithinCap(repo: string) returns (err: bool, ghost listed: seq<Issue>, ghost added: seq<int>)
      requires server.Valid() && server.world.poll.Idle?
      requires TerminalInv(server.origin) && server.origin.poll.Idle?
      modifies server
      ensures server.Valid() && server.world.poll.Idle?
      ensures server.before == old(server.events) && server.InPoll(repo)
      ensures OnlyPollerCreates(server.events) ==>
                && (forall m :: m in added ==> IsListed(listed, m))
                && server.world.tasks.Keys == old(server.world).tasks.Keys + Names(repo, added)
                && (forall name :: name in server.world.tasks && name !in old(server.world).tasks ==>
                      exists m :: |old(server.events)| <= m && CreatedBelowCap(server.cfg, server.origin, server.events, m, name))
                && (ActiveCount(server.world) <= server.cfg.maxTasks || ActiveCount(server.world) <= ActiveCount(server.origin))
    {
      ghost var i := |server.events|;
      err, listed, added := PollRepo(repo);
      if OnlyPollerCreates(server.events) {
        ConcurrencyCap(server.cfg, server.origin, server.events);
        AllBelowCap(server.cfg, server.origin, server.events, i);
        assert server.events[..i] == old(server.events);
      }
    }
  }

  lemma AllBelowCap(cfg: Config, w0: World, events: seq<Event>, i: nat)
    requires TerminalInv(w0) && w0.poll.Idle? && OnlyPollerCreates(events) && i <= |events|
    ensures forall name :: name in Run(cfg, w0, events).tasks && name !in Run(cfg, w0, events[..i]).tasks ==>
              exists m :: i <= m && CreatedBelowCap(cfg, w0, events, m, name)
  {
    forall name | name in Run(cfg, w0, events).tasks && name !in Run(cfg, w0, events[..i]).tasks
      ensures exists m :: i <= m && CreatedBelowCap(cfg, w0, events, m, name)
    {
      var m := NewTasksBelowCap(cfg, w0, events, i, name);
    }
  }
}
