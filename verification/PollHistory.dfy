/**
 What a task that a poll creates rests on: the calls of that poll, each of them answered, whatever else goes on.
 */
module PollHistory {
  import opened Domain
  import opened Protocol
  import opened Machine
  import opened Safety
  import opened Lifecycle

  /** The events of one poll: its start, and the replies to its first three calls and to its last lookup. */
  datatype Trace = Trace(start: nat, creds: nat, list: nat, count: nat, lookup: nat)

  /** A call of the poll went through. */
  predicate Went(events: seq<Event>, k: nat)
    requires k < |events|
  {
    events[k].PollAnswered? && !events[k].pollAns.PollFails?
  }

  predicate IsTail<T(==)>(xs: seq<T>, ys: seq<T>) {
    |xs| <= |ys| && ys[|ys| - |xs|..] == xs
  }

  lemma TailOfTail<T>(xs: seq<T>, ys: seq<T>, zs: seq<T>)
    requires IsTail(xs, ys) && IsTail(ys, zs)
    ensures IsTail(xs, zs)
  {
  }

  lemma TailOfSelf<T>(xs: seq<T>)
    ensures IsTail(xs, xs)
  {
  }

  predicate InLoop(poll: Poll) {
    poll.PollLookup? || poll.PollCreate?
  }

  /** A poll that stands at `poll` after `j` events can have come there by these ones. */
  predicate CameBy(events: seq<Event>, j: nat, poll: Poll, t: Trace)
    requires j <= |events|
  {
    && !poll.Idle? && t.start < j && events[t.start] == PollStart(poll.repo)
    && (forall m :: t.start < m < j ==> !events[m].Restart?)
    && (!poll.PollCreds? ==> t.start < t.creds < j && Went(events, t.creds))
    && (poll.PollCount? || InLoop(poll) ==>
          t.creds < t.list < j && events[t.list].PollAnswered? && events[t.list].pollAns.PollListed?
          && IsTail(poll.issues, events[t.list].pollAns.issues))
    && (InLoop(poll) ==>
          t.list < t.count < j && Went(events, t.count) && poll.issues != [] && !poll.issues[0].isPullRequest)
    && (poll.PollCreate? ==> t.count < t.lookup < j && Went(events, t.lookup))
  }

  /** The poll that is on at `j` has come there by these events, and the name it is about to create was missing. */
  ghost predicate TracedBy(cfg: Config, w0: World, events: seq<Event>, j: nat, t: Trace)
    requires j <= |events|
  {
    var poll := At(cfg, w0, events, j).poll;
    && CameBy(events, j, poll, t)
    && (poll.PollCreate? ==> TaskName(poll.repo, poll.issues[0].number) !in At(cfg, w0, events, t.lookup).tasks)
  }

  lemma {:induction false} NextIssueListed(repo: string, issues: seq<Issue>, active: nat)
    ensures var poll := NextIssue(repo, issues, active);
            poll.PollLookup? ==>
              poll.repo == repo && IsTail(poll.issues, issues) && poll.issues != [] && !poll.issues[0].isPullRequest
  {
    if issues == [] || !issues[0].isPullRequest {
    } else {
      NextIssueListed(repo, issues[1..], active);
      assert IsTail(issues[1..], issues);
    }
  }

  /** How a reply moves the poll from `p` on to `q`. */
  predicate MovesOn(w: World, ans: PollAnswer, p: Poll, q: Poll) {
    q.Idle? || (
      && !p.Idle? && q.repo == p.repo && !q.PollCreds?
      && (q.PollIssues? ==> p.PollCreds? && !ans.PollFails?)
      && (q.PollCount? ==> p.PollIssues? && ans.PollListed? && q.issues == ans.issues)
      && (q.PollLookup? ==>
            && (InLoop(p) || (p.PollCount? && !ans.PollFails?))
            && IsTail(q.issues, p.issues) && q.issues != [] && !q.issues[0].isPullRequest)
      && (q.PollCreate? ==>
            && p.PollLookup? && !ans.PollFails? && q.issues == p.issues && q.issues != []
            && TaskName(q.repo, q.issues[0].number) !in w.tasks))
  }

  lemma OpeningMovesOn(cfg: Config, w: World, ans: PollAnswer)
    requires !InLoop(w.poll)
    ensures MovesOn(w, ans, w.poll, PollStep(cfg, w, ans).poll)
  {
    if w.poll.PollCount? {
      NextIssueListed(w.poll.repo, w.poll.issues, |ActiveTasks(w.tasks)|);
    }
  }

  lemma LookupMovesOn(cfg: Config, w: World, ans: PollAnswer)
    requires w.poll.PollLookup?
    ensures MovesOn(w, ans, w.poll, PollStep(cfg, w, ans).poll)
  {
    hide NextIssue, IsTail, TaskName;
    if w.poll.issues != [] {
      RestIsTail(w.poll.repo, w.poll.issues, w.poll.active);
    }
  }

  lemma CreateMovesOn(cfg: Config, w: World, ans: PollAnswer)
    requires w.poll.PollCreate?
    ensures MovesOn(w, ans, w.poll, PollStep(cfg, w, ans).poll)
  {
    hide NextIssue, IsTail, TaskName, CanCreate;
    if w.poll.issues != [] {
      RestIsTail(w.poll.repo, w.poll.issues, w.poll.active);
      RestIsTail(w.poll.repo, w.poll.issues, w.poll.active + 1);
    }
  }

  lemma RestIsTail(repo: string, issues: seq<Issue>, active: nat)
    requires issues != []
    ensures var poll := NextIssue(repo, issues[1..], active);
            && (poll.Idle? || poll.PollLookup?)
            && (poll.PollLookup? ==>
                  poll.repo == repo && IsTail(poll.issues, issues) && poll.issues != [] && !poll.issues[0].isPullRequest)
  {
    NextIssueListed(repo, issues[1..], active);
    assert IsTail(issues[1..], issues);
  }

  lemma PollMovesOn(cfg: Config, w: World, ans: PollAnswer)
    ensures MovesOn(w, ans, w.poll, PollStep(cfg, w, ans).poll)
  {
    hide PollStep, MovesOn;
    if w.poll.PollLookup? {
      LookupMovesOn(cfg, w, ans);
    } else if w.poll.PollCreate? {
      CreateMovesOn(cfg, w, ans);
    } else {
      OpeningMovesOn(cfg, w, ans);
    }
  }

  lemma OthersKeepPoll(cfg: Config, w: World, event: Event)
    requires !event.PollAnswered?
    ensures var poll := Next(cfg, w, event).poll;
            if event.Restart? then poll.Idle?
            else if event.PollStart? && w.poll.Idle? then poll == PollCreds(event.repo)
            else poll == w.poll
  {
  }

  lemma RunTo(cfg: Config, w0: World, events: seq<Event>, k: nat)
    requires k < |events|
    ensures At(cfg, w0, events, k + 1) == Next(cfg, At(cfg, w0, events, k), events[k])
  {
    assert events[..k + 1] == events[..k] + [events[k]];
    RunStep(cfg, w0, events[..k], events[k]);
  }

  lemma {:induction false} PollTraced(cfg: Config, w0: World, events: seq<Event>, j: nat) returns (t: Trace)
    requires w0.poll.Idle? && j <= |events| && !At(cfg, w0, events, j).poll.Idle?
    ensures TracedBy(cfg, w0, events, j, t)
    decreases j
  {
    hide Run, Next;
    RunNothing(cfg, w0, events);
    if j > 0 {
      var k := j - 1;
      RunTo(cfg, w0, events, k);
      var w := At(cfg, w0, events, k);
      if events[k].PollAnswered? {
        PollMoved(cfg, w, events[k].pollAns);
        t := PollTraced(cfg, w0, events, k);
        t := TracedFurther(cfg, w0, events, k, t);
      } else {
        OthersKeepPoll(cfg, w, events[k]);
        if w.poll.Idle? {
          t := Trace(k, 0, 0, 0, 0);
        } else {
          t := PollTraced(cfg, w0, events, k);
        }
      }
    }
  }

  lemma RunNothing(cfg: Config, w0: World, events: seq<Event>)
    ensures At(cfg, w0, events, 0) == w0
  {
  }

  lemma PollMoved(cfg: Config, w: World, ans: PollAnswer)
    requires !Next(cfg, w, PollAnswered(ans)).poll.Idle?
    ensures !w.poll.Idle?
  {
    PollMovesOn(cfg, w, ans);
  }

  lemma CameFurther(events: seq<Event>, k: nat, w: World, q: Poll, t: Trace) returns (t': Trace)
    requires k < |events| && events[k].PollAnswered? && CameBy(events, k, w.poll, t)
    requires !q.Idle? && MovesOn(w, events[k].pollAns, w.poll, q)
    ensures CameBy(events, k + 1, q, t') && (q.PollCreate? ==> t'.lookup == k)
  {
    hide IsTail, TaskName;
    match q
    case PollIssues(_) => t' := t.(creds := k);
    case PollCount(_, issues) =>
      t' := t.(list := k);
      TailOfSelf(issues);
    case PollLookup(_, issues, _) =>
      t' := if w.poll.PollCount? then t.(count := k) else t;
      TailOfTail(issues, w.poll.issues, events[t.list].pollAns.issues);
    case PollCreate(_, _, _) => t' := t.(lookup := k);
  }

  lemma TracedFurther(cfg: Config, w0: World, events: seq<Event>, k: nat, t: Trace) returns (t': Trace)
    requires k < |events| && events[k].PollAnswered? && TracedBy(cfg, w0, events, k, t)
    requires !At(cfg, w0, events, k + 1).poll.Idle?
    ensures TracedBy(cfg, w0, events, k + 1, t')
  {
    hide Run, Next, PollStep, IsTail, TaskName;
    RunTo(cfg, w0, events, k);
    var w := At(cfg, w0, events, k);
    StepOfPoll(cfg, w, events[k].pollAns);
    PollMovesOn(cfg, w, events[k].pollAns);
    t' := CameFurther(events, k, w, At(cfg, w0, events, k + 1).poll, t);
  }

  lemma StepOfPoll(cfg: Config, w: World, ans: PollAnswer)
    ensures Next(cfg, w, PollAnswered(ans)) == PollStep(cfg, w, ans)
  {
  }

  /**
   In every run, a task that is new after an event, and was not submitted by someone else, was created by the create call
   of a poll, for an issue in the list that this poll was given. Before that, with no restart in between, the poll had read its
   credentials, got the list, counted the tasks, and looked the name up without finding it; every one of these calls
   had gone through.
   */
  lemma CreationRests(cfg: Config, w0: World, events: seq<Event>, k: nat, name: string) returns (t: Trace, issue: Issue)
    requires w0.poll.Idle? && k < |events| && !events[k].Submit?
    requires name !in At(cfg, w0, events, k).tasks && name in At(cfg, w0, events, k + 1).tasks
    ensures t.start < t.creds < t.list < t.count < t.lookup < k
    ensures events[t.start].PollStart? && forall m :: t.start < m < k ==> !events[m].Restart?
    ensures Went(events, t.creds) && Went(events, t.count) && Went(events, t.lookup) && Went(events, k)
    ensures events[t.list].PollAnswered? && events[t.list].pollAns.PollListed? && issue in events[t.list].pollAns.issues
    ensures !issue.isPullRequest && name == TaskName(events[t.start].repo, issue.number)
    ensures name !in At(cfg, w0, events, t.lookup).tasks
    ensures At(cfg, w0, events, k + 1).tasks[name] == NewEntry(name, Spec(issue.number, events[t.start].repo))
  {
    hide Run, Next;
    RunTo(cfg, w0, events, k);
    var w := At(cfg, w0, events, k);
    CreatedByPoll(cfg, w, events[k], name);
    t := PollTraced(cfg, w0, events, k);
    issue := w.poll.issues[0];
    TailMember(w.poll.issues, events[t.list].pollAns.issues);
  }

  lemma TailMember<T>(xs: seq<T>, ys: seq<T>)
    requires IsTail(xs, ys) && xs != []
    ensures xs[0] in ys
  {
    assert ys[|ys| - |xs|] == xs[0];
  }

  lemma CreatedByPoll(cfg: Config, w: World, event: Event, name: string)
    requires !event.Submit? && name !in w.tasks && name in Next(cfg, w, event).tasks
    ensures event.PollAnswered? && !event.pollAns.PollFails? && w.poll.PollCreate? && w.poll.issues != []
    ensures name == TaskName(w.poll.repo, w.poll.issues[0].number)
    ensures Next(cfg, w, event).tasks[name] == NewEntry(name, Spec(w.poll.issues[0].number, w.poll.repo))
  {
    if event.PollAnswered? {
    } else {
      NoCreation(cfg, w, event);
    }
  }

  /** A lookup or a creation that fails costs the poll no other issue: it goes on with the next that is no pull request. */
  lemma FailureGoesOn(cfg: Config, w: World) returns (k: nat)
    requires InLoop(w.poll) && w.poll.issues != []
    ensures 1 <= k <= |w.poll.issues| && forall i :: 1 <= i < k ==> w.poll.issues[i].isPullRequest
    ensures PollStep(cfg, w, PollFails).tasks == w.tasks
    ensures var p, q := w.poll, PollStep(cfg, w, PollFails).poll;
            if k == |p.issues| then q.Idle?
            else !p.issues[k].isPullRequest && q == PollLookup(p.repo, p.issues[k..], p.active)
  {
    k := NextIssueAt(w.poll.repo, w.poll.issues[1..], w.poll.active);
    k := k + 1;
  }

  lemma {:induction false} NextIssueAt(repo: string, issues: seq<Issue>, active: nat) returns (k: nat)
    ensures k <= |issues| && forall i :: 0 <= i < k ==> issues[i].isPullRequest
    ensures NextIssue(repo, issues, active)
         == if k == |issues| then Idle else PollLookup(repo, issues[k..], active)
    ensures k < |issues| ==> !issues[k].isPullRequest
  {
    if issues == [] || !issues[0].isPullRequest {
      k := 0;
    } else {
      k := NextIssueAt(repo, issues[1..], active);
      k := k + 1;
    }
  }
}
