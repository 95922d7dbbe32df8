/**
 The API server and GitHub as the running operator meets them: one object whose state only changes by
 events of module Machine, and which keeps the history that led to it.
 */
module Cluster {
  import opened Domain
  import opened Protocol
  import opened Machine
  import opened Safety
  import opened Capacity

  /** What everyone else does before a call is answered, and the answer. */
  datatype Turn = Turn(before: seq<Event>, answer: Answer, pollAnswer: PollAnswer)

  /** With no answers left every call fails. */
  function Head(script: seq<Turn>): Turn {
    if script == [] then Turn([], Fails, PollFails) else script[0]
  }

  function Rest(script: seq<Turn>): seq<Turn> {
    if script == [] then [] else script[1..]
  }

  /** Nobody else moves a pass on or ends it, and the operator is not restarted under it. */
  predicate SparesPass(event: Event, me: string) {
    !event.Restart? && !((event.Answered? || event.Finish?) && event.name == me)
  }

  lemma PassIsSpared(cfg: Config, w: World, event: Event, me: string)
    requires me in w.tasks && w.tasks[me].pass.Some? && SparesPass(event, me)
    ensures me in Next(cfg, w, event).tasks && Next(cfg, w, event).tasks[me].pass == w.tasks[me].pass
  {
  }

  predicate SparesPoll(event: Event) {
    !event.Restart? && !event.PollAnswered?
  }

  lemma PollIsSpared(cfg: Config, w: World, event: Event)
    requires !w.poll.Idle? && SparesPoll(event)
    ensures Next(cfg, w, event).poll == w.poll
    ensures !event.Submit? ==> Next(cfg, w, event).tasks.Keys == w.tasks.Keys
  {
    if !event.Submit? {
      NoCreation(cfg, w, event);
    }
  }

  /** Unless someone else submitted tasks too, the tasks grew by exactly those named. */
  ghost predicate OnlyAdded(was: seq<Event>, events: seq<Event>, tasks: map<string, Entry>, later: map<string, Entry>,
                            names: set<string>)
  {
    OnlyPollerCreates(events) ==> OnlyPollerCreates(was) && later.Keys == tasks.Keys + names
  }

  class Server {
    const cfg: Config
    var world: World
    /** The answers to come; when there are none left, every call fails. */
    var script: seq<Turn>
    ghost const origin: World
    ghost var events: seq<Event>
    /** The events before the pass or the poll in hand. */
    ghost var before: seq<Event>

    ghost predicate Valid()
      reads this
    {
      world == Run(cfg, origin, events)
    }

    /** Since `before`, the pass over `name` was started and not ended. */
    ghost predicate InPass(name: string)
      reads this
    {
      && before + [Start(name)] <= events
      && forall k :: |before| < k < |events| ==> !events[k].Restart? && events[k] != Finish(name)
    }

    /** Since `before`, the poll of `repo` was started and not cut off. */
    ghost predicate InPoll(repo: string)
      reads this
    {
      && before + [PollStart(repo)] <= events
      && forall k :: |before| < k < |events| ==> !events[k].Restart?
    }

    /** The pass over task `name` works on `copy` and stands at `pt`. */
    ghost predicate At(name: string, copy: Task, pt: Point)
      reads this
    {
      && InPass(name)
      && name in world.tasks && world.tasks[name].pass.Some?
      && world.tasks[name].pass.value.copy == copy && world.tasks[name].pass.value.point == pt
    }

    /** The calls of the pass over `name` so far, with their replies. */
    ghost function LogOf(name: string): seq<Exchange>
      requires name in world.tasks && world.tasks[name].pass.Some?
      reads this
    {
      world.tasks[name].pass.value.log
    }

    constructor (cfg: Config, start: World, script: seq<Turn>)
      ensures Valid() && events == [] && world == start && this.cfg == cfg && this.script == script
    {
      this.cfg := cfg;
      this.world := start;
      this.script := script;
      origin := start;
      events := [];
      before := [];
    }

    function Now(): nat
      reads this
    {
      world.now
    }

    method Apply(event: Event)
      requires Valid()
      modifies this`world, this`events
      ensures Valid()
      ensures world == Next(cfg, old(world), event) && events == old(events) + [event]
    {
      RunStep(cfg, origin, events, event);
      world := Next(cfg, world, event);
      events := events + [event];
    }

    /** A worker takes up a queued task. */
    method Open(name: string)
      requires Valid() && name in world.tasks && world.tasks[name].pass.None? && world.tasks[name].book.ready
      modifies this`world, this`events, this`before
      ensures Valid() && before == old(events)
      ensures var t := old(world).tasks[name].task;
              At(name, t, Begin(cfg, t, Now())) && LogOf(name) == [] && world.tasks[name].task == t
    {
      before := events;
      Apply(Start(name));
    }

    /** The work queue takes the finished pass back. */
    method Close(name: string)
      requires Valid() && name in world.tasks && world.tasks[name].pass.Some? && world.tasks[name].pass.value.point.Return?
      modifies this`world, this`events
      ensures Valid() && events == old(events) + [Finish(name)]
      ensures name in world.tasks && world.tasks[name] == Finished(old(world).tasks[name], Now())
    {
      Apply(Finish(name));
    }

    /** Everyone else's steps while the pass over `me` waits for an answer. */
    method Elsewhere(me: string, before: seq<Event>)
      requires Valid() && InPass(me) && me in world.tasks && world.tasks[me].pass.Some?
      modifies this`world, this`events
      ensures Valid() && InPass(me)
      ensures me in world.tasks && world.tasks[me].pass == old(world).tasks[me].pass
    {
      var i := 0;
      while i < |before|
        invariant 0 <= i <= |before|
        invariant Valid() && InPass(me)
        invariant me in world.tasks && world.tasks[me].pass == old(world).tasks[me].pass
      {
        if SparesPass(before[i], me) {
          PassIsSpared(cfg, world, before[i], me);
          Apply(before[i]);
        }
        i := i + 1;
      }
    }

    /** One call of the pass over `me`: it is made at `pt`, and its reply moves the pass on from there. */
    method Do(me: string, call: Call, ghost copy: Task, ghost pt: Point) returns (rep: Reply)
      requires Valid() && At(me, copy, pt)
      requires call == CallAt(cfg, copy, pt) && !call.NoCall?
      modifies this`world, this`events, this`script
      ensures Valid() && At(me, copy, After(cfg, copy, pt, rep, Now()))
      ensures LogOf(me) == old(LogOf(me)) + [Exchange(call, rep)]
      ensures |script| < old(|script|) || (rep.Err? && script == old(script))
    {
      var turn := Head(script);
      script := Rest(script);
      Elsewhere(me, turn.before);
      rep := Take(me, turn.answer, call);
    }

    /** The answer arrives: the call takes effect and the pass moves on. */
    method Take(me: string, ans: Answer, ghost call: Call) returns (rep: Reply)
      requires Valid() && InPass(me) && me in world.tasks && world.tasks[me].pass.Some?
      requires var p := world.tasks[me].pass.value; call == CallAt(cfg, p.copy, p.point) && !call.NoCall?
      modifies this`world, this`events
      ensures Valid()
      ensures var p := old(world).tasks[me].pass.value;
              && At(me, p.copy, After(cfg, p.copy, p.point, rep, Now()))
              && LogOf(me) == p.log + [Exchange(call, rep)]
      ensures ans.Fails? ==> rep.Err?
    {
      CallMoves(cfg, world, me, ans, call);
      Apply(Answered(me, ans));
      var log := world.tasks[me].pass.value.log;
      rep := log[|log| - 1].reply;
    }

    // ---- the poller's calls

    /** The poller's clock ticks. */
    method StartPoll(repo: string)
      requires Valid() && world.poll.Idle?
      modifies this`world, this`events, this`before
      ensures Valid() && before == old(events) && InPoll(repo)
      ensures world == old(world).(poll := PollCreds(repo))
      ensures OnlyPollerCreates(events) ==> OnlyPollerCreates(old(events))
    {
      before := events;
      Apply(PollStart(repo));
      assert events[..|before|] == before;
    }

    /** Everyone else's steps while the poller waits for an answer, which is then at hand but not yet taken in. */
    method PollTurn(ghost repo: string) returns (ans: PollAnswer)
      requires Valid() && InPoll(repo) && !world.poll.Idle?
      modifies this`world, this`events, this`script
      ensures Valid() && InPoll(repo) && world.poll == old(world).poll
      ensures script == Rest(old(script)) && ans == Head(old(script)).pollAnswer
      ensures Head(old(script)).before == [] ==> world == old(world)
      ensures OnlyAdded(old(events), events, old(world).tasks, world.tasks, {})
    {
      var turn := Head(script);
      script := Rest(script);
      ans := turn.pollAnswer;
      var i := 0;
      while i < |turn.before|
        invariant 0 <= i <= |turn.before|
        invariant Valid() && InPoll(repo) && world.poll == old(world).poll && script == Rest(old(script))
        invariant i == 0 ==> world == old(world)
        invariant OnlyAdded(old(events), events, old(world).tasks, world.tasks, {})
      {
        if SparesPoll(turn.before[i]) {
          PollIsSpared(cfg, world, turn.before[i]);
          ghost var earlier := events;
          Apply(turn.before[i]);
          assert OnlyPollerCreates(events) ==> OnlyPollerCreates(earlier) && !turn.before[i].Submit? by {
            assert events[|earlier|] == turn.before[i] && events[..|earlier|] == earlier;
          }
        }
        i := i + 1;
      }
    }
  }

  /** An answered call appends itself to the pass's log, and leads where its reply says. */
  lemma CallMoves(cfg: Config, w: World, me: string, ans: Answer, call: Call)
    requires me in w.tasks && w.tasks[me].pass.Some?
    requires var p := w.tasks[me].pass.value; call == CallAt(cfg, p.copy, p.point) && !call.NoCall?
    ensures var w', p := AnsweredStep(cfg, w, me, ans), w.tasks[me].pass.value;
            && me in w'.tasks && w'.tasks[me].pass.Some? && w'.now == w.now
            && var q := w'.tasks[me].pass.value;
               && |q.log| == |p.log| + 1 && q.copy == p.copy
               && q.log == p.log + [Exchange(call, q.log[|q.log| - 1].reply)]
               && q.point == After(cfg, p.copy, p.point, q.log[|q.log| - 1].reply, w.now)
               && (ans.Fails? ==> q.log[|q.log| - 1].reply.Err?)
  {
  }
}
