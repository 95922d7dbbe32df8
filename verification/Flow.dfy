/**
 The route of a task through the lifecycle, and the balance of entries and exits along every run.
 */
module Flow {
  import opened Glob
  import opened Domain
  import opened Protocol
  import opened Machine
  import opened TaskInvariant
  import opened Safety
  import opened Lifecycle

  datatype Move = Move(from: Phase, to: Phase)

  /** The phase changes of task `n` along a run, in order. */
  function Trail(cfg: Config, w0: World, events: seq<Event>, n: string): seq<Move> {
    if events == [] then []
    else
      var earlier := events[..|events| - 1];
      Trail(cfg, w0, earlier, n) + LastMove(Run(cfg, w0, earlier), Run(cfg, w0, events), n)
  }

  function LastMove(w: World, w': World, n: string): seq<Move> {
    if n in w.tasks && n in w'.tasks && w'.tasks[n].task.status.phase != w.tasks[n].task.status.phase
    then [Move(w.tasks[n].task.status.phase, w'.tasks[n].task.status.phase)]
    else []
  }

  function Arrivals(trail: seq<Move>, phase: Phase): nat {
    if trail == [] then 0
    else Arrivals(trail[..|trail| - 1], phase) + if trail[|trail| - 1].to == phase then 1 else 0
  }

  function Departures(trail: seq<Move>, phase: Phase): nat {
    if trail == [] then 0
    else Departures(trail[..|trail| - 1], phase) + if trail[|trail| - 1].from == phase then 1 else 0
  }

  function One(b: bool): nat {
    if b then 1 else 0
  }

  /** The moves follow the edges of the lifecycle from a fresh task to `phase`. */
  predicate Route(trail: seq<Move>, phase: Phase) {
    if trail == [] then phase == Unset
    else
      var last := trail[|trail| - 1];
      && last.to == phase && last.from != last.to && Edge(last.from, last.to)
      && Route(trail[..|trail| - 1], last.from)
  }

  lemma RouteAppend(trail: seq<Move>, move: Move)
    requires Route(trail, move.from) && move.from != move.to && Edge(move.from, move.to)
    ensures Route(trail + [move], move.to)
  {
    assert (trail + [move])[..|trail|] == trail;
  }

  lemma CountsAppend(trail: seq<Move>, move: Move, p: Phase)
    ensures Arrivals(trail + [move], p) == Arrivals(trail, p) + One(move.to == p)
    ensures Departures(trail + [move], p) == Departures(trail, p) + One(move.from == p)
  {
    assert (trail + [move])[..|trail|] == trail;
  }

  /** What a run has done with one task. */
  ghost predicate OnRoute(w: World, trail: seq<Move>, n: string) {
    if n in w.tasks
    then Route(trail, w.tasks[n].task.status.phase) && w.tasks[n].book.cycle == Arrivals(trail, Building)
    else trail == []
  }

  /** Every run takes a task along a route to its phase; the cycle counter is the number of entries to Building. */
  lemma {:induction false} TrailIsRoute(cfg: Config, w0: World, events: seq<Event>, n: string)
    requires GoodRun(cfg, w0, events)
    ensures OnRoute(Run(cfg, w0, events), Trail(cfg, w0, events, n), n)
  {
    if events == [] {
      StartOfRoute(w0, n);
    } else {
      var k := |events| - 1;
      GoodPrefix(cfg, w0, events, k);
      TrailIsRoute(cfg, w0, events[..k], n);
      assert events[..k + 1] == events;
      AtStep(cfg, w0, events, k);
      RouteStep(cfg, At(cfg, w0, events, k), events[k], Trail(cfg, w0, events[..k], n), n);
    }
  }

  lemma StartOfRoute(w0: World, n: string)
    requires Initial(w0)
    ensures OnRoute(w0, [], n)
  {
    if n in w0.tasks {
      assert w0.tasks[n] == NewEntry(w0.tasks[n].task.name, w0.tasks[n].task.spec);
    }
  }

  lemma RouteStep(cfg: Config, w: World, event: Event, trail: seq<Move>, n: string)
    requires Inv(cfg, w) && OnRoute(w, trail, n)
    ensures var w' := Next(cfg, w, event); OnRoute(w', trail + LastMove(w, w', n), n)
  {
    var w' := Next(cfg, w, event);
    if n in w.tasks {
      StepGrows(cfg, w, event);
      StatusMoves(cfg, w, event, n);
      CycleStep(cfg, w, event, n);
      var from, to := w.tasks[n].task.status.phase, w'.tasks[n].task.status.phase;
      if from != to {
        RouteAppend(trail, Move(from, to));
        CountsAppend(trail, Move(from, to), Building);
      } else {
        assert trail + [] == trail;
      }
    } else if n in w'.tasks {
      Newborn(cfg, w, event, n);
    }
  }

  lemma Newborn(cfg: Config, w: World, event: Event, n: string)
    requires n !in w.tasks && n in Next(cfg, w, event).tasks
    ensures Next(cfg, w, event).tasks[n].task.status == FRESH && Next(cfg, w, event).tasks[n].book.cycle == 0
  {
  }

  lemma CycleStep(cfg: Config, w: World, event: Event, n: string)
    requires n in w.tasks
    ensures var e, e' := w.tasks[n], EntryAfter(cfg, w, event, n);
            e'.book.cycle == e.book.cycle + One(e'.task.status.phase == Building && e.task.status.phase != Building)
  {
    if event.Answered? {
      if event.name == n && w.tasks[n].pass.Some? {
        var e := w.tasks[n];
        CallCounts(cfg, e, Lookup(w.spaces, Workplace(cfg, e)), event.ans, w.now, w.lifetimes);
      }
    } else {
      CycleElsewhere(cfg, w, event, n);
    }
  }

  lemma CycleElsewhere(cfg: Config, w: World, event: Event, n: string)
    requires n in w.tasks && !event.Answered?
    ensures var e, e' := w.tasks[n], EntryAfter(cfg, w, event, n);
            e'.book.cycle == e.book.cycle && e'.task.status == e.task.status
  {
  }

  lemma CallCounts(cfg: Config, e: Entry, sp: Option<Space>, ans: Answer, now: nat, lifetime: nat)
    requires e.pass.Some?
    ensures var e' := Advance(cfg, e, sp, ans, now, lifetime).0;
            e'.book.cycle == e.book.cycle + One(e'.task.status.phase == Building && e.task.status.phase != Building)
  {
  }

  ghost predicate Balanced(trail: seq<Move>, phase: Phase) {
    && Arrivals(trail, Building)
         == One(phase != Unset) + Departures(trail, AwaitingRevision) + Departures(trail, BlockedOnClarification)
    && Arrivals(trail, Building)
         == Arrivals(trail, AwaitingReview) + Arrivals(trail, BlockedOnClarification) + Arrivals(trail, Failed)
            + One(phase == Building || phase == Running)
    && Arrivals(trail, AwaitingReview)
         == Arrivals(trail, AwaitingRevision) + Arrivals(trail, Completed) + One(phase == AwaitingReview)
    && Arrivals(trail, AwaitingRevision) == Departures(trail, AwaitingRevision) + One(phase == AwaitingRevision)
    && Arrivals(trail, BlockedOnClarification) == Departures(trail, BlockedOnClarification) + One(phase == BlockedOnClarification)
    && Arrivals(trail, Completed) == One(phase == Completed)
    && Arrivals(trail, Failed) == One(phase == Failed)
    && Arrivals(trail, Pending) == 0
  }

  lemma BalanceAppend(trail: seq<Move>, move: Move)
    requires Balanced(trail, move.from) && Edge(move.from, move.to) && move.from != move.to
    ensures Balanced(trail + [move], move.to)
  {
    CountsAppend(trail, move, Building);
    CountsAppend(trail, move, AwaitingReview);
    CountsAppend(trail, move, AwaitingRevision);
    CountsAppend(trail, move, BlockedOnClarification);
    CountsAppend(trail, move, Completed);
    CountsAppend(trail, move, Failed);
    CountsAppend(trail, move, Pending);
  }

  lemma {:induction false} RoutesBalance(trail: seq<Move>, phase: Phase)
    requires Route(trail, phase)
    ensures Balanced(trail, phase)
  {
    if trail == [] {
    } else {
      var init, last := trail[..|trail| - 1], trail[|trail| - 1];
      RoutesBalance(init, last.from);
      BalanceAppend(init, last);
      assert trail == init + [last];
    }
  }

  /** Flow conservation: every spawn ends in review, a clarification, a failure, or is still going. */
  lemma FlowConservation(cfg: Config, w0: World, events: seq<Event>, n: string)
    requires GoodRun(cfg, w0, events) && n in Run(cfg, w0, events).tasks
    ensures Balanced(Trail(cfg, w0, events, n), Run(cfg, w0, events).tasks[n].task.status.phase)
    ensures Run(cfg, w0, events).tasks[n].book.cycle == Arrivals(Trail(cfg, w0, events, n), Building)
  {
    TrailIsRoute(cfg, w0, events, n);
    RoutesBalance(Trail(cfg, w0, events, n), Run(cfg, w0, events).tasks[n].task.status.phase);
  }
}
