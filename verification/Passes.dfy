/**
 Every pass of every run follows the rules of module Rules: what it has asked for, what it asks for next and when it
 returns; and what it leaves stored is what it has written.
 */
module Passes {
  import opened Glob
  import opened Domain
  import opened Protocol
  import opened Machine
  import opened TaskInvariant
  import opened Safety
  import opened View
  import opened Lifecycle
  import opened Rules

  // ---- the last step of a pass

  ghost predicate SamePassAt(cfg: Config, w0: World, events: seq<Event>, m: nat, j: nat, n: string)
    requires m <= j <= |events|
  {
    && n in At(cfg, w0, events, m).tasks && n in At(cfg, w0, events, j).tasks
    && At(cfg, w0, events, m).tasks[n].pass == At(cfg, w0, events, j).tasks[n].pass
  }

  /** Event `d` brought the pass over `n` to where it stands at `j`: it began the pass, or brought the reply to its last call. */
  ghost predicate LastStep(cfg: Config, w0: World, events: seq<Event>, d: nat, j: nat, n: string)
    requires d < j <= |events|
  {
    && (forall m :: d < m <= j ==> SamePassAt(cfg, w0, events, m, j, n))
    && n in At(cfg, w0, events, d).tasks && n in At(cfg, w0, events, j).tasks && At(cfg, w0, events, j).tasks[n].pass.Some?
    && var e, p := At(cfg, w0, events, d).tasks[n], At(cfg, w0, events, j).tasks[n].pass.value;
       if p.log == [] then events[d] == Start(n) && e.pass.None? && p.copy == e.task
       else
         && events[d].Answered? && events[d].name == n && e.pass.Some? && e.pass.value.copy == p.copy
         && p.log == e.pass.value.log + [p.log[|p.log| - 1]]
  }

  /** An event that changes a pass begins it, or brings a reply. */
  lemma PassMoves(cfg: Config, v: Seen, n: string, event: Event, now: nat, lifetimes: nat) returns (rep: Reply)
    requires ViewStep(cfg, v, n, event, now, lifetimes).entry.pass.Some?
    requires ViewStep(cfg, v, n, event, now, lifetimes).entry.pass != v.entry.pass
    ensures var e, q := v.entry, ViewStep(cfg, v, n, event, now, lifetimes).entry.pass.value;
            || (event == Start(n) && e.pass.None? && q == Pass(e.task, Begin(cfg, e.task, now), []))
            || (event.Answered? && event.name == n && e.pass.Some? && !e.pass.value.point.Return?
                && var p := e.pass.value;
                   q == Pass(p.copy, After(cfg, p.copy, p.point, rep, now),
                             p.log + [Exchange(CallAt(cfg, p.copy, p.point), rep)]))
  {
    rep := Err;
    if event.Answered? && event.name == n && v.entry.pass.Some? {
      rep := CallReplied(cfg, v.entry, v.space, event.ans, now, lifetimes);
    }
  }

  lemma CallReplied(cfg: Config, e: Entry, sp: Option<Space>, ans: Answer, now: nat, lifetime: nat) returns (rep: Reply)
    requires e.pass.Some? && Advance(cfg, e, sp, ans, now, lifetime).0.pass != e.pass
    ensures var p := e.pass.value;
            && !p.point.Return?
            && Advance(cfg, e, sp, ans, now, lifetime).0.pass
                 == Some(Pass(p.copy, After(cfg, p.copy, p.point, rep, now),
                              p.log + [Exchange(CallAt(cfg, p.copy, p.point), rep)]))
  {
    var p := e.pass.value;
    rep := Serve(sp, CallAt(cfg, p.copy, p.point), ans, lifetime, e.book.cycle + 1).1;
  }

  /** The pass over `n` stands at `j` where the rules led at `now`. */
  ghost predicate Ruled(cfg: Config, e: Entry, now: nat) {
    e.pass.Some? && Keeps(cfg, e.pass.value.copy, e.pass.value.log, e.pass.value.point, now)
  }

  lemma RuledNext(cfg: Config, v: Seen, n: string, event: Event, now: nat, lifetimes: nat, earlier: nat)
    requires TaskInv(cfg, v.entry, v.space, now)
    requires v.entry.pass.Some? ==> Ruled(cfg, v.entry, earlier)
    requires var e' := ViewStep(cfg, v, n, event, now, lifetimes).entry; e'.pass.Some? && e'.pass != v.entry.pass
    ensures Ruled(cfg, ViewStep(cfg, v, n, event, now, lifetimes).entry, now)
  {
    hide Keeps, After, Begin, Rule;
    var rep := PassMoves(cfg, v, n, event, now, lifetimes);
    if v.entry.pass.Some? {
      var p := v.entry.pass.value;
      assert Recalls(cfg, p.copy, p.log, p.point) by {
        KeepsRecalls(cfg, p.copy, p.log, p.point, earlier);
      }
      RuleFollows(cfg, p.copy, p.log, p.point, v.space, rep, now);
    } else {
      RuleBegins(cfg, v.entry.task, v.space, now);
    }
  }

  lemma KeepsRecalls(cfg: Config, t: Task, log: seq<Exchange>, pt: Point, now: nat)
    requires Keeps(cfg, t, log, pt, now)
    ensures Recalls(cfg, t, log, pt) && ActAt(cfg, t, pt) == Rule(cfg, t, log, now)
  {
  }

  lemma {:induction false} StandsByRule(cfg: Config, w0: World, events: seq<Event>, j: nat, n: string) returns (d: nat)
    requires GoodRun(cfg, w0, events) && j <= |events| && n in At(cfg, w0, events, j).tasks
    requires At(cfg, w0, events, j).tasks[n].pass.Some?
    ensures d < j && LastStep(cfg, w0, events, d, j, n)
    ensures Ruled(cfg, At(cfg, w0, events, j).tasks[n], At(cfg, w0, events, d).now)
    decreases j
  {
    hide Run, Next, Ruled;
    WasThere(cfg, w0, events, j, n);
    if At(cfg, w0, events, j - 1).tasks[n].pass == At(cfg, w0, events, j).tasks[n].pass {
      d := StandsByRule(cfg, w0, events, j - 1, n);
      StaysPut(cfg, w0, events, d, j - 1, n);
    } else {
      d := j - 1;
      var earlier := 0;
      if At(cfg, w0, events, d).tasks[n].pass.Some? {
        var b := StandsByRule(cfg, w0, events, d, n);
        earlier := At(cfg, w0, events, b).now;
      }
      MovesByRule(cfg, w0, events, d, n, earlier);
    }
  }

  lemma StaysPut(cfg: Config, w0: World, events: seq<Event>, d: nat, k: nat, n: string)
    requires GoodRun(cfg, w0, events) && d < k < |events| && LastStep(cfg, w0, events, d, k, n)
    requires n in At(cfg, w0, events, k + 1).tasks
    requires At(cfg, w0, events, k).tasks[n].pass == At(cfg, w0, events, k + 1).tasks[n].pass
    ensures LastStep(cfg, w0, events, d, k + 1, n)
    ensures forall now :: Ruled(cfg, At(cfg, w0, events, k).tasks[n], now) ==>
                            Ruled(cfg, At(cfg, w0, events, k + 1).tasks[n], now)
  {
    hide Run, Next, Keeps;
    var j := k + 1;
    forall m | d < m <= j ensures SamePassAt(cfg, w0, events, m, j, n) {
      if m <= k {
        assert SamePassAt(cfg, w0, events, m, k, n);
      }
    }
  }

  lemma MovesByRule(cfg: Config, w0: World, events: seq<Event>, d: nat, n: string, earlier: nat)
    requires GoodRun(cfg, w0, events) && d < |events| && n in At(cfg, w0, events, d).tasks
    requires n in At(cfg, w0, events, d + 1).tasks && At(cfg, w0, events, d + 1).tasks[n].pass.Some?
    requires At(cfg, w0, events, d + 1).tasks[n].pass != At(cfg, w0, events, d).tasks[n].pass
    requires At(cfg, w0, events, d).tasks[n].pass.Some? ==> Ruled(cfg, At(cfg, w0, events, d).tasks[n], earlier)
    ensures LastStep(cfg, w0, events, d, d + 1, n)
    ensures Ruled(cfg, At(cfg, w0, events, d + 1).tasks[n], At(cfg, w0, events, d).now)
  {
    hide Run, Next, Keeps, After, Begin;
    AtView(cfg, w0, events, d, n);
    var w := At(cfg, w0, events, d);
    var rep := PassMoves(cfg, ViewOf(w, n), n, events[d], w.now, w.lifetimes);
    RuledNext(cfg, ViewOf(w, n), n, events[d], w.now, w.lifetimes, earlier);
  }

  /** In every run, the call that is answered at `k` is the one the rules ask for, after the replies so far. */
  lemma CallsByRule(cfg: Config, w0: World, events: seq<Event>, k: nat, n: string) returns (d: nat)
    requires GoodRun(cfg, w0, events) && k < |events| && Answers(At(cfg, w0, events, k), events[k], n)
    ensures d < k && LastStep(cfg, w0, events, d, k, n)
    ensures n in At(cfg, w0, events, k + 1).tasks && At(cfg, w0, events, k + 1).tasks[n].pass.Some?
    ensures var p, q := At(cfg, w0, events, k).tasks[n].pass.value, At(cfg, w0, events, k + 1).tasks[n].pass.value;
            q.copy == p.copy &&
            match Rule(cfg, p.copy, p.log, At(cfg, w0, events, d).now)
            case Does(call) => |q.log| == |p.log| + 1 && q.log == p.log + [Exchange(call, q.log[|p.log|].reply)]
            case Ends(_, _) => q == p
  {
    hide Run, Next, Rule;
    d := StandsByRule(cfg, w0, events, k, n);
    AtView(cfg, w0, events, k, n);
    var w := At(cfg, w0, events, k);
    var p := w.tasks[n].pass.value;
    KeepsRecalls(cfg, p.copy, p.log, p.point, At(cfg, w0, events, d).now);
    AnswerLogged(cfg, ViewOf(w, n), n, events[k], w.now, w.lifetimes);
  }

  lemma AnswerLogged(cfg: Config, v: Seen, n: string, event: Event, now: nat, lifetimes: nat)
    requires event.Answered? && event.name == n && v.entry.pass.Some?
    ensures var e' := ViewStep(cfg, v, n, event, now, lifetimes).entry;
            && e'.pass.Some?
            && var p, q := v.entry.pass.value, e'.pass.value;
               q.copy == p.copy &&
               match ActAt(cfg, p.copy, p.point)
               case Does(call) => |q.log| == |p.log| + 1 && q.log == p.log + [Exchange(call, q.log[|p.log|].reply)]
               case Ends(_, _) => q == p
  {
    var p := v.entry.pass.value;
    if p.point.Return? {
    } else {
      var rep := CallReplied(cfg, v.entry, v.space, event.ans, now, lifetimes);
    }
  }

  /** In every run, a pass is over when the rules say so, and is asked for again when they say. */
  lemma ReturnsByRule(cfg: Config, w0: World, events: seq<Event>, k: nat, n: string) returns (d: nat)
    requires GoodRun(cfg, w0, events) && k < |events| && events[k] == Finish(n)
    requires n in At(cfg, w0, events, k).tasks && At(cfg, w0, events, k).tasks[n].pass.Some?
    ensures d < k && LastStep(cfg, w0, events, d, k, n) && n in At(cfg, w0, events, k + 1).tasks
    ensures var w, e, e' := At(cfg, w0, events, k), At(cfg, w0, events, k).tasks[n], At(cfg, w0, events, k + 1).tasks[n];
            var p := e.pass.value;
            e'.task == e.task &&
            match Rule(cfg, p.copy, p.log, At(cfg, w0, events, d).now)
            case Does(_) => e' == e
            case Ends(after, failed) =>
              && e'.pass.None? && e'.book.cycle == e.book.cycle
              && e'.book.ready == (e.book.ready || failed)
              && e'.book.timers == if !failed && after > 0 then e.book.timers + {w.now + after} else e.book.timers
  {
    hide Run, Next, Rule;
    d := StandsByRule(cfg, w0, events, k, n);
    AtView(cfg, w0, events, k, n);
    var p := At(cfg, w0, events, k).tasks[n].pass.value;
    KeepsRecalls(cfg, p.copy, p.log, p.point, At(cfg, w0, events, d).now);
  }

  // ---- the log of a pass

  /** Call `k` is the one the rules ask for after those before it. */
  ghost predicate CallRuled(cfg: Config, t: Task, log: seq<Exchange>, k: nat)
    requires k < |log|
  {
    exists now: nat :: Rule(cfg, t, log[..k], now) == Does(log[k].call)
  }

  ghost predicate LogRuled(cfg: Config, t: Task, log: seq<Exchange>) {
    forall k :: 0 <= k < |log| ==> CallRuled(cfg, t, log, k)
  }

  lemma LogRuledNext(cfg: Config, t: Task, log: seq<Exchange>, x: Exchange, now: nat)
    requires LogRuled(cfg, t, log) && Rule(cfg, t, log, now) == Does(x.call)
    ensures LogRuled(cfg, t, log + [x])
  {
    hide Rule;
    forall k | 0 <= k < |log| + 1 ensures CallRuled(cfg, t, log + [x], k) {
      if k < |log| {
        assert CallRuled(cfg, t, log, k);
        assert (log + [x])[..k] == log[..k];
      } else {
        assert (log + [x])[..k] == log;
      }
    }
  }

  /** In every run, the calls of a pass, with their replies, are a log that follows the rules. */
  lemma {:induction false} LogByRule(cfg: Config, w0: World, events: seq<Event>, j: nat, n: string)
    requires GoodRun(cfg, w0, events) && j <= |events| && n in At(cfg, w0, events, j).tasks
    requires At(cfg, w0, events, j).tasks[n].pass.Some?
    ensures var p := At(cfg, w0, events, j).tasks[n].pass.value; LogRuled(cfg, p.copy, p.log)
    decreases j
  {
    hide Run, Next, Rule, Ruled;
    var d := StandsByRule(cfg, w0, events, j, n);
    var p := At(cfg, w0, events, j).tasks[n].pass.value;
    if p.log != [] {
      LogByRule(cfg, w0, events, d, n);
      assert SamePassAt(cfg, w0, events, d + 1, j, n);
      var b := CallsByRule(cfg, w0, events, d, n);
      LogRuledNext(cfg, p.copy, At(cfg, w0, events, d).tasks[n].pass.value.log, p.log[|p.log| - 1], At(cfg, w0, events, b).now);
    }
  }

  /** The status last written. */
  function StatusIn(t: Task, log: seq<Exchange>): Status {
    if log == [] then t.status
    else
      var x := log[|log| - 1];
      if x.call.UpdateStatus? && x.reply == Done then x.call.status else StatusIn(t, log[..|log| - 1])
  }

  lemma {:induction false} NothingWritten(t: Task, log: seq<Exchange>)
    requires forall k :: 0 <= k < |log| ==> !log[k].call.UpdateStatus?
    ensures StatusIn(t, log) == t.status
  {
    if log == [] {
    } else {
      NothingWritten(t, log[..|log| - 1]);
    }
  }

  predicate AsWritten(e: Entry) {
    e.pass.Some? ==> var p := e.pass.value; e.task == p.copy.(status := StatusIn(p.copy, p.log))
  }

  lemma WrittenNext(cfg: Config, v: Seen, n: string, event: Event, now: nat, lifetimes: nat)
    requires AsWritten(v.entry)
    ensures AsWritten(ViewStep(cfg, v, n, event, now, lifetimes).entry)
  {
    if event.Answered? && event.name == n && v.entry.pass.Some? {
      WrittenCall(cfg, v.entry, v.space, event.ans, now, lifetimes);
    }
  }

  lemma WrittenCall(cfg: Config, e: Entry, sp: Option<Space>, ans: Answer, now: nat, lifetime: nat)
    requires e.pass.Some? && AsWritten(e)
    ensures AsWritten(Advance(cfg, e, sp, ans, now, lifetime).0)
  {
    var p := e.pass.value;
    var rep := Serve(sp, CallAt(cfg, p.copy, p.point), ans, lifetime, e.book.cycle + 1).1;
    assert (p.log + [Exchange(CallAt(cfg, p.copy, p.point), rep)])[..|p.log|] == p.log;
  }

  /** In every run, while a pass is on, the stored task is the one it read with the status it has written, if any. */
  lemma {:induction false} StoredAsWritten(cfg: Config, w0: World, events: seq<Event>, j: nat, n: string)
    requires GoodRun(cfg, w0, events) && j <= |events| && n in At(cfg, w0, events, j).tasks
    requires At(cfg, w0, events, j).tasks[n].pass.Some?
    ensures var e := At(cfg, w0, events, j).tasks[n];
            e.task == e.pass.value.copy.(status := StatusIn(e.pass.value.copy, e.pass.value.log))
    decreases j
  {
    hide Run, Next;
    WasThere(cfg, w0, events, j, n);
    if At(cfg, w0, events, j - 1).tasks[n].pass.Some? {
      StoredAsWritten(cfg, w0, events, j - 1, n);
    }
    AtView(cfg, w0, events, j - 1, n);
    var w := At(cfg, w0, events, j - 1);
    WrittenNext(cfg, ViewOf(w, n), n, events[j - 1], w.now, w.lifetimes);
  }
}
