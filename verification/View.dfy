/**
 One task's view of the world: its entry and its namespace, and what each event, of whoever, does to them.
 A statement about a task along a run is proved on this view.
 */
module View {
  import opened Glob
  import opened Domain
  import opened Protocol
  import opened Machine
  import opened Safety

  datatype Seen = Seen(entry: Entry, space: Option<Space>)

  function ViewOf(w: World, n: string): Seen
    requires n in w.tasks
  {
    Seen(w.tasks[n], SpaceOf(w, n))
  }

  /** The effect of an event on the task that is stored under `n`. */
  function ViewStep(cfg: Config, v: Seen, n: string, event: Event, now: nat, lifetimes: nat): Seen {
    var e, sp := v.entry, v.space;
    match event
    case Answered(m, ans) =>
      if m == n && e.pass.Some?
      then var (e', sp') := Advance(cfg, e, sp, ans, now, lifetimes); Seen(e', sp')
      else v
    case Start(m) => if m == n then Seen(Started(cfg, e, now), sp) else v
    case Finish(m) => if m == n then Seen(Finished(e, now), sp) else v
    case TimerFires(m, due) => if m == n then Seen(Fired(e, due, now), sp) else v
    case Restart => Seen(Restarted(e), sp)
    case PodMoves(ns, pod, phase) => if ns == Home(e) then Seen(e, MovePod(sp, pod, phase)) else v
    case PodVanishes(ns, pod) => if ns == Home(e) then Seen(e, WithoutPod(sp, pod)) else v
    case _ => v
  }

  /** What happens in the world to a task and its namespace depends on nothing else in it. */
  lemma ViewSteps(cfg: Config, w: World, event: Event, n: string)
    requires Inv(cfg, w) && Distinct(w) && n in w.tasks
    ensures n in Next(cfg, w, event).tasks
    ensures ViewOf(Next(cfg, w, event), n) == ViewStep(cfg, ViewOf(w, n), n, event, w.now, w.lifetimes)
  {
    assert TaskOk(cfg, w, n);
    if event.Answered? {
      if event.name in w.tasks && w.tasks[event.name].pass.Some? {
        AnsweredView(cfg, w, event.name, event.ans, n);
      }
    } else if event.PollAnswered? {
      PollView(cfg, w, event.pollAns, n);
    } else {
      QuietView(cfg, w, event, n);
    }
  }

  lemma AnsweredView(cfg: Config, w: World, m: string, ans: Answer, n: string)
    requires Inv(cfg, w) && Distinct(w) && m in w.tasks && w.tasks[m].pass.Some? && n in w.tasks
    ensures var w' := AnsweredStep(cfg, w, m, ans);
            && n in w'.tasks
            && ViewOf(w', n) ==
                 if m == n
                 then var (e', sp') := Advance(cfg, w.tasks[n], SpaceOf(w, n), ans, w.now, w.lifetimes); Seen(e', sp')
                 else ViewOf(w, n)
  {
    assert TaskOk(cfg, w, m) && TaskOk(cfg, w, n);
    AnsweredLocally(cfg, w, m, ans);
    if m == n {
      CallLifetime(cfg, w.tasks[n], SpaceOf(w, n), ans, w.now, w.lifetimes);
    } else {
      assert !SameIssue(w, m, n);
      NamespaceInjective(w.tasks[m].task.spec, w.tasks[n].task.spec);
    }
  }

  lemma PollView(cfg: Config, w: World, ans: PollAnswer, n: string)
    requires n in w.tasks
    ensures n in PollStep(cfg, w, ans).tasks && ViewOf(PollStep(cfg, w, ans), n) == ViewOf(w, n)
  {
    var created := PollCreates(cfg, w, ans);
  }

  lemma QuietView(cfg: Config, w: World, event: Event, n: string)
    requires n in w.tasks && !event.Answered? && !event.PollAnswered?
    ensures n in Next(cfg, w, event).tasks
    ensures ViewOf(Next(cfg, w, event), n) == ViewStep(cfg, ViewOf(w, n), n, event, w.now, w.lifetimes)
  {
  }
}
