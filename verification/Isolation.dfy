/**
 Tasks for different issues do not see one another's sandboxes.
 */
module Isolation {
  import opened Glob
  import opened Domain
  import opened Protocol
  import opened Machine
  import opened TaskInvariant
  import opened Safety

  predicate ActsFor(event: Event, n: string) {
    (event.Start? || event.Answered? || event.Finish? || event.TimerFires?) && event.name == n
  }

  /** A step of one task changes nothing of another: not its entry, not its namespace. */
  lemma NeverTouches(cfg: Config, w: World, event: Event, n: string, m: string)
    requires Inv(cfg, w) && Distinct(w) && n in w.tasks && m in w.tasks && n != m && ActsFor(event, n)
    ensures m in Next(cfg, w, event).tasks && Next(cfg, w, event).tasks[m] == w.tasks[m]
    ensures SpaceOf(Next(cfg, w, event), m) == SpaceOf(w, m)
  {
    if event.Answered? && w.tasks[n].pass.Some? {
      assert TaskOk(cfg, w, n) && TaskOk(cfg, w, m) && !SameIssue(w, n, m);
      AnsweredLocally(cfg, w, n, event.ans);
      NamespaceInjective(w.tasks[n].task.spec, w.tasks[m].task.spec);
    }
  }

  /** The same world with the namespace `ns` replaced. */
  function Replaced(w: World, ns: string, sp: Option<Space>): World {
    w.(spaces := Store(w.spaces, ns, sp))
  }

  lemma StoreElsewhere(spaces: map<string, Space>, ns: string, sp: Option<Space>, other: string, x: Option<Space>)
    requires ns != other
    ensures Lookup(Store(spaces, ns, sp), other) == Lookup(spaces, other)
    ensures Store(Store(spaces, other, x), ns, sp) == Store(Store(spaces, ns, sp), other, x)
  {
  }

  /** A step of one task does not depend on another's namespace: replacing it before or after is the same. */
  lemma NeverReads(cfg: Config, w: World, event: Event, n: string, m: string, sp: Option<Space>)
    requires Inv(cfg, w) && Distinct(w) && n in w.tasks && m in w.tasks && n != m && ActsFor(event, n)
    ensures Next(cfg, Replaced(w, Home(w.tasks[m]), sp), event)
         == Replaced(Next(cfg, w, event), Home(w.tasks[m]), sp)
  {
    if event.Answered? && w.tasks[n].pass.Some? {
      assert TaskOk(cfg, w, n) && TaskOk(cfg, w, m) && !SameIssue(w, n, m);
      NamespaceInjective(w.tasks[n].task.spec, w.tasks[m].task.spec);
      AnsweredBlind(cfg, w, n, event.ans, Home(w.tasks[m]), sp);
    }
  }

  lemma AnsweredBlind(cfg: Config, w: World, n: string, ans: Answer, ns: string, sp: Option<Space>)
    requires n in w.tasks && w.tasks[n].pass.Some? && CoreOk(cfg, w.tasks[n], SpaceOf(w, n), w.now)
    requires ns != Home(w.tasks[n])
    ensures AnsweredStep(cfg, Replaced(w, ns, sp), n, ans) == Replaced(AnsweredStep(cfg, w, n, ans), ns, sp)
  {
    hide Advance;
    var e, home := w.tasks[n], Home(w.tasks[n]);
    CallsStayHome(cfg, e, SpaceOf(w, n), w.now);
    StoreElsewhere(w.spaces, ns, sp, home, None);
    if Target(CallAt(cfg, e.pass.value.copy, e.pass.value.point)).Some? {
      var sp' := Advance(cfg, e, SpaceOf(w, n), ans, w.now, w.lifetimes).1;
      StoreElsewhere(w.spaces, home, sp', ns, sp);
    }
  }
}
