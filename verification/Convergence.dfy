/**
 Interrupted spawn attempts converge: however many attempts stop after some of their calls, the one that
 completes leaves the sandbox that a single undisturbed attempt would have left.
 */
module Convergence {
  import opened Glob
  import opened Domain
  import opened Protocol
  import opened Machine
  import opened TaskInvariant
  import opened Safety
  import opened View
  import opened Lifecycle
  import opened Entries
  import opened Freshness
  import opened Wakeups

  // ---- what a spawn leaves behind

  datatype Sandbox = Sandbox(owner: string, policy: string, secret: Creds, pod: PodSpec)

  /** Everything in the sandbox that the spawn is about. */
  function SandboxIn(sp: Option<Space>, plan: Plan): Option<Sandbox> {
    if HasPolicy(sp) && HasSecret(sp) && PodName(plan) in sp.value.pods
    then Some(Sandbox(sp.value.owner, sp.value.policy.value, sp.value.secret.value, sp.value.pods[PodName(plan)].spec))
    else None
  }

  /** The sandbox that configuration and task determine, around the credentials `c`. */
  function Canonical(cfg: Config, task: Task, c: Creds): Sandbox
    requires IsSpawning(task.status.phase)
  {
    Sandbox(task.name, cfg.egress, c, PodSpec(task.spec, RunOf(task, PlanOf(task.status.phase))))
  }

  /** At the write that enters Building the sandbox is the canonical one, around the Secret that is there. */
  lemma CanonicalAtWrite(cfg: Config, e: Entry, sp: Option<Space>, now: nat)
    requires TaskInv(cfg, e, sp, now) && Writing(e) && PodReady(e, sp)
    ensures e.pass.value.point.next.phase == Building && HasSecret(sp)
    ensures SandboxIn(sp, PlanOf(e.task.status.phase)) == Some(Canonical(cfg, e.task, sp.value.secret.value))
  {
    PodAtWrite(cfg, e, sp, now);
  }

  lemma PodAtWrite(cfg: Config, e: Entry, sp: Option<Space>, now: nat)
    requires TaskInv(cfg, e, sp, now) && Writing(e) && PodReady(e, sp)
    ensures Pods(sp)[PodName(PlanOf(e.task.status.phase))].spec
         == PodSpec(e.task.spec, RunOf(e.task, PlanOf(e.task.status.phase)))
  {
  }

  /** Event `k` takes task `n` into Building, with the pod of its own spawn current. */
  ghost predicate Spawns(cfg: Config, w0: World, events: seq<Event>, k: nat, n: string, w: World, w': World) {
    && Enters(cfg, w0, events, k, n, w, w')
    && HasFreshPod(SpaceOf(w', n), w'.tasks[n].book.cycle)
  }

  lemma SpawnsWell(cfg: Config, w0: World, events: seq<Event>, k: nat, n: string, w: World, w': World)
    requires Spawns(cfg, w0, events, k, n, w, w')
    ensures TaskInv(cfg, w.tasks[n], SpaceOf(w, n), w.now) && Writing(w.tasks[n]) && PodReady(w.tasks[n], SpaceOf(w, n))
    ensures w'.tasks[n].task.status.phase == Building && SpaceOf(w', n) == SpaceOf(w, n)
    ensures Home(w'.tasks[n]) == Home(w.tasks[n])
  {
    EntryPods(cfg, w0, events, k, n, w, w');
  }

  /** After any history of interrupted attempts, a spawn leaves exactly the canonical sandbox. */
  lemma SpawnIsCanonical(cfg: Config, w0: World, events: seq<Event>, k: nat, n: string, w: World, w': World)
    requires Spawns(cfg, w0, events, k, n, w, w')
    ensures IsSpawning(w.tasks[n].task.status.phase)
    ensures SpaceOf(w', n) == SpaceOf(w, n) && HasSecret(SpaceOf(w, n))
    ensures SandboxIn(SpaceOf(w', n), PlanOf(w.tasks[n].task.status.phase))
         == Some(Canonical(cfg, w.tasks[n].task, SpaceOf(w, n).value.secret.value))
  {
    SpawnsWell(cfg, w0, events, k, n, w, w');
    CanonicalAtWrite(cfg, w.tasks[n], SpaceOf(w, n), w.now);
  }

  /** As long as no deletion by a task's own passes fails and no pod of it vanishes, every entry to Building is such a spawn. */
  lemma SpawnAlwaysCanonical(cfg: Config, w0: World, events: seq<Event>, k: nat, n: string, w: World, w': World)
    requires Enters(cfg, w0, events, k, n, w, w') && NoLoss(cfg, w0, events, k, n)
    ensures Spawns(cfg, w0, events, k, n, w, w') && IsSpawning(w.tasks[n].task.status.phase)
    ensures SpaceOf(w', n) == SpaceOf(w, n) && HasSecret(SpaceOf(w, n))
    ensures SandboxIn(SpaceOf(w', n), PlanOf(w.tasks[n].task.status.phase))
         == Some(Canonical(cfg, w.tasks[n].task, SpaceOf(w, n).value.secret.value))
  {
    EntryIsFresh(cfg, w0, events, k, n, w, w');
    SpawnIsCanonical(cfg, w0, events, k, n, w, w');
  }

  // ---- whose credentials

  /** The Secret of a spawn is the one first created in the namespace's current lifetime. */
  lemma SecretIsFirst(cfg: Config, w0: World, events: seq<Event>, i: nat, k: nat, n: string, w: World, w': World)
    requires Spawns(cfg, w0, events, k, n, w, w') && i <= k
    requires IsSpawning(w.tasks[n].task.status.phase)
    requires var ns := Home(w.tasks[n]);
             && ns in At(cfg, w0, events, i).spaces && ns in w.spaces
             && At(cfg, w0, events, i).spaces[ns].lifetime == w.spaces[ns].lifetime
             && At(cfg, w0, events, i).spaces[ns].secret.Some?
    ensures var ns := Home(w.tasks[n]);
            && ns in w'.spaces
            && SandboxIn(SpaceOf(w', n), PlanOf(w.tasks[n].task.status.phase)).Some?
            && SandboxIn(SpaceOf(w', n), PlanOf(w.tasks[n].task.status.phase)).value.secret
                 == At(cfg, w0, events, i).spaces[ns].secret.value
  {
    SpawnIsCanonical(cfg, w0, events, k, n, w, w');
    WriteOnce(cfg, w0, events, i, k, Home(w.tasks[n]));
    SpawnsWell(cfg, w0, events, k, n, w, w');
  }

  /** The credentials a pass holds. */
  predicate HoldsCreds(e: Entry, c: Creds) {
    e.pass.Some? ==>
      match e.pass.value.point
      case EnsureNamespace(_, known) => known.Some? ==> known.value == c
      case EnsurePolicy(_, known) => known.Some? ==> known.value == c
      case EnsureSecret(_, creds) => creds == c
      case _ => true
  }

  /** What the Secret will be, from a moment at which the namespace is `sp`, if the task's own reads all give `c`. */
  function SecretToBe(sp: Option<Space>, c: Creds): Creds {
    if HasSecret(sp) then sp.value.secret.value else c
  }

  /** A spawning task between its attempts or in one: the Secret there is the one to be, and so will be any other. */
  ghost predicate Securing(v: Seen, c: Creds, s: Creds) {
    && HoldsCreds(v.entry, c)
    && SecretToBe(v.space, c) == s
  }

  predicate OwnCreds(event: Event, n: string, c: Creds) {
    event.Answered? && event.name == n && event.ans.Credentials? ==> event.ans.creds == c
  }

  lemma CredsHeld(cfg: Config, e: Entry, sp: Option<Space>, ans: Answer, now: nat, lifetime: nat, c: Creds)
    requires CoreOk(cfg, e, sp, now) && e.pass.Some? && IsSpawning(e.task.status.phase) && HoldsCreds(e, c)
    requires ans.Credentials? ==> ans.creds == c
    ensures HoldsCreds(Advance(cfg, e, sp, ans, now, lifetime).0, c)
  {
    var pt := e.pass.value.point;
    if Reads(pt) {
      ReadHoldsNothing(cfg, e, sp, ans, now, lifetime, c);
    } else if AfterRevisionDrop(pt) {
      SpawnHolds(cfg, e, sp, ans, now, lifetime, c);
    } else if pt.Write? {
      WriteLogged(cfg, e, sp, ans, now, lifetime);
    }
  }

  lemma ReadHoldsNothing(cfg: Config, e: Entry, sp: Option<Space>, ans: Answer, now: nat, lifetime: nat, c: Creds)
    requires CoreOk(cfg, e, sp, now) && e.pass.Some? && IsSpawning(e.task.status.phase) && Reads(e.pass.value.point)
    ensures HoldsCreds(Advance(cfg, e, sp, ans, now, lifetime).0, c)
  {
    var rep := CallReads(cfg, e, sp, ans, now, lifetime);
    ReadsLeadToReads(cfg, e.pass.value.copy, e.pass.value.point, rep, now);
  }

  lemma ReadsLeadToReads(cfg: Config, task: Task, pt: Point, rep: Reply, now: nat)
    requires Reads(pt)
    ensures var next := After(cfg, task, pt, rep, now); !next.EnsureNamespace? && !next.EnsurePolicy? && !next.EnsureSecret?
  {
  }

  lemma SpawnHolds(cfg: Config, e: Entry, sp: Option<Space>, ans: Answer, now: nat, lifetime: nat, c: Creds)
    requires e.pass.Some? && AfterRevisionDrop(e.pass.value.point) && HoldsCreds(e, c)
    requires ans.Credentials? ==> ans.creds == c
    ensures HoldsCreds(Advance(cfg, e, sp, ans, now, lifetime).0, c)
  {
  }

  lemma SecretKept(cfg: Config, e: Entry, sp: Option<Space>, ans: Answer, now: nat, lifetime: nat, c: Creds)
    requires CoreOk(cfg, e, sp, now) && e.pass.Some? && IsSpawning(e.task.status.phase) && HoldsCreds(e, c)
    ensures SecretToBe(Advance(cfg, e, sp, ans, now, lifetime).1, c) == SecretToBe(sp, c)
  {
    if Reads(e.pass.value.point) {
      var rep := CallReads(cfg, e, sp, ans, now, lifetime);
    } else {
      CallKeepsSecret(cfg, e, sp, ans, now, lifetime, c);
    }
  }

  lemma CallKeepsSecret(cfg: Config, e: Entry, sp: Option<Space>, ans: Answer, now: nat, lifetime: nat, c: Creds)
    requires e.pass.Some? && HoldsCreds(e, c) && !e.pass.value.point.DropNamespace?
    requires e.pass.value.point.EnsureSecret? || !Reads(e.pass.value.point)
    ensures SecretToBe(Advance(cfg, e, sp, ans, now, lifetime).1, c) == SecretToBe(sp, c)
  {
  }

  lemma SecuringStays(cfg: Config, v: Seen, n: string, event: Event, now: nat, lifetimes: nat, c: Creds, s: Creds)
    requires CoreOk(cfg, v.entry, v.space, now) && IsSpawning(v.entry.task.status.phase)
    requires Securing(v, c, s) && OwnCreds(event, n, c)
    ensures Securing(ViewStep(cfg, v, n, event, now, lifetimes), c, s)
  {
    if event.Answered? && event.name == n && v.entry.pass.Some? {
      CredsHeld(cfg, v.entry, v.space, event.ans, now, lifetimes, c);
      SecretKept(cfg, v.entry, v.space, event.ans, now, lifetimes, c);
    } else if event.Start? {
      FreshPassHoldsNothing(cfg, v.entry, now, c);
    }
  }

  lemma FreshPassHoldsNothing(cfg: Config, e: Entry, now: nat, c: Creds)
    requires HoldsCreds(e, c)
    ensures HoldsCreds(Started(cfg, e, now), c)
  {
  }

  // ---- the undisturbed attempt

  function Rank(pt: Point): nat {
    match pt
    case Unlabel => 8
    case DropRevisionPod => 7
    case ReadReply => 7
    case EnsureNamespace(_, _) => 5
    case EnsurePolicy(_, known) => if known.None? then 4 else 3
    case NeedCreds(plan) => if plan.First? then 3 else 6
    case EnsureSecret(_, _) => 2
    case EnsurePod(_) => 1
    case _ => 0
  }

  /** A reply under which the attempt goes on. */
  function Helpful(pt: Point, c: Creds, comments: seq<Comment>): Answer {
    if pt.NeedCreds? then Credentials(c) else if pt.ReadReply? then Comments(comments) else Works
  }

  /** A call of `n` that goes through; its credentials are `c`, and no pull request is among what it brings. */
  predicate Helps(event: Event, n: string, c: Creds) {
    && event.Answered? && event.name == n && !event.ans.Fails? && OwnCreds(event, n, c)
    && !event.ans.Pull? && !event.ans.Pulls?
  }

  /** Nothing but such calls, after the start of a pass at most. */
  predicate Undisturbed(events: seq<Event>, n: string, c: Creds) {
    forall k :: 0 <= k < |events| ==> (events[k] == Start(n) && k == 0) || Helps(events[k], n, c)
  }

  /** Whatever comments are read in these events are `comments`. */
  predicate Hears(events: seq<Event>, comments: seq<Comment>) {
    forall k :: 0 <= k < |events| ==> HearsAt(events[k], comments)
  }

  predicate HearsAt(event: Event, comments: seq<Comment>) {
    event.Answered? && event.ans.Comments? ==> event.ans.comments == comments
  }

  /** The attempt can come to its end, and nothing is in the way of its pod. */
  predicate Attempting(v: Seen) {
    && IsSpawning(v.entry.task.status.phase) && v.entry.pass.Some?
    && if v.entry.pass.value.point.Write?
       then PodReady(v.entry, v.space)
       else Rank(v.entry.pass.value.point) > 0 && Unobstructed(v.entry, v.space)
  }

  lemma HelpfulCall(cfg: Config, e: Entry, sp: Option<Space>, now: nat, lifetime: nat, c: Creds, comments: seq<Comment>)
    requires TaskInv(cfg, e, sp, now) && Attempting(Seen(e, sp)) && !Writing(e) && HumanReplied(comments)
    ensures var (e', sp') := Advance(cfg, e, sp, Helpful(e.pass.value.point, c, comments), now, lifetime);
            && e'.task == e.task && e'.book.cycle == e.book.cycle && Attempting(Seen(e', sp'))
            && (Writing(e') || Rank(e'.pass.value.point) < Rank(e.pass.value.point))
  {
    var pt := e.pass.value.point;
    if pt.EnsurePod? {
      LastHelpfulCall(cfg, e, sp, now, lifetime, c, comments);
    } else if AfterRevisionDrop(pt) {
      SpawnHelpfulCall(cfg, e, sp, now, lifetime, c, comments);
    } else {
      FirstHelpfulCall(cfg, e, sp, now, lifetime, c, comments);
    }
  }

  lemma FirstHelpfulCall(cfg: Config, e: Entry, sp: Option<Space>, now: nat, lifetime: nat, c: Creds, comments: seq<Comment>)
    requires CoreOk(cfg, e, sp, now) && Attempting(Seen(e, sp)) && !Writing(e) && HumanReplied(comments)
    requires !AfterRevisionDrop(e.pass.value.point)
    ensures var (e', sp') := Advance(cfg, e, sp, Helpful(e.pass.value.point, c, comments), now, lifetime);
            && e'.task == e.task && e'.book.cycle == e.book.cycle && Attempting(Seen(e', sp'))
            && !Writing(e') && Rank(e'.pass.value.point) < Rank(e.pass.value.point)
  {
  }

  lemma SpawnHelpfulCall(cfg: Config, e: Entry, sp: Option<Space>, now: nat, lifetime: nat, c: Creds, comments: seq<Comment>)
    requires CoreOk(cfg, e, sp, now) && Attempting(Seen(e, sp))
    requires AfterRevisionDrop(e.pass.value.point) && !e.pass.value.point.EnsurePod?
    ensures var (e', sp') := Advance(cfg, e, sp, Helpful(e.pass.value.point, c, comments), now, lifetime);
            && e'.task == e.task && e'.book.cycle == e.book.cycle && Attempting(Seen(e', sp'))
            && !Writing(e') && Rank(e'.pass.value.point) < Rank(e.pass.value.point)
  {
  }

  lemma LastHelpfulCall(cfg: Config, e: Entry, sp: Option<Space>, now: nat, lifetime: nat, c: Creds, comments: seq<Comment>)
    requires CoreOk(cfg, e, sp, now) && Attempting(Seen(e, sp)) && e.pass.value.point.EnsurePod?
    ensures var (e', sp') := Advance(cfg, e, sp, Helpful(e.pass.value.point, c, comments), now, lifetime);
            e'.task == e.task && e'.book.cycle == e.book.cycle && Attempting(Seen(e', sp')) && Writing(e')
  {
  }

  lemma HelpIsHonest(e: Entry, c: Creds, comments: seq<Comment>)
    requires e.pass.Some?
    ensures Honest(e, Helpful(e.pass.value.point, c, comments))
  {
  }

  /** A helpful reply brings the world one call nearer to Building. */
  lemma HelpfulStep(cfg: Config, w: World, n: string, c: Creds, s: Creds, comments: seq<Comment>)
    requires Inv(cfg, w) && Distinct(w) && n in w.tasks && HumanReplied(comments)
    requires Attempting(ViewOf(w, n)) && Securing(ViewOf(w, n), c, s) && !Writing(w.tasks[n])
    ensures var w' := Next(cfg, w, Answered(n, Helpful(w.tasks[n].pass.value.point, c, comments)));
            && Inv(cfg, w') && Distinct(w') && n in w'.tasks
            && Attempting(ViewOf(w', n)) && Securing(ViewOf(w', n), c, s)
            && w'.tasks[n].task == w.tasks[n].task && w'.tasks[n].book.cycle == w.tasks[n].book.cycle
            && (Writing(w'.tasks[n]) || Rank(w'.tasks[n].pass.value.point) < Rank(w.tasks[n].pass.value.point))
            && KeepsAgent(SpaceOf(w, n), SpaceOf(w', n))
  {
    var e, sp := w.tasks[n], SpaceOf(w, n);
    assert TaskOk(cfg, w, n);
    AgentKept(cfg, e, sp, Helpful(e.pass.value.point, c, comments), w.now, w.lifetimes);
    var ans := Helpful(e.pass.value.point, c, comments);
    HelpIsHonest(e, c, comments);
    HelpfulCall(cfg, e, sp, w.now, w.lifetimes, c, comments);
    CredsHeld(cfg, e, sp, ans, w.now, w.lifetimes, c);
    SecretKept(cfg, e, sp, ans, w.now, w.lifetimes, c);
    var (e', sp') := Advance(cfg, e, sp, ans, w.now, w.lifetimes);
    LocalStep(cfg, w, n, ans, e', sp');
  }

  lemma AgentKept(cfg: Config, e: Entry, sp: Option<Space>, ans: Answer, now: nat, lifetime: nat)
    requires CoreOk(cfg, e, sp, now) && e.pass.Some? && IsSpawning(e.task.status.phase)
    ensures KeepsAgent(sp, Advance(cfg, e, sp, ans, now, lifetime).1)
  {
  }

  /** The pod that a spawn is about is of the given cycle and in front of any other. */
  predicate InFront(sp: Option<Space>, plan: Plan, cycle: nat) {
    && PodName(plan) in Pods(sp) && Pods(sp)[PodName(plan)].cycle == cycle
    && (plan.Revise? || AGENT_REV !in Pods(sp))
  }

  /** An initial pod that is there stays as it is. */
  predicate KeepsAgent(sp: Option<Space>, sp': Option<Space>) {
    AGENT in Pods(sp) ==> AGENT in Pods(sp') && Pods(sp')[AGENT] == Pods(sp)[AGENT]
  }

  /** The world after an attempt at spawning `task`: in Building, with the canonical sandbox, its pass done but for its end. */
  ghost predicate Spawned(cfg: Config, w: World, n: string, task: Task, cycle: nat, s: Creds)
    requires IsSpawning(task.status.phase)
  {
    && Inv(cfg, w) && Distinct(w) && n in w.tasks
    && w.tasks[n].task.status.phase == Building && w.tasks[n].task.spec == task.spec
    && w.tasks[n].task.status.prNumber == task.status.prNumber
    && w.tasks[n].book.cycle == cycle + 1 && w.tasks[n].book.ready
    && w.tasks[n].pass.Some? && w.tasks[n].pass.value.point.Return? && !w.tasks[n].pass.value.point.failed
    && SandboxIn(SpaceOf(w, n), PlanOf(task.status.phase)) == Some(Canonical(cfg, task, s))
    && InFront(SpaceOf(w, n), PlanOf(task.status.phase), cycle + 1)
  }

  /** From any point of a spawn, helpful replies complete it. */
  lemma Completes(cfg: Config, w: World, n: string, c: Creds, s: Creds, comments: seq<Comment>) returns (events: seq<Event>)
    requires Inv(cfg, w) && Distinct(w) && n in w.tasks && HumanReplied(comments)
    requires Attempting(ViewOf(w, n)) && Securing(ViewOf(w, n), c, s)
    ensures forall k :: 0 <= k < |events| ==> events[k].Answered?
    ensures Undisturbed(events, n, c) && Hears(events, comments)
    ensures Spawned(cfg, Run(cfg, w, events), n, w.tasks[n].task, w.tasks[n].book.cycle, s)
    ensures KeepsAgent(SpaceOf(w, n), SpaceOf(Run(cfg, w, events), n))
    decreases if Writing(w.tasks[n]) then 0 else Rank(w.tasks[n].pass.value.point)
  {
    hide Run, Next;
    if Writing(w.tasks[n]) {
      events := FinalWrite(cfg, w, n, c, s);
    } else {
      var ans := Helpful(w.tasks[n].pass.value.point, c, comments);
      HelpfulStep(cfg, w, n, c, s, comments);
      var rest := Completes(cfg, Next(cfg, w, Answered(n, ans)), n, c, s, comments);
      events := [Answered(n, ans)] + rest;
      CompletesFrom(cfg, w, Next(cfg, w, Answered(n, ans)), n, c, s, comments, rest);
    }
  }

  /** One helpful reply, and then the rest. */
  lemma CompletesFrom(cfg: Config, w: World, w': World, n: string, c: Creds, s: Creds, comments: seq<Comment>,
                      rest: seq<Event>)
    requires n in w.tasks && w.tasks[n].pass.Some? && IsSpawning(w.tasks[n].task.status.phase)
    requires w' == Next(cfg, w, Answered(n, Helpful(w.tasks[n].pass.value.point, c, comments)))
    requires n in w'.tasks && w'.tasks[n].task == w.tasks[n].task && w'.tasks[n].book.cycle == w.tasks[n].book.cycle
    requires KeepsAgent(SpaceOf(w, n), SpaceOf(w', n))
    requires Undisturbed(rest, n, c) && Hears(rest, comments) && forall k :: 0 <= k < |rest| ==> rest[k].Answered?
    requires Spawned(cfg, Run(cfg, w', rest), n, w'.tasks[n].task, w'.tasks[n].book.cycle, s)
    requires KeepsAgent(SpaceOf(w', n), SpaceOf(Run(cfg, w', rest), n))
    ensures var events := [Answered(n, Helpful(w.tasks[n].pass.value.point, c, comments))] + rest;
            && (forall k :: 0 <= k < |events| ==> events[k].Answered?)
            && Undisturbed(events, n, c) && Hears(events, comments)
            && Spawned(cfg, Run(cfg, w, events), n, w.tasks[n].task, w.tasks[n].book.cycle, s)
            && KeepsAgent(SpaceOf(w, n), SpaceOf(Run(cfg, w, events), n))
  {
    hide Run, Next;
    var ans := Helpful(w.tasks[n].pass.value.point, c, comments);
    StillUndisturbed(n, c, comments, ans, rest);
    RunOneThen(cfg, w, Answered(n, ans), rest);
  }

  lemma StillUndisturbed(n: string, c: Creds, comments: seq<Comment>, ans: Answer, rest: seq<Event>)
    requires Helps(Answered(n, ans), n, c) && Undisturbed(rest, n, c)
    requires HearsAt(Answered(n, ans), comments) && Hears(rest, comments)
    requires forall k :: 0 <= k < |rest| ==> rest[k].Answered?
    ensures var events := [Answered(n, ans)] + rest;
            && Undisturbed(events, n, c) && Hears(events, comments)
            && forall k :: 0 <= k < |events| ==> events[k].Answered?
  {
    var events := [Answered(n, ans)] + rest;
    forall k | 0 <= k < |events|
      ensures Helps(events[k], n, c) && HearsAt(events[k], comments)
    {
      assert events[k] == if k == 0 then Answered(n, ans) else rest[k - 1];
    }
  }

  lemma RunOneThen(cfg: Config, w: World, event: Event, rest: seq<Event>)
    ensures Run(cfg, w, [event] + rest) == Run(cfg, Next(cfg, w, event), rest)
  {
    RunConcat(cfg, w, [event], rest);
    RunOne(cfg, w, event);
  }

  lemma FinalWrite(cfg: Config, w: World, n: string, c: Creds, s: Creds) returns (events: seq<Event>)
    requires Inv(cfg, w) && Distinct(w) && n in w.tasks
    requires Attempting(ViewOf(w, n)) && Securing(ViewOf(w, n), c, s) && Writing(w.tasks[n])
    ensures events == [Answered(n, Works)]
    ensures Spawned(cfg, Run(cfg, w, events), n, w.tasks[n].task, w.tasks[n].book.cycle, s)
    ensures SpaceOf(Run(cfg, w, events), n) == SpaceOf(w, n)
  {
    var e, sp := w.tasks[n], SpaceOf(w, n);
    assert TaskOk(cfg, w, n);
    events := [Answered(n, Works)];
    RunOne(cfg, w, Answered(n, Works));
    WriteLogged(cfg, e, sp, Works, w.now, w.lifetimes);
    LocalStep(cfg, w, n, Works, Written(e, false), sp);
    WriteEnters(cfg, e, sp, w.now, c, s);
  }

  /** The write in question, on the task alone. */
  lemma WriteEnters(cfg: Config, e: Entry, sp: Option<Space>, now: nat, c: Creds, s: Creds)
    requires TaskInv(cfg, e, sp, now) && Attempting(Seen(e, sp)) && Securing(Seen(e, sp), c, s) && Writing(e)
    ensures var e' := Written(e, false);
            && e'.task.status.phase == Building && e'.task.spec == e.task.spec
            && e'.task.status.prNumber == e.task.status.prNumber
            && e'.book.cycle == e.book.cycle + 1 && e'.book.ready
            && e'.pass.Some? && e'.pass.value.point.Return? && !e'.pass.value.point.failed
            && SandboxIn(sp, PlanOf(e.task.status.phase)) == Some(Canonical(cfg, e.task, s))
            && InFront(sp, PlanOf(e.task.status.phase), e.book.cycle + 1)
  {
    CanonicalAtWrite(cfg, e, sp, now);
    FrontAtWrite(cfg, e, sp, now);
  }

  lemma FrontAtWrite(cfg: Config, e: Entry, sp: Option<Space>, now: nat)
    requires TaskInv(cfg, e, sp, now) && Attempting(Seen(e, sp)) && Writing(e)
    ensures InFront(sp, PlanOf(e.task.status.phase), e.book.cycle + 1)
  {
  }

  lemma RunOne(cfg: Config, w: World, event: Event)
    ensures Run(cfg, w, [event]) == Next(cfg, w, event)
  {
    assert [event] == [] + [event];
    RunStep(cfg, w, [], event);
  }

  /** A queued task that waits for a spawn. */
  predicate WaitsForSpawn(w: World, n: string) {
    && n in w.tasks && w.tasks[n].pass.None? && w.tasks[n].book.ready
    && IsSpawning(w.tasks[n].task.status.phase)
  }

  /** And nothing is in its way. */
  predicate AwaitsSpawn(w: World, n: string) {
    WaitsForSpawn(w, n) && Unobstructed(w.tasks[n], SpaceOf(w, n))
  }

  /** An answer of an authorised human, for the resume of a blocked task. */
  lemma SomeReply() returns (comments: seq<Comment>)
    ensures HumanReplied(comments)
  {
    comments := [Comment("", "User", "", "OWNER")];
    assert "User" != "Bot" && "" !in ["github-actions[bot]", "app/github-actions"];
  }

  /** One undisturbed pass spawns the canonical sandbox and enters Building; a Secret that is there already stays. */
  lemma DirectAttempt(cfg: Config, w: World, n: string, c: Creds, comments: seq<Comment>) returns (events: seq<Event>)
    requires Inv(cfg, w) && Distinct(w) && AwaitsSpawn(w, n) && HumanReplied(comments)
    ensures Undisturbed(events, n, c) && Hears(events, comments)
    ensures Spawned(cfg, Run(cfg, w, events), n, w.tasks[n].task, w.tasks[n].book.cycle, SecretToBe(SpaceOf(w, n), c))
    ensures KeepsAgent(SpaceOf(w, n), SpaceOf(Run(cfg, w, events), n))
  {
    hide Run, Next;
    AttemptStarts(cfg, w, n, c);
    var rest := Completes(cfg, Next(cfg, w, Start(n)), n, c, SecretToBe(SpaceOf(w, n), c), comments);
    events := [Start(n)] + rest;
    RunOneThen(cfg, w, Start(n), rest);
  }

  lemma AttemptStarts(cfg: Config, w: World, n: string, c: Creds)
    requires Inv(cfg, w) && Distinct(w) && AwaitsSpawn(w, n)
    ensures var w1 := Next(cfg, w, Start(n));
            && Inv(cfg, w1) && Distinct(w1) && n in w1.tasks
            && Attempting(ViewOf(w1, n)) && Securing(ViewOf(w1, n), c, SecretToBe(SpaceOf(w, n), c))
            && w1.tasks[n].task == w.tasks[n].task && w1.tasks[n].book.cycle == w.tasks[n].book.cycle
            && SpaceOf(w1, n) == SpaceOf(w, n)
  {
    assert TaskOk(cfg, w, n);
    DistinctKept(cfg, w, Start(n));
    InvStep(cfg, w, Start(n));
    AttemptBegins(cfg, w.tasks[n], SpaceOf(w, n), w.now, c);
  }

  lemma AttemptBegins(cfg: Config, e: Entry, sp: Option<Space>, now: nat, c: Creds)
    requires TaskInv(cfg, e, sp, now) && e.pass.None? && e.book.ready && IsSpawning(e.task.status.phase)
    requires Unobstructed(e, sp)
    ensures Attempting(Seen(Started(cfg, e, now), sp)) && HoldsCreds(Started(cfg, e, now), c)
  {
  }

  // ---- interrupted attempts

  /** An event leaves a spawning task as it is, or completes its spawn. */
  lemma SpawnStays(cfg: Config, v: Seen, n: string, event: Event, now: nat, lifetimes: nat)
    requires TaskInv(cfg, v.entry, v.space, now)
    ensures var e, e' := v.entry, ViewStep(cfg, v, n, event, now, lifetimes).entry;
            && e.book.cycle <= e'.book.cycle
            && (IsSpawning(e.task.status.phase) ==> e'.task == e.task || e'.book.cycle > e.book.cycle)
  {
    if event.Answered? && event.name == n && v.entry.pass.Some? {
      if Writing(v.entry) {
        WriteLogged(cfg, v.entry, v.space, event.ans, now, lifetimes);
      } else {
        CallLeavesTask(cfg, v.entry, v.space, event.ans, now, lifetimes);
      }
    }
  }

  lemma CallLeavesTask(cfg: Config, e: Entry, sp: Option<Space>, ans: Answer, now: nat, lifetime: nat)
    requires e.pass.Some? && !Writing(e)
    ensures var e' := Advance(cfg, e, sp, ans, now, lifetime).0; e'.task == e.task && e'.book.cycle == e.book.cycle
  {
  }

  /** The task's own reads of credentials in a window of the run. */
  predicate OwnCredsBetween(events: seq<Event>, i: nat, j: nat, n: string, c: Creds)
    requires j <= |events|
  {
    forall k :: i <= k < j ==> OwnCreds(events[k], n, c)
  }

  /** While no spawn completes, the task stays as it is and its Secret is the one to be. */
  lemma {:induction false} SecuringUntil(cfg: Config, w0: World, events: seq<Event>, i: nat, j: nat, n: string,
                                        c: Creds, s: Creds)
    requires GoodRun(cfg, w0, events) && i <= j <= |events| && n in At(cfg, w0, events, i).tasks
    requires IsSpawning(At(cfg, w0, events, i).tasks[n].task.status.phase)
    requires Securing(ViewOf(At(cfg, w0, events, i), n), c, s) && OwnCredsBetween(events, i, j, n, c)
    ensures n in At(cfg, w0, events, j).tasks
    ensures var e, e' := At(cfg, w0, events, i).tasks[n], At(cfg, w0, events, j).tasks[n];
            && e.book.cycle <= e'.book.cycle
            && (e'.book.cycle == e.book.cycle ==>
                  e'.task == e.task && Securing(ViewOf(At(cfg, w0, events, j), n), c, s))
    decreases j
  {
    if i == j {
    } else {
      SecuringUntil(cfg, w0, events, i, j - 1, n, c, s);
      SecuringNext(cfg, w0, events, j - 1, n, c, s);
    }
  }

  lemma SecuringNext(cfg: Config, w0: World, events: seq<Event>, k: nat, n: string, c: Creds, s: Creds)
    requires GoodRun(cfg, w0, events) && k < |events| && n in At(cfg, w0, events, k).tasks && OwnCreds(events[k], n, c)
    ensures n in At(cfg, w0, events, k + 1).tasks
    ensures var e, e' := At(cfg, w0, events, k).tasks[n], At(cfg, w0, events, k + 1).tasks[n];
            && e.book.cycle <= e'.book.cycle
            && (IsSpawning(e.task.status.phase) && Securing(ViewOf(At(cfg, w0, events, k), n), c, s) ==>
                  && (e'.task == e.task || e'.book.cycle > e.book.cycle)
                  && Securing(ViewOf(At(cfg, w0, events, k + 1), n), c, s))
  {
    AtView(cfg, w0, events, k, n);
    var w := At(cfg, w0, events, k);
    if IsSpawning(w.tasks[n].task.status.phase) && Securing(ViewOf(w, n), c, s) {
      SecuringStays(cfg, ViewOf(w, n), n, events[k], w.now, w.lifetimes, c, s);
    }
    SpawnStays(cfg, ViewOf(w, n), n, events[k], w.now, w.lifetimes);
  }

  /**
   From moment `i` on, attempts stop and restart in any way until event `k` enters Building. If the task's own reads
   of the credentials in between all give `c`, the sandbox is then the one that an undisturbed attempt at moment `i`
   would have built.
   */
  lemma RetryConvergence(cfg: Config, w0: World, events: seq<Event>, i: nat, k: nat, n: string, w: World, w': World, c: Creds)
    returns (direct: seq<Event>)
    requires Spawns(cfg, w0, events, k, n, w, w') && i <= k && OwnCredsBetween(events, i, k, n, c)
    requires AwaitsSpawn(At(cfg, w0, events, i), n)
    requires At(cfg, w0, events, i).tasks[n].book.cycle == w.tasks[n].book.cycle
    ensures Undisturbed(direct, n, c)
    ensures IsSpawning(w.tasks[n].task.status.phase)
    ensures var plan := PlanOf(w.tasks[n].task.status.phase);
            var d := Run(cfg, At(cfg, w0, events, i), direct);
            && n in d.tasks
            && d.tasks[n].task.status.phase == w'.tasks[n].task.status.phase == Building
            && SandboxIn(SpaceOf(d, n), plan).Some?
            && SandboxIn(SpaceOf(d, n), plan) == SandboxIn(SpaceOf(w', n), plan)
  {
    SpawnIsCanonical(cfg, w0, events, k, n, w, w');
    SecuringUntil(cfg, w0, events, i, k, n, c, SecretToBe(SpaceOf(At(cfg, w0, events, i), n), c));
    AtAny(cfg, w0, events, i);
    var comments := SomeReply();
    direct := DirectAttempt(cfg, At(cfg, w0, events, i), n, c, comments);
  }

  /** As long as no deletion by a task's own passes fails and no pod of it vanishes, that is so of every entry. */
  lemma RetryAlwaysConverges(cfg: Config, w0: World, events: seq<Event>, i: nat, k: nat, n: string, w: World, w': World,
                             c: Creds) returns (direct: seq<Event>)
    requires Enters(cfg, w0, events, k, n, w, w') && NoLoss(cfg, w0, events, k, n)
    requires i <= k && OwnCredsBetween(events, i, k, n, c) && WaitsForSpawn(At(cfg, w0, events, i), n)
    requires At(cfg, w0, events, i).tasks[n].book.cycle == w.tasks[n].book.cycle
    ensures Undisturbed(direct, n, c)
    ensures IsSpawning(w.tasks[n].task.status.phase)
    ensures var plan := PlanOf(w.tasks[n].task.status.phase);
            var d := Run(cfg, At(cfg, w0, events, i), direct);
            && n in d.tasks
            && d.tasks[n].task.status.phase == w'.tasks[n].task.status.phase == Building
            && SandboxIn(SpaceOf(d, n), plan).Some?
            && SandboxIn(SpaceOf(d, n), plan) == SandboxIn(SpaceOf(w', n), plan)
  {
    SpawnAlwaysCanonical(cfg, w0, events, k, n, w, w');
    NothingLeft(cfg, w0, events, i, n);
    direct := RetryConvergence(cfg, w0, events, i, k, n, w, w', c);
  }

  /** Without any assumption on credentials, owner, policy and pod still agree. */
  lemma RetryShape(cfg: Config, w0: World, events: seq<Event>, i: nat, k: nat, n: string, w: World, w': World, c: Creds)
    returns (direct: seq<Event>)
    requires Spawns(cfg, w0, events, k, n, w, w') && i <= k
    requires AwaitsSpawn(At(cfg, w0, events, i), n)
    requires At(cfg, w0, events, i).tasks[n].task == w.tasks[n].task
    ensures Undisturbed(direct, n, c)
    ensures IsSpawning(w.tasks[n].task.status.phase)
    ensures var plan := PlanOf(w.tasks[n].task.status.phase);
            var d := Run(cfg, At(cfg, w0, events, i), direct);
            && n in d.tasks && SandboxIn(SpaceOf(d, n), plan).Some? && SandboxIn(SpaceOf(w', n), plan).Some?
            && var built, retried := SandboxIn(SpaceOf(d, n), plan).value, SandboxIn(SpaceOf(w', n), plan).value;
               built == retried.(secret := built.secret)
  {
    SpawnIsCanonical(cfg, w0, events, k, n, w, w');
    AtAny(cfg, w0, events, i);
    var comments := SomeReply();
    direct := DirectAttempt(cfg, At(cfg, w0, events, i), n, c, comments);
  }
}
