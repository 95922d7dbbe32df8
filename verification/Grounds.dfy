/**
 What a pass must have read on GitHub before it may take a task out of review, out of a clarification or into one.
 */
module Grounds {
  import opened Glob
  import opened Domain
  import opened Protocol
  import opened Machine

  datatype Ground = HumanAnswered | AgentAsked | PullDone | RevisionAsked

  /** The exchange is such a reading. */
  predicate Shows(task: Task, x: Exchange, ground: Ground) {
    match ground
    case HumanAnswered =>
      && x.call == GitHub(ListComments) && x.reply.Got? && x.reply.answer.Comments? && x.reply.answer.comments != []
      && var last := x.reply.answer.comments[|x.reply.answer.comments| - 1];
         && last.userType != "Bot" && last.login != "github-actions[bot]" && last.login != "app/github-actions"
         && (last.association == "OWNER" || last.association == "MEMBER" || last.association == "COLLABORATOR")
    case AgentAsked =>
      && x.call == GitHub(ListComments) && x.reply.Got? && x.reply.answer.Comments?
      && exists k :: 0 <= k < |x.reply.answer.comments| && "/clarification:" <= x.reply.answer.comments[k].body
    case PullDone =>
      && x.call == GitHub(GetPull(task.status.prNumber)) && x.reply.Got? && x.reply.answer.Pull?
      && (x.reply.answer.pr.merged || x.reply.answer.pr.state == "closed")
    case RevisionAsked =>
      && x.call == GitHub(GetPull(task.status.prNumber)) && x.reply.Got? && x.reply.answer.Pull?
      && "needs-revision" in x.reply.answer.pr.labels
  }

  predicate Shown(task: Task, log: seq<Exchange>, ground: Ground) {
    exists k :: 0 <= k < |log| && Shows(task, log[k], ground)
  }

  /** What a pass over a task in `phase` that has come to `pt` rests on. */
  function Needs(phase: Phase, pt: Point): Option<Ground> {
    if pt.Return? then None
    else match phase
      case BlockedOnClarification => if pt.ReadReply? then None else Some(HumanAnswered)
      case AwaitingReview =>
        if pt.DropNamespace? || (pt.Write? && pt.next.phase.Completed?) then Some(PullDone)
        else if pt.Write? then Some(RevisionAsked)
        else None
      case Building => NeedsWhileActive(pt)
      case Running => NeedsWhileActive(pt)
      case _ => None
  }

  function NeedsWhileActive(pt: Point): Option<Ground> {
    if (pt.DropNamespace? && pt.purpose.ForClarification?) || (pt.Write? && pt.next.phase.BlockedOnClarification?)
    then Some(AgentAsked) else None
  }

  ghost predicate GroundsOk(e: Entry) {
    e.pass.Some? ==>
      var ground := Needs(e.task.status.phase, e.pass.value.point);
      ground.Some? ==> Shown(e.task, e.pass.value.log, ground.value)
  }

  lemma ShownAppend(task: Task, log: seq<Exchange>, x: Exchange, ground: Ground)
    ensures Shown(task, log + [x], ground) <==> Shown(task, log, ground) || Shows(task, x, ground)
  {
    assert forall k :: 0 <= k < |log| ==> (log + [x])[k] == log[k];
    assert (log + [x])[|log|] == x;
  }

  /** Points at which a pass over a task in `phase` can stand. */
  predicate Fits(phase: Phase, pt: Point) {
    match phase
    case BlockedOnClarification =>
      || pt.ReadReply? || pt.NeedCreds? || pt.EnsureNamespace? || pt.EnsurePolicy? || pt.EnsureSecret? || pt.EnsurePod?
      || pt.Write? || pt.Return?
    case AwaitingReview =>
      pt.CheckPull? || pt.CheckLabel? || (pt.DropNamespace? && pt.purpose.ForCompletion?) || pt.Write? || pt.Return?
    case _ => true
  }

  /** The reply to one call gives what the next point needs, or the pass had it already. */
  lemma BlockedGrounds(cfg: Config, task: Task, pt: Point, rep: Reply, now: nat)
    requires task.status.phase.BlockedOnClarification? && Fits(task.status.phase, pt) && !pt.Return?
    ensures var next := After(cfg, task, pt, rep, now);
            Needs(task.status.phase, next) == None
            || Needs(task.status.phase, next) == Needs(task.status.phase, pt)
            || Shows(task, Exchange(CallAt(cfg, task, pt), rep), Needs(task.status.phase, next).value)
  {
  }

  lemma ReviewGrounds(cfg: Config, task: Task, pt: Point, rep: Reply, now: nat)
    requires task.status.phase.AwaitingReview? && task.status.prNumber != 0 && Fits(task.status.phase, pt) && !pt.Return?
    ensures var next := After(cfg, task, pt, rep, now);
            Needs(task.status.phase, next) == None
            || Needs(task.status.phase, next) == Needs(task.status.phase, pt)
            || Shows(task, Exchange(CallAt(cfg, task, pt), rep), Needs(task.status.phase, next).value)
  {
  }

  lemma ActiveGrounds(cfg: Config, task: Task, pt: Point, rep: Reply, now: nat)
    requires task.status.phase.Building? || task.status.phase.Running?
    ensures var next := After(cfg, task, pt, rep, now);
            Needs(task.status.phase, next) == None
            || Needs(task.status.phase, next) == Needs(task.status.phase, pt)
            || Shows(task, Exchange(CallAt(cfg, task, pt), rep), Needs(task.status.phase, next).value)
  {
    if pt.GetRevisionPod? || pt.GetAgentPod? || pt.ReadClarification? || pt.FindPull? {
      PodGrounds(cfg, task, pt, rep, now);
    } else {
      PullGrounds(cfg, task, pt, rep, now);
    }
  }

  lemma PodGrounds(cfg: Config, task: Task, pt: Point, rep: Reply, now: nat)
    requires task.status.phase.Building? || task.status.phase.Running?
    requires pt.GetRevisionPod? || pt.GetAgentPod? || pt.ReadClarification? || pt.FindPull?
    ensures var next := After(cfg, task, pt, rep, now);
            Needs(task.status.phase, next) == None
            || Shows(task, Exchange(CallAt(cfg, task, pt), rep), Needs(task.status.phase, next).value)
  {
  }

  lemma PullGrounds(cfg: Config, task: Task, pt: Point, rep: Reply, now: nat)
    requires task.status.phase.Building? || task.status.phase.Running?
    requires !pt.GetRevisionPod? && !pt.GetAgentPod? && !pt.ReadClarification? && !pt.FindPull?
    ensures var next := After(cfg, task, pt, rep, now);
            Needs(task.status.phase, next) == None || Needs(task.status.phase, next) == Needs(task.status.phase, pt)
  {
  }

  /** Each API call keeps the grounds. */
  lemma GroundsKept(cfg: Config, e: Entry, sp: Option<Space>, ans: Answer, now: nat, lifetime: nat)
    requires e.pass.Some? && GroundsOk(e)
    requires e.task.status.phase.AwaitingReview? ==> e.task.status.prNumber != 0
    requires !e.pass.value.point.Return? ==> e.pass.value.copy == e.task && Fits(e.task.status.phase, e.pass.value.point)
    ensures GroundsOk(Advance(cfg, e, sp, ans, now, lifetime).0)
  {
    var p := e.pass.value;
    if !p.point.Return? && !p.point.Write? {
      var phase, call := e.task.status.phase, CallAt(cfg, p.copy, p.point);
      var rep := CallLogged(cfg, e, sp, ans, now, lifetime);
      if phase.BlockedOnClarification? {
        BlockedGrounds(cfg, e.task, p.point, rep, now);
      } else if phase.AwaitingReview? {
        ReviewGrounds(cfg, e.task, p.point, rep, now);
      } else if phase.Building? || phase.Running? {
        ActiveGrounds(cfg, e.task, p.point, rep, now);
      }
      var ground := Needs(phase, After(cfg, e.task, p.point, rep, now));
      if ground.Some? {
        ShownAppend(e.task, p.log, Exchange(call, rep), ground.value);
      }
    }
  }
}
