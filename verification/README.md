# The DevTask operator, verified

A Dafny model of the Kubernetes operator under `operator/internal/controller`: the DevTask lifecycle
with every API call as its own step, the GitHub poller beside it, and the diff policy that decides whether an
agent's pull request reaches a human. `dafny verify dfyconfig.toml` checks the whole project.

## What is modelled

- **The diff policy** (`Text`, `Glob`, `Approvals`, `DiffPolicy`): the pattern language, the approval parser and
  the decision loop. The two loops are methods, proved against a specification whose own laws are lemmas. `LineBreaks`
  says what carriage returns in the issue body do to its advice, `NonAscii` what letters outside ASCII do to the parser.
- **The machine** (`Domain`, `Protocol`, `Machine`): a world of tasks, sandbox namespaces, the work queue and the
  poller. A reconcile pass is a sequence of API calls; each call is one event, succeeds or fails on its own, and
  interleaves freely with the calls of other passes, with the poller, with pods changing phase or vanishing, with
  the clock, and with restarts of the operator. `Protocol` says which call a pass makes at each point and where
  each reply takes it; `Machine` says what the calls do.
- **The invariant** (`Grounds`, `TaskInvariant`, `Safety`): what holds of one task, its pass and its namespace between
  any two calls, and its lifting to every run of the whole world.
- **The rules** (`Rules`, `Passes`): what a pass does next told a second time, as a function of the task it read and of the
  replies it has had, without the points of the machine: each call in the words of the cluster and of GitHub, each status field by
  field, each delay in seconds. Every pass of every run follows them. `Outcomes` and `Failures` draw from them what decides
  a task's way, spelled out: the phase of the pod that was read, the pull request found, the last comment, the request
  for clarification, the label, the link, the time of a failure.
- **The properties of runs** (`Lifecycle`, `Flow`, `Wakeups`, `Isolation`, `Capacity`, `Polling`, `PollHistory`,
  `Convergence`). Those about one task are proved on that task's view of the world (`View`).
- **Which pod a task works with** (`Entries`, `Freshness`): as long as no deletion by the task's own passes fails and none
  of its pods vanishes, always the one of the latest spawn. Without that hypothesis, exactly when: every entry to Building
  is traced back to the calls it rests on, and every later moment to the entry.
- **What goes wrong, and exactly when** (`Losses`, `WrongPod`, `Clarification`): which teardown leaves a namespace behind,
  which task is stuck for ever, and runs from the start, allowed by every hypothesis, in which a failed read makes a task
  take an earlier cycle's pod for the current one, or old comments keep a task from ever failing (`Scenario` builds them).
- **The running code** (`Cluster`, `Reconciler`, `Poller`): classes whose methods make the API calls and edit the
  fields of the task they read, step by step as the operator does. A `Server` only changes by events of the
  machine and keeps its history as ghost state; each method's contract says at which point of the machine the pass
  stands when it returns, whatever the rest of the world did in between. A call made out of order, skipped, or
  made with other arguments fails its precondition, so what is proved of all runs holds of this code.

## Hypotheses

`Safety.GoodRun` collects those on runs. The concurrency cap is proved of every run, good or not, in which the poller alone
creates tasks; but it too rests on what the machine builds in: current reads, failed calls without effect, tasks that
are not deleted, and a fixed cap.

- A reconcile pass sees the task as last written, and no two passes over one task overlap.
- A call that is answered with an error had no effect.
- A deletion that is answered with success has taken effect. Several call sites discard the error of a deletion
  (`devtask_controller.go:93`, `:114`, `:220`, `:258`), so the model lets deletions fail, and lets pods vanish. Either is a loss
  for the task. Statements that hold without losses say so (`Freshness.NoLoss`); the others say exactly what a loss does.
- Fetching pull request n returns one numbered n, and listed pull requests have positive numbers.
- Tasks have distinct issue numbers: the namespace name ignores the repository (`namespace.go:30-32`).
- Task specs do not change and tasks are not deleted.
- Where the diff policy's decision is concerned, issue bodies are ASCII: an index into the lowercased line is used on
  the line itself (`diff_policy.go:157-161`). `NonAscii` says exactly on which bodies that stays in bounds.
- Comments, issues and open pull requests are what one page returns, so the "last comment" is the last of that page.
- The lifetime of a failed task's namespace, the caps, the egress rules and the policy are fixed while the operator runs.
- Times are whole seconds, the precision of a stored status. Integers are unbounded.

`path.Match` is a parameter of everything that uses it. Reading credentials and the GitHub request that uses them count
as one call, which fails if either does. Repository names may hold capitals and underscores, which Kubernetes refuses in the
name of an object: a task whose name is refused is never created, and the poll counts it as neither wanted nor missing.

## Where code and documentation differ

The model follows the code. The state diagram in `ARCHITECTURE.md:112-123` leaves Running only, while the code also goes from
Building straight to AwaitingReview, BlockedOnClarification and Failed when the pod is quick. It has no edge for a
diff-policy rejection, which fails the task with its namespace already cleared. The `Pending` phase of the resource
schema is never entered, which is part of `Lifecycle.StatusInvariant`. The comment at `pod.go:396-397` takes an existing agent-rev
for the current run; that holds exactly as far as `Entries.RevisionFreshExactly` says. The one at `diff_policy.go:151-152` calls
approvals separated by whitespace, but a carriage return is no separator (`LineBreaks`).

## Model

| member | source | states |
|---|---|---|
| Glob.PrefixGlob | operator/internal/controller/diff_policy.go:194-197 | for all strings, a `<prefix>/**` pattern matches exactly the paths whose segments begin with the prefix's segments |
| Glob.SuffixGlob | operator/internal/controller/diff_policy.go:198-206 | a star-free `**/<suffix>` pattern matches exactly the paths whose segments end with the suffix's segments |
| Glob.MatchAny | operator/internal/controller/diff_policy.go:173-180 | a reported pattern is listed and matches; none reported means none listed matches |
| Glob.StarGlob | operator/internal/controller/diff_policy.go:198-211 | any other pattern with a star is left to the library's matcher: on the whole path, or after `**/` on its last element or as a suffix of segments |
| Glob.BaseIsLast | operator/internal/controller/diff_policy.go:199 | the last element of a path that ends in no slash is its last segment |
| Approvals.ParseApprovedGlobs | operator/internal/controller/diff_policy.go:153-171 | on ASCII bodies the parsing loops, with every slice in bounds, compute the approved globs of the text |
| NonAscii.InBoundsExactly | operator/internal/controller/diff_policy.go:156-161 | for any lowercasing, the parser stays in bounds exactly on the bodies of which no line has its marker pushed past its end by lowercasing |
| NonAscii.AsciiBody | operator/internal/controller/diff_policy.go:156-168 | if lowercasing changes ASCII capitals only, the parser returns the approved globs |
| NonAscii.LetterThatGrows | operator/internal/controller/diff_policy.go:157-161 | a concrete body on which the slice is out of bounds: a letter whose lower case is one byte longer, before the marker |
| Approvals.ApprovedAreTokens | operator/internal/controller/diff_policy.go:162-168 | every approved glob is a non-empty token free of separators and line breaks |
| Approvals.ApprovalRoundTrip | operator/internal/controller/diff_policy.go:151-171 | writing the marker and space-joined tokens, then parsing, gives the tokens back in order |
| Approvals.ApprovedConcat | operator/internal/controller/diff_policy.go:156-170 | parsing two texts joined by a line break is parsing both and concatenating |
| Approvals.SeparatorsExactly | operator/internal/controller/diff_policy.go:162-164 | on an approval line a space, a tab, a comma and a backquote separate two globs, and any other character but a line break is part of one |
| Approvals.MarkerAnywhere | operator/internal/controller/diff_policy.go:157-161 | the marker counts in any mixture of cases and after any text that holds neither its first letter nor a line break |
| DiffPolicy.EvaluateDiff | operator/internal/controller/diff_policy.go:108-149 | the decision loop reports exactly the specified violations, in order |
| DiffPolicy.SizesExactly | operator/internal/controller/diff_policy.go:136-147 | each cap that is passed is reported once, after the file entries, under its own name and with its own count and limit, files before lines |
| DiffPolicy.LinesExactly | operator/internal/controller/diff_policy.go:115 | the lines counted are those added and those deleted, of every file |
| DiffPolicy.ExactDecision | operator/internal/controller/diff_policy.go:106-149 | no violation exactly when no file is restricted, every risky file is approved, and both size caps hold |
| DiffPolicy.OneFile | operator/internal/controller/diff_policy.go:113-134 | each file is reported at most once, under its own name; restricted takes precedence over risky |
| DiffPolicy.OrderIrrelevant | operator/internal/controller/diff_policy.go:113-148 | permuting the files permutes the violations |
| DiffPolicy.AddedApprovals | operator/internal/controller/diff_policy.go:125-133 | text added to the issue removes precisely the risky-path violations it approves and changes nothing else |
| DiffPolicy.AdviceIsSound | operator/internal/controller/diff_policy.go:125-133 | adding, after line feeds, the line that each risky-path violation recommends leaves exactly the other violations |
| DiffPolicy.ShippedAdviceIsSound | operator/internal/controller/diff_policy.go:56-87 | the same for the default policy, for any caps and any body |
| LineBreaks.LineBeforeCr | operator/internal/controller/diff_policy.go:156-163 | an approval line that ends in a carriage return approves its glob with the carriage return on it |
| LineBreaks.CrlfAdviceExactly | operator/internal/controller/diff_policy.go:125-133 | advice added after carriage return and line feed removes exactly the risky entries that the last recommended pattern matches, from the report on the old body with a carriage return behind it |
| LineBreaks.CrlfAdviceClears | operator/internal/controller/diff_policy.go:125-133 | such advice clears all risky entries if and only if the last pattern matches each of them |
| LineBreaks.ShippedCrlfClears | operator/internal/controller/diff_policy.go:56-87 | the same for the default policy, where no hypothesis on the patterns is left |
| LineBreaks.CrlfExample | operator/internal/controller/diff_policy.go:66-83 | for a change of package.json and package-lock.json, the advice so added leaves package.json reported |
| DiffPolicy.RiskyPaths | operator/internal/controller/diff_policy.go:66-83 | a path is risky exactly when its last segment is one of eleven manifest names, which are listed |
| DiffPolicy.RiskyAtAnyDepth | operator/internal/controller/diff_policy.go:66-70 | adding or removing leading directories never changes whether a path is risky |
| DiffPolicy.RestrictedPaths | operator/internal/controller/diff_policy.go:58-65 | a path is restricted exactly when it lies in one of four directories or is one of two top-level files, all spelled out |
| Domain.NamespaceInjective | operator/internal/controller/namespace.go:30-32 | tasks share a namespace name exactly when they share an issue number |
| Domain.TaskNameInjective | operator/internal/controller/github_poller.go:147-148 | a task name determines the repository's name and the issue number, whatever dashes and digits the name holds |
| Domain.OwnersShareTaskNames | operator/internal/controller/pod.go:67-73 | the owner is no part of the task name |
| Domain.TaskNameSpelled | operator/internal/controller/github_poller.go:147-148 | the name of a task is the repository's name, a dash, and the number in decimal |
| Text.DecimalExactly | operator/internal/controller/namespace.go:30-32 | the decimal form of a number is the one text of digits worth that number and without a leading zero |
| Domain.AdmittedExactly | operator/internal/controller/github_poller.go:163-176 | a spec is admitted exactly with a positive number and a repository of owner and name, both non-empty and of the schema's characters |
| Domain.ObjectNameExactly | operator/internal/controller/github_poller.go:163-176 | what the API server takes as a name: at most 253 characters, and between dots only non-empty labels of lower-case letters, digits and inner dashes |
| Domain.BranchExactly | operator/internal/controller/github_poller.go:199-214 | for every ref, the test on branches holds exactly if the ref is the common stem, then the decimal form of the number, and then nothing or a dash and any text |
| Domain.BranchUnambiguous | operator/internal/controller/github_poller.go:199-214 | no branch passes the prefix-or-legacy test of two issue numbers |
| Domain.PullRequestUnshared | operator/internal/controller/github_poller.go:201-214 | no pull request is picked up for two issues |
| Grounds.GroundsKept | operator/internal/controller/github_poller.go:288-331 | between any two calls, a pass that heads for a resume, a block, a completion or a revision has read on GitHub what allows it, spelled out: the last comment's author type, login and association, the prefix of a comment, merged or closed, the label |
| TaskInvariant.CoreKept | operator/internal/controller/devtask_controller.go:49-146 | every API call, succeeding or failing, keeps the status, sandbox and point invariants |
| TaskInvariant.CyclesKept | operator/internal/controller/devtask_controller.go:109-122 | every API call keeps the order of the pods: no two are of one cycle, and only the pod of the spawn in hand, built for it, is of the coming one |
| TaskInvariant.GateKept | operator/internal/controller/devtask_controller.go:233-273 | every API call keeps the record of pages, issue body and verdict on which the pass goes on |
| TaskInvariant.WakeKept | operator/internal/controller/devtask_controller.go:203-273 | every API call leaves an unsettled task with a way to be reconciled again |
| Safety.InvStep | operator/internal/controller/devtask_controller.go:49-273 | every event, of whichever actor, keeps the invariant of all tasks and namespaces |
| Safety.RunInv | operator/internal/controller/devtask_controller.go:49-273 | the invariant holds after every run |
| Safety.AnsweredLocally | operator/internal/controller/namespace.go:34-58 | an answered call changes only its own task and that task's namespace |
| Lifecycle.StatusInvariant | operator/internal/controller/devtask_controller.go:57-143 | at every moment of every run: Pending never occurs, namespace, start time, failure time and pull request number are set as the phase demands |
| Lifecycle.StatusStep | operator/internal/controller/devtask_controller.go:82-142 | a status changes only when the status write of the task's own pass goes through, and to what that pass wrote |
| Lifecycle.StatusMoves | operator/internal/controller/devtask_controller.go:57-143 | one event moves a phase along an edge of the lifecycle or not at all, never changes a recorded pull request number or failure time |
| Lifecycle.StatusHistory | operator/internal/controller/github_poller.go:191-197 | along a run a recorded pull request number stays and Completed and Failed are never left |
| Lifecycle.SandboxBeforePod | operator/internal/controller/devtask_controller.go:172-198 | at every moment a pod's namespace belongs to a task, carries its name, and has the configured policy and a Secret |
| Lifecycle.SecretBehindPolicy | operator/internal/controller/devtask_controller.go:58-76 | at every moment a namespace with credentials has the configured egress policy |
| Lifecycle.WriteOnce | operator/internal/controller/networkpolicy.go:39-56 | within one lifetime of a namespace, policy and Secret never change |
| Lifecycle.StepWritesOnce | operator/internal/controller/secrets.go:48-64 | one event keeps a namespace's policy and Secret or starts a new lifetime |
| View.ViewSteps | operator/internal/controller/devtask_controller.go:49-146 | what an event does to a task and its namespace depends on these two alone |
| Freshness.PodAlwaysFresh | operator/internal/controller/pod.go:394-403 | in every run in which no deletion by the task's own passes fails and none of its pods vanishes, over any number of cycles and at every moment, the pod that getPod prefers for a Building or Running task is that of the latest spawn |
| Entries.FirstFreshExactly | operator/internal/controller/devtask_controller.go:58-82 | in every run, a new task that enters Building has its own pod current if and only if that pod has not vanished since its creation |
| Entries.RevisionFreshExactly | operator/internal/controller/devtask_controller.go:109-115 | in every run, a revision that enters Building has its own pod current if and only if that pod has not vanished since its creation in the pass, and before it the deletion in the same pass was answered, or no pod of an earlier cycle was there, or it vanished |
| Entries.ResumeFreshExactly | operator/internal/controller/devtask_controller.go:117-122 | in every run, a resumed task that enters Building has its own pod current if and only if that pod has not vanished since its creation, and each agent pod that the last teardown failed on has: agent before the creation, agent-rev before the entry |
| Freshness.FreshSinceEntry | operator/internal/controller/pod.go:394-403 | in every run, at every moment, a current pod of an active task is that of the latest spawn if and only if the pod in front at the entry was: agent-rev unless absent or vanished since, and then agent |
| Freshness.VanishedExactly | operator/internal/controller/pod.go:394-403 | when a pod of an active task vanishes, a pod of an earlier cycle takes its place if and only if agent-rev is lost while agent remains |
| Freshness.OtherwiseKept | operator/internal/controller/pod.go:394-403 | no other event changes the cycle of an active task's current pod: it stays as it is or goes |
| Freshness.DrivingPodIsFresh | operator/internal/controller/devtask_controller.go:200-231 | in every run without losses for the task, whatever a pass does after finding a pod, it does on the pod of the latest spawn if and only if it did not read agent while agent-rev was there, which only happens after a failed read of agent-rev |
| Freshness.DriverExactly | operator/internal/controller/pod.go:394-403 | the same in every run, from the pod of the latest spawn being current when the pod was read |
| Losses.TornDown | operator/internal/controller/devtask_controller.go:127-142 | in every run in which no teardown by the task's own passes fails, a settled task leaves no namespace behind |
| Losses.TornDownExactly | operator/internal/controller/devtask_controller.go:92-96 | in every run, a settled task has called for a teardown, and has left its namespace behind if and only if its own last one failed on a namespace that was there |
| Losses.WedgedForever | operator/internal/controller/devtask_controller.go:204-207 | an active task with neither agent pod, and no pass beyond the pod reads, keeps its status, Building or Running, in every continuation, and so holds a place under the cap |
| Losses.WriteFailureWedges | operator/internal/controller/devtask_controller.go:219-224 | a failed status write after a teardown for clarification or rejection leads there |
| Lifecycle.PolicyGate | operator/internal/controller/devtask_controller.go:245-272 | every entry to AwaitingReview, on every cycle, is made by a pass that read all file pages of the recorded pull request, first to last, and the issue, and found no violation |
| Lifecycle.RejectionGate | operator/internal/controller/devtask_controller.go:254-262 | a task fails with its namespace cleared only after such a reading found a violation and the pull request was closed; the message names the first reason |
| Lifecycle.MovesAreGrounded | operator/internal/controller/github_poller.go:288-309 | a blocked task resumes only after its pass read a last comment by an owner, member or collaborator and no bot; blocks, completions and revisions likewise rest on what was read, all spelled out |
| Rules.RuleBegins | operator/internal/controller/devtask_controller.go:57-145 | what a pass does first is what the rules say of an empty log, for every task |
| Rules.RuleFollows | operator/internal/controller/devtask_controller.go:49-273 | after the reply to any call, what the machine does next is what the rules say of the longer log |
| Passes.CallsByRule | operator/internal/controller/devtask_controller.go:49-273 | in every run, the call that an answer belongs to is the one the rules ask for, after the replies so far and at the time of the last of them |
| Passes.ReturnsByRule | operator/internal/controller/devtask_controller.go:49-146 | in every run, a pass is over exactly when the rules say so; an error puts the task back into the queue, a positive delay sets one timer |
| Passes.LogByRule | operator/internal/controller/devtask_controller.go:49-273 | in every run, each call in the log of a pass is the one the rules ask for after those before it |
| Passes.StoredAsWritten | operator/internal/controller/devtask_controller.go:77-142 | in every run, while a pass is on, the stored task is the one it read with the status it has written, if any |
| Outcomes.SearchesRest | operator/internal/controller/devtask_controller.go:208-217 | in every run, a pass over an active task asks GitHub for anything but comments only once it has read a succeeded pod |
| Outcomes.RunningPodExactly | operator/internal/controller/devtask_controller.go:209-214 | in every run, a pass over a Building task that has read a running pod makes one write, of Running with its message, and returns for half a minute |
| Outcomes.QuietPodExactly | operator/internal/controller/devtask_controller.go:208-228 | in every run, a pass that has read a pending or unknown pod, or a running one for a Running task, calls nothing more, leaves the task and returns for half a minute without error |
| Outcomes.SuccessRests | operator/internal/controller/devtask_controller.go:215-272 | in every run, a task enters AwaitingReview, or Failed for want of a pull request or by the diff policy, only in a pass that read a succeeded pod |
| Outcomes.EmptySearch | operator/internal/controller/devtask_controller.go:240-243 | in every run, a listing without a pull request on the task's branches leads to the write of Failed with its message, and if that goes through the task has failed |
| Outcomes.FoundSearch | operator/internal/controller/github_poller.go:209-214 | in every run, a listing with one leads on to the files of the first |
| Outcomes.FailedSearch | operator/internal/controller/devtask_controller.go:236-239 | in every run, a search that fails ends the pass in error and leaves the task as it was |
| Outcomes.BlockedExactly | operator/internal/controller/github_poller.go:288-309 | in every run, a pass over a blocked task that has read the comments heads for the credentials exactly if the last one is of no bot by type or login and its author is owner, member or collaborator; otherwise it returns for a minute and leaves the task |
| Outcomes.ClarificationExactly | operator/internal/controller/devtask_controller.go:217-226 | in every run, after the comments read for a failed pod, the namespace is torn down and the task blocked exactly if some comment begins with the request; otherwise, and if they cannot be read, the task is failed |
| Outcomes.ReviewExactly | operator/internal/controller/devtask_controller.go:87-107 | in every run, a pass over a task in review tears down and completes it exactly if the pull request it read is merged or closed, sends it back exactly if the second reading has the label, and otherwise returns for two minutes and leaves the task |
| Outcomes.LinkRests | operator/internal/controller/github_poller.go:229-251 | in every run, a task enters review with the number of the pull request its pass found; and if that one has a URL, the pass has last read a comment with a link or posted that URL |
| Outcomes.RevisionExactly | operator/internal/controller/devtask_controller.go:109-115 | in every run, a pass over a task sent back removes the label, deletes the last revision's pod and reads the credentials, in this order and whether or not the first two fail |
| Outcomes.PodsExactly | operator/internal/controller/devtask_controller.go:73-122 | in every run, a pass creates a pod only right after the Secret is there, and it is the pod of the phase the task was in: agent for a new or resumed task, agent-rev with the pull request's number for a revision |
| Failures.FailureStamp | operator/internal/controller/devtask_controller.go:162-170 | in every run, a task that fails gets as its failure time the clock at the reply to the last call before the write, which lies between the start of its pass and the write |
| Failures.SpawnStamp | operator/internal/controller/devtask_controller.go:77-82 | in every run, a task that enters Building gets as its start the clock at the reply to the creation of its pod |
| Failures.NamespaceKept | operator/internal/controller/devtask_controller.go:127-142 | in every run, until the configured lifetime has passed since that reply, a failed task keeps its status with the namespace it names, and the namespace stays in the cluster |
| Flow.TrailIsRoute | operator/internal/controller/devtask_controller.go:57-143 | every run takes a task along edges of the lifecycle, and the cycle counter is the number of entries to Building |
| Flow.FlowConservation | operator/internal/controller/devtask_controller.go:87-122 | along every run, entries to Building balance against starts, revisions and resumes on one side and reviews, blocks, failures and the present on the other |
| Wakeups.NoLostWakeup | operator/internal/controller/devtask_controller.go:127-146 | at every moment an unsettled task is in a pass, queued, or has a timer |
| Wakeups.ExpiryTimer | operator/internal/controller/devtask_controller.go:130-136 | in every run, a pass over a failed task that starts before the deadline writes nothing and sets one timer when it ends, for failure time plus lifetime, later only by what the pass itself took |
| Wakeups.ExpiryPass | operator/internal/controller/devtask_controller.go:137-142 | in every run, a pass over a failed task that starts at the deadline or later, and of which no call fails, deletes the namespace, writes and returns, whatever everyone else does |
| Wakeups.ExpiryClears | operator/internal/controller/devtask_controller.go:137-142 | when such a pass is at its return, the name is cleared and the namespace gone |
| Wakeups.ClearedWhenDue | operator/internal/controller/devtask_controller.go:130-142 | in every run, a failed task's namespace is forgotten only at or after the deadline, and only once it is gone |
| Isolation.NeverTouches | operator/internal/controller/namespace.go:30-58 | a step of one task leaves every other task and its namespace as they were |
| Isolation.NeverReads | operator/internal/controller/pod.go:394-403 | a step of one task is the same whatever is in another's namespace |
| Capacity.ConcurrencyCap | operator/internal/controller/github_poller.go:97-141 | for every interleaving, the number of tasks in neither Completed nor Failed never exceeds the cap or, where larger, its initial value; the poll's local count bounds it from above |
| Capacity.TakesRoom | operator/internal/controller/github_poller.go:64-71 | a task in Completed or Failed takes no room, one in any of the other seven phases takes one place |
| Capacity.NewTasksBelowCap | operator/internal/controller/github_poller.go:123-139 | every task that appeared was created by an answered create call of the poll, at a moment when the number of active tasks was below the cap |
| Capacity.CapStep | operator/internal/controller/github_poller.go:123-139 | each event keeps the local count an upper bound, because no terminal task becomes active again |
| Polling.PollExact | operator/internal/controller/github_poller.go:97-178 | an undisturbed poll creates fresh tasks for exactly the first missing issues that fit under the cap beside the tasks in neither Completed nor Failed, leaves existing tasks alone, and leaves the others missing, in order |
| Polling.PollProgress | operator/internal/controller/github_poller.go:125-139 | below the cap with something missing, an undisturbed poll strictly decreases what is missing |
| Polling.MissingExactly | operator/internal/controller/github_poller.go:125-153 | what counts as missing: the listed numbers of admissible issues, no pull requests, without a task, each once; none where the API server refuses the name |
| Polling.MissingInOrder | operator/internal/controller/github_poller.go:125-128 | what is missing of a first part of the list is a first part of what is missing |
| Polling.RefusedName | operator/internal/controller/github_poller.go:147-174 | a repository whose name holds a capital or an underscore never has anything missing: no task of it can be created |
| Polling.LoopCreates | operator/internal/controller/github_poller.go:125-139 | the loop over the issues creates exactly the first missing ones within the room left |
| PollHistory.CreationRests | operator/internal/controller/github_poller.go:97-141 | in every run, a new task that nobody submitted was created by a poll for an issue, no pull request, in the list that poll was given, after its credentials, list, count and lookup had all gone through, in this order and without a restart, and the lookup had not found the name |
| PollHistory.FailureGoesOn | operator/internal/controller/github_poller.go:124-139 | a lookup or a creation that fails creates nothing, and the poll goes on with the next issue that is no pull request, with the same count |
| Convergence.SpawnIsCanonical | operator/internal/controller/devtask_controller.go:172-198 | after any history of interrupted attempts, an entry to Building with its own pod current leaves the namespace, policy and pod that configuration and task determine, around the Secret that was there |
| Convergence.SpawnAlwaysCanonical | operator/internal/controller/devtask_controller.go:172-198 | in every run without losses for the task, every entry to Building does |
| Convergence.SecretIsFirst | operator/internal/controller/secrets.go:48-64 | that Secret is the one created first in the current lifetime of the namespace, whatever credentials were read since |
| Convergence.RetryConvergence | operator/internal/controller/devtask_controller.go:58-82 | that sandbox equals the one a single undisturbed attempt from the start of the attempts would have left, if the task's own reads in between gave the same credentials |
| Convergence.RetryAlwaysConverges | operator/internal/controller/devtask_controller.go:58-82 | the same for every entry to Building in a run without losses for the task |
| Convergence.RetryShape | operator/internal/controller/devtask_controller.go:58-82 | without the condition on credentials the two differ in the Secret at most |
| Convergence.DirectAttempt | operator/internal/controller/devtask_controller.go:175-197 | one undisturbed pass from a queued task with no leftover in its way completes a spawn |
| WrongPod.MisreadRun | operator/internal/controller/pod.go:396-402 | an explicit run from a fresh task, through review and a revision, in which a failed read of the second cycle's pod makes the pass take the first cycle's for it, with the second's there |
| Clarification.FailedPodExactly | operator/internal/controller/devtask_controller.go:217-227 | in every run, a pass over a task whose pod failed takes it to Failed if and only if the comments read ask for no clarification or cannot be read, and to a block otherwise; it leaves it as it is only if a call fails |
| Clarification.BlockedForEver | operator/internal/controller/github_poller.go:265-309 | with fixed comments, the last by an authorised human and one of them asking for clarification, there are runs with any number of spawns in which nothing fails but the pods, and the task has at no moment been in Failed |
| Clarification.OneComment | operator/internal/controller/github_poller.go:265-309 | one such comment is enough to be both |
| Cluster.Server.Do | operator/internal/controller/devtask_controller.go:36-39 | any call through the embedded client: made where the pass stands, answered after whatever everyone else did first, logged with its reply, and followed by the point that the reply leads to |
| Reconciler.FirstOnBranch | operator/internal/controller/github_poller.go:209-214 | the search loop returns the first pull request on the task's branches, by the spelled-out test, and none exactly if there is none |
| Reconciler.AnyClarification | operator/internal/controller/github_poller.go:265-270 | the search loop decides whether some comment begins with the request for clarification |
| Reconciler.AnyLink | operator/internal/controller/github_poller.go:243-247 | the search loop decides whether some comment holds the start of a link to a pull request |
| Reconciler.HasLabel | operator/internal/controller/github_poller.go:326-331 | the search loop decides whether the label is there |
| Reconciler.Controller.FindPRForTask | operator/internal/controller/github_poller.go:183-216 | one call, logged; then the recorded pull request, or the first listed one on the task's branches, by the spelled-out test, or none exactly if there is none; an error exactly if the reply cannot be read |
| Reconciler.Controller.ListPRFiles | operator/internal/controller/github_poller.go:351-373 | without an error, the result is the concatenation of a complete chain of pages, from the first to the one without a successor |
| Reconciler.Controller.RejectPR | operator/internal/controller/github_poller.go:391-412 | comment, then close; the pass heads for the teardown only if both went through |
| Reconciler.Controller.EnsureLinkOnIssue | operator/internal/controller/github_poller.go:229-251 | no link is posted where there is nothing to link or a link exists; the pass heads for review only if no call failed |
| Reconciler.Controller.RemoveNamespace | operator/internal/controller/namespace.go:47-51 | a missing namespace counts as deleted, and only the expiry path minds an error |
| Reconciler.Controller.GetAgentPodOf | operator/internal/controller/pod.go:394-403 | the revision pod if it can be read, else the initial one, else whether it was merely missing |
| Reconciler.Controller.MarkFailed | operator/internal/controller/devtask_controller.go:162-170 | phase, message and the present as failure time are set, the other three fields stay |
| Reconciler.Controller.StartTask | operator/internal/controller/devtask_controller.go:58-82 | the calls for a fresh task are the machine's, in order, and so is the result |
| Reconciler.Controller.SpawnAgentSandbox | operator/internal/controller/devtask_controller.go:172-198 | the same for the respawn of a revision or a resume |
| Reconciler.Controller.ReconcileActivePod | operator/internal/controller/devtask_controller.go:200-229 | for a Building or Running task, the calls are the machine's, in order, and so is the result; what each phase of the pod then leads to is `Outcomes` |
| Reconciler.Controller.HandlePodSucceeded | operator/internal/controller/devtask_controller.go:231-273 | the same once the agent pod has succeeded |
| Reconciler.Controller.ReconcileReview | operator/internal/controller/devtask_controller.go:87-107 | the same for a task awaiting review |
| Reconciler.Controller.ReconcileFailed | operator/internal/controller/devtask_controller.go:127-143 | the same for a failed task |
| Reconciler.Controller.Reconcile | operator/internal/controller/devtask_controller.go:49-146 | whatever the phase, the pass makes the machine's calls and ends with the machine's result and error flag |
| Reconciler.Controller.Process | operator/internal/controller/devtask_controller.go:275-281 | handling a queued task adds to the history one start, the calls of one pass among the steps of others, and one finish; in a good run the invariant holds after it, and a task it brought to review passed the policy in that pass's log |
| Poller.GitHubPoller.CountActive | operator/internal/controller/github_poller.go:57-73 | the counting loop gives the number of names whose task is in neither Completed nor Failed |
| Poller.GitHubPoller.EnsureDevTask | operator/internal/controller/github_poller.go:143-178 | the calls are the machine's; undisturbed, a task is created exactly when allowed, missing and admissible |
| Poller.GitHubPoller.PollRepo | operator/internal/controller/github_poller.go:97-141 | the calls are the machine's; the tasks grow by those the poll added, each for a listed issue; undisturbed, it creates exactly the first missing issues within the cap |
| Poller.GitHubPoller.PollWithinCap | operator/internal/controller/github_poller.go:44-48 | whatever the rest of the world does, if only polls create tasks, every task that is new after the poll is for a listed issue and was created during the poll while below the cap, and the total is within the cap or its initial value |

## Left out

- HTTP, OAuth, installation tokens, informers, caches and leader election: library and network behaviour.
- Prompts, shell scripts, pod security fields, resource limits and manifests: constant data. A pod carries the task spec and which of the three builders made it.
- The contents of the egress rules, rotation of the triage token, and reading the environment (the two size caps, the lifetime of failed namespaces, the concurrency cap): parameters here.
- Full `path.Match` syntax: a parameter; nothing is claimed of how a star treats slashes.
- The wording of violation details and of the rejection comment: a violation carries the values they are rendered from, and the advice is the line they recommend.
- Approvals.ParseApprovedGlobs: runs on ASCII bodies only; `NonAscii` has the parser as a function for the others, with the lowercasing of the library as its parameter.
- What a body outside ASCII approves where the parser stays in bounds: it depends on the lowercasing, byte by byte.
- Paging of comments, issues and open pull requests: the code reads one page.
- A failed read of the task itself at the start of a pass, and tasks deleted from outside.
- Update conflicts: a status write is refused as a whole or stored as a whole.
- A restart in the middle of a call, and namespaces that linger while they are being deleted.
- The map of the API server is an immutable value inside `Cluster.Server`; what is updated in place is the server's current value and the fields of `Reconciler.DevTask`.
- Label values: a task name of more than 63 characters is refused as the value of a label, so creating the namespace fails on every attempt; here that is a call that keeps failing.
- Fairness among deferred issues: the code promises none. A task whose pod disappears makes no progress, which `Losses.WedgedForever` states.
