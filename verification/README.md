# Samsahai: queues, schedulers and their state machines

Samsahai verifies component versions of a team in a staging namespace, runs pull requests in
namespaces of their own and promotes verified sets to an active environment. Without the Kubernetes
plumbing it is a scheduler and a handful of state machines whose state lives in cluster objects. This
project models those machines and proves what every step and every run of them keeps.

The cluster is a map from names to objects. `Get`, `List`, `Create`, `Update` and `Delete` are atomic
operations on it; `Update` is refused when the object has changed since it was read (resource versions),
and every write may fail. A controller that changes its fields and cluster objects in place is a class
with the same fields; a loop of the source is a loop here. Clocks, RPC answers, registries, deploy
engines, test runners and the configuration are parameters (the `Env` datatypes) or nondeterministic
choices, so every statement holds for all of their answers. Writes fail after a number of them, or call by
call in a sequence of failures; what a method must get done is stated for when enough calls succeed. Whole
runs are sequences of cluster states with the events between them.

| file | what it models |
|---|---|
| `QueueTypes`, `QueueList`, `QueueRewriting`, `QueueOrdering`, `QueueController`, `QueueIndex`, `QueueCleanup` | the staging queue list: comparator, deduplication, saving rewritten entries, bundles, priority insertion, renumbering, First, retry, re-verification, clean-up |
| `QueueRuns` | sequences of insertions and of services |
| `Staging`, `StagingRuns`, `RetryCycle` | the staging verification machine, its runs, the attempts of a failing queue |
| `StagingBreaks`, `StagingDeploys`, `StagingAttempts` | runs in which two queues run at once; whether a stable version was deployed on its own pass; where re-verifications come from and how an attempt begins |
| `PullRequestQueue`, `PullRequestRuns`, `PullRequestResults` | the pull request scheduler, its runs, and where the result of a queue comes from |
| `TriggerFanIn`, `MissingImages` | the two collections over goroutines and channels |
| `StableCache`, `ConfigComponents`, `ActivePromotion`, `SortableVersion`, `StringOrder` | the stable-component cache, the component worklist, the failure path of an active promotion, the version comparator |

## What the code does that one might not expect

Some expected laws do not hold of the code. Each is settled by the condition under which it does. The
condition is exact, except that of the first one, whose excluded cases are each shown to break it by a run.

- *At most one running queue.* `First` sorts the list twice and keeps a pointer to a place, not to a
  queue. The queue at that place is the same after the second sort if and only if no other entry has its
  sort key (`OwnKeyOrTakenOver`); an entry with the same number and no NextProcessAt takes the place of
  the running one (`TwinTakesOver`). `AtMostOneRunning`, from an empty namespace (`EmptyIsOneSpecial`) or
  from one running queue with a number of its own, therefore excludes three kinds of steps, and each of them
  is shown to lead to two running queues. One is a renumbering that a failed write interrupts after it
  changed a number, by First (`InterruptedFirstBreaks`) or by an Add (`InterruptedAddBreaks`). Another is
  an Add that recreates or moves the held queue while the list is not settled, that is while an entry is
  postponed (`RenewedHeldBreaks`) or, for a queue with a priority, while two entries share a number
  (`SharedNumberBreaks`). The third is an Add that changes numbers while the reused index can be wrong, that
  is one that deletes a queue and rewrites another: a queue left empty by the staging controller is deleted,
  the rewritten one is put over a third, and the third one's number is given away (`IndexOverwrites`,
  `EmptiedIndexBreaks`). Every other complete Add is included, newer versions of the component under
  verification and lists with an empty queue among them, and so is every interrupted one that changed no
  number. With nothing postponed the number given is exact: it is the queue's own if and only if no other
  entry from its place on shares the number of the entry in front (`RankedApartIff`), and for a queue
  without priority if and only if nothing is postponed (`CreatedLastApartIff`).
- *A stable version was deployed for it.* A call of the pass that made a version stable deployed its queue if
  and only if DeployStarted was not true when that pass left Waiting (`StableIsDeployedIff`). It can be true
  there, because an Add into a running bundle keeps the conditions of the queue; then a version becomes
  stable that no call ever deployed (`UndeployedBecomesStable`). An Add into a queue that is being
  processed is the only way there (`StartedWaitingHasCause`); a retry always deploys (`RetriedIsDeployed`).
- *The reused index of `add`.* It is right if and only if no queue to delete stands before a queue to
  update (`IndexesFitIff`), and in every order of the list if and only if no queue is deleted or none is
  updated (`FitsIff`); two queues that hold the component break it (`TwoHoldersBreakIt`); with every
  component in one queue and no empty queue it always is (`IndexesFitUnderInvariant`).
- *No queue is empty.* Dropping unconfigured components before a deployment keeps this if and only if one
  component is left (`KeepsListIffSomethingIsLeft`); it is the only event of a run that leaves a queue empty
  (`ListInvKept`, `ListInvUntilEmptied`). Everything else about the list is kept even then: every component
  stays in one queue whatever is added, cleaned up or interrupted (`GoodAlways`).
- *The copy of a queue in Deleting* is not looked up again. When the stored queue has changed, ending the
  attempt is refused, but the refused copy is back in Waiting in memory, so the next call looks it up and
  ends the attempt from what is stored (`RefusedIsLookedUp`); it does not get stuck.
- *The comparator of queues* is a strict weak order if and only if no two entries share their number
  without a NextProcessAt (`LessIsStrictWeakOrderIffTwinFree`).
- *The missing-image list of a pull request trigger* is started anew on every error; it is complete if and
  only if all failed sources have the same image (`MissingListIsComplete`).
- *Parent components* are the top-level ones if and only if no top-level component has a parent and no
  dependency that wins its name is listed by a nameless component (`ParentsAreTopLevel`).
- *The version comparator* is consistent for a token if and only if a token with a digit starts with one
  (`ConsistentIffProper`).
- *A failed active promotion* enters Rollback if and only if it is cancelled or timed out while its result
  is being collected, because a failed verification leaves the Verified condition true and that sends a
  cancelled or late promotion there (`DisturbedIffRollback`).
- *A pull request queue that has Finished* does not run a commit that arrives before it is removed
  (`FinishedIsFinal`).

## Model

| member | source | states |
|---|---|---|
| `QueueTypes.LessIsStrictWeakOrderIffTwinFree` | api/v1/queue_types.go:540-570 | the comparator is asymmetric, transitive and has transitive ties on a set of different entries if and only if no two of them have the same number and no NextProcessAt |
| `QueueTypes.LessByKey` | api/v1/queue_types.go:541-570 | an entry comes strictly first exactly when its sort key (postponed or not, number, NextProcessAt) is smaller; only twins are each less than the other |
| `QueueTypes.TwoSortsAgreeOnKeys` | api/v1/queue_types.go:534-538 | two sorts of the same entries agree on the key at every place |
| `QueueTypes.SortQueuesSorts` | api/v1/queue_types.go:534-538 | sorting short lists yields a permutation in key order, whatever the comparator does to twins |
| `QueueOrdering.TopQueueOrder` | api/v1/queue_types.go:488-495 | the number returned is below that of every entry that is not postponed |
| `QueueOrdering.TopNumberIsFirst` | api/v1/queue_types.go:488-495 | a due entry with that number sorts strictly before every entry, postponed ones included |
| `QueueOrdering.LastQueueOrder` | api/v1/queue_types.go:497-503 | with no postponed entry the number returned exceeds every number |
| `QueueOrdering.LastQueueOrderCanCollide` | api/v1/queue_types.go:497-503 | with a postponed entry, every sort makes it return a number that is taken |
| `QueueOrdering.GetPriorityNo` | internal/queue/controller.go:308-322 | the first priority that names the queue or one of its components, or -1 |
| `QueueOrdering.GetExistingQueueNumberInList` | internal/queue/controller.go:324-336 | a place whose queue holds the component, or -1 when there is none |
| `QueueOrdering.InsertedByRank` | internal/queue/controller.go:259-306 | renumbering around the place of the rank and giving the free number inserts the queue behind everything of equal or better rank, keeps all other relative orders and keeps the list sorted by rank |
| `QueueOrdering.ApartRenumbered` | internal/queue/controller.go:259-306 | a queue apart from all others in number stays apart through a priority insertion of another, and the free number is not its own |
| `QueueOrdering.FirstOfList` | api/v1/queue_types.go:506-531 | of the sorted list the first entry that is not Waiting is picked, else the first that is due, else the first |
| `QueueOrdering.ResetQueueOrderWithCurrentQueue` | internal/queue/controller.go:508-519 | 1 for the entry at the place of the pick, the others counted in sorted order |
| `QueueOrdering.NumbersAreOneToN` | internal/queue/controller.go:508-519 | these are exactly the numbers 1 to n, one each, increasing in sorted order except for the pick |
| `QueueOrdering.PickedAgain` | internal/queue/controller.go:93-116 | the entry at the place of the pick is the picked one after the second sort if nobody else has its key |
| `QueueController.Controller.Add` | internal/queue/controller.go:128-234 | on any list and whichever write fails: no queue but the incoming one appears, and it is Waiting with the incoming type, bundle, conditions, counter and times and its components sorted; every other queue is as it was except for its number, or back in Waiting with type, counter and times kept and only components lost or joined; every write has a version of its own; with every component in one queue, that stays so, an Add makes no queue empty, and a complete one leaves exactly the old entries except those of the component, plus the incoming one in the incoming queue; when no queue is deleted or none is updated, it succeeds if enough writes do and the queue is unranked or the list settled, queues that are not moved stay apart, and in a settled list the created or moved queue is apart too; a new queue is inserted by rank |
| `QueueController.CreatedLastApartIff` | internal/queue/controller.go:259-264 | a queue without priority that is created anew gets a number of its own, below all postponed ones, if and only if nothing in the list is postponed |
| `QueueController.RankedApartIff` | internal/queue/controller.go:259-306 | with nothing postponed, the queue that gets the free number, moved or created, is apart if and only if no other entry from its place on shares the number of the entry in front |
| `QueueList.SortedComponents` | api/v1/queue_types.go:575-578 | the components of a queue are sorted by name |
| `QueueController.Controller.DropSimilar` | internal/queue/controller.go:157-175 | on any list: what is deleted and saved, also when it stops; the list in memory is the one in the cluster when no queue is deleted or none is updated, and in any case has no entry that could overwrite a newer one |
| `QueueController.Controller.WriteBack` | internal/queue/controller.go:164-175 | each entry is saved and put back at its index in the list to update, whatever stands there; the call stops at an index behind the end |
| `QueueController.Controller.JoinBundle` | internal/queue/controller.go:177-191 | only queues of the bundle get the component; on the list in the cluster, exactly when the bundle has a queue without it |
| `QueueController.Controller.First` | internal/queue/controller.go:93-116 | it succeeds when as many writes succeed as there are queues; numbers become those of a sorted list with the pick in front; nothing is handed out before its NextProcessAt; something is handed out when nothing runs and a queue is due; a sole running queue with its own key is the one |
| `QueueController.Controller.RemoveAndUpdateSimilarQueue` | internal/queue/controller.go:378-414 | the kept list, the queues to delete and the places to update for any list |
| `QueueController.Controller.AddExistingBundleQueue` | internal/queue/controller.go:338-376 | the queues of the bundle get the component merged in, the others stay |
| `QueueController.Controller.SetRetryQueue` | internal/queue/controller.go:469-494 | the queue goes back to Waiting as an upgrade with the given counter and time, without conditions, start times, logs or missing images, with name, bundle, components and processing count kept, numbered behind an entry that a sort may put last; it succeeds exactly if the object is unchanged and the write succeeds |
| `QueueController.Controller.SetReverifyQueueAtFirst` | internal/queue/controller.go:445-467 | the queue goes back to Waiting as a re-verification with the same fresh status, its counter and time kept, numbered before every entry that is not postponed |
| `QueueIndex.IndexesFitIff` | internal/queue/controller.go:157-175 | the reused index is in range and names the rewritten entry if and only if no queue to delete stands before a queue to update |
| `QueueIndex.FitsIff` | internal/queue/controller.go:157-175 | the reused index is right in every order of the list if and only if no queue is deleted or none is updated |
| `QueueIndex.IndexesFitUnderInvariant` | internal/queue/controller.go:157-175 | with every component in one queue and no empty queue the reused index is always right |
| `QueueIndex.TwoHoldersBreakIt` | internal/queue/controller.go:157-175 | two queues holding the component put the second behind the end of the kept list |
| `QueueCleanup.DetectRemovedQueues` | internal/config/controller.go:734-770 | on any list and whichever write fails: queues only lose components or go, and every component stays in one queue; it succeeds when as many writes succeed as there are queues, and then the entries left are exactly those of configured components and no queue is empty |
| `QueueCleanup.RemoveSameVersionQueue` | internal/stablecomponent/controller.go:258-283 | the first queue that is empty or loses something, and what it keeps |
| `QueueCleanup.RemoveStable` | internal/stablecomponent/controller.go:209-229 | on any list, queues only lose components or go, and one write is enough to succeed; with every component in one queue, a component whose stable version is the desired one leaves the list and all other entries stay, or an empty queue found first is deleted in its place; with no empty queue it always leaves |
| `QueueCleanup.KeepsListIffSomethingIsLeft` | internal/staging/deploy.go:249-275 | dropping unconfigured components of one queue keeps the list invariant if and only if one is left |
| `QueueRuns.EarlierComesFirst` | internal/queue/controller.go:259-322 | over any sequence of insertions, an earlier queue precedes every later one of equal or lower priority |
| `QueueRuns.OrderIsKept` | internal/queue/controller.go:259-322 | over any sequence of insertions, queues that are there keep their relative order |
| `QueueRuns.AlwaysPrioritySorted` | internal/queue/controller.go:259-322 | over any sequence of insertions, the numbers stay different from each other and follow the priorities |
| `QueueRuns.RoundRobin` | internal/queue/controller.go:93-116 | with every attempt failing below the limit and nothing added, all n queues are served in strict round robin |
| `QueueRuns.OwnKeyOrTakenOver` | internal/queue/controller.go:93-116 | every second sort leaves the pick at its place if and only if no other entry has its key |
| `QueueRuns.TwinTakesOver` | internal/queue/controller.go:93-116 | in every list, a sole twin of the running queue stands at its place after the second sort |
| `Staging.StagingController.Process` | internal/staging/controller.go:145-230 | a call picks through First while nothing is held, and does pick when as many writes succeed as there are queues; then it rewrites at most the held queue by one edge of the machine that has its cause and changes nothing else of it than that stage may, does take that edge when its cause is there and enough writes succeed, lets it go exactly when it is gone or its attempt has ended, and changes stable versions only out of a passed Collecting queue |
| `Staging.StagingController.Continue` | internal/staging/controller.go:297-323 | the held queue is looked up again unless it is in Deleting, and nothing happens exactly when that look-up fails; one that a user deleted is let go; an attempt in Deleting is let go exactly when the answers come and, if it failed, its copy has the stored version and a write succeeds; the step is one of the machine, taken whenever its cause is there and enough writes succeed |
| `Staging.StagingController.DeployEnvironment` | internal/staging/deploy.go:33-187 | from Creating the queue goes to Testing as deployed only in time with the environment ready, to Collecting as not deployed only when late, failed to deploy or with failed releases, and in each of these cases it does so when enough writes succeed; a queue of unconfigured components is deleted |
| `Staging.StagingController.CheckDeployTimeout` | internal/staging/deploy.go:277-301 | a late deployment goes to Collecting as not deployed if the write succeeds; one in time goes on with the start time it had, or that of the first call, and nothing else changed |
| `Staging.StagingController.UpdateQueueComponentsSpec` | internal/staging/deploy.go:249-275 | exactly the configured components stay |
| `Staging.StagingController.InitQueue` | internal/staging/controller.go:325-344 | Waiting goes to CleaningBefore exactly when there is a deploy configuration and the write succeeds |
| `Staging.StagingController.CleanBefore` | internal/staging/controller.go:346-393 | CleaningBefore goes to DetectingImageMissing exactly when everything is cleaned and the write succeeds |
| `Staging.StagingController.CleanAfter` | internal/staging/controller.go:395-440 | CleaningAfter goes to Deleting exactly when everything is cleaned and the write succeeds |
| `Staging.StagingController.DetectImageMissing` | internal/staging/image_missing.go:16-77 | to Creating if nothing is missing, to Collecting as not deployed if an image is, neither if the look-up failed |
| `Staging.StagingController.StartTesting` | internal/staging/start_testrunner.go:39-130 | from Testing the queue goes to Collecting only when the test is decided (late, nothing to run, no runner pending), and does when it is decided and enough writes succeed; Tested then says whether it passed |
| `Staging.StagingController.PollRunners` | internal/staging/start_testrunner.go:89-118 | finished when no runner is pending, passed when every triggered and finished runner passed; a runner that could not be triggered does not count |
| `Staging.StagingController.CollectResult` | internal/staging/collect_result.go:36-92 | stable versions change only for a passed upgrade queue, and only to versions of its components; a passed queue leaves Collecting only with all of them stable; a result that can be collected leads to CleaningAfter when enough writes succeed |
| `Staging.StagingController.SetStableComponent` | internal/staging/collect_result.go:197-259 | on success every component with a name of its own has its version stable; names never disappear |
| `Staging.StagingController.DeleteQueue` | internal/staging/util.go:147-204 | a passed queue is deleted; a failed one is retried, re-verified or, after a re-verification, postponed by a day, each time with a fresh status; exactly when it is let go, and a refused one is Waiting in memory |
| `StagingRuns.AtMostOneRunning` | internal/staging/controller.go:145-230 | in every state of every run from an empty namespace, or from one running queue with a number of its own, with restarts, user deletions, configuration changes and Adds, at most one queue is not Waiting, and a held queue is that one, unless a renumbering was interrupted after it changed a number, an Add renewed the held queue in a list that was not settled, or an Add that changed numbers deleted one queue and rewrote another |
| `StagingRuns.OneSpecialKept` | internal/staging/controller.go:145-230 | every such event keeps the held or running queue unique and apart from all others in number |
| `StagingRuns.AddIsAdding` | internal/queue/controller.go:128-234 | what Add promises, on any list and whichever write fails, is an Adding event of a run |
| `StagingRuns.AddAsEvent` | internal/queue/controller.go:128-234 | every call of Add, on any list, is an Adding event with versions of its own, a complete one exactly when it succeeds |
| `StagingRuns.ListInvKept` | internal/queue/controller.go:128-234 | every event of a run, interrupted or not, keeps every component in one queue and the names of queues; from a list without an empty queue, one is left empty if and only if process leaves the held queue without components |
| `StagingRuns.GoodAlways` | internal/queue/controller.go:128-234 | in every state of every run every component is in one queue, queues are named by the scheme, and a copy that is not looked up again tells the stored object by its version |
| `StagingRuns.SchemeAlways` | internal/queue/controller.go:128-234 | so every run meets what the statements about Adds ask of the list |
| `StagingRuns.VersionsIdentifyKept` | internal/staging/controller.go:176-182 | every event keeps that a copy in Deleting with the stored version has the stored components |
| `StagingRuns.ListInvUntilEmptied` | internal/staging/deploy.go:249-275 | in every run no queue is empty in any state until a call leaves the held queue empty, and one is in that state |
| `StagingRuns.RefusedIsLookedUp` | internal/staging/util.go:147-204 | in every run a copy in Deleting that is not the stored queue any more is refused once and back in Waiting, and the next call ends the attempt, or goes on, from the stored queue |
| `StagingBreaks.InterruptedFirstBreaks` | internal/queue/controller.go:508-519 | a run of a First that fails after its first write, another First and a process call, from one running queue to two |
| `StagingBreaks.InterruptedAddBreaks` | internal/queue/controller.go:128-234 | the same for an Add of another queue that fails while it makes room |
| `StagingBreaks.RenewedHeldBreaks` | internal/queue/controller.go:259-264 | a newer version of the held component, with an entry postponed, one more Add and a restart: two queues run |
| `StagingBreaks.SharedNumberBreaks` | internal/queue/controller.go:259-306 | the same with nothing postponed for a held queue with a priority, when two waiting queues share a number |
| `StagingBreaks.IndexOverwrites` | internal/queue/controller.go:157-175 | an empty queue listed before one that is rewritten: the rewritten one is put over a third, and every sort of what is left in memory gives away the number of the third |
| `StagingBreaks.EmptiedIndexBreaks` | internal/queue/controller.go:157-175 | a run from a settled list with an empty held queue, through such an Add and a restart, to two running queues |
| `StagingRuns.StableOnlyAfterPassedTest` | internal/staging/collect_result.go:76-92 | in every run a changed stable version comes from an upgrade queue that since Waiting went through every stage up to Collecting, whose test on that pass succeeded, and that held this version throughout the pass |
| `StagingRuns.PassedTestHasCause` | internal/staging/start_testrunner.go:39-130 | in every run the passed test behind a stable version was decided by one call that was not late, with nothing to run or with every triggered runner finished and passed |
| `StagingRuns.PassedBecomesStable` | internal/staging/collect_result.go:76-92 | in every run a passed upgrade queue that leaves Collecting has made its versions stable |
| `StagingDeploys.StableIsDeployedIff` | internal/staging/deploy.go:76-102 | in every run a queue whose versions become stable was deployed by a call of that very pass if and only if DeployStarted was not true when the pass left Waiting |
| `StagingDeploys.StartedIff` | internal/staging/deploy.go:76-102 | in every run DeployStarted of a queue is true exactly if it was at the start of the pass or a call of the pass deployed the queue, never both |
| `StagingDeploys.UndeployedBecomesStable` | internal/queue/controller.go:177-191 | a run in which a component joins a bundle that is being deployed and becomes stable although no call deploys it |
| `StagingAttempts.StartedWaitingHasCause` | internal/queue/controller.go:177-191 | in every run from an empty namespace a Waiting queue has DeployStarted only because an Add sent it back while it was being processed, and has waited with it since |
| `StagingAttempts.FailedStartsClean` | internal/queue/controller.go:469-494 | in every run a queue waits without DeployStarted from the end of a failed attempt until it is processed again |
| `StagingAttempts.RetriedIsDeployed` | internal/staging/deploy.go:76-102 | in every run versions that become stable on a pass that followed a failed attempt were deployed by a call of that pass |
| `StagingAttempts.ReverifyHasCause` | internal/staging/util.go:147-204 | in every run from an empty namespace to which upgrades are added, a queue is a re-verification only since the end of a failed upgrade attempt that took its counter past MaxRetry |
| `StagingRuns.MovedByHandle` | internal/staging/controller.go:145-230 | in every run only the controller moves a queue between running states, and only for the cause of that edge |
| `RetryCycle.AttemptsCycle` | internal/staging/util.go:147-204 | along every run that leaves a failing queue to the controller, after i ended attempts it is at place i of a cycle of MaxRetry + 1 upgrades and one re-verification |
| `RetryCycle.CounterBounds` | internal/staging/util.go:147-204 | while upgrading the counter is between 0 and MaxRetry, while re-verifying it is MaxRetry + 1 |
| `RetryCycle.PostponedAfterReverify` | internal/staging/util.go:162-169 | the call that ends a re-verification makes the queue an upgrade with counter 0, due in 24 hours |
| `RetryCycle.NextAsPlanned` | internal/staging/util.go:162-199 | a failed attempt leads to the next place of the cycle; only the re-verification postpones by a day |
| `PullRequestQueue.LessFacts` | api/v1/pullrequestqueue_types.go:301-307 | the comparator is irreflexive, asymmetric and total on different names |
| `PullRequestQueue.LessTransitive` | api/v1/pullrequestqueue_types.go:301-307 | the comparator is transitive |
| `PullRequestQueue.Sort` | api/v1/pullrequestqueue_types.go:292-294 | the same queues in increasing order |
| `PullRequestQueue.LastQueueOrder` | api/v1/pullrequestqueue_types.go:275-281 | one more than the greatest number, 1 for an empty list |
| `PullRequestQueue.UpdateDependencies` | internal/pullrequest/queue/queue_deployment.go:184-221 | components of the queue keep their places and take the version of the last dependency of their name; every dependency is deployed; nothing else is added |
| `PullRequestQueue.Controller.ResetQueueOrder` | internal/pullrequest/queue/manage_queue.go:157-223 | only numbers change; when all writes succeed they are 1..n, the running queues first in their old order |
| `PullRequestQueue.Controller.SetRetryQueue` | internal/pullrequest/queue/manage_queue.go:83-109 | the queue is waiting again with a fresh status, the given counter and a number above all others, and commit, components and upcoming ones kept; it succeeds when no call fails |
| `PullRequestQueue.Controller.Add` | internal/pullrequest/queue/manage_queue.go:111-154 | a new queue goes behind all others; an existing one gets the newer commit and components and nothing else; when no call fails, the queue is stored with that commit and these components |
| `PullRequestQueue.Controller.Manage` | internal/pullrequest/queue/controller.go:282-352 | the first waiting queue is started exactly below the limit unless a call fails, and the caller stops when it is its own |
| `PullRequestQueue.Controller.FinishDeletion` | internal/pullrequest/queue/controller.go:185-252 | a Finished queue is deleted, a deleted one loses its finalizer when it does not run, is cancelled when it runs, and skips its tear-down time when it is being destroyed; when no call fails each of these happens, and nothing else stops the reconcile |
| `PullRequestQueue.Controller.Destroy` | internal/pullrequest/queue/queue_deployment.go:39-103 | back in line with counter 0 for a newer commit, with the next counter for a failure below the limit, otherwise Finished, never before the tear-down time; when no call fails the queue does get back in line |
| `PullRequestQueue.Controller.Deploying` | internal/pullrequest/queue/queue_deployment.go:105-150 | dependencies first; once deployed Testing, once failed Collecting with a failure |
| `PullRequestQueue.Controller.Reconcile` | internal/pullrequest/queue/controller.go:399-514 | a reconcile starts at most one queue and then changes at most its own by one edge, sends it back in line, or removes it; when no call fails and the answers are there it does start the first waiting queue below the limit and take its own to the next state |
| `PullRequestRuns.StartsAtMostOne` | internal/pullrequest/queue/controller.go:282-352 | a reconcile labels at most one queue running, below the limit, and does not overwrite the start with its own copy |
| `PullRequestRuns.NeverMoreThanConcurrences` | internal/pullrequest/queue/controller.go:282-352 | over every run whose reconciles read at most a limit of Concurrences, never more queues than that are labelled running |
| `PullRequestRuns.EachQueueSteps` | internal/pullrequest/queue/controller.go:399-514 | every event does to each queue nothing but a start, an edge, going back in line, a newer commit, a deletion mark or a new number |
| `PullRequestRuns.FinishedWithNewestCommit` | internal/pullrequest/queue/queue_deployment.go:69-102 | Finished is entered only from EnvDestroying, with the commit that ran equal to the upcoming one and, after a failure, no attempt left |
| `PullRequestRuns.StartedFromNewest` | internal/pullrequest/queue/controller.go:331-342 | a run starts with the newest upcoming commit and components |
| `PullRequestRuns.RunsBetweenCommits` | internal/pullrequest/queue/queue_deployment.go:69-99 | between two commits every start uses up one attempt and nothing else does, so there are at most MaxRetry + 1 |
| `PullRequestRuns.FailureTakesAllAttempts` | internal/pullrequest/queue/queue_deployment.go:80-99 | a queue that ends Finished with a failure has made all its attempts, MaxRetry + 1 for a new commit |
| `PullRequestRuns.FinishedIsFinal` | internal/pullrequest/queue/controller.go:185-201 | a Finished queue stays Finished and is not started, whatever commits arrive |
| `PullRequestRuns.AlwaysSound` | internal/pullrequest/queue/controller.go:254-276 | a queue whose trigger succeeded is labelled running exactly while it is out of the waiting line |
| `PullRequestResults.SuccessIsEarned` | internal/pullrequest/queue/queue_deployment.go:105-182 | in every run a queue whose trigger succeeded has the result Success only when, since its last start, one reconcile saw its deployment passed and one saw its test passed |
| `PullRequestResults.FailureIsKept` | internal/pullrequest/queue/queue_deployment.go:105-182 | in every run a failed deployment or test makes the result Failure, and it stays so, without another deployment or test, until the queue is back in line or cancelled |
| `PullRequestResults.InLineIsFresh` | internal/pullrequest/queue/manage_queue.go:83-109 | in every run a queue in line has no conditions, result, namespace, history or tear-down time of an earlier attempt |
| `PullRequestResults.PutOff` | internal/pullrequest/queue/collect_result.go:16-57 | collecting keeps the result and puts the tear-down off by the queue's own duration exactly if its criteria ask for that |
| `PullRequestResults.TornDownInTime` | internal/pullrequest/queue/queue_deployment.go:39-68 | in every step, only a reconcile of the queue tears its environment down, and before its time only if the queue is being deleted |
| `TriggerFanIn.CollectsSequentialResult` | internal/pullrequest/trigger/controller.go:391-444 | for every interleaving on the unbuffered channels that is not timed out, the components are a permutation of the sequential lookup, each version beside its own source, and the call fails exactly when a lookup failed |
| `TriggerFanIn.InvStep` | internal/pullrequest/trigger/controller.go:391-444 | every step keeps: at most one goroutine is between its two sends, exactly while the loop awaits a source, and the loop holds the answer of that one |
| `TriggerFanIn.MissingListIsComplete` | internal/pullrequest/trigger/controller.go:420-436 | the list of missing images names every failed source if and only if no two of them differ in their image |
| `TriggerFanIn.EveryStepLeavesLess` | internal/pullrequest/trigger/controller.go:391-444 | every step lowers a measure, so every run ends |
| `TriggerFanIn.AlwaysAStep` | internal/pullrequest/trigger/controller.go:391-444 | no deadlock: until the loop returns, a step other than the timeout is possible |
| `MissingImages.ReportsExactlyTheMissing` | internal/samsahai/rpc.go:709-746 | a goroutine reports an image if and only if it is missing, its source is known and, for a stable component, the current queue does not hold it |
| `MissingImages.CollectsSequentialResult` | internal/samsahai/rpc.go:85-192 | for every interleaving without a timeout the result is a permutation of the images reported one after the other |
| `MissingImages.ReportsAllMissingOnce` | internal/samsahai/rpc.go:85-192 | that is the missing image of every stable component outside the current queue and of every current component, each once, and nothing else |
| `StableCache.SetStableComponents` | api/v1/team_types.go:152-190 | the cache with the name set or removed; no change is reported only if there is none |
| `StableCache.Controller.Reconcile` | internal/stablecomponent/controller.go:151-211 | whatever other clients do between its calls and wherever it stops, in every state so far each cached name has an object with the finalizer; a reconcile that wrote leaves the cached spec equal to the object's, one that found nothing to do leaves it equal to the spec it read, one that removed leaves nothing cached; undisturbed, it removes a deleted object, and otherwise leaves the object's spec cached, writing exactly if it has changed |
| `StableCache.Controller.DeleteFinalizer` | internal/stablecomponent/controller.go:131-149 | the name leaves the cache before the finalizer goes; on success neither is left |
| `StableCache.Controller.Interfere` | internal/staging/collect_result.go:197-259 | creations, spec changes and deletions by others keep finalizers and every cached name backed |
| `ConfigComponents.AssignParent` | internal/config/controller.go:552-559 | every dependency gets its component's name as parent and nothing else changes |
| `ConfigComponents.OneRound` | internal/config/controller.go:117-126 | taking one component and appending its dependencies lowers the pending items plus unexpanded dependencies, and keeps what is visited in which order |
| `ConfigComponents.GetComponents` | internal/config/controller.go:100-137 | terminates with a map of exactly the visited names, each with the first component of that name |
| `ConfigComponents.NamesAreTopOrDependency` | internal/config/controller.go:100-137 | the names are exactly those of top-level components and of their dependencies |
| `ConfigComponents.TopLevelWins` | internal/config/controller.go:127-133 | a top-level component beats every dependency of its name and every later component |
| `ConfigComponents.FirstDependencyWins` | internal/util/config/config.go:5-24 | otherwise the first dependency of the name wins, with its image, source and schedules, no chart, values or dependencies, and the listing component as parent |
| `ConfigComponents.GetParentComponents` | internal/config/controller.go:139-152 | the components of that map without a parent |
| `ConfigComponents.ParentsAreTopLevel` | internal/config/controller.go:139-152 | these are exactly the top-level names if and only if no top-level component has a parent and no dependency that wins its name is listed by a nameless component |
| `ActivePromotion.Controller.Reconcile` | internal/samsahai/activepromotion/controller.go:305-466 | from the deployment of the pre-active environment to its removal, a reconcile makes one step of the machine, cancels, or times out; when no call fails it does what the state and the answers ask for |
| `ActivePromotion.Controller.DestroyPreActive` | internal/samsahai/activepromotion/environment_cleanup.go:67-154 | Finished is saved only when the target namespace is absent; only the target is terminated and only the pre-active field of the team is cleared |
| `ActivePromotion.Controller.DestroyPreActiveEnvironment` | internal/samsahai/controller.go:799-876 | the target is terminated, or, once absent, the pre-active field is cleared |
| `ActivePromotion.FailureLeavesActive` | internal/samsahai/activepromotion/environment_cleanup.go:67-154 | every undisturbed run from a failed verification keeps the team's active namespace, alive and recorded, and enters Finished only once the pre-active namespace is absent |
| `ActivePromotion.DisturbedIffRollback` | internal/samsahai/activepromotion/controller.go:138-179 | while the result of a failed verification is collected, a reconcile that saves enters Rollback if and only if the promotion is cancelled or late |
| `ActivePromotion.FailedVerification` | internal/samsahai/activepromotion/deploy.go:12-89 | the verdict reached without a cancel or timeout has Verified true, is a failure exactly after a failed deployment or test, and leaves team and namespaces alone |
| `ActivePromotion.UnrecordedTargetFinishesEarly` | internal/samsahai/activepromotion/util.go:15-30 | without a recorded target a failed look-up of the team finishes with the pre-active namespace still there |
| `SortableVersion.RegexpSplit` | internal/version.go:50-61 | the non-empty stretches between separators, in order |
| `SortableVersion.TokensCoverTheText` | internal/version.go:50-61 | tokens are non-empty and free of separators and together are the text without its separators |
| `SortableVersion.TokensAreStretches` | internal/version.go:50-61 | token by token, they are the maximal stretches of the text without a separator, in order, and no other character is left out |
| `SortableVersion.Less` | internal/version.go:23-47 | token by token, numbers by value, then by token count |
| `SortableVersion.NumbersCompare` | internal/version.go:23-47 | numbers without leading zeros compare by length and then character by character |
| `SortableVersion.LeadingZero` | internal/version.go:23-47 | a leading zero does not change a number |
| `StringOrder.StringLessIsLexicographic` | internal/version.go:23-47 | other tokens compare by the first character at which they differ, or one is a proper prefix of the other |
| `SortableVersion.LessIsStrictWeakOrder` | internal/version.go:23-47 | on versions whose tokens with a digit start with one it is a strict weak order, namely lexicographic comparison of tokens with numbers by value and then by count |
| `SortableVersion.ConsistentIffProper` | internal/version.go:23-47 | a token sorts consistently with all numbers and words if and only if, having a digit, it starts with one |

## Left out

- Reporters, message templates, HTTP and RPC servers, authentication, webhooks, command-line wiring and logging: output and plumbing.
- Deploy engines, test-runner clients, registry checkers and the merging of values: each is a parameter or a nondeterministic answer.
- Readiness of pods, deployments, services and claims, forced clean-up, collection of logs, history objects and their pruning: foreign cluster reads and easy loops.
- Promotion, demotion, rollback and creation of an active environment and the queue of active promotions: only the failure path of a promotion is followed.
- The pairing of results in the concurrent deployment of staging components: its two buffered channels do not tie a flag to an error, so nothing is stated.
- Configuration and team templates, cron jobs, desired components and the generated code.
- AddTop is modelled as the `atTop` branch of Add, SetLastOrder is not modelled: neither is called by the program.
- QueueController.Controller.Add: takes a queue with at most one component, as every caller builds it; an index behind the end of the list, where the program panics, ends the call as a failed one; the number given with atTop is left open, as is success for a ranked queue in a list that is not settled.
- Statements that a call succeeds name a sufficient number of successful writes, not the least one.
- QueueController.Controller.First: uses one reading of the clock per call, the source reads it at every comparison.
- QueueOrdering.Sort: is any arrangement in key order; that sort.Sort swaps twins is shown for short lists only.
- StagingRuns.AtMostOneRunning: is for runs without interrupted renumberings, without Adds that renew the held queue in a list that is not settled, and without Adds that change numbers while they delete one queue and rewrite another; a run breaks it in each of these cases, but not every such Add does.
- StagingRuns.OneSpecialKept: is for the same events.
- StagingRuns.GoodAlways: is for runs in which the set of bundles is constant, every incoming queue is named by the scheme of NewQueue, and versions are handed out as by the API server and promised by every method.
- StagingDeploys.UndeployedBecomesStable: starts from a bundle queue in Creating with DeployStarted, which an earlier pass leads to.
- ActivePromotion.DisturbedIffRollback: does not say what the rollback does to the active environment, which is not part of this model.
- Staging.StagingController.Process: covers upgrade and re-verification queues; active promotion and pull request queues in their own namespaces go through the same states without the queue list.
- RetryCycle.AttemptsCycle: is for a constant MaxRetry, with the calls that end an attempt succeeding and nobody else touching type, counter or state of the queue.
- PullRequestQueue.Controller.Reconcile: reconciles and Adds are taken one after the other, and reads see the latest writes.
- PullRequestRuns.RunsBetweenCommits: is for queues whose trigger succeeded and a constant MaxRetry.
- StableCache.Controller.Reconcile: ends before the removal of queues with the stable version, which QueueCleanup.RemoveStable models; a team that is deleted takes its cache with it.
- ActivePromotion.Controller.Reconcile: is restricted to the states from the deployment of the pre-active environment to its removal.
- ActivePromotion.FailureLeavesActive: requires a recorded target namespace; without one UnrecordedTargetFinishesEarly applies.
- ConfigComponents.GetComponents: a missing configuration object, for which the source returns an empty map and an error, is not part of this model.
