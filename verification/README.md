# Sandbox leases, tool commands and their guards: a verified model

The repository runs model tool calls in a fixed set of sandbox pods. A worker process takes a
pod for each job through a `LeaseManager`, runs the tool in the pod, publishes the result and gives
the pod back. The lease manager combines one versioned lease record per pod in the Kubernetes API
server, a set of in-process reservations, a first-in first-out queue with deadlines, a direct
hand-off of a released pod to the first waiter, and a watchdog that recovers leases that have run
out. This project models that protocol with every await as a point where anything else may happen,
and proves what it guarantees, under which hypotheses, and what goes wrong without them. It also
models the commands the pod executor builds, the local math tool, the rate limiter, the metrics,
the wait for a result and the approval gate in front of file writes.

`dafny verify dfyconfig.toml` checks everything.

## How it is organised

| file | content |
|---|---|
| `Common.dfy` | options, results, queues without duplicates |
| `Leases.dfy` | lease records and when a lease is takeable |
| `Replica.dfy` | one worker process as a transition system: jobs and watchdog visits with a program counter |
| `Scans.dfy` | why a scan of the pods passes one over, for every interleaving |
| `Ownership.dfy` | who owns a reserved pod, for every interleaving and every answer of the store |
| `Accounting.dfy` | what a job acquires, releases, publishes and acknowledges on every path |
| `Waiters.dfy` | the queue: outcomes, conservation and its exact condition, what is left at the end |
| `QueueOrder.dfy` | the queue: order of leaving, order of standing and deadlines, each with its exact condition |
| `HandOffOrder.dfy` | runs in which no hand-off fails: all these conditions hold |
| `LeaseSystem.dfy` | any number of workers over one store: compare-and-swap safety |
| `MutualExclusion.dfy` | at most one user per pod over all workers |
| `SingleWorker.dfy` | what one worker needs less for a pod its watchdog never clears |
| `WorkConservation.dfy` | one worker over a reliable store: when no pod idles while somebody waits |
| `Necessity.dfy` | concrete runs that break a claim once a hypothesis is dropped |
| `FailedHandOffs.dfy` | concrete runs of the branch after a failed hand-off: forgotten, beyond its deadline, overtaken |
| `LeaseManager.dfy` | the lease manager as a class: calls that are not interrupted, and the watchdog loop |
| `Uninterrupted.dfy` | a call that nothing interrupts in the transition system does what the class promises |
| `Shell.dfy` | the shell texts the executor prints, and a tokenizer that reads them back |
| `ShellCommands.dfy`, `ShellFiles.dfy` | the round trips of commands with arguments, and of file contents and paths |
| `MathCompute.dfy`, `JsScript.dfy` | the local math tool; the generated scripts, with an interpreter |
| `ScriptsAgree.dfy` | what the scripts print against what the local tool returns |
| `RateLimiter.dfy`, `Metrics.dfy` | the sliding window of requests; rolling percentiles |
| `ResultWait.dfy`, `Approvals.dfy` | the two machines that settle once |

## The lease protocol

A worker (`Replica.Replica`) has the two mutable fields of the class, `held` (`inMemoryHeld`) and
`waiters`, and a table of tasks. A task is a job, or one visit of the watchdog to one pod; its
program counter says between which two awaits it stands. One event (`Replica.Step`) is the code from
one await to the next. Every call to the store is split in two: the moment the store serves it and
the moment the caller continues, so that anything can happen in between on either side. A write may
be carried out although its caller is told that it failed. The numbers of pods, workers, jobs and
steps are unbounded, a watchdog visit may start at any time, and a worker may crash and be started
again: its reservations and its queue are gone, its leases stay, and the writes it had sent may
still arrive. Histories (`arrivals`, `served`, `left`, `timedOut`, `removed`, `orphans`, `cleared`,
`delivered`, `released`, `published`, `acks`) record what happened and never decide anything.

The hypotheses, each a predicate on runs. A2, A3 and A4 are asked of one pod at a time, and give their
results for that pod whatever happens to the others:

- **A1**, one monotone clock. It is part of every run (`Replica.CanMove`, `LeaseSystem.CanAct`).
- **A2**, `MutualExclusion.InTime`: nobody relies on a lease at an instant after it has run out. The
  code has no heartbeat; the defaults are a 30 s tool timeout and a 45 s lease (`src/config.ts:16-17`).
  Only the span up to the write that clears the lease matters, not the hand-off after it.
- **A3**, `MutualExclusion.ClearsZombiesOnly`: a write of the watchdog that clears a lease hits one
  that has run out at that instant. This is less than asking that the watchdog handle a pod in one
  atomic step, and `MutualExclusion.OnePieceClearsZombiesOnly` shows that it follows from that. The
  code reads the lease again before it clears it (`src/sandbox/lease-manager.ts:224`), so the check
  at line 295 can be out of date.
- **A4**, `MutualExclusion.SparesOthers`: a write without `resourceVersion`
  (`src/sandbox/lease-manager.ts:114` and `:305`) may fail at will, but is never carried out over a
  live lease other than the one the releasing job itself wrote. The comment at line 118 relies on it.
- **HS**, `HandOffOrder.HandOffSucceeds`: no hand-off write fails. It is only the simple case: nobody is
  put back, and the first four conditions below all hold (`HandOffOrder.HandOffRunsConserve`).

Five claims have an exact condition instead of a hypothesis, and the condition is a check that the code
does not make:

- Nobody who queued is lost, and no pod is reserved for nobody, as long as **each retry after a failed
  hand-off finds its own waiter at the head of the queue** when it shifts it
  (`Waiters.RetryFindsItsWaiter`, lines 121-124), and not beyond. The code shifts whoever is there.
- Waiters leave the queue in arrival order as long as **whoever is put back after a failed hand-off was
  the last to leave** (`QueueOrder.PutsBackTheLast`, lines 120 and 309), and not beyond.
- The queue stands in arrival order as long as **whoever is put back arrived before the head of the
  queue** (`QueueOrder.PutsBackTheOldest`), and not beyond.
- Everybody queued has a timer, so that with timers on time nobody is queued beyond its deadline, as
  long as **the timer of whoever is put back has not fired yet** (`QueueOrder.PutsBackArmed`), and not
  beyond: a timer that fires during the hand-off does nothing and never comes back.
- With one worker over a reliable store, no pod idles while somebody is queued as long as **each job
  that queues finds every pod still reserved** at that step (`WorkConservation.QueuesOnlyWhenBusy`,
  lines 67-80), and not beyond. Between the failed scan and the enqueue lies an await; where the two
  are one step the condition holds (`WorkConservation.QueueingAtOnceIsBusy`).

`Necessity` gives a run for each of A2, A3 and A4 in which everything else holds, timers on time
included, and two jobs of different workers use the same pod; and a run of one worker over a reliable
store, with all hypotheses, in which a job waits while its only pod is free. `FailedHandOffs` gives runs
of one worker in which a hand-off fails. In the first the retry (lines 119-125) shifts a different waiter
out of the queue and resolves one that has timed out; `FailedHandOffs.LostForEver` shows that no
continuation ever resolves or rejects the first, and that the pod stays reserved for nobody until a
watchdog clears its lease. In the second the timer of a waiter fires during its hand-off, and the waiter
is put back and is still queued after its deadline. In the third two waiters are put back in the wrong
order.

One more point where the code differs from what its comments suggest: `clearLease` never looks at the
holder, so nothing but the version it has just read keeps it from clearing somebody else's lease.

`LeaseManager.dfy` has the same code as a class, for calls between which nothing else runs: the set,
the queue and the lease records are fields that its methods reassign, and its store may fail any
call unless it is `reliable`. There the loop over the pods and the watchdog pass are proved.
A reliable store answers every call but those for the pods that are `down`: so the contracts say what
each method does when calls for any set of pods fail.
`Uninterrupted.dfy` ties the two together: when the steps of one call follow each other in a run,
whatever the store answers, they leave `held` and the queue as the contract of the method says, and
only for the reasons the code has.

## The other parts

Shell texts are read by a tokenizer after sections 2.2.1 (escape character), 2.2.2 (single quotes)
and 2.3 (token recognition) of the Shell Command Language of POSIX.1-2017. Text it has no rule for,
such as a dollar sign or a double quote outside single quotes, a here-document, or a line continuation
right behind an operator, is not read at all. A `shell_run` command is any text it reads, a pipeline or a quoted word included; only one that ends in a comment
swallows its arguments. The scripts for `fs_read` and `fs_write` escape the content but not the path,
and the round trips say for which paths that matters: exactly those with a quote or a NUL in them.
`ShellFiles.QuotedPathMisread` is an instance: asked for `a'b'c`, the script reads `abc`.

Math operands are finite numbers: an integer, negative zero, or a value strictly between two
integers. Sums, products, remainders and the loops are exact on integers. Where the machine rounds, on
fractions and for division, power and square root, its results are those of a parameter
(`MathCompute.Host`) that tool and script share; `ScriptsAgree.ZeroRules` is what the language
specification says of its zeros and of the sign of its results, and `ScriptsAgree.RulesCanBeMet` that it does not contradict itself.
The local tool and the script reject the same operands. The script prints what the tool returns with
two exceptions, and `ScriptsAgree.CompiledAgrees` says exactly when: `console.log` shows negative zero as
`-0` where `String` gives `0` (`ScriptsAgree.MinusZeroShows`: -4 modulo 2), and a pasted negative zero
loses its sign, which shows in a negative odd power (`ScriptsAgree.SignIsLost`). The square root
that bounds trial division is the same host's: for the number that `is_prime` is asked about, and for
no other, `MathCompute.RootBounds` asks that rounding move it neither below the true root nor up to the
number itself. IEEE 754 square roots of integers up to 2^53 meet that.

Metrics take integer samples. The rank `Math.ceil((p / 100) * n)` and the rounded average are
computed exactly; the three shares in use are 50, 95 and 99.

## Model

| member | source | states |
|---|---|---|
| Ownership.StepKeepsOwnership | src/sandbox/lease-manager.ts:63-127 | every step between two awaits keeps the owner of every pod the watchdog has not taken: one task, or nobody any more |
| Ownership.HeldIsOwned | src/sandbox/lease-manager.ts:154-167 | in every run of one worker, a pod not cleared by the watchdog is reserved if and only if it has an owner or was won for a waiter already settled, never both; it has at most one owner and at most one job uses it |
| Accounting.ReleasedOnceOnEveryPath | src/worker/index.ts:46-106 | whatever fails, a job acquires at most one pod, has released exactly what it acquired, once, before its message is acknowledged; a result is published at most once and never after a failure; one or two acknowledgements |
| Accounting.RunsKeepBooks | src/worker/index.ts:146-155 | at every moment of every run, what each job has acquired, released, published and acknowledged fits the place where it stands, the acknowledgement chain included |
| Accounting.PublishesExactly | src/worker/index.ts:46-106 | at every moment of every run: a job has published the result if and only if its tool has run, an error if and only if an await of the try block has rejected (its place in the queue, the tool, the publish of the result, the notice), it is acknowledged as rejected if and only if the publish of the catch block failed too, and a second time if and only if the acknowledgement of a job that did not reject was refused |
| Scans.ScanMissesNothing | src/sandbox/lease-manager.ts:154-167 | in every run, whatever goes on between its awaits, the scan of a job or of a retry goes on to a pod that is not reserved at that step, or gives up, only after passing each earlier index because its pod was reserved when the scan came past or because the store refused it to this scan |
| Waiters.ConservationIsExact | src/sandbox/lease-manager.ts:72-127 | up to any moment of any run of a worker, failed hand-offs included: everybody who queued is in exactly one place and no pod was won for a settled waiter, if and only if every retry that has won a pod found its own waiter at the head of the queue |
| Waiters.WaiterIsInOnePlace | src/sandbox/lease-manager.ts:72-127 | under that condition whoever queued is queued, the target of exactly one hand-off, given exactly one pod, or timed out, and only one of these |
| Waiters.BlindRetryBreaksQueue | src/sandbox/lease-manager.ts:119-125 | a retry that does not find its waiter there breaks conservation at that very step |
| Waiters.BlindRetryForgets | src/sandbox/lease-manager.ts:119-125 | if it finds another waiter, for whom nobody else is looking, that one is in no queue and nobody acts for it any more |
| Waiters.ForgottenForEver | src/sandbox/lease-manager.ts:72-127 | a waiter in that state is neither resolved nor rejected in any continuation |
| Waiters.OrphanStaysReserved | src/sandbox/lease-manager.ts:154-167 | a pod won for a settled waiter stays reserved without an owner until a watchdog clears its lease |
| Waiters.OutcomesAreFinal | src/sandbox/lease-manager.ts:72-127 | in every run: a timed-out waiter stays so and never gets a pod, a delivered pod stays the only one, arrivals and shifts only grow |
| QueueOrder.LeavingInOrderIsExact | src/sandbox/lease-manager.ts:80-125 | up to any moment of any run, failed hand-offs included: those who have left for good and then the queue are the arrivals in order without those their timers took out, if and only if whoever was put back was the last to leave |
| QueueOrder.WaitersLeaveInOrder | src/sandbox/lease-manager.ts:80-125 | under that condition nobody leaves twice, and nobody who left for a hand-off is rejected by its timer |
| QueueOrder.QueueOrderIsExact | src/sandbox/lease-manager.ts:80-125 | up to any moment of any run the queue stands in arrival order, if and only if whoever was put back arrived before the head |
| QueueOrder.ArmedQueueIsExact | src/sandbox/lease-manager.ts:80-125 | up to any moment of any run everybody queued has an armed timer, if and only if whoever was put back still had its own |
| QueueOrder.UsedUpTimerIsGone | src/sandbox/lease-manager.ts:82-88 | a waiter without a timer never gets one again, so its timer cannot take it out of the queue |
| HandOffOrder.ServedInOrder | src/sandbox/lease-manager.ts:80-116 | when no hand-off fails, those shifted and then the queue are the arrivals in order without the timed-out |
| HandOffOrder.HandOffRunsConserve | src/sandbox/lease-manager.ts:113-125 | when no hand-off fails, the exact conditions of conservation, of both orders and of the timers all hold |
| QueueOrder.WaitIsBounded | src/sandbox/lease-manager.ts:82-125 | timers on time, and every put back with its timer still armed: nobody is queued longer than the maximal wait after the moment it queued |
| QueueOrder.NobodyTimesOutEarly | src/sandbox/lease-manager.ts:82-88 | in every run whoever its timer takes out of the queue queued the maximal wait ago at least |
| Waiters.QuiescentHoldsOrphansOnly | src/sandbox/lease-manager.ts:97-127 | in every run without watchdog clears: when all jobs are over the pods still reserved are exactly those won for a settled waiter, and every delivered pod was released |
| Waiters.QuiescentRunLeaksNothing | src/sandbox/lease-manager.ts:97-127 | if retries found their waiters, no pod is reserved then and nobody is queued |
| LeaseSystem.VersionsNeverGoBack | src/sandbox/lease-manager.ts:195-217 | a lease record never disappears, its version never falls, and rises with every write carried out |
| LeaseSystem.OneWriterPerVersion | src/sandbox/lease-manager.ts:204-208 | of any number of versioned writes of one pod that carry the same version at most one is carried out |
| LeaseSystem.AcquireReplacesTakeableLease | src/sandbox/lease-manager.ts:169-182 | A1 only: a versioned acquire that is carried out replaces a lease that is free or has run out at that instant, however old the read, and even if the writer has crashed |
| LeaseSystem.UntouchedLeaseRunsOut | src/sandbox/lease-manager.ts:325-329 | in every system run, crashes and late writes included: a lease nobody has written since can be taken exactly if its write cleared it, or its time to live in milliseconds, counted from the instant its write was sent, is over |
| LeaseSystem.WorkersRunAlone | src/sandbox/lease-manager.ts:32-54 | what happens to one worker in any system run is a run of that worker alone, so the properties shown for all answers hold here |
| MutualExclusion.StepKeepsClaims | src/sandbox/lease-manager.ts:195-246 | every step, store write, crash and late write included, keeps it true for a pod that whoever relies on its lease is its stored holder at the version it wrote, and alone |
| MutualExclusion.OneUserPerPod | src/sandbox/lease-manager.ts:169-246 | A1, and A2 to A4 for this pod: in every reachable state, over all workers, at most one job uses it, and is the stored holder, at its own version, of a lease that has not run out |
| MutualExclusion.OnePieceClearsZombiesOnly | src/sandbox/lease-manager.ts:289-311 | a watchdog visit during which nobody else moves clears only a lease that has run out |
| SingleWorker.SoloWorkerNeedsNoA4 | src/sandbox/lease-manager.ts:97-127 | one worker, and no watchdog clear or late hand-off of this pod: at most one job uses it even if writes without a version always win, and no hand-off replaces a lease of it somebody relies on; other pods may be cleared and overrun |
| WorkConservation.NoPodIdlesWhileSomebodyWaits | src/sandbox/lease-manager.ts:63-127 | one worker, reliable store: up to any moment every pod is reserved while somebody is queued, if and only if every job that queued found every pod reserved at that step |
| WorkConservation.QueueingAtOnceIsBusy | src/sandbox/lease-manager.ts:67-80 | the condition holds where a failed scan and the enqueue are one step |
| WorkConservation.ReliableQueueIsFair | src/sandbox/lease-manager.ts:63-127 | one worker, reliable store: those served and then the queue are the arrivals in order without the timed-out, no reservation is lost to the store, and every reserved pod has an owner |
| WorkConservation.NobodyOvertakes | src/sandbox/lease-manager.ts:63-90 | under that condition a newcomer that arrives while somebody is queued takes no pod but goes on to queue behind |
| WorkConservation.IdlePodInvitesOvertaking | src/sandbox/lease-manager.ts:154-167 | from any state in which a pod idles while somebody is queued, the next newcomer reserves a pod |
| Necessity.OutlivingTheLease | src/config.ts:16-17 | a run with A3 and A4 but without A2 in which two jobs use one pod |
| Necessity.WatchdogInPieces | src/sandbox/lease-manager.ts:293-299 | a run with A2 and A4 but without A3 in which the watchdog clears a live lease and two jobs use one pod |
| Necessity.BlindHandOff | src/sandbox/lease-manager.ts:113-118 | a run with A2 and A3 but without A4 in which a hand-off overwrites another worker's lease and two jobs use one pod |
| FailedHandOffs.FailedHandOffLosesWaiterAndPod | src/sandbox/lease-manager.ts:117-125 | a run with A2, A3, A4 and timers on time in which one hand-off fails, after which a waiting job is forgotten and a pod is an orphan |
| FailedHandOffs.LostForEver | src/sandbox/lease-manager.ts:117-125 | in every continuation that job waits outside the queue, and the pod is reserved by nobody until a watchdog clears its lease |
| FailedHandOffs.PutBackWithoutTimer | src/sandbox/lease-manager.ts:113-120 | a run with A2, A3, A4 and timers on time in which a waiter shifted out in time is put back without a timer and is queued after its deadline |
| FailedHandOffs.PutBackOvertakes | src/sandbox/lease-manager.ts:301-310 | a run in which two failed hand-offs put a younger waiter back in front of an older one |
| Necessity.PodIdlesWhileJobWaits | src/sandbox/lease-manager.ts:67-80 | a run of one worker over a reliable store, with A2 to A4 and timers on time, in which a job is queued and the only pod is reserved by nobody |
| LeaseManager.LeaseStore.Replace | src/sandbox/lease-manager.ts:199-217 | a write changes one record or none, respects a version it carries, and may be carried out although it seems to fail |
| LeaseManager.Manager.TryAcquireLease | src/sandbox/lease-manager.ts:169-193 | a pod that is taken was takeable and is now leased to the caller; a live lease is left alone; over a reliable store it succeeds exactly on takeable leases of pods that are not down, and what was acquired at `t` for `ttl` seconds is taken exactly after `t + ttl * 1000` |
| LeaseManager.Manager.TryAcquireAny | src/sandbox/lease-manager.ts:154-167 | reserves exactly the pod it returns, spares all live leases, and over a reliable store returns the first pod that can be taken, among those not down, or none if there is none |
| LeaseManager.Manager.AcquirePod | src/sandbox/lease-manager.ts:63-90 | a pod that was not reserved and now is, or a place at the end of the queue; over a reliable store the first pod that can be taken, and a place in the queue only if there is none |
| LeaseManager.Manager.TimerFires | src/sandbox/lease-manager.ts:82-88 | the timer rejects a waiter exactly if it is still queued, and takes that one out of the queue |
| LeaseManager.Manager.ClearLease | src/sandbox/lease-manager.ts:222-246 | changes at most this record, and only into one without a holder |
| LeaseManager.Manager.ReleasePod | src/sandbox/lease-manager.ts:97-127 | the queue loses its head exactly when that waiter is given a pod, leased to it; `held` loses the released pod and gains the given one; over a reliable store the head gets this pod, or if its hand-off fails the first other one that can be taken, and stays queued only if there is none |
| LeaseManager.Manager.WatchdogPass | src/sandbox/lease-manager.ts:289-319 | after a pass over all pods, with any failures, the waiters served and then the remaining queue are the queue before; `held` loses the zombie pods and gains those handed over; if the clears succeed no zombie lease keeps its holder, unless that identity was itself queued; over a reliable store the zombies are exactly the pods not down whose lease is over, for one acquired at `t` from `t + ttl * 1000` on |
| LeaseManager.PassStep | src/sandbox/lease-manager.ts:291-316 | one visit extends these facts from the pods before it to one pod more |
| Uninterrupted.AcquireInOneGo | src/sandbox/lease-manager.ts:63-90 | an acquire that nothing interrupts ends with the first pod of the list that was neither reserved nor refused by the store, or at the end of the queue if each one was; reservations and queue change accordingly and no further |
| Uninterrupted.ReleaseInOneGo | src/sandbox/lease-manager.ts:97-127 | a release that nothing interrupts tries to clear the lease, and then: without a queue it drops its pod; the head has this pod if its hand-off was granted; if it was refused, the head has the first pod that was neither reserved nor refused by the store, and stays where it was only if each one was |
| Uninterrupted.VisitInOneGo | src/sandbox/lease-manager.ts:291-316 | a watchdog visit that nothing interrupts changes nothing if the lease it saw was no zombie; otherwise it tries to clear it and drops its pod, which the head of the queue then has if there is one, unless its hand-off was refused |
| ShellCommands.ShellRunRoundTrip | src/sandbox/pod-executor.ts:49-55 | for every command text the tokenizer reads: the `shell_run` text reads back as the directory change, the command as it stands alone and exactly its arguments, empty ones and the empty list included, if and only if no argument holds a NUL and, when there are arguments, the command does not end in a comment |
| ShellCommands.PlainWordIsCommand | src/sandbox/pod-executor.ts:50-53 | a plain word is such a command: one token, no comment |
| ShellCommands.HereDocumentIsNotRead | src/sandbox/pod-executor.ts:50-53 | a command with a here-document is not |
| ShellFiles.FsWriteRoundTrip | src/sandbox/pod-executor.ts:65-72 | the `fs_write` text reads as printing exactly the content into exactly the file, if and only if the path has no quote and neither holds a NUL |
| ShellFiles.FsReadRoundTrip | src/sandbox/pod-executor.ts:57-63 | the `fs_read` text reads as showing exactly the file, if and only if the path has no quote and no NUL |
| ShellFiles.RejectedPaths | src/sandbox/pod-executor.ts:57-69 | both file tools refuse exactly the paths with two dots in a row somewhere and those that begin with a slash |
| ShellFiles.QuotedMiddleIsLost | src/sandbox/pod-executor.ts:62 | a path with a quoted plain word in it reads as the path without the quotes, another file |
| ShellFiles.QuotedPathMisread | src/sandbox/pod-executor.ts:57-63 | the accepted path a'b'c reads as abc |
| Shell.LexEscaped | src/sandbox/pod-executor.ts:52 | a text escaped for single quotes and read inside them is the text |
| MathCompute.FactorialLoop | src/tools/math-compute.ts:27-33 | the loop computes the recursive factorial, for every n |
| MathCompute.FibonacciLoop | src/tools/math-compute.ts:34-40 | the loop computes the recursive Fibonacci number, for every n |
| MathCompute.IsPrimeLoop | src/tools/math-compute.ts:41-48 | the loop ends and says true exactly for the primes, if the machine's square root of this number is bounded as rounding allows |
| MathCompute.SmallDivisor | src/tools/math-compute.ts:44 | a composite number has a divisor up to its square root, so the test may stop there |
| MathCompute.GcdLoop | src/tools/math-compute.ts:49-53 | the loop ends with the Euclidean gcd of the absolute values |
| MathCompute.GcdIsGreatest | src/tools/math-compute.ts:49-53 | that number divides both, every common divisor divides it and is not larger unless both are 0, and it is 0 only for 0 and 0 |
| MathCompute.DecimalReadsBack | src/tools/math-compute.ts:32 | printing integers and reading them by position are inverse: a text without leading zeros shows n exactly if it is the one printed for n |
| MathCompute.Compute | src/tools/math-compute.ts:11-57 | every operation returns its meaning or the error for its range; read back, the text is the sum, difference, product, truncated remainder, factorial, Fibonacci number or gcd, and it says `true` exactly for primes; the host's result where the machine rounds |
| JsScript.FactorialPrints | src/sandbox/pod-executor.ts:102-107 | the generated script prints the factorial |
| JsScript.FibonacciPrints | src/sandbox/pod-executor.ts:108-113 | the generated script prints the Fibonacci number |
| JsScript.IsPrimePrints | src/sandbox/pod-executor.ts:114-118 | the generated script prints true exactly for primes, false otherwise |
| JsScript.GcdPrints | src/sandbox/pod-executor.ts:119-123 | the generated script prints the greatest common divisor |
| ScriptsAgree.CompiledAgrees | src/sandbox/pod-executor.ts:81-129 | for all operations and finite operands script and local tool reject the same; otherwise the script ends, and prints what the tool returns if and only if its result is not a negative zero, which it shows as -0, and no negative odd power of negative zero is asked for; sums and roots never show one, nor do other results whose signs do not allow it |
| ScriptsAgree.PlainAgrees | src/sandbox/pod-executor.ts:88-101 | for the plain operations script and tool compute the same number but for the sign of a zero, or of the infinity at a negative odd power of negative zero |
| ScriptsAgree.MinusZeroShows | src/sandbox/pod-executor.ts:96-99 | -4 modulo 2 prints -0 where the tool returns 0 |
| ScriptsAgree.SignIsLost | src/sandbox/pod-executor.ts:100 | negative zero to the power -1 prints Infinity where the tool returns -Infinity |
| RateLimiter.Limiter.IsRateLimited | src/routes/chat.ts:20-27 | the new table and the verdict are those of the specification |
| RateLimiter.StoredHitsAreRecentLog | src/routes/chat.ts:23-25 | in every monotone run the stored hits of a client are its whole log cut to the window before its last request |
| RateLimiter.RefusedByOwnLogOnly | src/routes/chat.ts:20-27 | a request is accepted exactly when the client's log, with refused requests, has at most 20 entries in the window that ends now |
| RateLimiter.WindowNeverOverflows | src/routes/chat.ts:11-14 | no window of the given length holds more than 20 accepted requests of a client |
| RateLimiter.ClientsAreIndependent | src/routes/chat.ts:21-25 | a client's hits are those of the run in which all others keep silent |
| Metrics.Prune | src/metrics/index.ts:49-52 | the loop drops the old prefix |
| Metrics.PruneIsFilter | src/metrics/index.ts:49-52 | dropping the old prefix is dropping all old samples exactly when the old ones come first |
| Metrics.BooksMatchLog | src/metrics/index.ts:21-34 | after any monotone run a tool's count and total are those of its whole log, and its samples those of the window before its last execution |
| Metrics.Collector.RecordToolExecution | src/metrics/index.ts:28-34 | whatever log the tool's entry kept the books of, it keeps those of the log with this execution added; no other tool is affected |
| Metrics.PercentileIsNearestRank | src/metrics/index.ts:54-58 | in bounds; the result is a sample, at least p per cent of the unsorted samples are not larger, and fewer than p per cent are smaller |
| Metrics.StatsAreExact | src/metrics/index.ts:60-69 | p50, p95 and p99 are that for the samples as they came, and the average is off by half a unit at most, upwards if by just that |
| Metrics.AverageIsBetween | src/metrics/index.ts:67 | the rounded average lies between bounds of the samples |
| Metrics.StatsAreConsistent | src/metrics/index.ts:60-69 | p50, p95 and p99 are ordered and, like the average, between the least and largest sample; no samples give zeros |
| ResultWait.Wait.OnTimer | src/queue/redis-client.ts:65-70 | a timer that fires finds the promise open and rejects it with the capacity error |
| ResultWait.Wait.OnSubscribeError | src/queue/redis-client.ts:72-79 | an open promise is rejected, a settled one keeps its outcome, and flag and timer still tell which it is |
| ResultWait.Wait.OnMessage | src/queue/redis-client.ts:81-91 | an open promise is resolved with the payload, or rejected if it does not parse; a settled one keeps its outcome |
| ResultWait.FirstEventDecides | src/queue/redis-client.ts:59-93 | in every run the promise settles exactly once, by whatever comes first, and the flag and the timer say so |
| ResultWait.LateFailureChangesNothing | src/worker/index.ts:66-97 | end to end: if the tool's result arrives and a message comes before timeout and error, the caller gets that result, whatever the job publishes or fails at later |
| Approvals.ApprovalManager.WaitForResponse | src/approval/manager.ts:25-37 | a fresh id is pending, with a timer and without an answer; no other id and no answer is affected |
| Approvals.ApprovalManager.OnTimer | src/approval/manager.ts:29-35 | a pending id gets the answer no and is pending no more; if it was not pending no answer changes |
| Approvals.ApprovalManager.Respond | src/approval/manager.ts:39-46 | true exactly for a pending id, which then has this answer and is pending no more; otherwise nothing changes, and never for another id |
| Approvals.AnswersAreFinal | src/approval/manager.ts:25-46 | an approval that is settled keeps its answer for the rest of the run, and is never pending again |
| Approvals.ResolvedOnce | src/approval/manager.ts:29-46 | `resolve` is called at most once for an id, response and timer taken together |
| Approvals.OneAnswerPerId | src/approval/manager.ts:39-46 | at most one response for an id returns true, and then its timer never rejects it |
| Approvals.NoWriteWithoutApproval | src/pi/client.ts:280-318 | a write reaches the executor only after a response that approved it and returned true while it was pending; a declined one was never approved |

## Left out

- Kubernetes, Redis, WebSocket and SQLite clients: an abstract store, channel and executor that may fail stand for them.
- The asynchronous methods of the lease manager and `processJob` are steps of a transition system rather than methods: Dafny methods cannot be interleaved. `LeaseManager.Manager` gives the methods without interleaving; what `Uninterrupted` compares between the two is the reservations and the queue, not the lease records.
- Pod annotations, `listLeaseStates`, `queueInfo`, `waitForPodFreed` and logging: no effect on the protocol. The awaits of the annotation calls are kept as scheduling points.
- Queue positions and wait times that `acquirePod` returns: reported only.
- `parseJob`, the stream reading loop of the worker and redelivery: each message is one job.
- `ENV_INSPECT` and the allowlist of commands: one branch each.
- ShellCommands.ShellRunRoundTrip: says nothing of commands the tokenizer does not read, with expansions, double quotes, here-documents or unfinished quoting.
- Rounding itself: integers are exact and unbounded, so what is said of sums and products of integers holds up to 2^53, and beyond that only for the BigInt loops; on fractions, and for division, power and square root, the host's results are taken as they are.
- Operands that are not finite: the executor rejects them, while the local tool computes with them.
- The text of the generated scripts: they are syntax trees, and block scopes are one flat environment. Error messages are compared only as rejections where the two tools word them differently.
- ResultWait.LateFailureChangesNothing: the subscription is only started before the job is queued, so it is a hypothesis that the result arrives at all; the channel may lose messages but keeps their order.
- JSON: a payload either parses to what was published or is garbled.
- Fractional durations in the metrics, and the rounding of `p / 100 * n`: the doubles nearest to 0.95 and 0.99 lie below them, so the rank stays the same, but this is not proved.
- `src/history`, the front end, cancellation, session reuse and tool-call summaries: ordering lies in SQL or in library closures.
