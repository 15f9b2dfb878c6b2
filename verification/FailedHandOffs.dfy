/** Concrete runs of the branch that runs after a failed hand-off: a waiter that is forgotten, one that
    waits beyond its deadline, and one that overtakes an older one. */
module FailedHandOffs {
  import opened Common
  import opened Leases
  import opened Replica
  import opened Ownership
  import opened Waiters
  import opened LeaseSystem
  import opened Necessity

  function Job(pc: PC, timer: Option<int>, published: seq<Publish>): TaskState {
    TaskState(pc, timer, 0, [], [], published, 0)
  }

  const RETRY: For := ForWaiter(2, GRANT1, None)
  const JOB3: TaskState := Job(Waiting, Some(15000), [])
  const JOB2_OUT: TaskState := Job(FailingBare, None, [JobError])

  /** Job 1 scans for job 2, whose hand-off failed. */
  function Retrying(t2: TaskState): Replica {
    Scene(Job1(TryRead(0, POD0, RETRY), [POD0], [ToolResult]), t2, [2], [2]).(left := [])
  }

  /** The same while job 3 arrives. */
  function Scene3(pc: PC, t2: TaskState, waiters: seq<Task>, timedOut: set<Task>): Replica {
    Replica(
      {POD0}, waiters, map[1 := Job1(pc, [POD0], [ToolResult]), 2 := t2, 3 := JOB3], {}, {},
      [2, 3], [2], [], timedOut, timedOut)
  }

  function At3(now: int, r: Replica): Sys {
    Sys(now, map[POD0 := FREED], map[1 := r], {})
  }

  /** The hand-off of job 1 to job 2 fails, and job 2 is put back. */
  lemma HandOffFails(h: Rules, ss0: seq<Sys>, acts0: seq<Act>, now: int, t2: TaskState)
    returns (ss: seq<Sys>, acts: seq<Act>)
    requires Follows(ONE_POD, ss0, acts0, h) && !h.calm && t2 != JOB2_MISSED
    requires Last(ss0) == At3(now, Scene(Job1(HandPut(OWN, 2, 0), [POD0], [ToolResult]), t2, [], [2]))
    ensures Follows(ONE_POD, ss, acts, h) && Last(ss) == At3(now, Retrying(t2))
  {
    var r := Scene(Job1(HandLost(OWN, 2), [POD0], [ToolResult]), t2, [], [2]);
    ss, acts := AnswerIsNo(h, ss0, acts0, now, t2, r);
    PutsSecondJobBack(now, t2);
    ss, acts := Quietly(ONE_POD, ss, acts, h, 1, Resume(1), Retrying(t2));
  }

  lemma PutsSecondJobBack(now: int, t2: TaskState)
    requires t2 != JOB2_MISSED
    ensures var r := Scene(Job1(HandLost(OWN, 2), [POD0], [ToolResult]), t2, [], [2]);
            OnResume(ONE_POD, now, r, 1) == Retrying(t2)
  {
    assert Without([2], {2}) == [];
  }

  lemma AnswerIsNo(h: Rules, ss0: seq<Sys>, acts0: seq<Act>, now: int, t2: TaskState, r: Replica)
    returns (ss: seq<Sys>, acts: seq<Act>)
    requires Follows(ONE_POD, ss0, acts0, h) && !h.calm
    requires Last(ss0) == At3(now, Scene(Job1(HandPut(OWN, 2, 0), [POD0], [ToolResult]), t2, [], [2]))
    requires r == Scene(Job1(HandLost(OWN, 2), [POD0], [ToolResult]), t2, [], [2])
    ensures Follows(ONE_POD, ss, acts, h) && Last(ss) == At3(now, r)
  {
    var act := Perform(1, PutServed(1, None), None);
    assert After(ONE_POD, Last(ss0), act).workers[1] == r;
    assert After(ONE_POD, Last(ss0), act).workers == map[1 := r];
    ss, acts := Putting(ONE_POD, ss0, acts0, h, act, At3(now, r));
  }

  // ----- a waiter put back without its timer

  const JOB2_LATE: TaskState := JOB2.(timer := None)

  /** Job 2 is shifted out in time, and its timer fires during the hand-off, to no effect. The hand-off
      fails, job 2 is put back, and from then on it waits beyond every deadline, with A2, A3 and A4 and
      all timers on time. */
  lemma PutBackWithoutTimer() returns (ss: seq<Sys>, acts: seq<Act>)
    ensures Follows(ONE_POD, ss, acts, Rules(true, true, true, true, false)) && Last(ss).workers.Keys == {1}
    ensures var r := Last(ss).workers[1];
            && r.waiters == [2] && 2 in r.tasks && r.tasks[2].timer.None?
            && Last(ss).now > r.tasks[2].enqueueTime + ONE_POD.maxWaitMs
  {
    var h := Rules(true, true, true, true, false);
    ss, acts := UpToHandOff(h, map[]);
    ss, acts := TimerFiresInVain(h, ss, acts);
    ss, acts := HandOffFails(h, ss, acts, 15000, JOB2_LATE);
    ss, acts := Extend(ONE_POD, ss, acts, h, Advance(15001));
  }

  lemma TimerFiresInVain(h: Rules, ss0: seq<Sys>, acts0: seq<Act>) returns (ss: seq<Sys>, acts: seq<Act>)
    requires Follows(ONE_POD, ss0, acts0, h) && !h.calm
    requires At(Last(ss0), Scene(Job1(HandPut(OWN, 2, 0), [POD0], [ToolResult]), JOB2, [], [2]), FREED, map[])
    ensures Follows(ONE_POD, ss, acts, h)
    ensures Last(ss) == At3(15000, Scene(Job1(HandPut(OWN, 2, 0), [POD0], [ToolResult]), JOB2_LATE, [], [2]))
  {
    ss, acts := Extend(ONE_POD, ss0, acts0, h, Advance(15000));
    var r := Scene(Job1(HandPut(OWN, 2, 0), [POD0], [ToolResult]), JOB2_LATE, [], [2]);
    ss, acts := Quietly(ONE_POD, ss, acts, h, 1, TimerFires(2), r);
    assert Last(ss).workers == map[1 := r];
  }

  // ----- a waiter forgotten, and a pod reserved for nobody

  lemma ThirdJobQueues(h: Rules, ss0: seq<Sys>, acts0: seq<Act>) returns (ss: seq<Sys>, acts: seq<Act>)
    requires Follows(ONE_POD, ss0, acts0, h) && !h.calm
    requires Last(ss0) == At3(0, Retrying(JOB2))
    ensures Follows(ONE_POD, ss, acts, h) && Last(ss) == At3(0, Scene3(TryRead(0, POD0, RETRY), JOB2, [2, 3], {}))
  {
    var r := Last(ss0).workers[1];
    ss, acts := Quietly(ONE_POD, ss0, acts0, h, 1, Start(3), r.(tasks := r.tasks[3 := NewTask(Missed)]));
    ss, acts := Quietly(ONE_POD, ss, acts, h, 1, Resume(3), Scene3(TryRead(0, POD0, RETRY), JOB2, [2, 3], {}));
  }

  lemma SecondJobTimesOut(h: Rules, ss0: seq<Sys>, acts0: seq<Act>) returns (ss: seq<Sys>, acts: seq<Act>)
    requires Follows(ONE_POD, ss0, acts0, h) && !h.calm
    requires Last(ss0) == At3(0, Scene3(TryRead(0, POD0, RETRY), JOB2, [2, 3], {}))
    ensures Follows(ONE_POD, ss, acts, h)
    ensures Last(ss) == At3(15000, Scene3(TryRead(0, POD0, RETRY), JOB2_OUT, [3], {2}))
  {
    ss, acts := Extend(ONE_POD, ss0, acts0, h, Advance(15000));
    assert [] + [JobError] == [JobError];
    ss, acts := Quietly(ONE_POD, ss, acts, h, 1, TimerFires(2), Scene3(TryRead(0, POD0, RETRY), JOB2_OUT, [3], {2}));
  }

  lemma RetryReads(h: Rules, ss0: seq<Sys>, acts0: seq<Act>) returns (ss: seq<Sys>, acts: seq<Act>)
    requires Follows(ONE_POD, ss0, acts0, h) && !h.calm
    requires Last(ss0) == At3(15000, Scene3(TryRead(0, POD0, RETRY), JOB2_OUT, [3], {2}))
    ensures Follows(ONE_POD, ss, acts, h)
    ensures Last(ss) == At3(15000, Scene3(TryPut(0, POD0, RETRY, 3, 15000), JOB2_OUT, [3], {2}))
  {
    var r1 := Scene3(TryGot(0, POD0, RETRY, Some(FREED)), JOB2_OUT, [3], {2});
    ss, acts := Quietly(ONE_POD, ss0, acts0, h, 1, ReadServed(1, Some(FREED)), r1);
    ss, acts := Quietly(ONE_POD, ss, acts, h, 1, Resume(1),
        Scene3(TryPut(0, POD0, RETRY, 3, 15000), JOB2_OUT, [3], {2}));
  }

  const GRANT2: Grant := Grant(POD0, 4, 60000)

  lemma RetryWins(h: Rules, ss0: seq<Sys>, acts0: seq<Act>) returns (ss: seq<Sys>, acts: seq<Act>)
    requires Follows(ONE_POD, ss0, acts0, h) && !h.calm
    requires Last(ss0) == At3(15000, Scene3(TryPut(0, POD0, RETRY, 3, 15000), JOB2_OUT, [3], {2}))
    ensures Follows(ONE_POD, ss, acts, h) && Last(ss).now == 15000
    ensures Last(ss).workers == map[1 := Scene3(TryWon(0, POD0, RETRY, GRANT2), JOB2_OUT, [3], {2})]
  {
    var act := Perform(1, PutServed(1, Some(GRANT2)), Some(4));
    var s' := After(ONE_POD, Last(ss0), act);
    assert s'.workers[1] == Scene3(TryWon(0, POD0, RETRY, GRANT2), JOB2_OUT, [3], {2});
    ss, acts := Putting(ONE_POD, ss0, acts0, h, act, s');
  }

  /** Without HS, even with one worker, A2, A3, A4 and timers on time: the retry after a failed
      hand-off shifts a different waiter out of the queue and wins a pod for a waiter that has
      timed out. Job 3 is forgotten, and the pod stays reserved for nobody. */
  lemma FailedHandOffLosesWaiterAndPod() returns (ss: seq<Sys>, acts: seq<Act>)
    ensures Follows(ONE_POD, ss, acts, Rules(true, true, true, true, false)) && Last(ss).workers.Keys == {1}
    ensures Forgotten(Last(ss).workers[1], 3) && Last(ss).workers[1].orphans == {POD0}
          && Last(ss).workers[1].cleared == {}
  {
    var h := Rules(true, true, true, true, false);
    ss, acts := UpToHandOff(h, map[]);
    ss, acts := HandOffFails(h, ss, acts, 0, JOB2);
    ss, acts := ThirdJobQueues(h, ss, acts);
    ss, acts := SecondJobTimesOut(h, ss, acts);
    ss, acts := RetryReads(h, ss, acts);
    ss, acts := RetryWins(h, ss, acts);
    ss, acts := RetryShifts(h, ss, acts);
  }

  lemma RetryShifts(h: Rules, ss0: seq<Sys>, acts0: seq<Act>) returns (ss: seq<Sys>, acts: seq<Act>)
    requires Follows(ONE_POD, ss0, acts0, h) && !h.calm && Last(ss0).now == 15000
    requires Last(ss0).workers == map[1 := Scene3(TryWon(0, POD0, RETRY, GRANT2), JOB2_OUT, [3], {2})]
    ensures Follows(ONE_POD, ss, acts, h) && Last(ss).workers.Keys == {1}
    ensures Forgotten(Last(ss).workers[1], 3) && Last(ss).workers[1].orphans == {POD0}
          && Last(ss).workers[1].cleared == {}
  {
    var r := Scene3(Notifying(None), JOB2_OUT, [], {2}).(orphans := {POD0}, left := [3]);
    RetryShiftsTo(r);
    ss, acts := Quietly(ONE_POD, ss0, acts0, h, 1, Resume(1), r);
    assert Last(ss).workers == map[1 := r];
  }

  lemma RetryShiftsTo(r: Replica)
    requires r == Scene3(Notifying(None), JOB2_OUT, [], {2}).(orphans := {POD0}, left := [3])
    ensures OnResume(ONE_POD, 15000, Scene3(TryWon(0, POD0, RETRY, GRANT2), JOB2_OUT, [3], {2}), 1) == r
    ensures Forgotten(r, 3)
  {
  }

  /** ... and so it remains, whatever happens next in that worker: job 3 waits for ever, and the pod
      is not free again before a watchdog clears its lease. */
  lemma LostForEver(ss: seq<Sys>, acts: seq<Act>, ms: seq<Moment>, vs: seq<Move>, k: nat, n: nat)
    requires ss != [] && 1 in Last(ss).workers && Forgotten(Last(ss).workers[1], 3)
    requires Last(ss).workers[1].orphans == {POD0}
    requires IsRun(ONE_POD, ms, vs) && k <= n < |ms| && ms[k].r == Last(ss).workers[1]
    ensures IsWaiting(ms[n].r, 3) && 3 !in ms[n].r.waiters
    ensures POD0 !in ms[n].r.cleared ==> POD0 in ms[n].r.held && forall a :: !Owns(ms[n].r, a, POD0)
  {
    ForgottenForEver(ONE_POD, ms, vs, k, n, 3);
    if POD0 !in ms[n].r.cleared {
      OrphanStaysReserved(ONE_POD, ms, vs, k, n, POD0);
    }
  }

  // ----- a waiter put back in front of an older one

  /** One more event of a run of one worker. */
  lemma Play(cfg: Config, ms0: seq<Moment>, vs0: seq<Move>, e: Event, r': Replica)
    returns (ms: seq<Moment>, vs: seq<Move>)
    requires IsRun(cfg, ms0, vs0)
    requires var m := ms0[|vs0|]; Enabled(m.now, m.r, e) && r' == Step(cfg, m.now, m.r, e)
    ensures IsRun(cfg, ms, vs) && ms[|vs|] == Moment(ms0[|vs0|].now, r')
  {
    ms, vs := ms0 + [Moment(ms0[|vs0|].now, r')], vs0 + [Do(e)];
  }


  lemma JobQueues(ms0: seq<Moment>, vs0: seq<Move>, j: Task) returns (ms: seq<Moment>, vs: seq<Move>)
    requires IsRun(ONE_POD, ms0, vs0)
    requires var r := ms0[|vs0|].r; j !in r.tasks && POD0 in r.held
    ensures IsRun(ONE_POD, ms, vs) && ms[|vs|].now == ms0[|vs0|].now
    ensures var r, r' := ms0[|vs0|].r, ms[|vs|].r;
            && r'.held == r.held && r'.waiters == r.waiters + [j] && r'.arrivals == r.arrivals + [j]
            && r'.tasks.Keys == r.tasks.Keys + {j}
  {
    var now, r := ms0[|vs0|].now, ms0[|vs0|].r;
    var r1 := r.(tasks := r.tasks[j := NewTask(Missed)]);
    ms, vs := Play(ONE_POD, ms0, vs0, Start(j), r1);
    ms, vs := Play(ONE_POD, ms, vs, Resume(j), OnResume(ONE_POD, now, r1, j));
  }

  function Visit(r: Replica, d: Task, pc: PC): Replica {
    r.(tasks := r.tasks[d := NewTask(pc)])
  }

  lemma VisitClears(ms0: seq<Moment>, vs0: seq<Move>, d: Task) returns (ms: seq<Moment>, vs: seq<Move>)
    requires IsRun(ONE_POD, ms0, vs0) && ms0[|vs0|].now == 0 && d !in ms0[|vs0|].r.tasks
    ensures IsRun(ONE_POD, ms, vs)
    ensures ms[|vs|] == Moment(0, Visit(ms0[|vs0|].r, d, ClearRead(Zombie(POD0))))
  {
    var r := ms0[|vs0|].r;
    ms, vs := Play(ONE_POD, ms0, vs0, DogStart(d, POD0), Visit(r, d, DogRead(POD0)));
    ms, vs := Play(ONE_POD, ms, vs, ReadServed(d, Some(STALE)), Visit(r, d, DogGot(POD0, Some(STALE))));
    ms, vs := Play(ONE_POD, ms, vs, Resume(d), Visit(r, d, ClearRead(Zombie(POD0))));
  }

  /** A watchdog visit, as far as the write that hands its pod to the head of the queue. */
  lemma VisitShifts(ms0: seq<Moment>, vs0: seq<Move>, d: Task) returns (ms: seq<Moment>, vs: seq<Move>)
    requires IsRun(ONE_POD, ms0, vs0) && ms0[|vs0|].now == 0
    requires var r := ms0[|vs0|].r; d !in r.tasks && r.waiters != []
    ensures IsRun(ONE_POD, ms, vs) && ms[|vs|].now == 0
    ensures var r, r' := ms0[|vs0|].r, ms[|vs|].r;
            && r'.waiters == r.waiters[1..] && r'.arrivals == r.arrivals
            && r'.tasks == r.tasks[d := NewTask(HandPut(Zombie(POD0), r.waiters[0], 0))]
  {
    var r := ms0[|vs0|].r;
    ms, vs := VisitClears(ms0, vs0, d);
    ms, vs := Play(ONE_POD, ms, vs, ReadServed(d, None), Visit(r, d, ClearGot(Zombie(POD0), None)));
    ms, vs := Play(ONE_POD, ms, vs, Resume(d), Visit(r, d, Cleared(Zombie(POD0))));
    var r1 := OnResume(ONE_POD, 0, Visit(r, d, Cleared(Zombie(POD0))), d);
    assert r1.tasks == r.tasks[d := NewTask(HandPut(Zombie(POD0), r.waiters[0], 0))];
    ms, vs := Play(ONE_POD, ms, vs, Resume(d), r1);
  }

  lemma VisitFails(ms0: seq<Moment>, vs0: seq<Move>, d: Task, w: Task) returns (ms: seq<Moment>, vs: seq<Move>)
    requires IsRun(ONE_POD, ms0, vs0) && ms0[|vs0|].now == 0
    requires var r := ms0[|vs0|].r; d in r.tasks && r.tasks[d] == NewTask(HandPut(Zombie(POD0), w, 0))
    ensures IsRun(ONE_POD, ms, vs) && ms[|vs|].now == 0
    ensures var r, r' := ms0[|vs0|].r, ms[|vs|].r;
            r'.waiters == [w] + r.waiters && r'.arrivals == r.arrivals && r'.tasks == r.tasks[d := NewTask(Finished)]
  {
    var r := ms0[|vs0|].r;
    ms, vs := Play(ONE_POD, ms0, vs0, PutServed(d, None), Visit(r, d, HandLost(Zombie(POD0), w)));
    var r1 := OnResume(ONE_POD, 0, Visit(r, d, HandLost(Zombie(POD0), w)), d);
    ms, vs := Play(ONE_POD, ms, vs, Resume(d), r1);
  }

  /** Jobs 1 and 2 queue in this order and are shifted out by two watchdog passes that overlap. Both
      hand-offs fail, the older job is put back first, and then the younger one in front of it. */
  lemma PutBackOvertakes() returns (ms: seq<Moment>, vs: seq<Move>)
    ensures IsRun(ONE_POD, ms, vs) && ms[|vs|].r.arrivals == [1, 2] && ms[|vs|].r.waiters == [2, 1]
  {
    ms, vs := [Moment(0, BOOT)], [];
    ms, vs := Play(ONE_POD, ms, vs, Start(0), Step(ONE_POD, 0, BOOT, Start(0)));
    ms, vs := JobQueues(ms, vs, 1);
    ms, vs := JobQueues(ms, vs, 2);
    ms, vs := VisitShifts(ms, vs, 10);
    ms, vs := VisitShifts(ms, vs, 11);
    ms, vs := VisitFails(ms, vs, 10, 1);
    ms, vs := VisitFails(ms, vs, 11, 2);
  }
}
