/** Concrete runs that break a claim once one of its hypotheses is dropped. */
module Necessity {
  import opened Common
  import opened Leases
  import opened Replica
  import opened QueueOrder
  import opened LeaseSystem
  import opened MutualExclusion
  import opened WorkConservation

  /** What a run is asked to meet: A2, A3 and A4 for every pod, timers on time, and whether it is a
      run of worker 1 alone over a reliable store with a watchdog that clears nothing. */
  datatype Rules = Rules(a2: bool, a3: bool, a4: bool, onTime: bool, calm: bool)

  /** The clock passes no armed deadline. */
  ghost predicate FiresOnTime(s: Sys, act: Act) {
    act.Advance? ==> forall w :: w in s.workers ==> OnTime(s.workers[w], act.to)
  }

  ghost predicate Calm(s: Sys) {
    WatchdogIdle(s) && s.workers.Keys <= {1}
  }

  ghost predicate StateOk(h: Rules, s: Sys) {
    (h.a2 ==> forall p :: InTime(s, p)) && (h.calm ==> Calm(s))
  }

  ghost predicate ActOk(h: Rules, s: Sys, act: Act) {
    && (h.a3 ==> forall p :: ClearsZombiesOnly(s, act, p))
    && (h.a4 ==> forall p :: SparesOthers(s, act, p))
    && (h.onTime ==> FiresOnTime(s, act))
    && (h.calm ==> !act.Crash? && Reliable(s, act))
  }

  ghost predicate Follows(cfg: Config, ss: seq<Sys>, acts: seq<Act>, h: Rules) {
    && IsSysRun(cfg, ss, acts)
    && (forall k :: 0 <= k < |ss| ==> StateOk(h, ss[k]))
    && (forall k :: 0 <= k < |acts| ==> ActOk(h, ss[k], acts[k]))
    && (h.calm ==> forall p :: p in cfg.pods ==> p in ss[0].store && ss[0].store[p].holder.None?)
  }

  function Last(ss: seq<Sys>): Sys
    requires ss != []
  {
    ss[|ss| - 1]
  }

  lemma Extend(cfg: Config, ss: seq<Sys>, acts: seq<Act>, h: Rules, act: Act)
    returns (ss': seq<Sys>, acts': seq<Act>)
    requires Follows(cfg, ss, acts, h) && CanAct(cfg, Last(ss), act)
    requires ActOk(h, Last(ss), act) && StateOk(h, After(cfg, Last(ss), act))
    ensures Follows(cfg, ss', acts', h) && Last(ss') == After(cfg, Last(ss), act)
  {
    ss', acts' := ss + [After(cfg, Last(ss), act)], acts + [act];
    ExtendRun(cfg, ss, acts, act, ss', acts');
    ExtendRules(cfg, ss, acts, h, act, ss', acts');
  }

  predicate IsExtension(cfg: Config, ss: seq<Sys>, acts: seq<Act>, act: Act, ss': seq<Sys>, acts': seq<Act>) {
    && |ss| == |acts| + 1 && CanAct(cfg, Last(ss), act)
    && ss' == ss + [After(cfg, Last(ss), act)] && acts' == acts + [act]
  }

  lemma ExtendRun(cfg: Config, ss: seq<Sys>, acts: seq<Act>, act: Act, ss': seq<Sys>, acts': seq<Act>)
    requires IsSysRun(cfg, ss, acts) && IsExtension(cfg, ss, acts, act, ss', acts')
    ensures IsSysRun(cfg, ss', acts')
  {
    forall k | 0 <= k < |acts'| ensures CanAct(cfg, ss'[k], acts'[k]) && ss'[k + 1] == After(cfg, ss'[k], acts'[k]) {
      assert ss'[k] == ss[k];
      if k < |acts| { assert acts'[k] == acts[k] && ss'[k + 1] == ss[k + 1]; }
    }
  }

  lemma ExtendRules(cfg: Config, ss: seq<Sys>, acts: seq<Act>, h: Rules, act: Act, ss': seq<Sys>, acts': seq<Act>)
    requires Follows(cfg, ss, acts, h) && IsExtension(cfg, ss, acts, act, ss', acts') && IsSysRun(cfg, ss', acts')
    requires ActOk(h, Last(ss), act) && StateOk(h, After(cfg, Last(ss), act))
    ensures Follows(cfg, ss', acts', h)
  {
    assert forall k :: 0 <= k < |acts'| ==> ss'[k] == ss[k] && acts'[k] == if k < |acts| then acts[k] else act;
    assert ss'[0] == ss[0];
  }

  predicate Tame(r: Replica) {
    forall a :: a in r.tasks ==> NoZombieCont(r.tasks[a].pc)
  }

  lemma TameIsCalm(s: Sys, r: Replica)
    requires s.workers.Keys <= {1} && Tame(r)
    ensures Calm(s.(workers := s.workers[1 := r]))
  {
    var s' := s.(workers := s.workers[1 := r]);
    forall w, a | Present(s', w, a) ensures NoZombieCont(PcOf(s', w, a)) {
      assert w in s'.workers.Keys;
    }
  }

  /** One move of a worker that writes nothing; `r'` says where it leads. */
  lemma Quietly(cfg: Config, ss: seq<Sys>, acts: seq<Act>, h: Rules, w: nat, e: Event, r': Replica)
    returns (ss': seq<Sys>, acts': seq<Act>)
    requires Follows(cfg, ss, acts, h) && CanAct(cfg, Last(ss), Perform(w, e, None)) && !e.PutServed?
    requires r' == Step(cfg, Last(ss).now, Last(ss).workers[w], e)
    requires h.calm ==> w == 1 && Tame(r') && (e.ReadServed? ==> e.answer.Some?)
    ensures Follows(cfg, ss', acts', h) && Last(ss') == Last(ss).(workers := Last(ss).workers[w := r'])
  {
    var act := Perform(w, e, None);
    var s := Last(ss);
    var s' := After(cfg, s, act);
    QuietInTime(cfg, s, act, h);
    if h.calm { TameIsCalm(s, r'); }
    ss', acts' := Extend(cfg, ss, acts, h, act);
  }

  lemma QuietInTime(cfg: Config, s: Sys, act: Act, h: Rules)
    requires CanAct(cfg, s, act) && act.Perform? && !act.e.PutServed? && StateOk(h, s)
    ensures h.a2 ==> forall p :: InTime(After(cfg, s, act), p)
  {
    if h.a2 {
      var s' := After(cfg, s, act);
      forall v, b, g | Claims(s', v, b, g) ensures s'.now <= g.until {
        ClaimSource(cfg, s, act, v, b, g);
        assert StateOk(h, s) && InTime(s, g.pod);
      }
    }
  }

  /** One store write of a worker. */
  lemma Putting(cfg: Config, ss: seq<Sys>, acts: seq<Act>, h: Rules, act: Act, s': Sys)
    returns (ss': seq<Sys>, acts': seq<Act>)
    requires Follows(cfg, ss, acts, h) && CanAct(cfg, Last(ss), act) && act.Perform? && act.e.PutServed?
    requires s' == After(cfg, Last(ss), act)
    requires act.e.won.Some? ==> Last(ss).now <= act.e.won.value.until
    requires h.a3 ==> forall p :: ClearsZombiesOnly(Last(ss), act, p)
    requires h.a4 ==> forall p :: SparesOthers(Last(ss), act, p)
    requires h.calm ==> act.w == 1 && Tame(s'.workers[1]) && Reliable(Last(ss), act)
    ensures Follows(cfg, ss', acts', h) && Last(ss') == s'
  {
    var s := Last(ss);
    if h.a2 {
      forall v, b, g | Claims(s', v, b, g) ensures s'.now <= g.until {
        PutClaims(cfg, s, act, v, b, g);
        assert StateOk(h, s) && InTime(s, g.pod);
      }
    }
    if h.calm { TameIsCalm(s.(store := s'.store), s'.workers[1]); }
    ss', acts' := Extend(cfg, ss, acts, h, act);
  }

  // ----- taking the only pod

  function With(s: Sys, w: nat, r: Replica): Sys {
    s.(workers := s.workers[w := r])
  }

  /** Worker with its pod reserved and job `j` at `pc`. */
  function Trying(r: Replica, p: Pod, j: Task, t: TaskState): Replica {
    r.(held := r.held + {p}, tasks := r.tasks[j := t])
  }

  /** The state a job is in when it has just got a pod. */
  function JustGot(g: Grant): TaskState {
    NewTask(Holding(g, Annotating)).(delivered := [g.pod])
  }

  function NextGrant(cfg: Config, s: Sys): Grant
    requires |cfg.pods| == 1 && cfg.pods[0] in s.store
  {
    Grant(cfg.pods[0], s.store[cfg.pods[0]].version + 1, s.now + cfg.ttlSeconds * 1000)
  }

  /** The state after job `j` of worker `w` won the lease of the only pod. */
  function Won(cfg: Config, s: Sys, w: nat, j: Task, t: TaskState): Sys
    requires |cfg.pods| == 1 && w in s.workers && cfg.pods[0] in s.store
  {
    var p, g := cfg.pods[0], NextGrant(cfg, s);
    s.(store := s.store[p := Lease(Some(Identity(w, j)), Some(s.now), cfg.ttlSeconds, g.version)],
       workers := s.workers[w := Trying(s.workers[w], p, j, t)])
  }

  predicate CanTake(cfg: Config, s: Sys, w: nat, j: Task) {
    && |cfg.pods| == 1 && w in s.workers && j !in s.workers[w].tasks
    && var p := cfg.pods[0]; p !in s.workers[w].held && p in s.store && Takeable(s.store[p], s.now)
  }

  /** Start, read and check. */
  lemma ApproachPod(cfg: Config, ss: seq<Sys>, acts: seq<Act>, h: Rules, w: nat, j: Task)
    returns (ss': seq<Sys>, acts': seq<Act>)
    requires Follows(cfg, ss, acts, h) && CanTake(cfg, Last(ss), w, j)
    requires h.calm ==> w == 1 && Tame(Last(ss).workers[w])
    ensures Follows(cfg, ss', acts', h)
    ensures var s := Last(ss); var p := cfg.pods[0];
            Last(ss') == With(s, w,
                Trying(s.workers[w], p, j, NewTask(TryPut(0, p, ForSelf, s.store[p].version, s.now))))
  {
    var s, p := Last(ss), cfg.pods[0];
    var r, l := s.workers[w], s.store[p];
    ss', acts' := StartsTrying(cfg, ss, acts, h, w, j);
    var r2 := Trying(r, p, j, NewTask(TryGot(0, p, ForSelf, Some(l))));
    ss', acts' := Quietly(cfg, ss', acts', h, w, ReadServed(j, Some(l)), r2);
    ss', acts' := FindsItTakeable(cfg, s, ss', acts', h, w, j);
  }

  lemma FindsItTakeable(cfg: Config, s: Sys, ss: seq<Sys>, acts: seq<Act>, h: Rules, w: nat, j: Task)
    returns (ss': seq<Sys>, acts': seq<Act>)
    requires Follows(cfg, ss, acts, h) && CanTake(cfg, s, w, j)
    requires var p := cfg.pods[0];
             Last(ss) == With(s, w, Trying(s.workers[w], p, j, NewTask(TryGot(0, p, ForSelf, Some(s.store[p])))))
    requires h.calm ==> w == 1 && Tame(s.workers[w])
    ensures Follows(cfg, ss', acts', h)
    ensures var p := cfg.pods[0];
            Last(ss') == With(s, w,
                Trying(s.workers[w], p, j, NewTask(TryPut(0, p, ForSelf, s.store[p].version, s.now))))
  {
    var p := cfg.pods[0];
    var r3 := Trying(s.workers[w], p, j, NewTask(TryPut(0, p, ForSelf, s.store[p].version, s.now)));
    ss', acts' := Quietly(cfg, ss, acts, h, w, Resume(j), r3);
  }

  lemma StartsTrying(cfg: Config, ss: seq<Sys>, acts: seq<Act>, h: Rules, w: nat, j: Task)
    returns (ss': seq<Sys>, acts': seq<Act>)
    requires Follows(cfg, ss, acts, h) && CanTake(cfg, Last(ss), w, j)
    requires h.calm ==> w == 1 && Tame(Last(ss).workers[w])
    ensures Follows(cfg, ss', acts', h)
    ensures var s := Last(ss); var p := cfg.pods[0];
            Last(ss') == With(s, w, Trying(s.workers[w], p, j, NewTask(TryRead(0, p, ForSelf))))
  {
    var r := Last(ss).workers[w];
    assert NextFree(cfg.pods, r.held, 0) == 0;
    ss', acts' := Quietly(cfg, ss, acts, h, w, Start(j),
        Trying(r, cfg.pods[0], j, NewTask(TryRead(0, cfg.pods[0], ForSelf))));
  }

  /** ... compare-and-swap ... */
  lemma WinPod(cfg: Config, ss: seq<Sys>, acts: seq<Act>, h: Rules, w: nat, j: Task)
    returns (ss': seq<Sys>, acts': seq<Act>)
    requires Follows(cfg, ss, acts, h) && CanTake(cfg, Last(ss), w, j)
    requires h.calm ==> w == 1 && Tame(Last(ss).workers[w])
    ensures Follows(cfg, ss', acts', h)
    ensures Last(ss') == Won(cfg, Last(ss), w, j, NewTask(TryWon(0, cfg.pods[0], ForSelf, NextGrant(cfg, Last(ss)))))
  {
    var s, g := Last(ss), NextGrant(cfg, Last(ss));
    ss', acts' := ApproachPod(cfg, ss, acts, h, w, j);
    var act := Perform(w, PutServed(j, Some(g)), Some(g.version));
    var s' := Won(cfg, s, w, j, NewTask(TryWon(0, g.pod, ForSelf, g)));
    assert After(cfg, Last(ss'), act).workers[w].tasks == s'.workers[w].tasks;
    ss', acts' := Putting(cfg, ss', acts', h, act, s');
  }

  /** ... and the pod is there. */
  lemma TakePod(cfg: Config, ss: seq<Sys>, acts: seq<Act>, h: Rules, w: nat, j: Task)
    returns (ss': seq<Sys>, acts': seq<Act>)
    requires Follows(cfg, ss, acts, h) && CanTake(cfg, Last(ss), w, j)
    requires h.calm ==> w == 1 && Tame(Last(ss).workers[w])
    ensures Follows(cfg, ss', acts', h)
    ensures Last(ss') == Won(cfg, Last(ss), w, j, JustGot(NextGrant(cfg, Last(ss))))
  {
    var s, g := Last(ss), NextGrant(cfg, Last(ss));
    ss', acts' := WinPod(cfg, ss, acts, h, w, j);
    assert [] + [g.pod] == [g.pod];
    ss', acts' := Quietly(cfg, ss', acts', h, w, Resume(j), Trying(s.workers[w], g.pod, j, JustGot(g)));
  }

  const POD0 := "sandbox-runner-0"

  /** One pod, free at first, and a time to live of 45 seconds. */
  const ONE_POD := Config([POD0], 45, 15000)

  const FREE: Lease := Lease(None, None, 45, 1)

  lemma Opening(l: Lease, h: Rules, n: nat) returns (ss: seq<Sys>, acts: seq<Act>)
    requires 1 <= n <= 2 && (h.calm ==> n == 1 && l.holder.None?)
    ensures Follows(ONE_POD, ss, acts, h)
    ensures Last(ss) == Sys(0, map[POD0 := l], if n == 1 then map[1 := BOOT] else map[1 := BOOT, 2 := BOOT], {})
  {
    ss, acts := [Sys(0, map[POD0 := l], map[], {})], [];
    ss, acts := Extend(ONE_POD, ss, acts, h, Spawn(1));
    if n == 2 {
      ss, acts := Extend(ONE_POD, ss, acts, h, Spawn(2));
    }
  }

  // ----- A2

  /** Without A2: a job that outlives its lease shares its pod with the next. */
  lemma OutlivingTheLease() returns (ss: seq<Sys>, acts: seq<Act>)
    ensures Follows(ONE_POD, ss, acts, Rules(false, true, true, true, false))
    ensures InUse(Last(ss), 1, 7, POD0) && InUse(Last(ss), 2, 8, POD0)
  {
    var h := Rules(false, true, true, true, false);
    ss, acts := Opening(FREE, h, 2);
    ss, acts := TakePod(ONE_POD, ss, acts, h, 1, 7);
    ss, acts := Extend(ONE_POD, ss, acts, h, Advance(45001));
    ss, acts := TakePod(ONE_POD, ss, acts, h, 2, 8);
  }

  // ----- A3

  const STALE: Lease := Lease(Some(Identity(9, 9)), Some(-50000), 45, 1)

  function Visiting(pc: PC): Replica {
    BOOT.(tasks := map[0 := NewTask(pc)])
  }

  lemma LooksAtPod(h: Rules) returns (ss: seq<Sys>, acts: seq<Act>)
    requires !h.calm
    ensures Follows(ONE_POD, ss, acts, h)
    ensures Last(ss) == Sys(0, map[POD0 := STALE], map[1 := Visiting(DogRead(POD0)), 2 := BOOT], {})
  {
    ss, acts := Opening(STALE, h, 2);
    ss, acts := Quietly(ONE_POD, ss, acts, h, 1, DogStart(0, POD0), Visiting(DogRead(POD0)));
  }

  lemma GetsAnswer(h: Rules, ss0: seq<Sys>, acts0: seq<Act>) returns (ss: seq<Sys>, acts: seq<Act>)
    requires Follows(ONE_POD, ss0, acts0, h) && !h.calm
    requires Last(ss0) == Sys(0, map[POD0 := STALE], map[1 := Visiting(DogRead(POD0)), 2 := BOOT], {})
    ensures Follows(ONE_POD, ss, acts, h)
    ensures Last(ss) == Sys(0, map[POD0 := STALE], map[1 := Visiting(DogGot(POD0, Some(STALE))), 2 := BOOT], {})
  {
    ss, acts := Quietly(ONE_POD, ss0, acts0, h, 1, ReadServed(0, Some(STALE)), Visiting(DogGot(POD0, Some(STALE))));
  }

  lemma SeesZombie(h: Rules) returns (ss: seq<Sys>, acts: seq<Act>)
    requires !h.calm
    ensures Follows(ONE_POD, ss, acts, h)
    ensures Last(ss) == Sys(0, map[POD0 := STALE], map[1 := Visiting(ClearRead(Zombie(POD0))), 2 := BOOT], {})
  {
    ss, acts := LooksAtPod(h);
    ss, acts := GetsAnswer(h, ss, acts);
    assert OnResume(ONE_POD, 0, Last(ss).workers[1], 0) == Visiting(ClearRead(Zombie(POD0)));
    ss, acts := Quietly(ONE_POD, ss, acts, h, 1, Resume(0), Visiting(ClearRead(Zombie(POD0))));
  }

  lemma ReadsAgain(h: Rules, ss0: seq<Sys>, acts0: seq<Act>) returns (ss: seq<Sys>, acts: seq<Act>)
    requires Follows(ONE_POD, ss0, acts0, h) && !h.calm
    requires var s := Last(ss0);
             && 1 in s.workers && s.workers[1] == Visiting(ClearRead(Zombie(POD0)))
             && POD0 in s.store && s.store[POD0].version == 2 && s.now == 0
    ensures Follows(ONE_POD, ss, acts, h)
    ensures Last(ss) == With(Last(ss0), 1, Visiting(ClearPut(Zombie(POD0), 2, 0)))
  {
    var l := Last(ss0).store[POD0];
    ss, acts := Quietly(ONE_POD, ss0, acts0, h, 1, ReadServed(0, Some(l)), Visiting(ClearGot(Zombie(POD0), Some(l))));
    ss, acts := Quietly(ONE_POD, ss, acts, h, 1, Resume(0), Visiting(ClearPut(Zombie(POD0), 2, 0)));
  }

  lemma ClearsBlindly(h: Rules, ss0: seq<Sys>, acts0: seq<Act>) returns (ss: seq<Sys>, acts: seq<Act>)
    requires Follows(ONE_POD, ss0, acts0, h) && !h.a3 && !h.calm
    requires var s := Last(ss0);
             && 1 in s.workers && s.workers[1] == Visiting(ClearPut(Zombie(POD0), 2, 0))
             && POD0 in s.store && s.store[POD0].version == 2 && s.now == 0
    ensures Follows(ONE_POD, ss, acts, h)
    ensures var s := Last(ss0);
            Last(ss) == With(s, 1,
                Visiting(Cleared(Zombie(POD0)))).(store := s.store[POD0 := Lease(None, Some(0), 45, 3)])
  {
    var s := Last(ss0);
    var s' := With(s, 1, Visiting(Cleared(Zombie(POD0)))).(store := s.store[POD0 := Lease(None, Some(0), 45, 3)]);
    var act := Perform(1, PutServed(0, None), Some(3));
    assert After(ONE_POD, s, act).workers[1].tasks == s'.workers[1].tasks;
    ss, acts := Putting(ONE_POD, ss0, acts0, h, act, s');
  }

  /** Without A3: the watchdog sees a lease that has run out, another worker takes the pod, the
      watchdog reads again and clears the new lease, and the pod is taken a second time. */
  lemma WatchdogInPieces() returns (ss: seq<Sys>, acts: seq<Act>)
    ensures Follows(ONE_POD, ss, acts, Rules(true, false, true, true, false))
    ensures InUse(Last(ss), 2, 8, POD0) && InUse(Last(ss), 1, 7, POD0)
  {
    var h := Rules(true, false, true, true, false);
    ss, acts := SeesZombie(h);
    ss, acts := TakePod(ONE_POD, ss, acts, h, 2, 8);
    ss, acts := ReadsAgain(h, ss, acts);
    ss, acts := ClearsBlindly(h, ss, acts);
    ss, acts := TakePod(ONE_POD, ss, acts, h, 1, 7);
  }

  // ----- job 1 of worker 1 works and releases, while job 2 waits or is about to queue

  const GRANT1: Grant := Grant(POD0, 2, 45000)
  const OWN: Cont := Releasing(GRANT1, None)
  const HELD1: Lease := Lease(Some(Identity(1, 1)), Some(0), 45, 2)
  const FREED: Lease := Lease(None, Some(0), 45, 3)
  const JOB2: TaskState := TaskState(Waiting, Some(15000), 0, [], [], [], 0)
  const JOB2_MISSED: TaskState := NewTask(Missed)

  function Job1(pc: PC, released: seq<Pod>, published: seq<Publish>): TaskState {
    TaskState(pc, None, 0, [POD0], released, published, 0)
  }

  /** Job 1 at work and job 2 queued, shifted out, or on its way to the queue. */
  function Scene(t1: TaskState, t2: TaskState, waiters: seq<Task>, served: seq<Task>): Replica {
    var arrivals := if t2 == JOB2_MISSED then [] else [2];
    Replica({POD0}, waiters, map[1 := t1, 2 := t2], {}, {}, arrivals, served, served, {}, {})
  }

  predicate At(s: Sys, r: Replica, l: Lease, others: map<nat, Replica>) {
    s == Sys(0, map[POD0 := l], others[1 := r], {})
  }

  predicate Fits(h: Rules, others: map<nat, Replica>, t2: TaskState) {
    (h.calm ==> others == map[]) && (t2 == JOB2 || t2 == JOB2_MISSED)
  }

  lemma SecondJobArrives(h: Rules, others: map<nat, Replica>) returns (ss: seq<Sys>, acts: seq<Act>)
    requires others == map[] || (others == map[2 := BOOT] && !h.calm)
    ensures Follows(ONE_POD, ss, acts, h)
    ensures At(Last(ss), Scene(Job1(Holding(GRANT1, Annotating), [], []), JOB2_MISSED, [], []), HELD1, others)
  {
    ss, acts := FirstJobTakes(h, others);
    var t := Job1(Holding(GRANT1, Annotating), [], []);
    ss, acts := Quietly(ONE_POD, ss, acts, h, 1, Start(2), Scene(t, JOB2_MISSED, [], []));
  }

  lemma FirstJobTakes(h: Rules, others: map<nat, Replica>) returns (ss: seq<Sys>, acts: seq<Act>)
    requires others == map[] || (others == map[2 := BOOT] && !h.calm)
    ensures Follows(ONE_POD, ss, acts, h)
    ensures At(Last(ss), Trying(BOOT, POD0, 1, Job1(Holding(GRANT1, Annotating), [], [])), HELD1, others)
  {
    ss, acts := Opening(FREE, h, if others == map[] then 1 else 2);
    ss, acts := TakePod(ONE_POD, ss, acts, h, 1, 1);
    assert JustGot(GRANT1) == Job1(Holding(GRANT1, Annotating), [], []);
  }

  /** One quiet move of job 1, or of its release. */
  lemma Job1Moves(
    h: Rules, ss0: seq<Sys>, acts0: seq<Act>, others: map<nat, Replica>, l: Lease, t2: TaskState, ws: seq<Task>,
    t: TaskState, e: Event, t': TaskState)
    returns (ss: seq<Sys>, acts: seq<Act>)
    requires Fits(h, others, t2) && Follows(ONE_POD, ss0, acts0, h) && At(Last(ss0), Scene(t, t2, ws, []), l, others)
    requires !e.PutServed? && e.a == 1 && Enabled(0, Scene(t, t2, ws, []), e)
    requires StoreAgrees(ONE_POD, Last(ss0), t.pc, e, None) && NoZombieCont(t'.pc) && (e.ReadServed? ==> e.answer.Some?)
    requires Step(ONE_POD, 0, Scene(t, t2, ws, []), e) == Scene(t', t2, ws, [])
    ensures Follows(ONE_POD, ss, acts, h) && At(Last(ss), Scene(t', t2, ws, []), l, others)
  {
    ss, acts := Quietly(ONE_POD, ss0, acts0, h, 1, e, Scene(t', t2, ws, []));
  }

  lemma FirstJobStarts(h: Rules, ss0: seq<Sys>, acts0: seq<Act>, others: map<nat, Replica>, t2: TaskState,
      ws: seq<Task>)
    returns (ss: seq<Sys>, acts: seq<Act>)
    requires Fits(h, others, t2) && Follows(ONE_POD, ss0, acts0, h)
    requires At(Last(ss0), Scene(Job1(Holding(GRANT1, Annotating), [], []), t2, ws, []), HELD1, others)
    ensures Follows(ONE_POD, ss, acts, h)
    ensures At(Last(ss), Scene(Job1(Holding(GRANT1, Running), [], []), t2, ws, []), HELD1, others)
  {
    var t, t' := Job1(Holding(GRANT1, Annotating), [], []), Job1(Holding(GRANT1, Running), [], []);
    ss, acts := Job1Moves(h, ss0, acts0, others, HELD1, t2, ws, t, Io(1, true), t');
  }

  lemma FirstJobPublishes(h: Rules, ss0: seq<Sys>, acts0: seq<Act>, others: map<nat, Replica>, t2: TaskState,
      ws: seq<Task>)
    returns (ss: seq<Sys>, acts: seq<Act>)
    requires Fits(h, others, t2) && Follows(ONE_POD, ss0, acts0, h)
    requires At(Last(ss0), Scene(Job1(Holding(GRANT1, Running), [], []), t2, ws, []), HELD1, others)
    ensures Follows(ONE_POD, ss, acts, h)
    ensures At(Last(ss), Scene(Job1(Holding(GRANT1, Publishing), [], [ToolResult]), t2, ws, []), HELD1, others)
  {
    assert [] + [ToolResult] == [ToolResult];
    var t, t' := Job1(Holding(GRANT1, Running), [], []), Job1(Holding(GRANT1, Publishing), [], [ToolResult]);
    ss, acts := Job1Moves(h, ss0, acts0, others, HELD1, t2, ws, t, Io(1, true), t');
  }

  lemma FirstJobIsDone(h: Rules, ss0: seq<Sys>, acts0: seq<Act>, others: map<nat, Replica>, t2: TaskState,
      ws: seq<Task>)
    returns (ss: seq<Sys>, acts: seq<Act>)
    requires Fits(h, others, t2) && Follows(ONE_POD, ss0, acts0, h)
    requires At(Last(ss0), Scene(Job1(Holding(GRANT1, Publishing), [], [ToolResult]), t2, ws, []), HELD1, others)
    ensures Follows(ONE_POD, ss, acts, h)
    ensures At(Last(ss), Scene(Job1(Holding(GRANT1, Unannotating(None)), [], [ToolResult]), t2, ws, []), HELD1, others)
  {
    var t, t' := Job1(Holding(GRANT1, Publishing), [], [ToolResult]),
        Job1(Holding(GRANT1, Unannotating(None)), [], [ToolResult]);
    ss, acts := Job1Moves(h, ss0, acts0, others, HELD1, t2, ws, t, Io(1, true), t');
  }

  lemma FirstJobCallsRelease(h: Rules, ss0: seq<Sys>, acts0: seq<Act>, others: map<nat, Replica>, t2: TaskState,
      ws: seq<Task>)
    returns (ss: seq<Sys>, acts: seq<Act>)
    requires Fits(h, others, t2) && Follows(ONE_POD, ss0, acts0, h)
    requires At(Last(ss0), Scene(Job1(Holding(GRANT1, Unannotating(None)), [], [ToolResult]), t2, ws, []), HELD1,
        others)
    ensures Follows(ONE_POD, ss, acts, h)
    ensures At(Last(ss), Scene(Job1(ClearRead(OWN), [POD0], [ToolResult]), t2, ws, []), HELD1, others)
  {
    assert [] + [POD0] == [POD0];
    var t, t' := Job1(Holding(GRANT1, Unannotating(None)), [], [ToolResult]),
        Job1(ClearRead(OWN), [POD0], [ToolResult]);
    ss, acts := Job1Moves(h, ss0, acts0, others, HELD1, t2, ws, t, Io(1, true), t');
  }

  lemma FirstJobReads(h: Rules, ss0: seq<Sys>, acts0: seq<Act>, others: map<nat, Replica>, t2: TaskState, ws: seq<Task>)
    returns (ss: seq<Sys>, acts: seq<Act>)
    requires Fits(h, others, t2) && Follows(ONE_POD, ss0, acts0, h)
    requires At(Last(ss0), Scene(Job1(ClearRead(OWN), [POD0], [ToolResult]), t2, ws, []), HELD1, others)
    ensures Follows(ONE_POD, ss, acts, h)
    ensures At(Last(ss), Scene(Job1(ClearPut(OWN, 2, 0), [POD0], [ToolResult]), t2, ws, []), HELD1, others)
  {
    var t1 := Job1(ClearRead(OWN), [POD0], [ToolResult]);
    var t2' := t1.(pc := ClearGot(OWN, Some(HELD1)));
    ss, acts := Job1Moves(h, ss0, acts0, others, HELD1, t2, ws, t1, ReadServed(1, Some(HELD1)), t2');
    ss, acts := FirstJobGoesOn(h, ss, acts, others, t2, ws);
  }

  lemma FirstJobGoesOn(h: Rules, ss0: seq<Sys>, acts0: seq<Act>, others: map<nat, Replica>, t2: TaskState,
      ws: seq<Task>)
    returns (ss: seq<Sys>, acts: seq<Act>)
    requires Fits(h, others, t2) && Follows(ONE_POD, ss0, acts0, h)
    requires At(Last(ss0), Scene(Job1(ClearGot(OWN, Some(HELD1)), [POD0], [ToolResult]), t2, ws, []), HELD1, others)
    ensures Follows(ONE_POD, ss, acts, h)
    ensures At(Last(ss), Scene(Job1(ClearPut(OWN, 2, 0), [POD0], [ToolResult]), t2, ws, []), HELD1, others)
  {
    var t, t' := Job1(ClearGot(OWN, Some(HELD1)), [POD0], [ToolResult]),
        Job1(ClearPut(OWN, 2, 0), [POD0], [ToolResult]);
    ss, acts := Job1Moves(h, ss0, acts0, others, HELD1, t2, ws, t, Resume(1), t');
  }

  lemma FirstJobClears(h: Rules, ss0: seq<Sys>, acts0: seq<Act>, others: map<nat, Replica>, t2: TaskState,
      ws: seq<Task>)
    returns (ss: seq<Sys>, acts: seq<Act>)
    requires Fits(h, others, t2) && Follows(ONE_POD, ss0, acts0, h)
    requires At(Last(ss0), Scene(Job1(ClearPut(OWN, 2, 0), [POD0], [ToolResult]), t2, ws, []), HELD1, others)
    ensures Follows(ONE_POD, ss, acts, h)
    ensures At(Last(ss), Scene(Job1(Cleared(OWN), [POD0], [ToolResult]), t2, ws, []), FREED, others)
  {
    var act := Perform(1, PutServed(1, None), Some(3));
    var r := Scene(Job1(Cleared(OWN), [POD0], [ToolResult]), t2, ws, []);
    var s' := Sys(0, map[POD0 := FREED], others[1 := r], {});
    assert After(ONE_POD, Last(ss0), act).workers[1] == r;
    assert After(ONE_POD, Last(ss0), act).workers == others[1 := r];
    ss, acts := Putting(ONE_POD, ss0, acts0, h, act, s');
  }

  /** From the moment job 2 is in its place to the moment job 1 has cleared its lease. */
  lemma FirstJobFinishes(h: Rules, ss0: seq<Sys>, acts0: seq<Act>, others: map<nat, Replica>, t2: TaskState,
      ws: seq<Task>)
    returns (ss: seq<Sys>, acts: seq<Act>)
    requires Fits(h, others, t2) && Follows(ONE_POD, ss0, acts0, h)
    requires At(Last(ss0), Scene(Job1(Holding(GRANT1, Annotating), [], []), t2, ws, []), HELD1, others)
    ensures Follows(ONE_POD, ss, acts, h)
    ensures At(Last(ss), Scene(Job1(Cleared(OWN), [POD0], [ToolResult]), t2, ws, []), FREED, others)
  {
    ss, acts := FirstJobStarts(h, ss0, acts0, others, t2, ws);
    ss, acts := FirstJobPublishes(h, ss, acts, others, t2, ws);
    ss, acts := FirstJobIsDone(h, ss, acts, others, t2, ws);
    ss, acts := FirstJobCallsRelease(h, ss, acts, others, t2, ws);
    ss, acts := FirstJobReads(h, ss, acts, others, t2, ws);
    ss, acts := FirstJobClears(h, ss, acts, others, t2, ws);
  }

  // ----- a failed scan and its enqueue in two steps

  /** Between a failed scan and the enqueue the only pod is released: over a reliable store, with one
      worker and every other hypothesis, job 2 then waits while the pod is reserved by nobody. */
  lemma PodIdlesWhileJobWaits() returns (ss: seq<Sys>, acts: seq<Act>)
    ensures Follows(ONE_POD, ss, acts, Rules(true, true, true, true, true)) && IsReliableRun(ONE_POD, ss, acts, 1)
    ensures 1 in Last(ss).workers && Last(ss).workers[1].waiters == [2] && Last(ss).workers[1].held == {}
    ensures !NoPodIdles(ONE_POD, Last(ss), 1)
  {
    var h := Rules(true, true, true, true, true);
    ss, acts := SecondJobArrives(h, map[]);
    ss, acts := FirstJobFinishes(h, ss, acts, map[], JOB2_MISSED, []);
    ss, acts := QueuesLate(h, ss, acts);
    assert POD0 in ONE_POD.pods;
  }

  lemma QueuesLate(h: Rules, ss0: seq<Sys>, acts0: seq<Act>) returns (ss: seq<Sys>, acts: seq<Act>)
    requires Follows(ONE_POD, ss0, acts0, h)
    requires At(Last(ss0), Scene(Job1(Cleared(OWN), [POD0], [ToolResult]), JOB2_MISSED, [], []), FREED, map[])
    ensures Follows(ONE_POD, ss, acts, h) && 1 in Last(ss).workers
    ensures Last(ss).workers[1].waiters == [2] && Last(ss).workers[1].held == {}
  {
    var r := Last(ss0).workers[1];
    var r1 := OnResume(ONE_POD, 0, r, 1);
    assert r1.held == {};
    ss, acts := Quietly(ONE_POD, ss0, acts0, h, 1, Resume(1), r1);
    ss, acts := Quietly(ONE_POD, ss, acts, h, 1, Resume(2), OnResume(ONE_POD, 0, r1, 2));
  }

  // ----- A4

  /** Job 2 is queued, and job 1 has cleared its lease and is about to write the one of job 2. */
  lemma UpToHandOff(h: Rules, others: map<nat, Replica>) returns (ss: seq<Sys>, acts: seq<Act>)
    requires others == map[] || (others == map[2 := BOOT] && !h.calm)
    ensures Follows(ONE_POD, ss, acts, h)
    ensures At(Last(ss), Scene(Job1(HandPut(OWN, 2, 0), [POD0], [ToolResult]), JOB2, [], [2]), FREED, others)
  {
    ss, acts := SecondJobArrives(h, others);
    var t := Job1(Holding(GRANT1, Annotating), [], []);
    ss, acts := Quietly(ONE_POD, ss, acts, h, 1, Resume(2), Scene(t, JOB2, [2], []));
    ss, acts := FirstJobFinishes(h, ss, acts, others, JOB2, [2]);
    ss, acts := ShiftsSecondJob(h, ss, acts, others);
  }

  lemma ShiftsSecondJob(h: Rules, ss0: seq<Sys>, acts0: seq<Act>, others: map<nat, Replica>)
    returns (ss: seq<Sys>, acts: seq<Act>)
    requires Fits(h, others, JOB2) && Follows(ONE_POD, ss0, acts0, h)
    requires At(Last(ss0), Scene(Job1(Cleared(OWN), [POD0], [ToolResult]), JOB2, [2], []), FREED, others)
    ensures Follows(ONE_POD, ss, acts, h)
    ensures At(Last(ss), Scene(Job1(HandPut(OWN, 2, 0), [POD0], [ToolResult]), JOB2, [], [2]), FREED, others)
  {
    var r := Scene(Job1(HandPut(OWN, 2, 0), [POD0], [ToolResult]), JOB2, [], [2]);
    ss, acts := Quietly(ONE_POD, ss0, acts0, h, 1, Resume(1), r);
  }

  /** Without A4: between the clear and the hand-off another worker takes the free pod, and the
      hand-off, which carries no version, overwrites its lease. */
  lemma BlindHandOff() returns (ss: seq<Sys>, acts: seq<Act>)
    ensures Follows(ONE_POD, ss, acts, Rules(true, true, false, true, false))
    ensures InUse(Last(ss), 1, 2, POD0) && InUse(Last(ss), 2, 9, POD0)
  {
    var h := Rules(true, true, false, true, false);
    ss, acts := UpToHandOff(h, map[2 := BOOT]);
    ss, acts := TakePod(ONE_POD, ss, acts, h, 2, 9);
    ss, acts := HandOffWins(h, ss, acts);
  }

  lemma HandOffWins(h: Rules, ss0: seq<Sys>, acts0: seq<Act>) returns (ss: seq<Sys>, acts: seq<Act>)
    requires Follows(ONE_POD, ss0, acts0, h) && !h.a4 && !h.calm
    requires var s := Last(ss0);
             && s.now == 0 && 1 in s.workers && 2 in s.workers && POD0 in s.store && s.store[POD0].version == 4
             && s.workers[1] == Scene(Job1(HandPut(OWN, 2, 0), [POD0], [ToolResult]), JOB2, [], [2])
    ensures Follows(ONE_POD, ss, acts, h)
    ensures InUse(Last(ss), 1, 2, POD0) && 2 in Last(ss).workers && Last(ss).workers[2] == Last(ss0).workers[2]
  {
    var g := Grant(POD0, 5, 45000);
    var act := Perform(1, PutServed(1, Some(g)), Some(5));
    var s' := After(ONE_POD, Last(ss0), act);
    ss, acts := Putting(ONE_POD, ss0, acts0, h, act, s');
    var r := Scene(Job1(HandWon(OWN, 2, g), [POD0], [ToolResult]), JOB2, [], [2]);
    assert s'.workers[1] == r;
    ss, acts := Quietly(ONE_POD, ss, acts, h, 1, Resume(1), OnResume(ONE_POD, 0, r, 1));
  }
}
