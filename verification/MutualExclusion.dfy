/** Mutual exclusion across workers: under the named hypotheses at most one job of all workers
    uses a pod, because a job that uses a pod is the stored holder of an unexpired lease. */
module MutualExclusion {
  import opened Common
  import opened Leases
  import opened Replica
  import opened LeaseSystem

  /** The lease a task relies on, from the write that won it to the write that clears it. */
  function Claim(pc: PC): Option<Grant> {
    match pc
    case TryWon(_, _, _, g) => Some(g)
    case Holding(g, _) => Some(g)
    case ClearRead(c) => OwnGrant(c)
    case ClearGot(c, _) => OwnGrant(c)
    case ClearPut(c, _, _) => OwnGrant(c)
    case HandWon(_, _, g) => Some(g)
    case _ => None
  }

  function OwnGrant(c: Cont): Option<Grant> {
    if c.Releasing? then Some(c.g) else None
  }

  /** The lease a releasing task no longer relies on but may still be the stored holder of. */
  function Past(pc: PC): Option<Grant> {
    match pc
    case Cleared(c) => OwnGrant(c)
    case HandPut(c, _, _) => OwnGrant(c)
    case _ => None
  }

  function HolderJob(a: Task, pc: PC): Task {
    match pc
    case TryWon(_, _, who, _) => if who.ForWaiter? then who.w else a
    case HandWon(_, j, _) => j
    case _ => a
  }

  predicate Claims(s: Sys, w: nat, a: Task, g: Grant) {
    Present(s, w, a) && Claim(PcOf(s, w, a)) == Some(g)
  }

  predicate Backed(cfg: Config, s: Sys, w: nat, job: Task, g: Grant) {
    && g.pod in s.store
    && var l := s.store[g.pod];
       && l.version == g.version && l.holder == Some(Identity(w, job)) && l.ttlSeconds == cfg.ttlSeconds
       && l.renewTime == Some(g.until - cfg.ttlSeconds * 1000)
  }

  /** `clearLease` reads the version its own grant wrote. */
  predicate ClearsOwn(pc: PC, p: Pod) {
    match pc
    case ClearGot(Releasing(g, _), Some(l)) => g.pod == p ==> l.version == g.version
    case ClearPut(Releasing(g, _), version, _) => g.pod == p ==> version == g.version
    case _ => true
  }

  predicate PastOk(s: Sys, g: Grant) {
    g.pod in s.store && g.version <= s.store[g.pod].version
  }

  /** The invariant, for one pod: whoever relies on a lease of it is its stored holder, and alone. */
  ghost predicate ClaimInv(cfg: Config, s: Sys, p: Pod) {
    && (forall w, a, g :: Claims(s, w, a, g) && g.pod == p ==> Backed(cfg, s, w, HolderJob(a, PcOf(s, w, a)), g))
    && (forall w, a, g, v, b, h :: Claims(s, w, a, g) && Claims(s, v, b, h) && g.pod == h.pod == p ==> w == v && a == b)
    && (forall w, a :: Present(s, w, a) ==> ClearsOwn(PcOf(s, w, a), p))
    && (forall w, a :: Present(s, w, a) && PastAt(PcOf(s, w, a), p) ==>
          PastOk(s, Past(PcOf(s, w, a)).value) && Superseded(s, Past(PcOf(s, w, a)).value))
    && (forall x :: x in s.late ==> LateOk(s, x.pc, p))
  }

  /** The lease behind a late write, which nobody relies on since its worker crashed. */
  function Behind(pc: PC): Option<Grant> {
    match pc
    case ClearPut(c, _, _) => OwnGrant(c)
    case HandPut(c, _, _) => OwnGrant(c)
    case _ => None
  }

  ghost predicate LateOk(s: Sys, pc: PC, p: Pod) {
    && ClearsOwn(pc, p)
    && (Behind(pc).Some? && Behind(pc).value.pod == p ==>
          PastOk(s, Behind(pc).value) && Superseded(s, Behind(pc).value))
  }

  predicate PastAt(pc: PC, p: Pod) {
    Past(pc).Some? && Past(pc).value.pod == p
  }

  /** Nobody relies on the lease `g` any more. */
  ghost predicate Superseded(s: Sys, g: Grant) {
    forall v, b, h :: Claims(s, v, b, h) && h.pod == g.pod ==> h.version != g.version
  }

  /** A2: whoever relies on a lease of the pod is done with it before it runs out. */
  ghost predicate InTime(s: Sys, p: Pod) {
    forall w, a, g :: Claims(s, w, a, g) && g.pod == p ==> s.now <= g.until
  }

  /** A3, as far as it is needed: a watchdog clears only a lease that has run out at that instant.
      It holds when the read, the check and the clear of one pod are one step. */
  predicate ClearsZombiesOnly(s: Sys, act: Act, p: Pod) {
    Writes(s, act, p) && Writer(s, act).value.pc.ClearPut? && Writer(s, act).value.pc.c.Zombie? ==>
      p in s.store && IsExpired(s.store[p], s.now)
  }

  predicate HandsOff(s: Sys, act: Act, p: Pod) {
    Writes(s, act, p) && Writer(s, act).value.pc.HandPut?
  }

  /** A4: a write without `resourceVersion` is never carried out over a live lease other than the
      one its own releasing job wrote. */
  predicate SparesOthers(s: Sys, act: Act, p: Pod) {
    HandsOff(s, act, p) ==>
      var c := Writer(s, act).value.pc.c;
      && p in s.store
      && (Takeable(s.store[p], s.now) || (c.Releasing? && s.store[p].version == c.g.version))
  }

  /** What A4 gives to the invariant: no task relies on the lease a hand-off replaces. */
  ghost predicate NoVictim(s: Sys, act: Act, p: Pod) {
    HandsOff(s, act, p) ==> forall v, b, h :: Claims(s, v, b, h) ==> h.pod != p
  }

  /** A lease as its grant remembers it: it can be taken as soon as that instant has passed, and not before. */
  lemma LeaseEndsWhenGranted(cfg: Config, s: Sys, w: nat, job: Task, g: Grant)
    requires Backed(cfg, s, w, job, g) && cfg.ttlSeconds > 0
    ensures Takeable(s.store[g.pod], s.now) <==> s.now > g.until
  {
  }

  lemma LiveClaim(cfg: Config, s: Sys, w: nat, a: Task, g: Grant)
    requires ClaimInv(cfg, s, g.pod) && InTime(s, g.pod) && Claims(s, w, a, g) && cfg.ttlSeconds > 0
    ensures g.pod in s.store && Live(s.store[g.pod], s.now)
  {
    LeaseEndsWhenGranted(cfg, s, w, HolderJob(a, PcOf(s, w, a)), g);
  }

  lemma SparedMeansNoVictim(cfg: Config, s: Sys, act: Act, p: Pod)
    requires CanAct(cfg, s, act)
    requires ClaimInv(cfg, s, p) && InTime(s, p) && cfg.ttlSeconds > 0 && SparesOthers(s, act, p)
    ensures NoVictim(s, act, p)
  {
    if HandsOff(s, act, p) {
      assert act.Perform? ==> Present(s, act.w, act.e.a);
      forall v, b, h | Claims(s, v, b, h) ensures h.pod != p {
        if h.pod == p { LiveClaim(cfg, s, v, b, h); }
      }
    }
  }

  /** No write that is carried out hits the lease another task relies on. */
  lemma WritesHitNobody(cfg: Config, s: Sys, act: Act, p: Pod)
    requires ClaimInv(cfg, s, p) && InTime(s, p) && CasInv(s) && cfg.ttlSeconds > 0
    requires CanAct(cfg, s, act) && ClearsZombiesOnly(s, act, p) && NoVictim(s, act, p) && Writes(s, act, p)
    ensures forall v, b, h :: Claims(s, v, b, h) && h.pod == p ==>
              act.Perform? && v == act.w && b == act.e.a && PcOf(s, v, b).ClearPut?
  {
    var pc := Writer(s, act).value.pc;
    assert SnapshotOk(s, pc) && ClearsOwn(pc, p);
    assert act.Arrive? ==> LateOk(s, pc, p);
    forall v, b, h | Claims(s, v, b, h) && h.pod == p
      ensures act.Perform? && v == act.w && b == act.e.a && pc.ClearPut?
    {
      LiveClaim(cfg, s, v, b, h);
      if act.Perform? && pc.ClearPut? && pc.c.Releasing? {
        assert Claims(s, act.w, act.e.a, pc.c.g);
      }
    }
  }

  /** The act is the store's answer to a write, whether it carried it out or not. */
  predicate StoreMoves(act: Act) {
    act.Arrive? || (act.Perform? && act.e.PutServed?)
  }

  /** Where a claim after a step comes from: the same task, or the task that passes it on. */
  lemma ClaimSource(cfg: Config, s: Sys, act: Act, v: nat, b: Task, h: Grant)
    requires CanAct(cfg, s, act) && Claims(After(cfg, s, act), v, b, h)
    requires !StoreMoves(act)
    ensures var s' := After(cfg, s, act);
            || (Claims(s, v, b, h) && HolderJob(b, PcOf(s', v, b)) == HolderJob(b, PcOf(s, v, b)))
            || (&& act.Perform? && v == act.w && Claims(s, v, act.e.a, h) && !Claims(s', v, act.e.a, h) && b != act.e.a
                && HolderJob(b, PcOf(s', v, b)) == b == HolderJob(act.e.a, PcOf(s, v, act.e.a))
                && Claim(PcOf(s', v, act.e.a)).None?)
  {
    if act.Perform? && v == act.w {
      if b == act.e.a {
        MoverClaim(cfg, s.now, s.workers[v], act.e, h);
      } else {
        Frame(cfg, s.now, s.workers[v], act.e, b);
        if Claim(PcOf(s, v, b)) != Some(h) {
          ServedClaim(cfg, s.now, s.workers[v], act.e.a);
        }
      }
    }
  }

  lemma MoverClaim(cfg: Config, now: int, r: Replica, e: Event, h: Grant)
    requires Enabled(now, r, e) && !e.PutServed?
    ensures var r' := Step(cfg, now, r, e);
            e.a in r'.tasks && Claim(r'.tasks[e.a].pc) == Some(h) ==>
              e.a in r.tasks && Claim(r.tasks[e.a].pc) == Some(h)
              && HolderJob(e.a, r'.tasks[e.a].pc) == HolderJob(e.a, r.tasks[e.a].pc)
  {
  }

  lemma ServedClaim(cfg: Config, now: int, r: Replica, a: Task)
    requires Enabled(now, r, Resume(a)) && Serving(r.tasks[a].pc).Some?
    ensures var r' := OnResume(cfg, now, r, a);
            && a in r'.tasks && Claim(r'.tasks[a].pc).None?
            && Claim(r.tasks[a].pc) == Some(Serving(r.tasks[a].pc).value.1)
            && HolderJob(a, r.tasks[a].pc) == Serving(r.tasks[a].pc).value.0
  {
  }

  /** Steps that write nothing to the store. */
  lemma QuietKeepsClaims(cfg: Config, s: Sys, act: Act, p: Pod)
    requires ClaimInv(cfg, s, p) && CanAct(cfg, s, act) && !StoreMoves(act)
    ensures ClaimInv(cfg, After(cfg, s, act), p)
  {
    var s' := After(cfg, s, act);
    forall v, b, h | Claims(s', v, b, h) && h.pod == p
      ensures Backed(cfg, s', v, HolderJob(b, PcOf(s', v, b)), h)
    {
      ClaimSource(cfg, s, act, v, b, h);
    }
    forall v, b, h, v2, b2, h2 | Claims(s', v, b, h) && Claims(s', v2, b2, h2) && h.pod == h2.pod == p
      ensures v == v2 && b == b2
    {
      ClaimSource(cfg, s, act, v, b, h);
      ClaimSource(cfg, s, act, v2, b2, h2);
      OneHeir(cfg, s, act, b, b2, h, h2);
    }
    forall x | x in s'.late ensures LateOk(s', x.pc, p) {
      LateKept(cfg, s, act, x, p);
    }
    forall v, b | Present(s', v, b)
      ensures ClearsOwn(PcOf(s', v, b), p)
      ensures PastAt(PcOf(s', v, b), p) ==>
                PastOk(s', Past(PcOf(s', v, b)).value) && Superseded(s', Past(PcOf(s', v, b)).value)
    {
      RestKept(cfg, s, act, v, b, p);
    }
  }

  /** A claim is passed on to one task at most. */
  lemma OneHeir(cfg: Config, s: Sys, act: Act, b: Task, b2: Task, h: Grant, h2: Grant)
    requires CanAct(cfg, s, act) && !StoreMoves(act)
    ensures var s' := After(cfg, s, act);
            (&& act.Perform? && b != act.e.a && b2 != act.e.a
             && Claims(s', act.w, b, h) && !Claims(s, act.w, b, h)
             && Claims(s', act.w, b2, h2) && !Claims(s, act.w, b2, h2)) ==> b == b2
  {
    if act.Perform? {
      if b != act.e.a { Frame(cfg, s.now, s.workers[act.w], act.e, b); }
      if b2 != act.e.a { Frame(cfg, s.now, s.workers[act.w], act.e, b2); }
    }
  }

  lemma LateKept(cfg: Config, s: Sys, act: Act, x: Request, p: Pod)
    requires ClaimInv(cfg, s, p) && CanAct(cfg, s, act) && !StoreMoves(act) && x in After(cfg, s, act).late
    ensures LateOk(After(cfg, s, act), x.pc, p)
  {
    var s' := After(cfg, s, act);
    if x !in s.late {
      assert Present(s, x.w, x.a) && PcOf(s, x.w, x.a) == x.pc;
      if x.pc.ClearPut? && x.pc.c.Releasing? { assert Claims(s, x.w, x.a, x.pc.c.g); }
    }
    if Behind(x.pc).Some? && Behind(x.pc).value.pod == p {
      forall v, b, h | Claims(s', v, b, h) && h.pod == p ensures h.version != Behind(x.pc).value.version {
        ClaimSource(cfg, s, act, v, b, h);
      }
    }
  }

  lemma RestKept(cfg: Config, s: Sys, act: Act, v: nat, b: Task, p: Pod)
    requires ClaimInv(cfg, s, p) && CanAct(cfg, s, act) && !StoreMoves(act)
    requires Present(After(cfg, s, act), v, b)
    ensures var s' := After(cfg, s, act);
            && ClearsOwn(PcOf(s', v, b), p)
            && (PastAt(PcOf(s', v, b), p) ==>
                  PastOk(s', Past(PcOf(s', v, b)).value) && Superseded(s', Past(PcOf(s', v, b)).value))
  {
    var s' := After(cfg, s, act);
    if act.Perform? && v == act.w {
      if b != act.e.a {
        Frame(cfg, s.now, s.workers[v], act.e, b);
        assert Present(s, v, b);
      } else {
        MoverRest(cfg, s, act, p);
      }
    } else {
      assert Present(s, v, b);
    }
    if PastAt(PcOf(s', v, b), p) {
      var g := Past(PcOf(s', v, b)).value;
      forall v2, b2, h | Claims(s', v2, b2, h) && h.pod == g.pod ensures h.version != g.version {
        ClaimSource(cfg, s, act, v2, b2, h);
      }
    }
  }

  lemma MoverRest(cfg: Config, s: Sys, act: Act, p: Pod)
    requires ClaimInv(cfg, s, p) && CanAct(cfg, s, act) && act.Perform? && !act.e.PutServed?
    ensures var s' := After(cfg, s, act);
            && Present(s', act.w, act.e.a)
            && ClearsOwn(PcOf(s', act.w, act.e.a), p)
            && (PastAt(PcOf(s', act.w, act.e.a), p) ==>
                  var g := Past(PcOf(s', act.w, act.e.a)).value;
                  && Present(s, act.w, act.e.a)
                  && (|| Past(PcOf(s, act.w, act.e.a)) == Some(g)
                      || (Claims(s, act.w, act.e.a, g) && !Claims(s', act.w, act.e.a, g))))
  {
    MoverPast(cfg, s.now, s.workers[act.w], act.e);
    MoverClearsOwn(cfg, s, act, p);
  }

  /** A lease becomes a past one only where its task relied on it before. */
  lemma MoverPast(cfg: Config, now: int, r: Replica, e: Event)
    requires Enabled(now, r, e) && !e.PutServed?
    ensures var r' := Step(cfg, now, r, e);
            && e.a in r'.tasks
            && (Past(r'.tasks[e.a].pc).Some? ==>
                  var g := Past(r'.tasks[e.a].pc);
                  && e.a in r.tasks && (Past(r.tasks[e.a].pc) == g || Claim(r.tasks[e.a].pc) == g)
                  && Claim(r'.tasks[e.a].pc).None?)
  {
  }

  lemma MoverClearsOwn(cfg: Config, s: Sys, act: Act, p: Pod)
    requires ClaimInv(cfg, s, p) && CanAct(cfg, s, act) && act.Perform? && !act.e.PutServed?
    ensures var s' := After(cfg, s, act);
            Present(s', act.w, act.e.a) && ClearsOwn(PcOf(s', act.w, act.e.a), p)
  {
    if act.e.a in s.workers[act.w].tasks {
      assert Present(s, act.w, act.e.a);
      var pc := PcOf(s, act.w, act.e.a);
      assert Claim(pc).Some? ==> Claims(s, act.w, act.e.a, Claim(pc).value);
    }
  }

  lemma PutClaims(cfg: Config, s: Sys, act: Act, v: nat, b: Task, h: Grant)
    requires CanAct(cfg, s, act) && act.Perform? && act.e.PutServed? && Claims(After(cfg, s, act), v, b, h)
    ensures Present(s, v, b)
    ensures if v == act.w && b == act.e.a then
              act.e.won == Some(h) && Writes(s, act, h.pod) && !PcOf(s, v, b).ClearPut?
            else Claims(s, v, b, h) && PcOf(After(cfg, s, act), v, b) == PcOf(s, v, b)
  {
  }

  /** Steps that write to the store, or fail to. */
  lemma PutKeepsClaims(cfg: Config, s: Sys, act: Act, p: Pod)
    requires ClaimInv(cfg, s, p) && CasInv(s) && InTime(s, p) && cfg.ttlSeconds > 0
    requires CanAct(cfg, s, act) && act.Perform? && act.e.PutServed?
    requires ClearsZombiesOnly(s, act, p) && NoVictim(s, act, p)
    ensures ClaimInv(cfg, After(cfg, s, act), p)
  {
    var s' := After(cfg, s, act);
    if Writes(s, act, p) {
      WritesHitNobody(cfg, s, act, p);
    }
    forall v, b, h | Claims(s', v, b, h) && h.pod == p
      ensures Backed(cfg, s', v, HolderJob(b, PcOf(s', v, b)), h)
    {
      PutClaims(cfg, s, act, v, b, h);
    }
    forall v, b, h, v2, b2, h2 | Claims(s', v, b, h) && Claims(s', v2, b2, h2) && h.pod == h2.pod == p
      ensures v == v2 && b == b2
    {
      PutClaims(cfg, s, act, v, b, h);
      PutClaims(cfg, s, act, v2, b2, h2);
    }
    forall v, b | Present(s', v, b)
      ensures ClearsOwn(PcOf(s', v, b), p)
      ensures PastAt(PcOf(s', v, b), p) ==>
                PastOk(s', Past(PcOf(s', v, b)).value) && Superseded(s', Past(PcOf(s', v, b)).value)
    {
      assert Present(s, v, b);
      if PastAt(PcOf(s', v, b), p) {
        var g := Past(PcOf(s', v, b)).value;
        PastSource(cfg, s, act, v, b, g);
        StaysSuperseded(cfg, s, act, v, b, g);
      }
    }
    forall x | x in s'.late ensures LateOk(s', x.pc, p) {
      if Behind(x.pc).Some? && Behind(x.pc).value.pod == p {
        StaysSuperseded(cfg, s, act, act.w, act.e.a, Behind(x.pc).value);
      }
    }
  }

  /** A write wins a version above all leases that were given up before. */
  lemma StaysSuperseded(cfg: Config, s: Sys, act: Act, w: nat, a: Task, g: Grant)
    requires ClaimInv(cfg, s, g.pod) && CanAct(cfg, s, act) && act.Perform? && act.e.PutServed?
    requires PastOk(s, g) && (Superseded(s, g) || (w == act.w && a == act.e.a && Claims(s, w, a, g)))
    requires Superseded(s, g) || !Claims(After(cfg, s, act), w, a, g)
    ensures Superseded(After(cfg, s, act), g) && PastOk(After(cfg, s, act), g)
  {
    var s' := After(cfg, s, act);
    forall v, b, h | Claims(s', v, b, h) && h.pod == g.pod ensures h.version != g.version {
      PutClaims(cfg, s, act, v, b, h);
    }
  }

  lemma PastSource(cfg: Config, s: Sys, act: Act, v: nat, b: Task, g: Grant)
    requires ClaimInv(cfg, s, g.pod) && CanAct(cfg, s, act) && act.Perform? && act.e.PutServed?
    requires Present(After(cfg, s, act), v, b) && Past(PcOf(After(cfg, s, act), v, b)) == Some(g)
    ensures Present(s, v, b) && PastOk(s, g)
    ensures Past(PcOf(s, v, b)) == Some(g) || (v == act.w && b == act.e.a && Claims(s, v, b, g))
  {
    assert Present(s, v, b);
    if Past(PcOf(s, v, b)) != Some(g) {
      assert Claims(s, v, b, g);
    }
  }

  /** A write whose worker has crashed: it changes the record, and nobody's claim. */
  lemma ArriveKeepsClaims(cfg: Config, s: Sys, act: Act, p: Pod)
    requires ClaimInv(cfg, s, p) && CasInv(s) && InTime(s, p) && cfg.ttlSeconds > 0
    requires CanAct(cfg, s, act) && act.Arrive? && ClearsZombiesOnly(s, act, p) && NoVictim(s, act, p)
    ensures ClaimInv(cfg, After(cfg, s, act), p)
  {
    var s' := After(cfg, s, act);
    if Writes(s, act, p) {
      WritesHitNobody(cfg, s, act, p);
    }
    assert forall v, b, h :: Claims(s', v, b, h) <==> Claims(s, v, b, h);
    assert forall v, b :: Present(s', v, b) <==> Present(s, v, b);
    forall x | x in s'.late ensures LateOk(s', x.pc, p) {
      assert LateOk(s, x.pc, p);
    }
  }

  lemma StepKeepsClaims(cfg: Config, s: Sys, act: Act, p: Pod)
    requires ClaimInv(cfg, s, p) && CasInv(s) && InTime(s, p) && cfg.ttlSeconds > 0
    requires CanAct(cfg, s, act) && ClearsZombiesOnly(s, act, p) && NoVictim(s, act, p)
    ensures ClaimInv(cfg, After(cfg, s, act), p)
  {
    if act.Perform? && act.e.PutServed? {
      PutKeepsClaims(cfg, s, act, p);
    } else if act.Arrive? {
      ArriveKeepsClaims(cfg, s, act, p);
    } else {
      QuietKeepsClaims(cfg, s, act, p);
    }
  }

  /** A run that meets A2, A3 and A4 for one pod, whatever happens to the others; A1 is part of
      every run. */
  ghost predicate IsFairRun(cfg: Config, ss: seq<Sys>, acts: seq<Act>, p: Pod) {
    && IsSysRun(cfg, ss, acts)
    && (forall k :: 0 <= k < |ss| ==> InTime(ss[k], p))
    && (forall k :: 0 <= k < |acts| ==> ClearsZombiesOnly(ss[k], acts[k], p) && SparesOthers(ss[k], acts[k], p))
  }

  lemma {:induction false} RunsKeepClaims(cfg: Config, ss: seq<Sys>, acts: seq<Act>, k: nat, p: Pod)
    requires IsFairRun(cfg, ss, acts, p) && k < |ss| && cfg.ttlSeconds > 0
    ensures ClaimInv(cfg, ss[k], p) && CasInv(ss[k])
  {
    RunsKeepCas(cfg, ss, acts, k);
    if k > 0 {
      RunsKeepClaims(cfg, ss, acts, k - 1, p);
      SparedMeansNoVictim(cfg, ss[k - 1], acts[k - 1], p);
      StepKeepsClaims(cfg, ss[k - 1], acts[k - 1], p);
    }
  }

  /** A job uses a pod from the moment `acquirePod` resolves until it calls `releasePod`. */
  predicate InUse(s: Sys, w: nat, a: Task, p: Pod) {
    Present(s, w, a) && PcOf(s, w, a).Holding? && PcOf(s, w, a).g.pod == p
  }

  /** Cross-replica mutual exclusion, with the reason: the user is the stored holder, at the
      version it wrote, of a lease that has not run out. */
  lemma OneUserPerPod(cfg: Config, ss: seq<Sys>, acts: seq<Act>, k: nat, p: Pod)
    requires IsFairRun(cfg, ss, acts, p) && k < |ss| && cfg.ttlSeconds > 0
    ensures forall w, a, v, b :: InUse(ss[k], w, a, p) && InUse(ss[k], v, b, p) ==> w == v && a == b
    ensures forall w, a :: InUse(ss[k], w, a, p) ==>
              && p in ss[k].store && !IsExpired(ss[k].store[p], ss[k].now)
              && ss[k].store[p].holder == Some(Identity(w, a)) && ss[k].store[p].version == PcOf(ss[k], w, a).g.version
  {
    RunsKeepClaims(cfg, ss, acts, k, p);
    var s := ss[k];
    assert forall w, a :: InUse(s, w, a, p) ==> Claims(s, w, a, PcOf(s, w, a).g);
  }

  /** What a watchdog visit knows about its pod while nobody else has moved since it looked. */
  predicate FreshVisit(s: Sys, pc: PC) {
    match pc
    case DogRead(_) => true
    case DogGot(p, answer) => answer.Some? ==> p in s.store && s.store[p] == answer.value
    case ClearRead(Zombie(p)) => p in s.store && IsExpired(s.store[p], s.now)
    case ClearGot(Zombie(p), _) => p in s.store && IsExpired(s.store[p], s.now)
    case ClearPut(Zombie(p), _, _) => p in s.store && IsExpired(s.store[p], s.now)
    case Cleared(Zombie(_)) => true
    case HandPut(Zombie(_), _, _) => true
    case HandLost(Zombie(_), _) => true
    case HandWon(Zombie(_), _, _) => true
    case Finished => true
    case _ => false
  }

  lemma VisitStaysFresh(cfg: Config, s: Sys, act: Act)
    requires CanAct(cfg, s, act) && act.Perform? && Present(s, act.w, act.e.a)
    requires FreshVisit(s, PcOf(s, act.w, act.e.a))
    ensures var s' := After(cfg, s, act);
            Present(s', act.w, act.e.a) && FreshVisit(s', PcOf(s', act.w, act.e.a))
  {
  }

  lemma {:induction false} UndisturbedVisit(cfg: Config, ss: seq<Sys>, acts: seq<Act>, k: nat, n: nat, w: nat, d: Task)
    requires IsSysRun(cfg, ss, acts) && k <= n < |ss| && Present(ss[k], w, d) && PcOf(ss[k], w, d).DogRead?
    requires forall i :: k <= i < n ==> acts[i].Perform? && acts[i].w == w && acts[i].e.a == d
    ensures Present(ss[n], w, d) && FreshVisit(ss[n], PcOf(ss[n], w, d))
  {
    if k < n {
      UndisturbedVisit(cfg, ss, acts, k, n - 1, w, d);
      VisitStaysFresh(cfg, ss[n - 1], acts[n - 1]);
    }
  }

  /** A3 holds where the watchdog handles a pod in one piece: as long as nobody else moves after
      its visit began, and the clock stands still, it clears only a lease that has run out. */
  lemma OnePieceClearsZombiesOnly(cfg: Config, ss: seq<Sys>, acts: seq<Act>, k: nat, n: nat, w: nat, d: Task)
    requires IsSysRun(cfg, ss, acts) && k <= n < |acts| && Present(ss[k], w, d) && PcOf(ss[k], w, d).DogRead?
    requires forall i :: k <= i <= n ==> acts[i].Perform? && acts[i].w == w && acts[i].e.a == d
    ensures forall p :: ClearsZombiesOnly(ss[n], acts[n], p)
  {
    UndisturbedVisit(cfg, ss, acts, k, n, w, d);
  }
}
