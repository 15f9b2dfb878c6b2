/** In-process ownership: for every interleaving and every store answer, `held` is exactly the
    set of pods with one owner, as long as the watchdog has not taken the pod out of `held`. */
module Ownership {
  import opened Common
  import opened Leases
  import opened Replica

  /** The pod a task answers for: the one it has reserved, uses or is releasing. */
  function Owned(pc: PC): Option<Pod> {
    match pc
    case TryRead(_, p, _) => Some(p)
    case TryGot(_, p, _, _) => Some(p)
    case TryPut(_, p, _, _, _) => Some(p)
    case TryLost(_, p, _) => Some(p)
    case TryWon(_, p, _, _) => Some(p)
    case Holding(g, _) => Some(g.pod)
    case ClearRead(c) => Claimed(c)
    case ClearGot(c, _) => Claimed(c)
    case ClearPut(c, _, _) => Claimed(c)
    case Cleared(c) => Claimed(c)
    case HandPut(c, _, _) => Claimed(c)
    case HandLost(c, _) => Claimed(c)
    case HandWon(c, _, _) => Claimed(c)
    case _ => None
  }

  function Claimed(c: Cont): Option<Pod> {
    if c.Releasing? then Some(c.g.pod) else None
  }

  predicate Owns(r: Replica, a: Task, p: Pod) {
    a in r.tasks && Owned(r.tasks[a].pc) == Some(p)
  }

  /** A won lease is a lease on the pod that was asked for, and the watchdog hands over only
      pods it has taken out of `held`. */
  predicate Coherent(r: Replica, pc: PC) {
    match pc
    case TryWon(_, p, _, g) => g.pod == p
    case HandPut(Zombie(p), _, _) => p in r.cleared
    case HandLost(Zombie(p), _) => p in r.cleared
    case HandWon(c, _, g) => g.pod == c.Name() && (c.Zombie? ==> c.p in r.cleared)
    case _ => true
  }

  ghost predicate OwnInv(r: Replica) {
    && (forall a :: a in r.tasks ==> Coherent(r, r.tasks[a].pc))
    && (forall a, b, p :: Owns(r, a, p) && Owns(r, b, p) && p !in r.cleared ==> a == b)
    && (forall a, p :: Owns(r, a, p) && p !in r.cleared ==> p in r.held && p !in r.orphans)
    && (forall p :: p in r.orphans && p !in r.cleared ==> p in r.held)
    && (forall p :: p in r.held && p !in r.cleared && p !in r.orphans ==> exists a :: Owns(r, a, p))
  }

  /** Moving a task without touching its pod, the queue or the reservations changes no owner. */
  lemma GotoKeeps(r: Replica, a: Task, pc: PC)
    requires OwnInv(r) && a in r.tasks && Owned(pc) == Owned(r.tasks[a].pc) && Coherent(r, pc)
    ensures OwnInv(Goto(r, a, pc))
  {
    var r' := Goto(r, a, pc);
    SameOwners(r, r');
  }

  lemma SameOwners(r: Replica, r': Replica)
    requires OwnInv(r) && r'.held == r.held && r'.orphans == r.orphans && r'.cleared == r.cleared
    requires forall a :: a in r'.tasks ==> Coherent(r', r'.tasks[a].pc)
    requires forall a :: a in r.tasks ==> a in r'.tasks
    requires forall a :: a in r'.tasks ==>
      Owned(r'.tasks[a].pc) == if a in r.tasks then Owned(r.tasks[a].pc) else None
    ensures OwnInv(r')
  {
    assert forall a, p :: Owns(r', a, p) <==> Owns(r, a, p);
    forall p | p in r'.held && p !in r'.cleared && p !in r'.orphans
      ensures exists b :: Owns(r', b, p)
    {
      var b :| Owns(r, b, p);
      assert Owns(r', b, p);
    }
  }

  /** The owner gives its pod back, or the watchdog takes the pod whoever owns it. */
  lemma DropKeeps(r: Replica, a: Task, p: Pod, pc: PC, r': Replica)
    requires OwnInv(r) && a in r.tasks && Owned(pc).None? && Coherent(r', pc)
    requires r'.tasks == r.tasks[a := r.tasks[a].(pc := pc)] && r'.held == r.held - {p} && r'.orphans == r.orphans
    requires (Owns(r, a, p) && r'.cleared == r.cleared) || (Owned(r.tasks[a].pc).None? && r'.cleared == r.cleared + {p})
    ensures OwnInv(r')
  {
    assert forall b, q :: Owns(r', b, q) <==> b != a && Owns(r, b, q);
    forall q | q in r'.held && q !in r'.cleared && q !in r'.orphans
      ensures exists b :: Owns(r', b, q)
    {
      var b :| Owns(r, b, q);
      assert b != a;
      assert Owns(r', b, q);
    }
  }

  /** The check and the reservation of a scan happen in one stretch, so a pod is reserved once. */
  lemma ScanKeeps(cfg: Config, r: Replica, a: Task, from: nat, who: For)
    requires OwnInv(r) && a in r.tasks && Owned(r.tasks[a].pc).None?
    ensures OwnInv(Scan(cfg, r, a, from, who))
  {
    var r' := Scan(cfg, r, a, from, who);
    var i := NextFree(cfg.pods, r.held, from);
    if i < |cfg.pods| {
      assert forall b, q :: Owns(r', b, q) <==> (b == a && q == cfg.pods[i]) || (b != a && Owns(r, b, q));
      forall q | q in r'.held && q !in r'.cleared && q !in r'.orphans
        ensures exists b :: Owns(r', b, q)
      {
        if q == cfg.pods[i] {
          assert Owns(r', a, q);
        } else {
          var b :| Owns(r, b, q);
          assert Owns(r', b, q);
        }
      }
    } else {
      GotoKeeps(r, a, if who.ForSelf? then Missed else Notifying(who.fin));
    }
  }

  /** A pod passes from the task that won it to the waiter ... */
  lemma PassKeeps(r: Replica, a: Task, pc: PC, w: Task, g: Grant, r': Replica)
    requires OwnInv(r) && a in r.tasks && Owned(pc).None? && Coherent(r, pc) && !pc.Waiting?
    requires Owns(r, a, g.pod) || (g.pod in r.cleared && Owned(r.tasks[a].pc).None?)
    requires w != a && w in r.tasks && r.tasks[w].pc.Waiting? && r' == Resolve(Goto(r, a, pc), w, g)
    ensures OwnInv(r')
  {
    assert forall b, q :: Owns(r', b, q) <==> (b == w && q == g.pod) || (b != a && b != w && Owns(r, b, q));
    forall q | q in r'.held && q !in r'.cleared && q !in r'.orphans
      ensures exists b :: Owns(r', b, q)
    {
      var b :| Owns(r, b, q);
      assert Owns(r', if b == a then w else b, q);
    }
  }

  /** ... or to nobody, when the waiter's promise was settled before. */
  lemma OrphanKeeps(r: Replica, a: Task, pc: PC, g: Grant, r': Replica)
    requires OwnInv(r) && a in r.tasks && Owned(pc).None? && Coherent(r, pc)
    requires Owns(r, a, g.pod) || (g.pod in r.cleared && Owned(r.tasks[a].pc).None?)
    requires r' == Goto(r, a, pc).(orphans := r.orphans + {g.pod})
    ensures OwnInv(r')
  {
    assert forall b, q :: Owns(r', b, q) <==> b != a && Owns(r, b, q);
    forall q | q in r'.held && q !in r'.cleared && q !in r'.orphans
      ensures exists b :: Owns(r', b, q)
    {
      var b :| Owns(r, b, q);
      assert Owns(r', b, q);
    }
  }

  lemma ResolveKeeps(r: Replica, a: Task, pc: PC, w: Task, g: Grant, r': Replica)
    requires OwnInv(r) && a in r.tasks && Owned(pc).None? && Coherent(r, pc) && !pc.Waiting?
    requires Owns(r, a, g.pod) || (g.pod in r.cleared && Owned(r.tasks[a].pc).None?)
    requires r' == Resolve(Goto(r, a, pc), w, g)
    ensures OwnInv(r')
  {
    if w != a && w in r.tasks && r.tasks[w].pc.Waiting? {
      PassKeeps(r, a, pc, w, g, r');
    } else {
      OrphanKeeps(r, a, pc, g, r');
    }
  }

  lemma ResumeLost(cfg: Config, now: int, r: Replica, a: Task)
    requires OwnInv(r) && Enabled(now, r, Resume(a)) && r.tasks[a].pc.TryLost?
    ensures OwnInv(OnResume(cfg, now, r, a))
  {
    var TryLost(i, p, who) := r.tasks[a].pc;
    var r1 := Goto(r.(held := r.held - {p}), a, Missed);
    DropKeeps(r, a, p, Missed, r1);
    ScanKeeps(cfg, r1, a, i + 1, who);
    assert OnResume(cfg, now, r, a) == Scan(cfg, r1, a, i + 1, who);
  }

  lemma ResumeWon(cfg: Config, now: int, r: Replica, a: Task)
    requires OwnInv(r) && Enabled(now, r, Resume(a)) && r.tasks[a].pc.TryWon?
    ensures OwnInv(OnResume(cfg, now, r, a))
  {
    var TryWon(i, p, who, g) := r.tasks[a].pc;
    var r' := OnResume(cfg, now, r, a);
    if who.ForSelf? {
      SameOwners(r, r');
    } else {
      var r1 := r.(waiters := Tail(r.waiters), left := r.left + Front(r.waiters));
      SameOwners(r, r1);
      ResolveKeeps(r1, a, Notifying(who.fin), who.w, g, r');
    }
  }

  lemma ResumeCleared(cfg: Config, now: int, r: Replica, a: Task)
    requires OwnInv(r) && Enabled(now, r, Resume(a)) && r.tasks[a].pc.Cleared?
    ensures OwnInv(OnResume(cfg, now, r, a))
  {
    var c := r.tasks[a].pc.c;
    var r' := OnResume(cfg, now, r, a);
    if c.Zombie? {
      var r1 := r'.(waiters := r.waiters, served := r.served);
      DropKeeps(r, a, c.p, r'.tasks[a].pc, r1);
      SameOwners(r1, r');
    } else if r.waiters == [] {
      DropKeeps(r, a, c.g.pod, Notifying(c.fin), r');
    } else {
      SameOwners(r, r');
    }
  }

  lemma ResumeHandLost(cfg: Config, now: int, r: Replica, a: Task)
    requires OwnInv(r) && Enabled(now, r, Resume(a)) && r.tasks[a].pc.HandLost?
    ensures OwnInv(OnResume(cfg, now, r, a))
  {
    var HandLost(c, w) := r.tasks[a].pc;
    var r' := OnResume(cfg, now, r, a);
    if c.Zombie? {
      SameOwners(r, r');
    } else {
      ResumeRetry(cfg, now, r, a);
    }
  }

  lemma ResumeRetry(cfg: Config, now: int, r: Replica, a: Task)
    requires OwnInv(r) && Enabled(now, r, Resume(a)) && r.tasks[a].pc.HandLost? && r.tasks[a].pc.c.Releasing?
    ensures OwnInv(OnResume(cfg, now, r, a))
  {
    var HandLost(c, w) := r.tasks[a].pc;
    var r1 := Goto(r.(held := r.held - {c.g.pod}), a, Missed);
    DropKeeps(r, a, c.g.pod, Missed, r1);
    var r2 := PutBack(r1, w);
    SameOwners(r1, r2);
    ScanKeeps(cfg, r2, a, 0, ForWaiter(w, c.g, c.fin));
    RetryScans(cfg, now, r, a);
    SamePlace(cfg, PutBack(r, w).(held := r.held - {c.g.pod}), r2, a, ForWaiter(w, c.g, c.fin));
  }

  lemma RetryScans(cfg: Config, now: int, r: Replica, a: Task)
    requires Enabled(now, r, Resume(a)) && r.tasks[a].pc.HandLost? && r.tasks[a].pc.c.Releasing?
    ensures var HandLost(c, w) := r.tasks[a].pc;
            OnResume(cfg, now, r, a)
            == Scan(cfg, PutBack(r, w).(held := r.held - {c.g.pod}), a, 0, ForWaiter(w, c.g, c.fin))
  {
  }

  /** A scan does not look at where its task stands. */
  lemma SamePlace(cfg: Config, r: Replica, r': Replica, a: Task, who: For)
    requires a in r.tasks && r' == Goto(r, a, Missed)
    ensures Scan(cfg, r, a, 0, who) == Scan(cfg, r', a, 0, who)
  {
  }

  lemma ResumeHandWon(cfg: Config, now: int, r: Replica, a: Task)
    requires OwnInv(r) && Enabled(now, r, Resume(a)) && r.tasks[a].pc.HandWon?
    ensures OwnInv(OnResume(cfg, now, r, a))
  {
    var HandWon(c, w, g) := r.tasks[a].pc;
    var r' := OnResume(cfg, now, r, a);
    if c.Zombie? {
      var r1 := r.(held := r.held + {c.p});
      ReservedAgain(r, c.p, r1);
      ResolveKeeps(r1, a, Finished, w, g, r');
    } else {
      ResolveKeeps(r, a, Notifying(c.fin), w, g, r');
    }
  }

  lemma ReservedAgain(r: Replica, p: Pod, r': Replica)
    requires OwnInv(r) && p in r.cleared && r' == r.(held := r.held + {p})
    ensures OwnInv(r')
  {
    assert forall b, q :: Owns(r', b, q) <==> Owns(r, b, q);
  }

  lemma StepKeepsOwnership(cfg: Config, now: int, r: Replica, e: Event)
    requires OwnInv(r) && Enabled(now, r, e)
    ensures OwnInv(Step(cfg, now, r, e))
  {
    if e.Start? {
      var r1 := r.(tasks := r.tasks[e.a := NewTask(Missed)]);
      SameOwners(r, r1);
      ScanKeeps(cfg, r1, e.a, 0, ForSelf);
    } else if e.Resume? && r.tasks[e.a].pc.TryLost? {
      ResumeLost(cfg, now, r, e.a);
    } else if e.Resume? && r.tasks[e.a].pc.TryWon? {
      ResumeWon(cfg, now, r, e.a);
    } else if e.Resume? && r.tasks[e.a].pc.Cleared? {
      ResumeCleared(cfg, now, r, e.a);
    } else if e.Resume? && r.tasks[e.a].pc.HandLost? {
      ResumeHandLost(cfg, now, r, e.a);
    } else if e.Resume? && r.tasks[e.a].pc.HandWon? {
      ResumeHandWon(cfg, now, r, e.a);
    } else {
      QuietStep(cfg, now, r, e);
    }
  }

  predicate Quiet(r: Replica, e: Event)
    requires e.Resume? ==> e.a in r.tasks
  {
    && !e.Start?
    && (e.Resume? ==>
          var pc := r.tasks[e.a].pc;
          !pc.TryLost? && !pc.TryWon? && !pc.Cleared? && !pc.HandLost? && !pc.HandWon?)
  }

  /** The remaining steps move one task and leave every pod with its owner. */
  lemma QuietEffect(cfg: Config, now: int, r: Replica, e: Event)
    requires Enabled(now, r, e) && Quiet(r, e)
    requires e.a in r.tasks ==> Coherent(r, r.tasks[e.a].pc)
    ensures var r' := Step(cfg, now, r, e);
            && r'.held == r.held && r'.orphans == r.orphans && r'.cleared == r.cleared
            && e.a in r'.tasks
            && Coherent(r', r'.tasks[e.a].pc)
            && r'.tasks == r.tasks[e.a := r'.tasks[e.a]]
            && Owned(r'.tasks[e.a].pc) == (if e.a in r.tasks then Owned(r.tasks[e.a].pc) else None)
  {
    if e.Resume? {
      QuietResume(cfg, now, r, e.a);
    }
  }

  lemma QuietResume(cfg: Config, now: int, r: Replica, a: Task)
    requires Enabled(now, r, Resume(a)) && Quiet(r, Resume(a)) && Coherent(r, r.tasks[a].pc)
    ensures var r' := OnResume(cfg, now, r, a);
            && r'.held == r.held && r'.orphans == r.orphans && r'.cleared == r.cleared
            && a in r'.tasks && Coherent(r', r'.tasks[a].pc)
            && r'.tasks == r.tasks[a := r'.tasks[a]]
            && Owned(r'.tasks[a].pc) == Owned(r.tasks[a].pc)
  {
  }

  lemma QuietStep(cfg: Config, now: int, r: Replica, e: Event)
    requires OwnInv(r) && Enabled(now, r, e) && Quiet(r, e)
    ensures OwnInv(Step(cfg, now, r, e))
  {
    QuietEffect(cfg, now, r, e);
    SameOwners(r, Step(cfg, now, r, e));
  }

  /** In every run of one worker, whatever the store answers: a pod the watchdog has not taken
      is in `held` exactly when it has an owner (a task, or nobody any more: an orphan), and it
      never has two. In particular no two jobs ever use the same pod. */
  lemma {:induction false} RunsKeepOwnership(cfg: Config, ms: seq<Moment>, vs: seq<Move>, k: nat)
    requires IsRun(cfg, ms, vs) && k < |ms|
    ensures OwnInv(ms[k].r)
  {
    if k > 0 {
      RunsKeepOwnership(cfg, ms, vs, k - 1);
      if vs[k - 1].Do? {
        StepKeepsOwnership(cfg, ms[k - 1].now, ms[k - 1].r, vs[k - 1].e);
      }
    }
  }

  predicate Uses(r: Replica, a: Task, p: Pod) {
    a in r.tasks && r.tasks[a].pc.Holding? && r.tasks[a].pc.g.pod == p
  }

  lemma HeldIsOwned(cfg: Config, ms: seq<Moment>, vs: seq<Move>, k: nat, p: Pod)
    requires IsRun(cfg, ms, vs) && k < |ms| && p !in ms[k].r.cleared
    ensures p in ms[k].r.held <==> p in ms[k].r.orphans || exists a :: Owns(ms[k].r, a, p)
    ensures p in ms[k].r.orphans ==> forall a :: !Owns(ms[k].r, a, p)
    ensures forall a, b :: Owns(ms[k].r, a, p) && Owns(ms[k].r, b, p) ==> a == b
    ensures forall a, b :: Uses(ms[k].r, a, p) && Uses(ms[k].r, b, p) ==> a == b
  {
    RunsKeepOwnership(cfg, ms, vs, k);
    assert forall a :: Uses(ms[k].r, a, p) ==> Owns(ms[k].r, a, p);
  }
}
