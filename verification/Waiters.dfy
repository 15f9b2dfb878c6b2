/** The queue. In every run: outcomes are final, and every waiter is in exactly one place as long as
    each retry after a failed hand-off finds its own waiter at the head, and not beyond. */
module Waiters {
  import opened Common
  import opened Leases
  import opened Replica
  import opened Ownership
  import opened Accounting

  /** The waiter a task has shifted out of the queue and is handing its pod to. */
  function Target(pc: PC): Option<Task> {
    match pc
    case HandPut(_, w, _) => Some(w)
    case HandLost(_, w) => Some(w)
    case HandWon(_, w, _) => Some(w)
    case _ => None
  }

  predicate Offers(r: Replica, a: Task, w: Task) {
    a in r.tasks && Target(r.tasks[a].pc) == Some(w)
  }

  predicate IsWaiting(r: Replica, w: Task) {
    w in r.tasks && r.tasks[w].pc.Waiting?
  }

  /** A waiting task is queued once, or is the target of one hand-off, and never both. */
  ghost predicate QueueInv(r: Replica) {
    && NoDuplicates(r.waiters)
    && (forall w :: w in r.waiters ==> IsWaiting(r, w))
    && (forall a, w :: Offers(r, a, w) ==> IsWaiting(r, w) && w !in r.waiters)
    && (forall a, b, w :: Offers(r, a, w) && Offers(r, b, w) ==> a == b)
    && (forall w :: IsWaiting(r, w) ==> w in r.waiters || exists a :: Offers(r, a, w))
    && r.orphans == {}
  }

  predicate WinsRetry(r: Replica, e: Event) {
    e.Resume? && e.a in r.tasks && r.tasks[e.a].pc.TryWon? && r.tasks[e.a].pc.who.ForWaiter?
  }

  /** The guard the code does not have: when the retry after a failed hand-off has won a pod and
      shifts the queue, the waiter it shifts is the one it has won the pod for. */
  predicate RetryFindsItsWaiter(r: Replica, e: Event) {
    WinsRetry(r, e) ==> r.waiters != [] && r.waiters[0] == r.tasks[e.a].pc.who.w
  }

  /** A move that concerns neither the queue nor a hand-off. */
  lemma QuietKeeps(r: Replica, a: Task, t: TaskState, r': Replica)
    requires QueueInv(r) && !t.pc.Waiting? && !IsWaiting(r, a)
    requires r'.waiters == r.waiters && r'.orphans == r.orphans && r'.tasks == r.tasks[a := t]
    requires Target(t.pc) == if a in r.tasks then Target(r.tasks[a].pc) else None
    ensures QueueInv(r')
  {
    assert forall b, w :: Offers(r', b, w) <==> Offers(r, b, w);
    assert forall w :: IsWaiting(r', w) <==> IsWaiting(r, w);
    forall w | IsWaiting(r', w) && w !in r'.waiters ensures exists b :: Offers(r', b, w) {
      var b :| Offers(r, b, w);
      assert Offers(r', b, w);
    }
  }

  lemma EnqueueKeeps(r: Replica, a: Task, t: TaskState, r': Replica)
    requires QueueInv(r) && a in r.tasks && r.tasks[a].pc.Missed? && t.pc.Waiting?
    requires r'.waiters == r.waiters + [a] && r'.orphans == r.orphans && r'.tasks == r.tasks[a := t]
    ensures QueueInv(r')
  {
    assert !IsWaiting(r, a);
    assert forall b, w :: Offers(r', b, w) <==> Offers(r, b, w);
    assert forall w :: IsWaiting(r', w) <==> IsWaiting(r, w) || w == a;
    forall w | IsWaiting(r', w) && w !in r'.waiters ensures exists b :: Offers(r', b, w) {
      var b :| Offers(r, b, w);
      assert Offers(r', b, w);
    }
  }

  lemma ShiftKeeps(r: Replica, a: Task, pc: PC, r': Replica)
    requires QueueInv(r) && a in r.tasks && r.tasks[a].pc.Cleared? && r.waiters != []
    requires pc.HandPut? && pc.w == r.waiters[0]
    requires r'.waiters == r.waiters[1..] && r'.orphans == r.orphans && r'.tasks == Goto(r, a, pc).tasks
    ensures QueueInv(r')
  {
    var w0 := r.waiters[0];
    assert w0 in r.waiters;
    assert forall b, w :: Offers(r', b, w) <==> (b == a && w == w0) || (b != a && Offers(r, b, w));
    assert forall w :: IsWaiting(r', w) <==> IsWaiting(r, w);
    assert forall w :: w in r.waiters <==> w == w0 || w in r'.waiters;
    forall w | IsWaiting(r', w) && w !in r'.waiters ensures exists b :: Offers(r', b, w) {
      if w == w0 {
        assert Offers(r', a, w);
      } else {
        var b :| Offers(r, b, w);
        assert Offers(r', b, w);
      }
    }
  }

  lemma DeliverKeeps(r: Replica, a: Task, pc: PC, w0: Task, g: Grant, r': Replica)
    requires QueueInv(r) && a in r.tasks && r.tasks[a].pc.HandWon? && r.tasks[a].pc.w == w0
    requires Target(pc).None? && !pc.Waiting?
    requires r'.waiters == r.waiters && r'.orphans == Resolve(Goto(r, a, pc), w0, g).orphans
        && r'.tasks == Resolve(Goto(r, a, pc), w0, g).tasks
    ensures QueueInv(r')
  {
    assert Offers(r, a, w0);
    assert IsWaiting(r, w0) && w0 != a;
    assert forall b, w :: Offers(r', b, w) <==> b != a && Offers(r, b, w);
    assert forall w :: IsWaiting(r', w) <==> IsWaiting(r, w) && w != w0;
    forall w | IsWaiting(r', w) && w !in r'.waiters ensures exists b :: Offers(r', b, w) {
      var b :| Offers(r, b, w);
      assert Offers(r', b, w);
    }
  }

  /** A failed hand-off: its waiter goes back to the head of the queue. */
  lemma ReturnKeeps(r: Replica, a: Task, t: TaskState, r': Replica)
    requires QueueInv(r) && a in r.tasks && r.tasks[a].pc.HandLost? && Target(t.pc).None? && !t.pc.Waiting?
    requires r'.waiters == [r.tasks[a].pc.w] + r.waiters && r'.orphans == r.orphans && r'.tasks == r.tasks[a := t]
    ensures QueueInv(r')
  {
    var w0 := r.tasks[a].pc.w;
    assert Offers(r, a, w0);
    assert IsWaiting(r, w0) && w0 != a;
    assert forall b, w :: Offers(r', b, w) <==> b != a && Offers(r, b, w);
    assert forall w :: IsWaiting(r', w) <==> IsWaiting(r, w);
    assert forall w :: w in r'.waiters <==> w == w0 || w in r.waiters;
    forall w | IsWaiting(r', w) && w !in r'.waiters ensures exists b :: Offers(r', b, w) {
      var b :| Offers(r, b, w);
      assert Offers(r', b, w);
    }
  }

  /** A retry that finds its own waiter at the head. */
  lemma RetryKeeps(r: Replica, a: Task, pc: PC, w0: Task, g: Grant, r': Replica)
    requires QueueInv(r) && a in r.tasks && r.tasks[a].pc.TryWon? && r.waiters != [] && r.waiters[0] == w0
    requires Target(pc).None? && !pc.Waiting?
    requires r'.waiters == r.waiters[1..]
    requires r'.orphans == Resolve(Goto(r, a, pc), w0, g).orphans && r'.tasks == Resolve(Goto(r, a, pc), w0, g).tasks
    ensures QueueInv(r')
  {
    assert w0 in r.waiters;
    assert IsWaiting(r, w0) && w0 != a;
    assert forall b, w :: Offers(r', b, w) <==> Offers(r, b, w);
    assert forall w :: IsWaiting(r', w) <==> IsWaiting(r, w) && w != w0;
    assert forall w :: w in r.waiters <==> w == w0 || w in r'.waiters;
    forall w | IsWaiting(r', w) && w !in r'.waiters ensures exists b :: Offers(r', b, w) {
      var b :| Offers(r, b, w);
      assert Offers(r', b, w);
    }
  }

  lemma TimerKeeps(r: Replica, a: Task)
    requires QueueInv(r) && a in r.tasks
    ensures QueueInv(OnTimer(r, a))
  {
    var r' := OnTimer(r, a);
    RemoveFirstFacts(r.waiters, a);
    assert forall b, w :: Offers(r', b, w) <==> Offers(r, b, w);
    assert forall w :: IsWaiting(r', w) <==> IsWaiting(r, w) && (w != a || a !in r.waiters);
    forall w | IsWaiting(r', w) && w !in r'.waiters ensures exists b :: Offers(r', b, w) {
      var b :| Offers(r, b, w);
      assert Offers(r', b, w);
    }
  }

  lemma StepKeepsQueue(cfg: Config, now: int, r: Replica, e: Event)
    requires QueueInv(r) && Enabled(now, r, e) && RetryFindsItsWaiter(r, e)
    ensures QueueInv(Step(cfg, now, r, e))
  {
    var a := e.a;
    if e.TimerFires? {
      TimerKeeps(r, a);
    } else if e.Resume? && MovesQueue(r, r.tasks[a].pc) {
      QueueMoveKeeps(cfg, now, r, a);
    } else {
      var r' := Step(cfg, now, r, e);
      QuietMove(cfg, now, r, e);
      QuietKeeps(r, a, r'.tasks[a], r');
    }
  }

  /** Where a task resumes into code that pushes, shifts or unshifts, or resolves a waiter. */
  predicate MovesQueue(r: Replica, pc: PC) {
    pc.Missed? || pc.HandWon? || pc.HandLost? || (pc.TryWon? && pc.who.ForWaiter?) || (pc.Cleared? && r.waiters != [])
  }

  lemma QueueMoveKeeps(cfg: Config, now: int, r: Replica, a: Task)
    requires QueueInv(r) && Enabled(now, r, Resume(a)) && RetryFindsItsWaiter(r, Resume(a))
        && MovesQueue(r, r.tasks[a].pc)
    ensures QueueInv(OnResume(cfg, now, r, a))
  {
    match r.tasks[a].pc
    case HandLost(c, w) => HandLostKeeps(cfg, now, r, a);
    case TryWon(i, p, who, g) => RetryKeeps(r, a, Notifying(who.fin), who.w, g, OnResume(cfg, now, r, a));
    case HandWon(c, w, g) =>
      DeliverKeeps(r, a, if c.Zombie? then Finished else Notifying(c.fin), w, g, OnResume(cfg, now, r, a));
    case Missed =>
      var r' := OnResume(cfg, now, r, a);
      EnqueueKeeps(r, a, r'.tasks[a], r');
    case Cleared(_) =>
      var r' := OnResume(cfg, now, r, a);
      ShiftKeeps(r, a, r'.tasks[a].pc, r');
  }

  lemma HandLostKeeps(cfg: Config, now: int, r: Replica, a: Task)
    requires QueueInv(r) && Enabled(now, r, Resume(a)) && r.tasks[a].pc.HandLost?
    ensures QueueInv(OnResume(cfg, now, r, a))
  {
    var r' := OnResume(cfg, now, r, a);
    ReturnKeeps(r, a, r'.tasks[a], r');
  }

  lemma QuietMove(cfg: Config, now: int, r: Replica, e: Event)
    requires Enabled(now, r, e) && !e.TimerFires?
    requires e.Resume? ==> !MovesQueue(r, r.tasks[e.a].pc)
    ensures var r' := Step(cfg, now, r, e);
            && e.a in r'.tasks && !r'.tasks[e.a].pc.Waiting? && !IsWaiting(r, e.a)
            && r'.waiters == r.waiters && r'.orphans == r.orphans && r'.tasks == r.tasks[e.a := r'.tasks[e.a]]
            && Target(r'.tasks[e.a].pc) == (if e.a in r.tasks then Target(r.tasks[e.a].pc) else None)
            && r'.arrivals == r.arrivals && r'.served == r.served && r'.left == r.left
            && r'.timedOut == r.timedOut && r'.removed == r.removed
            && (e.a in r.tasks ==>
                  r'.tasks[e.a].timer == r.tasks[e.a].timer && r'.tasks[e.a].enqueueTime == r.tasks[e.a].enqueueTime)
  {
  }

  /** ... and a retry that does not find its waiter there loses one: the waiter it shifts out
      instead, or its own, which another task is handing a pod to or which is no longer waiting. */
  lemma BlindRetryBreaksQueue(cfg: Config, now: int, r: Replica, e: Event)
    requires QueueInv(r) && Enabled(now, r, e) && !RetryFindsItsWaiter(r, e)
    ensures !QueueInv(Step(cfg, now, r, e))
  {
    var a, r' := e.a, Step(cfg, now, r, e);
    var w := r.tasks[a].pc.who.w;
    if r.waiters != [] {
      var v := r.waiters[0];
      assert v in r.waiters;
      assert IsWaiting(r, v) && IsWaiting(r', v);
      assert forall b :: Offers(r', b, v) ==> Offers(r, b, v);
      assert v !in r'.waiters;
    } else if IsWaiting(r, w) {
      var b :| Offers(r, b, w);
      assert Offers(r', b, w) && !IsWaiting(r', w);
    }
  }

  // ----- every run: outcomes

  /** Past the queue: a task that was queued never scans for itself or queues again. */
  predicate BeyondQueue(pc: PC) {
    match pc
    case TryRead(_, _, who) => who.ForWaiter?
    case TryGot(_, _, who, _) => who.ForWaiter?
    case TryPut(_, _, who, _, _) => who.ForWaiter?
    case TryLost(_, _, who) => who.ForWaiter?
    case TryWon(_, _, who, _) => who.ForWaiter?
    case Missed => false
    case DogRead(_) => false
    case DogGot(_, _) => false
    case _ => true
  }

  predicate SettledOnce(r: Replica, j: Task)
    requires j in r.tasks
  {
    var t := r.tasks[j];
    if j in r.timedOut then !t.pc.Waiting? && t.delivered == []
    else t.delivered == [] <==> t.pc.Waiting?
  }

  /** Nobody queues twice, and the promise of whoever queued is open, resolved or rejected. */
  ghost predicate SettledInv(r: Replica) {
    && NoDuplicates(r.arrivals)
    && (forall j :: j in r.timedOut ==> j in r.arrivals)
    && (forall j :: IsWaiting(r, j) ==> j in r.arrivals)
    && (forall j :: j in r.arrivals ==> j in r.tasks && BeyondQueue(r.tasks[j].pc) && SettledOnce(r, j))
  }

  /** The task that moves: it enters the queue once, or its promise is as open as it was. */
  lemma MoverSettled(cfg: Config, now: int, r: Replica, e: Event)
    requires Enabled(now, r, e) && !e.TimerFires? && e.a in r.tasks
    requires e.Resume? ==> !r.tasks[e.a].pc.Missed?
    ensures var r' := Step(cfg, now, r, e);
            && r'.arrivals == r.arrivals && r'.timedOut == r.timedOut && e.a in r'.tasks
            && !r.tasks[e.a].pc.Waiting? && !r'.tasks[e.a].pc.Waiting?
            && (BeyondQueue(r.tasks[e.a].pc) ==>
                  BeyondQueue(r'.tasks[e.a].pc) && r'.tasks[e.a].delivered == r.tasks[e.a].delivered)
  {
  }

  lemma OtherSettled(cfg: Config, now: int, r: Replica, e: Event, j: Task)
    requires SettledInv(r) && Enabled(now, r, e) && j in r.arrivals && j != e.a
    requires Step(cfg, now, r, e).timedOut - {e.a} == r.timedOut - {e.a}
    ensures var r' := Step(cfg, now, r, e); j in r'.tasks && BeyondQueue(r'.tasks[j].pc) && SettledOnce(r', j)
  {
    Frame(cfg, now, r, e, j);
    assert SettledOnce(r, j);
    assert j in Step(cfg, now, r, e).timedOut <==> j in r.timedOut by {
      assert j in Step(cfg, now, r, e).timedOut <==> j in Step(cfg, now, r, e).timedOut - {e.a};
      assert j in r.timedOut <==> j in r.timedOut - {e.a};
    }
  }

  lemma NobodyElseWaits(cfg: Config, now: int, r: Replica, e: Event)
    requires Enabled(now, r, e)
    ensures forall j :: j != e.a && IsWaiting(Step(cfg, now, r, e), j) ==> IsWaiting(r, j)
  {
    forall j | j != e.a && IsWaiting(Step(cfg, now, r, e), j) ensures IsWaiting(r, j) {
      Frame(cfg, now, r, e, j);
    }
  }

  lemma EnqueueSettles(cfg: Config, now: int, r: Replica, a: Task)
    requires SettledInv(r) && BooksInv(r) && Enabled(now, r, Resume(a)) && r.tasks[a].pc.Missed?
    ensures SettledInv(OnResume(cfg, now, r, a))
  {
    var r' := OnResume(cfg, now, r, a);
    assert a !in r.arrivals;
    assert TaskOk(r.tasks[a]);
    NobodyElseWaits(cfg, now, r, Resume(a));
    forall j | j in r'.arrivals ensures j in r'.tasks && BeyondQueue(r'.tasks[j].pc) && SettledOnce(r', j) {
      if j != a { OtherSettled(cfg, now, r, Resume(a), j); }
    }
  }

  lemma TimerSettles(cfg: Config, now: int, r: Replica, a: Task)
    requires SettledInv(r) && BooksInv(r) && Enabled(now, r, TimerFires(a))
    ensures SettledInv(OnTimer(r, a))
  {
    var r' := OnTimer(r, a);
    assert TaskOk(r.tasks[a]);
    NobodyElseWaits(cfg, now, r, TimerFires(a));
    assert Step(cfg, now, r, TimerFires(a)) == r';
    forall j | j in r'.arrivals ensures j in r'.tasks && BeyondQueue(r'.tasks[j].pc) && SettledOnce(r', j) {
      if j != a {
        OtherSettled(cfg, now, r, TimerFires(a), j);
      } else {
        assert SettledOnce(r, j);
      }
    }
  }

  lemma StepKeepsSettled(cfg: Config, now: int, r: Replica, e: Event)
    requires SettledInv(r) && BooksInv(r) && Enabled(now, r, e)
    ensures SettledInv(Step(cfg, now, r, e))
  {
    if e.TimerFires? {
      TimerSettles(cfg, now, r, e.a);
    } else if e.Resume? && r.tasks[e.a].pc.Missed? {
      EnqueueSettles(cfg, now, r, e.a);
    } else if e.a in r.tasks {
      var r' := Step(cfg, now, r, e);
      MoverSettled(cfg, now, r, e);
      NobodyElseWaits(cfg, now, r, e);
      forall j | j in r'.arrivals ensures j in r'.tasks && BeyondQueue(r'.tasks[j].pc) && SettledOnce(r', j) {
        if j != e.a {
          OtherSettled(cfg, now, r, e, j);
        } else {
          assert SettledOnce(r, j);
        }
      }
    } else {
      StartSettles(cfg, now, r, e);
    }
  }

  lemma StartSettles(cfg: Config, now: int, r: Replica, e: Event)
    requires SettledInv(r) && Enabled(now, r, e) && e.a !in r.tasks
    ensures SettledInv(Step(cfg, now, r, e))
  {
    var r' := Step(cfg, now, r, e);
    NobodyElseWaits(cfg, now, r, e);
    assert !IsWaiting(r', e.a);
    forall j | j in r'.arrivals ensures j in r'.tasks && BeyondQueue(r'.tasks[j].pc) && SettledOnce(r', j) {
      OtherSettled(cfg, now, r, e, j);
    }
  }

  lemma {:induction false} RunsKeepSettled(cfg: Config, ms: seq<Moment>, vs: seq<Move>, k: nat)
    requires IsRun(cfg, ms, vs) && k < |ms|
    ensures SettledInv(ms[k].r) && BooksInv(ms[k].r)
  {
    RunsKeepBooks(cfg, ms, vs, k);
    if k > 0 {
      RunsKeepSettled(cfg, ms, vs, k - 1);
      if vs[k - 1].Do? {
        StepKeepsSettled(cfg, ms[k - 1].now, ms[k - 1].r, vs[k - 1].e);
      }
    }
  }

  // ----- every run: conservation, and its exact condition

  /** `j` is queued, the target of a hand-off, resolved with its one pod, or rejected by its timer. */
  ghost predicate InOnePlace(r: Replica, j: Task)
    requires j in r.tasks
  {
    var queued, offered, resolved, rejected :=
      j in r.waiters, exists a :: Offers(r, a, j), |r.tasks[j].delivered| == 1, j in r.timedOut;
    && (queued || offered || resolved || rejected)
    && !(queued && offered) && !(queued && resolved) && !(queued && rejected)
    && !(offered && resolved) && !(offered && rejected) && !(resolved && rejected)
    && (forall a, b :: Offers(r, a, j) && Offers(r, b, j) ==> a == b)
  }

  /** Nothing is lost: everybody who queued is in exactly one place, nobody else is in the queue or
      handed a pod, and no pod was won for a waiter that was settled before. */
  ghost predicate Conserved(r: Replica) {
    && NoDuplicates(r.waiters) && r.orphans == {}
    && (forall j :: j in r.arrivals ==> j in r.tasks && InOnePlace(r, j))
    && (forall j :: j in r.waiters ==> j in r.arrivals)
    && (forall a, j :: Offers(r, a, j) ==> j in r.arrivals)
  }

  lemma QueueInvConserves(r: Replica)
    requires QueueInv(r) && SettledInv(r) && BooksInv(r)
    ensures Conserved(r)
  {
    forall j | j in r.arrivals ensures j in r.tasks && InOnePlace(r, j) {
      assert TaskOk(r.tasks[j]) && SettledOnce(r, j);
      if j in r.waiters { assert IsWaiting(r, j); }
    }
    assert forall j :: j in r.waiters ==> IsWaiting(r, j);
  }

  lemma ConservedIsQueueInv(r: Replica)
    requires Conserved(r) && SettledInv(r) && BooksInv(r)
    ensures QueueInv(r)
  {
    forall j | j in r.arrivals
      ensures IsWaiting(r, j) <==> j in r.waiters || exists a :: Offers(r, a, j)
    {
      assert TaskOk(r.tasks[j]) && SettledOnce(r, j) && InOnePlace(r, j);
    }
    forall a, w | Offers(r, a, w) ensures IsWaiting(r, w) && w !in r.waiters {
      assert InOnePlace(r, w);
    }
    forall a, b, w | Offers(r, a, w) && Offers(r, b, w) ensures a == b {
      assert InOnePlace(r, w);
    }
  }

  /** Retries find their waiters up to moment `n`. */
  ghost predicate RetriesInOrder(ms: seq<Moment>, vs: seq<Move>, n: nat) {
    n < |ms| == |vs| + 1 && forall k :: 0 <= k < n && vs[k].Do? ==> RetryFindsItsWaiter(ms[k].r, vs[k].e)
  }

  lemma {:induction false} RetriesKeepQueue(cfg: Config, ms: seq<Moment>, vs: seq<Move>, n: nat)
    requires IsRun(cfg, ms, vs) && RetriesInOrder(ms, vs, n)
    ensures QueueInv(ms[n].r)
  {
    if n > 0 {
      RetriesKeepQueue(cfg, ms, vs, n - 1);
      if vs[n - 1].Do? {
        StepKeepsQueue(cfg, ms[n - 1].now, ms[n - 1].r, vs[n - 1].e);
      }
    }
  }

  /** The exact condition of conservation: it holds up to any moment of any run if and only if until
      then every retry that wins a pod finds its own waiter at the head of the queue. */
  lemma ConservationIsExact(cfg: Config, ms: seq<Moment>, vs: seq<Move>, n: nat)
    requires IsRun(cfg, ms, vs) && n < |ms|
    ensures (forall k :: 0 <= k <= n ==> Conserved(ms[k].r)) <==> RetriesInOrder(ms, vs, n)
  {
    if RetriesInOrder(ms, vs, n) {
      forall k | 0 <= k <= n ensures Conserved(ms[k].r) {
        RetriesKeepQueue(cfg, ms, vs, k);
        RunsKeepSettled(cfg, ms, vs, k);
        QueueInvConserves(ms[k].r);
      }
    }
    if forall k :: 0 <= k <= n ==> Conserved(ms[k].r) {
      forall k | 0 <= k < n && vs[k].Do? ensures RetryFindsItsWaiter(ms[k].r, vs[k].e) {
        OrderlyStep(cfg, ms, vs, k);
      }
    }
  }

  lemma OrderlyStep(cfg: Config, ms: seq<Moment>, vs: seq<Move>, k: nat)
    requires IsRun(cfg, ms, vs) && k < |vs| && vs[k].Do? && Conserved(ms[k].r) && Conserved(ms[k + 1].r)
    ensures RetryFindsItsWaiter(ms[k].r, vs[k].e)
  {
    RunsKeepSettled(cfg, ms, vs, k);
    RunsKeepSettled(cfg, ms, vs, k + 1);
    ConservedIsQueueInv(ms[k].r);
    ConservedIsQueueInv(ms[k + 1].r);
    if !RetryFindsItsWaiter(ms[k].r, vs[k].e) {
      BlindRetryBreaksQueue(cfg, ms[k].now, ms[k].r, vs[k].e);
    }
  }

  /** So everybody who queued is in exactly one place. */
  lemma WaiterIsInOnePlace(cfg: Config, ms: seq<Moment>, vs: seq<Move>, k: nat, j: Task)
    requires IsRun(cfg, ms, vs) && RetriesInOrder(ms, vs, k) && j in ms[k].r.arrivals
    ensures j in ms[k].r.tasks && InOnePlace(ms[k].r, j)
  {
    ConservationIsExact(cfg, ms, vs, k);
    assert Conserved(ms[k].r);
  }

  // ----- what a retry out of order leaves behind, for ever

  /** A task that hands a pod to `j`, or looks for one on its behalf. */
  predicate ActsFor(pc: PC, j: Task) {
    match pc
    case TryRead(_, _, who) => who.ForWaiter? && who.w == j
    case TryGot(_, _, who, _) => who.ForWaiter? && who.w == j
    case TryPut(_, _, who, _, _) => who.ForWaiter? && who.w == j
    case TryLost(_, _, who) => who.ForWaiter? && who.w == j
    case TryWon(_, _, who, _) => who.ForWaiter? && who.w == j
    case _ => Target(pc) == Some(j)
  }

  /** A waiter nobody knows of any more. */
  ghost predicate Forgotten(r: Replica, j: Task) {
    IsWaiting(r, j) && j !in r.waiters && forall a :: a in r.tasks ==> !ActsFor(r.tasks[a].pc, j)
  }

  lemma MoverIgnores(cfg: Config, now: int, r: Replica, e: Event, j: Task)
    requires Enabled(now, r, e) && j !in r.waiters && !e.TimerFires? && e.a != j
    requires e.a in r.tasks ==> !ActsFor(r.tasks[e.a].pc, j)
    ensures var r' := Step(cfg, now, r, e);
            && e.a in r'.tasks && !ActsFor(r'.tasks[e.a].pc, j) && j !in r'.waiters
            && (e.Resume? && Serving(r.tasks[e.a].pc).Some? ==> Serving(r.tasks[e.a].pc).value.0 != j)
  {
    if e.Resume? {
      ResumedIgnores(cfg, now, r, e.a, j);
    }
  }

  lemma ResumedIgnores(cfg: Config, now: int, r: Replica, a: Task, j: Task)
    requires Enabled(now, r, Resume(a)) && j !in r.waiters && a != j && !ActsFor(r.tasks[a].pc, j)
    ensures var r' := OnResume(cfg, now, r, a);
            && a in r'.tasks && !ActsFor(r'.tasks[a].pc, j) && j !in r'.waiters
            && (Serving(r.tasks[a].pc).Some? ==> Serving(r.tasks[a].pc).value.0 != j)
  {
  }

  lemma TimerIgnores(r: Replica, a: Task, j: Task)
    requires a in r.tasks && Forgotten(r, j)
    ensures Forgotten(OnTimer(r, a), j)
  {
    RemoveFirstMembers(r.waiters, a);
  }

  lemma StaysForgotten(cfg: Config, now: int, r: Replica, e: Event, j: Task)
    requires Enabled(now, r, e) && Forgotten(r, j)
    ensures Forgotten(Step(cfg, now, r, e), j)
  {
    if e.TimerFires? {
      TimerIgnores(r, e.a, j);
    } else {
      var r' := Step(cfg, now, r, e);
      MoverIgnores(cfg, now, r, e, j);
      Frame(cfg, now, r, e, j);
      forall b | b in r'.tasks ensures !ActsFor(r'.tasks[b].pc, j) {
        if b != e.a { Frame(cfg, now, r, e, b); }
      }
    }
  }

  /** A forgotten waiter stays so: no continuation of the run resolves or rejects it. */
  lemma {:induction false} ForgottenForEver(cfg: Config, ms: seq<Moment>, vs: seq<Move>, k: nat, n: nat, j: Task)
    requires IsRun(cfg, ms, vs) && k <= n < |ms| && Forgotten(ms[k].r, j)
    ensures Forgotten(ms[n].r, j)
  {
    if k < n {
      ForgottenForEver(cfg, ms, vs, k, n - 1, j);
      if vs[n - 1].Do? {
        StaysForgotten(cfg, ms[n - 1].now, ms[n - 1].r, vs[n - 1].e, j);
      }
    }
  }

  /** A retry that finds another waiter at the head forgets that one, unless somebody else happens
      to be looking for a pod on its behalf. */
  lemma BlindRetryForgets(cfg: Config, now: int, r: Replica, e: Event)
    requires QueueInv(r) && Enabled(now, r, e) && !RetryFindsItsWaiter(r, e) && r.waiters != []
    requires forall a :: a in r.tasks ==> !ActsFor(r.tasks[a].pc, r.waiters[0])
    ensures Forgotten(Step(cfg, now, r, e), r.waiters[0])
  {
    var v, r' := r.waiters[0], Step(cfg, now, r, e);
    assert v in r.waiters && IsWaiting(r, v);
    forall b | b in r'.tasks ensures !ActsFor(r'.tasks[b].pc, v) {
      if b != e.a { Frame(cfg, now, r, e, b); }
    }
  }

  /** A pod won for a waiter that was settled before stays reserved for nobody, until a watchdog of
      the same worker clears its lease. */
  lemma OrphanStaysReserved(cfg: Config, ms: seq<Moment>, vs: seq<Move>, k: nat, n: nat, p: Pod)
    requires IsRun(cfg, ms, vs) && k <= n < |ms| && p in ms[k].r.orphans && p !in ms[n].r.cleared
    ensures p in ms[n].r.orphans && p in ms[n].r.held && forall a :: !Owns(ms[n].r, a, p)
  {
    OrphansStay(cfg, ms, vs, k, n, p);
    HeldIsOwned(cfg, ms, vs, n, p);
  }

  lemma {:induction false} OrphansStay(cfg: Config, ms: seq<Moment>, vs: seq<Move>, k: nat, n: nat, p: Pod)
    requires IsRun(cfg, ms, vs) && k <= n < |ms| && p in ms[k].r.orphans
    ensures p in ms[n].r.orphans
  {
    if k < n {
      OrphansStay(cfg, ms, vs, k, n - 1, p);
      OrphansGrow(cfg, ms[n - 1], vs[n - 1]);
    }
  }

  lemma OrphansGrow(cfg: Config, m: Moment, v: Move)
    requires CanMove(m, v)
    ensures m.r.orphans <= Moved(cfg, m, v).r.orphans
  {
  }

  // ----- every run: the end

  predicate AllOver(r: Replica) {
    forall a :: a in r.tasks ==> r.tasks[a].pc.Acking? || r.tasks[a].pc.Finished?
  }

  /** In every run, without watchdog clears, once all jobs are over the pods still reserved are
      exactly those won for a waiter that was settled before. */
  lemma QuiescentHoldsOrphansOnly(cfg: Config, ms: seq<Moment>, vs: seq<Move>, k: nat)
    requires IsRun(cfg, ms, vs) && k < |ms| && ms[k].r.cleared == {} && AllOver(ms[k].r)
    ensures ms[k].r.held == ms[k].r.orphans
    ensures forall a :: a in ms[k].r.tasks ==> ms[k].r.tasks[a].released == ms[k].r.tasks[a].delivered
  {
    var r := ms[k].r;
    forall p ensures p in r.held <==> p in r.orphans {
      HeldIsOwned(cfg, ms, vs, k, p);
      assert forall a :: !Owns(r, a, p);
    }
    RunsKeepBooks(cfg, ms, vs, k);
    forall a | a in r.tasks ensures r.tasks[a].released == r.tasks[a].delivered {
      assert TaskOk(r.tasks[a]);
    }
  }

  /** Nothing leaks while retries find their waiters: then no pod is reserved and nobody is queued. */
  lemma QuiescentRunLeaksNothing(cfg: Config, ms: seq<Moment>, vs: seq<Move>, k: nat)
    requires IsRun(cfg, ms, vs) && RetriesInOrder(ms, vs, k) && ms[k].r.cleared == {} && AllOver(ms[k].r)
    ensures ms[k].r.held == {} && ms[k].r.waiters == []
    ensures forall a :: a in ms[k].r.tasks ==> ms[k].r.tasks[a].released == ms[k].r.tasks[a].delivered
  {
    var r := ms[k].r;
    assert r.waiters == [] || r.waiters[0] in r.waiters;
    QuiescentHoldsOrphansOnly(cfg, ms, vs, k);
    RetriesKeepQueue(cfg, ms, vs, k);
    assert forall w :: !IsWaiting(r, w);
  }

  // ----- every run: final states

  /** What has happened to a waiter in `r` still holds in `r'`. */
  predicate Stands(r: Replica, r': Replica) {
    && r.timedOut <= r'.timedOut && r.served <= r'.served && r.arrivals <= r'.arrivals
    && (forall j :: j in r.tasks ==> j in r'.tasks && DeliveryStands(r.tasks[j], r'.tasks[j]))
  }

  predicate DeliveryStands(t: TaskState, t': TaskState) {
    t.delivered != [] ==> t'.delivered == t.delivered
  }

  lemma MoveStands(cfg: Config, ms: seq<Moment>, vs: seq<Move>, n: nat)
    requires IsRun(cfg, ms, vs) && n < |vs|
    ensures Stands(ms[n].r, ms[n + 1].r)
  {
    var m, v := ms[n], vs[n];
    assert CanMove(m, v) && ms[n + 1] == Moved(cfg, m, v);
    if v.Do? {
      RunsKeepBooks(cfg, ms, vs, n);
      StepStands(cfg, m.now, m.r, v.e);
    }
  }

  lemma StepStands(cfg: Config, now: int, r: Replica, e: Event)
    requires BooksInv(r) && Enabled(now, r, e)
    ensures Stands(r, Step(cfg, now, r, e))
  {
    HistoryGrows(cfg, now, r, e);
    forall j | j in r.tasks
      ensures j in Step(cfg, now, r, e).tasks && DeliveryStands(r.tasks[j], Step(cfg, now, r, e).tasks[j])
    {
      KeepsDelivered(cfg, now, r, e, j);
    }
  }

  lemma {:induction false} StandsAlong(ms: seq<Moment>, k: nat, n: nat)
    requires k <= n < |ms| && forall i :: k <= i < n ==> Stands(ms[i].r, ms[i + 1].r)
    ensures Stands(ms[k].r, ms[n].r)
  {
    if k < n {
      StandsAlong(ms, k, n - 1);
      assert Stands(ms[n - 1].r, ms[n - 1 + 1].r);
      StandsOn(ms[k].r, ms[n - 1].r, ms[n].r);
    }
  }

  lemma StandsOn(r: Replica, r1: Replica, r2: Replica)
    requires Stands(r, r1) && Stands(r1, r2)
    ensures Stands(r, r2)
  {
  }

  /** Final states are final, whatever fails: a rejected waiter stays rejected and is never given a
      pod, a delivered pod stays the only one, and a waiter once shifted for a hand-off stays in
      that history. */
  lemma OutcomesAreFinal(cfg: Config, ms: seq<Moment>, vs: seq<Move>, k: nat, n: nat)
    requires IsRun(cfg, ms, vs) && k <= n < |ms|
    ensures Stands(ms[k].r, ms[n].r)
    ensures forall j :: j in ms[k].r.timedOut ==> j in ms[n].r.tasks && ms[n].r.tasks[j].delivered == []
  {
    forall i | k <= i < n ensures Stands(ms[i].r, ms[i + 1].r) {
      MoveStands(cfg, ms, vs, i);
    }
    StandsAlong(ms, k, n);
    TimedOutHasNoPod(cfg, ms, vs, n);
  }

  lemma TimedOutHasNoPod(cfg: Config, ms: seq<Moment>, vs: seq<Move>, n: nat)
    requires IsRun(cfg, ms, vs) && n < |ms|
    ensures forall j :: j in ms[n].r.timedOut ==> j in ms[n].r.tasks && ms[n].r.tasks[j].delivered == []
  {
    RunsKeepSettled(cfg, ms, vs, n);
    forall j | j in ms[n].r.timedOut ensures j in ms[n].r.tasks && ms[n].r.tasks[j].delivered == [] {
      assert j in ms[n].r.arrivals && SettledOnce(ms[n].r, j);
    }
  }

  lemma HistoryGrows(cfg: Config, now: int, r: Replica, e: Event)
    requires Enabled(now, r, e)
    ensures var r' := Step(cfg, now, r, e);
            r.timedOut <= r'.timedOut && r.served <= r'.served && r.arrivals <= r'.arrivals
  {
  }

  lemma KeepsDelivered(cfg: Config, now: int, r: Replica, e: Event, j: Task)
    requires BooksInv(r) && Enabled(now, r, e) && j in r.tasks
    ensures j in Step(cfg, now, r, e).tasks
    ensures r.tasks[j].delivered != [] ==> Step(cfg, now, r, e).tasks[j].delivered == r.tasks[j].delivered
  {
    StepKeepsBooks(cfg, now, r, e);
    assert TaskOk(r.tasks[j]);
    if j != e.a {
      Frame(cfg, now, r, e, j);
    } else if r.tasks[j].delivered != [] {
      MoverKeepsDelivered(cfg, now, r, e);
    }
  }

  lemma MoverKeepsDelivered(cfg: Config, now: int, r: Replica, e: Event)
    requires Enabled(now, r, e) && e.a in r.tasks && TaskOk(r.tasks[e.a]) && r.tasks[e.a].delivered != []
    ensures e.a in Step(cfg, now, r, e).tasks && Step(cfg, now, r, e).tasks[e.a].delivered == r.tasks[e.a].delivered
  {
  }
}
