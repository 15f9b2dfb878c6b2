/** One worker over a reliable store: no pod idles while somebody is queued, and nobody overtakes. */
module WorkConservation {
  import opened Common
  import opened Leases
  import opened Replica
  import opened Ownership
  import opened Accounting
  import opened Waiters
  import opened QueueOrder
  import opened HandOffOrder
  import opened LeaseSystem
  import opened SingleWorker

  /** The store answers every call, and refuses a write only for its version. */
  predicate Reliable(s: Sys, act: Act) {
    act.Perform? && Present(s, act.w, act.e.a) ==>
      var pc := PcOf(s, act.w, act.e.a);
      match act.e
      case ReadServed(_, answer) => answer.Some?
      case PutServed(_, won) =>
        WritePod(pc).Some? && WritePod(pc).value in s.store
        && (Carried(pc).None? || s.store[WritePod(pc).value].version == Carried(pc).value ==>
              act.written.Some? && (!pc.ClearPut? ==> won.Some?))
      case _ => true
  }

  predicate NoZombieCont(pc: PC) {
    ContOf(pc).Some? ==> ContOf(pc).value.Releasing?
  }

  /** The watchdog looks at leases but clears none. */
  ghost predicate WatchdogIdle(s: Sys) {
    forall w, a :: Present(s, w, a) ==> NoZombieCont(PcOf(s, w, a))
  }

  ghost predicate IsReliableRun(cfg: Config, ss: seq<Sys>, acts: seq<Act>, w: nat) {
    && IsSysRun(cfg, ss, acts)
    && (forall k :: 0 <= k < |ss| ==> WatchdogIdle(ss[k]) && ss[k].workers.Keys <= {w})
    && (forall k :: 0 <= k < |acts| ==> !acts[k].Crash? && Reliable(ss[k], acts[k]))
    && (forall p :: p in cfg.pods ==> p in ss[0].store && ss[0].store[p].holder.None?)
  }

  predicate AllReserved(cfg: Config, r: Replica) {
    forall p :: p in cfg.pods ==> p in r.held
  }

  /** What the store keeps for the pod a task answers for, stage by stage. */
  predicate StageOk(cfg: Config, s: Sys, pc: PC) {
    && (Owned(pc).Some? ==> Owned(pc).value in cfg.pods && Owned(pc).value in s.store)
    && match pc {
         case TryRead(_, p, _) => s.store[p].holder.None?
         case TryGot(_, p, _, answer) => answer == Some(s.store[p]) && s.store[p].holder.None?
         case TryPut(_, p, _, version, _) => version == s.store[p].version && s.store[p].holder.None?
         case TryLost(_, _, _) => false
         case ClearGot(Releasing(g, _), answer) => answer == Some(s.store[g.pod])
         case ClearPut(Releasing(g, _), version, _) => version == s.store[g.pod].version
         case Cleared(Releasing(g, _)) => s.store[g.pod].holder.None?
         case _ => true
       }
  }

  /** A pod that is not reserved is free in the store, and every task is at a stage that fits. */
  ghost predicate StoreInv(cfg: Config, s: Sys, w: nat) {
    && (forall p :: p in cfg.pods ==> p in s.store)
    && (w !in s.workers ==> forall p :: p in cfg.pods ==> s.store[p].holder.None?)
    && (w in s.workers ==>
          var r := s.workers[w];
          && (forall p :: p in cfg.pods && p !in r.held ==> s.store[p].holder.None?)
          && (forall a :: a in r.tasks ==> StageOk(cfg, s, r.tasks[a].pc)))
  }

  ghost predicate LocalInv(s: Sys, w: nat) {
    w in s.workers ==>
      var r := s.workers[w];
      && OwnInv(r) && r.cleared == {}
      && QueueInv(r) && DirectInv(r) && FifoInv(r) && QueueSane(r) && SettledInv(r) && BooksInv(r)
  }

  lemma ReliableHandsOver(cfg: Config, s: Sys, act: Act, w: nat)
    requires CanAct(cfg, s, act) && Reliable(s, act) && act.Perform?
    ensures HandOffSucceeds(s.workers[act.w], act.e)
  {
    if act.e.PutServed? {
      assert Present(s, act.w, act.e.a);
    }
  }

  lemma StepKeepsLocal(cfg: Config, s: Sys, act: Act, w: nat)
    requires LocalInv(s, w) && CanAct(cfg, s, act) && Reliable(s, act) && WatchdogIdle(s)
    ensures LocalInv(After(cfg, s, act), w)
  {
    if act.Perform? && act.w == w {
      ReliableHandsOver(cfg, s, act, w);
      StepKeepsOwnership(cfg, s.now, s.workers[w], act.e);
      StepStaysDirect(cfg, s.now, s.workers[w], act.e);
      StepKeepsQueue(cfg, s.now, s.workers[w], act.e);
      StepKeepsFifo(cfg, s.now, s.workers[w], act.e);
      StepKeepsSane(cfg, s.now, s.workers[w], act.e);
      StepKeepsSettled(cfg, s.now, s.workers[w], act.e);
      StepKeepsBooks(cfg, s.now, s.workers[w], act.e);
      IdleStaysClear(cfg, s, act);
    }
  }

  lemma IdleStaysClear(cfg: Config, s: Sys, act: Act)
    requires CanAct(cfg, s, act) && WatchdogIdle(s) && act.Perform?
    ensures Step(cfg, s.now, s.workers[act.w], act.e).cleared == s.workers[act.w].cleared
  {
    assert act.e.a in s.workers[act.w].tasks ==> Present(s, act.w, act.e.a);
  }

  /** The task that moves is fit for its next stage. */
  lemma ResumeStage(cfg: Config, s: Sys, w: nat, a: Task)
    requires w in s.workers && Enabled(s.now, s.workers[w], Resume(a))
    requires var r := s.workers[w]; var pc := r.tasks[a].pc;
             StageOk(cfg, s, pc) && Direct(pc) && NoZombieCont(pc) && Coherent(r, pc)
    requires forall p :: p in cfg.pods ==> p in s.store && (p !in s.workers[w].held ==> s.store[p].holder.None?)
    ensures var r' := OnResume(cfg, s.now, s.workers[w], a);
            a in r'.tasks && StageOk(cfg, s.(workers := s.workers[w := r']), r'.tasks[a].pc)
  {
  }

  lemma StartStage(cfg: Config, s: Sys, w: nat, e: Event)
    requires w in s.workers && Enabled(s.now, s.workers[w], e) && (e.Start? || e.DogStart?)
    requires forall p :: p in cfg.pods ==> p in s.store && (p !in s.workers[w].held ==> s.store[p].holder.None?)
    ensures var r' := Step(cfg, s.now, s.workers[w], e);
            e.a in r'.tasks && StageOk(cfg, s.(workers := s.workers[w := r']), r'.tasks[e.a].pc)
  {
  }

  lemma AnswerStage(cfg: Config, s: Sys, act: Act, w: nat)
    requires CanAct(cfg, s, act) && Reliable(s, act) && act.Perform? && act.w == w
    requires !act.e.Resume? && !act.e.Start? && !act.e.DogStart?
    requires var r := s.workers[w]; var pc := r.tasks[act.e.a].pc; StageOk(cfg, s, pc) && Direct(pc) && NoZombieCont(pc)
    ensures var s' := After(cfg, s, act);
            Present(s', w, act.e.a) && StageOk(cfg, s', PcOf(s', w, act.e.a))
  {
    assert Present(s, w, act.e.a);
  }

  lemma MoverStage(cfg: Config, s: Sys, act: Act, w: nat)
    requires LocalInv(s, w) && StoreInv(cfg, s, w) && CanAct(cfg, s, act) && Reliable(s, act) && WatchdogIdle(s)
    requires act.Perform? && act.w == w
    ensures var s' := After(cfg, s, act);
            Present(s', w, act.e.a) && StageOk(cfg, s', PcOf(s', w, act.e.a))
  {
    if act.e.Start? || act.e.DogStart? {
      StartStage(cfg, s, w, act.e);
    } else {
      assert Present(s, w, act.e.a);
      if act.e.Resume? {
        ResumeStage(cfg, s, w, act.e.a);
      } else {
        AnswerStage(cfg, s, act, w);
      }
    }
  }

  /** A write goes to a pod its own task owns, so it is nobody else's business. */
  lemma WritesOwnPod(cfg: Config, s: Sys, act: Act, w: nat, p: Pod)
    requires LocalInv(s, w) && CanAct(cfg, s, act) && WatchdogIdle(s) && act.Perform? && act.w == w
    requires Writes(s, act, p)
    ensures Owns(s.workers[w], act.e.a, p) && p in s.workers[w].held
    ensures forall b :: Owns(s.workers[w], b, p) ==> b == act.e.a
  {
    assert NoZombieCont(PcOf(s, w, act.e.a));
    assert Owns(s.workers[w], act.e.a, p);
  }

  lemma OtherStage(cfg: Config, s: Sys, act: Act, w: nat, b: Task)
    requires LocalInv(s, w) && StoreInv(cfg, s, w) && CanAct(cfg, s, act) && WatchdogIdle(s)
    requires act.Perform? && act.w == w && b != act.e.a && Present(After(cfg, s, act), w, b)
    ensures var s' := After(cfg, s, act); StageOk(cfg, s', PcOf(s', w, b))
  {
    var r := s.workers[w];
    Frame(cfg, s.now, r, act.e, b);
    assert Present(s, w, b);
    assert StageOk(cfg, s, r.tasks[b].pc);
    assert NoZombieCont(PcOf(s, w, b));
    if act.e.a in r.tasks {
      assert StageOk(cfg, s, r.tasks[act.e.a].pc);
      assert NoZombieCont(PcOf(s, w, act.e.a));
      assert Direct(r.tasks[act.e.a].pc) && Coherent(r, r.tasks[act.e.a].pc);
    }
    if act.e.PutServed? && act.written.Some? {
      var p := WritePod(PcOf(s, w, act.e.a)).value;
      WritesOwnPod(cfg, s, act, w, p);
      assert !Owns(r, b, p);
    }
  }

  lemma FreedPodsAreFree(cfg: Config, s: Sys, act: Act, w: nat)
    requires LocalInv(s, w) && StoreInv(cfg, s, w) && CanAct(cfg, s, act) && WatchdogIdle(s)
    requires act.Perform? && act.w == w
    ensures var s' := After(cfg, s, act); var r, r' := s.workers[w], s'.workers[w];
            && (forall p :: p in cfg.pods ==> p in s'.store)
            && (forall p :: p in cfg.pods && p !in r'.held ==> s'.store[p].holder.None?)
            && (forall p :: p in r.held && p !in r'.held ==> r.waiters == [] == r'.waiters)
            && (r'.waiters != [] ==> r.waiters != [] || Enqueues(s, act))
  {
    var r := s.workers[w];
    var a := act.e.a;
    if a in r.tasks {
      assert StageOk(cfg, s, r.tasks[a].pc);
      assert NoZombieCont(PcOf(s, w, a));
      assert Direct(r.tasks[a].pc);
    }
    if act.e.PutServed? && act.written.Some? {
      WritesOwnPod(cfg, s, act, w, WritePod(PcOf(s, w, a)).value);
    }
    HeldOnlyShrinksWhenIdle(cfg, s.now, r, act.e);
  }

  /** A job whose scan has failed enters the queue. */
  predicate Enqueues(s: Sys, act: Act) {
    act.Perform? && act.e.Resume? && Present(s, act.w, act.e.a) && PcOf(s, act.w, act.e.a).Missed?
  }

  lemma HeldOnlyShrinksWhenIdle(cfg: Config, now: int, r: Replica, e: Event)
    requires Enabled(now, r, e)
    requires e.a in r.tasks ==> var pc := r.tasks[e.a].pc; Direct(pc) && NoZombieCont(pc) && !pc.TryLost?
    ensures var r' := Step(cfg, now, r, e);
            && (forall p :: p in r.held && p !in r'.held ==>
                  r.waiters == [] == r'.waiters && e.Resume? && r.tasks[e.a].pc.Cleared?
                      && p == r.tasks[e.a].pc.c.Name())
            && (r'.waiters != [] ==> r.waiters != [] || (e.Resume? && r.tasks[e.a].pc.Missed?))
  {
    if e.TimerFires? {
      RemoveFirstMembers(r.waiters, e.a);
    }
  }

  lemma StepKeepsStore(cfg: Config, s: Sys, act: Act, w: nat)
    requires LocalInv(s, w) && StoreInv(cfg, s, w) && CanAct(cfg, s, act) && Reliable(s, act) && WatchdogIdle(s)
    requires !act.Crash? && s.late == {} && s.workers.Keys <= {w} && After(cfg, s, act).workers.Keys <= {w}
    ensures StoreInv(cfg, After(cfg, s, act), w)
  {
    var s' := After(cfg, s, act);
    if act.Perform? {
      assert act.w in s.workers.Keys;
      FreedPodsAreFree(cfg, s, act, w);
      forall b | b in s'.workers[w].tasks ensures StageOk(cfg, s', s'.workers[w].tasks[b].pc) {
        assert Present(s', w, b);
        if b == act.e.a {
          MoverStage(cfg, s, act, w);
        } else {
          OtherStage(cfg, s, act, w, b);
        }
      }
    } else if act.Spawn? {
      assert act.w in s'.workers.Keys;
    }
  }

  lemma {:induction false} RunsKeepStore(cfg: Config, ss: seq<Sys>, acts: seq<Act>, w: nat, k: nat)
    requires IsReliableRun(cfg, ss, acts, w) && k < |ss|
    ensures StoreInv(cfg, ss[k], w) && LocalInv(ss[k], w) && ss[k].late == {}
  {
    if k > 0 {
      RunsKeepStore(cfg, ss, acts, w, k - 1);
      assert ss[k] == After(cfg, ss[k - 1], acts[k - 1]);
      StepKeepsStore(cfg, ss[k - 1], acts[k - 1], w);
      StepKeepsLocal(cfg, ss[k - 1], acts[k - 1], w);
    }
  }

  // ----- work conservation, and its exact condition

  /** While somebody is queued every pod is reserved. */
  predicate NoPodIdles(cfg: Config, s: Sys, w: nat) {
    w in s.workers && s.workers[w].waiters != [] ==> AllReserved(cfg, s.workers[w])
  }

  /** The check the code does not repeat: when a job enters the queue there is still no free pod. */
  predicate QueuesOnlyWhenBusy(cfg: Config, s: Sys, act: Act) {
    Enqueues(s, act) ==> AllReserved(cfg, s.workers[act.w])
  }

  lemma StepKeepsBusy(cfg: Config, s: Sys, act: Act, w: nat)
    requires LocalInv(s, w) && StoreInv(cfg, s, w) && CanAct(cfg, s, act) && WatchdogIdle(s)
    requires s.workers.Keys <= {w} && NoPodIdles(cfg, s, w)
    ensures NoPodIdles(cfg, After(cfg, s, act), w) <==> QueuesOnlyWhenBusy(cfg, s, act)
  {
    if act.Perform? {
      assert act.w in s.workers.Keys;
      FreedPodsAreFree(cfg, s, act, w);
    }
  }

  lemma BusyMove(cfg: Config, ss: seq<Sys>, acts: seq<Act>, w: nat, k: nat)
    requires IsReliableRun(cfg, ss, acts, w) && k < |acts| && NoPodIdles(cfg, ss[k], w)
    ensures NoPodIdles(cfg, ss[k + 1], w) <==> QueuesOnlyWhenBusy(cfg, ss[k], acts[k])
  {
    RunsKeepStore(cfg, ss, acts, w, k);
    assert ss[k + 1] == After(cfg, ss[k], acts[k]);
    StepKeepsBusy(cfg, ss[k], acts[k], w);
  }

  /** The exact condition: up to any moment of a run no pod idles while somebody is queued if and
      only if until then every job that queues finds no free pod at that very step. */
  lemma NoPodIdlesWhileSomebodyWaits(cfg: Config, ss: seq<Sys>, acts: seq<Act>, w: nat, n: nat)
    requires IsReliableRun(cfg, ss, acts, w) && n < |ss|
    ensures (forall k :: 0 <= k <= n ==> NoPodIdles(cfg, ss[k], w))
            <==> forall k :: 0 <= k < n ==> QueuesOnlyWhenBusy(cfg, ss[k], acts[k])
  {
    var p := (k: nat) => k < |ss| ==> NoPodIdles(cfg, ss[k], w);
    var c := (k: nat) => k < |acts| ==> QueuesOnlyWhenBusy(cfg, ss[k], acts[k]);
    forall k: nat | k < n && p(k) ensures p(k + 1) <==> c(k) {
      BusyMove(cfg, ss, acts, w, k);
    }
    ExactUpTo(p, c, n);
    assert forall k :: 0 <= k <= n ==> p(k) == NoPodIdles(cfg, ss[k], w);
    assert forall k :: 0 <= k < n ==> c(k) == QueuesOnlyWhenBusy(cfg, ss[k], acts[k]);
  }

  /** A job whose scan failed queues before anything else happens. */
  ghost predicate QueuesAtOnce(s: Sys, act: Act) {
    forall w, a :: Present(s, w, a) && PcOf(s, w, a).Missed? ==>
      act.Perform? && act.w == w && act.e == Resume(a)
  }

  ghost predicate MissedInv(cfg: Config, s: Sys) {
    forall w, a :: Present(s, w, a) && PcOf(s, w, a).Missed? ==> AllReserved(cfg, s.workers[w])
  }

  lemma StepKeepsMissed(cfg: Config, s: Sys, act: Act, w: nat)
    requires StoreInv(cfg, s, w) && LocalInv(s, w) && CanAct(cfg, s, act) && s.workers.Keys <= {w} && WatchdogIdle(s)
    requires QueuesAtOnce(s, act)
    ensures MissedInv(cfg, After(cfg, s, act))
  {
    var s' := After(cfg, s, act);
    forall v, b | Present(s', v, b) && PcOf(s', v, b).Missed? ensures AllReserved(cfg, s'.workers[v]) {
      if act.Perform? && v == act.w {
        assert v in s.workers.Keys;
        if b == act.e.a {
          MissedOnlyWhenBusy(cfg, s, act, w);
        } else {
          Frame(cfg, s.now, s.workers[v], act.e, b);
          assert Present(s, v, b);
        }
      } else {
        assert Present(s, v, b);
      }
    }
  }

  lemma MissedOnlyWhenBusy(cfg: Config, s: Sys, act: Act, w: nat)
    requires StoreInv(cfg, s, w) && LocalInv(s, w) && CanAct(cfg, s, act) && WatchdogIdle(s) && QueuesAtOnce(s, act)
    requires act.Perform? && act.w == w
    ensures var s' := After(cfg, s, act);
            Present(s', w, act.e.a) && (PcOf(s', w, act.e.a).Missed? ==> AllReserved(cfg, s'.workers[w]))
  {
    var r := s.workers[w];
    if act.e.a in r.tasks {
      assert Present(s, w, act.e.a);
      assert StageOk(cfg, s, r.tasks[act.e.a].pc);
      assert Direct(r.tasks[act.e.a].pc);
    }
    ScanFailsWhenBusy(cfg, s.now, r, act.e);
  }

  lemma ScanFailsWhenBusy(cfg: Config, now: int, r: Replica, e: Event)
    requires Enabled(now, r, e)
    requires e.a in r.tasks ==> var pc := r.tasks[e.a].pc; Direct(pc) && !pc.TryLost? && (pc.Missed? ==> e.Resume?)
    ensures var r' := Step(cfg, now, r, e);
            e.a in r'.tasks && (r'.tasks[e.a].pc.Missed? ==> AllReserved(cfg, r'))
  {
    if e.Start? {
      assert NextFree(cfg.pods, r.held, 0) >= |cfg.pods| ==> forall k :: 0 <= k < |cfg.pods| ==> cfg.pods[k] in r.held;
    }
  }

  /** So nothing idles where a failed scan and the following enqueue are one step. */
  lemma QueueingAtOnceIsBusy(cfg: Config, ss: seq<Sys>, acts: seq<Act>, w: nat, k: nat)
    requires IsReliableRun(cfg, ss, acts, w) && k < |acts|
    requires forall i :: 0 <= i < |acts| ==> QueuesAtOnce(ss[i], acts[i])
    ensures QueuesOnlyWhenBusy(cfg, ss[k], acts[k])
  {
    if k > 0 {
      RunsKeepStore(cfg, ss, acts, w, k - 1);
      assert ss[k] == After(cfg, ss[k - 1], acts[k - 1]);
      StepKeepsMissed(cfg, ss[k - 1], acts[k - 1], w);
    }
  }

  /** Over a reliable store waiters leave in arrival order: those served so far and then the queue
      are the arrivals without the timed-out; and no reservation is ever lost to the store. */
  lemma ReliableQueueIsFair(cfg: Config, ss: seq<Sys>, acts: seq<Act>, w: nat, k: nat)
    requires IsReliableRun(cfg, ss, acts, w) && k < |ss| && w in ss[k].workers
    ensures var r := ss[k].workers[w];
            && r.served + r.waiters == Without(r.arrivals, r.timedOut)
            && (forall a :: a in r.tasks ==> !r.tasks[a].pc.TryLost?)
            && (forall p :: p in r.held ==> exists a :: Owns(r, a, p))
  {
    RunsKeepStore(cfg, ss, acts, w, k);
    var r := ss[k].workers[w];
    forall a | a in r.tasks ensures !r.tasks[a].pc.TryLost? {
      assert StageOk(cfg, ss[k], r.tasks[a].pc);
    }
  }

  /** Under that condition a newcomer that arrives while somebody is queued takes no pod: it goes on
      to queue behind. */
  lemma NobodyOvertakes(cfg: Config, ss: seq<Sys>, acts: seq<Act>, w: nat, n: nat, j: Task)
    requires IsReliableRun(cfg, ss, acts, w) && n < |acts| && w in ss[n].workers
    requires forall k :: 0 <= k < n ==> QueuesOnlyWhenBusy(cfg, ss[k], acts[k])
    requires acts[n] == Perform(w, Start(j), None) && ss[n].workers[w].waiters != []
    ensures w in ss[n + 1].workers
    ensures var r' := ss[n + 1].workers[w];
            j in r'.tasks && r'.tasks[j].pc.Missed? && r'.held == ss[n].workers[w].held
  {
    NoPodIdlesWhileSomebodyWaits(cfg, ss, acts, w, n);
    assert NoPodIdles(cfg, ss[n], w);
    var r := ss[n].workers[w];
    assert forall i :: 0 <= i < |cfg.pods| ==> cfg.pods[i] in r.held;
    assert ss[n + 1] == After(cfg, ss[n], acts[n]);
  }

  /** ... and without it the next newcomer does overtake: from a state in which a pod idles while
      somebody is queued, a newcomer reserves a pod at its first step. */
  lemma IdlePodInvitesOvertaking(cfg: Config, s: Sys, w: nat, j: Task)
    requires w in s.workers && !NoPodIdles(cfg, s, w) && CanAct(cfg, s, Perform(w, Start(j), None))
    ensures var r, r' := s.workers[w], After(cfg, s, Perform(w, Start(j), None)).workers[w];
            && r'.waiters == r.waiters != [] && j in r'.tasks && r'.tasks[j].pc.TryRead?
            && r'.tasks[j].pc.p !in r.held && r'.held == r.held + {r'.tasks[j].pc.p}
  {
    var p :| p in cfg.pods && p !in s.workers[w].held;
    var i :| 0 <= i < |cfg.pods| && cfg.pods[i] == p;
  }
}
