/** Runs where no hand-off write fails (hypothesis HS): nobody is ever put back, so all conditions on
    the queue hold. */
module HandOffOrder {
  import opened Common
  import opened Leases
  import opened Replica
  import opened Waiters
  import opened QueueOrder

  /** HS: no hand-off write fails. */
  predicate HandOffSucceeds(r: Replica, e: Event) {
    e.PutServed? && e.a in r.tasks && r.tasks[e.a].pc.HandPut? ==> e.won.Some?
  }

  /** No failed hand-off, so no scan on behalf of a waiter. */
  predicate Direct(pc: PC) {
    match pc
    case TryRead(_, _, who) => who.ForSelf?
    case TryGot(_, _, who, _) => who.ForSelf?
    case TryPut(_, _, who, _, _) => who.ForSelf?
    case TryLost(_, _, who) => who.ForSelf?
    case TryWon(_, _, who, _) => who.ForSelf?
    case HandLost(_, _) => false
    case _ => true
  }

  ghost predicate DirectInv(r: Replica) {
    forall a :: a in r.tasks ==> Direct(r.tasks[a].pc)
  }

  lemma MoverStaysDirect(cfg: Config, now: int, r: Replica, e: Event)
    requires Enabled(now, r, e) && HandOffSucceeds(r, e) && (e.a in r.tasks ==> Direct(r.tasks[e.a].pc))
    ensures e.a in Step(cfg, now, r, e).tasks && Direct(Step(cfg, now, r, e).tasks[e.a].pc)
  {
  }

  lemma StepStaysDirect(cfg: Config, now: int, r: Replica, e: Event)
    requires Enabled(now, r, e) && HandOffSucceeds(r, e) && DirectInv(r)
    ensures RetryFindsItsWaiter(r, e) && DirectInv(Step(cfg, now, r, e))
  {
    var r' := Step(cfg, now, r, e);
    MoverStaysDirect(cfg, now, r, e);
    forall b | b in r'.tasks ensures Direct(r'.tasks[b].pc) {
      if b != e.a { Frame(cfg, now, r, e, b); }
    }
  }

  /** Whoever was shifted has left for good, whoever its timer took out was rejected, and all in order. */
  ghost predicate FifoInv(r: Replica) {
    r.left == r.served && r.removed == r.timedOut && LeftInOrder(r)
  }

  lemma HistoriesAgree(cfg: Config, now: int, r: Replica, e: Event)
    requires Enabled(now, r, e) && r.left == r.served && r.removed == r.timedOut
    requires e.a in r.tasks ==> Direct(r.tasks[e.a].pc)
    requires e.TimerFires? && e.a in r.waiters ==> IsWaiting(r, e.a)
    ensures var r' := Step(cfg, now, r, e); r'.left == r'.served && r'.removed == r'.timedOut
  {
  }

  lemma StepKeepsFifo(cfg: Config, now: int, r: Replica, e: Event)
    requires QueueInv(r) && QueueSane(r) && SettledInv(r) && DirectInv(r) && FifoInv(r) && Enabled(now, r, e)
    ensures FifoInv(Step(cfg, now, r, e))
  {
    HistoriesAgree(cfg, now, r, e);
    StepKeepsOrder(cfg, now, r, e);
  }

  /** HS runs. */
  ghost predicate IsHandOffRun(cfg: Config, ms: seq<Moment>, vs: seq<Move>) {
    && IsRun(cfg, ms, vs)
    && forall k :: 0 <= k < |vs| && vs[k].Do? ==> HandOffSucceeds(ms[k].r, vs[k].e)
  }

  lemma {:induction false} RunsKeepQueue(cfg: Config, ms: seq<Moment>, vs: seq<Move>, k: nat)
    requires IsHandOffRun(cfg, ms, vs) && k < |ms|
    ensures QueueInv(ms[k].r) && DirectInv(ms[k].r) && FifoInv(ms[k].r) && QueueSane(ms[k].r) && SettledInv(ms[k].r)
    ensures k < |vs| && vs[k].Do? ==> RetryFindsItsWaiter(ms[k].r, vs[k].e)
  {
    RunsStaySane(cfg, ms, vs, k);
    if k > 0 {
      RunsKeepQueue(cfg, ms, vs, k - 1);
      var m := ms[k - 1];
      if vs[k - 1].Do? {
        StepKeepsQueue(cfg, m.now, m.r, vs[k - 1].e);
        StepStaysDirect(cfg, m.now, m.r, vs[k - 1].e);
        StepKeepsFifo(cfg, m.now, m.r, vs[k - 1].e);
      }
    }
    if k < |vs| && vs[k].Do? {
      StepStaysDirect(cfg, ms[k].now, ms[k].r, vs[k].e);
    }
  }

  /** HS is more than conservation needs, and more than order and deadlines need. */
  lemma HandOffRunsConserve(cfg: Config, ms: seq<Moment>, vs: seq<Move>, n: nat)
    requires IsHandOffRun(cfg, ms, vs) && n < |ms|
    ensures RetriesInOrder(ms, vs, n)
    ensures forall k :: 0 <= k < n && vs[k].Do? ==>
              && PutsBackTheLast(ms[k].r, vs[k].e) && PutsBackTheOldest(ms[k].r, vs[k].e)
              && PutsBackArmed(ms[k].r, vs[k].e)
  {
    forall k | 0 <= k < n && vs[k].Do?
      ensures RetryFindsItsWaiter(ms[k].r, vs[k].e) && !PutsBack(ms[k].r, vs[k].e)
    {
      RunsKeepQueue(cfg, ms, vs, k);
    }
  }

  /** Those shifted for a hand-off, then those still queued, are the arrivals in their order without
      the timed-out; and nobody shifted out is ever rejected by its timer. */
  lemma ServedInOrder(cfg: Config, ms: seq<Moment>, vs: seq<Move>, k: nat)
    requires IsHandOffRun(cfg, ms, vs) && k < |ms|
    ensures var r := ms[k].r;
            && r.served + r.waiters == Without(r.arrivals, r.timedOut)
            && NoDuplicates(r.arrivals) && NoDuplicates(r.served + r.waiters)
            && (forall w :: w in r.served ==> w !in r.timedOut)
  {
    RunsKeepQueue(cfg, ms, vs, k);
  }
}
