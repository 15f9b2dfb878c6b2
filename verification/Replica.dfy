/** One worker process: the in-memory reservations and queue of its lease manager, and every
    job and watchdog visit in flight, as a transition system whose steps are the stretches of
    code between two awaits. Answers from outside are parameters of the events. */
module Replica {
  import opened Common
  import opened Leases

  /** Who called `clearLease` and owns the hand-off after it. `fin` tells the release in the try
      block (None) from the one in the finally block (Some(true) when the failure was published). */
  datatype Cont = Releasing(g: Grant, fin: Option<bool>) | Zombie(p: Pod)
  {
    function Name(): Pod {
      match this case Releasing(g, _) => g.pod case Zombie(p) => p
    }
  }

  /** A scan of the pods serves the job itself, or a waiter whose hand-off failed. */
  datatype For = ForSelf | ForWaiter(w: Task, g: Grant, fin: Option<bool>)

  /** Where `processJob` stands while it has a pod. */
  datatype Stage = Annotating | Running | Publishing | Failing | Unannotating(fin: Option<bool>)

  datatype PC =
    | TryRead(i: nat, p: Pod, who: For)
    | TryGot(i: nat, p: Pod, who: For, answer: Option<Lease>)
    | TryPut(i: nat, p: Pod, who: For, version: nat, renew: int)
    | TryLost(i: nat, p: Pod, who: For)
    | TryWon(i: nat, p: Pod, who: For, g: Grant)
    | Missed
    | Waiting
    | Holding(g: Grant, stage: Stage)
    | ClearRead(c: Cont)
    | ClearGot(c: Cont, answer: Option<Lease>)
    | ClearPut(c: Cont, version: nat, renew: int)
    | Cleared(c: Cont)
    | HandPut(c: Cont, w: Task, renew: int)
    | HandLost(c: Cont, w: Task)
    | HandWon(c: Cont, w: Task, g: Grant)
    | Notifying(fin: Option<bool>)
    | FailingBare
    | Acking(again: bool)
    | DogRead(p: Pod)
    | DogGot(p: Pod, answer: Option<Lease>)
    | Finished

  datatype Publish = ToolResult | JobError

  /** `timer` is the deadline of a timer that has not fired, `enqueueTime` the field of the
      waiter; the rest is history: the pods
      `acquirePod` resolved with, the arguments of the `releasePod` calls, the publish attempts
      and the number of acknowledgements. */
  datatype TaskState = TaskState(
    pc: PC, timer: Option<int>, enqueueTime: int, delivered: seq<Pod>, released: seq<Pod>, published: seq<Publish>,
        acks: nat)

  /** `held` and `waiters` are the fields of the class. History: `orphans` are pods won for a
      waiter whose promise was already settled, `cleared` the pods the watchdog took out of
      `held`, `arrivals` every enqueue, `served` every shift for a hand-off, `left` whoever was
      shifted out of the queue and not put back, `timedOut` the waiters rejected by their timer,
      `removed` those it took out of the queue. */
  datatype Replica = Replica(
    held: set<Pod>, waiters: seq<Task>, tasks: map<Task, TaskState>, orphans: set<Pod>, cleared: set<Pod>,
    arrivals: seq<Task>, served: seq<Task>, left: seq<Task>, timedOut: set<Task>, removed: set<Task>)

  datatype Event =
    | Start(a: Task)
    | DogStart(a: Task, p: Pod)
    | ReadServed(a: Task, answer: Option<Lease>)
    | PutServed(a: Task, won: Option<Grant>)
    | Resume(a: Task)
    | TimerFires(a: Task)
    | Io(a: Task, ok: bool)

  const BOOT: Replica := Replica({}, [], map[], {}, {}, [], [], [], {}, {})

  function Goto(r: Replica, a: Task, pc: PC): Replica
    requires a in r.tasks
  {
    r.(tasks := r.tasks[a := r.tasks[a].(pc := pc)])
  }

  function NextFree(pods: seq<Pod>, held: set<Pod>, from: nat): (i: nat)
    ensures i < |pods| ==> from <= i && pods[i] !in held
    ensures forall k :: from <= k < i && k < |pods| ==> pods[k] in held
    decreases |pods| - from
  {
    if from >= |pods| then |pods|
    else if pods[from] !in held then from
    else NextFree(pods, held, from + 1)
  }

  /** The loop of `tryAcquireAny` from index `from` up to its next await, or its end. */
  function Scan(cfg: Config, r: Replica, a: Task, from: nat, who: For): Replica
    requires a in r.tasks
  {
    var i := NextFree(cfg.pods, r.held, from);
    if i < |cfg.pods| then
      Goto(r.(held := r.held + {cfg.pods[i]}), a, TryRead(i, cfg.pods[i], who))
    else
      Goto(r, a, if who.ForSelf? then Missed else Notifying(who.fin))
  }

  /** `waiter.resolve(pod, ...)`: only the first settlement of the promise counts. */
  function Resolve(r: Replica, w: Task, g: Grant): Replica {
    if w in r.tasks && r.tasks[w].pc.Waiting? then
      r.(tasks := r.tasks[w := r.tasks[w].(pc := Holding(g, Annotating), delivered := r.tasks[w].delivered + [g.pod])])
    else
      r.(orphans := r.orphans + {g.pod})
  }

  function ShiftFor(r: Replica, a: Task, c: Cont, now: int): Replica
    requires a in r.tasks && r.waiters != []
  {
    var w := r.waiters[0];
    Goto(r.(waiters := r.waiters[1..], served := r.served + [w], left := r.left + [w]), a, HandPut(c, w, now))
  }

  /** `unshift` of a waiter whose hand-off failed. */
  function PutBack(r: Replica, w: Task): Replica {
    r.(waiters := [w] + r.waiters, left := Without(r.left, {w}))
  }

  function NewTask(pc: PC): TaskState {
    TaskState(pc, None, 0, [], [], [], 0)
  }

  predicate Enabled(now: int, r: Replica, e: Event) {
    match e
    case Start(a) => a !in r.tasks
    case DogStart(a, _) => a !in r.tasks
    case ReadServed(a, _) =>
      a in r.tasks && (r.tasks[a].pc.TryRead? || r.tasks[a].pc.ClearRead? || r.tasks[a].pc.DogRead?)
    case PutServed(a, won) =>
      && a in r.tasks
      && match r.tasks[a].pc {
           case TryPut(_, p, _, _, _) => won.Some? ==> won.value.pod == p
           case HandPut(c, _, _) => won.Some? ==> won.value.pod == c.Name()
           case ClearPut(_, _, _) => won.None?
           case _ => false
         }
    case Resume(a) =>
      && a in r.tasks
      && match r.tasks[a].pc {
           case TryGot(_, _, _, _) => true
           case TryLost(_, _, _) => true
           case TryWon(_, _, _, _) => true
           case Missed => true
           case ClearGot(_, _) => true
           case Cleared(_) => true
           case HandLost(_, _) => true
           case HandWon(_, _, _) => true
           case DogGot(_, _) => true
           case _ => false
         }
    case TimerFires(a) => a in r.tasks && r.tasks[a].timer.Some? && r.tasks[a].timer.value <= now
    case Io(a, _) =>
      a in r.tasks && (r.tasks[a].pc.Holding? || r.tasks[a].pc.Notifying? || r.tasks[a].pc.FailingBare?
          || r.tasks[a].pc.Acking?)
  }

  /** The answer to a store read reaches `tryAcquireLease`, `clearLease` or the watchdog. */
  function AfterRead(pc: PC, answer: Option<Lease>): PC {
    match pc
    case TryRead(i, p, who) => TryGot(i, p, who, answer)
    case ClearRead(c) => ClearGot(c, answer)
    case DogRead(p) => DogGot(p, answer)
    case _ => pc
  }

  /** The answer to a store write; `clearLease` does not care whether its write succeeded. */
  function AfterPut(pc: PC, won: Option<Grant>): PC {
    match pc
    case TryPut(i, p, who, _, _) => if won.Some? then TryWon(i, p, who, won.value) else TryLost(i, p, who)
    case HandPut(c, w, _) => if won.Some? then HandWon(c, w, won.value) else HandLost(c, w)
    case ClearPut(c, _, _) => Cleared(c)
    case _ => pc
  }

  function OnResume(cfg: Config, now: int, r: Replica, a: Task): Replica
    requires Enabled(now, r, Resume(a))
  {
    var t := r.tasks[a];
    match t.pc
    case TryGot(i, p, who, answer) =>
      if answer.None? || !Takeable(answer.value, now) then Goto(r, a, TryLost(i, p, who))
      else Goto(r, a, TryPut(i, p, who, answer.value.version, now))
    case TryLost(i, p, who) =>
      Scan(cfg, r.(held := r.held - {p}), a, i + 1, who)
    case TryWon(i, p, who, g) =>
      (match who
       case ForSelf =>
         r.(tasks := r.tasks[a := t.(pc := Holding(g, Annotating), delivered := t.delivered + [g.pod])])
       case ForWaiter(w, _, fin) =>
         var r1 := r.(waiters := Tail(r.waiters), left := r.left + Front(r.waiters));
         Resolve(Goto(r1, a, Notifying(fin)), w, g))
    case Missed =>
      r.(waiters := r.waiters + [a], arrivals := r.arrivals + [a],
         tasks := r.tasks[a := t.(pc := Waiting, enqueueTime := now, timer := Some(now + cfg.maxWaitMs))])
    case ClearGot(c, answer) =>
      Goto(r, a, if answer.None? then Cleared(c) else ClearPut(c, answer.value.version, now))
    case Cleared(c) =>
      (match c
       case Releasing(g, fin) =>
         if r.waiters == [] then Goto(r.(held := r.held - {g.pod}), a, Notifying(fin))
         else ShiftFor(r, a, c, now)
       case Zombie(p) =>
         var r1 := r.(held := r.held - {p}, cleared := r.cleared + {p});
         if r.waiters == [] then Goto(r1, a, Finished) else ShiftFor(r1, a, c, now))
    case HandLost(c, w) =>
      (match c
       case Releasing(g, fin) =>
         Scan(cfg, PutBack(r, w).(held := r.held - {g.pod}), a, 0, ForWaiter(w, g, fin))
       case Zombie(p) => Goto(PutBack(r, w), a, Finished))
    case HandWon(c, w, g) =>
      (match c
       case Releasing(_, fin) => Resolve(Goto(r, a, Notifying(fin)), w, g)
       case Zombie(p) => Resolve(Goto(r.(held := r.held + {p}), a, Finished), w, g))
    case DogGot(p, answer) =>
      if answer.Some? && answer.value.holder.Some? && IsExpired(answer.value, now)
      then Goto(r, a, ClearRead(Zombie(p))) else Goto(r, a, Finished)
  }

  /** The timer set when a waiter is queued: it acts only on a waiter still in the queue. */
  function OnTimer(r: Replica, a: Task): Replica
    requires a in r.tasks
  {
    var t := r.tasks[a].(timer := None);
    if a !in r.waiters then r.(tasks := r.tasks[a := t])
    else
      var r1 := r.(waiters := RemoveFirst(r.waiters, a), removed := r.removed + {a});
      if t.pc.Waiting? then
        r1.(tasks := r.tasks[a := t.(pc := FailingBare, published := t.published + [JobError])],
            timedOut := r.timedOut + {a})
      else r1.(tasks := r.tasks[a := t])
  }

  /** `processJob` after an await that settled well (`ok`) or rejected. Annotation calls swallow
      their own errors; a job whose catch block rejects is acknowledged by the outer handler. */
  function AfterIo(t: TaskState, ok: bool): TaskState {
    match t.pc
    case Holding(g, Annotating) => t.(pc := Holding(g, Running))
    case Holding(g, Running) =>
      if ok then t.(pc := Holding(g, Publishing), published := t.published + [ToolResult])
      else t.(pc := Holding(g, Failing), published := t.published + [JobError])
    case Holding(g, Publishing) =>
      if ok then t.(pc := Holding(g, Unannotating(None)))
      else t.(pc := Holding(g, Failing), published := t.published + [JobError])
    case Holding(g, Failing) => t.(pc := Holding(g, Unannotating(Some(ok))))
    case Holding(g, Unannotating(fin)) => t.(pc := ClearRead(Releasing(g, fin)), released := t.released + [g.pod])
    case Notifying(None) =>
      if ok then t.(pc := Acking(true), acks := t.acks + 1)
      else t.(pc := FailingBare, published := t.published + [JobError])
    case Notifying(Some(published)) => t.(pc := Acking(published), acks := t.acks + 1)
    case FailingBare => t.(pc := Acking(ok), acks := t.acks + 1)
    case Acking(again) => if ok || !again then t.(pc := Finished) else t.(pc := Acking(false), acks := t.acks + 1)
    case _ => t
  }

  function Step(cfg: Config, now: int, r: Replica, e: Event): Replica
    requires Enabled(now, r, e)
  {
    match e
    case Start(a) => Scan(cfg, r.(tasks := r.tasks[a := NewTask(Missed)]), a, 0, ForSelf)
    case DogStart(a, p) => r.(tasks := r.tasks[a := NewTask(DogRead(p))])
    case ReadServed(a, answer) => Goto(r, a, AfterRead(r.tasks[a].pc, answer))
    case PutServed(a, won) => Goto(r, a, AfterPut(r.tasks[a].pc, won))
    case Resume(a) => OnResume(cfg, now, r, a)
    case TimerFires(a) => OnTimer(r, a)
    case Io(a, ok) => r.(tasks := r.tasks[a := AfterIo(r.tasks[a], ok)])
  }

  /** The waiter a task is about to resolve, and the lease it won for it. */
  function Serving(pc: PC): Option<(Task, Grant)> {
    match pc
    case TryWon(_, _, who, g) => if who.ForWaiter? then Some((who.w, g)) else None
    case HandWon(_, w, g) => Some((w, g))
    case _ => None
  }

  function GivenTo(t: TaskState, g: Grant): TaskState {
    t.(pc := Holding(g, Annotating), delivered := t.delivered + [g.pod])
  }

  /** A step moves its own task and, at most, resolves one waiting task. */
  lemma Frame(cfg: Config, now: int, r: Replica, e: Event, b: Task)
    requires Enabled(now, r, e) && b != e.a
    ensures var r' := Step(cfg, now, r, e);
            && (b in r'.tasks <==> b in r.tasks)
            && (b in r.tasks ==>
                  || r'.tasks[b] == r.tasks[b]
                  || (&& e.Resume? && r.tasks[b].pc.Waiting?
                      && Serving(r.tasks[e.a].pc).Some? && Serving(r.tasks[e.a].pc).value.0 == b
                      && r'.tasks[b] == GivenTo(r.tasks[b], Serving(r.tasks[e.a].pc).value.1)))
  {
  }

  /** A moment of one worker's life, and its runs: the clock never goes back, and every other
      step is one event, whatever the store answers. */
  datatype Moment = Moment(now: int, r: Replica)

  datatype Move = Tick(to: int) | Do(e: Event)

  predicate CanMove(m: Moment, v: Move) {
    match v case Tick(to) => m.now <= to case Do(e) => Enabled(m.now, m.r, e)
  }

  function Moved(cfg: Config, m: Moment, v: Move): Moment
    requires CanMove(m, v)
  {
    match v case Tick(to) => m.(now := to) case Do(e) => m.(r := Step(cfg, m.now, m.r, e))
  }

  ghost predicate IsRun(cfg: Config, ms: seq<Moment>, vs: seq<Move>) {
    && |ms| == |vs| + 1
    && ms[0].r == BOOT
    && forall k :: 0 <= k < |vs| ==> CanMove(ms[k], vs[k]) && ms[k + 1] == Moved(cfg, ms[k], vs[k])
  }
}
