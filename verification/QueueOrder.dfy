/** The queue in every run, failed hand-offs included: in which order waiters leave it, in which order
    they stand in it, and how long they can stay. Each holds exactly as long as the waiters that are put
    back after a failed hand-off are put back in time. */
module QueueOrder {
  import opened Common
  import opened Leases
  import opened Replica
  import opened Waiters

  /** Nobody is queued twice, or queued after it has left; a waiter is the target of one hand-off at
      most, and has left the queue by then. */
  ghost predicate QueueSane(r: Replica) {
    && NoDuplicates(r.left + r.waiters)
    && (forall w :: w in r.left || w in r.waiters ==> w in r.arrivals)
    && (forall w :: w in r.removed ==> w in r.arrivals && w !in r.left && w !in r.waiters)
    && r.timedOut <= r.removed
    && (forall a, w :: Offers(r, a, w) ==> w in r.left)
    && (forall a, b, w :: Offers(r, a, w) && Offers(r, b, w) ==> a == b)
  }

  lemma SplitNoDuplicates<T>(s: seq<T>, t: seq<T>)
    requires NoDuplicates(s + t)
    ensures NoDuplicates(s) && NoDuplicates(t) && forall x :: x in s ==> x !in t
  {
    var u := s + t;
    assert forall i :: 0 <= i < |s| ==> u[i] == s[i];
    assert forall i :: 0 <= i < |t| ==> u[|s| + i] == t[i];
  }

  lemma JoinNoDuplicates<T>(s: seq<T>, t: seq<T>)
    requires NoDuplicates(s) && NoDuplicates(t) && forall x :: x in s ==> x !in t
    ensures NoDuplicates(s + t)
  {
    var u := s + t;
    forall i, j | 0 <= i < j < |u| ensures u[i] != u[j] {
      if i < |s| <= j {
        assert s[i] in s && t[j - |s|] in t;
      }
    }
  }

  lemma {:induction false} WithoutKeepsDistinct<T>(s: seq<T>, gone: set<T>)
    requires NoDuplicates(s)
    ensures NoDuplicates(Without(s, gone))
  {
    if s != [] {
      WithoutKeepsDistinct(s[1..], gone);
      WithoutMembers(s[1..], gone);
      JoinNoDuplicates(if s[0] in gone then [] else [s[0]], Without(s[1..], gone));
    }
  }

  lemma ShiftMoves<T>(left: seq<T>, waiters: seq<T>)
    ensures left + Front(waiters) + Tail(waiters) == left + waiters
  {
  }

  // ----- what each kind of step does to it

  lemma SaneAfterQuiet(r: Replica, a: Task, t: TaskState, r': Replica)
    requires QueueSane(r) && r'.tasks == r.tasks[a := t]
    requires Target(t.pc) == if a in r.tasks then Target(r.tasks[a].pc) else None
    requires r'.waiters == r.waiters && r'.left == r.left && r'.removed == r.removed
    requires r'.arrivals == r.arrivals && r'.timedOut == r.timedOut
    ensures QueueSane(r')
  {
    assert forall b, w :: Offers(r', b, w) <==> Offers(r, b, w);
  }

  lemma SaneAfterEnqueue(cfg: Config, now: int, r: Replica, a: Task)
    requires QueueSane(r) && SettledInv(r) && Enabled(now, r, Resume(a)) && r.tasks[a].pc.Missed?
    ensures QueueSane(OnResume(cfg, now, r, a))
  {
    var r' := OnResume(cfg, now, r, a);
    assert a !in r.arrivals;
    assert r'.left + r'.waiters == (r.left + r.waiters) + [a];
    JoinNoDuplicates(r.left + r.waiters, [a]);
    assert forall b, w :: Offers(r', b, w) <==> Offers(r, b, w);
  }

  lemma SaneAfterShift(cfg: Config, now: int, r: Replica, a: Task)
    requires QueueSane(r) && Enabled(now, r, Resume(a)) && r.tasks[a].pc.Cleared? && r.waiters != []
    ensures QueueSane(OnResume(cfg, now, r, a))
  {
    var r', w0 := OnResume(cfg, now, r, a), r.waiters[0];
    ShiftMoves(r.left, r.waiters);
    SplitNoDuplicates(r.left, r.waiters);
    assert w0 in r.waiters;
    assert forall w :: w in r.waiters <==> w == w0 || w in r'.waiters;
    assert forall b, w :: Offers(r', b, w) <==> (b == a && w == w0) || (b != a && Offers(r, b, w));
  }

  lemma SaneAfterHandOver(cfg: Config, now: int, r: Replica, a: Task)
    requires QueueSane(r) && Enabled(now, r, Resume(a)) && r.tasks[a].pc.HandWon?
    ensures QueueSane(OnResume(cfg, now, r, a))
  {
    var r' := OnResume(cfg, now, r, a);
    assert forall b, w :: Offers(r', b, w) ==> Offers(r, b, w);
  }

  lemma SaneAfterRetry(cfg: Config, now: int, r: Replica, a: Task)
    requires QueueSane(r) && Enabled(now, r, Resume(a)) && r.tasks[a].pc.TryWon? && r.tasks[a].pc.who.ForWaiter?
    ensures QueueSane(OnResume(cfg, now, r, a))
  {
    var r' := OnResume(cfg, now, r, a);
    ShiftMoves(r.left, r.waiters);
    assert forall w :: w in r.waiters <==> w in Front(r.waiters) || w in r'.waiters;
    assert forall b, w :: Offers(r', b, w) ==> Offers(r, b, w);
  }

  /** The history of leaving without one who is put back. */
  lemma {:induction false} WithoutOne(left: seq<Task>, w: Task) returns (i: nat)
    requires NoDuplicates(left) && w in left
    ensures i < |left| && left[i] == w && Without(left, {w}) == left[..i] + left[i + 1..]
  {
    var rest := left[1..];
    if left[0] == w {
      i := 0;
      WithoutNothing(rest, {w});
      assert [] + rest == left[..0] + rest;
    } else {
      var k := WithoutOne(rest, w);
      i := k + 1;
      assert left[..i] == [left[0]] + rest[..k] && left[i + 1..] == rest[k + 1..];
    }
  }

  lemma PutBackStaysDistinct(left: seq<Task>, waiters: seq<Task>, w: Task)
    requires NoDuplicates(left + waiters) && w in left
    ensures NoDuplicates(Without(left, {w}) + ([w] + waiters))
    ensures forall x :: x in Without(left, {w}) <==> x in left && x != w
  {
    SplitNoDuplicates(left, waiters);
    WithoutKeepsDistinct(left, {w});
    WithoutMembers(left, {w});
    JoinNoDuplicates([w], waiters);
    JoinNoDuplicates(Without(left, {w}), [w] + waiters);
  }

  /** Everybody stands where it stood exactly if it was the last to leave who is put back. */
  lemma PutBackMoves(left: seq<Task>, waiters: seq<Task>, w: Task)
    requires NoDuplicates(left + waiters) && w in left
    ensures Without(left, {w}) + ([w] + waiters) == left + waiters <==> left[|left| - 1] == w
  {
    SplitNoDuplicates(left, waiters);
    var i := WithoutOne(left, w);
    MovedBehind(left, waiters, i);
  }

  lemma MovedBehind(left: seq<Task>, waiters: seq<Task>, i: nat)
    requires NoDuplicates(left) && i < |left|
    ensures left[..i] + left[i + 1..] + ([left[i]] + waiters) == left + waiters <==> left[|left| - 1] == left[i]
  {
    var moved := left[..i] + left[i + 1..] + ([left[i]] + waiters);
    if i + 1 < |left| {
      assert moved[i] == left[i + 1] && (left + waiters)[i] == left[i];
    } else {
      assert left[..i] + [left[i]] == left && left[i + 1..] == [];
      assert moved == left[..i] + [left[i]] + waiters;
    }
  }

  lemma SaneAfterPutBack(cfg: Config, now: int, r: Replica, a: Task)
    requires QueueSane(r) && Enabled(now, r, Resume(a)) && r.tasks[a].pc.HandLost?
    ensures QueueSane(OnResume(cfg, now, r, a))
  {
    var r', w0 := OnResume(cfg, now, r, a), r.tasks[a].pc.w;
    assert Offers(r, a, w0);
    PutBackStaysDistinct(r.left, r.waiters, w0);
    assert forall b, w :: Offers(r', b, w) <==> b != a && Offers(r, b, w);
    assert forall w :: w in r'.waiters <==> w == w0 || w in r.waiters;
  }

  lemma SaneAfterTimer(r: Replica, a: Task)
    requires QueueSane(r) && a in r.tasks
    ensures QueueSane(OnTimer(r, a))
  {
    var r' := OnTimer(r, a);
    SplitNoDuplicates(r.left, r.waiters);
    RemoveFirstFacts(r.waiters, a);
    JoinNoDuplicates(r.left, RemoveFirst(r.waiters, a));
    assert forall b, w :: Offers(r', b, w) <==> Offers(r, b, w);
  }

  lemma StepKeepsSane(cfg: Config, now: int, r: Replica, e: Event)
    requires QueueSane(r) && SettledInv(r) && Enabled(now, r, e)
    ensures QueueSane(Step(cfg, now, r, e))
  {
    var a := e.a;
    if e.TimerFires? {
      SaneAfterTimer(r, a);
    } else if e.Resume? && MovesQueue(r, r.tasks[a].pc) {
      match r.tasks[a].pc
      case Missed => SaneAfterEnqueue(cfg, now, r, a);
      case Cleared(_) => SaneAfterShift(cfg, now, r, a);
      case HandWon(_, _, _) => SaneAfterHandOver(cfg, now, r, a);
      case HandLost(_, _) => SaneAfterPutBack(cfg, now, r, a);
      case TryWon(_, _, _, _) => SaneAfterRetry(cfg, now, r, a);
    } else {
      QuietMove(cfg, now, r, e);
      SaneAfterQuiet(r, a, Step(cfg, now, r, e).tasks[a], Step(cfg, now, r, e));
    }
  }

  lemma {:induction false} RunsStaySane(cfg: Config, ms: seq<Moment>, vs: seq<Move>, k: nat)
    requires IsRun(cfg, ms, vs) && k < |ms|
    ensures QueueSane(ms[k].r) && SettledInv(ms[k].r)
  {
    RunsKeepSettled(cfg, ms, vs, k);
    if k > 0 {
      RunsStaySane(cfg, ms, vs, k - 1);
      if vs[k - 1].Do? {
        StepKeepsSane(cfg, ms[k - 1].now, ms[k - 1].r, vs[k - 1].e);
      }
    }
  }

  /** A waiter is put back at the head of the queue. */
  predicate PutsBack(r: Replica, e: Event) {
    e.Resume? && e.a in r.tasks && r.tasks[e.a].pc.HandLost?
  }

  // ----- the order of leaving

  /** First come, first served: those who have left for good, then those still queued, are the arrivals
      in their order, without those their timers took out. */
  predicate LeftInOrder(r: Replica) {
    r.left + r.waiters == Without(r.arrivals, r.removed)
  }

  /** Nobody has left the queue after the waiter that is put back. */
  predicate PutsBackTheLast(r: Replica, e: Event) {
    PutsBack(r, e) ==> r.left != [] && r.left[|r.left| - 1] == r.tasks[e.a].pc.w
  }

  lemma OrderAfterTimer(r: Replica, a: Task)
    requires QueueSane(r) && LeftInOrder(r) && a in r.tasks
    ensures LeftInOrder(OnTimer(r, a))
  {
    if a in r.waiters {
      WithoutTwice(r.arrivals, r.removed, {a});
      WithoutConcat(r.left, r.waiters, {a});
      SplitNoDuplicates(r.left, r.waiters);
      WithoutNothing(r.left, {a});
      RemoveFirstFacts(r.waiters, a);
    }
  }

  lemma OrderAfterEnqueue(cfg: Config, now: int, r: Replica, a: Task)
    requires QueueSane(r) && SettledInv(r) && LeftInOrder(r) && Enabled(now, r, Resume(a)) && r.tasks[a].pc.Missed?
    ensures LeftInOrder(OnResume(cfg, now, r, a))
  {
    assert a !in r.arrivals;
    WithoutConcat(r.arrivals, [a], r.removed);
    WithoutNothing([a], r.removed);
    assert r.left + (r.waiters + [a]) == (r.left + r.waiters) + [a];
  }

  lemma StepKeepsOrder(cfg: Config, now: int, r: Replica, e: Event)
    requires QueueSane(r) && SettledInv(r) && LeftInOrder(r) && Enabled(now, r, e)
    ensures LeftInOrder(Step(cfg, now, r, e)) <==> PutsBackTheLast(r, e)
  {
    var a := e.a;
    if e.TimerFires? {
      OrderAfterTimer(r, a);
    } else if e.Resume? && MovesQueue(r, r.tasks[a].pc) {
      match r.tasks[a].pc
      case Missed => OrderAfterEnqueue(cfg, now, r, a);
      case HandLost(_, w) => OrderAfterPutBack(cfg, now, r, a);
      case _ => ShiftMoves(r.left, r.waiters);
    } else {
      QuietMove(cfg, now, r, e);
    }
  }

  lemma OrderAfterPutBack(cfg: Config, now: int, r: Replica, a: Task)
    requires QueueSane(r) && LeftInOrder(r) && Enabled(now, r, Resume(a)) && r.tasks[a].pc.HandLost?
    ensures LeftInOrder(OnResume(cfg, now, r, a)) <==> PutsBackTheLast(r, Resume(a))
  {
    assert Offers(r, a, r.tasks[a].pc.w);
    PutBackMoves(r.left, r.waiters, r.tasks[a].pc.w);
  }

  lemma OrderMove(cfg: Config, ms: seq<Moment>, vs: seq<Move>, k: nat)
    requires IsRun(cfg, ms, vs) && k < |vs| && LeftInOrder(ms[k].r)
    ensures LeftInOrder(ms[k + 1].r) <==> (vs[k].Do? ==> PutsBackTheLast(ms[k].r, vs[k].e))
  {
    RunsStaySane(cfg, ms, vs, k);
    if vs[k].Do? {
      StepKeepsOrder(cfg, ms[k].now, ms[k].r, vs[k].e);
    }
  }

  /** The exact condition: waiters leave in arrival order up to any moment of any run if and only if
      until then whoever is put back was the last to leave. */
  lemma LeavingInOrderIsExact(cfg: Config, ms: seq<Moment>, vs: seq<Move>, n: nat)
    requires IsRun(cfg, ms, vs) && n < |ms|
    ensures (forall k :: 0 <= k <= n ==> LeftInOrder(ms[k].r))
            <==> forall k :: 0 <= k < n && vs[k].Do? ==> PutsBackTheLast(ms[k].r, vs[k].e)
  {
    var p := (k: nat) => k < |ms| ==> LeftInOrder(ms[k].r);
    var c := (k: nat) => k < |vs| && vs[k].Do? ==> PutsBackTheLast(ms[k].r, vs[k].e);
    forall k: nat | k < n && p(k) ensures p(k + 1) <==> c(k) {
      OrderMove(cfg, ms, vs, k);
    }
    ExactUpTo(p, c, n);
    assert forall k :: 0 <= k <= n ==> p(k) == LeftInOrder(ms[k].r);
    assert forall k :: 0 <= k < n ==> c(k) == (vs[k].Do? ==> PutsBackTheLast(ms[k].r, vs[k].e));
  }

  /** What that means for the waiters: none leaves twice, and none that has left for a hand-off is
      rejected by its timer. */
  lemma WaitersLeaveInOrder(cfg: Config, ms: seq<Moment>, vs: seq<Move>, n: nat)
    requires IsRun(cfg, ms, vs) && n < |ms|
    requires forall k :: 0 <= k < n && vs[k].Do? ==> PutsBackTheLast(ms[k].r, vs[k].e)
    ensures var r := ms[n].r;
            && r.left + r.waiters == Without(r.arrivals, r.removed)
            && NoDuplicates(r.arrivals) && NoDuplicates(r.left + r.waiters)
            && (forall w :: w in r.left ==> w !in r.timedOut)
  {
    LeavingInOrderIsExact(cfg, ms, vs, n);
    RunsStaySane(cfg, ms, vs, n);
    assert LeftInOrder(ms[n].r);
  }

  // ----- the order in the queue

  predicate Earlier(s: seq<Task>, x: Task, y: Task) {
    exists i, j :: 0 <= i < j < |s| && s[i] == x && s[j] == y
  }

  predicate Ordered(arrivals: seq<Task>, s: seq<Task>) {
    forall i, j :: 0 <= i < j < |s| ==> Earlier(arrivals, s[i], s[j])
  }

  /** The waiter that is put back arrived before the one at the head. */
  predicate PutsBackTheOldest(r: Replica, e: Event) {
    PutsBack(r, e) ==> r.waiters == [] || Earlier(r.arrivals, r.tasks[e.a].pc.w, r.waiters[0])
  }

  lemma EarlierGrows(s: seq<Task>, t: seq<Task>, x: Task, y: Task)
    requires Earlier(s, x, y)
    ensures Earlier(s + t, x, y)
  {
    var i, j :| 0 <= i < j < |s| && s[i] == x && s[j] == y;
    assert (s + t)[i] == x && (s + t)[j] == y;
  }

  lemma EarlierTransits(s: seq<Task>, x: Task, y: Task, z: Task)
    requires NoDuplicates(s) && Earlier(s, x, y) && Earlier(s, y, z)
    ensures Earlier(s, x, z)
  {
    var i, j :| 0 <= i < j < |s| && s[i] == x && s[j] == y;
    var k, l :| 0 <= k < l < |s| && s[k] == y && s[l] == z;
    assert j == k;
  }

  lemma OrderedAppend(arrivals: seq<Task>, s: seq<Task>, a: Task)
    requires Ordered(arrivals, s) && forall x :: x in s ==> x in arrivals
    ensures Ordered(arrivals + [a], s + [a])
  {
    var all, t := arrivals + [a], s + [a];
    forall i, j | 0 <= i < j < |t| ensures Earlier(all, t[i], t[j]) {
      if j < |s| {
        EarlierGrows(arrivals, [a], s[i], s[j]);
      } else {
        assert s[i] in s;
        var k :| 0 <= k < |arrivals| && arrivals[k] == s[i];
        assert all[k] == t[i] && all[|arrivals|] == a;
      }
    }
  }

  lemma OrderedPrepend(arrivals: seq<Task>, s: seq<Task>, w: Task)
    requires Ordered(arrivals, s) && NoDuplicates(arrivals)
    ensures Ordered(arrivals, [w] + s) <==> s == [] || Earlier(arrivals, w, s[0])
  {
    var t := [w] + s;
    if s != [] && Earlier(arrivals, w, s[0]) {
      forall i, j | 0 <= i < j < |t| ensures Earlier(arrivals, t[i], t[j]) {
        if i == 0 && j > 1 {
          EarlierTransits(arrivals, w, s[0], s[j - 1]);
        }
      }
    }
    if s != [] && Ordered(arrivals, t) {
      assert Earlier(arrivals, t[0], t[1]);
    }
  }

  lemma {:induction false} OrderedRemove(arrivals: seq<Task>, s: seq<Task>, a: Task)
    requires Ordered(arrivals, s)
    ensures Ordered(arrivals, RemoveFirst(s, a))
  {
    if s != [] {
      var t, u := RemoveFirst(s[1..], a), RemoveFirst(s, a);
      OrderedRemove(arrivals, s[1..], a);
      RemoveFirstMembers(s[1..], a);
      if s[0] != a {
        forall i, j | 0 <= i < j < |u| ensures Earlier(arrivals, u[i], u[j]) {
          if i == 0 {
            assert t[j - 1] in t && t[j - 1] in s[1..];
          }
        }
      }
    }
  }

  lemma StepKeepsOrdered(cfg: Config, now: int, r: Replica, e: Event)
    requires QueueSane(r) && SettledInv(r) && Enabled(now, r, e) && Ordered(r.arrivals, r.waiters)
    ensures var r' := Step(cfg, now, r, e); Ordered(r'.arrivals, r'.waiters) <==> PutsBackTheOldest(r, e)
  {
    var a := e.a;
    if e.TimerFires? {
      OrderedRemove(r.arrivals, r.waiters, a);
    } else if e.Resume? && MovesQueue(r, r.tasks[a].pc) {
      match r.tasks[a].pc
      case Missed => OrderedAppend(r.arrivals, r.waiters, a);
      case HandLost(_, w) => OrderedPrepend(r.arrivals, r.waiters, w);
      case _ =>
    } else {
      QuietMove(cfg, now, r, e);
    }
  }

  lemma OrderedMove(cfg: Config, ms: seq<Moment>, vs: seq<Move>, k: nat)
    requires IsRun(cfg, ms, vs) && k < |vs| && Ordered(ms[k].r.arrivals, ms[k].r.waiters)
    ensures Ordered(ms[k + 1].r.arrivals, ms[k + 1].r.waiters) <==> (vs[k].Do? ==> PutsBackTheOldest(ms[k].r, vs[k].e))
  {
    RunsStaySane(cfg, ms, vs, k);
    if vs[k].Do? {
      StepKeepsOrdered(cfg, ms[k].now, ms[k].r, vs[k].e);
    }
  }

  /** The exact condition: up to any moment of any run the queue stands in arrival order if and only if
      until then whoever is put back arrived before the head of the queue. */
  lemma QueueOrderIsExact(cfg: Config, ms: seq<Moment>, vs: seq<Move>, n: nat)
    requires IsRun(cfg, ms, vs) && n < |ms|
    ensures (forall k :: 0 <= k <= n ==> Ordered(ms[k].r.arrivals, ms[k].r.waiters))
            <==> forall k :: 0 <= k < n && vs[k].Do? ==> PutsBackTheOldest(ms[k].r, vs[k].e)
  {
    var p := (k: nat) => k < |ms| ==> Ordered(ms[k].r.arrivals, ms[k].r.waiters);
    var c := (k: nat) => k < |vs| && vs[k].Do? ==> PutsBackTheOldest(ms[k].r, vs[k].e);
    forall k: nat | k < n && p(k) ensures p(k + 1) <==> c(k) {
      OrderedMove(cfg, ms, vs, k);
    }
    ExactUpTo(p, c, n);
    assert forall k :: 0 <= k <= n ==> p(k) == Ordered(ms[k].r.arrivals, ms[k].r.waiters);
    assert forall k :: 0 <= k < n ==> c(k) == (vs[k].Do? ==> PutsBackTheOldest(ms[k].r, vs[k].e));
  }

  // ----- deadlines

  predicate Armed(r: Replica, w: Task) {
    w in r.tasks && r.tasks[w].timer.Some?
  }

  predicate AllArmed(r: Replica) {
    forall w :: w in r.waiters ==> Armed(r, w)
  }

  /** The timer of the waiter that is put back has not fired yet. */
  predicate PutsBackArmed(r: Replica, e: Event) {
    PutsBack(r, e) ==> Armed(r, r.tasks[e.a].pc.w)
  }

  /** Steps leave timers alone, but for the one that fires and the one of a task that queues. */
  lemma TimersStay(cfg: Config, now: int, r: Replica, e: Event, w: Task)
    requires Enabled(now, r, e) && w in r.tasks && e != TimerFires(w) && !(e == Resume(w) && r.tasks[w].pc.Missed?)
    ensures var r' := Step(cfg, now, r, e);
            w in r'.tasks && r'.tasks[w].timer == r.tasks[w].timer && r'.tasks[w].enqueueTime == r.tasks[w].enqueueTime
  {
    if w != e.a {
      Frame(cfg, now, r, e, w);
    } else {
      MoverKeepsTimer(cfg, now, r, e);
    }
  }

  lemma MoverKeepsTimer(cfg: Config, now: int, r: Replica, e: Event)
    requires Enabled(now, r, e) && e.a in r.tasks && !e.TimerFires? && !(e.Resume? && r.tasks[e.a].pc.Missed?)
    ensures var r' := Step(cfg, now, r, e);
            && e.a in r'.tasks
            && r'.tasks[e.a].timer == r.tasks[e.a].timer && r'.tasks[e.a].enqueueTime == r.tasks[e.a].enqueueTime
  {
  }

  /** Who is queued after a step was queued before, has just queued, or is put back. */
  lemma QueueAfter(cfg: Config, now: int, r: Replica, e: Event, w: Task)
    requires QueueSane(r) && Enabled(now, r, e)
    ensures var r' := Step(cfg, now, r, e);
            w in r'.waiters ==>
              || (w in r.waiters && e != TimerFires(w))
              || (e == Resume(w) && r.tasks[w].pc.Missed?)
              || (PutsBack(r, e) && r.tasks[e.a].pc.w == w)
  {
    if e.TimerFires? {
      SplitNoDuplicates(r.left, r.waiters);
      RemoveFirstFacts(r.waiters, e.a);
    } else if !(e.Resume? && MovesQueue(r, r.tasks[e.a].pc)) {
      QuietMove(cfg, now, r, e);
    }
  }

  lemma StepKeepsArmed(cfg: Config, now: int, r: Replica, e: Event)
    requires QueueSane(r) && SettledInv(r) && AllArmed(r) && Enabled(now, r, e)
    ensures AllArmed(Step(cfg, now, r, e)) <==> PutsBackArmed(r, e)
  {
    var r' := Step(cfg, now, r, e);
    if PutsBackArmed(r, e) {
      forall w | w in r'.waiters ensures Armed(r', w) {
        QueueAfter(cfg, now, r, e, w);
        if !(e == Resume(w) && r.tasks[w].pc.Missed?) {
          assert Armed(r, w);
          TimersStay(cfg, now, r, e, w);
        }
      }
    } else {
      var w := r.tasks[e.a].pc.w;
      assert Offers(r, e.a, w) && w in r.left && w in r.arrivals;
      TimersStay(cfg, now, r, e, w);
      assert w == r'.waiters[0] && w in r'.waiters && !Armed(r', w);
    }
  }

  lemma ArmedMove(cfg: Config, ms: seq<Moment>, vs: seq<Move>, k: nat)
    requires IsRun(cfg, ms, vs) && k < |vs| && AllArmed(ms[k].r)
    ensures AllArmed(ms[k + 1].r) <==> (vs[k].Do? ==> PutsBackArmed(ms[k].r, vs[k].e))
  {
    RunsStaySane(cfg, ms, vs, k);
    if vs[k].Do? {
      StepKeepsArmed(cfg, ms[k].now, ms[k].r, vs[k].e);
    }
  }

  /** The exact condition: up to any moment of any run everybody queued has its timer if and only if
      until then whoever is put back still has it. */
  lemma ArmedQueueIsExact(cfg: Config, ms: seq<Moment>, vs: seq<Move>, n: nat)
    requires IsRun(cfg, ms, vs) && n < |ms|
    ensures (forall k :: 0 <= k <= n ==> AllArmed(ms[k].r))
            <==> forall k :: 0 <= k < n && vs[k].Do? ==> PutsBackArmed(ms[k].r, vs[k].e)
  {
    var p := (k: nat) => k < |ms| ==> AllArmed(ms[k].r);
    var c := (k: nat) => k < |vs| && vs[k].Do? ==> PutsBackArmed(ms[k].r, vs[k].e);
    forall k: nat | k < n && p(k) ensures p(k + 1) <==> c(k) {
      ArmedMove(cfg, ms, vs, k);
    }
    ExactUpTo(p, c, n);
    assert forall k :: 0 <= k <= n ==> p(k) == AllArmed(ms[k].r);
    assert forall k :: 0 <= k < n ==> c(k) == (vs[k].Do? ==> PutsBackArmed(ms[k].r, vs[k].e));
  }

  /** Timers that fire on time: the clock never passes an armed deadline. */
  predicate OnTime(r: Replica, to: int) {
    forall a :: a in r.tasks && r.tasks[a].timer.Some? ==> to <= r.tasks[a].timer.value
  }

  ghost predicate IsPunctual(ms: seq<Moment>, vs: seq<Move>) {
    |ms| == |vs| + 1 && forall k :: 0 <= k < |vs| && vs[k].Tick? ==> OnTime(ms[k].r, vs[k].to)
  }

  /** An armed timer is due at the deadline. */
  predicate TimersFit(cfg: Config, r: Replica) {
    forall a :: a in r.tasks && r.tasks[a].timer.Some? ==>
      r.tasks[a].timer.value == r.tasks[a].enqueueTime + cfg.maxWaitMs
  }

  /** Where an armed timer comes from: it was armed before, or is being armed now. */
  lemma TimerSource(cfg: Config, now: int, r: Replica, e: Event, a: Task)
    requires Enabled(now, r, e)
    ensures var r' := Step(cfg, now, r, e);
            a in r'.tasks && r'.tasks[a].timer.Some? ==>
              || (a in r.tasks && r'.tasks[a].timer == r.tasks[a].timer
                  && r'.tasks[a].enqueueTime == r.tasks[a].enqueueTime)
              || (r'.tasks[a].timer.value == now + cfg.maxWaitMs && r'.tasks[a].enqueueTime == now)
  {
    if a != e.a {
      Frame(cfg, now, r, e, a);
    } else if e.a in r.tasks && !e.TimerFires? && !(e.Resume? && r.tasks[a].pc.Missed?) {
      MoverKeepsTimer(cfg, now, r, e);
    }
  }

  lemma {:induction false} RunsKeepFit(cfg: Config, ms: seq<Moment>, vs: seq<Move>, k: nat)
    requires IsRun(cfg, ms, vs) && k < |ms|
    ensures TimersFit(cfg, ms[k].r)
  {
    if k > 0 {
      RunsKeepFit(cfg, ms, vs, k - 1);
      var m, v := ms[k - 1], vs[k - 1];
      assert CanMove(m, v) && ms[k] == Moved(cfg, m, v);
      forall a | a in ms[k].r.tasks && ms[k].r.tasks[a].timer.Some?
        ensures ms[k].r.tasks[a].timer.value == ms[k].r.tasks[a].enqueueTime + cfg.maxWaitMs
      {
        if v.Do? { TimerSource(cfg, m.now, m.r, v.e, a); }
      }
    }
  }

  predicate NoneOverdue(m: Moment) {
    forall a :: a in m.r.tasks && m.r.tasks[a].timer.Some? ==> m.now <= m.r.tasks[a].timer.value
  }

  lemma {:induction false} RunsKeepDue(cfg: Config, ms: seq<Moment>, vs: seq<Move>, k: nat)
    requires IsRun(cfg, ms, vs) && IsPunctual(ms, vs) && k < |ms|
    ensures NoneOverdue(ms[k])
  {
    if k > 0 {
      RunsKeepDue(cfg, ms, vs, k - 1);
      var m, v := ms[k - 1], vs[k - 1];
      assert CanMove(m, v) && ms[k] == Moved(cfg, m, v);
      forall a | a in ms[k].r.tasks && ms[k].r.tasks[a].timer.Some?
        ensures ms[k].now <= ms[k].r.tasks[a].timer.value
      {
        if v.Do? { TimerSource(cfg, m.now, m.r, v.e, a); }
      }
    }
  }

  /** `w` queued at moment `m`. */
  predicate Enqueues(m: Moment, v: Move, w: Task) {
    v == Do(Resume(w)) && w in m.r.tasks && m.r.tasks[w].pc.Missed? && w !in m.r.arrivals
  }

  ghost predicate QueuedInTime(ms: seq<Moment>, vs: seq<Move>, n: nat, w: Task)
    requires n < |ms|
  {
    && w in ms[n].r.tasks
    && exists m :: 0 <= m < n && m < |vs| && m < |ms| && Enqueues(ms[m], vs[m], w)
                   && ms[n].r.tasks[w].enqueueTime == ms[m].now
  }

  lemma EnqueueTimeStays(cfg: Config, now: int, r: Replica, e: Event, w: Task)
    requires Enabled(now, r, e) && w in r.tasks && !(e == Resume(w) && r.tasks[w].pc.Missed?)
    ensures var r' := Step(cfg, now, r, e);
            w in r'.tasks && r'.tasks[w].enqueueTime == r.tasks[w].enqueueTime && (w in r'.arrivals ==> w in r.arrivals)
  {
    if e != TimerFires(w) {
      TimersStay(cfg, now, r, e, w);
    }
  }

  lemma {:induction false} EnqueuedAt(cfg: Config, ms: seq<Moment>, vs: seq<Move>, n: nat, w: Task)
    requires IsRun(cfg, ms, vs) && n < |ms| && w in ms[n].r.arrivals
    ensures QueuedInTime(ms, vs, n, w)
  {
    if n > 0 {
      var m, v := ms[n - 1], vs[n - 1];
      assert CanMove(m, v) && ms[n] == Moved(cfg, m, v);
      RunsKeepSettled(cfg, ms, vs, n - 1);
      if w in m.r.arrivals {
        EnqueuedAt(cfg, ms, vs, n - 1, w);
        if v.Do? { EnqueueTimeStays(cfg, m.now, m.r, v.e, w); }
      } else {
        assert v.Do? && v.e == Resume(w) && m.r.tasks[w].pc.Missed?;
        assert Enqueues(m, v, w);
      }
    }
  }

  /** So, with timers on time, nobody is queued longer than allowed after the moment it queued. */
  lemma WaitIsBounded(cfg: Config, ms: seq<Moment>, vs: seq<Move>, n: nat, w: Task) returns (m: nat)
    requires IsRun(cfg, ms, vs) && IsPunctual(ms, vs) && n < |ms| && w in ms[n].r.waiters
    requires forall k :: 0 <= k < n && vs[k].Do? ==> PutsBackArmed(ms[k].r, vs[k].e)
    ensures m < n && Enqueues(ms[m], vs[m], w) && ms[n].now <= ms[m].now + cfg.maxWaitMs
  {
    ArmedQueueIsExact(cfg, ms, vs, n);
    RunsKeepDue(cfg, ms, vs, n);
    RunsKeepFit(cfg, ms, vs, n);
    assert AllArmed(ms[n].r) && Armed(ms[n].r, w);
    RunsStaySane(cfg, ms, vs, n);
    EnqueuedAt(cfg, ms, vs, n, w);
    m :| 0 <= m < n && Enqueues(ms[m], vs[m], w) && ms[n].r.tasks[w].enqueueTime == ms[m].now;
  }

  /** Nor does a timer take anybody out of the queue earlier. */
  lemma NobodyTimesOutEarly(cfg: Config, ms: seq<Moment>, vs: seq<Move>, n: nat, w: Task) returns (m: nat)
    requires IsRun(cfg, ms, vs) && n < |vs| && vs[n] == Do(TimerFires(w)) && w in ms[n].r.waiters
    ensures m < n && Enqueues(ms[m], vs[m], w) && ms[n].now >= ms[m].now + cfg.maxWaitMs
  {
    assert CanMove(ms[n], vs[n]);
    RunsKeepFit(cfg, ms, vs, n);
    RunsStaySane(cfg, ms, vs, n);
    EnqueuedAt(cfg, ms, vs, n, w);
    m :| 0 <= m < n && Enqueues(ms[m], vs[m], w) && ms[n].r.tasks[w].enqueueTime == ms[m].now;
  }

  /** Whoever queued and has no timer: it is not going to queue again, and there is no timer to fire. */
  predicate Untimed(r: Replica, w: Task) {
    w in r.arrivals && w in r.tasks && !Armed(r, w) && BeyondQueue(r.tasks[w].pc)
  }

  lemma StaysUntimed(cfg: Config, now: int, r: Replica, e: Event, w: Task)
    requires SettledInv(r) && Enabled(now, r, e) && Untimed(r, w)
    requires SettledInv(Step(cfg, now, r, e))
    ensures e != TimerFires(w) && Untimed(Step(cfg, now, r, e), w)
  {
    assert e != TimerFires(w) && !(e == Resume(w) && r.tasks[w].pc.Missed?);
    TimersStay(cfg, now, r, e, w);
    HistoryGrows(cfg, now, r, e);
  }

  lemma UntimedMove(cfg: Config, ms: seq<Moment>, vs: seq<Move>, k: nat, w: Task)
    requires IsRun(cfg, ms, vs) && k < |vs| && Untimed(ms[k].r, w)
    ensures vs[k] != Do(TimerFires(w)) && Untimed(ms[k + 1].r, w)
  {
    assert CanMove(ms[k], vs[k]) && ms[k + 1] == Moved(cfg, ms[k], vs[k]);
    if vs[k].Do? {
      RunsKeepSettled(cfg, ms, vs, k);
      RunsKeepSettled(cfg, ms, vs, k + 1);
      StaysUntimed(cfg, ms[k].now, ms[k].r, vs[k].e, w);
    }
  }

  lemma QueuedWithoutTimer(r: Replica, w: Task)
    requires SettledInv(r) && w in r.arrivals && !Armed(r, w)
    ensures Untimed(r, w)
  {
  }

  /** ... while a timer that has been used up never comes back: whoever is put back without one stays
      until it is served. */
  lemma {:induction false} UsedUpTimerIsGone(cfg: Config, ms: seq<Moment>, vs: seq<Move>, k: nat, n: nat, w: Task)
    requires IsRun(cfg, ms, vs) && k <= n < |ms| && w in ms[k].r.arrivals && !Armed(ms[k].r, w)
    ensures Untimed(ms[n].r, w)
    ensures n < |vs| ==> vs[n] != Do(TimerFires(w))
  {
    if k < n {
      UsedUpTimerIsGone(cfg, ms, vs, k, n - 1, w);
      UntimedMove(cfg, ms, vs, n - 1, w);
    } else {
      RunsKeepSettled(cfg, ms, vs, k);
      QueuedWithoutTimer(ms[k].r, w);
    }
    if n < |vs| {
      UntimedMove(cfg, ms, vs, n, w);
    }
  }
}
