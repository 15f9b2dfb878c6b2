/** A scan of the pods, in every run and whatever goes on between its awaits: it passes over a pod
    only if the pod is reserved at that moment, or the store has refused it to this scan. */
module Scans {
  import opened Common
  import opened Leases
  import opened Replica

  /** The step goes on with a scan: for whom, and at which index of the list. */
  function ScanFrom(r: Replica, e: Event): Option<(For, nat)> {
    match e
    case Start(_) => Some((ForSelf, 0))
    case Resume(a) =>
      if a !in r.tasks then None
      else
        (match r.tasks[a].pc
         case TryLost(i, _, who) => Some((who, i + 1))
         case HandLost(Releasing(g, fin), w) => Some((ForWaiter(w, g, fin), 0))
         case _ => None)
    case _ => None
  }

  /** The pod whose reservation such a step gives up first. */
  function Dropped(r: Replica, e: Event): set<Pod> {
    if !e.Resume? || e.a !in r.tasks then {}
    else
      match r.tasks[e.a].pc
      case TryLost(_, p, _) => {p}
      case HandLost(c, _) => {c.Name()}
      case _ => {}
  }

  /** The scan has reserved the pod at this index. */
  function TriesAt(pc: PC, who: For): Option<(nat, Pod)> {
    match pc
    case TryRead(i, p, w) => if w == who then Some((i, p)) else None
    case TryGot(i, p, w, _) => if w == who then Some((i, p)) else None
    case TryPut(i, p, w, _, _) => if w == who then Some((i, p)) else None
    case TryLost(i, p, w) => if w == who then Some((i, p)) else None
    case TryWon(i, p, w, _) => if w == who then Some((i, p)) else None
    case _ => None
  }

  /** The store refuses the pod: no answer, a live lease, or a write that fails. */
  predicate Refuses(m: Moment, e: Event, i: nat, p: Pod, who: For) {
    && e.a in m.r.tasks && TriesAt(m.r.tasks[e.a].pc, who) == Some((i, p))
    && match m.r.tasks[e.a].pc {
         case TryGot(_, _, _, answer) => e.Resume? && (answer.None? || Live(answer.value, m.now))
         case TryPut(_, _, _, _, _) => e.PutServed? && e.won.None?
         case _ => false
       }
  }

  /** The scan comes past index `j`, whose pod is reserved. */
  predicate Skips(cfg: Config, r: Replica, e: Event, j: nat, who: For) {
    && ScanFrom(r, e).Some? && ScanFrom(r, e).value.0 == who && ScanFrom(r, e).value.1 <= j < |cfg.pods|
    && cfg.pods[j] in r.held - Dropped(r, e)
  }

  predicate PassesAt(cfg: Config, m: Moment, v: Move, a: Task, j: nat, who: For) {
    && v.Do? && v.e.a == a && j < |cfg.pods|
    && (Skips(cfg, m.r, v.e, j, who) || Refuses(m, v.e, j, cfg.pods[j], who))
  }

  /** At some moment from `s` on, and before `n`, the scan of `a` for `who` has passed index `j` for a reason. */
  predicate Passed(cfg: Config, ms: seq<Moment>, vs: seq<Move>, s: nat, n: nat, a: Task, j: nat, who: For)
    requires n <= |vs| < |ms|
  {
    n > s && (PassesAt(cfg, ms[n - 1], vs[n - 1], a, j, who) || Passed(cfg, ms, vs, s, n - 1, a, j, who))
  }

  lemma {:induction false} PassedAt(
    cfg: Config, ms: seq<Moment>, vs: seq<Move>, s: nat, n: nat, a: Task, j: nat, who: For)
    returns (m: nat)
    requires n <= |vs| < |ms| && Passed(cfg, ms, vs, s, n, a, j, who)
    ensures s <= m < n && PassesAt(cfg, ms[m], vs[m], a, j, who)
  {
    if PassesAt(cfg, ms[n - 1], vs[n - 1], a, j, who) {
      m := n - 1;
    } else {
      m := PassedAt(cfg, ms, vs, s, n - 1, a, j, who);
    }
  }

  predicate AllPassed(cfg: Config, ms: seq<Moment>, vs: seq<Move>, s: nat, n: nat, a: Task, to: nat, who: For)
    requires n <= |vs| < |ms|
  {
    forall j :: 0 <= j < to ==> Passed(cfg, ms, vs, s, n, a, j, who)
  }

  /** Where the scan of `a` for `who` is, if one is going on. */
  function Trying(r: Replica, a: Task, who: For): (at: Option<(nat, Pod)>)
    ensures at.Some? ==> a in r.tasks
  {
    if a in r.tasks then TriesAt(r.tasks[a].pc, who) else None
  }

  predicate ScanInv(cfg: Config, ms: seq<Moment>, vs: seq<Move>, s: nat, n: nat, a: Task, who: For)
    requires n <= |vs| < |ms|
  {
    match Trying(ms[n].r, a, who)
    case None => true
    case Some((i, p)) =>
      && i < |cfg.pods| && p == cfg.pods[i]
      && AllPassed(cfg, ms, vs, s, n, a, if ms[n].r.tasks[a].pc.TryLost? then i + 1 else i, who)
  }

  /** Where a scan goes in one step: to the first pod that is not reserved, or past the end. */
  ghost predicate GoesTo(cfg: Config, r: Replica, e: Event, who: For, from: nat, pc: PC) {
    if pc.TryRead? then
      && TriesAt(pc, who) == Some((pc.i, pc.p)) && from <= pc.i < |cfg.pods| && pc.p == cfg.pods[pc.i]
      && pc.p !in r.held - Dropped(r, e)
      && (forall j :: from <= j < pc.i ==> cfg.pods[j] in r.held - Dropped(r, e))
    else
      && pc == (if who.ForSelf? then Missed else Notifying(who.fin))
      && (forall j :: from <= j < |cfg.pods| ==> cfg.pods[j] in r.held - Dropped(r, e))
  }

  lemma ScanGoesTo(cfg: Config, r: Replica, a: Task, from: nat, who: For)
    requires a in r.tasks
    ensures var r' := Scan(cfg, r, a, from, who);
            a in r'.tasks &&
            var pc := r'.tasks[a].pc;
            if pc.TryRead? then
              && TriesAt(pc, who) == Some((pc.i, pc.p)) && from <= pc.i < |cfg.pods| && pc.p == cfg.pods[pc.i]
              && pc.p !in r.held && (forall j :: from <= j < pc.i ==> cfg.pods[j] in r.held)
            else
              && pc == (if who.ForSelf? then Missed else Notifying(who.fin))
              && (forall j :: from <= j < |cfg.pods| ==> cfg.pods[j] in r.held)
  {
  }

  lemma ScanStepGoesTo(cfg: Config, now: int, r: Replica, e: Event)
    requires Enabled(now, r, e) && ScanFrom(r, e).Some?
    ensures var (who, from) := ScanFrom(r, e).value;
            var r' := Step(cfg, now, r, e);
            e.a in r'.tasks && GoesTo(cfg, r, e, who, from, r'.tasks[e.a].pc)
  {
    var (who, from) := ScanFrom(r, e).value;
    if e.Start? {
      ScanGoesTo(cfg, r.(tasks := r.tasks[e.a := NewTask(Missed)]), e.a, 0, ForSelf);
    } else if r.tasks[e.a].pc.TryLost? {
      ScanGoesTo(cfg, r.(held := r.held - {r.tasks[e.a].pc.p}), e.a, from, who);
    } else {
      var HandLost(c, w) := r.tasks[e.a].pc;
      ScanGoesTo(cfg, PutBack(r, w).(held := r.held - {c.g.pod}), e.a, 0, who);
    }
  }

  /** Any other step keeps the index, and leaves it only when the store refuses the pod. */
  lemma OtherStepKeepsIndex(cfg: Config, now: int, r: Replica, e: Event, who: For)
    requires Enabled(now, r, e) && ScanFrom(r, e).None?
    ensures var r' := Step(cfg, now, r, e);
            && e.a in r'.tasks
            && (TriesAt(r'.tasks[e.a].pc, who).Some? ==>
                  && e.a in r.tasks && TriesAt(r.tasks[e.a].pc, who) == TriesAt(r'.tasks[e.a].pc, who)
                  && (r'.tasks[e.a].pc.TryLost? ==>
                        || r.tasks[e.a].pc.TryLost?
                        || var (i, p) := TriesAt(r.tasks[e.a].pc, who).value; Refuses(Moment(now, r), e, i, p, who)))
  {
  }

  lemma StaysPassed(cfg: Config, ms: seq<Moment>, vs: seq<Move>, s: nat, n: nat, a: Task, to: nat, who: For)
    requires n < |vs| < |ms| && AllPassed(cfg, ms, vs, s, n, a, to, who)
    ensures AllPassed(cfg, ms, vs, s, n + 1, a, to, who)
  {
    var n' := n + 1;
    forall j | 0 <= j < to ensures Passed(cfg, ms, vs, s, n', a, j, who) {
      assert Passed(cfg, ms, vs, s, n, a, j, who);
    }
  }

  /** A step of the scan passes the reserved pods from its index on. */
  lemma StepPasses(cfg: Config, ms: seq<Moment>, vs: seq<Move>, s: nat, n: nat, a: Task, who: For, from: nat, to: nat)
    requires s <= n < |vs| < |ms| && vs[n].Do? && vs[n].e.a == a
    requires ScanFrom(ms[n].r, vs[n].e) == Some((who, from)) && AllPassed(cfg, ms, vs, s, n, a, from, who)
    requires to <= |cfg.pods|
    requires forall j :: from <= j < to ==> cfg.pods[j] in ms[n].r.held - Dropped(ms[n].r, vs[n].e)
    ensures AllPassed(cfg, ms, vs, s, n + 1, a, to, who)
  {
    StaysPassed(cfg, ms, vs, s, n, a, from, who);
    var n' := n + 1;
    forall j | from <= j < to ensures Passed(cfg, ms, vs, s, n', a, j, who) {
      assert PassesAt(cfg, ms[n], vs[n], a, j, who);
    }
  }

  lemma {:induction false} ScanAlong(cfg: Config, ms: seq<Moment>, vs: seq<Move>, s: nat, n: nat, a: Task, who: For)
    requires s <= n <= |vs| < |ms| && ScanInv(cfg, ms, vs, s, s, a, who)
    requires forall i :: s <= i < n && ScanInv(cfg, ms, vs, s, i, a, who) ==> ScanInv(cfg, ms, vs, s, i + 1, a, who)
    ensures ScanInv(cfg, ms, vs, s, n, a, who)
  {
    if s < n {
      ScanAlong(cfg, ms, vs, s, n - 1, a, who);
    }
  }

  lemma RunsKeepScan(cfg: Config, ms: seq<Moment>, vs: seq<Move>, s: nat, n: nat, a: Task, who: For)
    requires IsRun(cfg, ms, vs) && s <= n < |ms| && Trying(ms[s].r, a, who).None?
    ensures ScanInv(cfg, ms, vs, s, n, a, who)
  {
    NothingTried(cfg, ms, vs, s, a, who);
    forall i | s <= i < n && ScanInv(cfg, ms, vs, s, i, a, who) ensures ScanInv(cfg, ms, vs, s, i + 1, a, who) {
      MoveKeepsScan(cfg, ms, vs, s, i, a, who);
    }
    ScanAlong(cfg, ms, vs, s, n, a, who);
  }

  lemma NothingTried(cfg: Config, ms: seq<Moment>, vs: seq<Move>, s: nat, a: Task, who: For)
    requires s <= |vs| < |ms| && Trying(ms[s].r, a, who).None?
    ensures ScanInv(cfg, ms, vs, s, s, a, who)
  {
  }

  lemma MoveKeepsScan(cfg: Config, ms: seq<Moment>, vs: seq<Move>, s: nat, n: nat, a: Task, who: For)
    requires IsRun(cfg, ms, vs) && s <= n < |vs| && ScanInv(cfg, ms, vs, s, n, a, who)
    ensures ScanInv(cfg, ms, vs, s, n + 1, a, who)
  {
    var m, v, m' := ms[n], vs[n], ms[n + 1];
    assert CanMove(m, v) && m' == Moved(cfg, m, v);
    if a in m'.r.tasks && TriesAt(m'.r.tasks[a].pc, who).Some? {
      var (i, p) := TriesAt(m'.r.tasks[a].pc, who).value;
      if v.Do? && v.e.a == a && ScanFrom(m.r, v.e).Some? {
        NextIndex(cfg, ms, vs, s, n, a, who);
      } else if v.Do? && v.e.a == a {
        OtherStepKeepsIndex(cfg, m.now, m.r, v.e, who);
        SameIndex(cfg, ms, vs, s, n, a, who, i, p);
      } else {
        if v.Do? { Frame(cfg, m.now, m.r, v.e, a); }
        SameIndex(cfg, ms, vs, s, n, a, who, i, p);
      }
    }
  }

  lemma NextIndex(cfg: Config, ms: seq<Moment>, vs: seq<Move>, s: nat, n: nat, a: Task, who: For)
    requires IsRun(cfg, ms, vs) && s <= n < |vs| && ScanInv(cfg, ms, vs, s, n, a, who)
    requires vs[n].Do? && vs[n].e.a == a && ScanFrom(ms[n].r, vs[n].e).Some?
    ensures ScanInv(cfg, ms, vs, s, n + 1, a, who)
  {
    var m, e := ms[n], vs[n].e;
    assert CanMove(m, vs[n]) && ms[n + 1] == Moved(cfg, m, vs[n]);
    ScanStepGoesTo(cfg, m.now, m.r, e);
    var (w, from) := ScanFrom(m.r, e).value;
    var pc := ms[n + 1].r.tasks[a].pc;
    if pc.TryRead? && w == who {
      StepPasses(cfg, ms, vs, s, n, a, who, from, pc.i);
    }
  }

  lemma SameIndex(cfg: Config, ms: seq<Moment>, vs: seq<Move>, s: nat, n: nat, a: Task, who: For, i: nat, p: Pod)
    requires s <= n < |vs| && |ms| == |vs| + 1 && ScanInv(cfg, ms, vs, s, n, a, who)
    requires a in ms[n].r.tasks && a in ms[n + 1].r.tasks
    requires TriesAt(ms[n].r.tasks[a].pc, who) == Some((i, p)) == TriesAt(ms[n + 1].r.tasks[a].pc, who)
    requires ms[n + 1].r.tasks[a].pc.TryLost? ==>
               || ms[n].r.tasks[a].pc.TryLost?
               || (vs[n].Do? && vs[n].e.a == a && Refuses(ms[n], vs[n].e, i, p, who))
    ensures ScanInv(cfg, ms, vs, s, n + 1, a, who)
  {
    StaysPassed(cfg, ms, vs, s, n, a, i, who);
    if ms[n].r.tasks[a].pc.TryLost? {
      StaysPassed(cfg, ms, vs, s, n, a, i + 1, who);
    } else if ms[n + 1].r.tasks[a].pc.TryLost? {
      assert PassesAt(cfg, ms[n], vs[n], a, i, who);
    }
  }

  /** A scan misses no pod. Whatever happens in between, it goes on to a pod that is not reserved, after
      passing each one before it for a reason, or it gives up when it has so passed them all. */
  lemma ScanMissesNothing(cfg: Config, ms: seq<Moment>, vs: seq<Move>, s: nat, n: nat, a: Task)
    requires IsRun(cfg, ms, vs) && s <= n < |vs| && vs[n].Do? && vs[n].e.a == a && ScanFrom(ms[n].r, vs[n].e).Some?
    requires Trying(ms[s].r, a, ScanFrom(ms[n].r, vs[n].e).value.0).None?
    ensures a in ms[n + 1].r.tasks
    ensures var who := ScanFrom(ms[n].r, vs[n].e).value.0;
            match ms[n + 1].r.tasks[a].pc {
              case TryRead(i, p, w) =>
                && w == who && i < |cfg.pods| && p == cfg.pods[i] && p !in ms[n].r.held - Dropped(ms[n].r, vs[n].e)
                && AllPassed(cfg, ms, vs, s, n + 1, a, i, who)
              case pc =>
                && pc == (if who.ForSelf? then Missed else Notifying(who.fin))
                && AllPassed(cfg, ms, vs, s, n + 1, a, |cfg.pods|, who)
            }
  {
    var m, e := ms[n], vs[n].e;
    assert CanMove(m, vs[n]) && ms[n + 1] == Moved(cfg, m, vs[n]);
    var (who, from) := ScanFrom(m.r, e).value;
    RunsKeepScan(cfg, ms, vs, s, n, a, who);
    ScanStepGoesTo(cfg, m.now, m.r, e);
    var pc := ms[n + 1].r.tasks[a].pc;
    StepPasses(cfg, ms, vs, s, n, a, who, from, if pc.TryRead? then pc.i else |cfg.pods|);
  }
}
