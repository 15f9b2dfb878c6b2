/** The transition system against the class: a call that nothing interrupts, whatever the store
    answers, does to the reservations and the queue what the method of the class promises. */
module Uninterrupted {
  import opened Common
  import opened Leases
  import opened Replica
  import opened Scans

  /** In moments `k` to `n` of a run only the call of task `a` goes on: the store answers it, or it resumes. */
  ghost predicate OnlyCall(cfg: Config, ms: seq<Moment>, vs: seq<Move>, k: nat, n: nat, a: Task) {
    && IsRun(cfg, ms, vs) && k <= n < |ms|
    && forall i :: k <= i < n ==>
        vs[i].Do? && vs[i].e.a == a && (vs[i].e.ReadServed? || vs[i].e.PutServed? || vs[i].e.Resume?)
  }

  ghost predicate OthersAsBefore(r0: Replica, r: Replica, a: Task) {
    forall b :: b != a ==> (b in r.tasks <==> b in r0.tasks) && (b in r.tasks ==> r.tasks[b] == r0.tasks[b])
  }

  /** The first waiter has left the queue and uses the pod of the lease `g`; the pod is an orphan
      if that waiter's promise was settled before. */
  predicate HeadGets(r0: Replica, r: Replica, g: Grant) {
    && r0.waiters != [] && r.waiters == r0.waiters[1..]
    && var w := r0.waiters[0];
       if w in r0.tasks && r0.tasks[w].pc.Waiting? then w in r.tasks && r.tasks[w] == GivenTo(r0.tasks[w], g)
       else g.pod in r.orphans
  }

  predicate HeadShifted(r0: Replica, r: Replica, w: Task) {
    r0.waiters != [] && w == r0.waiters[0] && r.waiters == r0.waiters[1..]
  }

  // ----- why a call ends as it does

  predicate RefusedAt(m: Moment, v: Move, a: Task, i: nat, p: Pod, who: For) {
    v.Do? && v.e.a == a && Refuses(m, v.e, i, p, who)
  }

  /** The call of `a` cannot get the pod at index `j`: it was in `held` already, or the store refused it. */
  ghost predicate OutOfReach(cfg: Config, ms: seq<Moment>, vs: seq<Move>, k: nat, n: nat, a: Task, j: nat, who: For,
      held: set<Pod>)
  {
    && j < |cfg.pods|
    && (|| cfg.pods[j] in held
        || exists m :: k <= m < n && m < |ms| && m < |vs| && RefusedAt(ms[m], vs[m], a, j, cfg.pods[j], who))
  }

  ghost predicate AllOutOfReach(cfg: Config, ms: seq<Moment>, vs: seq<Move>, k: nat, n: nat, a: Task, to: nat, who: For,
      held: set<Pod>)
  {
    forall j :: 0 <= j < to ==> OutOfReach(cfg, ms, vs, k, n, a, j, who, held)
  }

  /** At each step of this scan the reservations of all others are `held`. */
  ghost predicate ScansAmong(ms: seq<Moment>, vs: seq<Move>, k: nat, n: nat, a: Task, who: For, held: set<Pod>) {
    forall m :: k <= m < n && m < |ms| && m < |vs| && vs[m].Do? && vs[m].e.a == a
                && ScanFrom(ms[m].r, vs[m].e).Some? && ScanFrom(ms[m].r, vs[m].e).value.0 == who ==>
      ms[m].r.held - Dropped(ms[m].r, vs[m].e) == held
  }

  lemma PassedIsOut(cfg: Config, ms: seq<Moment>, vs: seq<Move>, k: nat, n: nat, a: Task, to: nat, who: For,
      held: set<Pod>)
    requires n <= |vs| < |ms| && AllPassed(cfg, ms, vs, k, n, a, to, who) && ScansAmong(ms, vs, k, n, a, who, held)
    ensures AllOutOfReach(cfg, ms, vs, k, n, a, to, who, held)
  {
    forall j | 0 <= j < to ensures OutOfReach(cfg, ms, vs, k, n, a, j, who, held) {
      var m := PassedAt(cfg, ms, vs, k, n, a, j, who);
      assert Skips(cfg, ms[m].r, vs[m].e, j, who) || RefusedAt(ms[m], vs[m], a, j, cfg.pods[j], who);
    }
  }

  lemma StaysOut(cfg: Config, ms: seq<Moment>, vs: seq<Move>, k: nat, n: nat, a: Task, to: nat, who: For,
      held: set<Pod>)
    requires AllOutOfReach(cfg, ms, vs, k, n, a, to, who, held)
    ensures AllOutOfReach(cfg, ms, vs, k, n + 1, a, to, who, held)
  {
    var n' := n + 1;
    forall j | 0 <= j < to ensures OutOfReach(cfg, ms, vs, k, n', a, j, who, held) {
      assert OutOfReach(cfg, ms, vs, k, n, a, j, who, held);
    }
  }

  /** The store has answered the hand-off write of `a`, with the lease it granted or with a refusal. */
  predicate HandAnswered(ms: seq<Moment>, vs: seq<Move>, k: nat, n: nat, a: Task, won: Option<Grant>) {
    exists m :: k <= m < n && m < |ms| && m < |vs| && IsHandAnswer(ms[m], vs[m], a, won)
  }

  predicate IsHandAnswer(m: Moment, v: Move, a: Task, won: Option<Grant>) {
    a in m.r.tasks && m.r.tasks[a].pc.HandPut? && v == Do(PutServed(a, won))
  }

  /** `clearLease` has come to its end for the pod of `c`: nothing could be read, or its write was answered. */
  predicate ClearTried(ms: seq<Moment>, vs: seq<Move>, k: nat, n: nat, a: Task, c: Cont) {
    exists m :: k <= m < n && m < |ms| && m < |vs| && IsClearEnd(ms[m], vs[m], a, c)
  }

  predicate IsClearEnd(m: Moment, v: Move, a: Task, c: Cont) {
    && a in m.r.tasks
    && (|| (m.r.tasks[a].pc == ClearGot(c, None) && v == Do(Resume(a)))
        || (m.r.tasks[a].pc.ClearPut? && m.r.tasks[a].pc.c == c && v == Do(PutServed(a, None))))
  }

  /** What happened to the call up to here: the clear is tried before a hand-off, a hand-off before a retry. */
  ghost predicate CallHistory(ms: seq<Moment>, vs: seq<Move>, k: nat, n: nat, a: Task, c: Cont)
    requires n < |ms|
  {
    && a in ms[n].r.tasks
    && match ms[n].r.tasks[a].pc {
         case Cleared(d) => d == c ==> ClearTried(ms, vs, k, n, a, c)
         case HandPut(d, _, _) => d == c ==> ClearTried(ms, vs, k, n, a, c)
         case HandLost(d, _) => d == c ==> ClearTried(ms, vs, k, n, a, c) && HandAnswered(ms, vs, k, n, a, None)
         case HandWon(d, _, g) => d == c ==> ClearTried(ms, vs, k, n, a, c) && HandAnswered(ms, vs, k, n, a, Some(g))
         case TryRead(_, _, who) => Retries(ms, vs, k, n, a, c, who)
         case TryGot(_, _, who, _) => Retries(ms, vs, k, n, a, c, who)
         case TryPut(_, _, who, _, _) => Retries(ms, vs, k, n, a, c, who)
         case TryLost(_, _, who) => Retries(ms, vs, k, n, a, c, who)
         case TryWon(_, _, who, _) => Retries(ms, vs, k, n, a, c, who)
         case _ => true
       }
  }

  ghost predicate Retries(ms: seq<Moment>, vs: seq<Move>, k: nat, n: nat, a: Task, c: Cont, who: For) {
    who.ForWaiter? && Releasing(who.g, who.fin) == c ==>
      ClearTried(ms, vs, k, n, a, c) && HandAnswered(ms, vs, k, n, a, None)
  }

  lemma HistoryStays(ms: seq<Moment>, vs: seq<Move>, k: nat, n: nat, a: Task, c: Cont, won: Option<Grant>)
    ensures ClearTried(ms, vs, k, n, a, c) ==> ClearTried(ms, vs, k, n + 1, a, c)
    ensures HandAnswered(ms, vs, k, n, a, won) ==> HandAnswered(ms, vs, k, n + 1, a, won)
  {
  }

  lemma HistoryGoesOn(cfg: Config, ms: seq<Moment>, vs: seq<Move>, k: nat, n: nat, a: Task, c: Cont)
    requires OnlyCall(cfg, ms, vs, k, n + 1, a) && k <= n && CallHistory(ms, vs, k, n, a, c)
    ensures CallHistory(ms, vs, k, n + 1, a, c)
  {
    var m, e := ms[n], vs[n].e;
    var pc := m.r.tasks[a].pc;
    assert CanMove(m, vs[n]) && ms[n + 1] == Moved(cfg, m, vs[n]);
    HistoryStays(ms, vs, k, n, a, c, None);
    if e.ReadServed? {
    } else if e.PutServed? {
      if pc.HandPut? {
        assert IsHandAnswer(m, vs[n], a, e.won);
      } else if pc.ClearPut? {
        assert pc.c == c ==> IsClearEnd(m, vs[n], a, c);
      }
    } else if pc.ClearGot? {
      assert pc == ClearGot(c, None) ==> IsClearEnd(m, vs[n], a, c);
    } else {
      ResumedHistory(cfg, m.now, m.r, a);
    }
  }

  lemma {:induction false} HistoryAlong(ms: seq<Moment>, vs: seq<Move>, k: nat, n: nat, a: Task, c: Cont)
    requires k <= n < |ms| && CallHistory(ms, vs, k, k, a, c)
    requires forall i :: k <= i < n && CallHistory(ms, vs, k, i, a, c) ==> CallHistory(ms, vs, k, i + 1, a, c)
    ensures CallHistory(ms, vs, k, n, a, c)
  {
    if k < n {
      HistoryAlong(ms, vs, k, n - 1, a, c);
    }
  }

  /** How a task goes on that is not inside `clearLease`. */
  lemma ResumedHistory(cfg: Config, now: int, r: Replica, a: Task)
    requires Enabled(now, r, Resume(a)) && !r.tasks[a].pc.ClearGot?
    ensures var pc, r' := r.tasks[a].pc, OnResume(cfg, now, r, a);
            && a in r'.tasks
            && match r'.tasks[a].pc {
                 case Cleared(_) => false
                 case HandPut(c, _, _) => pc == Cleared(c)
                 case HandLost(_, _) => false
                 case HandWon(_, _, _) => false
                 case TryRead(_, _, who) =>
                   || (pc.TryLost? && pc.who == who)
                   || (pc.HandLost? && pc.c.Releasing? && who == ForWaiter(pc.w, pc.c.g, pc.c.fin))
                 case TryGot(_, _, who, _) => false
                 case TryPut(_, _, who, _, _) => pc.TryGot? && pc.who == who
                 case TryLost(_, _, who) => pc.TryGot? && pc.who == who
                 case TryWon(_, _, _, _) => false
                 case _ => true
               }
  {
  }

  // ----- releasing

  predicate Unchanged(r0: Replica, r: Replica) {
    r.held == r0.held && r.waiters == r0.waiters
  }

  /** The retry for the waiter whose hand-off failed, at pod `q`. */
  predicate Retrying(r0: Replica, r: Replica, c: Cont, q: Pod, who: For) {
    && c.Releasing? && r0.waiters != [] && who == ForWaiter(r0.waiters[0], c.g, c.fin)
    && r.waiters == r0.waiters && q !in r0.held - {c.g.pod} && r.held == r0.held - {c.g.pod} + {q}
  }

  /** How far the release `c` by `a`, called in `r0`, has come. */
  ghost predicate ReleaseStage(r0: Replica, r: Replica, a: Task, c: Cont) {
    && c.Releasing? && a in r.tasks && a in r0.tasks && !r0.tasks[a].pc.Waiting?
    && (r.tasks[a].pc.Notifying? || OthersAsBefore(r0, r, a))
    && match r.tasks[a].pc {
         case ClearRead(d) => d == c && Unchanged(r0, r)
         case ClearGot(d, _) => d == c && Unchanged(r0, r)
         case ClearPut(d, _, _) => d == c && Unchanged(r0, r)
         case Cleared(d) => d == c && Unchanged(r0, r)
         case HandPut(d, w, _) => d == c && HeadShifted(r0, r, w) && r.held == r0.held
         case HandLost(d, w) => d == c && HeadShifted(r0, r, w) && r.held == r0.held
         case HandWon(d, w, g) => d == c && g.pod == c.g.pod && HeadShifted(r0, r, w) && r.held == r0.held
         case TryRead(_, q, who) => Retrying(r0, r, c, q, who)
         case TryGot(_, q, who, _) => Retrying(r0, r, c, q, who)
         case TryPut(_, q, who, _, _) => Retrying(r0, r, c, q, who)
         case TryLost(_, q, who) => Retrying(r0, r, c, q, who)
         case TryWon(_, q, who, g) => Retrying(r0, r, c, q, who) && g.pod == q
         case Notifying(_) => true
         case _ => false
       }
  }

  /** How a release ends: nobody was queued; or the head has this pod, whose hand-off was granted; or the
      hand-off was refused, and the head has the first pod of the list within reach, or none is. */
  ghost predicate Released(cfg: Config, ms: seq<Moment>, vs: seq<Move>, k: nat, n: nat, a: Task, c: Cont)
    requires n < |ms| && k < |ms| && c.Releasing?
  {
    var r0, r, p := ms[k].r, ms[n].r, c.g.pod;
    && ClearTried(ms, vs, k, n, a, c)
    && if r0.waiters == [] then
         r.waiters == [] && r.held == r0.held - {p}
       else
         var who := ForWaiter(r0.waiters[0], c.g, c.fin);
         || (exists g :: HeadGets(r0, r, g) && g.pod == p && r.held == r0.held
                         && HandAnswered(ms, vs, k, n, a, Some(g)))
         || (&& HandAnswered(ms, vs, k, n, a, None)
             && (|| (&& r.waiters == r0.waiters && r.held == r0.held - {p}
                     && AllOutOfReach(cfg, ms, vs, k, n, a, |cfg.pods|, who, r0.held - {p}))
                 || (exists g, i: nat :: RetryWins(cfg, r0, r, p, g, i)
                                         && AllOutOfReach(cfg, ms, vs, k, n, a, i, who, r0.held - {p}))))
  }

  predicate RetryWins(cfg: Config, r0: Replica, r: Replica, p: Pod, g: Grant, i: nat) {
    && HeadGets(r0, r, g) && i < |cfg.pods| && g.pod == cfg.pods[i]
    && g.pod !in r0.held - {p} && r.held == r0.held - {p} + {g.pod}
  }

  lemma GiveToHead(r0: Replica, r: Replica, a: Task, w: Task, g: Grant, r1: Replica, pc: PC)
    requires a in r1.tasks && a in r0.tasks && !r0.tasks[a].pc.Waiting? && OthersAsBefore(r0, r1, a) && !pc.Waiting?
    requires HeadShifted(r0, r1, w) && r == Resolve(Goto(r1, a, pc), w, g)
    ensures HeadGets(r0, r, g) && r.held == r1.held
  {
  }

  lemma ReleaseGoesOn(cfg: Config, now: int, r0: Replica, r: Replica, e: Event, c: Cont)
    requires Enabled(now, r, e) && (e.ReadServed? || e.PutServed? || e.Resume?)
    requires ReleaseStage(r0, r, e.a, c)
    ensures ReleaseStage(r0, Step(cfg, now, r, e), e.a, c)
  {
    if e.Resume? {
      ReleaseResumes(cfg, now, r0, r, e.a, c);
    } else {
      ReleaseAnswered(cfg, now, r0, r, e, c);
    }
  }

  lemma ReleaseAnswered(cfg: Config, now: int, r0: Replica, r: Replica, e: Event, c: Cont)
    requires Enabled(now, r, e) && (e.ReadServed? || e.PutServed?) && ReleaseStage(r0, r, e.a, c)
    ensures ReleaseStage(r0, Step(cfg, now, r, e), e.a, c)
  {
  }

  lemma ReleaseResumes(cfg: Config, now: int, r0: Replica, r: Replica, a: Task, c: Cont)
    requires Enabled(now, r, Resume(a)) && ReleaseStage(r0, r, a, c)
    ensures ReleaseStage(r0, OnResume(cfg, now, r, a), a, c)
  {
    var pc := r.tasks[a].pc;
    if pc.HandLost? || pc.TryLost? {
      ReleaseScans(cfg, now, r0, r, a, c);
    } else if pc.HandWon? || pc.TryWon? {
      ReleaseGives(cfg, now, r0, r, a, c);
    }
  }

  lemma ReleaseGives(cfg: Config, now: int, r0: Replica, r: Replica, a: Task, c: Cont)
    requires Enabled(now, r, Resume(a)) && ReleaseStage(r0, r, a, c)
    requires r.tasks[a].pc.HandWon? || r.tasks[a].pc.TryWon?
    ensures ReleaseStage(r0, OnResume(cfg, now, r, a), a, c)
  {
  }

  lemma ReleaseScans(cfg: Config, now: int, r0: Replica, r: Replica, a: Task, c: Cont)
    requires Enabled(now, r, Resume(a)) && ReleaseStage(r0, r, a, c)
    requires r.tasks[a].pc.HandLost? || r.tasks[a].pc.TryLost?
    ensures ReleaseStage(r0, OnResume(cfg, now, r, a), a, c)
    ensures OnResume(cfg, now, r, a).tasks[a].pc.Notifying? ==>
              var r' := OnResume(cfg, now, r, a);
              r'.waiters == r0.waiters && r'.held == r0.held - {c.g.pod}
  {
    if r.tasks[a].pc.HandLost? {
      assert [r0.waiters[0]] + r0.waiters[1..] == r0.waiters;
    }
  }

  lemma {:induction false} ReleaseStages(cfg: Config, ms: seq<Moment>, vs: seq<Move>, k: nat, n: nat, a: Task, c: Cont)
    requires OnlyCall(cfg, ms, vs, k, n, a) && a in ms[k].r.tasks
    requires ms[k].r.tasks[a].pc == ClearRead(c) && c.Releasing?
    ensures ReleaseStage(ms[k].r, ms[n].r, a, c)
  {
    if k < n {
      ReleaseStages(cfg, ms, vs, k, n - 1, a, c);
      ReleaseGoesOn(cfg, ms[n - 1].now, ms[k].r, ms[n - 1].r, vs[n - 1].e, c);
    }
  }

  lemma ReleaseHistory(cfg: Config, ms: seq<Moment>, vs: seq<Move>, k: nat, n: nat, a: Task, c: Cont)
    requires OnlyCall(cfg, ms, vs, k, n, a) && a in ms[k].r.tasks && ms[k].r.tasks[a].pc == ClearRead(c)
    ensures CallHistory(ms, vs, k, n, a, c)
  {
    forall i | k <= i < n && CallHistory(ms, vs, k, i, a, c) ensures CallHistory(ms, vs, k, i + 1, a, c) {
      HistoryGoesOn(cfg, ms, vs, k, i, a, c);
    }
    HistoryAlong(ms, vs, k, n, a, c);
  }

  /** While it retries, all others have what they had, without the released pod. */
  lemma RetriesAmong(cfg: Config, ms: seq<Moment>, vs: seq<Move>, k: nat, n: nat, a: Task, c: Cont, who: For)
    requires OnlyCall(cfg, ms, vs, k, n, a) && a in ms[k].r.tasks
    requires ms[k].r.tasks[a].pc == ClearRead(c) && c.Releasing? && who.ForWaiter?
    ensures ScansAmong(ms, vs, k, n, a, who, ms[k].r.held - {c.g.pod})
  {
    forall m | k <= m < n && vs[m].Do? && vs[m].e.a == a
               && ScanFrom(ms[m].r, vs[m].e).Some? && ScanFrom(ms[m].r, vs[m].e).value.0 == who
      ensures ms[m].r.held - Dropped(ms[m].r, vs[m].e) == ms[k].r.held - {c.g.pod}
    {
      ReleaseStages(cfg, ms, vs, k, m, a, c);
    }
  }

  /** The last step of a release. */
  lemma ReleaseEnds(cfg: Config, ms: seq<Moment>, vs: seq<Move>, k: nat, n: nat, a: Task, c: Cont)
    requires k <= n && OnlyCall(cfg, ms, vs, k, n + 1, a) && a in ms[k].r.tasks
    requires ms[k].r.tasks[a].pc == ClearRead(c) && c.Releasing?
    requires a in ms[n + 1].r.tasks && ms[n + 1].r.tasks[a].pc.Notifying?
    ensures Released(cfg, ms, vs, k, n + 1, a, c)
  {
    var r0, m, e, r' := ms[k].r, ms[n], vs[n].e, ms[n + 1].r;
    assert CanMove(m, vs[n]) && ms[n + 1] == Moved(cfg, m, vs[n]);
    ReleaseStages(cfg, ms, vs, k, n, a, c);
    ReleaseHistory(cfg, ms, vs, k, n, a, c);
    var pc := m.r.tasks[a].pc;
    HistoryStays(ms, vs, k, n, a, c, None);
    if pc.HandWon? {
      HistoryStays(ms, vs, k, n, a, c, Some(pc.g));
      GiveToHead(r0, r', a, pc.w, pc.g, m.r, Notifying(pc.c.fin));
    } else if pc.TryWon? {
      RetryEnds(cfg, ms, vs, k, n, a, c);
    } else if pc.TryLost? || pc.HandLost? {
      RetryFails(cfg, ms, vs, k, n, a, c);
    }
  }

  lemma RetryEnds(cfg: Config, ms: seq<Moment>, vs: seq<Move>, k: nat, n: nat, a: Task, c: Cont)
    requires k <= n && OnlyCall(cfg, ms, vs, k, n + 1, a) && a in ms[k].r.tasks
    requires ms[k].r.tasks[a].pc == ClearRead(c) && c.Releasing?
    requires a in ms[n].r.tasks && ms[n].r.tasks[a].pc.TryWon? && vs[n].e.Resume?
    ensures var pc := ms[n].r.tasks[a].pc;
            && RetryWins(cfg, ms[k].r, ms[n + 1].r, c.g.pod, pc.g, pc.i) && pc.who.ForWaiter?
            && AllOutOfReach(cfg, ms, vs, k, n + 1, a, pc.i, pc.who, ms[k].r.held - {c.g.pod})
  {
    var m, r', pc := ms[n], ms[n + 1].r, ms[n].r.tasks[a].pc;
    assert CanMove(m, vs[n]) && ms[n + 1] == Moved(cfg, m, vs[n]);
    ReleaseStages(cfg, ms, vs, k, n, a, c);
    var r1 := m.r.(waiters := Tail(m.r.waiters), left := m.r.left + Front(m.r.waiters));
    GiveToHead(ms[k].r, r', a, pc.who.w, pc.g, r1, Notifying(pc.who.fin));
    RunsKeepScan(cfg, ms, vs, k, n, a, pc.who);
    RetriesAmong(cfg, ms, vs, k, n, a, c, pc.who);
    PassedIsOut(cfg, ms, vs, k, n, a, pc.i, pc.who, ms[k].r.held - {c.g.pod});
    StaysOut(cfg, ms, vs, k, n, a, pc.i, pc.who, ms[k].r.held - {c.g.pod});
  }

  lemma RetryStands(cfg: Config, ms: seq<Moment>, vs: seq<Move>, k: nat, n: nat, a: Task, c: Cont)
    requires k <= n && OnlyCall(cfg, ms, vs, k, n + 1, a) && a in ms[k].r.tasks
    requires ms[k].r.tasks[a].pc == ClearRead(c) && c.Releasing?
    requires a in ms[n].r.tasks && (ms[n].r.tasks[a].pc.TryLost? || ms[n].r.tasks[a].pc.HandLost?) && vs[n].e.Resume?
    requires a in ms[n + 1].r.tasks && ms[n + 1].r.tasks[a].pc.Notifying?
    ensures var r0, r := ms[k].r, ms[n + 1].r;
            && r0.waiters != [] && r.waiters == r0.waiters && r.held == r0.held - {c.g.pod}
            && ScanFrom(ms[n].r, vs[n].e).Some?
            && ScanFrom(ms[n].r, vs[n].e).value.0 == ForWaiter(r0.waiters[0], c.g, c.fin)
  {
    var m := ms[n];
    assert CanMove(m, vs[n]) && ms[n + 1] == Moved(cfg, m, vs[n]);
    ReleaseStages(cfg, ms, vs, k, n, a, c);
    ReleaseScans(cfg, m.now, ms[k].r, m.r, a, c);
  }

  lemma RetryFails(cfg: Config, ms: seq<Moment>, vs: seq<Move>, k: nat, n: nat, a: Task, c: Cont)
    requires k <= n && OnlyCall(cfg, ms, vs, k, n + 1, a) && a in ms[k].r.tasks
    requires ms[k].r.tasks[a].pc == ClearRead(c) && c.Releasing?
    requires a in ms[n].r.tasks && (ms[n].r.tasks[a].pc.TryLost? || ms[n].r.tasks[a].pc.HandLost?) && vs[n].e.Resume?
    requires a in ms[n + 1].r.tasks && ms[n + 1].r.tasks[a].pc.Notifying?
    ensures var r0, r, held := ms[k].r, ms[n + 1].r, ms[k].r.held - {c.g.pod};
            && r0.waiters != [] && r.waiters == r0.waiters && r.held == held
            && AllOutOfReach(cfg, ms, vs, k, n + 1, a, |cfg.pods|, ForWaiter(r0.waiters[0], c.g, c.fin), held)
  {
    RetryStands(cfg, ms, vs, k, n, a, c);
    var who := ForWaiter(ms[k].r.waiters[0], c.g, c.fin);
    ScanMissesNothing(cfg, ms, vs, k, n, a);
    RetriesAmong(cfg, ms, vs, k, n + 1, a, c, who);
    PassedIsOut(cfg, ms, vs, k, n + 1, a, |cfg.pods|, who, ms[k].r.held - {c.g.pod});
  }

  /** `releasePod` called in moment `k` and settled in moment `n`, with nothing else in between. */
  lemma ReleaseInOneGo(cfg: Config, ms: seq<Moment>, vs: seq<Move>, k: nat, n: nat, a: Task, c: Cont)
    requires OnlyCall(cfg, ms, vs, k, n, a) && a in ms[k].r.tasks
    requires ms[k].r.tasks[a].pc == ClearRead(c) && c.Releasing?
    ensures ReleaseStage(ms[k].r, ms[n].r, a, c)
    ensures ms[n].r.tasks[a].pc.Notifying? ==> Released(cfg, ms, vs, k, n, a, c)
  {
    ReleaseStages(cfg, ms, vs, k, n, a, c);
    if ms[n].r.tasks[a].pc.Notifying? {
      ReleaseEnds(cfg, ms, vs, k, n - 1, a, c);
    }
  }

  // ----- acquiring

  predicate Trying(cfg: Config, r0: Replica, r: Replica, q: Pod) {
    q in cfg.pods && q !in r0.held && r.held == r0.held + {q} && r.waiters == r0.waiters
  }

  /** How far the acquire of `a`, called in `r0`, has come. */
  predicate AcquireStage(cfg: Config, r0: Replica, r: Replica, a: Task) {
    && a in r.tasks
    && match r.tasks[a].pc {
         case TryRead(_, q, who) => who.ForSelf? && Trying(cfg, r0, r, q)
         case TryGot(_, q, who, _) => who.ForSelf? && Trying(cfg, r0, r, q)
         case TryPut(_, q, who, _, _) => who.ForSelf? && Trying(cfg, r0, r, q)
         case TryLost(_, q, who) => who.ForSelf? && Trying(cfg, r0, r, q)
         case TryWon(_, q, who, g) => who.ForSelf? && Trying(cfg, r0, r, q) && g.pod == q
         case Missed => Unchanged(r0, r)
         case Holding(g, _) => Trying(cfg, r0, r, g.pod)
         case Waiting => r.held == r0.held && r.waiters == r0.waiters + [a]
         case _ => false
       }
  }

  lemma ScanReserves(cfg: Config, r0: Replica, r: Replica, a: Task, from: nat)
    requires a in r.tasks && Unchanged(r0, r)
    ensures AcquireStage(cfg, r0, Scan(cfg, r, a, from, ForSelf), a)
  {
  }

  lemma AcquireGoesOn(cfg: Config, now: int, r0: Replica, r: Replica, e: Event)
    requires Enabled(now, r, e) && (e.ReadServed? || e.PutServed? || e.Resume?)
    requires AcquireStage(cfg, r0, r, e.a)
    ensures AcquireStage(cfg, r0, Step(cfg, now, r, e), e.a)
  {
    if e.Resume? && r.tasks[e.a].pc.TryLost? {
      var TryLost(i, p, who) := r.tasks[e.a].pc;
      ScanReserves(cfg, r0, r.(held := r.held - {p}), e.a, i + 1);
    }
  }

  lemma {:induction false} AcquireStages(cfg: Config, ms: seq<Moment>, vs: seq<Move>, k: nat, n: nat, a: Task)
    requires k < n && OnlyCall(cfg, ms, vs, k + 1, n, a) && vs[k] == Do(Start(a))
    ensures AcquireStage(cfg, ms[k].r, ms[n].r, a)
    decreases n
  {
    if n == k + 1 {
      var r := ms[k].r;
      assert CanMove(ms[k], vs[k]) && ms[k + 1] == Moved(cfg, ms[k], vs[k]);
      ScanReserves(cfg, r, r.(tasks := r.tasks[a := NewTask(Missed)]), a, 0);
    } else {
      AcquireStages(cfg, ms, vs, k, n - 1, a);
      AcquireGoesOn(cfg, ms[n - 1].now, ms[k].r, ms[n - 1].r, vs[n - 1].e);
    }
  }

  lemma AcquiresAmong(cfg: Config, ms: seq<Moment>, vs: seq<Move>, k: nat, n: nat, a: Task)
    requires k < n && OnlyCall(cfg, ms, vs, k + 1, n, a) && vs[k] == Do(Start(a))
    ensures ScansAmong(ms, vs, k, n, a, ForSelf, ms[k].r.held)
  {
    forall m | k <= m < n && vs[m].Do? && vs[m].e.a == a
               && ScanFrom(ms[m].r, vs[m].e).Some? && ScanFrom(ms[m].r, vs[m].e).value.0 == ForSelf
      ensures ms[m].r.held - Dropped(ms[m].r, vs[m].e) == ms[k].r.held
    {
      if m > k { AcquireStages(cfg, ms, vs, k, m, a); }
    }
  }

  /** Why the acquire is where it is: a job queues only when no pod of the list is within reach, and
      whoever got a pod got the first one that is. */
  ghost predicate Acquired(cfg: Config, ms: seq<Moment>, vs: seq<Move>, k: nat, n: nat, a: Task)
    requires n < |ms| && k < |ms|
  {
    && a in ms[n].r.tasks
    && match ms[n].r.tasks[a].pc {
         case Missed => AllOutOfReach(cfg, ms, vs, k, n, a, |cfg.pods|, ForSelf, ms[k].r.held)
         case Waiting => AllOutOfReach(cfg, ms, vs, k, n, a, |cfg.pods|, ForSelf, ms[k].r.held)
         case Holding(g, _) =>
           exists i: nat :: i < |cfg.pods| && g.pod == cfg.pods[i]
                            && AllOutOfReach(cfg, ms, vs, k, n, a, i, ForSelf, ms[k].r.held)
         case _ => true
       }
  }

  lemma AcquireEnds(cfg: Config, ms: seq<Moment>, vs: seq<Move>, k: nat, n: nat, a: Task)
    requires k <= n && n + 1 < |ms| && OnlyCall(cfg, ms, vs, k + 1, n + 1, a) && vs[k] == Do(Start(a))
    requires k < n ==> Acquired(cfg, ms, vs, k, n, a)
    ensures Acquired(cfg, ms, vs, k, n + 1, a)
  {
    var m, e := ms[n], vs[n].e;
    assert CanMove(m, vs[n]) && ms[n + 1] == Moved(cfg, m, vs[n]);
    if k < n { AcquireStages(cfg, ms, vs, k, n, a); }
    if ScanFrom(m.r, e).Some? {
      ScanMissesNothing(cfg, ms, vs, k, n, a);
      AcquiresAmong(cfg, ms, vs, k, n + 1, a);
      if ms[n + 1].r.tasks[a].pc.Missed? {
        PassedIsOut(cfg, ms, vs, k, n + 1, a, |cfg.pods|, ForSelf, ms[k].r.held);
      }
    } else if m.r.tasks[a].pc.TryWon? {
      AcquireWins(cfg, ms, vs, k, n, a);
    } else if m.r.tasks[a].pc.Missed? {
      StaysOut(cfg, ms, vs, k, n, a, |cfg.pods|, ForSelf, ms[k].r.held);
    }
  }

  lemma AcquireWins(cfg: Config, ms: seq<Moment>, vs: seq<Move>, k: nat, n: nat, a: Task)
    requires k < n && OnlyCall(cfg, ms, vs, k + 1, n + 1, a) && vs[k] == Do(Start(a))
    requires a in ms[n].r.tasks && ms[n].r.tasks[a].pc.TryWon? && vs[n].e.Resume?
    ensures Acquired(cfg, ms, vs, k, n + 1, a)
  {
    var m, pc := ms[n], ms[n].r.tasks[a].pc;
    assert CanMove(m, vs[n]) && ms[n + 1] == Moved(cfg, m, vs[n]);
    assert CanMove(ms[k], vs[k]) && a !in ms[k].r.tasks;
    AcquireStages(cfg, ms, vs, k, n, a);
    RunsKeepScan(cfg, ms, vs, k, n, a, ForSelf);
    AcquiresAmong(cfg, ms, vs, k, n, a);
    PassedIsOut(cfg, ms, vs, k, n, a, pc.i, ForSelf, ms[k].r.held);
    StaysOut(cfg, ms, vs, k, n, a, pc.i, ForSelf, ms[k].r.held);
  }

  /** `acquirePod` called in moment `k` and settled, or queued, in moment `n`: the first pod of the list
      within reach, which was not reserved and now is, or a place at the end of the queue if there is none. */
  lemma {:induction false} AcquireInOneGo(cfg: Config, ms: seq<Moment>, vs: seq<Move>, k: nat, n: nat, a: Task)
    requires k < n && OnlyCall(cfg, ms, vs, k + 1, n, a) && vs[k] == Do(Start(a))
    ensures AcquireStage(cfg, ms[k].r, ms[n].r, a)
    ensures Acquired(cfg, ms, vs, k, n, a)
    decreases n
  {
    AcquireStages(cfg, ms, vs, k, n, a);
    if k < n - 1 {
      AcquireInOneGo(cfg, ms, vs, k, n - 1, a);
    }
    AcquireEnds(cfg, ms, vs, k, n - 1, a);
  }

  // ----- one visit of the watchdog

  predicate LooksZombie(answer: Option<Lease>, now: int) {
    answer.Some? && answer.value.holder.Some? && IsExpired(answer.value, now)
  }

  /** The visit has looked at the lease of `p`, and this is what it saw. */
  predicate Saw(ms: seq<Moment>, vs: seq<Move>, k: nat, n: nat, a: Task, p: Pod, zombie: bool) {
    exists m :: k <= m < n && m < |ms| && m < |vs| && IsLook(ms[m], vs[m], a, p, zombie)
  }

  predicate IsLook(m: Moment, v: Move, a: Task, p: Pod, zombie: bool) {
    && v == Do(Resume(a)) && a in m.r.tasks && m.r.tasks[a].pc.DogGot? && m.r.tasks[a].pc.p == p
    && (LooksZombie(m.r.tasks[a].pc.answer, m.now) <==> zombie)
  }

  /** How a visit ends: it saw no zombie and changed nothing; or it has tried to clear the lease and dropped
      the pod, and then nobody was queued, or the head has the pod, or its hand-off was refused. */
  ghost predicate VisitOver(ms: seq<Moment>, vs: seq<Move>, k: nat, n: nat, a: Task, p: Pod)
    requires n < |ms| && k < |ms|
  {
    var r0, r := ms[k].r, ms[n].r;
    || (Saw(ms, vs, k, n, a, p, false) && Unchanged(r0, r))
    || (&& Saw(ms, vs, k, n, a, p, true) && ClearTried(ms, vs, k, n, a, Zombie(p))
        && (|| (r0.waiters == [] == r.waiters && r.held == r0.held - {p})
            || (&& r0.waiters != [] && HandAnswered(ms, vs, k, n, a, None)
                && r.waiters == r0.waiters && r.held == r0.held - {p})
            || (exists g :: HandAnswered(ms, vs, k, n, a, Some(g))
                            && HeadGets(r0, r, g) && g.pod == p && r.held == r0.held + {p})))
  }

  /** How far the visit of `a` to `p`, begun in `r0`, has come. */
  ghost predicate VisitStage(r0: Replica, r: Replica, a: Task, p: Pod) {
    && a in r.tasks && a in r0.tasks && !r0.tasks[a].pc.Waiting?
    && (r.tasks[a].pc.Finished? || OthersAsBefore(r0, r, a))
    && match r.tasks[a].pc {
         case DogRead(q) => q == p && Unchanged(r0, r)
         case DogGot(q, _) => q == p && Unchanged(r0, r)
         case ClearRead(c) => c == Zombie(p) && Unchanged(r0, r)
         case ClearGot(c, _) => c == Zombie(p) && Unchanged(r0, r)
         case ClearPut(c, _, _) => c == Zombie(p) && Unchanged(r0, r)
         case Cleared(c) => c == Zombie(p) && Unchanged(r0, r)
         case HandPut(c, w, _) => c == Zombie(p) && HeadShifted(r0, r, w) && r.held == r0.held - {p}
         case HandLost(c, w) => c == Zombie(p) && HeadShifted(r0, r, w) && r.held == r0.held - {p}
         case HandWon(c, w, g) => c == Zombie(p) && g.pod == p && HeadShifted(r0, r, w) && r.held == r0.held - {p}
         case Finished => true
         case _ => false
       }
  }

  /** Beyond its first look a visit has seen a zombie. */
  ghost predicate HasLooked(ms: seq<Moment>, vs: seq<Move>, k: nat, n: nat, a: Task, p: Pod)
    requires n < |ms|
  {
    && a in ms[n].r.tasks
    && (ms[n].r.tasks[a].pc.DogRead? || ms[n].r.tasks[a].pc.DogGot? || ms[n].r.tasks[a].pc.Finished?
        || Saw(ms, vs, k, n, a, p, true))
  }

  lemma VisitGoesOn(cfg: Config, now: int, r0: Replica, r: Replica, e: Event, p: Pod)
    requires Enabled(now, r, e) && (e.ReadServed? || e.PutServed? || e.Resume?)
    requires VisitStage(r0, r, e.a, p)
    ensures VisitStage(r0, Step(cfg, now, r, e), e.a, p)
  {
    if e.Resume? {
      VisitResumes(cfg, now, r0, r, e.a, p);
    } else {
      VisitAnswered(cfg, now, r0, r, e, p);
    }
  }

  lemma VisitAnswered(cfg: Config, now: int, r0: Replica, r: Replica, e: Event, p: Pod)
    requires Enabled(now, r, e) && (e.ReadServed? || e.PutServed?) && VisitStage(r0, r, e.a, p)
    ensures VisitStage(r0, Step(cfg, now, r, e), e.a, p)
  {
  }

  lemma VisitResumes(cfg: Config, now: int, r0: Replica, r: Replica, a: Task, p: Pod)
    requires Enabled(now, r, Resume(a)) && VisitStage(r0, r, a, p)
    ensures VisitStage(r0, OnResume(cfg, now, r, a), a, p)
  {
    if r.tasks[a].pc.Cleared? {
      VisitDropsPod(cfg, now, r0, r, a, p);
    }
  }

  lemma VisitDropsPod(cfg: Config, now: int, r0: Replica, r: Replica, a: Task, p: Pod)
    requires Enabled(now, r, Resume(a)) && VisitStage(r0, r, a, p) && r.tasks[a].pc.Cleared?
    ensures VisitStage(r0, OnResume(cfg, now, r, a), a, p)
  {
  }

  lemma SawStays(ms: seq<Moment>, vs: seq<Move>, k: nat, n: nat, a: Task, p: Pod, zombie: bool)
    requires Saw(ms, vs, k, n, a, p, zombie)
    ensures Saw(ms, vs, k, n + 1, a, p, zombie)
  {
  }

  lemma LooksOn(cfg: Config, ms: seq<Moment>, vs: seq<Move>, k: nat, n: nat, a: Task, p: Pod)
    requires k <= n && OnlyCall(cfg, ms, vs, k, n + 1, a) && k < |ms|
    requires VisitStage(ms[k].r, ms[n].r, a, p) && HasLooked(ms, vs, k, n, a, p)
    ensures HasLooked(ms, vs, k, n + 1, a, p)
    ensures ms[n].r.tasks[a].pc.DogGot? && ms[n + 1].r.tasks[a].pc.Finished? ==> Saw(ms, vs, k, n + 1, a, p, false)
  {
    var m, v := ms[n], vs[n];
    assert CanMove(m, v) && ms[n + 1] == Moved(cfg, m, v);
    if m.r.tasks[a].pc.DogGot? {
      assert v == Do(Resume(a)) && IsLook(m, v, a, p, LooksZombie(m.r.tasks[a].pc.answer, m.now));
    } else if Saw(ms, vs, k, n, a, p, true) {
      SawStays(ms, vs, k, n, a, p, true);
    }
  }

  lemma {:induction false} VisitStages(cfg: Config, ms: seq<Moment>, vs: seq<Move>, k: nat, n: nat, a: Task, p: Pod)
    requires OnlyCall(cfg, ms, vs, k, n, a) && a in ms[k].r.tasks && ms[k].r.tasks[a].pc == DogRead(p)
    ensures VisitStage(ms[k].r, ms[n].r, a, p)
  {
    if k < n {
      VisitStages(cfg, ms, vs, k, n - 1, a, p);
      VisitGoesOn(cfg, ms[n - 1].now, ms[k].r, ms[n - 1].r, vs[n - 1].e, p);
    }
  }

  lemma {:induction false} LooksAlong(ms: seq<Moment>, vs: seq<Move>, k: nat, n: nat, a: Task, p: Pod)
    requires k <= n < |ms| && HasLooked(ms, vs, k, k, a, p)
    requires forall i :: k <= i < n && HasLooked(ms, vs, k, i, a, p) ==> HasLooked(ms, vs, k, i + 1, a, p)
    ensures HasLooked(ms, vs, k, n, a, p)
  {
    if k < n {
      LooksAlong(ms, vs, k, n - 1, a, p);
    }
  }

  lemma VisitLooks(cfg: Config, ms: seq<Moment>, vs: seq<Move>, k: nat, n: nat, a: Task, p: Pod)
    requires OnlyCall(cfg, ms, vs, k, n, a) && a in ms[k].r.tasks && ms[k].r.tasks[a].pc == DogRead(p)
    ensures HasLooked(ms, vs, k, n, a, p)
  {
    forall i | k <= i < n && HasLooked(ms, vs, k, i, a, p) ensures HasLooked(ms, vs, k, i + 1, a, p) {
      VisitStages(cfg, ms, vs, k, i, a, p);
      LooksOn(cfg, ms, vs, k, i, a, p);
    }
    LooksAlong(ms, vs, k, n, a, p);
  }

  lemma VisitHistory(cfg: Config, ms: seq<Moment>, vs: seq<Move>, k: nat, n: nat, a: Task, p: Pod)
    requires OnlyCall(cfg, ms, vs, k, n, a) && a in ms[k].r.tasks && ms[k].r.tasks[a].pc == DogRead(p)
    ensures CallHistory(ms, vs, k, n, a, Zombie(p))
  {
    forall i | k <= i < n && CallHistory(ms, vs, k, i, a, Zombie(p)) ensures CallHistory(ms, vs, k, i + 1, a, Zombie(p))
    {
      HistoryGoesOn(cfg, ms, vs, k, i, a, Zombie(p));
    }
    HistoryAlong(ms, vs, k, n, a, Zombie(p));
  }

  lemma VisitGives(cfg: Config, now: int, r0: Replica, r: Replica, a: Task, p: Pod)
    requires Enabled(now, r, Resume(a)) && VisitStage(r0, r, a, p) && r.tasks[a].pc.HandWon?
    ensures var r', g := OnResume(cfg, now, r, a), r.tasks[a].pc.g;
            HeadGets(r0, r', g) && g.pod == p && r'.held == r0.held + {p}
  {
    var pc := r.tasks[a].pc;
    GiveToHead(r0, OnResume(cfg, now, r, a), a, pc.w, pc.g, r.(held := r.held + {p}), Finished);
  }

  lemma VisitKeeps(cfg: Config, now: int, r0: Replica, r: Replica, a: Task, p: Pod)
    requires Enabled(now, r, Resume(a)) && VisitStage(r0, r, a, p) && !r.tasks[a].pc.HandWon?
    requires OnResume(cfg, now, r, a).tasks[a].pc.Finished?
    ensures var pc, r' := r.tasks[a].pc, OnResume(cfg, now, r, a);
            && r'.waiters == r0.waiters
            && (pc.DogGot? ==> r'.held == r0.held)
            && (!pc.DogGot? ==> r'.held == r0.held - {p})
            && (!pc.DogGot? ==> if pc.HandLost? then r0.waiters != [] else pc.Cleared? && r0.waiters == [])
  {
    if r.tasks[a].pc.HandLost? {
      assert [r0.waiters[0]] + r0.waiters[1..] == r0.waiters;
    }
  }

  lemma VisitEnds(cfg: Config, ms: seq<Moment>, vs: seq<Move>, k: nat, n: nat, a: Task, p: Pod)
    requires k <= n && OnlyCall(cfg, ms, vs, k, n + 1, a)
    requires a in ms[k].r.tasks && ms[k].r.tasks[a].pc == DogRead(p)
    requires a in ms[n + 1].r.tasks && ms[n + 1].r.tasks[a].pc.Finished?
    ensures VisitOver(ms, vs, k, n + 1, a, p)
  {
    var r0, m := ms[k].r, ms[n];
    assert CanMove(m, vs[n]) && ms[n + 1] == Moved(cfg, m, vs[n]);
    VisitStages(cfg, ms, vs, k, n, a, p);
    VisitLooks(cfg, ms, vs, k, n, a, p);
    VisitHistory(cfg, ms, vs, k, n, a, p);
    var pc := m.r.tasks[a].pc;
    LooksOn(cfg, ms, vs, k, n, a, p);
    if pc.DogGot? {
      VisitKeeps(cfg, m.now, r0, m.r, a, p);
    } else {
      SawStays(ms, vs, k, n, a, p, true);
      HistoryStays(ms, vs, k, n, a, Zombie(p), if pc.HandWon? then Some(pc.g) else None);
      if pc.HandWon? {
        VisitGives(cfg, m.now, r0, m.r, a, p);
      } else {
        VisitKeeps(cfg, m.now, r0, m.r, a, p);
      }
    }
  }

  /** A visit begun before moment `k`, with nothing else in between. */
  lemma VisitInOneGo(cfg: Config, ms: seq<Moment>, vs: seq<Move>, k: nat, n: nat, a: Task, p: Pod)
    requires OnlyCall(cfg, ms, vs, k, n, a) && a in ms[k].r.tasks && ms[k].r.tasks[a].pc == DogRead(p)
    ensures VisitStage(ms[k].r, ms[n].r, a, p)
    ensures ms[n].r.tasks[a].pc.Finished? ==> VisitOver(ms, vs, k, n, a, p)
  {
    VisitStages(cfg, ms, vs, k, n, a, p);
    if ms[n].r.tasks[a].pc.Finished? {
      VisitEnds(cfg, ms, vs, k, n - 1, a, p);
    }
  }
}
