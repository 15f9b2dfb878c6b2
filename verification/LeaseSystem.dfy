/** Any number of workers over one store of leases: the composition of the worker automaton with
    an API server that checks `resourceVersion` and may fail a call before or after doing it. */
module LeaseSystem {
  import opened Common
  import opened Leases
  import opened Replica

  /** A write a task of a worker has sent to the store. */
  datatype Request = Request(w: nat, a: Task, pc: PC)

  /** `late` are the writes a worker had sent when it crashed. */
  datatype Sys = Sys(now: int, store: map<Pod, Lease>, workers: map<nat, Replica>, late: set<Request>)

  /** `written` is the version a store write got, None when nothing was written. A late write
      arrives, or is lost, when nobody waits for its answer any more. */
  datatype Act =
    | Advance(to: int)
    | Spawn(w: nat)
    | Crash(w: nat)
    | Perform(w: nat, e: Event, written: Option<nat>)
    | Arrive(x: Request, written: Option<nat>)

  function ReadPod(pc: PC): Option<Pod> {
    match pc
    case TryRead(_, p, _) => Some(p)
    case ClearRead(c) => Some(c.Name())
    case DogRead(p) => Some(p)
    case _ => None
  }

  function WritePod(pc: PC): Option<Pod> {
    match pc
    case TryPut(_, p, _, _, _) => Some(p)
    case ClearPut(c, _, _) => Some(c.Name())
    case HandPut(c, _, _) => Some(c.Name())
    case _ => None
  }

  /** The `resourceVersion` a write carries; a hand-off write carries none. */
  function Carried(pc: PC): Option<nat> {
    match pc
    case TryPut(_, _, _, version, _) => Some(version)
    case ClearPut(_, version, _) => Some(version)
    case _ => None
  }

  function Body(cfg: Config, w: nat, a: Task, pc: PC, version: nat): Lease
    requires WritePod(pc).Some?
  {
    match pc
    case TryPut(_, _, who, _, renew) =>
      Lease(Some(Identity(w, if who.ForSelf? then a else who.w)), Some(renew), cfg.ttlSeconds, version)
    case HandPut(_, j, renew) => Lease(Some(Identity(w, j)), Some(renew), cfg.ttlSeconds, version)
    case ClearPut(_, _, renew) => Lease(None, Some(renew), cfg.ttlSeconds, version)
  }

  predicate Present(s: Sys, w: nat, a: Task) {
    w in s.workers && a in s.workers[w].tasks
  }

  function PcOf(s: Sys, w: nat, a: Task): PC
    requires Present(s, w, a)
  {
    s.workers[w].tasks[a].pc
  }

  /** What the API server asks of a write it carries out. */
  predicate WriteAgrees(s: Sys, pc: PC, written: Option<nat>) {
    && WritePod(pc).Some?
    && (written.Some? ==>
          var p := WritePod(pc).value;
          && p in s.store && s.store[p].version < written.value
          && (Carried(pc).Some? ==> s.store[p].version == Carried(pc).value))
  }

  predicate StoreAgrees(cfg: Config, s: Sys, pc: PC, e: Event, written: Option<nat>) {
    match e
    case ReadServed(_, answer) =>
      && written.None?
      && (answer.Some? && ReadPod(pc).Some? ==>
            ReadPod(pc).value in s.store && s.store[ReadPod(pc).value] == answer.value)
    case PutServed(_, won) =>
      && WriteAgrees(s, pc, written)
      && (won.Some? ==>
            && written == Some(won.value.version)
            && !pc.ClearPut? && won.value.until == pc.renew + cfg.ttlSeconds * 1000)
    case _ => written.None?
  }

  predicate CanAct(cfg: Config, s: Sys, act: Act) {
    match act
    case Advance(to) => s.now <= to
    case Spawn(w) => w !in s.workers
    case Crash(w) => w in s.workers
    case Perform(w, e, written) =>
      && w in s.workers && Enabled(s.now, s.workers[w], e)
      && (if e.a in s.workers[w].tasks then StoreAgrees(cfg, s, s.workers[w].tasks[e.a].pc, e, written)
          else written.None?)
    case Arrive(x, written) => x in s.late && WriteAgrees(s, x.pc, written)
  }

  /** The write an act carries out, if it does. */
  function Writer(s: Sys, act: Act): Option<Request> {
    match act
    case Perform(w, e, Some(_)) =>
      if e.PutServed? && Present(s, w, e.a) then Some(Request(w, e.a, PcOf(s, w, e.a))) else None
    case Arrive(x, Some(_)) => Some(x)
    case _ => None
  }

  predicate Writes(s: Sys, act: Act, p: Pod) {
    Writer(s, act).Some? && WritePod(Writer(s, act).value.pc) == Some(p)
  }

  function StoreAfter(cfg: Config, s: Sys, act: Act): map<Pod, Lease>
    requires CanAct(cfg, s, act)
  {
    var x := Writer(s, act);
    if x.Some? then
      s.store[WritePod(x.value.pc).value := Body(cfg, x.value.w, x.value.a, x.value.pc, act.written.value)]
    else s.store
  }

  function InFlight(w: nat, r: Replica): set<Request> {
    set a | a in r.tasks && WritePod(r.tasks[a].pc).Some? :: Request(w, a, r.tasks[a].pc)
  }

  function After(cfg: Config, s: Sys, act: Act): Sys
    requires CanAct(cfg, s, act)
  {
    match act
    case Advance(to) => s.(now := to)
    case Spawn(w) => s.(workers := s.workers[w := BOOT])
    case Crash(w) => s.(workers := s.workers - {w}, late := s.late + InFlight(w, s.workers[w]))
    case Perform(w, e, _) =>
      s.(store := StoreAfter(cfg, s, act), workers := s.workers[w := Step(cfg, s.now, s.workers[w], e)])
    case Arrive(x, _) => s.(store := StoreAfter(cfg, s, act), late := s.late - {x})
  }

  ghost predicate IsSysRun(cfg: Config, ss: seq<Sys>, acts: seq<Act>) {
    && |ss| == |acts| + 1
    && ss[0].workers == map[] && ss[0].late == {}
    && forall k :: 0 <= k < |acts| ==> CanAct(cfg, ss[k], acts[k]) && ss[k + 1] == After(cfg, ss[k], acts[k])
  }

  // ----- compare-and-swap safety, from the monotone clock alone (A1)

  /** A lease seen in a read is still what the store keeps unless its version moved on, and a
      version a worker is about to write over was takeable. */
  predicate SnapshotOk(s: Sys, pc: PC) {
    match pc
    case TryGot(_, p, _, Some(l)) =>
      p in s.store && l.version <= s.store[p].version && (l.version == s.store[p].version ==> l == s.store[p])
    case TryPut(_, p, _, version, _) =>
      p in s.store && version <= s.store[p].version && (version == s.store[p].version ==> Takeable(s.store[p], s.now))
    case _ => true
  }

  ghost predicate CasInv(s: Sys) {
    && (forall w, a :: Present(s, w, a) ==> SnapshotOk(s, PcOf(s, w, a)))
    && (forall x :: x in s.late ==> SnapshotOk(s, x.pc))
  }

  lemma MoverSnapshot(cfg: Config, s: Sys, w: nat, e: Event, written: Option<nat>)
    requires CanAct(cfg, s, Perform(w, e, written))
    requires e.a in s.workers[w].tasks ==> SnapshotOk(s, s.workers[w].tasks[e.a].pc)
    ensures var s' := After(cfg, s, Perform(w, e, written)); Present(s', w, e.a) && SnapshotOk(s', PcOf(s', w, e.a))
  {
  }

  /** A task that does not move keeps what it has seen: versions only grow, and a lease that was
      takeable stays so while nobody writes it. */
  lemma SnapshotStays(cfg: Config, s: Sys, act: Act, pc: PC)
    requires CanAct(cfg, s, act) && SnapshotOk(s, pc)
    ensures SnapshotOk(After(cfg, s, act), pc)
  {
  }

  lemma StepKeepsCas(cfg: Config, s: Sys, act: Act)
    requires CasInv(s) && CanAct(cfg, s, act)
    ensures CasInv(After(cfg, s, act))
  {
    var s' := After(cfg, s, act);
    forall x | x in s'.late ensures SnapshotOk(s', x.pc) {
      if x !in s.late { assert Present(s, x.w, x.a); }
      SnapshotStays(cfg, s, act, x.pc);
    }
    forall v, b | Present(s', v, b) ensures SnapshotOk(s', PcOf(s', v, b)) {
      if act.Perform? && v == act.w {
        if b == act.e.a {
          assert b in s.workers[v].tasks ==> Present(s, v, b);
          MoverSnapshot(cfg, s, act.w, act.e, act.written);
        } else {
          Frame(cfg, s.now, s.workers[v], act.e, b);
          assert Present(s, v, b);
          SnapshotStays(cfg, s, act, PcOf(s', v, b));
        }
      } else if !(act.Spawn? && v == act.w) {
        assert Present(s, v, b);
        SnapshotStays(cfg, s, act, PcOf(s, v, b));
      }
    }
  }

  lemma {:induction false} RunsKeepCas(cfg: Config, ss: seq<Sys>, acts: seq<Act>, k: nat)
    requires IsSysRun(cfg, ss, acts) && k < |ss|
    ensures CasInv(ss[k])
  {
    if k > 0 {
      RunsKeepCas(cfg, ss, acts, k - 1);
      StepKeepsCas(cfg, ss[k - 1], acts[k - 1]);
    }
  }

  lemma {:induction false} VersionsNeverGoBack(cfg: Config, ss: seq<Sys>, acts: seq<Act>, k: nat, n: nat, p: Pod)
    requires IsSysRun(cfg, ss, acts) && k <= n < |ss| && p in ss[k].store
    ensures p in ss[n].store && ss[k].store[p].version <= ss[n].store[p].version
    ensures k < n && Writes(ss[k], acts[k], p) ==> ss[k].store[p].version < ss[n].store[p].version
  {
    if k < n {
      VersionsNeverGoBack(cfg, ss, acts, k, n - 1, p);
      var s, act := ss[n - 1], acts[n - 1];
      assert ss[n] == After(cfg, s, act);
    }
  }

  /** Of all versioned writes to a pod that carry the same version, at most one is carried out. */
  lemma OneWriterPerVersion(cfg: Config, ss: seq<Sys>, acts: seq<Act>, k: nat, n: nat, p: Pod)
    requires IsSysRun(cfg, ss, acts) && k < |acts| && n < |acts|
    requires Writes(ss[k], acts[k], p) && Writes(ss[n], acts[n], p)
    requires Carried(Writer(ss[k], acts[k]).value.pc).Some?
    requires Carried(Writer(ss[k], acts[k]).value.pc) == Carried(Writer(ss[n], acts[n]).value.pc)
    ensures k == n
  {
    if k < n {
      VersionsNeverGoBack(cfg, ss, acts, k, n, p);
    } else if n < k {
      VersionsNeverGoBack(cfg, ss, acts, n, k, p);
    }
  }

  /** Whoever takes a pod with a versioned write replaces a lease that is free or has run out at
      that very instant, however long ago it was read, and even if the writer has crashed since. */
  lemma AcquireReplacesTakeableLease(cfg: Config, ss: seq<Sys>, acts: seq<Act>, k: nat, p: Pod)
    requires IsSysRun(cfg, ss, acts) && k < |acts| && Writes(ss[k], acts[k], p)
    requires Writer(ss[k], acts[k]).value.pc.TryPut?
    ensures p in ss[k].store && Takeable(ss[k].store[p], ss[k].now)
    ensures p in ss[k + 1].store && ss[k].store[p].version < ss[k + 1].store[p].version
  {
    RunsKeepCas(cfg, ss, acts, k);
    assert ss[k + 1] == After(cfg, ss[k], acts[k]);
  }

  // ----- how long a lease lives

  /** A step that starts a write starts it now: its renew time is the instant it is sent. */
  lemma SentNow(cfg: Config, now: int, r: Replica, e: Event)
    requires Enabled(now, r, e)
    ensures var r' := Step(cfg, now, r, e);
            && e.a in r'.tasks
            && (WritePod(r'.tasks[e.a].pc).Some? ==>
                  || (e.a in r.tasks && r'.tasks[e.a].pc == r.tasks[e.a].pc)
                  || (e == Resume(e.a) && r'.tasks[e.a].pc.renew == now))
  {
  }

  /** The write `x` was sent at some moment before `k`, which its renew time tells. */
  ghost predicate Sent(ss: seq<Sys>, acts: seq<Act>, k: nat, x: Request) {
    && WritePod(x.pc).Some?
    && exists m :: 0 <= m < k && m < |acts| && m < |ss|
                   && acts[m] == Perform(x.w, Resume(x.a), None) && ss[m].now == x.pc.renew
  }

  ghost predicate AllSent(ss: seq<Sys>, acts: seq<Act>, k: nat)
    requires k < |ss|
  {
    && (forall x :: x in ss[k].late ==> Sent(ss, acts, k, x))
    && (forall w, a :: Present(ss[k], w, a) && WritePod(PcOf(ss[k], w, a)).Some? ==>
          Sent(ss, acts, k, Request(w, a, PcOf(ss[k], w, a))))
  }

  lemma SentEarlier(ss: seq<Sys>, acts: seq<Act>, k: nat, x: Request)
    requires Sent(ss, acts, k, x)
    ensures Sent(ss, acts, k + 1, x)
  {
  }

  lemma {:induction false} RunsSendInTime(cfg: Config, ss: seq<Sys>, acts: seq<Act>, k: nat)
    requires IsSysRun(cfg, ss, acts) && k < |ss|
    ensures AllSent(ss, acts, k)
  {
    if k > 0 {
      RunsSendInTime(cfg, ss, acts, k - 1);
      var s, act, s' := ss[k - 1], acts[k - 1], ss[k];
      assert CanAct(cfg, s, act) && s' == After(cfg, s, act);
      forall x | x in s'.late ensures Sent(ss, acts, k, x) {
        if x !in s.late { assert Present(s, x.w, x.a) && PcOf(s, x.w, x.a) == x.pc; }
        SentEarlier(ss, acts, k - 1, x);
      }
      forall w, a | Present(s', w, a) && WritePod(PcOf(s', w, a)).Some?
        ensures Sent(ss, acts, k, Request(w, a, PcOf(s', w, a)))
      {
        TaskSent(cfg, ss, acts, k, w, a);
      }
    }
  }

  lemma TaskSent(cfg: Config, ss: seq<Sys>, acts: seq<Act>, k: nat, w: nat, a: Task)
    requires IsSysRun(cfg, ss, acts) && 0 < k < |ss| && AllSent(ss, acts, k - 1)
    requires Present(ss[k], w, a) && WritePod(PcOf(ss[k], w, a)).Some?
    ensures Sent(ss, acts, k, Request(w, a, PcOf(ss[k], w, a)))
  {
    var s, act, x := ss[k - 1], acts[k - 1], Request(w, a, PcOf(ss[k], w, a));
    assert CanAct(cfg, s, act) && ss[k] == After(cfg, s, act);
    if act.Perform? && act.w == w {
      if act.e.a == a {
        SentNow(cfg, s.now, s.workers[w], act.e);
        if act.e != Resume(a) || !(s.now == x.pc.renew) {
          assert Present(s, w, a) && PcOf(s, w, a) == x.pc;
          SentEarlier(ss, acts, k - 1, x);
        }
      } else {
        Frame(cfg, s.now, s.workers[w], act.e, a);
        assert Present(s, w, a) && PcOf(s, w, a) == x.pc;
        SentEarlier(ss, acts, k - 1, x);
      }
    } else {
      assert Present(s, w, a) && PcOf(s, w, a) == x.pc;
      SentEarlier(ss, acts, k - 1, x);
    }
  }

  /** A lease that nobody writes again, of a crashed worker for example: it can be taken at once if the
      write cleared it, and otherwise exactly from the millisecond on in which its time to live, counted
      from the moment `m` in which its write was sent, is over. */
  lemma UntouchedLeaseRunsOut(cfg: Config, ss: seq<Sys>, acts: seq<Act>, k: nat, n: nat, p: Pod)
    returns (m: nat)
    requires IsSysRun(cfg, ss, acts) && k < n < |ss|
    requires Writes(ss[k], acts[k], p) && forall i :: k < i < n ==> !Writes(ss[i], acts[i], p)
    ensures var x := Writer(ss[k], acts[k]).value;
            && m < k && acts[m] == Perform(x.w, Resume(x.a), None)
            && p in ss[n].store
            && (Takeable(ss[n].store[p], ss[n].now) <==>
                  x.pc.ClearPut? || cfg.ttlSeconds == 0 || ss[n].now > ss[m].now + cfg.ttlSeconds * 1000)
  {
    var x := Writer(ss[k], acts[k]).value;
    RunsSendInTime(cfg, ss, acts, k);
    m :| 0 <= m < k && acts[m] == Perform(x.w, Resume(x.a), None) && ss[m].now == x.pc.renew;
    UntouchedStays(cfg, ss, acts, k, n, p);
    assert ss[k + 1] == After(cfg, ss[k], acts[k]);
  }

  lemma {:induction false} UntouchedStays(cfg: Config, ss: seq<Sys>, acts: seq<Act>, k: nat, n: nat, p: Pod)
    requires IsSysRun(cfg, ss, acts) && k < n < |ss| && p in ss[k + 1].store
    requires forall i :: k < i < n ==> !Writes(ss[i], acts[i], p)
    ensures p in ss[n].store && ss[n].store[p] == ss[k + 1].store[p]
  {
    if k + 1 < n {
      UntouchedStays(cfg, ss, acts, k, n - 1, p);
      assert ss[n] == After(cfg, ss[n - 1], acts[n - 1]);
    }
  }

  /** What happens to one worker of the system is a run of that worker on its own, so everything
      shown for all answers of a store holds for the answers of this one. */
  lemma {:induction false} WorkersRunAlone(cfg: Config, ss: seq<Sys>, acts: seq<Act>, k: nat, w: nat)
    returns (ms: seq<Moment>, vs: seq<Move>)
    requires IsSysRun(cfg, ss, acts) && k < |ss| && w in ss[k].workers
    ensures IsRun(cfg, ms, vs) && ms[|vs|] == Moment(ss[k].now, ss[k].workers[w])
  {
    var s, act := ss[k - 1], acts[k - 1];
    assert ss[k] == After(cfg, s, act);
    if w !in s.workers {
      ms, vs := [Moment(ss[k].now, BOOT)], [];
    } else {
      ms, vs := WorkersRunAlone(cfg, ss, acts, k - 1, w);
      if act.Advance? || (act.Perform? && act.w == w) {
        ms := ms + [Moment(ss[k].now, ss[k].workers[w])];
        vs := vs + [if act.Advance? then Tick(act.to) else Do(act.e)];
      }
    }
  }
}
