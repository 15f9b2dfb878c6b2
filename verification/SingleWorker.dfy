/** One worker over the store, and a pod its watchdog never clears: the reservations make the
    hand-off of that pod safe without A4, whatever happens to the other pods. */
module SingleWorker {
  import opened Common
  import opened Leases
  import opened Replica
  import opened Ownership
  import opened LeaseSystem
  import opened MutualExclusion

  function ContOf(pc: PC): Option<Cont> {
    match pc
    case ClearRead(c) => Some(c)
    case ClearGot(c, _) => Some(c)
    case ClearPut(c, _, _) => Some(c)
    case Cleared(c) => Some(c)
    case HandPut(c, _, _) => Some(c)
    case HandLost(c, _) => Some(c)
    case HandWon(c, _, _) => Some(c)
    case _ => None
  }

  /** The watchdog may look at the pod but is nowhere about to clear it or to hand it over, and no
      hand-off of the pod has outlived the worker that sent it. */
  ghost predicate NoZombie(s: Sys, p: Pod) {
    && (forall w, a :: Present(s, w, a) ==> ContOf(PcOf(s, w, a)) != Some(Zombie(p)))
    && (forall x :: x in s.late && WritePod(x.pc) == Some(p) ==> ContOf(x.pc) != Some(Zombie(p)) && !x.pc.HandPut?)
  }

  /** One worker at a time, which may crash and be restarted, and no watchdog clear of the pod. */
  ghost predicate IsSoloRun(cfg: Config, ss: seq<Sys>, acts: seq<Act>, w: nat, p: Pod) {
    && IsSysRun(cfg, ss, acts)
    && forall k :: 0 <= k < |ss| ==> NoZombie(ss[k], p) && ss[k].workers.Keys <= {w}
  }

  ghost predicate ReservedInv(s: Sys, w: nat, p: Pod) {
    w in s.workers ==> OwnInv(s.workers[w]) && p !in s.workers[w].cleared
  }

  lemma StepKeepsReserved(cfg: Config, s: Sys, act: Act, w: nat, p: Pod)
    requires ReservedInv(s, w, p) && CanAct(cfg, s, act) && NoZombie(s, p)
    ensures ReservedInv(After(cfg, s, act), w, p)
  {
    if act.Perform? && act.w == w {
      StepKeepsOwnership(cfg, s.now, s.workers[w], act.e);
      StaysClear(cfg, s, act, p);
    }
  }

  lemma StaysClear(cfg: Config, s: Sys, act: Act, p: Pod)
    requires CanAct(cfg, s, act) && NoZombie(s, p) && act.Perform?
    ensures p in Step(cfg, s.now, s.workers[act.w], act.e).cleared <==> p in s.workers[act.w].cleared
  {
    assert act.e.a in s.workers[act.w].tasks ==> Present(s, act.w, act.e.a);
  }

  lemma ClaimIsOwned(s: Sys, w: nat, a: Task, g: Grant)
    requires ReservedInv(s, w, g.pod) && NoZombie(s, g.pod) && Claims(s, w, a, g)
    ensures Owns(s.workers[w], a, g.pod)
  {
  }

  /** In-process ownership replaces A4: whatever a hand-off overwrites, nobody relies on it. */
  lemma SoloHandOffHitsNobody(cfg: Config, s: Sys, act: Act, w: nat, p: Pod)
    requires ReservedInv(s, w, p) && NoZombie(s, p) && s.workers.Keys <= {w} && CanAct(cfg, s, act)
    ensures NoVictim(s, act, p) && ClearsZombiesOnly(s, act, p)
  {
    if HandsOff(s, act, p) {
      assert act.w in s.workers.Keys;
      assert Owns(s.workers[w], act.e.a, p);
      forall v, b, h | Claims(s, v, b, h) ensures h.pod != p {
        assert v in s.workers.Keys;
        if h.pod == p { ClaimIsOwned(s, v, b, h); }
      }
    }
  }

  lemma {:induction false} SoloRunsKeepClaims(cfg: Config, ss: seq<Sys>, acts: seq<Act>, w: nat, k: nat, p: Pod)
    requires IsSoloRun(cfg, ss, acts, w, p) && k < |ss| && cfg.ttlSeconds > 0
    requires forall n :: 0 <= n < |ss| ==> InTime(ss[n], p)
    ensures ClaimInv(cfg, ss[k], p) && CasInv(ss[k]) && ReservedInv(ss[k], w, p)
  {
    RunsKeepCas(cfg, ss, acts, k);
    if k > 0 {
      SoloRunsKeepClaims(cfg, ss, acts, w, k - 1, p);
      SoloHandOffHitsNobody(cfg, ss[k - 1], acts[k - 1], w, p);
      StepKeepsClaims(cfg, ss[k - 1], acts[k - 1], p);
      StepKeepsReserved(cfg, ss[k - 1], acts[k - 1], w, p);
    }
  }

  /** A4 is not needed for one worker: even if a write without `resourceVersion` always wins, a
      job that uses the pod is its only user and the stored holder of a live lease, and no hand-off
      that is carried out replaces a lease of the pod that somebody relies on. Nothing is asked of
      the other pods: their jobs may outlive their leases and the watchdog may clear them. */
  lemma SoloWorkerNeedsNoA4(cfg: Config, ss: seq<Sys>, acts: seq<Act>, w: nat, k: nat, p: Pod)
    requires IsSoloRun(cfg, ss, acts, w, p) && k < |ss| && cfg.ttlSeconds > 0
    requires forall n :: 0 <= n < |ss| ==> InTime(ss[n], p)
    ensures forall v, a, x, b :: InUse(ss[k], v, a, p) && InUse(ss[k], x, b, p) ==> v == x && a == b
    ensures forall v, a :: InUse(ss[k], v, a, p) ==>
              p in ss[k].store && Live(ss[k].store[p], ss[k].now) && ss[k].store[p].holder == Some(Identity(v, a))
    ensures k < |acts| ==> NoVictim(ss[k], acts[k], p)
  {
    SoloRunsKeepClaims(cfg, ss, acts, w, k, p);
    var s := ss[k];
    assert forall v, a :: InUse(s, v, a, p) ==> Claims(s, v, a, PcOf(s, v, a).g);
    if k < |acts| {
      SoloHandOffHitsNobody(cfg, s, acts[k], w, p);
    }
  }
}
