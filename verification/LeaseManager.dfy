/** The lease manager as an object: what one call does when nothing runs between its awaits. */
module LeaseManager {
  import opened Common
  import opened Leases

  datatype Waiter = Waiter(id: Identity, enqueueTime: int)

  /** Some queued job has this identity. */
  predicate Queued(waiters: seq<Waiter>, id: Identity) {
    exists w :: w in waiters && w.id == id
  }

  predicate IsZombie(leases: map<Pod, Lease>, p: Pod, now: int) {
    p in leases && leases[p].holder.Some? && IsExpired(leases[p], now)
  }

  predicate CanTake(held: set<Pod>, leases: map<Pod, Lease>, p: Pod, now: int) {
    p !in held && p in leases && Takeable(leases[p], now)
  }

  /** What is left to reserve of the list from index `i` on: the first pod that can be taken and whose calls
      the store answers. */
  function FirstWithinReach(pods: seq<Pod>, i: nat, held: set<Pod>, leases: map<Pod, Lease>, down: set<Pod>, now: int)
      : (found: Option<Pod>)
    requires i <= |pods|
    ensures found.None? ==> forall k :: i <= k < |pods| ==> !CanTake(held + down, leases, pods[k], now)
    ensures found.Some? ==>
              exists k :: i <= k < |pods| && pods[k] == found.value && CanTake(held + down, leases, pods[k], now)
                          && forall j :: i <= j < k ==> !CanTake(held + down, leases, pods[j], now)
    decreases |pods| - i
  {
    if i == |pods| then None
    else if CanTake(held + down, leases, pods[i], now) then Some(pods[i])
    else FirstWithinReach(pods, i + 1, held, leases, down, now)
  }

  function Names(given: seq<(Pod, Waiter)>): (s: seq<Waiter>)
    ensures |s| == |given|
  {
    if given == [] then [] else [given[0].1] + Names(given[1..])
  }

  function PodsOf(given: seq<(Pod, Waiter)>): set<Pod> {
    set g | g in given :: g.0
  }

  lemma {:induction false} NamesSnoc(given: seq<(Pod, Waiter)>, g: (Pod, Waiter))
    ensures Names(given + [g]) == Names(given) + [g.1]
  {
    if given == [] {
      assert given + [g] == [g];
    } else {
      assert (given + [g])[1..] == given[1..] + [g];
      NamesSnoc(given[1..], g);
    }
  }

  /** `l` is the record `id` writes when it acquires at `now`. */
  predicate IsGrant(l: Lease, id: Identity, now: int, ttlSeconds: nat) {
    l == Lease(Some(id), Some(now), ttlSeconds, l.version)
  }

  /** The pods of a pass that are not visited yet are as they were. */
  predicate Unvisited(pods: seq<Pod>, i: nat, was: map<Pod, Lease>, leases: map<Pod, Lease>) {
    forall k :: i <= k < |pods| ==>
      (pods[k] in leases <==> pods[k] in was) && (pods[k] in leases ==> leases[pods[k]] == was[pods[k]])
  }

  /** No visited zombie lease keeps a holder that was not queued. */
  predicate Scrubbed(zombies: set<Pod>, queue: seq<Waiter>, leases: map<Pod, Lease>) {
    forall p :: p in zombies ==> p in leases && (leases[p].holder.None? || Queued(queue, leases[p].holder.value))
  }

  /** Every pod a pass gave away is a zombie pod that is leased to the waiter who got it. */
  predicate AllLeased(given: seq<(Pod, Waiter)>, zombies: set<Pod>, leases: map<Pod, Lease>, now: int,
      ttlSeconds: nat)
  {
    forall g :: g in given ==> g.0 in zombies && g.0 in leases && IsGrant(leases[g.0], g.1.id, now, ttlSeconds)
  }

  ghost predicate OnlyChanged(p: Pod, was: map<Pod, Lease>, leases: map<Pod, Lease>) {
    && (p in leases <==> p in was)
    && forall q :: q != p ==> (q in leases <==> q in was) && (q in leases ==> leases[q] == was[q])
  }

  lemma {:induction false} SpliceIsWithout<T>(s: seq<T>, i: nat)
    requires NoDuplicates(s) && i < |s|
    ensures Without(s, {s[i]}) == s[..i] + s[i + 1..]
  {
    if i == 0 {
      WithoutNothing(s[1..], {s[0]});
    } else {
      SpliceIsWithout(s[1..], i - 1);
      assert s[1..][i - 1] == s[i];
      assert s[..i] == [s[0]] + s[1..][..i - 1];
    }
  }

  /** `was` and `leases` differ at most at pods that are down. */
  ghost predicate OnlyDownChanged(down: set<Pod>, was: map<Pod, Lease>, leases: map<Pod, Lease>) {
    forall q :: q !in down ==> (q in leases <==> q in was) && (q in leases ==> leases[q] == was[q])
  }

  /** The API server. A call may fail, and a write may take effect although its answer is lost. If the
      store is reliable that is so for the pods that are down, for which every call fails, and all other
      calls are answered. */
  class LeaseStore {
    var leases: map<Pod, Lease>
    const reliable: bool
    const down: set<Pod>

    predicate Answers(p: Pod) {
      reliable && p !in down
    }

    method Read(p: Pod) returns (answer: Option<Lease>)
      ensures answer.Some? ==> p in leases && answer.value == leases[p]
      ensures reliable ==> (answer.Some? <==> p in leases && p !in down)
    {
      var answers: bool := *;
      answer := if (if reliable then p !in down else answers) && p in leases then Some(leases[p]) else None;
    }

    method Replace(p: Pod, holder: Option<Identity>, now: int, ttlSeconds: nat, carried: Option<nat>) returns (ok: bool)
      modifies this
      ensures OnlyChanged(p, old(leases), leases)
      ensures ok ==> p in leases && leases[p] != old(leases[p])
      ensures p in leases && leases[p] != old(leases[p]) ==>
                && (carried.Some? ==> carried.value == old(leases[p].version))
                && leases[p].version > old(leases[p].version)
                && leases[p] == Lease(holder, Some(now), ttlSeconds, leases[p].version)
      ensures Answers(p) ==> (ok <==> p in leases && leases[p] != old(leases[p]))
      ensures Answers(p) ==> (ok <==> p in leases && (carried.None? || carried.value == old(leases[p].version)))
      ensures reliable && p in down ==> !ok
    {
      var reaches: bool, answered: bool, more: nat := *, *, *;
      ok := false;
      if p in leases && (carried.None? || carried.value == leases[p].version) && (reaches || Answers(p)) {
        leases := leases[p := Lease(holder, Some(now), ttlSeconds, leases[p].version + 1 + more)];
        ok := if reliable then p !in down else answered;
      }
    }
  }

  class Manager {
    const pods: seq<Pod>
    const ttlSeconds: nat
    const store: LeaseStore
    var held: set<Pod>
    var waiters: seq<Waiter>

    constructor (pods: seq<Pod>, ttlSeconds: nat, store: LeaseStore)
      ensures this.pods == pods && this.ttlSeconds == ttlSeconds && this.store == store
      ensures held == {} && waiters == []
    {
      this.pods, this.ttlSeconds, this.store := pods, ttlSeconds, store;
      held, waiters := {}, [];
    }

    predicate Owns(p: Pod, id: Identity, now: int)
      reads this, store
    {
      && p in held && p in store.leases
      && IsGrant(store.leases[p], id, now, ttlSeconds)
    }

    method AcquireLease(p: Pod, id: Identity, now: int, carried: Option<nat>) returns (ok: bool)
      modifies store
      ensures OnlyChanged(p, old(store.leases), store.leases)
      ensures ok ==> p in store.leases && IsGrant(store.leases[p], id, now, ttlSeconds)
      ensures ok ==> (carried.Some? ==> carried.value == old(store.leases[p].version))
      ensures p in store.leases && store.leases[p] != old(store.leases[p]) ==> store.leases[p].holder == Some(id)
      ensures store.Answers(p) ==>
            (ok <==> p in store.leases && (carried.None? || carried.value == old(store.leases[p].version)))
      ensures store.Answers(p) && !ok ==> store.leases == old(store.leases)
      ensures store.reliable && p in store.down ==> !ok
    {
      ok := store.Replace(p, Some(id), now, ttlSeconds, carried);
      if store.Answers(p) && !ok {
        assert forall q :: q in store.leases ==> store.leases[q] == old(store.leases)[q];
      }
    }

    /** Read, check, compare-and-swap. A pod that is taken was takeable; if its calls are answered, what
        another job acquired at `t` is taken from the millisecond on in which its time to live is over. */
    method TryAcquireLease(p: Pod, id: Identity, now: int) returns (got: bool)
      modifies store
      ensures OnlyChanged(p, old(store.leases), store.leases)
      ensures got ==> p in store.leases && Takeable(old(store.leases[p]), now)
                      && IsGrant(store.leases[p], id, now, ttlSeconds)
      ensures p in store.leases && Live(old(store.leases[p]), now) ==> store.leases[p] == old(store.leases[p])
      ensures store.reliable ==> (got <==> CanTake(store.down, old(store.leases), p, now))
      ensures store.Answers(p) && !got ==> store.leases == old(store.leases)
      ensures forall other, t, ttl: nat | store.Answers(p) && p in old(store.leases) && ttl > 0
                && IsGrant(old(store.leases[p]), other, t, ttl) :: got <==> now > t + ttl * 1000
    {
      var answer := store.Read(p);
      if answer.None? || !Takeable(answer.value, now) {
        return false;
      }
      got := AcquireLease(p, id, now, Some(answer.value.version));
    }

    /** Reserves the pod that is returned and nothing else. Over a reliable store it is the first in the
        list that is neither reserved here nor leased, among those that are not down. */
    method TryAcquireAny(id: Identity, now: int) returns (pod: Option<Pod>)
      modifies this`held, store
      ensures pod.None? ==> held == old(held)
      ensures pod.Some? ==> pod.value in pods && CanTake(old(held), old(store.leases), pod.value, now)
                            && held == old(held) + {pod.value} && Owns(pod.value, id, now)
      ensures forall q :: q in old(store.leases) && Live(old(store.leases[q]), now) ==>
            q in store.leases && store.leases[q] == old(store.leases[q])
      ensures store.reliable ==> pod == FirstWithinReach(pods, 0, old(held), old(store.leases), store.down, now)
      ensures store.reliable && pod.None? ==> OnlyDownChanged(store.down, old(store.leases), store.leases)
    {
      for i := 0 to |pods|
        invariant held == old(held)
        invariant forall q :: q in old(store.leases) && Live(old(store.leases[q]), now) ==>
            q in store.leases && store.leases[q] == old(store.leases[q])
        invariant forall q :: q in store.leases && Takeable(store.leases[q], now) ==>
            q in old(store.leases) && Takeable(old(store.leases[q]), now)
        invariant store.reliable ==> OnlyDownChanged(store.down, old(store.leases), store.leases)
        invariant store.reliable ==>
            (FirstWithinReach(pods, 0, old(held), old(store.leases), store.down, now)
             == FirstWithinReach(pods, i, old(held), old(store.leases), store.down, now))
      {
        if pods[i] !in held {
          held := held + {pods[i]};
          var got := TryAcquireLease(pods[i], id, now);
          if got {
            return Some(pods[i]);
          }
          held := held - {pods[i]};
        }
      }
      return None;
    }

    /** A pod at once, or a place at the end of the queue. */
    method AcquirePod(id: Identity, now: int) returns (pod: Option<Pod>)
      modifies this`held, this`waiters, store
      ensures pod.Some? ==> waiters == old(waiters) && Owns(pod.value, id, now)
                            && pod.value !in old(held) && held == old(held) + {pod.value}
      ensures pod.None? ==> waiters == old(waiters) + [Waiter(id, now)] && held == old(held)
      ensures store.reliable ==> pod == FirstWithinReach(pods, 0, old(held), old(store.leases), store.down, now)
    {
      pod := TryAcquireAny(id, now);
      if pod.None? {
        waiters := waiters + [Waiter(id, now)];
      }
    }

    /** The queue timer of one waiter: it leaves the queue unless it was shifted out before. */
    method TimerFires(w: Waiter) returns (rejected: bool)
      modifies this`waiters
      ensures rejected <==> w in old(waiters)
      ensures NoDuplicates(old(waiters)) ==> waiters == Without(old(waiters), {w})
    {
      ghost var was := waiters;
      var i := 0;
      while i < |waiters| && waiters[i] != w
        invariant 0 <= i <= |waiters| && waiters == was
        invariant forall k :: 0 <= k < i ==> was[k] != w
      {
        i := i + 1;
      }
      rejected := i < |waiters|;
      if rejected {
        waiters := waiters[..i] + waiters[i + 1..];
        if NoDuplicates(was) {
          SpliceIsWithout(was, i);
        }
      } else if NoDuplicates(was) {
        WithoutNothing(was, {w});
      }
    }

    /** Never fails as a call: a failed read or write is only logged by the caller. */
    method ClearLease(p: Pod, now: int) returns (ok: bool)
      modifies store
      ensures OnlyChanged(p, old(store.leases), store.leases)
      ensures ok ==> p in store.leases && store.leases[p].holder.None?
      ensures p in store.leases && store.leases[p] != old(store.leases[p]) ==> store.leases[p].holder.None?
      ensures store.reliable ==> (ok <==> p in store.leases && p !in store.down)
    {
      var answer := store.Read(p);
      if answer.None? {
        return false;
      }
      ok := store.Replace(p, None, now, ttlSeconds, Some(answer.value.version));
    }

    /** Gives the pod back or hands it, or another pod found for it, to the first waiter. The queue
        loses its head exactly when that waiter is given a pod, and `held` follows the pods. A pod
        that is no longer in `held`, since the watchdog took it out, is handed over all the same
        and stays out of it. Over a reliable store the head gets this pod, or, if its calls fail, the
        first one within reach without it, and nothing only if there is none. */
    method ReleasePod(p: Pod, now: int) returns (given: Option<(Pod, Waiter)>)
      modifies this`held, this`waiters, store
      ensures HeldAfterRelease(old(held), held, p, if given.Some? then Some(given.value.0) else None)
      ensures given.None? ==> waiters == old(waiters)
      ensures given.Some? ==> [given.value.1] + waiters == old(waiters)
                              && given.value.0 in store.leases
                                  && IsGrant(store.leases[given.value.0], given.value.1.id, now, ttlSeconds)
      ensures given.Some? && p in old(held) ==>
                given.value.0 !in old(held) - {p} && held == old(held) - {p} + {given.value.0}
                    && Owns(given.value.0, given.value.1.id, now)
      ensures store.reliable && old(waiters) != [] ==>
                var pod := if p in old(store.leases) && p !in store.down then Some(p)
                           else FirstWithinReach(pods, 0, old(held) - {p}, old(store.leases), store.down, now);
                given == if pod.Some? then Some((pod.value, old(waiters[0]))) else None
      ensures store.Answers(p) && p in old(store.leases) && given.None? ==>
            old(waiters) == [] && p in store.leases && store.leases[p].holder.None?
    {
      var cleared := ClearLease(p, now);
      if waiters == [] {
        held := held - {p};
        return None;
      }
      var waiter := waiters[0];
      waiters := waiters[1..];
      var won := AcquireLease(p, waiter.id, now, None);
      if won {
        return Some((p, waiter));
      }
      held := held - {p};
      waiters := [waiter] + waiters;
      var pod := TryAcquireAny(waiter.id, now);
      if pod.Some? {
        waiters := waiters[1..];
        return Some((pod.value, waiter));
      }
      return None;
    }

    function Now(): Snapshot
      reads this, store
    {
      Snapshot(store.leases, waiters, held)
    }

    /** One pod of a watchdog pass. */
    method VisitPod(p: Pod, now: int) returns (zombie: bool, cleared: bool, given: Option<Waiter>)
      modifies this`held, this`waiters, store
      ensures Visited(old(Now()), Now(), p, now, ttlSeconds, zombie, cleared, given)
      ensures store.reliable ==> (zombie <==> p !in store.down && IsZombie(old(store.leases), p, now))
      ensures store.reliable && zombie ==> cleared && (given.Some? <==> old(waiters) != [])
    {
      var answer := store.Read(p);
      zombie, cleared, given := false, false, None;
      if answer.None? || answer.value.holder.None? || !IsExpired(answer.value, now) {
        return;
      }
      zombie := true;
      cleared := ClearLease(p, now);
      held := held - {p};
      if waiters != [] {
        var waiter := waiters[0];
        assert waiter in old(waiters) && Queued(old(waiters), waiter.id);
        waiters := waiters[1..];
        var won := AcquireLease(p, waiter.id, now, None);
        if won {
          held := held + {p};
          given := Some(waiter);
        } else {
          waiters := [waiter] + waiters;
        }
      }
    }

    /** One pass of the watchdog over all pods. Whatever fails, the waiters it serves followed by
        those left are the queue it found, and `held` loses exactly the zombie pods it could not
        hand over. When its clears succeed no zombie lease keeps its holder. Over a reliable store the
        zombies are the pods that are not down and whose lease is over by a millisecond at least. */
    method WatchdogPass(now: int) returns (zombies: set<Pod>, allCleared: bool, given: seq<(Pod, Waiter)>)
      requires NoDuplicates(pods)
      modifies this`held, this`waiters, store
      ensures Names(given) + waiters == old(waiters)
      ensures held == old(held) - zombies + PodsOf(given)
      ensures AllLeased(given, zombies, store.leases, now, ttlSeconds)
      ensures forall p :: p in zombies ==> p in pods && IsZombie(old(store.leases), p, now)
      ensures store.reliable ==> FoundExactly(pods, store.down, old(store.leases), now, zombies)
      ensures store.reliable ==> OverdueFound(pods, store.down, old(store.leases), now, zombies)
      ensures allCleared ==> Scrubbed(zombies, old(waiters), store.leases)
      ensures store.reliable ==> allCleared && (waiters == [] || |given| == |zombies|)
    {
      zombies, allCleared, given := {}, true, [];
      for i := 0 to |pods|
        invariant PassInv(pods, i, old(Now()), Now(), now, ttlSeconds, zombies, allCleared, given)
        invariant store.reliable ==> FoundExactly(pods[..i], store.down, old(store.leases), now, zombies)
        invariant store.reliable ==> allCleared && (waiters == [] || |given| == |zombies|)
      {
        ghost var was := Now();
        var zombie, cleared, next := VisitPod(pods[i], now);
        PassStep(pods, i, old(Now()), was, Now(), now, ttlSeconds, zombies, allCleared, given, zombie, cleared, next);
        if store.reliable {
          FoundOneMore(pods, i, store.down, old(store.leases), now, zombies, zombie);
        }
        if zombie {
          zombies, allCleared := zombies + {pods[i]}, allCleared && cleared;
          given := given + (if next.Some? then [(pods[i], next.value)] else []);
        }
      }
      if store.reliable {
        assert pods[..|pods|] == pods;
        FoundMeansOverdue(pods, store.down, old(store.leases), now, zombies);
      }
    }
  }

  datatype Snapshot = Snapshot(leases: map<Pod, Lease>, waiters: seq<Waiter>, held: set<Pod>)

  /** What a visit to `p` does to the leases, the queue and the reservations. */
  ghost predicate Visited(s: Snapshot, s': Snapshot, p: Pod, now: int, ttlSeconds: nat, zombie: bool, cleared: bool,
      given: Option<Waiter>)
  {
    && OnlyChanged(p, s.leases, s'.leases)
    && (if given.Some? then [given.value] else []) + s'.waiters == s.waiters
    && (!zombie ==> given.None? && s'.held == s.held && s'.leases == s.leases)
    && (zombie ==> IsZombie(s.leases, p, now) && s'.held == if given.Some? then s.held + {p} else s.held - {p})
    && (given.Some? ==> p in s'.leases && IsGrant(s'.leases[p], given.value.id, now, ttlSeconds))
    && (zombie && cleared ==> Scrubbed({p}, s.waiters, s'.leases))
  }

  /** The state `s` of a pass that started at `s0` and has visited the first `i` pods. */
  ghost predicate PassInv(
    pods: seq<Pod>, i: nat, s0: Snapshot, s: Snapshot, now: int, ttlSeconds: nat,
    zombies: set<Pod>, allCleared: bool, given: seq<(Pod, Waiter)>)
  {
    && Names(given) + s.waiters == s0.waiters
    && s.held == s0.held - zombies + PodsOf(given)
    && AllLeased(given, zombies, s.leases, now, ttlSeconds)
    && (forall p :: p in zombies ==> p in pods && IsZombie(s0.leases, p, now))
    && (forall k :: i <= k < |pods| ==> pods[k] !in zombies)
    && Unvisited(pods, i, s0.leases, s.leases)
    && (allCleared ==> Scrubbed(zombies, s0.waiters, s.leases))
  }

  /** The zombies are those of the list whose calls are answered, and no others. */
  predicate FoundExactly(pods: seq<Pod>, down: set<Pod>, leases: map<Pod, Lease>, now: int, zombies: set<Pod>) {
    && (forall p :: p in zombies ==> p in pods && p !in down && IsZombie(leases, p, now))
    && (forall p :: p in pods && p !in down && IsZombie(leases, p, now) ==> p in zombies)
  }

  /** What a job acquired at `t` is among them from the millisecond on in which its time to live is over. */
  ghost predicate OverdueFound(pods: seq<Pod>, down: set<Pod>, leases: map<Pod, Lease>, now: int, zombies: set<Pod>) {
    forall p, holder, t, ttl: nat | p in pods && p !in down && p in leases && ttl > 0
        && IsGrant(leases[p], holder, t, ttl) :: p in zombies <==> now > t + ttl * 1000
  }

  lemma FoundMeansOverdue(pods: seq<Pod>, down: set<Pod>, leases: map<Pod, Lease>, now: int, zombies: set<Pod>)
    requires FoundExactly(pods, down, leases, now, zombies)
    ensures OverdueFound(pods, down, leases, now, zombies)
  {
  }

  lemma FoundOneMore(pods: seq<Pod>, i: nat, down: set<Pod>, leases: map<Pod, Lease>, now: int, zombies: set<Pod>,
      zombie: bool)
    requires i < |pods| && FoundExactly(pods[..i], down, leases, now, zombies)
    requires zombie <==> pods[i] !in down && IsZombie(leases, pods[i], now)
    ensures FoundExactly(pods[..i + 1], down, leases, now, if zombie then zombies + {pods[i]} else zombies)
  {
    assert forall p :: p in pods[..i + 1] <==> p in pods[..i] || p == pods[i];
  }

  lemma PassStep(
    pods: seq<Pod>, i: nat, s0: Snapshot, s: Snapshot, s': Snapshot, now: int, ttlSeconds: nat,
    zombies: set<Pod>, allCleared: bool, given: seq<(Pod, Waiter)>, zombie: bool, cleared: bool, next: Option<Waiter>)
    requires i < |pods| && NoDuplicates(pods)
    requires PassInv(pods, i, s0, s, now, ttlSeconds, zombies, allCleared, given)
    requires Visited(s, s', pods[i], now, ttlSeconds, zombie, cleared, next)
    ensures pods[i] !in zombies && (IsZombie(s0.leases, pods[i], now) <==> IsZombie(s.leases, pods[i], now))
    ensures !zombie ==> PassInv(pods, i + 1, s0, s', now, ttlSeconds, zombies, allCleared, given)
    ensures zombie ==>
              PassInv(pods, i + 1, s0, s', now, ttlSeconds, zombies + {pods[i]}, allCleared && cleared,
                      given + if next.Some? then [(pods[i], next.value)] else [])
  {
    var p := pods[i];
    assert p !in zombies;
    if zombie {
      QueueSplits(given, p, next, s, s', s0.waiters);
      LeasedSplits(given, p, next, zombies, s.leases, s'.leases, now, ttlSeconds);
      PodsSplit(given, p, next, s0.held, s.held, s'.held, zombies);
      ScrubbedSplits(zombies, p, s0.waiters, s.waiters, s.leases, s'.leases, Names(given));
    } else {
      assert s'.waiters == s.waiters;
    }
  }

  lemma PodsSplit(given: seq<(Pod, Waiter)>, p: Pod, next: Option<Waiter>, held0: set<Pod>, held: set<Pod>,
      held': set<Pod>, zombies: set<Pod>)
    requires held == held0 - zombies + PodsOf(given) && p !in PodsOf(given)
    requires held' == if next.Some? then held + {p} else held - {p}
    ensures held' == held0 - (zombies + {p}) + PodsOf(given + if next.Some? then [(p, next.value)] else [])
  {
    var given' := given + if next.Some? then [(p, next.value)] else [];
    assert forall g :: g in given' <==> g in given || (next.Some? && g == (p, next.value));
    assert PodsOf(given') == PodsOf(given) + (if next.Some? then {p} else {});
  }

  lemma LeasedSplits(
    given: seq<(Pod, Waiter)>, p: Pod, next: Option<Waiter>, zombies: set<Pod>,
    leases: map<Pod, Lease>, leases': map<Pod, Lease>, now: int, ttlSeconds: nat)
    requires AllLeased(given, zombies, leases, now, ttlSeconds) && p !in zombies && OnlyChanged(p, leases, leases')
    requires next.Some? ==> p in leases' && IsGrant(leases'[p], next.value.id, now, ttlSeconds)
    ensures p !in PodsOf(given)
    ensures AllLeased(given + if next.Some? then [(p, next.value)] else [], zombies + {p}, leases', now, ttlSeconds)
  {
  }

  lemma ScrubbedSplits(
    zombies: set<Pod>, p: Pod, queue0: seq<Waiter>, queue: seq<Waiter>,
    leases: map<Pod, Lease>, leases': map<Pod, Lease>, served: seq<Waiter>)
    requires served + queue == queue0 && p !in zombies && OnlyChanged(p, leases, leases')
    ensures Scrubbed(zombies, queue0, leases) && Scrubbed({p}, queue, leases') ==>
          Scrubbed(zombies + {p}, queue0, leases')
  {
    forall id | Queued(queue, id) ensures Queued(queue0, id) {
      var w :| w in queue && w.id == id;
      assert w in queue0;
    }
  }

  /** The head that a visit serves moves from the queue to the end of those served. */
  lemma QueueSplits(given: seq<(Pod, Waiter)>, p: Pod, next: Option<Waiter>, s: Snapshot, s': Snapshot,
      queue: seq<Waiter>)
    requires Names(given) + s.waiters == queue
    requires (if next.Some? then [next.value] else []) + s'.waiters == s.waiters
    ensures Names(given + if next.Some? then [(p, next.value)] else []) + s'.waiters == queue
  {
    if next.Some? {
      NamesSnoc(given, (p, next.value));
    } else {
      assert given + [] == given;
    }
  }
}
