/** The sliding-window limiter in front of the chat route. */
module RateLimiter {
  const RATE_LIMIT: nat := 20
  const RATE_WINDOW_MS: nat := 60000

  datatype Request = Request(ip: string, time: int)

  /** The hits younger than the window, in order. */
  function Recent(hits: seq<int>, now: int): seq<int> {
    if hits == [] then []
    else (if now - hits[0] < RATE_WINDOW_MS then [hits[0]] else []) + Recent(hits[1..], now)
  }

  function HitsOf(counts: map<string, seq<int>>, ip: string): seq<int> {
    if ip in counts then counts[ip] else []
  }

  /** The table after a request, and whether the request is refused. */
  function Recorded(counts: map<string, seq<int>>, q: Request): map<string, seq<int>> {
    counts[q.ip := Recent(HitsOf(counts, q.ip), q.time) + [q.time]]
  }

  predicate Refused(counts: map<string, seq<int>>, q: Request) {
    |HitsOf(Recorded(counts, q), q.ip)| > RATE_LIMIT
  }

  class Limiter {
    var rateCounts: map<string, seq<int>>

    constructor ()
      ensures rateCounts == map[]
    {
      rateCounts := map[];
    }

    method IsRateLimited(ip: string, now: int) returns (limited: bool)
      modifies this
      ensures rateCounts == Recorded(old(rateCounts), Request(ip, now))
      ensures limited <==> Refused(old(rateCounts), Request(ip, now))
    {
      var known := HitsOf(rateCounts, ip);
      var hits: seq<int> := [];
      for i := 0 to |known|
        invariant rateCounts == old(rateCounts) && hits == Recent(known[..i], now)
      {
        RecentSnoc(known[..i], known[i], now);
        assert known[..i] + [known[i]] == known[..i + 1];
        if now - known[i] < RATE_WINDOW_MS {
          hits := hits + [known[i]];
        }
      }
      assert known[..|known|] == known;
      hits := hits + [now];
      rateCounts := rateCounts[ip := hits];
      limited := |hits| > RATE_LIMIT;
    }
  }

  lemma {:induction false} RecentSnoc(hits: seq<int>, t: int, now: int)
    ensures Recent(hits + [t], now) == Recent(hits, now) + if now - t < RATE_WINDOW_MS then [t] else []
  {
    if hits == [] {
      assert hits + [t] == [t];
    } else {
      assert (hits + [t])[1..] == hits[1..] + [t];
      RecentSnoc(hits[1..], t, now);
    }
  }

  // ----- runs

  function Table(qs: seq<Request>): map<string, seq<int>> {
    if qs == [] then map[] else Recorded(Table(qs[..|qs| - 1]), qs[|qs| - 1])
  }

  /** All requests of one client, accepted and refused. */
  function Log(qs: seq<Request>, ip: string): seq<int> {
    if qs == [] then []
    else
      var q := qs[|qs| - 1];
      Log(qs[..|qs| - 1], ip) + if q.ip == ip then [q.time] else []
  }

  predicate Monotone(qs: seq<Request>) {
    forall i, j :: 0 <= i < j < |qs| ==> qs[i].time <= qs[j].time
  }

  predicate Accepted(qs: seq<Request>, k: nat)
    requires k < |qs|
  {
    !Refused(Table(qs[..k]), qs[k])
  }

  lemma {:induction false} LogTimes(qs: seq<Request>, ip: string)
    ensures forall t :: t in Log(qs, ip) ==> exists i :: 0 <= i < |qs| && qs[i] == Request(ip, t)
  {
    if qs != [] {
      var p := qs[..|qs| - 1];
      LogTimes(p, ip);
      forall t | t in Log(qs, ip) ensures exists i :: 0 <= i < |qs| && qs[i] == Request(ip, t) {
        if t in Log(p, ip) {
          var i :| 0 <= i < |p| && p[i] == Request(ip, t);
          assert qs[i] == Request(ip, t);
        } else {
          assert qs[|qs| - 1] == Request(ip, t);
        }
      }
    }
  }

  lemma {:induction false} RecentTwice(hits: seq<int>, t: int, now: int)
    requires t <= now
    ensures Recent(Recent(hits, t), now) == Recent(hits, now)
  {
    if hits != [] {
      RecentTwice(hits[1..], t, now);
      var rest := Recent(hits[1..], t);
      if t - hits[0] < RATE_WINDOW_MS {
        assert ([hits[0]] + rest)[1..] == rest;
      } else {
        assert [] + rest == rest;
      }
    }
  }

  /** The time of the last request of a client. */
  function LastTime(qs: seq<Request>, ip: string): int
    requires Log(qs, ip) != []
  {
    var log := Log(qs, ip);
    log[|log| - 1]
  }

  /** The stored hits are the full log cut to the window before the client's last request: what the
      limiter has dropped can never matter again. */
  lemma {:induction false} StoredHitsAreRecentLog(qs: seq<Request>, ip: string)
    requires Monotone(qs)
    ensures ip in Table(qs) <==> Log(qs, ip) != []
    ensures ip in Table(qs) ==> Table(qs)[ip] == Recent(Log(qs, ip), LastTime(qs, ip))
  {
    if qs != [] {
      var p, q := qs[..|qs| - 1], qs[|qs| - 1];
      StoredHitsAreRecentLog(p, ip);
      if q.ip == ip {
        var log := Log(p, ip);
        RecentSnoc(log, q.time, q.time);
        assert Log(qs, ip) == log + [q.time];
        if log != [] {
          LogTimes(p, ip);
          assert log[|log| - 1] in log;
          RecentTwice(log, LastTime(p, ip), q.time);
        }
      } else {
        assert Log(qs, ip) == Log(p, ip) + [] == Log(p, ip);
      }
    }
  }

  /** A request is refused exactly when the client's log, this request included, has more than the
      limit in the window that ends now; other clients do not matter. */
  lemma RefusedByOwnLogOnly(qs: seq<Request>, k: nat)
    requires Monotone(qs) && k < |qs|
    ensures Accepted(qs, k) <==> |Recent(Log(qs[..k + 1], qs[k].ip), qs[k].time)| <= RATE_LIMIT
  {
    var p := qs[..k + 1];
    assert p[..|p| - 1] == qs[..k] && p[|p| - 1] == qs[k];
    StoredHitsAreRecentLog(p, qs[k].ip);
    assert Log(p, qs[k].ip) == Log(qs[..k], qs[k].ip) + [qs[k].time];
  }

  /** How many requests of `ip` in `[lo, lo + window)` were accepted, of the first `k`. */
  function AcceptedIn(qs: seq<Request>, ip: string, lo: int, k: nat): nat
    requires k <= |qs|
  {
    if k == 0 then 0
    else
      AcceptedIn(qs, ip, lo, k - 1)
      + if qs[k - 1].ip == ip && lo <= qs[k - 1].time < lo + RATE_WINDOW_MS && Accepted(qs, k - 1) then 1 else 0
  }

  /** Those in the window are all still recent when the last of them arrives. */
  lemma {:induction false} AcceptedAreRecent(qs: seq<Request>, ip: string, lo: int, k: nat, now: int)
    requires k <= |qs| && now < lo + RATE_WINDOW_MS
    ensures AcceptedIn(qs, ip, lo, k) <= |Recent(Log(qs[..k], ip), now)|
  {
    if k > 0 {
      AcceptedAreRecent(qs, ip, lo, k - 1, now);
      var p, q := qs[..k], qs[k - 1];
      assert p[..|p| - 1] == qs[..k - 1];
      if q.ip == ip {
        assert Log(p, ip) == Log(qs[..k - 1], ip) + [q.time];
        RecentSnoc(Log(qs[..k - 1], ip), q.time, now);
      } else {
        assert Log(p, ip) == Log(qs[..k - 1], ip) + [] == Log(qs[..k - 1], ip);
      }
    }
  }

  /** No window holds more than the limit of accepted requests of one client. */
  lemma {:induction false} WindowNeverOverflows(qs: seq<Request>, ip: string, lo: int, k: nat)
    requires Monotone(qs) && k <= |qs|
    ensures AcceptedIn(qs, ip, lo, k) <= RATE_LIMIT
  {
    if k > 0 {
      WindowNeverOverflows(qs, ip, lo, k - 1);
      var q := qs[k - 1];
      if q.ip == ip && lo <= q.time < lo + RATE_WINDOW_MS && Accepted(qs, k - 1) {
        AcceptedAreRecent(qs, ip, lo, k, q.time);
        RefusedByOwnLogOnly(qs, k - 1);
      }
    }
  }

  function OfClient(qs: seq<Request>, ip: string): seq<Request> {
    if qs == [] then []
    else OfClient(qs[..|qs| - 1], ip) + if qs[|qs| - 1].ip == ip then [qs[|qs| - 1]] else []
  }

  /** Clients do not affect each other: a client's stored hits are those of the run in which all
      other clients keep silent. */
  lemma {:induction false} ClientsAreIndependent(qs: seq<Request>, ip: string)
    ensures HitsOf(Table(qs), ip) == HitsOf(Table(OfClient(qs, ip)), ip)
    ensures (ip in Table(qs)) == (ip in Table(OfClient(qs, ip)))
  {
    if qs != [] {
      var p, q := qs[..|qs| - 1], qs[|qs| - 1];
      ClientsAreIndependent(p, ip);
      var own := OfClient(p, ip);
      if q.ip == ip {
        assert (own + [q])[..|own + [q]| - 1] == own;
      } else {
        assert own + [] == own;
      }
    }
  }
}
