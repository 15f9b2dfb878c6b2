/** The caller's wait for a tool result: a promise raced by a message, a timer and a failed
    subscription, and what it makes of everything a worker publishes for the call. */
module ResultWait {
  import opened Common
  import opened Leases
  import opened Replica
  import opened Accounting

  /** A payload that parses is the publish it came from. */
  datatype Raw = Payload(p: Publish) | Garbled

  datatype Outcome = Resolved(p: Publish) | CapacityTimeout | SubscribeError | InvalidPayload

  datatype Signal = TimeIsUp | SubscribeFails | Message(raw: Raw)

  datatype WaitState = WaitState(settled: bool, timerLive: bool, promise: Option<Outcome>)

  const FRESH: WaitState := WaitState(false, true, None)

  /** Only the first `resolve` or `reject` of a promise has an effect. */
  function Settle(promise: Option<Outcome>, o: Outcome): Option<Outcome> {
    if promise.Some? then promise else Some(o)
  }

  function Meant(e: Signal): Outcome {
    match e
    case TimeIsUp => CapacityTimeout
    case SubscribeFails => SubscribeError
    case Message(Payload(p)) => Resolved(p)
    case Message(Garbled) => InvalidPayload
  }

  predicate CanHappen(s: WaitState, e: Signal) {
    e.TimeIsUp? ==> s.timerLive
  }

  /** The callbacks. The one for a failed subscription does not look at the flag. */
  function Next(s: WaitState, e: Signal): WaitState {
    match e
    case TimeIsUp => if s.settled then s.(timerLive := false)
        else WaitState(true, false, Settle(s.promise, CapacityTimeout))
    case SubscribeFails => WaitState(true, false, Settle(s.promise, SubscribeError))
    case Message(_) => if s.settled then s else WaitState(true, false, Settle(s.promise, Meant(e)))
  }

  class Wait {
    var settled: bool
    var timerLive: bool
    var promise: Option<Outcome>

    function Now(): WaitState
      reads this
    {
      WaitState(settled, timerLive, promise)
    }

    /** The flag and the timer tell whether the promise is open. */
    predicate Valid()
      reads this
    {
      (settled <==> promise.Some?) && (timerLive <==> promise.None?)
    }

    constructor ()
      ensures Valid() && promise.None? && Now() == FRESH
    {
      settled, timerLive, promise := false, true, None;
    }

    method SettleWith(o: Outcome)
      modifies this`promise
      ensures promise == Settle(old(promise), o)
    {
      if promise.None? {
        promise := Some(o);
      }
    }

    method OnTimer()
      requires timerLive
      modifies this
      ensures old(Valid()) ==> Valid() && promise == Some(CapacityTimeout)
      ensures Now() == Next(old(Now()), TimeIsUp)
    {
      timerLive := false;
      if settled {
        return;
      }
      settled := true;
      SettleWith(CapacityTimeout);
    }

    /** An open promise is rejected; one that is settled keeps its outcome. */
    method OnSubscribeError()
      modifies this
      ensures old(Valid()) ==> Valid()
      ensures old(Valid()) ==> promise == Some(if old(promise).Some? then old(promise.value) else SubscribeError)
      ensures Now() == Next(old(Now()), SubscribeFails)
    {
      timerLive := false;
      settled := true;
      SettleWith(SubscribeError);
    }

    /** The first message settles an open promise, well or not; every other leaves it alone. */
    method OnMessage(raw: Raw)
      modifies this
      ensures old(Valid()) ==> Valid() && promise.Some?
      ensures old(Valid()) && old(promise).Some? ==> promise == old(promise)
      ensures old(Valid()) && old(promise).None? ==>
                match raw case Payload(p) => promise == Some(Resolved(p))
                    case Garbled => promise == Some(InvalidPayload)
      ensures Now() == Next(old(Now()), Message(raw))
    {
      if settled {
        return;
      }
      settled := true;
      timerLive := false;
      SettleWith(if raw.Payload? then Resolved(raw.p) else InvalidPayload);
    }
  }

  function After(es: seq<Signal>): WaitState {
    if es == [] then FRESH else Next(After(es[..|es| - 1]), es[|es| - 1])
  }

  predicate IsWaitRun(es: seq<Signal>) {
    forall k :: 0 <= k < |es| ==> CanHappen(After(es[..k]), es[k])
  }

  /** The wait settles once, by whatever comes first, and the flag says whether it has. */
  lemma {:induction false} FirstEventDecides(es: seq<Signal>)
    requires IsWaitRun(es)
    ensures After(es).promise == if es == [] then None else Some(Meant(es[0]))
    ensures After(es).settled <==> es != []
    ensures After(es).timerLive <==> es == []
  {
    if es != [] {
      var p := es[..|es| - 1];
      assert forall k :: 0 <= k < |p| ==> p[..k] == es[..k];
      FirstEventDecides(p);
      assert es[..|es| - 1] == p;
    }
  }

  /** The publishes among the messages of a run, in order. */
  function Received(es: seq<Signal>): seq<Publish> {
    if es == [] then []
    else
      Received(es[..|es| - 1])
      + (match es[|es| - 1] case Message(Payload(p)) => [p] case _ => [])
  }

  /** The channel may lose messages but keeps their order. */
  predicate Subsequence(s: seq<Publish>, t: seq<Publish>) {
    if s == [] then true
    else if t == [] then false
    else if s[0] == t[0] then Subsequence(s[1..], t[1..]) || Subsequence(s, t[1..])
    else Subsequence(s, t[1..])
  }

  lemma FailureNeverFirst(s: seq<Publish>, t: seq<Publish>)
    requires ResultFirst(t) && Subsequence(s, t) && ToolResult in s
    ensures s[0] == ToolResult
  {
  }

  lemma {:induction false} ReceivedFirst(es: seq<Signal>)
    requires es != [] && es[0].Message? && es[0].raw.Payload?
    ensures Received(es) != [] && Received(es)[0] == es[0].raw.p
  {
    if |es| == 1 {
      assert es[..0] == [];
      assert Received(es[..0]) == [];
    } else {
      ReceivedFirst(es[..|es| - 1]);
    }
  }

  lemma ResultDecides(es: seq<Signal>, published: seq<Publish>)
    requires ResultFirst(published) && IsWaitRun(es) && Subsequence(Received(es), published)
    requires es != [] && es[0].Message? && es[0].raw.Payload? && ToolResult in Received(es)
    ensures After(es).promise == Some(Resolved(ToolResult))
  {
    FailureNeverFirst(Received(es), published);
    ReceivedFirst(es);
    FirstEventDecides(es);
  }

  /** End to end: if the tool's result reaches the caller at all, and a message is the first thing
      that happens, then the caller gets that result, whatever `processJob` publishes or fails at
      afterwards. */
  lemma LateFailureChangesNothing(cfg: Config, ms: seq<Moment>, vs: seq<Move>, k: nat, a: Task, es: seq<Signal>)
    requires IsRun(cfg, ms, vs) && k < |ms| && a in ms[k].r.tasks
    requires IsWaitRun(es) && Subsequence(Received(es), ms[k].r.tasks[a].published)
    requires es != [] && es[0].Message? && es[0].raw.Payload? && ToolResult in Received(es)
    ensures After(es).promise == Some(Resolved(ToolResult))
  {
    ReleasedOnceOnEveryPath(cfg, ms, vs, k, a);
    ResultDecides(es, ms[k].r.tasks[a].published);
  }
}
