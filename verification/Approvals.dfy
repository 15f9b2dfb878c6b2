/** The approval gate in front of file writes. */
module Approvals {
  type Id = string

  /** `pending` is the manager's table; `timers` are those armed, `answers` the settled promises. */
  datatype Gate = Gate(pending: set<Id>, timers: set<Id>, answers: map<Id, bool>)

  function Settle(answers: map<Id, bool>, id: Id, approved: bool): map<Id, bool> {
    if id in answers then answers else answers[id := approved]
  }

  function Waited(g: Gate, id: Id): Gate {
    g.(pending := g.pending + {id}, timers := g.timers + {id})
  }

  function Responded(g: Gate, id: Id, approved: bool): Gate {
    if id in g.pending then Gate(g.pending - {id}, g.timers, Settle(g.answers, id, approved)) else g
  }

  function TimedOut(g: Gate, id: Id): Gate {
    var g1 := g.(timers := g.timers - {id});
    if id in g.pending then g1.(pending := g.pending - {id}, answers := Settle(g.answers, id, false)) else g1
  }

  class ApprovalManager {
    var pending: set<Id>
    var timers: set<Id>
    var answers: map<Id, bool>

    function Now(): Gate
      reads this
    {
      Gate(pending, timers, answers)
    }

    /** What is pending has its timer and no answer. */
    predicate Valid()
      reads this
    {
      pending !! answers.Keys && pending <= timers
    }

    constructor ()
      ensures Valid() && pending == {} && Now() == Gate({}, {}, map[])
    {
      pending, timers, answers := {}, {}, map[];
    }

    /** A fresh id becomes pending and stays without an answer; no other id is affected. */
    method WaitForResponse(id: Id)
      modifies this
      ensures old(Valid()) && id !in old(answers) ==> Valid()
      ensures id in pending && id in timers && answers == old(answers)
      ensures forall other :: other != id ==> (other in pending <==> other in old(pending))
      ensures Now() == Waited(old(Now()), id)
    {
      pending := pending + {id};
      timers := timers + {id};
    }

    method OnTimer(id: Id)
      requires id in timers
      modifies this
      ensures id !in timers && id !in pending && (old(Valid()) ==> Valid())
      ensures old(Valid()) && id in old(pending) ==> answers == old(answers)[id := false]
      ensures id !in old(pending) ==> answers == old(answers)
      ensures forall other :: other != id ==> (other in pending <==> other in old(pending))
      ensures Now() == TimedOut(old(Now()), id)
    {
      timers := timers - {id};
      if id in pending {
        pending := pending - {id};
        answers := Settle(answers, id, false);
      }
    }

    method Respond(id: Id, approved: bool) returns (known: bool)
      modifies this
      ensures known <==> id in old(pending)
      ensures id !in pending && (old(Valid()) ==> Valid())
      ensures old(Valid()) && known ==> answers == old(answers)[id := approved]
      ensures !known ==> Now() == old(Now())
      ensures forall other :: other != id ==> (other in pending <==> other in old(pending))
      ensures Now() == Responded(old(Now()), id, approved)
    {
      if id !in pending {
        return false;
      }
      pending := pending - {id};
      answers := Settle(answers, id, approved);
      return true;
    }
  }

  // ----- file writes behind the gate

  datatype Write = Asking | Executing | Executed | Declined

  datatype State = State(gate: Gate, writes: map<Id, Write>)

  datatype Event =
    | Request(id: Id)
    | Respond(id: Id, approved: bool)
    | TimerFires(id: Id)
    | Resume(id: Id)
    | Finish(id: Id)

  const IDLE: State := State(Gate({}, {}, map[]), map[])

  /** Approval ids are fresh: they are random UUIDs. */
  predicate CanHappen(s: State, e: Event) {
    match e
    case Request(id) => id !in s.writes
    case Respond(_, _) => true
    case TimerFires(id) => id in s.gate.timers
    case Resume(id) => id in s.writes && s.writes[id].Asking? && id in s.gate.answers
    case Finish(id) => id in s.writes && s.writes[id].Executing?
  }

  function Next(s: State, e: Event): State
    requires CanHappen(s, e)
  {
    match e
    case Request(id) => State(Waited(s.gate, id), s.writes[id := Asking])
    case Respond(id, approved) => s.(gate := Responded(s.gate, id, approved))
    case TimerFires(id) => s.(gate := TimedOut(s.gate, id))
    case Resume(id) => s.(writes := s.writes[id := if s.gate.answers[id] then Executing else Declined])
    case Finish(id) => s.(writes := s.writes[id := Executed])
  }

  ghost predicate IsRun(ss: seq<State>, es: seq<Event>) {
    && |ss| == |es| + 1 && ss[0] == IDLE
    && forall k :: 0 <= k < |es| ==> CanHappen(ss[k], es[k]) && ss[k + 1] == Next(ss[k], es[k])
  }

  /** `respond(id, approved)` returned true at step `k`. */
  predicate Answered(ss: seq<State>, es: seq<Event>, k: nat, id: Id, approved: bool)
    requires |ss| == |es| + 1 && k < |es|
  {
    es[k] == Respond(id, approved) && id in ss[k].gate.pending
  }

  predicate Reached(w: Write) { w.Executing? || w.Executed? }

  ghost predicate GateInv(s: State) {
    && (forall id :: id in s.gate.pending ==> id in s.writes && s.writes[id].Asking? && id !in s.gate.answers)
    && (forall id :: id in s.gate.answers ==> id in s.writes)
    && (forall id :: id in s.writes && id !in s.gate.pending ==> id in s.gate.answers)
    && (forall id :: id in s.writes && Reached(s.writes[id]) ==> id in s.gate.answers && s.gate.answers[id])
    && (forall id :: id in s.writes && s.writes[id].Declined? ==> id in s.gate.answers && !s.gate.answers[id])
  }

  lemma {:induction false} RunsKeepGate(ss: seq<State>, es: seq<Event>, k: nat)
    requires IsRun(ss, es) && k < |ss|
    ensures GateInv(ss[k])
  {
    if k > 0 {
      RunsKeepGate(ss, es, k - 1);
    }
  }

  /** `resolve` is called for `id` at this step, by a response or by the timer. */
  predicate Resolves(s: State, e: Event, id: Id) {
    (e == TimerFires(id) || (e.Respond? && e.id == id)) && id in s.gate.pending
  }

  /** A settled approval keeps its answer, not because later calls of `resolve` have no effect but
      because there are none: what is pending has no answer yet, and what has one is not pending. */
  lemma {:induction false} AnswersAreFinal(ss: seq<State>, es: seq<Event>, k: nat, n: nat, id: Id)
    requires IsRun(ss, es) && k <= n < |ss|
    ensures id in ss[k].gate.answers ==> id in ss[n].gate.answers && ss[n].gate.answers[id] == ss[k].gate.answers[id]
    ensures id in ss[k].writes ==> id in ss[n].writes
    ensures id in ss[k].gate.answers ==> id !in ss[n].gate.pending
  {
    RunsKeepGate(ss, es, n);
    if k < n {
      AnswersAreFinal(ss, es, k, n - 1, id);
    }
  }

  /** Each approval is resolved at most once, response and timer taken together. */
  lemma ResolvedOnce(ss: seq<State>, es: seq<Event>, k: nat, n: nat, id: Id)
    requires IsRun(ss, es) && k < |es| && n < |es| && Resolves(ss[k], es[k], id) && Resolves(ss[n], es[n], id)
    ensures k == n
  {
    RunsKeepGate(ss, es, k);
    RunsKeepGate(ss, es, n);
    if k < n {
      AnswersAreFinal(ss, es, k + 1, n, id);
    } else if n < k {
      AnswersAreFinal(ss, es, n + 1, k, id);
    }
  }

  /** So at most one response for an id returns true, and none after its timer has rejected it. */
  lemma OneAnswerPerId(ss: seq<State>, es: seq<Event>, k: nat, n: nat, id: Id, x: bool, y: bool)
    requires IsRun(ss, es) && k < |es| && n < |es| && Answered(ss, es, k, id, x)
    ensures Answered(ss, es, n, id, y) ==> k == n && x == y
    ensures !(es[n] == TimerFires(id) && id in ss[n].gate.pending)
  {
    if Resolves(ss[n], es[n], id) {
      ResolvedOnce(ss, es, k, n, id);
    }
  }

  /** A positive answer has a response behind it. */
  lemma {:induction false} ApprovalHasResponse(ss: seq<State>, es: seq<Event>, n: nat, id: Id) returns (k: nat)
    requires IsRun(ss, es) && n < |ss| && id in ss[n].gate.answers && ss[n].gate.answers[id]
    ensures k < n && Answered(ss, es, k, id, true)
  {
    RunsKeepGate(ss, es, n - 1);
    if id in ss[n - 1].gate.answers {
      k := ApprovalHasResponse(ss, es, n - 1, id);
    } else {
      k := n - 1;
    }
  }

  /** A write reaches the executor only after a response that approved it and returned true while
      it was pending; a write that was declined never does. */
  lemma NoWriteWithoutApproval(ss: seq<State>, es: seq<Event>, n: nat, id: Id)
    requires IsRun(ss, es) && n < |ss| && id in ss[n].writes
    ensures Reached(ss[n].writes[id]) ==> exists k :: 0 <= k < n && Answered(ss, es, k, id, true)
    ensures ss[n].writes[id].Declined? ==> forall k :: 0 <= k < |es| ==> !Answered(ss, es, k, id, true)
  {
    RunsKeepGate(ss, es, n);
    if Reached(ss[n].writes[id]) {
      var k := ApprovalHasResponse(ss, es, n, id);
    }
    if ss[n].writes[id].Declined? {
      forall k | 0 <= k < |es| ensures !Answered(ss, es, k, id, true) {
        RunsKeepGate(ss, es, k);
        if k < n {
          AnswersAreFinal(ss, es, k + 1, n, id);
        } else {
          AnswersAreFinal(ss, es, n, k, id);
        }
      }
    }
  }
}
