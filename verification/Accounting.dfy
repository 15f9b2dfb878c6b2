/** What `processJob` does with the pods it gets and the results it publishes, on every success
    and exception path and whatever the store, the pod and the channel answer. */
module Accounting {
  import opened Common
  import opened Leases
  import opened Replica

  /** A result is published at most once, and never after a failure was. */
  predicate ResultFirst(s: seq<Publish>) {
    s == [] || s == [ToolResult] || s == [JobError] || s == [ToolResult, JobError]
  }

  predicate Failed(s: seq<Publish>) {
    s == [JobError] || s == [ToolResult, JobError]
  }

  predicate ServesOk(t: TaskState, who: For) {
    match who
    case ForSelf => t.delivered == [] && t.released == [] && t.published == [] && t.acks == 0
    case ForWaiter(_, g, fin) => ReleasesOk(t, g, fin)
  }

  predicate PublishedOk(t: TaskState, fin: Option<bool>) {
    if fin.None? then t.published == [ToolResult] else Failed(t.published)
  }

  predicate ReleasesOk(t: TaskState, g: Grant, fin: Option<bool>) {
    t.delivered == [g.pod] && t.released == [g.pod] && t.acks == 0 && PublishedOk(t, fin)
  }

  predicate ContOk(t: TaskState, c: Cont) {
    match c
    case Releasing(g, fin) => ReleasesOk(t, g, fin)
    case Zombie(_) => t.delivered == [] && t.released == [] && t.published == [] && t.acks == 0
  }

  predicate TaskOk(t: TaskState) {
    match t.pc
    case TryRead(_, _, who) => ServesOk(t, who)
    case TryGot(_, _, who, _) => ServesOk(t, who)
    case TryPut(_, _, who, _, _) => ServesOk(t, who)
    case TryLost(_, _, who) => ServesOk(t, who)
    case TryWon(_, _, who, _) => ServesOk(t, who)
    case Missed => ServesOk(t, ForSelf)
    case Waiting => ServesOk(t, ForSelf)
    case Holding(g, stage) =>
      && t.delivered == [g.pod] && t.released == [] && t.acks == 0
      && match stage {
           case Annotating => t.published == []
           case Running => t.published == []
           case Publishing => t.published == [ToolResult]
           case Failing => Failed(t.published)
           case Unannotating(fin) => PublishedOk(t, fin)
         }
    case ClearRead(c) => ContOk(t, c)
    case ClearGot(c, _) => ContOk(t, c)
    case ClearPut(c, _, _) => ContOk(t, c)
    case Cleared(c) => ContOk(t, c)
    case HandPut(c, _, _) => ContOk(t, c)
    case HandLost(c, _) => ContOk(t, c)
    case HandWon(c, _, _) => ContOk(t, c)
    case Notifying(fin) =>
      |t.delivered| == 1 && t.released == t.delivered && t.acks == 0 && PublishedOk(t, fin)
    case FailingBare =>
      |t.delivered| <= 1 && t.released == t.delivered && t.acks == 0 && Failed(t.published)
      && (t.delivered != [] <==> t.published == [ToolResult, JobError])
    case Acking(again) =>
      |t.delivered| <= 1 && t.released == t.delivered && t.acks >= 1 && t.published != [] && ResultFirst(t.published)
      && (t.published == [ToolResult] ==> t.delivered != []) && (again ==> t.acks == 1) && t.acks <= 2
    case DogRead(_) => ServesOk(t, ForSelf)
    case DogGot(_, _) => ServesOk(t, ForSelf)
    case Finished =>
      |t.delivered| <= 1 && t.released == t.delivered && ResultFirst(t.published)
          && (t.published != [] <==> t.acks >= 1) && t.acks <= 2
  }

  ghost predicate BooksInv(r: Replica) {
    forall a :: a in r.tasks ==> TaskOk(r.tasks[a])
  }

  lemma MoverStaysOk(cfg: Config, now: int, r: Replica, e: Event)
    requires Enabled(now, r, e) && (e.a in r.tasks ==> TaskOk(r.tasks[e.a]))
    ensures e.a in Step(cfg, now, r, e).tasks && TaskOk(Step(cfg, now, r, e).tasks[e.a])
  {
    match e
    case Resume(a) => ResumedStaysOk(cfg, now, r, a);
    case Io(a, ok) => IoStaysOk(r.tasks[a], ok);
    case TimerFires(a) => TimedStaysOk(r, a);
    case ReadServed(a, answer) => ReadStaysOk(r.tasks[a], answer);
    case PutServed(a, won) => PutStaysOk(r.tasks[a], won);
    case _ => StartStaysOk(cfg, now, r, e);
  }

  lemma IoStaysOk(t: TaskState, ok: bool)
    requires TaskOk(t)
    ensures TaskOk(AfterIo(t, ok))
  {
  }

  lemma ReadStaysOk(t: TaskState, answer: Option<Lease>)
    requires TaskOk(t)
    ensures TaskOk(t.(pc := AfterRead(t.pc, answer)))
  {
  }

  lemma PutStaysOk(t: TaskState, won: Option<Grant>)
    requires TaskOk(t)
    ensures TaskOk(t.(pc := AfterPut(t.pc, won)))
  {
  }

  lemma TimedStaysOk(r: Replica, a: Task)
    requires a in r.tasks && TaskOk(r.tasks[a])
    ensures a in OnTimer(r, a).tasks && TaskOk(OnTimer(r, a).tasks[a])
  {
  }

  lemma StartStaysOk(cfg: Config, now: int, r: Replica, e: Event)
    requires Enabled(now, r, e) && (e.Start? || e.DogStart?)
    ensures e.a in Step(cfg, now, r, e).tasks && TaskOk(Step(cfg, now, r, e).tasks[e.a])
  {
  }

  lemma ResumedStaysOk(cfg: Config, now: int, r: Replica, a: Task)
    requires Enabled(now, r, Resume(a)) && TaskOk(r.tasks[a])
    ensures a in OnResume(cfg, now, r, a).tasks && TaskOk(OnResume(cfg, now, r, a).tasks[a])
  {
    var pc := r.tasks[a].pc;
    if pc.TryLost? || pc.HandLost? || pc.Cleared? {
      ScanStaysOk(cfg, now, r, a);
    } else if pc.TryWon? || pc.HandWon? {
      WonStaysOk(cfg, now, r, a);
    } else {
      RestStaysOk(cfg, now, r, a);
    }
  }

  lemma WonStaysOk(cfg: Config, now: int, r: Replica, a: Task)
    requires Enabled(now, r, Resume(a)) && TaskOk(r.tasks[a]) && (r.tasks[a].pc.TryWon? || r.tasks[a].pc.HandWon?)
    ensures a in OnResume(cfg, now, r, a).tasks && TaskOk(OnResume(cfg, now, r, a).tasks[a])
  {
  }

  lemma RestStaysOk(cfg: Config, now: int, r: Replica, a: Task)
    requires Enabled(now, r, Resume(a)) && TaskOk(r.tasks[a])
    requires var pc := r.tasks[a].pc; !pc.TryLost? && !pc.HandLost? && !pc.Cleared? && !pc.TryWon? && !pc.HandWon?
    ensures a in OnResume(cfg, now, r, a).tasks && TaskOk(OnResume(cfg, now, r, a).tasks[a])
  {
  }

  lemma ScanStaysOk(cfg: Config, now: int, r: Replica, a: Task)
    requires Enabled(now, r, Resume(a)) && TaskOk(r.tasks[a])
    requires var pc := r.tasks[a].pc; pc.TryLost? || pc.HandLost? || pc.Cleared?
    ensures a in OnResume(cfg, now, r, a).tasks && TaskOk(OnResume(cfg, now, r, a).tasks[a])
  {
  }

  lemma StepKeepsBooks(cfg: Config, now: int, r: Replica, e: Event)
    requires BooksInv(r) && Enabled(now, r, e)
    ensures BooksInv(Step(cfg, now, r, e))
  {
    var r' := Step(cfg, now, r, e);
    MoverStaysOk(cfg, now, r, e);
    forall b | b in r'.tasks ensures TaskOk(r'.tasks[b]) {
      if b != e.a {
        Frame(cfg, now, r, e, b);
        assert TaskOk(r.tasks[b]);
      }
    }
  }

  lemma {:induction false} RunsKeepBooks(cfg: Config, ms: seq<Moment>, vs: seq<Move>, k: nat)
    requires IsRun(cfg, ms, vs) && k < |ms|
    ensures BooksInv(ms[k].r)
  {
    if k > 0 {
      RunsKeepBooks(cfg, ms, vs, k - 1);
      if vs[k - 1].Do? {
        StepKeepsBooks(cfg, ms[k - 1].now, ms[k - 1].r, vs[k - 1].e);
      }
    }
  }

  /** Every path of `processJob` releases exactly the pods it acquired, each once, before the
      message is acknowledged; it acquires at most one, and publishes a result at most once and
      only before any failure. */
  lemma ReleasedOnceOnEveryPath(cfg: Config, ms: seq<Moment>, vs: seq<Move>, k: nat, a: Task)
    requires IsRun(cfg, ms, vs) && k < |ms| && a in ms[k].r.tasks
    ensures var t := ms[k].r.tasks[a];
            && |t.delivered| <= 1 && t.released <= t.delivered && ResultFirst(t.published)
            && (t.pc.Acking? || t.pc.Finished? ==> t.released == t.delivered)
            && (t.acks > 0 ==> t.released == t.delivered && t.published != [] && (t.pc.Acking? || t.pc.Finished?))
            && (t.pc.Finished? && t.published != [] ==> 1 <= t.acks <= 2)
  {
    RunsKeepBooks(cfg, ms, vs, k);
  }

  // ----- what is published and acknowledged, told by how the awaits settled

  /** The tool has run; an await of the try block has rejected; the publish of the catch block has
      rejected, and `processJob` with it; the acknowledgement of a job that did not reject was refused. */
  datatype Mark = ToolRan | TryFailed | CatchFailed | AckFailed

  predicate IsMark(m: Moment, v: Move, a: Task, k: Mark) {
    && a in m.r.tasks
    && var pc := m.r.tasks[a].pc;
       match k
       case ToolRan => v == Do(Io(a, true)) && pc.Holding? && pc.stage.Running?
       case TryFailed =>
         || (v == Do(TimerFires(a)) && pc.Waiting? && a in m.r.waiters)
         || (v == Do(Io(a, false)) && pc.Holding? && (pc.stage.Running? || pc.stage.Publishing?))
         || (v == Do(Io(a, false)) && pc == Notifying(None))
       case CatchFailed => v == Do(Io(a, false)) && ((pc.Holding? && pc.stage.Failing?) || pc.FailingBare?)
       case AckFailed => v == Do(Io(a, false)) && pc == Acking(true)
  }

  /** At some moment before `n`. */
  predicate Happened(ms: seq<Moment>, vs: seq<Move>, n: nat, a: Task, k: Mark)
    requires n <= |vs| < |ms|
  {
    n > 0 && (IsMark(ms[n - 1], vs[n - 1], a, k) || Happened(ms, vs, n - 1, a, k))
  }

  function FinOf(pc: PC): Option<bool> {
    match pc
    case TryRead(_, _, who) => if who.ForWaiter? then who.fin else None
    case TryGot(_, _, who, _) => if who.ForWaiter? then who.fin else None
    case TryPut(_, _, who, _, _) => if who.ForWaiter? then who.fin else None
    case TryLost(_, _, who) => if who.ForWaiter? then who.fin else None
    case TryWon(_, _, who, _) => if who.ForWaiter? then who.fin else None
    case Holding(_, stage) => if stage.Unannotating? then stage.fin else None
    case ClearRead(c) => FinOfCont(c)
    case ClearGot(c, _) => FinOfCont(c)
    case ClearPut(c, _, _) => FinOfCont(c)
    case Cleared(c) => FinOfCont(c)
    case HandPut(c, _, _) => FinOfCont(c)
    case HandLost(c, _) => FinOfCont(c)
    case HandWon(c, _, _) => FinOfCont(c)
    case Notifying(fin) => fin
    case Acking(again) => Some(again)
    case _ => None
  }

  function FinOfCont(c: Cont): Option<bool> {
    if c.Releasing? then c.fin else None
  }

  /** How a task shows that this has happened to it. */
  predicate Shows(t: TaskState, k: Mark) {
    match k
    case ToolRan => ToolResult in t.published
    case TryFailed => JobError in t.published
    case CatchFailed => FinOf(t.pc) == Some(false)
    case AckFailed => t.acks == 2
  }

  /** That `processJob` has rejected shows up to the first acknowledgement. */
  predicate StillShows(t: TaskState, k: Mark) {
    k.CatchFailed? ==> !t.pc.Finished? && t.acks < 2
  }

  predicate MoveTells(m: Moment, v: Move, r': Replica, a: Task, k: Mark) {
    a in r'.tasks && StillShows(r'.tasks[a], k) ==>
      (Shows(r'.tasks[a], k) <==> IsMark(m, v, a, k) || (a in m.r.tasks && Shows(m.r.tasks[a], k)))
      && (a in m.r.tasks ==> StillShows(m.r.tasks[a], k))
  }

  lemma IoTells(now: int, r: Replica, a: Task, ok: bool, k: Mark)
    requires Enabled(now, r, Io(a, ok)) && TaskOk(r.tasks[a])
    ensures MoveTells(Moment(now, r), Do(Io(a, ok)), r.(tasks := r.tasks[a := AfterIo(r.tasks[a], ok)]), a, k)
  {
  }

  lemma ResumeTells(cfg: Config, now: int, r: Replica, a: Task, k: Mark)
    requires Enabled(now, r, Resume(a)) && TaskOk(r.tasks[a])
    ensures MoveTells(Moment(now, r), Do(Resume(a)), OnResume(cfg, now, r, a), a, k)
  {
    var pc := r.tasks[a].pc;
    if pc.TryLost? || pc.HandLost? {
      ScanTells(cfg, now, r, a, k);
    } else if pc.TryWon? || pc.HandWon? {
      WonTells(cfg, now, r, a, k);
    }
  }

  lemma WonTells(cfg: Config, now: int, r: Replica, a: Task, k: Mark)
    requires Enabled(now, r, Resume(a)) && TaskOk(r.tasks[a])
    requires r.tasks[a].pc.TryWon? || r.tasks[a].pc.HandWon?
    ensures MoveTells(Moment(now, r), Do(Resume(a)), OnResume(cfg, now, r, a), a, k)
  {
  }

  lemma ScanTells(cfg: Config, now: int, r: Replica, a: Task, k: Mark)
    requires Enabled(now, r, Resume(a)) && TaskOk(r.tasks[a])
    requires r.tasks[a].pc.TryLost? || r.tasks[a].pc.HandLost?
    ensures MoveTells(Moment(now, r), Do(Resume(a)), OnResume(cfg, now, r, a), a, k)
  {
  }

  lemma AnswerTells(cfg: Config, now: int, r: Replica, e: Event, k: Mark)
    requires Enabled(now, r, e) && (e.ReadServed? || e.PutServed?)
    ensures MoveTells(Moment(now, r), Do(e), Step(cfg, now, r, e), e.a, k)
  {
  }

  lemma TimerTells(cfg: Config, now: int, r: Replica, a: Task, k: Mark)
    requires Enabled(now, r, TimerFires(a)) && TaskOk(r.tasks[a])
    ensures MoveTells(Moment(now, r), Do(TimerFires(a)), OnTimer(r, a), a, k)
  {
  }

  lemma StartTells(cfg: Config, now: int, r: Replica, e: Event, k: Mark)
    requires Enabled(now, r, e) && (e.Start? || e.DogStart?)
    ensures MoveTells(Moment(now, r), Do(e), Step(cfg, now, r, e), e.a, k)
  {
  }

  lemma MoverTells(cfg: Config, now: int, r: Replica, e: Event, k: Mark)
    requires Enabled(now, r, e) && (e.a in r.tasks ==> TaskOk(r.tasks[e.a]))
    ensures MoveTells(Moment(now, r), Do(e), Step(cfg, now, r, e), e.a, k)
  {
    match e
    case Io(a, ok) => IoTells(now, r, a, ok, k);
    case Resume(a) => ResumeTells(cfg, now, r, a, k);
    case TimerFires(a) => TimerTells(cfg, now, r, a, k);
    case ReadServed(_, _) => AnswerTells(cfg, now, r, e, k);
    case PutServed(_, _) => AnswerTells(cfg, now, r, e, k);
    case _ => StartTells(cfg, now, r, e, k);
  }

  lemma StepTells(cfg: Config, now: int, r: Replica, e: Event, a: Task, k: Mark)
    requires Enabled(now, r, e) && BooksInv(r)
    ensures MoveTells(Moment(now, r), Do(e), Step(cfg, now, r, e), a, k)
  {
    if e.a == a {
      MoverTells(cfg, now, r, e, k);
    } else {
      Frame(cfg, now, r, e, a);
    }
  }

  /** Exactly what each job has published and how often it was acknowledged: the result if and only if the
      tool ran, an error if and only if something in the try block failed, a second acknowledgement if and
      only if the first was refused after a job that did not reject. */
  lemma {:induction false} PublishesExactly(cfg: Config, ms: seq<Moment>, vs: seq<Move>, n: nat, a: Task, k: Mark)
    requires IsRun(cfg, ms, vs) && n < |ms| && a in ms[n].r.tasks && StillShows(ms[n].r.tasks[a], k)
    ensures Shows(ms[n].r.tasks[a], k) <==> Happened(ms, vs, n, a, k)
  {
    if n > 0 {
      var m, v := ms[n - 1], vs[n - 1];
      assert CanMove(m, v) && ms[n] == Moved(cfg, m, v);
      RunsKeepBooks(cfg, ms, vs, n - 1);
      if v.Do? { StepTells(cfg, m.now, m.r, v.e, a, k); }
      if a in m.r.tasks {
        PublishesExactly(cfg, ms, vs, n - 1, a, k);
      } else {
        NothingHappened(cfg, ms, vs, n - 1, a, k);
      }
    }
  }

  /** Nothing happens to a task before it starts. */
  lemma {:induction false} NothingHappened(cfg: Config, ms: seq<Moment>, vs: seq<Move>, n: nat, a: Task, k: Mark)
    requires IsRun(cfg, ms, vs) && n < |ms| && a !in ms[n].r.tasks
    ensures !Happened(ms, vs, n, a, k)
  {
    if n > 0 {
      assert CanMove(ms[n - 1], vs[n - 1]) && ms[n] == Moved(cfg, ms[n - 1], vs[n - 1]);
      if a in ms[n - 1].r.tasks { TasksStay(cfg, ms[n - 1], vs[n - 1], a); }
      NothingHappened(cfg, ms, vs, n - 1, a, k);
    }
  }

  lemma TasksStay(cfg: Config, m: Moment, v: Move, a: Task)
    requires CanMove(m, v) && a in m.r.tasks
    ensures a in Moved(cfg, m, v).r.tasks
  {
    if v.Do? && v.e.a != a { Frame(cfg, m.now, m.r, v.e, a); }
  }
}
