/** Progress: every step does some of a bounded amount of work, and a listening client that was not
    evicted is never left waiting with nothing to do. */
module Progress {
  import opened Channels
  import opened Events
  import opened Readers
  import opened Tracker
  import opened Sessions
  import opened Sums
  import opened System
  import opened Invariant
  import opened LogTheorems
  import opened EndToEnd
  import opened Observers
  import opened KillTheorems

  // ---------------------------------------------------------------- measure

  function ReaderWork(r: Reader): nat {
    7 * |r.rest| + 3 * |r.ch.buf|
    + match r.pc
      case Reading => 10
      case Sending(msg) => if msg.Good? then 16 else 5
      case Finished => 0
  }

  function TrackerWork(t: Tracker): nat {
    Count(t.stdoutOk) + Count(t.stderrOk) + Count(t.killOk) + 4 * Count(t.childOk)
    + match t.pc
      case Select => 10
      case SendFrame(_) => 12
      case Killing(_) => 13
      case MarkKilled(_) => 12
      case RecordExit(_) => 12
      case SendFinal(_) => 5
      case StoreResult => 3
      case Stopped => 0
  }

  function KillWork(k: Kill): nat {
    6 * Count(k.phase.KillUnsent?) + Count(k.caller)
  }

  /** What is left to do ahead of the broadcaster's fan-out. */
  function CoreWork(s: Sys): nat {
    ReaderWork(s.stdout) + ReaderWork(s.stderr) + TrackerWork(s.tracker)
    + |s.frameCh.buf| + Count(s.bcast.frameRxOk) + 4 * |s.killCh.buf| + Sum(s.kills, KillWork)
  }

  function SessionWork(x: Session): nat {
    3 * Count(x.relay.pc.Looping?) + 8 * |x.input.buf| + 7 * |x.relay.pending| + 6 * Count(x.relay.toSend.Some?)
    + 5 * |x.output.buf| + 2 * |x.stream.buf| + Count(x.stream.open)
    + match x.fwd
      case Opening => 3
      case Receiving => 2
      case Delivering(_, _) => 5
      case Closed => 0
  }

  /** A request that may still become a session. */
  function Outstanding(q: LogRequest): nat {
    Count(q.phase.Unsent? || q.phase.Queued?)
  }

  function RequestWork(q: LogRequest): nat {
    Count(q.caller) + 2 * Count(q.phase.Unsent?) + Count(q.phase.Queued?)
  }

  /** Each session may yet receive every event still on its way, and each outstanding request may
      become a session that replays the whole history as well. */
  function WorkOf(core: nat, sessions: nat, outstanding: nat, history: nat, inSessions: nat, inRequests: nat): nat {
    core + 10 * core * (sessions + outstanding) + outstanding * (10 * history + 20) + inSessions + inRequests
  }

  function Work(s: Sys): nat {
    WorkOf(CoreWork(s), |s.sessions|, Sum(s.reqs, Outstanding), |s.bcast.frames|,
           Sum(s.sessions, SessionWork), Sum(s.reqs, RequestWork))
  }

  /** A new request to kill the job. */
  predicate AsksKill(a: Action) {
    a.KillStep? && a.x.NewKill?
  }

  /** A new request to see the log or to kill the job. */
  predicate Arrival(a: Action) {
    a == RequestStep(NewRequest) || AsksKill(a)
  }

  /** How often a run asks to kill the job. */
  function KillsAsked(acts: seq<Action>): nat {
    if |acts| == 0 then 0 else Count(AsksKill(acts[0])) + KillsAsked(acts[1..])
  }

  lemma KillsFirst(acts: seq<Action>)
    requires |acts| > 0
    ensures KillsAsked(acts) == Count(AsksKill(acts[0])) + KillsAsked(acts[1..])
    ensures Count(AsksKill(acts[0])) == if AsksKill(acts[0]) then 1 else 0
  {
    hide AsksKill;
  }

  lemma NoKills()
    ensures KillsAsked([]) == 0
  {
  }

  // Arithmetic about WorkOf: which changes of its parts make it smaller.

  lemma LessCore(c: nat, c': nat, n: nat, o: nat, h: nat, xs: nat, q: nat)
    requires c' < c
    ensures WorkOf(c', n, o, h, xs, q) < WorkOf(c, n, o, h, xs, q)
  {
    Monotone(c', c, n + o);
  }

  lemma Monotone(c': nat, c: nat, m: nat)
    requires c' <= c
    ensures 10 * c' * m <= 10 * c * m
  {
  }

  lemma LessFanOut(c: nat, c': nat, n: nat, o: nat, h: nat, xs: nat, xs': nat, q: nat)
    requires c' < c && xs' <= xs + 10 * n
    ensures WorkOf(c', n, o, h + 1, xs', q) < WorkOf(c, n, o, h, xs, q)
  {
    Monotone(c' + 1, c, n + o);
    assert 10 * (c' + 1) * (n + o) == 10 * c' * (n + o) + 10 * n + 10 * o;
    assert o * (10 * (h + 1) + 20) == o * (10 * h + 20) + 10 * o;
  }

  lemma LessServe(c: nat, n: nat, o: nat, h: nat, xs: nat, xs': nat, q: nat, q': nat)
    requires o > 0 && xs' <= xs + 7 * h + 7 && q' <= q
    ensures WorkOf(c, n + 1, o - 1, h, xs', q') < WorkOf(c, n, o, h, xs, q)
  {
    assert (n + 1) + (o - 1) == n + o;
    assert o * (10 * h + 20) == (o - 1) * (10 * h + 20) + 10 * h + 20;
  }

  lemma LessRefuse(c: nat, n: nat, o: nat, h: nat, xs: nat, q: nat, q': nat)
    requires o > 0 && q' <= q
    ensures WorkOf(c, n, o - 1, h, xs, q') < WorkOf(c, n, o, h, xs, q)
  {
    Monotone2(c, n + o - 1, n + o);
    assert o * (10 * h + 20) == (o - 1) * (10 * h + 20) + 10 * h + 20;
  }

  lemma Monotone2(c: nat, m': nat, m: nat)
    requires m' <= m
    ensures 10 * c * m' <= 10 * c * m
  {
  }

  lemma LessRequests(c: nat, n: nat, o: nat, h: nat, xs: nat, q: nat, q': nat)
    requires q' < q
    ensures WorkOf(c, n, o, h, xs, q') < WorkOf(c, n, o, h, xs, q)
  {
  }

  // ------------------------------------------------- every step does work

  lemma ReaderWorks(r: Reader, a: ReaderAction)
    requires ReaderEnabled(r, a)
    ensures ReaderWork(ReaderApply(r, a)) < ReaderWork(r)
  {
  }

  lemma SetKillWork(kills: seq<Kill>, k: nat, phase: KillPhase)
    requires !phase.KillUnsent?
    ensures Sum(SetKill(kills, k, phase), KillWork) <= Sum(kills, KillWork)
    ensures k < |kills| && kills[k].phase.KillUnsent? ==>
              Sum(SetKill(kills, k, phase), KillWork) + 6 == Sum(kills, KillWork)
  {
    if k < |kills| {
      SumUpdate(kills, k, kills[k].(phase := phase), KillWork);
    }
  }

  lemma AnswerAllWork(kills: seq<Kill>, ids: seq<nat>, job: Job)
    ensures Sum(AnswerAll(kills, ids, job), KillWork) <= Sum(kills, KillWork)
  {
    SumGrowth(kills, AnswerAll(kills, ids, job), KillWork, 0);
  }

  lemma AbandonAllWork(kills: seq<Kill>, taken: seq<nat>, queued: seq<nat>)
    ensures Sum(AbandonAll(kills, taken, queued), KillWork) <= Sum(kills, KillWork)
  {
    SumGrowth(kills, AbandonAll(kills, taken, queued), KillWork, 0);
  }

  lemma ReceiverWork(r: Reader)
    ensures r.ch.CanRecv() ==> ReaderWork(r.(ch := r.ch.Recv())) + 3 == ReaderWork(r)
    ensures ReaderWork(r.(ch := r.ch.DropReceiver())) <= ReaderWork(r)
  {
  }

  /** The tracker's own part of the work: what its steps do to its variables. */
  lemma TrackerArmsWork(t: Tracker, m: Message, k: StreamKind, req: nat, result: WaitResult)
    requires t.pc.Select?
    ensures TrackerWork(t.TakeMessage(m)) <= TrackerWork(t) + 2
    ensures t.Listening(k) ==> TrackerWork(t.StreamClosed(k)) < TrackerWork(t)
    ensures TrackerWork(t.TakeKill(req)) == TrackerWork(t) + 3
    ensures t.killOk ==> TrackerWork(t.KillsClosed()) < TrackerWork(t)
    ensures t.childOk ==> TrackerWork(t.ChildWaited(result)) < TrackerWork(t)
  {
  }

  lemma TrackerSendsWork(t: Tracker)
    ensures t.pc.SendFrame? ==> TrackerWork(t.FrameSent()) + 1 < TrackerWork(t)
    ensures t.pc.SendFrame? ==> TrackerWork(t.FrameRejected()) < TrackerWork(t)
    ensures t.pc.Killing? ==> TrackerWork(t.KillErred()) < TrackerWork(t)
    ensures t.pc.Killing? ==> TrackerWork(t.KillWorked()) < TrackerWork(t)
  {
  }

  lemma TrackerNotesWork(t: Tracker)
    ensures t.pc.MarkKilled? ==> TrackerWork(t.KillMarked()) < TrackerWork(t)
    ensures t.pc.RecordExit? ==> TrackerWork(t.ExitRecorded()) < TrackerWork(t)
    ensures t.pc.SendFinal? ==> TrackerWork(t.FinalSent()) + 1 < TrackerWork(t)
    ensures t.pc.StoreResult? ==> TrackerWork(t.Stop()) < TrackerWork(t)
  {
  }

  lemma TrackerLeavesRest(s: Sys, t: TrackerAction)
    requires TrackerEnabled(s, t)
    ensures var s' := TrackerApply(s, t);
            s'.sessions == s.sessions && s'.reqs == s.reqs && s'.bcast == s.bcast
  {
    hide AnswerAll, AbandonAll, SetKill;
  }

  lemma TrackerSelectWorks(s: Sys, t: TrackerAction)
    requires TrackerEnabled(s, t) && s.tracker.pc.Select?
    ensures CoreWork(TrackerApply(s, t)) < CoreWork(s)
  {
    hide Sum, AnswerAll, AbandonAll, SetKill, ReaderWork, TrackerWork;
    ReceiverWork(s.stdout);
    ReceiverWork(s.stderr);
    TrackerArmsWork(s.tracker, if t.RecvFrame? then ReaderOf(s, t.k).ch.buf[0] else Bad(BroadcasterDisappeared),
                    if t.StreamEnds? then t.k else Stdout,
                    if t.RecvKill? then s.killCh.buf[0] else 0,
                    if t.WaitReturns? then t.result else WaitFails(IoError("")));
  }

  lemma TrackerAwaitWorks(s: Sys, t: TrackerAction)
    requires TrackerEnabled(s, t) && !s.tracker.pc.Select?
    ensures CoreWork(TrackerApply(s, t)) < CoreWork(s)
  {
    hide Sum, AnswerAll, AbandonAll, SetKill, ReaderWork, TrackerWork;
    ReceiverWork(s.stdout);
    ReceiverWork(s.stderr);
    TrackerSendsWork(s.tracker);
    TrackerNotesWork(s.tracker);
    match t
    case KillReturns(err) =>
      if err.Some? { SetKillWork(s.kills, s.tracker.pc.req, KillAnswered(KillFailed(err.value))); }
    case RecordEnd(at) => AnswerAllWork(s.kills, s.tracker.killReqs, s.job.Ended(at, s.tracker.pc.status));
    case Stop => AbandonAllWork(s.kills, s.tracker.killReqs, s.killCh.buf);
    case _ =>
  }

  lemma TrackerWorks(s: Sys, t: TrackerAction)
    requires TrackerEnabled(s, t)
    ensures CoreWork(TrackerApply(s, t)) < CoreWork(s)
  {
    hide *;
    if s.tracker.pc.Select? {
      TrackerSelectWorks(s, t);
    } else {
      TrackerAwaitWorks(s, t);
    }
  }

  lemma KillWorks(s: Sys, x: KillAction)
    requires KillEnabled(s, x) && !x.NewKill?
    ensures CoreWork(KillApply(s, x)) < CoreWork(s)
    ensures var s' := KillApply(s, x);
            s'.sessions == s.sessions && s'.reqs == s.reqs && s'.bcast == s.bcast
  {
    var s' := KillApply(s, x);
    match x
    case SendKill(k) => SetKillWork(s.kills, k, KillPending);
    case KillRejected(k) => SumUpdate(s.kills, k, s'.kills[k], KillWork);
    case LeaveKill(k) => SumUpdate(s.kills, k, s'.kills[k], KillWork);
  }

  /** An own step of a session does some of its work. */
  lemma SessionWorks(x: Session, a: SessionAction)
    requires ChannelInv(x) && SessionEnabled(x, a)
    ensures SessionWork(SessionApply(x, a)) < SessionWork(x)
  {
  }

  lemma OfferWork(x: Session, ev: FrameEvent)
    ensures SessionWork(OfferTo(x, ev)) <= SessionWork(x) + 10
    ensures SessionWork(ReleaseFrom(x)) == SessionWork(x)
  {
  }

  /** The clients have no part in the work ahead of the fan-out. */
  lemma CoreWorkErased(s: Sys)
    ensures CoreWork(Erase(s)) == CoreWork(s)
  {
    hide ReaderWork, TrackerWork, Sum;
  }

  lemma RequestShrinks(s: Sys, s': Sys, r: nat, q: LogRequest)
    requires r < |s.reqs| && s'.reqs == s.reqs[r := q] && s'.sessions == s.sessions && s'.bcast == s.bcast
    requires Erase(s') == Erase(s)
    requires RequestWork(q) < RequestWork(s.reqs[r]) && Outstanding(q) <= Outstanding(s.reqs[r])
    ensures Work(s') < Work(s)
  {
    SumUpdate(s.reqs, r, q, Outstanding);
    SumUpdate(s.reqs, r, q, RequestWork);
    CoreWorkErased(s);
    CoreWorkErased(s');
    hide Sum, CoreWork, WorkOf, Erase, RequestWork;
    var c, n, o, h := CoreWork(s), |s.sessions|, Sum(s.reqs, Outstanding), |s.bcast.frames|;
    var xs, w, w' := Sum(s.sessions, SessionWork), Sum(s.reqs, RequestWork), Sum(s'.reqs, RequestWork);
    if Outstanding(q) < Outstanding(s.reqs[r]) {
      LessRefuse(c, n, o, h, xs, w, w');
    } else {
      LessRequests(c, n, o, h, xs, w, w');
    }
  }

  lemma RequestWorks(s: Sys, q: RequestAction)
    requires RequestEnabled(s, q) && !q.NewRequest?
    ensures Work(RequestApply(s, q)) < Work(s)
  {
    hide Work;
    var s' := RequestApply(s, q);
    RequestShrinks(s, s', q.r, s'.reqs[q.r]);
  }

  lemma BcastFrameCore(s: Sys)
    requires PipeInv(s.frameCh, s.tracker, s.bcast) && BroadcasterEnabled(s, BcastFrame)
    ensures CoreWork(BroadcasterApply(s, BcastFrame)) + 1 == CoreWork(s)
  {
    hide Sum, FanOut, ReaderWork, TrackerWork;
  }

  lemma FramesEndCore(s: Sys)
    requires PipeInv(s.frameCh, s.tracker, s.bcast) && BroadcasterEnabled(s, FramesEnd)
    ensures CoreWork(BroadcasterApply(s, FramesEnd)) + 1 == CoreWork(s)
  {
    hide Sum, ReleaseAll, ReaderWork, TrackerWork;
  }

  lemma BcastFrameWorks(s: Sys)
    requires PipeInv(s.frameCh, s.tracker, s.bcast) && BroadcasterEnabled(s, BcastFrame)
    ensures Work(BroadcasterApply(s, BcastFrame)) < Work(s)
  {
    BcastFrameCore(s);
    var s' := BroadcasterApply(s, BcastFrame);
    forall i | 0 <= i < |s.sessions| ensures SessionWork(s'.sessions[i]) <= SessionWork(s.sessions[i]) + 10 {
      OfferWork(s.sessions[i], s.frameCh.buf[0]);
    }
    SumGrowth(s.sessions, s'.sessions, SessionWork, 10);
    hide Sum, SessionWork, FanOut, CoreWork, WorkOf;
    LessFanOut(CoreWork(s), CoreWork(s'), |s.sessions|, Sum(s.reqs, Outstanding), |s.bcast.frames|,
               Sum(s.sessions, SessionWork), Sum(s'.sessions, SessionWork), Sum(s.reqs, RequestWork));
  }

  lemma FramesEndWorks(s: Sys)
    requires PipeInv(s.frameCh, s.tracker, s.bcast) && BroadcasterEnabled(s, FramesEnd)
    ensures Work(BroadcasterApply(s, FramesEnd)) < Work(s)
  {
    FramesEndCore(s);
    var s' := BroadcasterApply(s, FramesEnd);
    forall i | 0 <= i < |s.sessions| ensures SessionWork(s'.sessions[i]) == SessionWork(s.sessions[i]) {
      OfferWork(s.sessions[i], EOF);
    }
    SumSame(s.sessions, s'.sessions, SessionWork);
    hide Sum, SessionWork, ReleaseAll, CoreWork, WorkOf;
    LessCore(CoreWork(s), CoreWork(s'), |s.sessions|, Sum(s.reqs, Outstanding), |s.bcast.frames|,
             Sum(s.sessions, SessionWork), Sum(s.reqs, RequestWork));
  }

  /** What serving the request at the head of the queue does to the parts of the work. */
  lemma ServeParts(s: Sys, q: LogRequest)
    requires s.reqCh.CanRecv() && s.reqCh.buf[0] < |s.reqs| && s.reqs[s.reqCh.buf[0]].phase.Queued?
    requires q.caller == s.reqs[s.reqCh.buf[0]].caller && (q.phase.Served? || q.phase.Refused?)
    ensures var reqs' := s.reqs[s.reqCh.buf[0] := q];
            && Sum(reqs', Outstanding) + 1 == Sum(s.reqs, Outstanding)
            && Sum(reqs', RequestWork) <= Sum(s.reqs, RequestWork)
  {
    var r := s.reqCh.buf[0];
    SumUpdate(s.reqs, r, q, Outstanding);
    SumUpdate(s.reqs, r, q, RequestWork);
  }

  lemma NewSessionWork(xs: seq<Session>, frames: seq<FrameEvent>, live: bool)
    ensures Sum(xs + [StartSession(frames, live)], SessionWork) == Sum(xs, SessionWork) + 7 * |frames| + 7
  {
    SumAppend(xs, StartSession(frames, live), SessionWork);
  }

  /** A request leaves the queue: it becomes a session, or is refused. */
  lemma ServeShrinks(s: Sys, s': Sys, q: LogRequest)
    requires s.reqCh.CanRecv() && s.reqCh.buf[0] < |s.reqs| && s.reqs[s.reqCh.buf[0]].phase.Queued?
    requires q.caller == s.reqs[s.reqCh.buf[0]].caller && (q.phase.Served? || q.phase.Refused?)
    requires s'.reqs == s.reqs[s.reqCh.buf[0] := q] && s'.bcast == s.bcast && Erase(s') == Erase(s)
    requires s'.sessions == s.sessions
          || s'.sessions == s.sessions + [StartSession(s.bcast.frames, s.bcast.frameRxOk)]
    ensures Work(s') < Work(s)
  {
    hide Sum, CoreWork, SessionWork, StartSession, WorkOf, Erase;
    var c, n, o, h := CoreWork(s), |s.sessions|, Sum(s.reqs, Outstanding), |s.bcast.frames|;
    var xs, xs', w, w' := Sum(s.sessions, SessionWork), Sum(s'.sessions, SessionWork), Sum(s.reqs, RequestWork),
                          Sum(s'.reqs, RequestWork);
    ServeParts(s, q);
    CoreWorkErased(s);
    CoreWorkErased(s');
    if s'.sessions == s.sessions {
      LessRefuse(c, n, o, h, xs, w, w');
    } else {
      NewSessionWork(s.sessions, s.bcast.frames, s.bcast.frameRxOk);
      LessServe(c, n, o, h, xs, xs', w, w');
    }
  }

  lemma BcastRequestWorks(s: Sys)
    requires PipeInv(s.frameCh, s.tracker, s.bcast) && BroadcasterEnabled(s, BcastRequest)
    requires s.reqCh.buf[0] < |s.reqs| && s.reqs[s.reqCh.buf[0]].phase.Queued?
    ensures Work(BroadcasterApply(s, BcastRequest)) < Work(s)
  {
    hide Work, Erase, StartSession;
    var s' := BroadcasterApply(s, BcastRequest);
    RequestTouchesClientsOnly(s);
    ServeShrinks(s, s', s'.reqs[s.reqCh.buf[0]]);
  }

  lemma CoreStepWorks(s: Sys, s': Sys)
    requires CoreWork(s') < CoreWork(s)
    requires s'.sessions == s.sessions && s'.reqs == s.reqs && s'.bcast == s.bcast
    ensures Work(s') < Work(s)
  {
    hide Sum, CoreWork;
    LessCore(CoreWork(s), CoreWork(s'), |s.sessions|, Sum(s.reqs, Outstanding), |s.bcast.frames|,
             Sum(s.sessions, SessionWork), Sum(s.reqs, RequestWork));
  }

  lemma ReaderStepWorks(s: Sys, k: StreamKind, r: ReaderAction)
    requires ReaderEnabled(ReaderOf(s, k), r)
    ensures Work(Apply(s, ReaderStep(k, r))) < Work(s)
  {
    ReaderWorks(ReaderOf(s, k), r);
    hide ReaderEnabled, ReaderApply, ReaderWork, Sum, TrackerWork, Work;
    CoreStepWorks(s, Apply(s, ReaderStep(k, r)));
  }

  lemma SessionShrinks(s: Sys, i: nat, x: Session)
    requires i < |s.sessions| && SessionWork(x) < SessionWork(s.sessions[i])
    ensures Work(s.(sessions := s.sessions[i := x])) < Work(s)
  {
    hide SessionWork, CoreWork, Sum, ReaderWork, TrackerWork;
    var s' := s.(sessions := s.sessions[i := x]);
    SumUpdate(s.sessions, i, x, SessionWork);
    assert Erase(s') == Erase(s);
    CoreWorkErased(s);
    CoreWorkErased(s');
  }

  lemma SessionStepWorks(s: Sys, i: nat, a: SessionAction)
    requires Inv(s) && Enabled(s, SessionStep(i, a))
    ensures Work(Apply(s, SessionStep(i, a))) < Work(s)
  {
    SessionOf(s, i);
    hide Inv, RelayInv, ForwardInv, ChannelInv, SessionWork, Work, SessionApply, SessionEnabled;
    SessionWorks(s.sessions[i], a);
    SessionShrinks(s, i, SessionApply(s.sessions[i], a));
  }

  lemma HeadRequestQueued(s: Sys)
    requires Inv(s) && s.reqCh.CanRecv()
    ensures s.reqCh.buf[0] < |s.reqs| && s.reqs[s.reqCh.buf[0]].phase.Queued?
  {
    hide TrackerInv, LogInv, PipeInv, StreamInv, KillsInv, SessionsInv;
    assert s.reqCh.buf[0] in s.reqCh.buf;
  }

  lemma BroadcasterStepWorks(s: Sys, b: BroadcasterAction)
    requires Inv(s) && BroadcasterEnabled(s, b)
    ensures Work(BroadcasterApply(s, b)) < Work(s)
  {
    PipeOf(s);
    RequestsNeverEnd(s);
    if b.BcastRequest? { HeadRequestQueued(s); }
    hide Inv, Work, PipeInv, StreamInv, TrackerInv, BroadcasterApply;
    match b
    case BcastFrame => BcastFrameWorks(s);
    case FramesEnd => FramesEndWorks(s);
    case BcastRequest => BcastRequestWorks(s);
    case _ =>
  }

  lemma StepWorks(s: Sys, a: Action)
    requires Inv(s) && Enabled(s, a) && !Arrival(a)
    ensures Work(Apply(s, a)) < Work(s)
  {
    hide Inv, Work, ReaderEnabled, TrackerEnabled, TrackerApply, BroadcasterEnabled, BroadcasterApply, SessionEnabled,
         RequestEnabled, RequestApply, KillEnabled, KillApply;
    match a
    case ReaderStep(k, r) => ReaderStepWorks(s, k, r);
    case TrackerStep(t) =>
      TrackerWorks(s, t);
      TrackerLeavesRest(s, t);
      CoreStepWorks(s, TrackerApply(s, t));
    case BroadcasterStep(b) => BroadcasterStepWorks(s, b);
    case SessionStep(i, x) => SessionStepWorks(s, i, x);
    case RequestStep(q) => RequestWorks(s, q);
    case KillStep(x) =>
      KillWorks(s, x);
      CoreStepWorks(s, KillApply(s, x));
  }

  /** Every step other than a new arrival does some of the remaining work. */
  lemma EveryStepWorks(s: Sys, a: Action)
    requires Reachable(s) && Enabled(s, a) && !Arrival(a)
    ensures Work(Apply(s, a)) < Work(s)
  {
    ReachableInv(s);
    hide *;
    StepWorks(s, a);
  }

  lemma {:induction false} RunWorks(s: Sys, acts: seq<Action>)
    requires Inv(s) && CanRun(s, acts)
    requires forall n :: 0 <= n < |acts| ==> !Arrival(acts[n])
    ensures |acts| + Work(After(s, acts)) <= Work(s)
    decreases |acts|
  {
    hide *;
    if |acts| > 0 {
      RunUnfolds(s, acts);
      StepWorks(s, acts[0]);
      StepKeepsInv(s, acts[0]);
      RunWorks(Apply(s, acts[0]), acts[1..]);
    } else {
      assert acts == [];
      EmptyRun(s);
    }
  }

  /** A run without new arrivals is never longer than the work there was at its start. */
  lemma RunsAreBounded(s: Sys, acts: seq<Action>)
    requires Reachable(s) && CanRun(s, acts)
    requires forall n :: 0 <= n < |acts| ==> !Arrival(acts[n])
    ensures |acts| + Work(After(s, acts)) <= Work(s)
  {
    ReachableInv(s);
    hide *;
    RunWorks(s, acts);
  }

  lemma BroadcasterCore(s: Sys, b: BroadcasterAction)
    requires Inv(s) && BroadcasterEnabled(s, b) && !b.BcastRequest?
    ensures CoreWork(BroadcasterApply(s, b)) < CoreWork(s)
  {
    PipeOf(s);
    RequestsNeverEnd(s);
    hide Inv, PipeInv, StreamInv, TrackerInv, BroadcasterEnabled, BroadcasterApply, CoreWork;
    if b.BcastFrame? {
      BcastFrameCore(s);
    } else {
      FramesEndCore(s);
    }
  }

  lemma ReaderCore(s: Sys, k: StreamKind, r: ReaderAction)
    requires ReaderEnabled(ReaderOf(s, k), r)
    ensures CoreWork(Apply(s, ReaderStep(k, r))) < CoreWork(s)
  {
    ReaderWorks(ReaderOf(s, k), r);
    hide ReaderEnabled, ReaderApply, ReaderWork, Sum, TrackerWork;
  }

  /** A step of the job itself does some of the work ahead of the fan-out; one that is about log clients
      leaves that work alone. */
  lemma StepCore(s: Sys, a: Action)
    requires Inv(s) && Enabled(s, a) && !AsksKill(a)
    ensures CoreAction(a) ==> CoreWork(Apply(s, a)) < CoreWork(s)
    ensures !CoreAction(a) ==> CoreWork(Apply(s, a)) == CoreWork(s)
  {
    hide Inv, CoreWork, Erase, ReaderEnabled, TrackerEnabled, TrackerApply, BroadcasterEnabled, BroadcasterApply,
         SessionEnabled, SessionApply, RequestEnabled, RequestApply, KillEnabled, KillApply;
    if CoreAction(a) {
      match a
      case ReaderStep(k, r) => ReaderCore(s, k, r);
      case TrackerStep(t) => TrackerWorks(s, t);
      case BroadcasterStep(b) => BroadcasterCore(s, b);
      case KillStep(x) => KillWorks(s, x);
    } else {
      StepIgnoresClients(s, a);
      CoreWorkErased(s);
      CoreWorkErased(Apply(s, a));
    }
  }

  /** A request to kill the job is some new work. */
  lemma AskingCore(s: Sys, a: Action)
    requires Enabled(s, a) && AsksKill(a)
    ensures CoreAction(a) && CoreWork(Apply(s, a)) == CoreWork(s) + 7
  {
    SumAppend(s.kills, Kill(a.x.user, KillUnsent, true), KillWork);
    hide Sum, ReaderWork, TrackerWork, ReaderEnabled, TrackerEnabled, BroadcasterEnabled, SessionEnabled,
         RequestEnabled;
  }

  lemma {:induction false} RunCore(s: Sys, acts: seq<Action>)
    requires Inv(s) && CanRun(s, acts)
    ensures |CoreOnly(acts)| + CoreWork(After(s, acts)) <= CoreWork(s) + 8 * KillsAsked(acts)
    decreases |acts|
  {
    hide *;
    if |acts| > 0 {
      RunUnfolds(s, acts);
      if AsksKill(acts[0]) {
        AskingCore(s, acts[0]);
      } else {
        StepCore(s, acts[0]);
      }
      StepKeepsInv(s, acts[0]);
      RunCore(Apply(s, acts[0]), acts[1..]);
      CoreFirst(acts);
      KillsFirst(acts);
    } else {
      assert acts == [];
      CoreOfNone();
      NoKills();
      EmptyRun(s);
    }
  }

  /** The job's own steps in a run, however many log clients arrive, act and leave in it, are no more than
      the work there was ahead of the fan-out when it began, and eight for each new request to kill
      the job. */
  lemma JobStepsAreBounded(s: Sys, acts: seq<Action>)
    requires Reachable(s) && CanRun(s, acts)
    ensures |CoreOnly(acts)| + CoreWork(After(s, acts)) <= CoreWork(s) + 8 * KillsAsked(acts)
  {
    ReachableInv(s);
    hide *;
    RunCore(s, acts);
  }

  // ------------------------------------------- the work ahead of one client

  /** The steps on which a client's response depends: the job's own, and those of its own session. */
  predicate ServesClient(a: Action, i: nat) {
    CoreAction(a) || (a.SessionStep? && a.i == i)
  }

  function StepsServing(acts: seq<Action>, i: nat): seq<Action> {
    if |acts| == 0 then []
    else (if ServesClient(acts[0], i) then [acts[0]] else []) + StepsServing(acts[1..], i)
  }

  /** What is left to do until a client has its response, whatever other clients there are: each unit of
      work ahead of the fan-out may add one event to the session. */
  function Left(s: Sys, i: nat): nat
    requires i < |s.sessions|
  {
    SessionWork(s.sessions[i]) + 11 * CoreWork(s)
  }

  lemma SessionMovesWork(s: Sys, a: Action, x: Session, x': Session, i: nat)
    requires ChannelInv(x) && SessionMoves(s, a, x, x', i)
    ensures SessionWork(x') <= SessionWork(x) + if CoreAction(a) then 10 else 0
    ensures a.SessionStep? && a.i == i ==> SessionWork(x') < SessionWork(x)
  {
    hide SessionWork, SessionApply, SessionEnabled, OfferTo, ReleaseFrom;
    if a == BroadcasterStep(BcastFrame) {
      OfferWork(x, s.frameCh.buf[0]);
    } else if a == BroadcasterStep(FramesEnd) {
      OfferWork(x, EOF);
    } else if a.SessionStep? && a.i == i {
      SessionWorks(x, a.s);
    }
  }

  lemma StepLeft(s: Sys, a: Action, i: nat)
    requires Inv(s) && Enabled(s, a) && i < |s.sessions|
    ensures i < |Apply(s, a).sessions|
    ensures AsksKill(a) ==> Left(Apply(s, a), i) <= Left(s, i) + 77
    ensures !AsksKill(a) ==> Left(Apply(s, a), i) <= Left(s, i)
    ensures !AsksKill(a) && ServesClient(a, i) ==> Left(Apply(s, a), i) < Left(s, i)
  {
    ClientChannels(s, i);
    hide Inv, Enabled, Apply, CoreWork, SessionWork, SessionMoves, ChannelInv, CoreAction, AsksKill;
    StepMovesSession(s, a, i);
    SessionMovesWork(s, a, s.sessions[i], Apply(s, a).sessions[i], i);
    if AsksKill(a) {
      AskingCore(s, a);
      AskingMoves(s, a, s.sessions[i], Apply(s, a).sessions[i], i);
    } else {
      StepCore(s, a);
    }
  }

  lemma AskingMoves(s: Sys, a: Action, x: Session, x': Session, i: nat)
    requires SessionMoves(s, a, x, x', i) && AsksKill(a)
    ensures x' == x
  {
  }

  lemma ClientChannels(s: Sys, i: nat)
    requires Inv(s) && i < |s.sessions|
    ensures ChannelInv(s.sessions[i])
  {
    SessionOf(s, i);
    hide Inv, ChannelInv, RelayInv, ForwardInv;
  }

  lemma ServingFirst(acts: seq<Action>, i: nat)
    requires |acts| > 0
    ensures StepsServing(acts, i)
         == (if ServesClient(acts[0], i) then [acts[0]] else []) + StepsServing(acts[1..], i)
  {
    hide ServesClient;
  }

  lemma ServingNone(i: nat)
    ensures StepsServing([], i) == []
  {
  }

  lemma {:induction false} RunLeft(s: Sys, acts: seq<Action>, i: nat)
    requires Inv(s) && CanRun(s, acts) && i < |s.sessions|
    ensures i < |After(s, acts).sessions|
    ensures |StepsServing(acts, i)| + Left(After(s, acts), i) <= Left(s, i) + 78 * KillsAsked(acts)
    decreases |acts|
  {
    hide *;
    if |acts| > 0 {
      RunUnfolds(s, acts);
      StepLeft(s, acts[0], i);
      StepKeepsInv(s, acts[0]);
      RunLeft(Apply(s, acts[0]), acts[1..], i);
      ServingFirst(acts, i);
      KillsFirst(acts);
    } else {
      assert acts == [];
      ServingNone(i);
      NoKills();
      EmptyRun(s);
    }
  }

  /** However many other clients arrive, act and leave in a run, the steps of the job and of one client's own
      session are no more than what was left to do for that client when it began, and 78 for each new
      request to kill the job. */
  lemma ClientStepsAreBounded(s: Sys, acts: seq<Action>, i: nat)
    requires Reachable(s) && CanRun(s, acts) && i < |s.sessions|
    ensures i < |After(s, acts).sessions|
    ensures |StepsServing(acts, i)| + Left(After(s, acts), i) <= Left(s, i) + 78 * KillsAsked(acts)
  {
    ReachableInv(s);
    hide *;
    RunLeft(s, acts, i);
  }

  // ---------------------------------------------------- somebody can step

  /** A step that is not a choice of a client: neither an arrival nor a departure. */
  predicate Driven(a: Action) {
    && !Arrival(a)
    && !(a.RequestStep? && a.q.LeaveRequest?) && !(a.KillStep? && a.x.LeaveKill?)
    && !(a.SessionStep? && a.s.ClientLeave?)
  }

  /** Nobody can take a driven step. The child's exit and the end of its streams are such steps. */
  ghost predicate Quiescent(s: Sys) {
    forall a :: Driven(a) ==> !Enabled(s, a)
  }

  /** A reader whose stream the tracker still listens to has something to do, or has something for the
      tracker. */
  lemma StreamMoves(s: Sys, k: StreamKind) returns (a: Action)
    requires StreamInv(ReaderOf(s, k), k, Log(s), s.tracker)
    requires s.tracker.pc.Select? && s.tracker.Listening(k)
    ensures Driven(a) && CoreAction(a) && Enabled(s, a)
  {
    hide FlowInv;
    var r := ReaderOf(s, k);
    if r.ch.CanRecv() {
      a := TrackerStep(RecvFrame(k));
    } else {
      match r.pc
      case Reading => a := ReaderStep(k, if |r.rest| > 0 then Read(1) else End);
      case Sending(_) => a := ReaderStep(k, Deliver);
      case Finished => a := TrackerStep(StreamEnds(k));
    }
  }

  lemma SenderMoves(s: Sys) returns (a: Action)
    requires PipeInv(s.frameCh, s.tracker, s.bcast)
    requires s.tracker.pc.SendFrame? || s.tracker.pc.SendFinal?
    ensures Driven(a) && CoreAction(a) && Enabled(s, a)
  {
    if !s.frameCh.CanSend() {
      a := BroadcasterStep(BcastFrame);
    } else {
      a := TrackerStep(if s.tracker.pc.SendFrame? then FrameSent else FinalSent);
    }
  }

  lemma TrackerMovesNow(s: Sys) returns (a: Action)
    requires PipeInv(s.frameCh, s.tracker, s.bcast) && TrackerInv(s.tracker, s.job, s.contract)
    requires StreamInv(s.stdout, Stdout, Log(s), s.tracker) && StreamInv(s.stderr, Stderr, Log(s), s.tracker)
    requires !s.tracker.pc.Stopped?
    ensures Driven(a) && CoreAction(a) && Enabled(s, a)
  {
    hide StreamInv, PipeInv, Log, BroadcasterEnabled, SessionEnabled;
    var t := s.tracker;
    match t.pc
    case Select =>
      if t.stdoutOk { a := StreamMoves(s, Stdout); }
      else if t.stderrOk { a := StreamMoves(s, Stderr); }
      else { a := TrackerStep(WaitReturns(ExitedWith(ExitStatus(None)))); }
    case SendFrame(_) => a := SenderMoves(s);
    case Killing(_) => a := TrackerStep(KillReturns(Some(IoError("cannot kill"))));
    case MarkKilled(_) => a := TrackerStep(MarkKill(0));
    case RecordExit(_) => a := TrackerStep(RecordEnd(0));
    case SendFinal(_) => a := SenderMoves(s);
    case StoreResult => a := TrackerStep(Stop);
  }

  /** Until the tracker has ended, the job itself can step, whatever its log clients do. By
      `JobStepsAreBounded` it cannot do so forever: the job always finishes. */
  lemma TrackerMoves(s: Sys) returns (a: Action)
    requires Inv(s) && !s.tracker.pc.Stopped?
    ensures Driven(a) && CoreAction(a) && Enabled(s, a)
  {
    PipeOf(s);
    hide *;
    a := TrackerMovesNow(s);
  }

  /** A session whose relay was not evicted and whose client listens can step, unless it has ended or
      has passed on the whole history. */
  lemma SessionCanStep(frames: seq<FrameEvent>, live: bool, x: Session) returns (a: SessionAction, idle: bool)
    requires SessionInv(frames, live, x)
    requires x.stream.open && !x.link.Evicted? && !ResponseComplete(x)
    ensures !idle ==> SessionEnabled(x, a) && !a.ClientLeave?
    ensures idle ==> x.received == frames && Unsealed(x.received)
    ensures idle ==> x.relay.pc.Looping? && x.input.buf == []
  {
    idle := false;
    a := ClientRecv;
    if x.stream.CanRecv() {
    } else if x.fwd.Opening? {
      a := StartForward;
    } else if x.fwd.Delivering? {
      a := ForwardSend;
    } else if x.output.CanRecv() {
      a := ForwardRecv;
    } else if x.relay.Refill().toSend.Some? {
      a := RelaySend;
    } else if x.input.CanRecv() {
      a := RelayRecv;
    } else {
      idle := true;
      assert x.relay.Backlog() == [];
      assert Chain(x) == x.relayed && x.relayed == x.received;
    }
  }

  /** Deadlock freedom, for each client alone: while a listening client that was not evicted lacks the end
      of its response, a driven step of the job or of its own session is possible. The step is one of
      its session unless its relay has passed on everything it was given. */
  lemma ListenerIsServed(s: Sys, i: nat) returns (a: Action)
    requires Inv(s) && i < |s.sessions|
    requires var x := s.sessions[i]; x.stream.open && !x.link.Evicted? && !ResponseComplete(x)
    ensures Driven(a) && ServesClient(a, i) && Enabled(s, a)
    ensures a.SessionStep? || (s.sessions[i].relay.pc.Looping? && s.sessions[i].input.buf == [])
  {
    hide *;
    SessionOf(s, i);
    var b, idle := SessionCanStep(s.bcast.frames, s.bcast.frameRxOk, s.sessions[i]);
    if !idle {
      a := SessionStep(i, b);
      SessionStepDriven(s, i, b);
    } else {
      if !s.tracker.pc.Stopped? {
        a := TrackerMoves(s);
      } else {
        a := TailIsSent(s);
      }
      CoreServes(a, i);
    }
  }

  lemma SessionStepDriven(s: Sys, i: nat, b: SessionAction)
    requires i < |s.sessions| && SessionEnabled(s.sessions[i], b) && !b.ClientLeave?
    ensures Driven(SessionStep(i, b)) && ServesClient(SessionStep(i, b), i) && Enabled(s, SessionStep(i, b))
  {
    hide SessionEnabled;
  }

  lemma CoreServes(a: Action, i: nat)
    requires CoreAction(a)
    ensures ServesClient(a, i)
  {
  }

  /** The tracker has ended but the broadcaster has not yet sealed its history: events are waiting. */
  lemma TailIsSent(s: Sys) returns (a: Action)
    requires Inv(s) && s.tracker.pc.Stopped? && Unsealed(s.bcast.frames)
    ensures Driven(a) && CoreAction(a) && Enabled(s, a)
  {
    PipeOf(s);
    LogShape(s);
    NotBoth(s.bcast.frames);
    hide Inv, StreamInv, TrackerInv, Sealed, Unsealed;
    assert |s.frameCh.buf| == 0 ==> Log(s) == s.bcast.frames;
    a := BroadcasterStep(BcastFrame);
  }

  lemma NotBoth(log: seq<FrameEvent>)
    ensures !(Sealed(log) && Unsealed(log))
  {
    if Sealed(log) {
      assert Terminal(log[|log| - 1]);
    }
  }

  lemma QueueMoves(reqCh: Chan<nat>, reqs: seq<LogRequest>, r: nat)
    requires RequestInv(reqCh, reqs) && r < |reqs| && (reqs[r].phase.Queued? || reqs[r].phase.Unsent?)
    ensures reqCh.CanRecv() || (reqs[r].caller && reqs[r].phase.Unsent? && reqCh.CanSend())
  {
    hide Sum;
  }

  lemma RunsForRequests(s: Sys)
    requires Inv(s)
    ensures s.bcast.running && s.bcast.reqRxOk
  {
    PipeOf(s);
    hide Inv, TrackerInv, StreamInv;
  }

  /** A request whose caller waits is always going to be handled. */
  lemma RequesterIsServed(s: Sys, r: nat) returns (a: Action)
    requires Inv(s) && r < |s.reqs|
    requires s.reqs[r].phase.Queued? || s.reqs[r].phase.Unsent?
    ensures Driven(a) && Enabled(s, a)
  {
    RequestsOf(s);
    RunsForRequests(s);
    hide Inv, RequestInv, ReaderEnabled, TrackerEnabled, SessionEnabled, KillEnabled;
    QueueMoves(s.reqCh, s.reqs, r);
    if s.reqCh.CanRecv() {
      a := BroadcasterStep(BcastRequest);
    } else {
      a := RequestStep(SendRequest(r));
    }
  }

  /** Once the tracker has ended, a kill request not yet sent is going to be refused. */
  lemma KillerIsRefused(s: Sys, k: nat) returns (a: Action)
    requires Inv(s) && s.tracker.pc.Stopped? && k < |s.kills| && s.kills[k].phase.KillUnsent?
    ensures Driven(a) && Enabled(s, a)
  {
    NonePendingAtEnd(s);
    KillsOf(s);
    hide Inv, LineInv, Sum, ReaderEnabled, TrackerEnabled, SessionEnabled, RequestEnabled, BroadcasterEnabled;
    assert KillInv(s.kills[k], s.tracker, s.job, s.contract);
    a := KillStep(KillRejected(k));
  }

  /** When nothing driven can happen any more, the tracker has ended, the log is sealed, no request for
      the log is outstanding, every request to kill the job is settled, and every listening client
      that was not evicted has received its whole response. */
  lemma QuiescentIsComplete(s: Sys)
    requires Inv(s) && Quiescent(s)
    ensures s.tracker.pc.Stopped? && Sealed(Log(s))
    ensures forall r :: 0 <= r < |s.reqs| ==> !s.reqs[r].phase.Unsent? && !s.reqs[r].phase.Queued?
    ensures forall k :: 0 <= k < |s.kills| ==> Settled(s.kills[k].phase)
    ensures forall i :: 0 <= i < |s.sessions| && s.sessions[i].stream.open && !s.sessions[i].link.Evicted? ==>
              ResponseComplete(s.sessions[i])
  {
    LogShape(s);
    hide Inv, Enabled, Driven, ResponseComplete, Sealed, Log;
    if !s.tracker.pc.Stopped? {
      var a := TrackerMoves(s);
    }
    forall r | 0 <= r < |s.reqs| ensures !s.reqs[r].phase.Unsent? && !s.reqs[r].phase.Queued? {
      if s.reqs[r].phase.Unsent? || s.reqs[r].phase.Queued? {
        var a := RequesterIsServed(s, r);
      }
    }
    NonePendingAtEnd(s);
    forall k | 0 <= k < |s.kills| ensures Settled(s.kills[k].phase) {
      if s.kills[k].phase.KillUnsent? {
        var a := KillerIsRefused(s, k);
      }
    }
    forall i | 0 <= i < |s.sessions| && s.sessions[i].stream.open && !s.sessions[i].link.Evicted?
      ensures ResponseComplete(s.sessions[i])
    {
      if !ResponseComplete(s.sessions[i]) {
        var a := ListenerIsServed(s, i);
      }
    }
  }

  /** From every reachable state a run of driven steps, in which nobody arrives or leaves, leads to where
      nothing driven can happen any more. */
  lemma {:induction false} EverythingSettles(s: Sys) returns (acts: seq<Action>)
    requires Reachable(s)
    ensures CanRun(s, acts) && Quiescent(After(s, acts))
    ensures AllDriven(acts)
    decreases Work(s)
  {
    hide *;
    ReachableInv(s);
    if Quiescent(s) {
      acts := [];
      EmptyRun(s);
      NoneDriven();
    } else {
      var a := SomethingDriven(s);
      DrivenIsNoArrival(a);
      StepWorks(s, a);
      ReachesNext(s, a);
      var rest := EverythingSettles(Apply(s, a));
      acts := [a] + rest;
      RunFolds(s, a, rest);
      AllDrivenFirst(a, rest);
    }
  }

  predicate AllDriven(acts: seq<Action>) {
    forall n :: 0 <= n < |acts| ==> Driven(acts[n])
  }

  lemma NoneDriven()
    ensures AllDriven([])
  {
  }

  lemma AllDrivenFirst(a: Action, rest: seq<Action>)
    requires Driven(a) && AllDriven(rest)
    ensures AllDriven([a] + rest)
  {
    hide Driven;
  }

  lemma SomethingDriven(s: Sys) returns (a: Action)
    requires !Quiescent(s)
    ensures Driven(a) && Enabled(s, a)
  {
    hide Driven, Enabled;
    a :| Driven(a) && Enabled(s, a);
  }

  lemma DrivenIsNoArrival(a: Action)
    ensures Driven(a) ==> !Arrival(a)
  {
  }

  /** Nothing driven that serves this client can happen any more, whatever others might do. */
  ghost predicate NothingFor(s: Sys, i: nat) {
    forall a :: Driven(a) && ServesClient(a, i) ==> !Enabled(s, a)
  }

  lemma QuiescentForEach(s: Sys, i: nat)
    requires Quiescent(s)
    ensures NothingFor(s, i)
  {
    hide Driven, ServesClient, Enabled;
  }

  /** A client for which nothing more can happen has its whole response. */
  lemma ServedWhenIdle(s: Sys, i: nat)
    requires Inv(s) && i < |s.sessions| && NothingFor(s, i)
    requires s.sessions[i].stream.open && !s.sessions[i].link.Evicted?
    ensures ResponseComplete(s.sessions[i])
  {
    hide Inv, Enabled, Driven, ServesClient, ResponseComplete;
    if !ResponseComplete(s.sessions[i]) {
      var a := ListenerIsServed(s, i);
    }
  }

  /** A complete response is the response to the entire log. */
  lemma CompleteIsWholeLog(s: Sys, i: nat)
    requires Inv(s) && i < |s.sessions| && ResponseComplete(s.sessions[i])
    ensures s.sessions[i].received == Log(s) && Sealed(Log(s)) && s.sessions[i].got == Items(Log(s))
  {
    GotOf(s, i);
    LogShape(s);
    ReceivedPrefix(s, i);
    hide Inv, Sealed, Unsealed, Items, Log, ResponseComplete;
    SealedPrefixIsWhole(s.sessions[i].received, Log(s));
  }

  /** Put together, for each client alone: take any run, in which others may come and go as they like, as far
      as it goes for this client. If it still listens and was not evicted, it has received the response
      to the entire log; and only so many steps of the run were the job's or its own session's. */
  lemma EveryListenerIsServed(s: Sys, acts: seq<Action>, i: nat)
    requires Reachable(s) && CanRun(s, acts)
    requires var e := After(s, acts);
             i < |e.sessions| && e.sessions[i].stream.open && !e.sessions[i].link.Evicted?
    requires NothingFor(After(s, acts), i)
    ensures var e := After(s, acts);
            && e.sessions[i].received == Log(e) && Sealed(Log(e))
            && e.sessions[i].got == Items(Log(e))
    ensures i < |s.sessions| ==> |StepsServing(acts, i)| <= Left(s, i) + 78 * KillsAsked(acts)
    ensures (forall n :: 0 <= n < |acts| ==> !Arrival(acts[n])) ==> |acts| <= Work(s)
  {
    hide Reachable, CanRun, After, NothingFor, Left, StepsServing, KillsAsked, Work, Sealed, Items, Log, Arrival;
    ReachableInv(s);
    hide Inv;
    RunKeepsInv(s, acts);
    ServedWhenIdle(After(s, acts), i);
    CompleteIsWholeLog(After(s, acts), i);
    if i < |s.sessions| {
      ClientStepsAreBounded(s, acts, i);
    }
    if forall n :: 0 <= n < |acts| ==> !Arrival(acts[n]) {
      RunsAreBounded(s, acts);
    }
  }

  /** What happens to a waiting client when the step that `ListenerIsServed` finds is taken. */
  lemma WaitingMove(s: Sys, a: Action, x: Session, x': Session, i: nat)
    requires SessionInv(s.bcast.frames, s.bcast.frameRxOk, x) && SessionMoves(s, a, x, x', i)
    requires x.stream.open && !x.link.Evicted? && Driven(a)
    requires a.SessionStep? || (x.relay.pc.Looping? && x.input.buf == [])
    ensures x'.stream.open && !x'.link.Evicted?
  {
    hide RelayInv, ForwardInv;
  }

  lemma WaitingStep(s: Sys, a: Action, i: nat)
    requires Reachable(s) && Enabled(s, a) && i < |s.sessions| && Driven(a)
    requires s.sessions[i].stream.open && !s.sessions[i].link.Evicted?
    requires a.SessionStep? || (s.sessions[i].relay.pc.Looping? && s.sessions[i].input.buf == [])
    ensures i < |Apply(s, a).sessions|
    ensures Apply(s, a).sessions[i].stream.open && !Apply(s, a).sessions[i].link.Evicted?
  {
    ReachableInv(s);
    hide *;
    SessionOf(s, i);
    StepMovesSession(s, a, i);
    WaitingMove(s, a, s.sessions[i], Apply(s, a).sessions[i], i);
  }

  predicate AllServing(acts: seq<Action>, i: nat) {
    forall n :: 0 <= n < |acts| ==> Driven(acts[n]) && ServesClient(acts[n], i)
  }

  lemma AllServingFirst(a: Action, rest: seq<Action>, i: nat)
    requires Driven(a) && ServesClient(a, i) && AllServing(rest, i)
    ensures AllServing([a] + rest, i)
  {
    hide Driven, ServesClient;
  }

  lemma NoneServing(i: nat)
    ensures AllServing([], i)
  {
  }

  lemma DrivenIsNoKill(a: Action)
    ensures Driven(a) ==> !AsksKill(a)
  {
  }

  /** A client is never lost before it is evicted: from every reachable state, the job and the session of any
      listening client that was not evicted can, by themselves, bring it its whole response. */
  lemma {:induction false} ListenerCanBeServed(s: Sys, i: nat) returns (acts: seq<Action>)
    requires Reachable(s) && i < |s.sessions|
    requires s.sessions[i].stream.open && !s.sessions[i].link.Evicted?
    ensures CanRun(s, acts) && AllServing(acts, i)
    ensures i < |After(s, acts).sessions| && ResponseComplete(After(s, acts).sessions[i])
    decreases Left(s, i)
  {
    hide *;
    ReachableInv(s);
    if ResponseComplete(s.sessions[i]) {
      acts := [];
      EmptyRun(s);
      NoneServing(i);
    } else {
      var a := ListenerIsServed(s, i);
      DrivenIsNoKill(a);
      StepLeft(s, a, i);
      WaitingStep(s, a, i);
      ReachesNext(s, a);
      var rest := ListenerCanBeServed(Apply(s, a), i);
      acts := [a] + rest;
      RunFolds(s, a, rest);
      AllServingFirst(a, rest, i);
    }
  }
}
