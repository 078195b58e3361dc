/** The whole pipeline of one job as a transition system. A step is the code one task runs from one
    suspension to the next; a `select!` may take any arm that is ready. */
module System {
  import opened Channels
  import opened Events
  import opened Readers
  import opened Tracker
  import opened Sessions

  /** The broadcaster's local variables. Its list of relays is the set of sessions it tracks. */
  datatype Broadcaster = Broadcaster(
    frames: seq<FrameEvent>,
    frameRxOk: bool,
    reqRxOk: bool,
    running: bool)
  {
    /** The head of the loop: leave it once neither receiver can yield anything. */
    function LoopHead(): Broadcaster {
      this.(running := frameRxOk || reqRxOk)
    }
  }

  /** A request for the log. `caller` says that the requesting future is still alive. */
  datatype RequestPhase = Unsent | Queued | Served(session: nat) | Refused | Withdrawn
  datatype LogRequest = LogRequest(phase: RequestPhase, caller: bool)

  /** A request to kill the job: not yet sent, queued or retained by the tracker, answered, dropped
      unanswered, refused because the tracker was gone, or withdrawn by its caller before it was
      sent. `taken` says that the tracker had received the request before it dropped it. */
  datatype KillPhase =
    | KillUnsent
    | KillPending
    | KillAnswered(reply: KillReply)
    | KillAbandoned(taken: bool)
    | KillRefused
    | KillWithdrawn
  datatype Kill = Kill(user: User, phase: KillPhase, caller: bool)

  datatype Sys = Sys(
    contract: bool,              // the child honours its contract (see Tracker)
    stdout: Reader,
    stderr: Reader,
    tracker: Tracker,
    job: Job,
    killCh: Chan<nat>,
    kills: seq<Kill>,
    frameCh: Chan<FrameEvent>,   // from the tracker to the broadcaster
    bcast: Broadcaster,
    reqCh: Chan<nat>,
    reqs: seq<LogRequest>,
    sessions: seq<Session>)

  const FRAME_CAP := 2
  const KILL_CAP := 1
  const REQ_CAP := 1

  datatype TrackerAction =
    | RecvFrame(k: StreamKind)
    | StreamEnds(k: StreamKind)
    | FrameSent | FrameRejected
    | RecvKill | KillsEnd
    | KillReturns(err: Option<IoError>)
    | MarkKill(at: nat)
    | WaitReturns(result: WaitResult)
    | RecordEnd(at: nat)
    | FinalSent | FinalRejected
    | Stop

  datatype BroadcasterAction = BcastFrame | FramesEnd | BcastRequest | RequestsEnd

  datatype RequestAction = NewRequest | SendRequest(r: nat) | RequestRejected(r: nat) | LeaveRequest(r: nat)

  datatype KillAction = NewKill(user: User) | SendKill(k: nat) | KillRejected(k: nat) | LeaveKill(k: nat)

  datatype Action =
    | ReaderStep(k: StreamKind, r: ReaderAction)
    | TrackerStep(t: TrackerAction)
    | BroadcasterStep(b: BroadcasterAction)
    | SessionStep(i: nat, s: SessionAction)
    | RequestStep(q: RequestAction)
    | KillStep(x: KillAction)

  function ReaderOf(s: Sys, k: StreamKind): Reader {
    if k.Stdout? then s.stdout else s.stderr
  }

  function WithReader(s: Sys, k: StreamKind, r: Reader): Sys {
    if k.Stdout? then s.(stdout := r) else s.(stderr := r)
  }

  // ---------------------------------------------------------------- tracker

  predicate TrackerEnabled(s: Sys, a: TrackerAction) {
    var t := s.tracker;
    match a
    case RecvFrame(k) => t.pc.Select? && t.Listening(k) && ReaderOf(s, k).ch.CanRecv()
    case StreamEnds(k) => t.pc.Select? && t.Listening(k) && ReaderOf(s, k).ch.AtEnd()
    case FrameSent => t.pc.SendFrame? && s.frameCh.CanSend()
    case FrameRejected => t.pc.SendFrame? && !s.frameCh.open
    case RecvKill => t.pc.Select? && t.killOk && s.killCh.CanRecv()
    case KillsEnd => t.pc.Select? && t.killOk && s.killCh.AtEnd()
    case KillReturns(err) => t.pc.Killing? && (s.contract && err.None? ==> t.childOk)
    case MarkKill(at) => t.pc.MarkKilled?
    case WaitReturns(result) => t.pc.Select? && t.childOk
    case RecordEnd(at) => t.pc.RecordExit?
    case FinalSent => t.pc.SendFinal? && s.frameCh.CanSend()
    case FinalRejected => t.pc.SendFinal? && !s.frameCh.open
    case Stop => t.pc.StoreResult?
  }

  /** The user a kill request was made by. */
  function Requester(s: Sys, k: nat): User {
    if k < |s.kills| then s.kills[k].user else s.job.user
  }

  function SetKill(kills: seq<Kill>, k: nat, phase: KillPhase): seq<Kill> {
    if k < |kills| then kills[k := kills[k].(phase := phase)] else kills
  }

  /** Answer every listed request with the same job snapshot. */
  function AnswerAll(kills: seq<Kill>, ids: seq<nat>, job: Job): seq<Kill> {
    seq(|kills|, i requires 0 <= i < |kills| =>
      if i in ids then kills[i].(phase := KillAnswered(Killed(job))) else kills[i])
  }

  /** The tracker ends: the requests it retains and those still in its channel are dropped. */
  function AbandonAll(kills: seq<Kill>, taken: seq<nat>, queued: seq<nat>): seq<Kill> {
    seq(|kills|, i requires 0 <= i < |kills| =>
      if i in taken then kills[i].(phase := KillAbandoned(true))
      else if i in queued then kills[i].(phase := KillAbandoned(false))
      else kills[i])
  }

  function TrackerApply(s: Sys, a: TrackerAction): Sys
    requires TrackerEnabled(s, a)
  {
    var t := s.tracker;
    match a
    case RecvFrame(k) =>
      var r := ReaderOf(s, k);
      WithReader(s, k, r.(ch := r.ch.Recv())).(tracker := t.TakeMessage(r.ch.buf[0]))
    case StreamEnds(k) => s.(tracker := t.StreamClosed(k))
    case FrameSent => s.(tracker := t.FrameSent(), frameCh := s.frameCh.Send(t.pc.ev))
    case FrameRejected => s.(tracker := t.FrameRejected())
    case RecvKill => s.(tracker := t.TakeKill(s.killCh.buf[0]), killCh := s.killCh.Recv())
    case KillsEnd => s.(tracker := t.KillsClosed())
    case KillReturns(err) =>
      if err.Some? then
        s.(tracker := t.KillErred(), kills := SetKill(s.kills, t.pc.req, KillAnswered(KillFailed(err.value))))
      else
        s.(tracker := t.KillWorked())
    case MarkKill(at) =>
      s.(tracker := t.KillMarked(), job := s.job.KilledBy(at, Requester(s, t.pc.req)))
    case WaitReturns(result) => s.(tracker := t.ChildWaited(result))
    case RecordEnd(at) =>
      var job := s.job.Ended(at, t.pc.status);
      s.(tracker := t.ExitRecorded(), job := job, kills := AnswerAll(s.kills, t.killReqs, job))
    case FinalSent => s.(tracker := t.FinalSent(), frameCh := s.frameCh.Send(t.pc.ev))
    case FinalRejected => s.(tracker := t.FinalSent())
    case Stop =>
      s.(tracker := t.Stop(),
         stdout := s.stdout.(ch := s.stdout.ch.DropReceiver()),
         stderr := s.stderr.(ch := s.stderr.ch.DropReceiver()),
         frameCh := s.frameCh.DropSender(),
         killCh := s.killCh.DropReceiver(),
         kills := AbandonAll(s.kills, t.killReqs, s.killCh.buf))
  }

  // ------------------------------------------------------------ broadcaster

  predicate BroadcasterEnabled(s: Sys, a: BroadcasterAction) {
    && s.bcast.running
    && match a
       case BcastFrame => s.bcast.frameRxOk && s.frameCh.CanRecv()
       case FramesEnd => s.bcast.frameRxOk && s.frameCh.AtEnd()
       case BcastRequest => s.bcast.reqRxOk && s.reqCh.CanRecv()
       case RequestsEnd => s.bcast.reqRxOk && s.reqCh.AtEnd()
  }

  /** Offer an event to every tracked relay, without waiting for any. */
  function FanOut(xs: seq<Session>, ev: FrameEvent): seq<Session> {
    seq(|xs|, i requires 0 <= i < |xs| => OfferTo(xs[i], ev))
  }

  function ReleaseAll(xs: seq<Session>): seq<Session> {
    seq(|xs|, i requires 0 <= i < |xs| => ReleaseFrom(xs[i]))
  }

  /** The broadcaster has evaluated its loop condition; if it leaves the loop it drops its receivers,
      its relays and its own request sender. */
  function AfterLoopHead(s: Sys): Sys {
    var b := s.bcast.LoopHead();
    if b.running then s.(bcast := b)
    else s.(bcast := b,
            frameCh := s.frameCh.DropReceiver(),
            reqCh := s.reqCh.DropReceiver().DropSender(),
            sessions := ReleaseAll(s.sessions))
  }

  function BroadcasterApply(s: Sys, a: BroadcasterAction): Sys
    requires BroadcasterEnabled(s, a)
  {
    match a
    case BcastFrame =>
      var ev := s.frameCh.buf[0];
      AfterLoopHead(s.(frameCh := s.frameCh.Recv(),
                       sessions := FanOut(s.sessions, ev),
                       bcast := s.bcast.(frames := s.bcast.frames + [ev])))
    case FramesEnd =>
      AfterLoopHead(s.(sessions := ReleaseAll(s.sessions), bcast := s.bcast.(frameRxOk := false)))
    case BcastRequest =>
      var r := s.reqCh.buf[0];
      var s' := s.(reqCh := s.reqCh.Recv());
      if r < |s.reqs| && s.reqs[r].caller then
        AfterLoopHead(s'.(reqs := s.reqs[r := LogRequest(Served(|s.sessions|), true)],
                          sessions := s.sessions + [StartSession(s.bcast.frames, s.bcast.frameRxOk)]))
      else if r < |s.reqs| then
        AfterLoopHead(s'.(reqs := s.reqs[r := LogRequest(Refused, false)]))
      else
        AfterLoopHead(s')
    case RequestsEnd => AfterLoopHead(s.(bcast := s.bcast.(reqRxOk := false)))
  }

  // --------------------------------------------------------------- requests

  predicate RequestEnabled(s: Sys, a: RequestAction) {
    match a
    case NewRequest => true
    case SendRequest(r) => r < |s.reqs| && s.reqs[r].caller && s.reqs[r].phase.Unsent? && s.reqCh.CanSend()
    case RequestRejected(r) => r < |s.reqs| && s.reqs[r].caller && s.reqs[r].phase.Unsent? && !s.reqCh.open
    case LeaveRequest(r) => r < |s.reqs| && s.reqs[r].caller
  }

  /** A requester holds a sender of the request channel from its arrival until it leaves: because it
      has its receiver, gave up after a second, or was cancelled. */
  function RequestApply(s: Sys, a: RequestAction): Sys
    requires RequestEnabled(s, a)
  {
    match a
    case NewRequest => s.(reqs := s.reqs + [LogRequest(Unsent, true)], reqCh := s.reqCh.AddSender())
    case SendRequest(r) => s.(reqs := s.reqs[r := LogRequest(Queued, true)], reqCh := s.reqCh.Send(r))
    case RequestRejected(r) =>
      s.(reqs := s.reqs[r := LogRequest(Refused, false)], reqCh := s.reqCh.DropSender())
    case LeaveRequest(r) =>
      var phase := if s.reqs[r].phase.Unsent? then Withdrawn else s.reqs[r].phase;
      s.(reqs := s.reqs[r := LogRequest(phase, false)], reqCh := s.reqCh.DropSender())
  }

  // ------------------------------------------------------------------ kills

  predicate KillEnabled(s: Sys, a: KillAction) {
    match a
    // the coordinator lets only the owner of the job come this far
    case NewKill(user) => user == s.job.user
    case SendKill(k) => k < |s.kills| && s.kills[k].caller && s.kills[k].phase.KillUnsent? && s.killCh.CanSend()
    case KillRejected(k) => k < |s.kills| && s.kills[k].caller && s.kills[k].phase.KillUnsent? && !s.killCh.open
    case LeaveKill(k) => k < |s.kills| && s.kills[k].caller
  }

  function KillApply(s: Sys, a: KillAction): Sys
    requires KillEnabled(s, a)
  {
    match a
    case NewKill(user) => s.(kills := s.kills + [Kill(user, KillUnsent, true)], killCh := s.killCh.AddSender())
    case SendKill(k) => s.(kills := SetKill(s.kills, k, KillPending), killCh := s.killCh.Send(k))
    case KillRejected(k) =>
      s.(kills := s.kills[k := s.kills[k].(phase := KillRefused, caller := false)], killCh := s.killCh.DropSender())
    case LeaveKill(k) =>
      var phase := if s.kills[k].phase.KillUnsent? then KillWithdrawn else s.kills[k].phase;
      s.(kills := s.kills[k := s.kills[k].(phase := phase, caller := false)], killCh := s.killCh.DropSender())
  }

  // ----------------------------------------------------------------- system

  predicate Enabled(s: Sys, a: Action) {
    match a
    case ReaderStep(k, r) => ReaderEnabled(ReaderOf(s, k), r)
    case TrackerStep(t) => TrackerEnabled(s, t)
    case BroadcasterStep(b) => BroadcasterEnabled(s, b)
    case SessionStep(i, x) => i < |s.sessions| && SessionEnabled(s.sessions[i], x)
    case RequestStep(q) => RequestEnabled(s, q)
    case KillStep(x) => KillEnabled(s, x)
  }

  function Apply(s: Sys, a: Action): Sys
    requires Enabled(s, a)
  {
    match a
    case ReaderStep(k, r) => WithReader(s, k, ReaderApply(ReaderOf(s, k), r))
    case TrackerStep(t) => TrackerApply(s, t)
    case BroadcasterStep(b) => BroadcasterApply(s, b)
    case SessionStep(i, x) => s.(sessions := s.sessions[i := SessionApply(s.sessions[i], x)])
    case RequestStep(q) => RequestApply(s, q)
    case KillStep(x) => KillApply(s, x)
  }

  /** A newly spawned job: its two streams will yield `out` and `err` and end as given. The request
      channel starts with two senders, one kept with the job and one owned by the broadcaster's own
      task; the kill channel with the one kept with the job. */
  function Initial(job: Job, out: seq<byte>, outFails: Option<IoError>, err: seq<byte>, errFails: Option<IoError>,
                   contract: bool): Sys
  {
    Sys(contract,
        Start(Stdout, out, outFails),
        Start(Stderr, err, errFails),
        NEW_TRACKER,
        job,
        New(KILL_CAP, 1), [],
        New(FRAME_CAP, 1),
        Broadcaster([], true, true, true),
        New(REQ_CAP, 2), [],
        [])
  }

  predicate FreshJob(job: Job) {
    job.state.Running? && job.killed.None? && job.endedAt.None?
  }

  ghost predicate Init(s: Sys) {
    && FreshJob(s.job)
    && s == Initial(s.job, s.stdout.source, s.stdout.failure, s.stderr.source, s.stderr.failure, s.contract)
  }

  // ------------------------------------------------------------------- runs

  /** The actions can be taken one after the other. */
  predicate CanRun(s: Sys, acts: seq<Action>)
    decreases |acts|
  {
    |acts| == 0 || (Enabled(s, acts[0]) && CanRun(Apply(s, acts[0]), acts[1..]))
  }

  function After(s: Sys, acts: seq<Action>): Sys
    requires CanRun(s, acts)
    decreases |acts|
  {
    if |acts| == 0 then s else After(Apply(s, acts[0]), acts[1..])
  }

  ghost predicate Reachable(s: Sys) {
    exists s0: Sys, acts: seq<Action> {:trigger After(s0, acts)} ::
      Init(s0) && CanRun(s0, acts) && After(s0, acts) == s
  }

  /** A run is its first step and the rest of it. */
  lemma RunUnfolds(s: Sys, acts: seq<Action>)
    requires |acts| > 0 && CanRun(s, acts)
    ensures Enabled(s, acts[0]) && CanRun(Apply(s, acts[0]), acts[1..])
    ensures After(s, acts) == After(Apply(s, acts[0]), acts[1..])
  {
    hide Enabled, Apply;
  }

  lemma EmptyRun(s: Sys)
    ensures CanRun(s, []) && After(s, []) == s
  {
  }

  lemma RunFolds(s: Sys, a: Action, rest: seq<Action>)
    requires Enabled(s, a) && CanRun(Apply(s, a), rest)
    ensures CanRun(s, [a] + rest) && After(s, [a] + rest) == After(Apply(s, a), rest)
  {
    hide Enabled, Apply;
    assert ([a] + rest)[1..] == rest;
  }

  lemma {:induction false} RunOneMore(s: Sys, acts: seq<Action>, a: Action)
    requires CanRun(s, acts) && Enabled(After(s, acts), a)
    ensures CanRun(s, acts + [a]) && After(s, acts + [a]) == Apply(After(s, acts), a)
    decreases |acts|
  {
    hide Enabled, Apply;
    if |acts| == 0 {
      assert acts + [a] == [a] && CanRun(Apply(s, a), []);
    } else {
      RunOneMore(Apply(s, acts[0]), acts[1..], a);
      assert (acts + [a])[1..] == acts[1..] + [a];
    }
  }

  lemma ReachesItself(s: Sys)
    requires Init(s)
    ensures Reachable(s)
  {
    hide Init;
    EmptyRun(s);
  }

  lemma ReachesNext(s: Sys, a: Action)
    requires Reachable(s) && Enabled(s, a)
    ensures Reachable(Apply(s, a))
  {
    var s0: Sys, acts: seq<Action> :| Init(s0) && CanRun(s0, acts) && After(s0, acts) == s;
    hide Init, Enabled, Apply, CanRun, After;
    RunOneMore(s0, acts, a);
    assert After(s0, acts + [a]) == Apply(s, a);
  }

  lemma {:induction false} ReachesAfter(s: Sys, acts: seq<Action>)
    requires Reachable(s) && CanRun(s, acts)
    ensures Reachable(After(s, acts))
    decreases |acts|
  {
    hide *;
    if |acts| > 0 {
      RunUnfolds(s, acts);
      ReachesNext(s, acts[0]);
      ReachesAfter(Apply(s, acts[0]), acts[1..]);
    } else {
      EmptyRun(s);
      assert acts == [];
    }
  }

  /** Take one more step. */
  lemma Next(s: Sys, a: Action) returns (s': Sys)
    requires Reachable(s) && Enabled(s, a)
    ensures s' == Apply(s, a) && Reachable(s')
  {
    hide Enabled, Apply;
    s' := Apply(s, a);
    ReachesNext(s, a);
  }
}
