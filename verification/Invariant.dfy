/** One invariant over every stage of the pipeline, and the proof that every step keeps it. */
module Invariant {
  import opened Channels
  import opened Events
  import opened Readers
  import opened Tracker
  import opened Sessions
  import opened Sums
  import opened System

  /** The event the tracker is about to hand to the broadcaster. */
  function Hand(pc: TrackerPc): seq<FrameEvent> {
    if pc.SendFrame? || pc.SendFinal? then [pc.ev] else []
  }

  /** The job's log: the broadcaster's history followed by what is on its way there. */
  function Log(s: Sys): seq<FrameEvent> {
    s.bcast.frames + s.frameCh.buf + Hand(s.tracker.pc)
  }

  function FinalEvent(t: Tracker): FrameEvent {
    if t.loopErr.Some? then Error(t.loopErr.value) else EOF
  }

  /** The log is sealed from the moment the tracker leaves its loop. */
  ghost predicate LogInv(log: seq<FrameEvent>, t: Tracker) {
    && (!t.Finishing() ==> Unsealed(log))
    && (t.Finishing() ==> Sealed(log) && log[|log| - 1] == FinalEvent(t))
  }

  /** The broadcaster never leaves its loop, and stops listening to the tracker only after the
      tracker has ended and everything it sent has arrived. */
  ghost predicate PipeInv(frameCh: Chan<FrameEvent>, t: Tracker, b: Broadcaster) {
    && frameCh.cap == FRAME_CAP && |frameCh.buf| <= FRAME_CAP && frameCh.open
    && frameCh.senders == Count(!t.pc.Stopped?)
    && b.running && b.reqRxOk
    && (!b.frameRxOk ==> t.pc.Stopped? && |frameCh.buf| == 0)
  }

  ghost predicate StreamInv(r: Reader, k: StreamKind, log: seq<FrameEvent>, t: Tracker) {
    && ReaderInv(r) && r.kind == k
    && r.ch.open == !t.pc.Stopped?
    && FlowInv(r, FramesOf(log, k), t.Listening(k), t.loopErr.None?)
    && ReadErrorInv(r, k, t)
  }

  /** A read error of the tracker is the stream's own. */
  ghost predicate ReadErrorInv(r: Reader, k: StreamKind, t: Tracker) {
    FailedReading(t, k) ==> r.failure.Some? && t.loopErr.value.io == r.failure.value
  }

  predicate FailedReading(t: Tracker, k: StreamKind) {
    t.loopErr.Some? && t.loopErr.value.ReadOutput? && t.loopErr.value.kind == k
  }

  function RequestCaller(q: LogRequest): nat {
    Count(q.caller)
  }

  ghost predicate RequestInv(reqCh: Chan<nat>, reqs: seq<LogRequest>) {
    && reqCh.cap == REQ_CAP && |reqCh.buf| <= REQ_CAP && reqCh.open
    && reqCh.senders == 2 + Sum(reqs, RequestCaller)
    && (forall r :: 0 <= r < |reqs| ==>
          && (reqs[r].phase.Unsent? ==> reqs[r].caller)
          && (reqs[r].phase.Refused? || reqs[r].phase.Withdrawn? ==> !reqs[r].caller)
          && (reqs[r].phase.Queued? <==> r in reqCh.buf))
    && (forall i :: 0 <= i < |reqCh.buf| ==> reqCh.buf[i] < |reqs|)
  }

  function KillHand(pc: TrackerPc): seq<nat> {
    if pc.Killing? || pc.MarkKilled? then [pc.req] else []
  }

  /** Every kill request awaiting its answer, oldest first: retained, in hand, queued. */
  function Line(t: Tracker, killCh: Chan<nat>): seq<nat> {
    t.killReqs + KillHand(t.pc) + killCh.buf
  }

  function KillCaller(k: Kill): nat {
    Count(k.caller)
  }

  ghost predicate Distinct(line: seq<nat>) {
    forall i, j :: 0 <= i < j < |line| ==> line[i] != line[j]
  }

  /** The requests in the line are exactly the pending ones, each once. */
  ghost predicate LineInv(line: seq<nat>, kills: seq<Kill>) {
    && Distinct(line)
    && (forall i :: 0 <= i < |line| ==> line[i] < |kills|)
    && (forall k :: 0 <= k < |kills| ==> (kills[k].phase.KillPending? <==> k in line))
  }

  /** A successful reply carries the exited job, killed by its owner. */
  ghost predicate TruthfulReply(reply: KillReply, job: Job) {
    reply.Killed? ==>
      && reply.job == job
      && job.state.Exited? && job.endedAt.Some?
      && job.killed.Some? && job.killed.value.user == job.user
  }

  ghost predicate SameJob(j: Job, job: Job) {
    j.id == job.id && j.user == job.user && j.startedAt == job.startedAt
  }

  ghost predicate KillInv(k: Kill, t: Tracker, job: Job, contract: bool) {
    && k.user == job.user
    && (k.phase.KillUnsent? ==> k.caller)
    && (k.phase.KillAnswered? && k.phase.reply.Killed? ==>
          var j := k.phase.reply.job;
          && SameJob(j, job) && TruthfulReply(k.phase.reply, j)
          && !t.childOk && !t.pc.RecordExit?
          && (contract ==> j == job))
    && (k.phase.KillAbandoned? ==> t.pc.Stopped? && (k.phase.taken && contract ==> t.loopErr.Some?))
  }

  ghost predicate KillsInv(t: Tracker, killCh: Chan<nat>, kills: seq<Kill>, job: Job, contract: bool) {
    && killCh.cap == KILL_CAP && |killCh.buf| <= KILL_CAP
    && killCh.open == !t.pc.Stopped?
    && (!killCh.open ==> |killCh.buf| == 0)
    && killCh.senders == 1 + Sum(kills, KillCaller)
    && (t.pc.Stopped? ==> |t.killReqs| == 0)
    && LineInv(Line(t, killCh), kills)
    && (forall k :: 0 <= k < |kills| ==> KillInv(kills[k], t, job, contract))
  }

  ghost predicate SessionsInv(b: Broadcaster, xs: seq<Session>) {
    forall i :: 0 <= i < |xs| ==> SessionInv(b.frames, b.frameRxOk, xs[i])
  }

  ghost predicate Inv(s: Sys) {
    && TrackerInv(s.tracker, s.job, s.contract)
    && LogInv(Log(s), s.tracker)
    && PipeInv(s.frameCh, s.tracker, s.bcast)
    && StreamInv(s.stdout, Stdout, Log(s), s.tracker)
    && StreamInv(s.stderr, Stderr, Log(s), s.tracker)
    && RequestInv(s.reqCh, s.reqs)
    && KillsInv(s.tracker, s.killCh, s.kills, s.job, s.contract)
    && SessionsInv(s.bcast, s.sessions)
  }

  lemma InitInv(s: Sys)
    requires Init(s)
    ensures Inv(s)
  {
    StartInv(Stdout, s.stdout.source, s.stdout.failure);
    StartInv(Stderr, s.stderr.source, s.stderr.failure);
    assert Log(s) == [];
  }

  // ---------------------------------------------------------------- readers

  lemma ReaderStepFrame(r: Reader, a: ReaderAction)
    requires ReaderEnabled(r, a)
    ensures var r' := ReaderApply(r, a); r'.kind == r.kind && r'.failure == r.failure && r'.ch.open == r.ch.open
  {
  }

  lemma ReaderStepStream(r: Reader, k: StreamKind, log: seq<FrameEvent>, t: Tracker, a: ReaderAction)
    requires StreamInv(r, k, log, t) && ReaderEnabled(r, a)
    ensures StreamInv(ReaderApply(r, a), k, log, t)
  {
    hide ReaderInv, FlowInv, ReaderEnabled, ReaderApply, FramesOf;
    ReaderKeepsInv(r, a);
    ReaderKeepsFlow(r, a, FramesOf(log, k), t.Listening(k), t.loopErr.None?);
    ReaderStepFrame(r, a);
  }

  lemma ReaderStepKeeps(s: Sys, k: StreamKind, a: ReaderAction)
    requires Inv(s) && Enabled(s, ReaderStep(k, a))
    ensures Inv(Apply(s, ReaderStep(k, a)))
  {
    hide TrackerInv, LogInv, PipeInv, StreamInv, RequestInv, KillsInv, SessionsInv, ReaderApply;
    ReaderStepStream(ReaderOf(s, k), k, Log(s), s.tracker, a);
  }

  // --------------------------------------------------------------- requests

  lemma NewRequestKeeps(reqCh: Chan<nat>, reqs: seq<LogRequest>)
    requires RequestInv(reqCh, reqs)
    ensures RequestInv(reqCh.AddSender(), reqs + [LogRequest(Unsent, true)])
  {
    SumAppend(reqs, LogRequest(Unsent, true), RequestCaller);
  }

  lemma SendRequestKeeps(reqCh: Chan<nat>, reqs: seq<LogRequest>, r: nat)
    requires RequestInv(reqCh, reqs) && r < |reqs| && reqs[r].phase.Unsent? && reqCh.CanSend()
    ensures RequestInv(reqCh.Send(r), reqs[r := LogRequest(Queued, true)])
  {
    SumUpdate(reqs, r, LogRequest(Queued, true), RequestCaller);
    assert reqCh.buf == [] && reqCh.Send(r).buf == [r];
  }

  lemma LeaveRequestKeeps(reqCh: Chan<nat>, reqs: seq<LogRequest>, r: nat, phase: RequestPhase)
    requires RequestInv(reqCh, reqs) && r < |reqs| && reqs[r].caller
    requires !phase.Unsent? && (phase.Queued? <==> reqs[r].phase.Queued?)
    ensures RequestInv(reqCh.DropSender(), reqs[r := LogRequest(phase, false)])
  {
    SumUpdate(reqs, r, LogRequest(phase, false), RequestCaller);
  }

  lemma ServeRequestKeeps(reqCh: Chan<nat>, reqs: seq<LogRequest>, phase: RequestPhase)
    requires RequestInv(reqCh, reqs) && reqCh.CanRecv()
    requires phase.Served? || phase.Refused?
    ensures reqCh.buf[0] < |reqs| && reqs[reqCh.buf[0]].phase.Queued?
    ensures phase.Served? || !reqs[reqCh.buf[0]].caller ==>
              RequestInv(reqCh.Recv(), reqs[reqCh.buf[0] := LogRequest(phase, reqs[reqCh.buf[0]].caller)])
  {
    var r := reqCh.buf[0];
    assert r in reqCh.buf;
    SumUpdate(reqs, r, LogRequest(phase, reqs[r].caller), RequestCaller);
    assert reqCh.buf == [r];
  }

  lemma RequestStepKeeps(s: Sys, a: RequestAction)
    requires Inv(s) && Enabled(s, RequestStep(a))
    ensures Inv(Apply(s, RequestStep(a)))
  {
    hide TrackerInv, LogInv, PipeInv, StreamInv, RequestInv, KillsInv, SessionsInv;
    match a
    case NewRequest => NewRequestKeeps(s.reqCh, s.reqs);
    case SendRequest(r) => SendRequestKeeps(s.reqCh, s.reqs, r);
    case RequestRejected(r) => LeaveRequestKeeps(s.reqCh, s.reqs, r, Refused);
    case LeaveRequest(r) =>
      LeaveRequestKeeps(s.reqCh, s.reqs, r, if s.reqs[r].phase.Unsent? then Withdrawn else s.reqs[r].phase);
  }

  // --------------------------------------------------------------- sessions

  lemma OneSessionKeeps(b: Broadcaster, xs: seq<Session>, i: nat, a: SessionAction)
    requires SessionsInv(b, xs) && i < |xs| && SessionEnabled(xs[i], a)
    ensures SessionsInv(b, xs[i := SessionApply(xs[i], a)])
  {
    hide SessionInv, SessionApply;
    SessionKeepsInv(b.frames, b.frameRxOk, xs[i], a);
  }

  lemma SessionStepKeeps(s: Sys, i: nat, a: SessionAction)
    requires Inv(s) && Enabled(s, SessionStep(i, a))
    ensures Inv(Apply(s, SessionStep(i, a)))
  {
    hide TrackerInv, LogInv, PipeInv, StreamInv, RequestInv, KillsInv, SessionsInv, SessionApply;
    OneSessionKeeps(s.bcast, s.sessions, i, a);
  }

  // ------------------------------------------------------------ broadcaster

  lemma FanOutKeeps(b: Broadcaster, xs: seq<Session>, ev: FrameEvent)
    requires SessionsInv(b, xs) && b.frameRxOk
    ensures SessionsInv(b.(frames := b.frames + [ev]), FanOut(xs, ev))
  {
    hide SessionInv, OfferTo;
    forall i | 0 <= i < |xs| ensures SessionInv(b.frames + [ev], true, OfferTo(xs[i], ev)) {
      OfferKeepsInv(b.frames, ev, xs[i]);
    }
  }

  lemma ReleaseAllKeeps(b: Broadcaster, xs: seq<Session>)
    requires SessionsInv(b, xs) && b.frameRxOk
    ensures SessionsInv(b.(frameRxOk := false), ReleaseAll(xs))
  {
    hide SessionInv, ReleaseFrom;
    forall i | 0 <= i < |xs| ensures SessionInv(b.frames, false, ReleaseFrom(xs[i])) {
      ReleaseKeepsInv(b.frames, xs[i]);
    }
  }

  lemma NewSessionKeeps(b: Broadcaster, xs: seq<Session>)
    requires SessionsInv(b, xs)
    ensures SessionsInv(b, xs + [StartSession(b.frames, b.frameRxOk)])
  {
    hide SessionInv, StartSession;
    StartSessionInv(b.frames, b.frameRxOk);
  }

  lemma BcastFrameKeeps(s: Sys)
    requires Inv(s) && Enabled(s, BroadcasterStep(BcastFrame))
    ensures Inv(Apply(s, BroadcasterStep(BcastFrame)))
  {
    hide TrackerInv, LogInv, StreamInv, RequestInv, KillsInv, SessionsInv, FanOut;
    var s' := Apply(s, BroadcasterStep(BcastFrame));
    var ev := s.frameCh.buf[0];
    assert [ev] + s'.frameCh.buf == s.frameCh.buf;
    assert Log(s') == Log(s);
    FanOutKeeps(s.bcast, s.sessions, ev);
  }

  lemma FramesEndKeeps(s: Sys)
    requires Inv(s) && Enabled(s, BroadcasterStep(FramesEnd))
    ensures Inv(Apply(s, BroadcasterStep(FramesEnd)))
  {
    hide TrackerInv, LogInv, StreamInv, RequestInv, KillsInv, SessionsInv, ReleaseAll;
    ReleaseAllKeeps(s.bcast, s.sessions);
  }

  lemma BcastRequestKeeps(s: Sys)
    requires Inv(s) && Enabled(s, BroadcasterStep(BcastRequest))
    ensures Inv(Apply(s, BroadcasterStep(BcastRequest)))
  {
    hide TrackerInv, LogInv, StreamInv, RequestInv, KillsInv, SessionsInv, StartSession;
    ServeRequestKeeps(s.reqCh, s.reqs, Refused);
    ServeRequestKeeps(s.reqCh, s.reqs, Served(|s.sessions|));
    NewSessionKeeps(s.bcast, s.sessions);
  }

  lemma RequestsNeverEnd(s: Sys)
    requires Inv(s)
    ensures !Enabled(s, BroadcasterStep(RequestsEnd))
  {
    hide TrackerInv, LogInv, StreamInv, PipeInv, KillsInv, SessionsInv;
  }

  lemma BroadcasterStepKeeps(s: Sys, a: BroadcasterAction)
    requires Inv(s) && Enabled(s, BroadcasterStep(a))
    ensures Inv(Apply(s, BroadcasterStep(a)))
  {
    hide *;
    match a
    case BcastFrame => BcastFrameKeeps(s);
    case FramesEnd => FramesEndKeeps(s);
    case BcastRequest => BcastRequestKeeps(s);
    case RequestsEnd => RequestsNeverEnd(s);
  }

  // ------------------------------------------------------------------ kills

  lemma NewKillKeeps(t: Tracker, killCh: Chan<nat>, kills: seq<Kill>, job: Job, contract: bool, user: User)
    requires KillsInv(t, killCh, kills, job, contract) && user == job.user
    ensures KillsInv(t, killCh.AddSender(), kills + [Kill(user, KillUnsent, true)], job, contract)
  {
    SumAppend(kills, Kill(user, KillUnsent, true), KillCaller);
    assert Line(t, killCh.AddSender()) == Line(t, killCh);
  }

  lemma SendKillKeeps(t: Tracker, killCh: Chan<nat>, kills: seq<Kill>, job: Job, contract: bool, k: nat)
    requires KillsInv(t, killCh, kills, job, contract)
    requires k < |kills| && kills[k].phase.KillUnsent? && killCh.CanSend()
    ensures KillsInv(t, killCh.Send(k), SetKill(kills, k, KillPending), job, contract)
  {
    SumUpdate(kills, k, kills[k].(phase := KillPending), KillCaller);
    var line := Line(t, killCh);
    assert Line(t, killCh.Send(k)) == line + [k];
    assert k !in line;
  }

  lemma LeaveKillKeeps(t: Tracker, killCh: Chan<nat>, kills: seq<Kill>, job: Job, contract: bool, k: nat,
                       phase: KillPhase)
    requires KillsInv(t, killCh, kills, job, contract)
    requires k < |kills| && kills[k].caller
    requires if kills[k].phase.KillUnsent? then phase.KillWithdrawn? || phase.KillRefused? else phase == kills[k].phase
    ensures KillsInv(t, killCh.DropSender(), kills[k := kills[k].(phase := phase, caller := false)], job, contract)
  {
    SumUpdate(kills, k, kills[k].(phase := phase, caller := false), KillCaller);
    assert Line(t, killCh.DropSender()) == Line(t, killCh);
  }

  lemma KillStepKeeps(s: Sys, a: KillAction)
    requires Inv(s) && Enabled(s, KillStep(a))
    ensures Inv(Apply(s, KillStep(a)))
  {
    hide TrackerInv, LogInv, PipeInv, StreamInv, RequestInv, KillsInv, SessionsInv;
    match a
    case NewKill(user) => NewKillKeeps(s.tracker, s.killCh, s.kills, s.job, s.contract, user);
    case SendKill(k) => SendKillKeeps(s.tracker, s.killCh, s.kills, s.job, s.contract, k);
    case KillRejected(k) => LeaveKillKeeps(s.tracker, s.killCh, s.kills, s.job, s.contract, k, KillRefused);
    case LeaveKill(k) =>
      LeaveKillKeeps(s.tracker, s.killCh, s.kills, s.job, s.contract, k,
                     if s.kills[k].phase.KillUnsent? then KillWithdrawn else s.kills[k].phase);
  }

  // ---------------------------------------------------------------- tracker

  /** What the arms of the select leave of the tracker's own variables and the job. */
  lemma SelectKeepsOwn(t: Tracker, job: Job, contract: bool, k: StreamKind, m: Message, req: nat, result: WaitResult)
    requires TrackerInv(t, job, contract) && t.pc.Select?
    ensures t.loopErr.None? && !t.Finishing()
    ensures t.Listening(k) && (if m.Good? then m.frame.kind == k else m.err.ReadOutput?) ==>
              TrackerInv(t.TakeMessage(m), job, contract)
    ensures t.Listening(k) ==> TrackerInv(t.StreamClosed(k), job, contract)
    ensures TrackerInv(t.TakeKill(req), job, contract)
    ensures t.childOk ==> TrackerInv(t.ChildWaited(result), job, contract)
  {
  }

  /** The same for the code after each other suspension. */
  lemma AwaitKeepsOwn(t: Tracker, job: Job, contract: bool, at: nat, user: User)
    requires TrackerInv(t, job, contract)
    ensures !t.Finishing() ==> t.loopErr.None?
    ensures t.pc.SendFrame? ==> TrackerInv(t.FrameSent(), job, contract) && t.FrameSent().pc == Select
    ensures t.pc.Killing? ==> TrackerInv(t.KillErred(), job, contract)
    ensures t.pc.Killing? && (contract ==> t.childOk) ==> TrackerInv(t.KillWorked(), job, contract)
    ensures t.pc.MarkKilled? && contract ==> t.childOk
    ensures t.pc.MarkKilled? && user == job.user ==> TrackerInv(t.KillMarked(), job.KilledBy(at, user), contract)
    ensures t.pc.RecordExit? ==> TrackerInv(t.ExitRecorded(), job.Ended(at, t.pc.status), contract) && !t.childOk
    ensures |t.killReqs| > 0 ==> job.killed.Some? && job.killed.value.user == job.user
    ensures t.pc.SendFinal? ==> TrackerInv(t.FinalSent(), job, contract)
    ensures t.pc.StoreResult? ==> TrackerInv(t.Stop(), job, contract)
  {
  }

  /** A tracker step that leaves the line of kill requests alone. */
  lemma KillsUntouched(t: Tracker, t': Tracker, killCh: Chan<nat>, kills: seq<Kill>, job: Job, contract: bool)
    requires KillsInv(t, killCh, kills, job, contract)
    requires !t.pc.Stopped? && !t'.pc.Stopped?
    requires t'.killReqs == t.killReqs && KillHand(t'.pc) == KillHand(t.pc)
    requires !t.childOk && !t.pc.RecordExit? ==> !t'.childOk && !t'.pc.RecordExit?
    ensures KillsInv(t', killCh, kills, job, contract)
  {
    assert Line(t', killCh) == Line(t, killCh);
  }

  /** A tracker step that takes nothing from a stream. */
  lemma StreamUntouched(r: Reader, k: StreamKind, log: seq<FrameEvent>, log': seq<FrameEvent>, t: Tracker, t': Tracker)
    requires StreamInv(r, k, log, t)
    requires FramesOf(log', k) == FramesOf(log, k)
    requires !t.pc.Stopped? && !t'.pc.Stopped?
    requires t'.Listening(k) == t.Listening(k)
    requires t'.loopErr == t.loopErr || (t'.loopErr.Some? && !FailedReading(t', k))
    ensures StreamInv(r, k, log', t')
  {
  }

  /** Passing the head of the loop appends at most the end-of-file event. */
  lemma LoopHeadLog(log: seq<FrameEvent>, t: Tracker)
    requires Unsealed(log) && t.loopErr.None?
    ensures var t' := t.LoopHead();
            && LogInv(log + Hand(t'.pc), t')
            && FramesOf(log + Hand(t'.pc), Stdout) == FramesOf(log, Stdout)
            && FramesOf(log + Hand(t'.pc), Stderr) == FramesOf(log, Stderr)
  {
    SealAppend(log, EOF);
    FramesOfAppend(log, EOF, Stdout);
    FramesOfAppend(log, EOF, Stderr);
    assert log + [] == log;
  }

  lemma BreakLog(log: seq<FrameEvent>, t: Tracker, err: TrackerError)
    requires Unsealed(log)
    ensures var t' := t.Break(err);
            && LogInv(log + Hand(t'.pc), t')
            && FramesOf(log + Hand(t'.pc), Stdout) == FramesOf(log, Stdout)
            && FramesOf(log + Hand(t'.pc), Stderr) == FramesOf(log, Stderr)
  {
    SealAppend(log, Error(err));
    FramesOfAppend(log, Error(err), Stdout);
    FramesOfAppend(log, Error(err), Stderr);
  }

  lemma TakeMessageReader(r: Reader)
    requires ReaderInv(r) && r.ch.CanRecv()
    ensures ReaderInv(r.(ch := r.ch.Recv()))
    ensures r.ch.buf[0].Bad? ==>
              |r.ch.buf| == 1 && r.failure.Some? && r.ch.buf[0].err == ReadOutput(r.kind, r.failure.value)
  {
    hide BytesOf, FrameOk;
  }

  /** The first message of a stream's channel: a frame of that stream continues its part of the log. */
  lemma TakeMessageFlow(r: Reader, logged: seq<Frame>, healthy: bool)
    requires ReaderInv(r) && FlowInv(r, logged, true, healthy) && r.ch.open && r.ch.CanRecv()
    ensures var m := r.ch.buf[0];
            && (m.Good? ==> m.frame.kind == r.kind && FlowInv(r.(ch := r.ch.Recv()), logged + [m.frame], true, healthy))
            && (m.Bad? ==> FlowInv(r.(ch := r.ch.Recv()), logged, true, false))
  {
    hide BytesOf;
    var m, rest := r.ch.buf[0], r.ch.buf[1..];
    assert Goods(r.ch.buf) == (if m.Good? then [m.frame] else []) + Goods(rest);
    if m.Good? {
      assert r.cut == (logged + [m.frame]) + Goods(rest) + InHand(r.pc);
      assert r.cut[|logged|] == m.frame && FrameOk(r.cut[|logged|], r.kind);
    } else {
      assert r.cut == logged + Goods(rest) + InHand(r.pc);
    }
  }

  lemma TakeMessageStream(r: Reader, k: StreamKind, log: seq<FrameEvent>, t: Tracker)
    requires StreamInv(r, k, log, t) && r.ch.CanRecv() && t.pc.Select? && t.Listening(k) && t.loopErr.None?
    ensures var m := r.ch.buf[0];
            var t' := t.TakeMessage(m);
            && (m.Good? ==> m.frame.kind == k) && (m.Bad? ==> m.err.ReadOutput? && m.err.kind == k)
            && StreamInv(r.(ch := r.ch.Recv()), k, log + Hand(t'.pc), t')
  {
    hide ReaderInv, FlowInv, FramesOf;
    var m := r.ch.buf[0];
    TakeMessageReader(r);
    TakeMessageFlow(r, FramesOf(log, k), true);
    FramesOfAppend(log, if m.Good? then Data(m.frame) else Error(m.err), k);
    assert FramesOf(log, k) + [] == FramesOf(log, k);
  }

  lemma TakeMessageLog(log: seq<FrameEvent>, t: Tracker, m: Message, other: StreamKind)
    requires Unsealed(log) && t.loopErr.None? && (m.Good? ==> m.frame.kind != other)
    ensures var t' := t.TakeMessage(m);
            LogInv(log + Hand(t'.pc), t') && FramesOf(log + Hand(t'.pc), other) == FramesOf(log, other)
  {
    var ev := if m.Good? then Data(m.frame) else Error(m.err);
    SealAppend(log, ev);
    FramesOfAppend(log, ev, other);
  }

  /** Taking a message from a stream. */
  lemma RecvFrameMoves(s: Sys, k: StreamKind)
    requires TrackerEnabled(s, RecvFrame(k))
    ensures s.tracker.pc.Select? && s.tracker.Listening(k) && ReaderOf(s, k).ch.CanRecv()
    ensures var s', r := TrackerApply(s, RecvFrame(k)), ReaderOf(s, k);
            && s' == WithReader(s, k, r.(ch := r.ch.Recv())).(tracker := s.tracker.TakeMessage(r.ch.buf[0]))
            && Log(s') == Log(s) + Hand(s'.tracker.pc)
  {
    hide AnswerAll, AbandonAll, SetKill;
  }

  lemma RecvFrameKeeps(s: Sys, k: StreamKind)
    requires Inv(s) && TrackerEnabled(s, RecvFrame(k))
    ensures Inv(TrackerApply(s, RecvFrame(k)))
  {
    hide TrackerInv, StreamInv, KillsInv, SessionsInv, RequestInv, Unsealed, Sealed, FramesOf, Log, TrackerApply,
         TrackerEnabled, SetKill;
    RecvFrameMoves(s, k);
    SelectKeepsOwn(s.tracker, s.job, s.contract, k, ReaderOf(s, k).ch.buf[0], 0, WaitFails(IoError("")));
    var s' := TrackerApply(s, RecvFrame(k));
    var r, t, t' := ReaderOf(s, k), s.tracker, s'.tracker;
    var other := if k.Stdout? then Stderr else Stdout;
    TakeMessageStream(r, k, Log(s), t);
    TakeMessageLog(Log(s), t, r.ch.buf[0], other);
    StreamUntouched(ReaderOf(s, other), other, Log(s), Log(s'), t, t');
    KillsUntouched(t, t', s.killCh, s.kills, s.job, s.contract);
  }

  /** A closed stream channel means that the stream was read to its end without an error and that
      the tracker has taken everything. */
  lemma StreamEndsStream(r: Reader, k: StreamKind, log: seq<FrameEvent>, log': seq<FrameEvent>, t: Tracker)
    requires StreamInv(r, k, log, t) && r.ch.AtEnd() && t.pc.Select? && t.Listening(k) && t.loopErr.None?
    requires FramesOf(log', k) == FramesOf(log, k)
    ensures StreamInv(r, k, log', t.StreamClosed(k))
  {
    assert r.cut == FramesOf(log, k) + [] + [];
  }

  /** Seeing a stream's channel closed. */
  lemma StreamEndsMoves(s: Sys, k: StreamKind)
    requires TrackerEnabled(s, StreamEnds(k))
    ensures s.tracker.pc.Select? && s.tracker.Listening(k) && ReaderOf(s, k).ch.AtEnd()
    ensures var s' := TrackerApply(s, StreamEnds(k));
            && s' == s.(tracker := s.tracker.StreamClosed(k))
            && Log(s') == Log(s) + Hand(s'.tracker.pc)
  {
    hide AnswerAll, AbandonAll, SetKill;
  }

  lemma StreamEndsKeeps(s: Sys, k: StreamKind)
    requires Inv(s) && TrackerEnabled(s, StreamEnds(k))
    ensures Inv(TrackerApply(s, StreamEnds(k)))
  {
    hide TrackerInv, StreamInv, KillsInv, SessionsInv, RequestInv, Unsealed, Sealed, FramesOf, Log, TrackerApply,
         TrackerEnabled, SetKill;
    StreamEndsMoves(s, k);
    SelectKeepsOwn(s.tracker, s.job, s.contract, k, Good(Frame(k, [])), 0, WaitFails(IoError("")));
    var s' := TrackerApply(s, StreamEnds(k));
    var t, t' := s.tracker, s'.tracker;
    var other := if k.Stdout? then Stderr else Stdout;
    LoopHeadLog(Log(s), if k.Stdout? then t.(stdoutOk := false) else t.(stderrOk := false));
    StreamEndsStream(ReaderOf(s, k), k, Log(s), Log(s'), t);
    StreamUntouched(ReaderOf(s, other), other, Log(s), Log(s'), t, t');
    KillsUntouched(t, t', s.killCh, s.kills, s.job, s.contract);
  }

  lemma FrameSentKeeps(s: Sys)
    requires Inv(s) && TrackerEnabled(s, FrameSent)
    ensures Inv(TrackerApply(s, FrameSent))
  {
    hide TrackerInv, StreamInv, KillsInv, SessionsInv, RequestInv, Unsealed, Sealed, FramesOf, AnswerAll, AbandonAll,
         SetKill;
    AwaitKeepsOwn(s.tracker, s.job, s.contract, 0, s.job.user);
    var s' := TrackerApply(s, FrameSent);
    assert s'.tracker.pc == Select;
    assert Log(s') == Log(s);
    StreamUntouched(s.stdout, Stdout, Log(s), Log(s'), s.tracker, s'.tracker);
    StreamUntouched(s.stderr, Stderr, Log(s), Log(s'), s.tracker, s'.tracker);
    KillsUntouched(s.tracker, s'.tracker, s.killCh, s.kills, s.job, s.contract);
  }

  /** Sending the terminal event moves it from the tracker's hand into the channel. */
  lemma FinalSentMoves(s: Sys)
    requires TrackerEnabled(s, FinalSent)
    ensures s.tracker.pc.SendFinal? && s.frameCh.CanSend()
    ensures var s' := TrackerApply(s, FinalSent);
            && s' == s.(tracker := s.tracker.FinalSent(), frameCh := s.frameCh.Send(s.tracker.pc.ev))
            && Log(s') == Log(s)
  {
    hide AnswerAll, AbandonAll, SetKill;
  }

  lemma FinalSentKeeps(s: Sys)
    requires Inv(s) && TrackerEnabled(s, FinalSent)
    ensures Inv(TrackerApply(s, FinalSent))
  {
    hide TrackerInv, StreamInv, KillsInv, SessionsInv, RequestInv, Unsealed, Sealed, FramesOf, Log, TrackerApply,
         TrackerEnabled;
    FinalSentMoves(s);
    AwaitKeepsOwn(s.tracker, s.job, s.contract, 0, s.job.user);
    var s' := TrackerApply(s, FinalSent);
    StreamUntouched(s.stdout, Stdout, Log(s), Log(s'), s.tracker, s'.tracker);
    StreamUntouched(s.stderr, Stderr, Log(s), Log(s'), s.tracker, s'.tracker);
    KillsUntouched(s.tracker, s'.tracker, s.killCh, s.kills, s.job, s.contract);
  }

  lemma TakeKillKeeps(t: Tracker, killCh: Chan<nat>, kills: seq<Kill>, job: Job, contract: bool)
    requires KillsInv(t, killCh, kills, job, contract) && t.pc.Select? && killCh.CanRecv()
    ensures KillsInv(t.TakeKill(killCh.buf[0]), killCh.Recv(), kills, job, contract)
  {
    assert [killCh.buf[0]] + killCh.buf[1..] == killCh.buf;
    assert Line(t.TakeKill(killCh.buf[0]), killCh.Recv()) == Line(t, killCh);
  }

  lemma RecvKillKeeps(s: Sys)
    requires Inv(s) && TrackerEnabled(s, RecvKill)
    ensures Inv(TrackerApply(s, RecvKill))
  {
    hide TrackerInv, StreamInv, KillsInv, SessionsInv, RequestInv, Unsealed, Sealed, FramesOf, AnswerAll, AbandonAll,
         SetKill;
    SelectKeepsOwn(s.tracker, s.job, s.contract, Stdout, Good(Frame(Stdout, [])), s.killCh.buf[0],
                   WaitFails(IoError("")));
    var s' := TrackerApply(s, RecvKill);
    assert Log(s') == Log(s);
    StreamUntouched(s.stdout, Stdout, Log(s), Log(s'), s.tracker, s'.tracker);
    StreamUntouched(s.stderr, Stderr, Log(s), Log(s'), s.tracker, s'.tracker);
    TakeKillKeeps(s.tracker, s.killCh, s.kills, s.job, s.contract);
  }

  /** A settled request leaves the line; everyone else keeps their place. */
  lemma LeaveLine(line: seq<nat>, n: nat, kills: seq<Kill>, phase: KillPhase)
    requires LineInv(line, kills) && n < |line| && !phase.KillPending?
    ensures LineInv(line[..n] + line[n + 1..], SetKill(kills, line[n], phase))
  {
    var line' := line[..n] + line[n + 1..];
    forall x | x in line' ensures x in line && x != line[n] {
      var i :| 0 <= i < |line'| && line'[i] == x;
      assert x == line[if i < n then i else i + 1];
    }
    forall i | 0 <= i < |line| && i != n ensures line[i] in line' {
      assert line[i] == line'[if i < n then i else i - 1];
    }
  }

  /** Answering the request in hand takes it, and only it, out of the line. */
  lemma AnswerHandKeeps(t: Tracker, t': Tracker, killCh: Chan<nat>, kills: seq<Kill>, job: Job, contract: bool,
                        err: IoError)
    requires KillsInv(t, killCh, kills, job, contract) && t.pc.Killing?
    requires t' == t.LoopHead()
    ensures KillsInv(t', killCh, SetKill(kills, t.pc.req, KillAnswered(KillFailed(err))), job, contract)
  {
    hide Distinct, KillInv;
    var line, n, phase := Line(t, killCh), |t.killReqs|, KillAnswered(KillFailed(err));
    assert line[n] == t.pc.req;
    assert Line(t', killCh) == line[..n] + line[n + 1..];
    LeaveLine(line, n, kills, phase);
    SumUpdate(kills, line[n], kills[line[n]].(phase := phase), KillCaller);
    forall k | 0 <= k < |kills| ensures KillInv(SetKill(kills, t.pc.req, phase)[k], t', job, contract) {
      KillErrOne(kills[k], k == t.pc.req, err, t, t', job, contract);
    }
  }

  lemma KillErrOne(k: Kill, inHand: bool, err: IoError, t: Tracker, t': Tracker, job: Job, contract: bool)
    requires KillInv(k, t, job, contract) && t.pc.Killing? && t' == t.LoopHead()
    ensures KillInv(if inHand then k.(phase := KillAnswered(KillFailed(err))) else k, t', job, contract)
  {
  }

  /** Hearing how the child's kill went. */
  lemma KillReturnsMoves(s: Sys, err: Option<IoError>)
    requires TrackerEnabled(s, KillReturns(err))
    ensures s.tracker.pc.Killing? && (s.contract && err.None? ==> s.tracker.childOk)
    ensures var s', t := TrackerApply(s, KillReturns(err)), s.tracker;
            && s' == (if err.Some? then
                        s.(tracker := t.KillErred(),
                           kills := SetKill(s.kills, t.pc.req, KillAnswered(KillFailed(err.value))))
                      else s.(tracker := t.KillWorked()))
            && Log(s') == Log(s) + Hand(s'.tracker.pc)
  {
    hide AnswerAll, AbandonAll, SetKill;
  }

  lemma KillReturnsKeeps(s: Sys, err: Option<IoError>)
    requires Inv(s) && TrackerEnabled(s, KillReturns(err))
    ensures Inv(TrackerApply(s, KillReturns(err)))
  {
    hide TrackerInv, StreamInv, KillsInv, SessionsInv, RequestInv, Unsealed, Sealed, FramesOf, Log, TrackerApply,
         TrackerEnabled, SetKill;
    KillReturnsMoves(s, err);
    assert Log(s) + [] == Log(s);
    AwaitKeepsOwn(s.tracker, s.job, s.contract, 0, s.job.user);
    var s' := TrackerApply(s, KillReturns(err));
    var t, t' := s.tracker, s'.tracker;
    if err.Some? {
      LoopHeadLog(Log(s), t);
      AnswerHandKeeps(t, t', s.killCh, s.kills, s.job, s.contract, err.value);
    } else {
      KillsUntouched(t, t', s.killCh, s.kills, s.job, s.contract);
    }
    StreamUntouched(s.stdout, Stdout, Log(s), Log(s'), t, t');
    StreamUntouched(s.stderr, Stderr, Log(s), Log(s'), t, t');
  }

  /** Noting who killed the job moves the request from the tracker's hand to those it retains. */
  lemma RetainKeeps(t: Tracker, t': Tracker, killCh: Chan<nat>, kills: seq<Kill>, job: Job, contract: bool, at: nat,
                    user: User)
    requires KillsInv(t, killCh, kills, job, contract) && t.pc.MarkKilled? && (contract ==> t.childOk)
    requires t' == t.KillMarked()
    ensures t.pc.req < |kills| && kills[t.pc.req].user == job.user
    ensures KillsInv(t', killCh, kills, job.KilledBy(at, user), contract)
  {
    hide Distinct;
    assert Line(t, killCh)[|t.killReqs|] == t.pc.req;
    assert Line(t', killCh) == Line(t, killCh);
  }

  lemma MarkKillKeeps(s: Sys, at: nat)
    requires Inv(s) && TrackerEnabled(s, MarkKill(at))
    ensures Inv(TrackerApply(s, MarkKill(at)))
  {
    hide TrackerInv, StreamInv, KillsInv, SessionsInv, RequestInv, Unsealed, Sealed, FramesOf, AnswerAll, AbandonAll,
         SetKill;
    AwaitKeepsOwn(s.tracker, s.job, s.contract, at, Requester(s, s.tracker.pc.req));
    var s' := TrackerApply(s, MarkKill(at));
    var t, t' := s.tracker, s'.tracker;
    assert Log(s) + Hand(t'.pc) == Log(s');
    LoopHeadLog(Log(s), t.(killReqs := t.killReqs + [t.pc.req]));
    StreamUntouched(s.stdout, Stdout, Log(s), Log(s'), t, t');
    StreamUntouched(s.stderr, Stderr, Log(s), Log(s'), t, t');
    RetainKeeps(t, t', s.killCh, s.kills, s.job, s.contract, at, Requester(s, t.pc.req));
  }

  /** Hearing of the child's end. */
  lemma WaitReturnsMoves(s: Sys, result: WaitResult)
    requires TrackerEnabled(s, WaitReturns(result))
    ensures s.tracker.pc.Select? && s.tracker.childOk
    ensures var s' := TrackerApply(s, WaitReturns(result));
            && s' == s.(tracker := s.tracker.ChildWaited(result))
            && Log(s') == Log(s) + Hand(s'.tracker.pc)
  {
    hide AnswerAll, AbandonAll, SetKill;
  }

  lemma WaitReturnsKeeps(s: Sys, result: WaitResult)
    requires Inv(s) && TrackerEnabled(s, WaitReturns(result))
    ensures Inv(TrackerApply(s, WaitReturns(result)))
  {
    hide TrackerInv, StreamInv, KillsInv, SessionsInv, RequestInv, Unsealed, Sealed, FramesOf, Log, TrackerApply,
         TrackerEnabled, SetKill;
    WaitReturnsMoves(s, result);
    assert Log(s) + [] == Log(s);
    SelectKeepsOwn(s.tracker, s.job, s.contract, Stdout, Good(Frame(Stdout, [])), 0, result);
    var s' := TrackerApply(s, WaitReturns(result));
    var t, t' := s.tracker, s'.tracker;
    if result.WaitFails? {
      BreakLog(Log(s), t.(childOk := false), WaitChild(result.err));
    }
    StreamUntouched(s.stdout, Stdout, Log(s), Log(s'), t, t');
    StreamUntouched(s.stderr, Stderr, Log(s), Log(s'), t, t');
    KillsUntouched(t, t', s.killCh, s.kills, s.job, s.contract);
  }

  /** Settling the front of the line leaves the rest of it. */
  lemma SettleFront(front: seq<nat>, rest: seq<nat>, kills: seq<Kill>, kills': seq<Kill>)
    requires LineInv(front + rest, kills) && |kills'| == |kills|
    requires forall k :: 0 <= k < |kills| ==>
               if k in front then !kills'[k].phase.KillPending? else kills'[k].phase == kills[k].phase
    ensures LineInv(rest, kills')
  {
    var line := front + rest;
    forall j | 0 <= j < |rest| ensures rest[j] == line[|front| + j] && rest[j] !in front {
      forall i | 0 <= i < |front| ensures front[i] != rest[j] {
        assert line[i] != line[|front| + j];
      }
    }
  }

  lemma AnswerOne(k: Kill, retained: bool, t: Tracker, t': Tracker, job: Job, job': Job, contract: bool)
    requires KillInv(k, t, job, contract) && t.pc.RecordExit? && !t.childOk
    requires t' == t.(killReqs := []).LoopHead()
    requires SameJob(job', job) && job'.state.Exited? && job'.endedAt.Some?
    requires retained ==> job'.killed.Some? && job'.killed.value.user == job.user
    ensures KillInv(if retained then k.(phase := KillAnswered(Killed(job'))) else k, t', job', contract)
  {
  }

  lemma AnsweredLeaveLine(retained: seq<nat>, queued: seq<nat>, kills: seq<Kill>, job: Job)
    requires LineInv(retained + queued, kills)
    ensures LineInv(queued, AnswerAll(kills, retained, job))
  {
    hide LineInv;
    SettleFront(retained, queued, kills, AnswerAll(kills, retained, job));
  }

  lemma AnsweredKeepCallers(retained: seq<nat>, kills: seq<Kill>, job: Job)
    ensures Sum(AnswerAll(kills, retained, job), KillCaller) == Sum(kills, KillCaller)
  {
    hide Sum;
    SumSame(kills, AnswerAll(kills, retained, job), KillCaller);
  }

  /** Noting the exit answers exactly the retained requests, all with the exited job. */
  lemma AnswerRetainedKeeps(t: Tracker, t': Tracker, killCh: Chan<nat>, kills: seq<Kill>, job: Job, job': Job,
                            contract: bool)
    requires KillsInv(t, killCh, kills, job, contract) && t.pc.RecordExit?
    requires !t.childOk && t' == t.(killReqs := []).LoopHead()
    requires SameJob(job', job) && job'.state.Exited? && job'.endedAt.Some? && job'.killed == job.killed
    requires |t.killReqs| > 0 ==> job.killed.Some? && job.killed.value.user == job.user
    ensures KillsInv(t', killCh, AnswerAll(kills, t.killReqs, job'), job', contract)
  {
    hide LineInv, KillInv, Sum, SameJob;
    var kills' := AnswerAll(kills, t.killReqs, job');
    assert Line(t, killCh) == t.killReqs + killCh.buf;
    assert Line(t', killCh) == killCh.buf;
    AnsweredLeaveLine(t.killReqs, killCh.buf, kills, job');
    AnsweredKeepCallers(t.killReqs, kills, job');
    forall k | 0 <= k < |kills| ensures KillInv(kills'[k], t', job', contract) {
      AnswerOne(kills[k], k in t.killReqs, t, t', job, job', contract);
    }
  }

  lemma RecordEndKeeps(s: Sys, at: nat)
    requires Inv(s) && TrackerEnabled(s, RecordEnd(at))
    ensures Inv(TrackerApply(s, RecordEnd(at)))
  {
    hide TrackerInv, StreamInv, KillsInv, SessionsInv, RequestInv, Unsealed, Sealed, FramesOf, AnswerAll, AbandonAll,
         SetKill;
    AwaitKeepsOwn(s.tracker, s.job, s.contract, at, s.job.user);
    var s' := TrackerApply(s, RecordEnd(at));
    var t, t' := s.tracker, s'.tracker;
    assert Log(s) + Hand(t'.pc) == Log(s');
    LoopHeadLog(Log(s), t.(killReqs := []));
    StreamUntouched(s.stdout, Stdout, Log(s), Log(s'), t, t');
    StreamUntouched(s.stderr, Stderr, Log(s), Log(s'), t, t');
    AnswerRetainedKeeps(t, t', s.killCh, s.kills, s.job, s'.job, s.contract);
  }

  lemma AbandonOne(k: Kill, taken: bool, queued: bool, t: Tracker, job: Job, contract: bool)
    requires KillInv(k, t, job, contract) && TrackerInv(t, job, contract) && t.pc.StoreResult?
    requires taken ==> |t.killReqs| > 0
    ensures KillInv(if taken then k.(phase := KillAbandoned(true))
                    else if queued then k.(phase := KillAbandoned(false)) else k, t.Stop(), job, contract)
  {
  }

  /** When the tracker ends, every pending request is dropped; a request it had received is among
      them only if the tracker met an error. */
  lemma AbandonKeeps(t: Tracker, t': Tracker, killCh: Chan<nat>, kills: seq<Kill>, job: Job, contract: bool)
    requires KillsInv(t, killCh, kills, job, contract) && TrackerInv(t, job, contract) && t.pc.StoreResult?
    requires t' == t.Stop()
    ensures KillsInv(t', killCh.DropReceiver(), AbandonAll(kills, t.killReqs, killCh.buf), job, contract)
  {
    hide KillInv, TrackerInv;
    var kills' := AbandonAll(kills, t.killReqs, killCh.buf);
    SumSame(kills, kills', KillCaller);
    assert Line(t, killCh) == t.killReqs + killCh.buf;
    assert Line(t', killCh.DropReceiver()) == [];
    forall k | 0 <= k < |kills| ensures KillInv(kills'[k], t', job, contract) {
      AbandonOne(kills[k], k in t.killReqs, k in killCh.buf, t, job, contract);
    }
  }

  lemma StopStream(r: Reader, k: StreamKind, log: seq<FrameEvent>, t: Tracker)
    requires StreamInv(r, k, log, t) && t.pc.StoreResult?
    ensures StreamInv(r.(ch := r.ch.DropReceiver()), k, log, t.Stop())
  {
  }

  lemma StopKeeps(s: Sys)
    requires Inv(s) && TrackerEnabled(s, Stop)
    ensures Inv(TrackerApply(s, Stop))
  {
    hide TrackerInv, StreamInv, KillsInv, SessionsInv, RequestInv, Unsealed, Sealed, FramesOf, AnswerAll, AbandonAll,
         SetKill;
    AwaitKeepsOwn(s.tracker, s.job, s.contract, 0, s.job.user);
    var s' := TrackerApply(s, Stop);
    assert Log(s') == Log(s);
    StopStream(s.stdout, Stdout, Log(s), s.tracker);
    StopStream(s.stderr, Stderr, Log(s), s.tracker);
    AbandonKeeps(s.tracker, s'.tracker, s.killCh, s.kills, s.job, s.contract);
  }

  /** The broadcaster's receiver and the job's own sender outlive the tracker's loop. */
  lemma TrackerNeverCutOff(s: Sys)
    requires Inv(s)
    ensures !TrackerEnabled(s, FrameRejected) && !TrackerEnabled(s, FinalRejected)
    ensures !TrackerEnabled(s, KillsEnd)
  {
    hide TrackerInv, LogInv, StreamInv, RequestInv, SessionsInv;
  }

  lemma TrackerArmKeeps(s: Sys, a: TrackerAction)
    requires Inv(s) && TrackerEnabled(s, a)
    ensures Inv(TrackerApply(s, a))
  {
    hide *;
    match a
    case RecvFrame(k) => RecvFrameKeeps(s, k);
    case StreamEnds(k) => StreamEndsKeeps(s, k);
    case FrameSent => FrameSentKeeps(s);
    case RecvKill => RecvKillKeeps(s);
    case KillReturns(err) => KillReturnsKeeps(s, err);
    case MarkKill(at) => MarkKillKeeps(s, at);
    case WaitReturns(result) => WaitReturnsKeeps(s, result);
    case RecordEnd(at) => RecordEndKeeps(s, at);
    case FinalSent => FinalSentKeeps(s);
    case Stop => StopKeeps(s);
    case FrameRejected => TrackerNeverCutOff(s);
    case KillsEnd => TrackerNeverCutOff(s);
    case FinalRejected => TrackerNeverCutOff(s);
  }

  lemma TrackerStepKeeps(s: Sys, a: TrackerAction)
    requires Inv(s) && Enabled(s, TrackerStep(a))
    ensures Inv(Apply(s, TrackerStep(a)))
  {
    hide Inv, TrackerEnabled, TrackerApply;
    TrackerArmKeeps(s, a);
  }

  // ------------------------------------------------------------- every step

  lemma StepKeepsInv(s: Sys, a: Action)
    requires Inv(s) && Enabled(s, a)
    ensures Inv(Apply(s, a))
  {
    hide *;
    match a
    case ReaderStep(k, r) => ReaderStepKeeps(s, k, r);
    case TrackerStep(t) => TrackerStepKeeps(s, t);
    case BroadcasterStep(b) => BroadcasterStepKeeps(s, b);
    case SessionStep(i, x) => SessionStepKeeps(s, i, x);
    case RequestStep(q) => RequestStepKeeps(s, q);
    case KillStep(x) => KillStepKeeps(s, x);
  }

  lemma {:induction false} RunKeepsInv(s: Sys, acts: seq<Action>)
    requires Inv(s) && CanRun(s, acts)
    ensures Inv(After(s, acts))
    decreases |acts|
  {
    hide *;
    if |acts| > 0 {
      RunUnfolds(s, acts);
      StepKeepsInv(s, acts[0]);
      RunKeepsInv(Apply(s, acts[0]), acts[1..]);
    } else {
      assert acts == [];
      EmptyRun(s);
    }
  }

  /** The invariant holds in every reachable state. */
  lemma ReachableInv(s: Sys)
    requires Reachable(s)
    ensures Inv(s)
  {
    var s0: Sys, acts: seq<Action> :| Init(s0) && CanRun(s0, acts) && After(s0, acts) == s;
    hide *;
    InitInv(s0);
    RunKeepsInv(s0, acts);
  }
}
