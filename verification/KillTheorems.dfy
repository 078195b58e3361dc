/** What becomes of kill requests and of the job snapshot. */
module KillTheorems {
  import opened Channels
  import opened Events
  import opened Readers
  import opened Tracker
  import opened Sessions
  import opened System
  import opened Invariant
  import opened LogTheorems

  lemma KillsOf(s: Sys)
    requires Inv(s)
    ensures KillsInv(s.tracker, s.killCh, s.kills, s.job, s.contract)
  {
    hide TrackerInv, LogInv, PipeInv, StreamInv, RequestInv, KillsInv, SessionsInv;
  }

  /** Each request is at all times in exactly one place: the pending ones, and only they, stand in the
      tracker's line (retained, in hand or queued), each exactly once; every other one is unsent,
      answered, dropped unanswered, refused or withdrawn. Nothing is dropped before the tracker ends. */
  lemma KillRequestsConserved(s: Sys)
    requires Reachable(s)
    ensures forall k :: 0 <= k < |s.kills| ==>
              Occurrences(Line(s.tracker, s.killCh), k) == if s.kills[k].phase.KillPending? then 1 else 0
    ensures forall k :: 0 <= k < |s.kills| && s.kills[k].phase.KillAbandoned? ==> s.tracker.pc.Stopped?
    ensures s.tracker.pc.Stopped? ==> forall k :: 0 <= k < |s.kills| ==> !s.kills[k].phase.KillPending?
  {
    ReachableInv(s);
    KillsOf(s);
    hide Inv, Reachable;
    var line := Line(s.tracker, s.killCh);
    forall k | 0 <= k < |s.kills|
      ensures Occurrences(line, k) == if s.kills[k].phase.KillPending? then 1 else 0
    {
      DistinctCount(line, k);
    }
    forall k | 0 <= k < |s.kills| ensures s.kills[k].phase.KillAbandoned? ==> s.tracker.pc.Stopped? {
      assert KillInv(s.kills[k], s.tracker, s.job, s.contract);
    }
  }

  /** Once the tracker has ended, no request is pending. */
  lemma NonePendingAtEnd(s: Sys)
    requires Inv(s) && s.tracker.pc.Stopped?
    ensures !s.killCh.open
    ensures forall k :: 0 <= k < |s.kills| ==> !s.kills[k].phase.KillPending?
  {
    KillsOf(s);
    hide Inv, KillInv, Distinct;
    assert Line(s.tracker, s.killCh) == [];
  }

  function Occurrences(line: seq<nat>, k: nat): nat {
    if |line| == 0 then 0 else Count(line[0] == k) + Occurrences(line[1..], k)
  }

  lemma {:induction false} DistinctCount(line: seq<nat>, k: nat)
    requires Distinct(line)
    ensures Occurrences(line, k) == if k in line then 1 else 0
  {
    if |line| > 0 {
      DistinctCount(line[1..], k);
      assert line == [line[0]] + line[1..];
    }
  }

  predicate Settled(phase: KillPhase) {
    !phase.KillUnsent? && !phase.KillPending?
  }

  /** A request that has been answered keeps its answer, and one that has been dropped, refused or
      withdrawn stays so. */
  lemma SettledForGood(s: Sys, a: Action, k: nat)
    requires Reachable(s) && Enabled(s, a) && k < |s.kills| && Settled(s.kills[k].phase)
    ensures k < |Apply(s, a).kills| && Apply(s, a).kills[k].phase == s.kills[k].phase
  {
    ReachableInv(s);
    KillsOf(s);
    hide Inv, Reachable, LineInv, Line, TrackerEnabled, TrackerApply, BroadcasterEnabled, BroadcasterApply,
         RequestEnabled, RequestApply, KillEnabled, KillApply, Settled;
    match a
    case TrackerStep(t) => TrackerSettles(s, t, k);
    case KillStep(x) => CallersSettle(s, x, k);
    case BroadcasterStep(b) => BroadcasterLeavesKills(s, b);
    case RequestStep(q) => RequestLeavesKills(s, q);
    case _ =>
  }

  lemma TrackerSettles(s: Sys, t: TrackerAction, k: nat)
    requires LineInv(Line(s.tracker, s.killCh), s.kills)
    requires TrackerEnabled(s, t) && k < |s.kills| && Settled(s.kills[k].phase)
    ensures k < |TrackerApply(s, t).kills| && TrackerApply(s, t).kills[k] == s.kills[k]
  {
    assert k !in Line(s.tracker, s.killCh);
  }

  lemma CallersSettle(s: Sys, x: KillAction, k: nat)
    requires KillEnabled(s, x) && k < |s.kills| && Settled(s.kills[k].phase)
    ensures k < |KillApply(s, x).kills| && KillApply(s, x).kills[k].phase == s.kills[k].phase
  {
  }

  lemma BroadcasterLeavesKills(s: Sys, b: BroadcasterAction)
    requires BroadcasterEnabled(s, b)
    ensures var s' := BroadcasterApply(s, b); s'.kills == s.kills && s'.job == s.job && s'.contract == s.contract
  {
  }

  lemma RequestLeavesKills(s: Sys, q: RequestAction)
    requires RequestEnabled(s, q)
    ensures var s' := RequestApply(s, q); s'.kills == s.kills && s'.job == s.job && s'.contract == s.contract
  {
  }

  /** With a child that honours its contract, the tracker retains requests only until the exit is
      recorded (or waiting for the child fails), and a run that ends with end of file has dropped no
      request the tracker had received. */
  lemma ReceivedKillsAreAnswered(s: Sys)
    requires Reachable(s) && s.contract
    ensures |s.tracker.killReqs| > 0 ==>
              || s.tracker.childOk || s.tracker.pc.RecordExit?
              || (s.tracker.loopErr.Some? && s.tracker.loopErr.value.WaitChild?)
    ensures EOF in Log(s) ==>
              && s.tracker.killReqs == []
              && forall k :: 0 <= k < |s.kills| ==> s.kills[k].phase != KillAbandoned(true)
  {
    ReachableInv(s);
    KillsOf(s);
    PipeOf(s);
    LogShape(s);
    if EOF in Log(s) {
      EofMeansExited(s);
      hide Inv, Reachable, StreamInv, PipeInv, Log, LineInv;
      forall k | 0 <= k < |s.kills| ensures s.kills[k].phase != KillAbandoned(true) {
        assert KillInv(s.kills[k], s.tracker, s.job, s.contract);
      }
    }
  }

  /** A successful reply is truthful: it carries this job, exited, its end recorded, killed by its owner
      (who is the requester); and, the contract given, it is the job's final snapshot. */
  lemma SuccessfulKillIsTruthful(s: Sys, k: nat)
    requires Reachable(s) && k < |s.kills|
    requires s.kills[k].phase.KillAnswered? && s.kills[k].phase.reply.Killed?
    ensures var j := s.kills[k].phase.reply.job;
            && SameJob(j, s.job) && j.state.Exited? && j.endedAt.Some?
            && j.killed.Some? && j.killed.value.user == s.job.user == s.kills[k].user
            && (s.contract ==> j == s.job)
  {
    ReachableInv(s);
    KillsOf(s);
    hide Inv, Reachable, LineInv;
    assert KillInv(s.kills[k], s.tracker, s.job, s.contract);
  }

  /** How far the job has come: running, running and marked as killed, exited. */
  function Stage(job: Job): nat {
    if job.state.Exited? then 2 else if job.killed.Some? then 1 else 0
  }

  ghost predicate JobAdvances(j: Job, j': Job) {
    && SameJob(j', j)
    && Stage(j) <= Stage(j')
    && (j.killed.Some? ==> j'.killed.Some?)
    && (j.endedAt.Some? ==> j'.endedAt == j.endedAt)
    && (j.state.Exited? ==> j'.state == j.state)
    && (j.state.Running? && j'.state.Running? ==> j'.state == j.state)
  }

  lemma JobMovesForward(s: Sys, a: Action)
    requires Inv(s) && Enabled(s, a)
    ensures JobAdvances(s.job, Apply(s, a).job)
    ensures s.contract && s.job.state.Exited? ==> Apply(s, a).job == s.job
    ensures Apply(s, a).contract == s.contract
  {
    PipeOf(s);
    if a.TrackerStep? {
      hide Inv, JobAdvances, TrackerInv, StreamInv, PipeInv, TrackerApply, TrackerEnabled;
      TrackerMovesJob(s, a.t);
    } else {
      hide *;
      OthersLeaveJob(s, a);
      AdvancesNot(s.job);
    }
  }

  lemma TrackerMovesJob(s: Sys, t: TrackerAction)
    requires TrackerInv(s.tracker, s.job, s.contract) && TrackerEnabled(s, t)
    ensures JobAdvances(s.job, TrackerApply(s, t).job)
    ensures s.contract && s.job.state.Exited? ==> TrackerApply(s, t).job == s.job
    ensures TrackerApply(s, t).contract == s.contract
  {
    hide AnswerAll, AbandonAll, SetKill;
  }

  /** Over any run the snapshot keeps its id, owner and start time and only moves from running to
      running-and-killed to exited; with a child that honours its contract it never changes again. */
  lemma {:induction false} JobHistoryIsMonotone(s: Sys, acts: seq<Action>)
    requires Inv(s) && CanRun(s, acts)
    ensures JobAdvances(s.job, After(s, acts).job)
    ensures s.contract && s.job.state.Exited? ==> After(s, acts).job == s.job
    decreases |acts|
  {
    hide *;
    if |acts| > 0 {
      RunUnfolds(s, acts);
      JobMovesForward(s, acts[0]);
      StepKeepsInv(s, acts[0]);
      JobHistoryIsMonotone(Apply(s, acts[0]), acts[1..]);
      AdvancesTwice(s.job, Apply(s, acts[0]).job, After(s, acts).job);
    } else {
      assert acts == [];
      EmptyRun(s);
      AdvancesNot(s.job);
    }
  }

  lemma AdvancesTwice(j: Job, j': Job, j'': Job)
    requires JobAdvances(j, j') && JobAdvances(j', j'')
    ensures JobAdvances(j, j'')
  {
  }

  lemma AdvancesNot(j: Job)
    ensures JobAdvances(j, j)
  {
  }

  /** What the job and the tracker say about the child was reported by it. */
  ghost predicate Reported(s: Sys, past: seq<Action>) {
    && (s.job.state.Exited? ==> TrackerStep(WaitReturns(ExitedWith(s.job.state.status))) in past)
    && (s.tracker.pc.RecordExit? ==> TrackerStep(WaitReturns(ExitedWith(s.tracker.pc.status))) in past)
    && (s.tracker.loopErr.Some? && s.tracker.loopErr.value.WaitChild? ==>
          TrackerStep(WaitReturns(WaitFails(s.tracker.loopErr.value.io))) in past)
  }

  /** Where the tracker and the job take what they say about the child from: the exit, ... */
  lemma TrackerHearsExit(s: Sys, t: TrackerAction)
    requires TrackerEnabled(s, t)
    ensures var s' := TrackerApply(s, t);
            && (s'.job.state == s.job.state
                || (s.tracker.pc.RecordExit? && s'.job.state == Exited(s.tracker.pc.status)))
            && (s'.tracker.pc.RecordExit? ==> t == WaitReturns(ExitedWith(s'.tracker.pc.status)))
  {
    hide AnswerAll, AbandonAll, SetKill;
  }

  /** ... and a failure to wait. */
  lemma TrackerHearsFailure(s: Sys, t: TrackerAction)
    requires TrackerEnabled(s, t)
    requires t.RecvFrame? && ReaderOf(s, t.k).ch.buf[0].Bad? ==> !ReaderOf(s, t.k).ch.buf[0].err.WaitChild?
    ensures var t' := TrackerApply(s, t).tracker;
            if t.WaitReturns? && t.result.WaitFails? then t'.loopErr == Some(WaitChild(t.result.err))
            else NoNewFailure(s.tracker, t')
  {
    FailsOnlyByWait(s.tracker, t);
    hide AnswerAll, AbandonAll, SetKill, NoNewFailure, Tracker.LoopHead, Tracker.Break, Tracker.TakeMessage,
         Tracker.StreamClosed, Tracker.FrameSent, Tracker.FrameRejected, Tracker.TakeKill, Tracker.KillsClosed,
         Tracker.KillErred, Tracker.KillWorked, Tracker.KillMarked, Tracker.ChildWaited, Tracker.ExitRecorded,
         Tracker.FinalSent, Tracker.Stop;
  }

  /** The error of `t'` is no failed wait, unless it was that of `t`. */
  predicate NoNewFailure(t: Tracker, t': Tracker) {
    WaitFailed(t') ==> t'.loopErr == t.loopErr
  }

  lemma FailsOnlyByWait(t: Tracker, a: TrackerAction)
    ensures forall m: Message :: (m.Bad? ==> !m.err.WaitChild?) ==> NoNewFailure(t, t.TakeMessage(m))
    ensures forall k :: NoNewFailure(t, t.StreamClosed(k))
    ensures forall req :: NoNewFailure(t, t.TakeKill(req))
    ensures NoNewFailure(t, t.FrameSent()) && NoNewFailure(t, t.FrameRejected()) && NoNewFailure(t, t.KillsClosed())
    ensures NoNewFailure(t, t.KillErred()) && (t.pc.Killing? ==> NoNewFailure(t, t.KillWorked()))
    ensures t.pc.MarkKilled? ==> NoNewFailure(t, t.KillMarked())
    ensures NoNewFailure(t, t.ExitRecorded()) && NoNewFailure(t, t.FinalSent()) && NoNewFailure(t, t.Stop())
    ensures a.WaitReturns? && a.result.ExitedWith? ==> NoNewFailure(t, t.ChildWaited(a.result))
    ensures a.WaitReturns? && a.result.WaitFails? ==> t.ChildWaited(a.result).loopErr == Some(WaitChild(a.result.err))
  {
  }

  /** The tracker stops waiting for the child once, for good. */
  lemma TrackerWaitsOnce(s: Sys, t: TrackerAction)
    requires TrackerEnabled(s, t) && (!s.tracker.childOk || t.WaitReturns?)
    ensures !TrackerApply(s, t).tracker.childOk
  {
    StillWaited(s.tracker, t);
    hide AnswerAll, AbandonAll, SetKill, Tracker.LoopHead, Tracker.Break, Tracker.TakeMessage, Tracker.StreamClosed,
         Tracker.FrameSent, Tracker.FrameRejected, Tracker.TakeKill, Tracker.KillsClosed, Tracker.KillErred,
         Tracker.KillWorked, Tracker.KillMarked, Tracker.ChildWaited, Tracker.ExitRecorded, Tracker.FinalSent,
         Tracker.Stop;
  }

  lemma StillWaited(t: Tracker, a: TrackerAction)
    ensures a.WaitReturns? ==> !t.ChildWaited(a.result).childOk
    ensures !t.childOk ==>
              && (forall m :: !t.TakeMessage(m).childOk) && (forall k :: !t.StreamClosed(k).childOk)
              && (forall req :: !t.TakeKill(req).childOk)
              && !t.FrameSent().childOk && !t.FrameRejected().childOk && !t.KillsClosed().childOk
              && !t.KillErred().childOk && (t.pc.Killing? ==> !t.KillWorked().childOk)
              && (t.pc.MarkKilled? ==> !t.KillMarked().childOk)
              && !t.ExitRecorded().childOk && !t.FinalSent().childOk && !t.Stop().childOk
  {
  }

  /** A read error is not a failure to wait. */
  lemma HeadIsNoWait(s: Sys, t: TrackerAction)
    requires Inv(s) && TrackerEnabled(s, t)
    ensures t.RecvFrame? && ReaderOf(s, t.k).ch.buf[0].Bad? ==> !ReaderOf(s, t.k).ch.buf[0].err.WaitChild?
  {
    PipeOf(s);
    hide Inv, PipeInv, TrackerInv, ReaderInv, FlowInv;
    if t.RecvFrame? { TakeMessageReader(ReaderOf(s, t.k)); }
  }

  predicate WaitFailed(t: Tracker) {
    t.loopErr.Some? && t.loopErr.value.WaitChild?
  }

  lemma TrackerReports(s: Sys, t: TrackerAction, past: seq<Action>)
    requires Reported(s, past) && TrackerEnabled(s, t)
    requires t.RecvFrame? && ReaderOf(s, t.k).ch.buf[0].Bad? ==> !ReaderOf(s, t.k).ch.buf[0].err.WaitChild?
    ensures Reported(TrackerApply(s, t), past + [TrackerStep(t)])
  {
    hide TrackerApply, TrackerEnabled;
    TrackerHearsExit(s, t);
    TrackerHearsFailure(s, t);
  }

  lemma StepReports(s: Sys, a: Action, past: seq<Action>)
    requires Inv(s) && Reported(s, past) && Enabled(s, a)
    ensures Reported(Apply(s, a), past + [a])
  {
    if a.TrackerStep? {
      hide Inv, TrackerApply, TrackerEnabled, Reported;
      HeadIsNoWait(s, a.t);
      TrackerReports(s, a.t, past);
    } else {
      hide Inv, Apply, Enabled;
      OthersLeaveJob(s, a);
    }
  }

  lemma OthersLeaveJob(s: Sys, a: Action)
    requires Enabled(s, a) && !a.TrackerStep?
    ensures Apply(s, a).job == s.job && Apply(s, a).tracker == s.tracker && Apply(s, a).contract == s.contract
  {
    hide ReaderApply, ReaderEnabled, SessionApply, SessionEnabled, BroadcasterApply, BroadcasterEnabled, RequestApply,
         RequestEnabled, KillApply, KillEnabled;
    match a
    case BroadcasterStep(b) => BroadcasterLeavesTracker(s, b);
    case RequestStep(q) => RequestLeavesTracker(s, q);
    case KillStep(x) => KillLeavesTracker(s, x);
    case _ =>
  }

  lemma BroadcasterLeavesTracker(s: Sys, b: BroadcasterAction)
    requires BroadcasterEnabled(s, b)
    ensures var s' := BroadcasterApply(s, b); s'.job == s.job && s'.tracker == s.tracker && s'.contract == s.contract
  {
  }

  lemma RequestLeavesTracker(s: Sys, q: RequestAction)
    requires RequestEnabled(s, q)
    ensures var s' := RequestApply(s, q); s'.job == s.job && s'.tracker == s.tracker && s'.contract == s.contract
  {
  }

  lemma KillLeavesTracker(s: Sys, x: KillAction)
    requires KillEnabled(s, x)
    ensures var s' := KillApply(s, x); s'.job == s.job && s'.tracker == s.tracker && s'.contract == s.contract
  {
  }

  lemma {:induction false} RunReports(s: Sys, past: seq<Action>, acts: seq<Action>)
    requires Inv(s) && Reported(s, past) && CanRun(s, acts)
    ensures Reported(After(s, acts), past + acts)
    decreases |acts|
  {
    hide *;
    if |acts| > 0 {
      RunUnfolds(s, acts);
      StepReports(s, acts[0], past);
      StepKeepsInv(s, acts[0]);
      RunReports(Apply(s, acts[0]), past + [acts[0]], acts[1..]);
      ShiftFirst(past, acts);
    } else {
      assert acts == [] && past + acts == past;
      EmptyRun(s);
    }
  }

  lemma ShiftFirst<T>(front: seq<T>, back: seq<T>)
    requires |back| > 0
    ensures (front + [back[0]]) + back[1..] == front + back
  {
  }

  /** The exit status in the job is the one the child reported during the run, and a log that ends with a
      failed wait ends with the failure the child reported. */
  lemma ExitIsTheChilds(s0: Sys, acts: seq<Action>)
    requires Init(s0) && CanRun(s0, acts)
    ensures var s := After(s0, acts);
            && (s.job.state.Exited? ==> TrackerStep(WaitReturns(ExitedWith(s.job.state.status))) in acts)
            && (s.tracker.pc.RecordExit? ==> TrackerStep(WaitReturns(ExitedWith(s.tracker.pc.status))) in acts)
            && (s.tracker.loopErr.Some? && s.tracker.loopErr.value.WaitChild? ==>
                  TrackerStep(WaitReturns(WaitFails(s.tracker.loopErr.value.io))) in acts)
  {
    hide CanRun, After, Inv, Enabled, Apply;
    InitInv(s0);
    RunReports(s0, [], acts);
    assert [] + acts == acts;
  }

  // ------------------------------------------------ times and replies

  ghost predicate EndNoted(past: seq<Action>) {
    exists at :: TrackerStep(RecordEnd(at)) in past
  }

  ghost predicate KillNoted(past: seq<Action>) {
    exists at :: TrackerStep(MarkKill(at)) in past
  }

  /** What a reply to a kill says of the child's kill was so. */
  ghost predicate ReplyHeard(phase: KillPhase, past: seq<Action>) {
    phase.KillAnswered? ==>
      match phase.reply
      case KillFailed(err) => TrackerStep(KillReturns(Some(err))) in past
      case Killed(_) => TrackerStep(KillReturns(None)) in past
  }

  /** The times in the job are the clock readings at which they were noted, and replies tell what the child's
      kill returned. */
  ghost predicate Noted(s: Sys, past: seq<Action>) {
    && (s.job.endedAt.Some? <==> EndNoted(past))
    && (s.job.endedAt.Some? ==> TrackerStep(RecordEnd(s.job.endedAt.value)) in past)
    && (s.job.killed.Some? <==> KillNoted(past))
    && (s.job.killed.Some? ==> TrackerStep(MarkKill(s.job.killed.value.at)) in past)
    && (s.tracker.pc.MarkKilled? || |s.tracker.killReqs| > 0 ==> TrackerStep(KillReturns(None)) in past)
    && (forall k :: 0 <= k < |s.kills| ==> ReplyHeard(s.kills[k].phase, past))
  }

  /** Noting the exit answers each retained request with the job as it is then, and nobody else. */
  lemma RecordingAnswers(s: Sys, at: nat)
    requires Enabled(s, TrackerStep(RecordEnd(at)))
    ensures var s' := Apply(s, TrackerStep(RecordEnd(at)));
            && |s'.kills| == |s.kills|
            && s'.job == s.job.(endedAt := Some(at), state := Exited(s.tracker.pc.status))
            && s'.tracker.killReqs == []
            && forall k :: 0 <= k < |s.kills| ==>
                 s'.kills[k].phase == if k in s.tracker.killReqs then KillAnswered(Killed(s'.job)) else s.kills[k].phase
  {
    hide ReaderEnabled, ReaderApply, BroadcasterEnabled, BroadcasterApply, SessionEnabled, SessionApply,
         RequestEnabled, RequestApply, KillEnabled, KillApply;
  }

  /** A kill that failed is answered to the request in hand with the child's error, and nobody else; one that
      worked is answered to nobody yet, and then noted with the requester's name. */
  lemma KillReturning(s: Sys, err: Option<IoError>)
    requires Reachable(s) && Enabled(s, TrackerStep(KillReturns(err)))
    ensures var s', k := Apply(s, TrackerStep(KillReturns(err))), s.tracker.pc.req;
            && k < |s.kills| && s'.job == s.job
            && s'.kills == (if err.Some? then s.kills[k := s.kills[k].(phase := KillAnswered(KillFailed(err.value)))]
                            else s.kills)
            && (err.None? ==> s'.tracker.pc == MarkKilled(k))
  {
    ReachableInv(s);
    HandIsPending(s);
    hide Inv, Reachable, ReaderEnabled, ReaderApply, BroadcasterEnabled, BroadcasterApply, SessionEnabled,
         SessionApply, RequestEnabled, RequestApply, KillEnabled, KillApply;
  }

  lemma KillNoting(s: Sys, at: nat)
    requires Reachable(s) && Enabled(s, TrackerStep(MarkKill(at)))
    ensures var s', k := Apply(s, TrackerStep(MarkKill(at))), s.tracker.pc.req;
            && k < |s.kills| && s'.kills == s.kills
            && s'.job == s.job.(killed := Some(JobKilled(at, s.kills[k].user)))
            && s'.tracker.killReqs == s.tracker.killReqs + [k]
  {
    ReachableInv(s);
    HandIsPending(s);
    hide Inv, Reachable, ReaderEnabled, ReaderApply, BroadcasterEnabled, BroadcasterApply, SessionEnabled,
         SessionApply, RequestEnabled, RequestApply, KillEnabled, KillApply;
  }

  lemma HandIsPending(s: Sys)
    requires Inv(s) && (s.tracker.pc.Killing? || s.tracker.pc.MarkKilled?)
    ensures s.tracker.pc.req < |s.kills| && s.kills[s.tracker.pc.req].phase.KillPending?
  {
    KillsOf(s);
    hide Inv, KillInv, Distinct;
    assert Line(s.tracker, s.killCh)[|s.tracker.killReqs|] == s.tracker.pc.req;
  }

  lemma TrackerNotesJob(s: Sys, t: TrackerAction, past: seq<Action>)
    requires Noted(s, past) && TrackerEnabled(s, t)
    ensures var s', now := TrackerApply(s, t), past + [TrackerStep(t)];
            && (s'.job.endedAt.Some? <==> EndNoted(now))
            && (s'.job.endedAt.Some? ==> TrackerStep(RecordEnd(s'.job.endedAt.value)) in now)
            && (s'.job.killed.Some? <==> KillNoted(now))
            && (s'.job.killed.Some? ==> TrackerStep(MarkKill(s'.job.killed.value.at)) in now)
  {
    TimesAfter(s, t);
    hide TrackerApply, TrackerEnabled, ReplyHeard;
    var now := past + [TrackerStep(t)];
    assert TrackerStep(t) in now;
  }

  lemma TimesAfter(s: Sys, t: TrackerAction)
    requires TrackerEnabled(s, t)
    ensures var s' := TrackerApply(s, t);
            && s'.job.endedAt == (if t.RecordEnd? then Some(t.at) else s.job.endedAt)
            && (if t.MarkKill? then s'.job.killed.Some? && s'.job.killed.value.at == t.at
                else s'.job.killed == s.job.killed)
  {
    hide AnswerAll, AbandonAll, SetKill;
  }

  lemma TrackerNotesKill(s: Sys, t: TrackerAction, past: seq<Action>)
    requires Noted(s, past) && TrackerEnabled(s, t)
    ensures var s', now := TrackerApply(s, t), past + [TrackerStep(t)];
            s'.tracker.pc.MarkKilled? || |s'.tracker.killReqs| > 0 ==> TrackerStep(KillReturns(None)) in now
  {
    RetainedAfter(s, t);
    hide TrackerApply, TrackerEnabled, ReplyHeard;
    assert TrackerStep(t) in past + [TrackerStep(t)];
  }

  lemma RetainedAfter(s: Sys, t: TrackerAction)
    requires TrackerEnabled(s, t)
    ensures var t' := TrackerApply(s, t).tracker;
            t'.pc.MarkKilled? || |t'.killReqs| > 0 ==>
              t == KillReturns(None) || s.tracker.pc.MarkKilled? || |s.tracker.killReqs| > 0
  {
    MarkAfter(s, t);
    if s.tracker.killReqs == [] && !s.tracker.pc.MarkKilled? {
      ListAfter(s, t);
    }
    hide TrackerApply, TrackerEnabled;
  }

  lemma MarkAfter(s: Sys, t: TrackerAction)
    requires TrackerEnabled(s, t)
    ensures TrackerApply(s, t).tracker.pc.MarkKilled? ==> t.KillReturns? && t.err.None?
  {
    hide AnswerAll, AbandonAll, SetKill;
    match t
    case KillReturns(err) =>
    case _ =>
  }

  lemma ListAfter(s: Sys, t: TrackerAction)
    requires TrackerEnabled(s, t)
    requires s.tracker.killReqs == [] && !s.tracker.pc.MarkKilled?
    ensures TrackerApply(s, t).tracker.killReqs == []
  {
    RetainsNoMore(s.tracker, t);
    hide AnswerAll, AbandonAll, SetKill, Tracker.LoopHead, Tracker.Break, Tracker.TakeMessage, Tracker.StreamClosed,
         Tracker.FrameSent, Tracker.FrameRejected, Tracker.TakeKill, Tracker.KillsClosed, Tracker.KillErred,
         Tracker.KillWorked, Tracker.KillMarked, Tracker.ChildWaited, Tracker.ExitRecorded, Tracker.FinalSent,
         Tracker.Stop;
  }

  lemma RetainsNoMore(t: Tracker, a: TrackerAction)
    requires t.killReqs == []
    ensures forall m :: t.TakeMessage(m).killReqs == []
    ensures forall k :: t.StreamClosed(k).killReqs == []
    ensures forall req :: t.TakeKill(req).killReqs == []
    ensures t.FrameSent().killReqs == [] && t.FrameRejected().killReqs == [] && t.KillsClosed().killReqs == []
    ensures t.KillErred().killReqs == [] && (t.pc.Killing? ==> t.KillWorked().killReqs == [])
    ensures a.WaitReturns? ==> t.ChildWaited(a.result).killReqs == []
    ensures t.ExitRecorded().killReqs == [] && t.FinalSent().killReqs == [] && t.Stop().killReqs == []
  {
  }

  lemma TrackerNotesReplies(s: Sys, t: TrackerAction, past: seq<Action>)
    requires Noted(s, past) && TrackerEnabled(s, t)
    ensures var s', now := TrackerApply(s, t), past + [TrackerStep(t)];
            forall k :: 0 <= k < |s'.kills| ==> ReplyHeard(s'.kills[k].phase, now)
  {
    hide EndNoted, KillNoted;
    var s', now := TrackerApply(s, t), past + [TrackerStep(t)];
    assert TrackerStep(t) in now;
    forall k | 0 <= k < |s'.kills| ensures ReplyHeard(s'.kills[k].phase, now) {
      assert ReplyHeard(s.kills[k].phase, past);
    }
  }

  lemma CallersNote(s: Sys, x: KillAction, past: seq<Action>)
    requires Noted(s, past) && KillEnabled(s, x)
    ensures forall k :: 0 <= k < |KillApply(s, x).kills| ==> ReplyHeard(KillApply(s, x).kills[k].phase, past)
  {
    hide EndNoted, KillNoted;
    forall k | 0 <= k < |KillApply(s, x).kills| ensures ReplyHeard(KillApply(s, x).kills[k].phase, past) {
      if k < |s.kills| {
        assert ReplyHeard(s.kills[k].phase, past);
      }
    }
  }

  lemma StepNotes(s: Sys, a: Action, past: seq<Action>)
    requires Noted(s, past) && Enabled(s, a)
    ensures Noted(Apply(s, a), past + [a])
  {
    if a.TrackerStep? {
      hide TrackerEnabled, TrackerApply, ReplyHeard, EndNoted, KillNoted;
      TrackerNotesJob(s, a.t, past);
      TrackerNotesKill(s, a.t, past);
      TrackerNotesReplies(s, a.t, past);
    } else {
      OthersLeaveJob(s, a);
      OthersAnswerNobody(s, a, past);
      OtherNotesNothing(a, past);
      hide Enabled, Apply, ReplyHeard, EndNoted, KillNoted;
      var now := past + [a];
      forall k | 0 <= k < |Apply(s, a).kills| ensures ReplyHeard(Apply(s, a).kills[k].phase, now) {
        HeardStays(Apply(s, a).kills[k].phase, past, a);
      }
    }
  }

  lemma HeardStays(phase: KillPhase, past: seq<Action>, a: Action)
    requires ReplyHeard(phase, past)
    ensures ReplyHeard(phase, past + [a])
  {
  }

  lemma OtherNotesNothing(a: Action, past: seq<Action>)
    requires !a.TrackerStep?
    ensures EndNoted(past + [a]) <==> EndNoted(past)
    ensures KillNoted(past + [a]) <==> KillNoted(past)
  {
    forall at | TrackerStep(RecordEnd(at)) in past ensures TrackerStep(RecordEnd(at)) in past + [a] {
    }
    forall at | TrackerStep(MarkKill(at)) in past ensures TrackerStep(MarkKill(at)) in past + [a] {
    }
  }

  lemma OthersAnswerNobody(s: Sys, a: Action, past: seq<Action>)
    requires Noted(s, past) && Enabled(s, a) && !a.TrackerStep?
    ensures forall k :: 0 <= k < |Apply(s, a).kills| ==> ReplyHeard(Apply(s, a).kills[k].phase, past)
  {
    hide ReaderEnabled, ReaderApply, TrackerEnabled, TrackerApply, BroadcasterEnabled, BroadcasterApply, SessionEnabled,
         SessionApply, RequestEnabled, RequestApply, KillEnabled, KillApply, ReplyHeard, EndNoted, KillNoted;
    match a
    case KillStep(x) => CallersNote(s, x, past);
    case BroadcasterStep(b) => BroadcasterLeavesKills(s, b);
    case RequestStep(q) => RequestLeavesKills(s, q);
    case _ =>
  }

  lemma {:induction false} RunNotes(s: Sys, past: seq<Action>, acts: seq<Action>)
    requires Noted(s, past) && CanRun(s, acts)
    ensures Noted(After(s, acts), past + acts)
    decreases |acts|
  {
    hide *;
    if |acts| > 0 {
      RunUnfolds(s, acts);
      StepNotes(s, acts[0], past);
      RunNotes(Apply(s, acts[0]), past + [acts[0]], acts[1..]);
      ShiftFirst(past, acts);
    } else {
      assert acts == [] && past + acts == past;
      EmptyRun(s);
    }
  }

  /** Times and replies over whole runs: the end time is set exactly if the exit was noted, and the mark of the
      kill exactly if a kill was; each holds a clock reading taken when that was done. A failed kill is
      answered with an error the child's kill returned, and a successful one only if it once worked. */
  lemma TimesAndRepliesAreNoted(s0: Sys, acts: seq<Action>)
    requires Init(s0) && CanRun(s0, acts)
    ensures var job := After(s0, acts).job;
            && (job.endedAt.Some? <==> exists at :: TrackerStep(RecordEnd(at)) in acts)
            && (job.endedAt.Some? ==> TrackerStep(RecordEnd(job.endedAt.value)) in acts)
            && (job.killed.Some? <==> exists at :: TrackerStep(MarkKill(at)) in acts)
            && (job.killed.Some? ==> TrackerStep(MarkKill(job.killed.value.at)) in acts)
    ensures forall k :: 0 <= k < |After(s0, acts).kills| ==> ReplyHeard(After(s0, acts).kills[k].phase, acts)
  {
    FreshNotes(s0);
    hide Init, CanRun, After, ReplyHeard;
    RunNotes(s0, [], acts);
    assert [] + acts == acts;
  }

  lemma FreshNotes(s: Sys)
    requires Init(s)
    ensures Noted(s, [])
  {
  }

  /** Waiting for the child has returned its exit status. */
  predicate Reaped(t: Tracker) {
    !t.childOk && !WaitFailed(t)
  }

  ghost predicate WaitSucceeded(acts: seq<Action>) {
    exists status :: TrackerStep(WaitReturns(ExitedWith(status))) in acts
  }

  lemma WaitReturnsFirst(s: Sys, t: TrackerAction)
    requires Inv(s) && TrackerEnabled(s, t) && t.WaitReturns?
    ensures s.tracker.childOk && !WaitFailed(s.tracker)
  {
    PipeOf(s);
    hide Inv, StreamInv, PipeInv;
  }

  lemma StepReaps(s: Sys, a: Action)
    requires Inv(s) && Enabled(s, a)
    requires Reaped(s.tracker) || WaitSucceeded([a])
    ensures Reaped(Apply(s, a).tracker)
  {
    if a.TrackerStep? {
      hide Inv, TrackerApply, TrackerEnabled;
      HeadIsNoWait(s, a.t);
      if a.t.WaitReturns? { WaitReturnsFirst(s, a.t); }
      TrackerHearsFailure(s, a.t);
      TrackerWaitsOnce(s, a.t);
    } else {
      hide Inv, Apply, Enabled;
      OthersLeaveJob(s, a);
    }
  }

  lemma {:induction false} RunReaps(s: Sys, acts: seq<Action>)
    requires Inv(s) && CanRun(s, acts)
    requires Reaped(s.tracker) || WaitSucceeded(acts)
    ensures Reaped(After(s, acts).tracker)
    decreases |acts|
  {
    hide Inv, Enabled, Apply, CanRun, After, Reaped;
    if |acts| > 0 {
      RunUnfolds(s, acts);
      StepKeepsInv(s, acts[0]);
      if Reaped(s.tracker) || WaitSucceeded([acts[0]]) {
        StepReaps(s, acts[0]);
      } else {
        assert acts == [acts[0]] + acts[1..];
      }
      RunReaps(Apply(s, acts[0]), acts[1..]);
    } else {
      assert acts == [];
      EmptyRun(s);
    }
  }

  /** A job is recorded as exited, or about to be, exactly on the runs in which waiting for the child
      returned its exit. So a tracker that has ended left the job exited if and only if the wait
      succeeded before it ended: `ReadErrorLeavesRunning` is a run in which it did not. */
  lemma ExitedIffWaitSucceeded(s0: Sys, acts: seq<Action>)
    requires Init(s0) && CanRun(s0, acts)
    ensures var s := After(s0, acts);
            s.job.state.Exited? || s.tracker.pc.RecordExit? <==> WaitSucceeded(acts)
    ensures var s := After(s0, acts);
            s.tracker.pc.Stopped? ==> (s.job.state.Exited? <==> WaitSucceeded(acts))
  {
    hide Init, Inv, Enabled, Apply, CanRun, After, StreamInv, PipeInv;
    ExitIsTheChilds(s0, acts);
    InitInv(s0);
    RunKeepsInv(s0, acts);
    PipeOf(After(s0, acts));
    if WaitSucceeded(acts) {
      RunReaps(s0, acts);
    }
  }

  /** The tracker takes over a read error. */
  lemma ReadErrorTaken(owner: User, err: IoError) returns (s: Sys)
    ensures Reachable(s) && s.job == Started("job", owner, 1, 0)
    ensures s.tracker == NEW_TRACKER.Break(ReadOutput(Stdout, err))
    ensures s.bcast.frames == [] && s.frameCh == New(FRAME_CAP, 1)
  {
    var s0 := Initial(Started("job", owner, 1, 0), [], Some(err), [], None, true);
    ReachesItself(s0);
    hide Reachable, BroadcasterApply, SessionApply, RequestApply, KillApply;
    var s1 := Next(s0, ReaderStep(Stdout, End));
    var s2 := Next(s1, ReaderStep(Stdout, Deliver));
    assert s2.stdout.ch.buf == [Bad(ReadOutput(Stdout, err))];
    s := Next(s2, TrackerStep(RecvFrame(Stdout)));
  }

  /** A read error ends the tracker while the child may still be running: by `StoppedJobIsFinal` the
      snapshot then says so for good. */
  lemma ReadErrorLeavesRunning(owner: User, err: IoError) returns (s: Sys)
    ensures Reachable(s) && s.tracker.pc.Stopped? && s.job.state.Running?
    ensures Sealed(Log(s)) && Last(Log(s)) == Error(ReadOutput(Stdout, err))
  {
    var s3 := ReadErrorTaken(owner, err);
    hide Reachable, ReaderApply, BroadcasterApply, SessionApply, RequestApply, KillApply, AnswerAll, AbandonAll,
         SetKill;
    var s4 := Next(s3, TrackerStep(FinalSent));
    assert s4.frameCh.buf == [Error(ReadOutput(Stdout, err))];
    s := Next(s4, TrackerStep(Stop));
    assert Log(s) == [Error(ReadOutput(Stdout, err))];
  }

  /** Once the tracker has ended, the job never changes again. */
  lemma StoppedJobIsFinal(s: Sys, a: Action)
    requires s.tracker.pc.Stopped? && Enabled(s, a)
    ensures Apply(s, a).job == s.job && Apply(s, a).tracker == s.tracker
  {
    hide Apply;
    OthersLeaveJob(s, a);
  }

  /** A job whose empty streams have both ended and whose owner has asked to kill it. */
  lemma KillQueued(owner: User, contract: bool) returns (s: Sys)
    ensures Reachable(s)
    ensures s == Initial(Started("job", owner, 1, 0), [], None, [], None, contract).(
                   stdout := Finish(Start(Stdout, [], None)),
                   stderr := Finish(Start(Stderr, [], None)),
                   kills := [Kill(owner, KillPending, true)],
                   killCh := Chan([0], KILL_CAP, 2, true))
  {
    var s0 := Initial(Started("job", owner, 1, 0), [], None, [], None, contract);
    ReachesItself(s0);
    hide Reachable, TrackerApply, BroadcasterApply, SessionApply, RequestApply;
    var s1 := Next(s0, ReaderStep(Stdout, End));
    var s2 := Next(s1, ReaderStep(Stderr, End));
    var s3 := Next(s2, KillStep(NewKill(owner)));
    assert s3.kills == [Kill(owner, KillUnsent, true)];
    s := Next(s3, KillStep(SendKill(0)));
    assert s.kills == [Kill(owner, KillPending, true)];
  }

  /** The tracker retains requests only while it has not been told of the child's end. */
  predicate RetainsOnlyBefore(t: Tracker) {
    |t.killReqs| > 0 ==> t.childOk
  }

  /** That is not always so. With a child that honours its contract it ceases to be so at exactly one kind
      of step: the wait returns, with an exit or a failure, while requests are retained. Noting the
      exit then answers them all (`OnRecordExit`); after a failed wait they are dropped. */
  lemma RetainedOutliveChildIff(s: Sys, a: Action)
    requires Reachable(s) && s.contract && Enabled(s, a) && RetainsOnlyBefore(s.tracker)
    ensures !RetainsOnlyBefore(Apply(s, a).tracker) <==>
              a.TrackerStep? && a.t.WaitReturns? && |s.tracker.killReqs| > 0
  {
    ReachableInv(s);
    PipeOf(s);
    if a.TrackerStep? {
      hide Inv, Reachable, TrackerApply, TrackerEnabled, StreamInv, PipeInv;
      TrackerRetains(s, a.t);
    } else {
      OthersLeaveJob(s, a);
      hide Inv, Reachable, Apply, Enabled, TrackerInv, StreamInv, PipeInv;
    }
  }

  lemma TrackerRetains(s: Sys, t: TrackerAction)
    requires TrackerInv(s.tracker, s.job, s.contract) && s.contract && TrackerEnabled(s, t)
    requires RetainsOnlyBefore(s.tracker)
    ensures !RetainsOnlyBefore(TrackerApply(s, t).tracker) <==> t.WaitReturns? && |s.tracker.killReqs| > 0
  {
    hide AnswerAll, AbandonAll, SetKill;
  }

  /** And it does happen: a job is killed, and its exit or the failure to wait for it arrives while the
      request is retained. */
  lemma RetainedOutlivesChild(owner: User, result: WaitResult) returns (s: Sys)
    ensures Reachable(s) && s.contract
    ensures s.tracker.killReqs == [0] && !s.tracker.childOk
    ensures s.tracker.pc
         == if result.ExitedWith? then RecordExit(result.status) else SendFinal(Error(WaitChild(result.err)))
  {
    var q := KillQueued(owner, true);
    hide Reachable, ReaderApply, BroadcasterApply, SessionApply, RequestApply, KillApply;
    var s1 := Next(q, TrackerStep(RecvKill));
    var s2 := Next(s1, TrackerStep(KillReturns(None)));
    var s3 := Next(s2, TrackerStep(MarkKill(1)));
    s := Next(s3, TrackerStep(WaitReturns(result)));
  }

  /** The child exits, its exit is recorded, and only then does the tracker take up the request. */
  lemma LateKillTaken(owner: User) returns (s: Sys, q: Sys)
    ensures Reachable(s)
    ensures q == Initial(Started("job", owner, 1, 0), [], None, [], None, false).(
                   stdout := Finish(Start(Stdout, [], None)),
                   stderr := Finish(Start(Stderr, [], None)),
                   kills := [Kill(owner, KillPending, true)],
                   killCh := Chan([0], KILL_CAP, 2, true))
    ensures s == q.(tracker := NEW_TRACKER.(childOk := false, pc := Killing(0)),
                    killCh := Chan([], KILL_CAP, 2, true),
                    job := q.job.Ended(1, ExitStatus(None)))
  {
    q := KillQueued(owner, false);
    hide Reachable, ReaderApply, BroadcasterApply, SessionApply, RequestApply, KillApply;
    var s1 := Next(q, TrackerStep(WaitReturns(ExitedWith(ExitStatus(None)))));
    var s2 := Next(s1, TrackerStep(RecordEnd(1)));
    assert s2.kills == q.kills;
    s := Next(s2, TrackerStep(RecvKill));
  }

  /** The kill succeeds all the same: the exited job is marked as killed and the request is retained. */
  lemma LateKillMarked(owner: User) returns (s: Sys, exited: Job)
    ensures Reachable(s) && !s.contract && exited.state.Exited? && exited.killed.None?
    ensures s.tracker == NEW_TRACKER.(childOk := false, killReqs := [0])
    ensures s.job == exited.KilledBy(2, owner)
    ensures s.kills == [Kill(owner, KillPending, true)] && s.killCh.buf == []
    ensures s.stdout.ch == New(READER_CAP, 0) && s.stderr.ch == New(READER_CAP, 0)
    ensures s.bcast.frames == [] && s.frameCh == New(FRAME_CAP, 1)
  {
    var s0, q := LateKillTaken(owner);
    exited := s0.job;
    hide Reachable, ReaderApply, BroadcasterApply, SessionApply, RequestApply, KillApply;
    var s1 := Next(s0, TrackerStep(KillReturns(None)));
    s := Next(s1, TrackerStep(MarkKill(2)));
  }

  /** Both streams end, and the tracker leaves its loop with the request still retained. */
  lemma LateKillLeavesLoop(owner: User) returns (s: Sys, exited: Job)
    ensures Reachable(s) && !s.contract && exited.state.Exited? && exited.killed.None?
    ensures s.tracker
         == NEW_TRACKER.(childOk := false, stdoutOk := false, stderrOk := false, killReqs := [0], pc := SendFinal(EOF))
    ensures s.job == exited.KilledBy(2, owner)
    ensures s.kills == [Kill(owner, KillPending, true)] && s.killCh.buf == []
    ensures s.bcast.frames == [] && s.frameCh == New(FRAME_CAP, 1)
  {
    var s2;
    s2, exited := LateKillMarked(owner);
    hide Reachable, ReaderApply, BroadcasterApply, SessionApply, RequestApply, KillApply, AnswerAll, AbandonAll,
         SetKill;
    var s3 := Next(s2, TrackerStep(StreamEnds(Stdout)));
    s := Next(s3, TrackerStep(StreamEnds(Stderr)));
  }

  /** Why the contract is needed: if killing an exited child could succeed, a request the tracker had
      received would be dropped unanswered in a run that ends with end of file, and the exited job
      would change. */
  lemma BrokenContractLosesKill(owner: User) returns (s: Sys, exited: Job)
    ensures Reachable(s) && !s.contract
    ensures Sealed(Log(s)) && Last(Log(s)) == EOF
    ensures |s.kills| == 1 && s.kills[0].phase == KillAbandoned(true)
    ensures exited.state.Exited? && JobAdvances(exited, s.job) && s.job != exited
  {
    var s4;
    s4, exited := LateKillLeavesLoop(owner);
    hide Reachable, Enabled, Apply;
    FinalSends(s4);
    var s5 := Next(s4, TrackerStep(FinalSent));
    Stopping(s5);
    s := Next(s5, TrackerStep(Stop));
    assert Log(s) == [EOF];
  }

  /** Sending the terminal event into an empty channel. */
  lemma FinalSends(s: Sys)
    requires s.tracker.pc.SendFinal? && s.frameCh == New(FRAME_CAP, 1)
    ensures Enabled(s, TrackerStep(FinalSent))
    ensures Apply(s, TrackerStep(FinalSent))
         == s.(tracker := s.tracker.(pc := StoreResult), frameCh := New(FRAME_CAP, 1).(buf := [s.tracker.pc.ev]))
  {
    hide AnswerAll, AbandonAll, SetKill;
  }

  /** The tracker ends: what it retains is dropped as received, what is queued as not received. */
  lemma Stopping(s: Sys)
    requires s.tracker.pc.StoreResult?
    ensures Enabled(s, TrackerStep(Stop))
    ensures var s' := Apply(s, TrackerStep(Stop));
            && s'.bcast == s.bcast && s'.frameCh.buf == s.frameCh.buf && s'.job == s.job && s'.contract == s.contract
            && s'.tracker.pc.Stopped? && |s'.kills| == |s.kills|
            && forall k :: 0 <= k < |s.kills| ==>
                 s'.kills[k].phase == if k in s.tracker.killReqs then KillAbandoned(true)
                                      else if k in s.killCh.buf then KillAbandoned(false)
                                      else s.kills[k].phase
  {
    hide AnswerAll, SetKill;
  }
}
