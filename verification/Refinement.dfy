/** The pipeline is an append-only log with one read cursor for each client. */
module Refinement {
  import opened Events
  import opened Readers
  import opened Tracker
  import opened Sessions
  import opened System
  import opened Invariant
  import opened LogTheorems

  datatype AbstractLog = AbstractLog(log: seq<FrameEvent>, cursors: seq<nat>)

  ghost predicate AbstractInit(a: AbstractLog) {
    a == AbstractLog([], [])
  }

  /** An event is appended, unless the log is already sealed. */
  ghost predicate Appends(a: AbstractLog, a': AbstractLog) {
    && Unsealed(a.log) && a'.cursors == a.cursors
    && a.log <= a'.log && |a'.log| == |a.log| + 1
  }

  /** A client arrives: its cursor is at the start. */
  ghost predicate Subscribes(a: AbstractLog, a': AbstractLog) {
    a' == a.(cursors := a.cursors + [0])
  }

  /** One client reads the next event. */
  ghost predicate Advances(a: AbstractLog, a': AbstractLog, i: nat) {
    i < |a.cursors| && a.cursors[i] < |a.log| && a' == a.(cursors := a.cursors[i := a.cursors[i] + 1])
  }

  ghost predicate AbstractStep(a: AbstractLog, a': AbstractLog) {
    a' == a || Appends(a, a') || Subscribes(a, a') || exists i :: Advances(a, a', i)
  }

  /** The refinement map. */
  function Abs(s: Sys): AbstractLog {
    AbstractLog(Log(s), seq(|s.sessions|, i requires 0 <= i < |s.sessions| => |s.sessions[i].received|))
  }

  /** No step changes the log other than by appending one event to it while it is unsealed, and only
      the tracker appends. */
  lemma LogOnlyGrows(s: Sys, a: Action)
    requires Inv(s) && Enabled(s, a)
    ensures Log(Apply(s, a)) == Log(s)
         || (a.TrackerStep? && Unsealed(Log(s)) && Log(s) <= Log(Apply(s, a)) && |Log(Apply(s, a))| == |Log(s)| + 1)
  {
    hide Inv, Log, Unsealed;
    match a
    case ReaderStep(k, r) => ReaderKeepsLog(s, k, r);
    case TrackerStep(t) => TrackerGrowsLog(s, t);
    case BroadcasterStep(b) => BroadcasterKeepsLog(s, b);
    case SessionStep(i, x) => SessionKeepsLog(s, i, x);
    case RequestStep(q) => RequestKeepsLog(s, q);
    case KillStep(x) => KillKeepsLog(s, x);
  }

  lemma ReaderKeepsLog(s: Sys, k: StreamKind, a: ReaderAction)
    requires ReaderEnabled(ReaderOf(s, k), a)
    ensures Log(Apply(s, ReaderStep(k, a))) == Log(s)
  {
    hide ReaderApply, ReaderEnabled;
  }

  lemma SessionKeepsLog(s: Sys, i: nat, a: SessionAction)
    requires i < |s.sessions| && SessionEnabled(s.sessions[i], a)
    ensures Log(Apply(s, SessionStep(i, a))) == Log(s)
  {
    hide SessionApply, SessionEnabled;
  }

  lemma RequestKeepsLog(s: Sys, a: RequestAction)
    requires RequestEnabled(s, a)
    ensures Log(RequestApply(s, a)) == Log(s)
  {
  }

  lemma KillKeepsLog(s: Sys, a: KillAction)
    requires KillEnabled(s, a)
    ensures Log(KillApply(s, a)) == Log(s)
  {
  }

  lemma BcastFrameKeepsLog(s: Sys)
    requires BroadcasterEnabled(s, BcastFrame)
    ensures Log(BroadcasterApply(s, BcastFrame)) == Log(s)
  {
    hide FanOut;
    assert [s.frameCh.buf[0]] + s.frameCh.buf[1..] == s.frameCh.buf;
  }

  lemma BroadcasterMovesLog(s: Sys, b: BroadcasterAction)
    requires PipeInv(s.frameCh, s.tracker, s.bcast) && BroadcasterEnabled(s, b) && !b.RequestsEnd?
    ensures Log(BroadcasterApply(s, b)) == Log(s)
  {
    hide FanOut, ReleaseAll, StartSession, Hand;
    if b.BcastFrame? {
      hide BroadcasterApply, Log;
      BcastFrameKeepsLog(s);
    }
  }

  lemma BroadcasterKeepsLog(s: Sys, b: BroadcasterAction)
    requires Inv(s) && BroadcasterEnabled(s, b)
    ensures Log(BroadcasterApply(s, b)) == Log(s)
  {
    PipeOf(s);
    RequestsNeverEnd(s);
    hide Inv, BroadcasterApply, BroadcasterEnabled, StreamInv, TrackerInv, PipeInv;
    BroadcasterMovesLog(s, b);
  }

  /** What the tracker's hand holds before and after a step. */
  lemma TrackerHand(s: Sys, t: TrackerAction)
    requires TrackerEnabled(s, t)
    requires !t.FrameSent? && !t.FinalSent? && !t.FrameRejected? && !t.FinalRejected? && !t.Stop?
    requires s.tracker.pc.Select? ==> s.tracker.loopErr.None?
    ensures var s' := TrackerApply(s, t);
            && s'.bcast == s.bcast && s'.frameCh == s.frameCh
            && Hand(s.tracker.pc) == [] && |Hand(s'.tracker.pc)| <= 1
            && !s.tracker.Finishing()
  {
    hide AnswerAll, AbandonAll, SetKill;
  }

  lemma TrackerSends(s: Sys, t: TrackerAction)
    requires TrackerEnabled(s, t)
    requires t.FrameSent? ==> s.tracker.LoopHead().pc.Select?
    requires t.FrameSent? || t.FinalSent? || t.Stop?
    ensures Log(TrackerApply(s, t)) == Log(s)
  {
    hide AnswerAll, AbandonAll, SetKill;
  }

  lemma TrackerAppends(s: Sys, t: TrackerAction)
    requires TrackerEnabled(s, t)
    requires !t.FrameSent? && !t.FinalSent? && !t.FrameRejected? && !t.FinalRejected? && !t.Stop?
    requires s.tracker.pc.Select? ==> s.tracker.loopErr.None?
    ensures var s' := TrackerApply(s, t);
            && Log(s) <= Log(s') && |Log(s')| <= |Log(s)| + 1 && !s.tracker.Finishing()
  {
    hide TrackerApply, TrackerEnabled;
    TrackerHand(s, t);
    assert Log(s) + Hand(TrackerApply(s, t).tracker.pc) == Log(TrackerApply(s, t));
  }

  lemma TrackerGrowsLog(s: Sys, t: TrackerAction)
    requires Inv(s) && TrackerEnabled(s, t)
    ensures var s' := TrackerApply(s, t);
            Log(s') == Log(s) || (Unsealed(Log(s)) && Log(s) <= Log(s') && |Log(s')| == |Log(s)| + 1)
  {
    TrackerNeverCutOff(s);
    PipeOf(s);
    LogShape(s);
    hide Inv, Log, Unsealed, Sealed, TrackerApply, TrackerEnabled, StreamInv, PipeInv;
    if t.FrameSent? || t.FinalSent? || t.Stop? {
      FrameSentSelects(s);
      TrackerSends(s, t);
    } else {
      TrackerAppends(s, t);
    }
  }

  lemma FrameSentSelects(s: Sys)
    requires TrackerInv(s.tracker, s.job, s.contract)
    ensures s.tracker.pc.SendFrame? ==> s.tracker.LoopHead().pc.Select?
  {
  }

  lemma ReceivedMoves(x: Session, a: SessionAction)
    requires SessionEnabled(x, a)
    ensures SessionApply(x, a).received
         == if a.ForwardRecv? then x.received + [x.output.buf[0]] else x.received
  {
  }

  /** A step that changes one client's cursor, by at most one. */
  lemma OneCursor(s: Sys, s': Sys, i: nat, x: Session)
    requires i < |s.sessions| && Log(s') == Log(s) && s'.sessions == s.sessions[i := x]
    requires |s'.sessions[i].received| == |s.sessions[i].received|
          || |s.sessions[i].received| + 1 == |s'.sessions[i].received| <= |Log(s)|
    ensures AbstractStep(Abs(s), Abs(s'))
  {
    hide Log, Appends, Subscribes;
    var n, n' := |s.sessions[i].received|, |s'.sessions[i].received|;
    assert Abs(s').cursors == Abs(s).cursors[i := n'];
    if n' == n {
      assert Abs(s').cursors == Abs(s).cursors;
    } else {
      assert Advances(Abs(s), Abs(s'), i);
    }
  }

  lemma SessionAdvances(s: Sys, i: nat, b: SessionAction)
    requires Inv(s) && Enabled(s, SessionStep(i, b))
    ensures AbstractStep(Abs(s), Abs(Apply(s, SessionStep(i, b))))
  {
    var s' := Apply(s, SessionStep(i, b));
    ReceivedMoves(s.sessions[i], b);
    SessionKeepsLog(s, i, b);
    SessionStepKeeps(s, i, b);
    ReceivedPrefix(s', i);
    hide Inv, SessionApply, SessionEnabled, Log, AbstractStep, Abs;
    OneCursor(s, s', i, SessionApply(s.sessions[i], b));
  }

  /** Offering or releasing does not touch what a client has received. */
  lemma ReceivedKept(x: Session, ev: FrameEvent)
    ensures OfferTo(x, ev).received == x.received && ReleaseFrom(x).received == x.received
  {
  }

  lemma BroadcasterCursors(s: Sys, b: BroadcasterAction)
    requires PipeInv(s.frameCh, s.tracker, s.bcast) && BroadcasterEnabled(s, b) && !b.RequestsEnd?
    ensures var xs, xs' := s.sessions, BroadcasterApply(s, b).sessions;
            && (|xs'| == |xs| || (|xs'| == |xs| + 1 && xs'[|xs|].received == []))
            && forall i :: 0 <= i < |xs| ==> xs'[i].received == xs[i].received
  {
    hide OfferTo, ReleaseFrom;
    forall i | 0 <= i < |s.sessions|
      ensures BroadcasterApply(s, b).sessions[i].received == s.sessions[i].received
    {
      ReceivedKept(s.sessions[i], if s.frameCh.CanRecv() then s.frameCh.buf[0] else EOF);
    }
  }

  lemma SameOrNewCursor(s: Sys, s': Sys)
    requires Log(s') == Log(s)
    requires |s'.sessions| == |s.sessions|
          || (|s'.sessions| == |s.sessions| + 1 && s'.sessions[|s.sessions|].received == [])
    requires forall i :: 0 <= i < |s.sessions| ==> s'.sessions[i].received == s.sessions[i].received
    ensures AbstractStep(Abs(s), Abs(s'))
  {
    hide Log, Appends, Advances;
    if |s'.sessions| == |s.sessions| {
      assert Abs(s').cursors == Abs(s).cursors;
    } else {
      assert Abs(s').cursors == Abs(s).cursors + [0];
    }
  }

  lemma BroadcasterRefines(s: Sys, b: BroadcasterAction)
    requires Inv(s) && BroadcasterEnabled(s, b)
    ensures AbstractStep(Abs(s), Abs(BroadcasterApply(s, b)))
  {
    PipeOf(s);
    RequestsNeverEnd(s);
    BroadcasterKeepsLog(s, b);
    hide Inv, StreamInv, TrackerInv, PipeInv, Log, BroadcasterApply, BroadcasterEnabled, AbstractStep, Abs;
    BroadcasterCursors(s, b);
    SameOrNewCursor(s, BroadcasterApply(s, b));
  }

  lemma StepRefinesFrom(s: Sys, a: Action)
    requires Inv(s) && Enabled(s, a)
    ensures AbstractStep(Abs(s), Abs(Apply(s, a)))
  {
    hide Inv, Log, Unsealed;
    match a
    case SessionStep(i, b) => SessionAdvances(s, i, b);
    case BroadcasterStep(b) => BroadcasterRefines(s, b);
    case _ => {
      LogOnlyGrows(s, a);
      OthersLeaveSessions(s, a);
      hide Enabled, Apply;
      assert Abs(Apply(s, a)).cursors == Abs(s).cursors;
    }
  }

  /** Every step of the pipeline appends to the log, adds a cursor at its start, advances one cursor,
      or leaves log and cursors alone. */
  lemma StepRefines(s: Sys, a: Action)
    requires Reachable(s) && Enabled(s, a)
    ensures AbstractStep(Abs(s), Abs(Apply(s, a)))
  {
    ReachableInv(s);
    hide *;
    StepRefinesFrom(s, a);
  }

  ghost predicate AbstractRun(run: seq<AbstractLog>) {
    && |run| > 0
    && forall n :: 0 <= n < |run| - 1 ==> AbstractStep(run[n], run[n + 1])
  }

  /** The abstract states along a run. */
  function Trace(s: Sys, acts: seq<Action>): seq<AbstractLog>
    requires CanRun(s, acts)
    decreases |acts|
  {
    [Abs(s)] + if |acts| == 0 then [] else Trace(Apply(s, acts[0]), acts[1..])
  }

  lemma {:induction false} RunRefinesFrom(s: Sys, acts: seq<Action>)
    requires Inv(s) && CanRun(s, acts)
    ensures AbstractRun(Trace(s, acts))
    decreases |acts|
  {
    hide *;
    if |acts| > 0 {
      RunUnfolds(s, acts);
      StepRefinesFrom(s, acts[0]);
      StepKeepsInv(s, acts[0]);
      RunRefinesFrom(Apply(s, acts[0]), acts[1..]);
      TraceUnfolds(s, acts);
      TraceStarts(Apply(s, acts[0]), acts[1..]);
      AbstractRunFolds(Abs(s), Trace(Apply(s, acts[0]), acts[1..]));
    } else {
      assert acts == [];
      TraceOfNone(s);
    }
  }

  lemma TraceUnfolds(s: Sys, acts: seq<Action>)
    requires |acts| > 0 && CanRun(s, acts) && Enabled(s, acts[0]) && CanRun(Apply(s, acts[0]), acts[1..])
    ensures Trace(s, acts) == [Abs(s)] + Trace(Apply(s, acts[0]), acts[1..])
  {
    hide Enabled, Apply, Abs;
  }

  lemma TraceStarts(s: Sys, acts: seq<Action>)
    requires CanRun(s, acts)
    ensures |Trace(s, acts)| > 0 && Trace(s, acts)[0] == Abs(s)
  {
    hide Enabled, Apply, Abs;
  }

  lemma TraceOfNone(s: Sys)
    ensures CanRun(s, []) && AbstractRun(Trace(s, []))
  {
    hide Abs;
  }

  lemma AbstractRunFolds(a: AbstractLog, rest: seq<AbstractLog>)
    requires AbstractRun(rest) && AbstractStep(a, rest[0])
    ensures AbstractRun([a] + rest)
  {
    hide AbstractStep;
    var run := [a] + rest;
    forall n | 0 <= n < |run| - 1 ensures AbstractStep(run[n], run[n + 1]) {
      if n > 0 {
        assert run[n] == rest[n - 1] && run[n + 1] == rest[n];
      }
    }
  }

  /** Every run of the pipeline is a run of the append-only log. */
  lemma PipelineRefinesLog(s0: Sys, acts: seq<Action>)
    requires Init(s0) && CanRun(s0, acts)
    ensures AbstractInit(Trace(s0, acts)[0]) && AbstractRun(Trace(s0, acts))
  {
    InitInv(s0);
    RunRefinesFrom(s0, acts);
  }

  /** And what each client has received is the part of the log before its cursor. */
  lemma CursorReadsLog(s: Sys, i: nat)
    requires Reachable(s) && i < |s.sessions|
    ensures Abs(s).cursors[i] <= |Abs(s).log|
    ensures s.sessions[i].received == Abs(s).log[..Abs(s).cursors[i]]
  {
    ReachableInv(s);
    hide Inv, Log, Reachable;
    ReceivedPrefix(s, i);
    TakePrefix(s.sessions[i].received, Log(s));
  }

  lemma TakePrefix(part: seq<FrameEvent>, whole: seq<FrameEvent>)
    requires part <= whole
    ensures |part| <= |whole| && whole[..|part|] == part
  {
  }
}
