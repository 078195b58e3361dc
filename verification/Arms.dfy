/** What the select can still be brought to: a queued kill to the child, the child's end to the tracker, a
    stream's message to the log. */
module Arms {
  import opened Events
  import opened Readers
  import opened Tracker
  import opened System
  import opened Invariant
  import opened LogTheorems
  import opened Observers
  import opened KillTheorems
  import opened Progress
  import opened Guards

  /** The tracker has not left its loop, and does not leave it on noting the exit. */
  predicate WillSelect(t: Tracker) {
    !t.Finishing() && (t.pc.RecordExit? ==> t.stdoutOk || t.stderrOk)
  }

  /** What the arms of the select depend on is the same. */
  predicate SameArms(s: Sys, s': Sys) {
    && s'.killCh == s.killCh && s'.stdout == s.stdout && s'.stderr == s.stderr
    && s'.tracker.stdoutOk == s.tracker.stdoutOk && s'.tracker.stderrOk == s.tracker.stderrOk
    && s'.tracker.childOk == s.tracker.childOk
  }

  predicate JobsOwn(acts: seq<Action>) {
    forall n :: 0 <= n < |acts| ==> Driven(acts[n]) && CoreAction(acts[n])
  }

  /** A step that brings the tracker closer to its select without touching any arm. */
  lemma TowardSelect(s: Sys) returns (a: Action)
    requires Inv(s) && WillSelect(s.tracker) && !s.tracker.pc.Select?
    ensures Driven(a) && CoreAction(a) && !AsksKill(a) && Enabled(s, a)
    ensures SameArms(s, Apply(s, a)) && WillSelect(Apply(s, a).tracker)
  {
    PipeOf(s);
    hide Inv, StreamInv, PipeInv, ReaderEnabled, RequestEnabled, KillEnabled;
    if s.tracker.pc.SendFrame? {
      a := SendOn(s);
    } else {
      a := LockOrKill(s);
    }
  }

  lemma SendOn(s: Sys) returns (a: Action)
    requires Inv(s) && s.tracker.pc.SendFrame?
    ensures Driven(a) && CoreAction(a) && !AsksKill(a) && Enabled(s, a)
    ensures SameArms(s, Apply(s, a)) && WillSelect(Apply(s, a).tracker)
  {
    PipeOf(s);
    hide Inv, StreamInv, Enabled, Apply, SameArms, WillSelect;
    if s.frameCh.CanSend() {
      a := TrackerStep(FrameSent);
      SentArms(s);
    } else {
      a := BroadcasterStep(BcastFrame);
      BcastArms(s);
    }
  }

  lemma SentArms(s: Sys)
    requires TrackerInv(s.tracker, s.job, s.contract) && s.tracker.pc.SendFrame? && s.frameCh.CanSend()
    ensures Enabled(s, TrackerStep(FrameSent))
    ensures var s' := Apply(s, TrackerStep(FrameSent)); SameArms(s, s') && WillSelect(s'.tracker)
  {
  }

  lemma BcastArms(s: Sys)
    requires PipeInv(s.frameCh, s.tracker, s.bcast) && s.tracker.pc.SendFrame? && s.frameCh.CanRecv()
    ensures Enabled(s, BroadcasterStep(BcastFrame))
    ensures var s' := Apply(s, BroadcasterStep(BcastFrame)); SameArms(s, s') && WillSelect(s'.tracker)
  {
    hide FanOut, ReleaseAll;
  }

  lemma LockOrKill(s: Sys) returns (a: Action)
    requires TrackerInv(s.tracker, s.job, s.contract) && WillSelect(s.tracker)
    requires !s.tracker.pc.Select? && !s.tracker.pc.SendFrame?
    ensures Driven(a) && CoreAction(a) && !AsksKill(a) && Enabled(s, a)
    ensures SameArms(s, Apply(s, a)) && WillSelect(Apply(s, a).tracker)
  {
    hide AnswerAll, SetKill;
    match s.tracker.pc
    case Killing(_) => a := TrackerStep(KillReturns(Some(IoError("cannot kill"))));
    case MarkKilled(_) => a := TrackerStep(MarkKill(0));
    case RecordExit(_) => a := TrackerStep(RecordEnd(0));
  }

  lemma JobsOwnFirst(a: Action, rest: seq<Action>)
    requires Driven(a) && CoreAction(a) && JobsOwn(rest)
    ensures JobsOwn([a] + rest)
  {
    hide Driven, CoreAction;
  }

  lemma JobsOwnNone()
    ensures JobsOwn([])
  {
  }

  lemma SameArmsTwice(s: Sys, s': Sys, s'': Sys)
    requires SameArms(s, s') && SameArms(s', s'')
    ensures SameArms(s, s'')
  {
  }

  /** The job's own steps bring the tracker back to its select, every arm as it was. */
  lemma {:induction false} BackToSelect(s: Sys) returns (acts: seq<Action>)
    requires Reachable(s) && WillSelect(s.tracker)
    ensures CanRun(s, acts) && JobsOwn(acts)
    ensures Reachable(After(s, acts)) && After(s, acts).tracker.pc.Select? && SameArms(s, After(s, acts))
    decreases CoreWork(s)
  {
    hide *;
    ReachableInv(s);
    if s.tracker.pc.Select? {
      acts := [];
      EmptyRun(s);
      JobsOwnNone();
      ArmsAreTheirOwn(s);
    } else {
      var a := TowardSelect(s);
      StepCore(s, a);
      ReachesNext(s, a);
      var rest := BackToSelect(Apply(s, a));
      acts := [a] + rest;
      RunFolds(s, a, rest);
      JobsOwnFirst(a, rest);
      SameArmsTwice(s, Apply(s, a), After(s, acts));
    }
  }

  lemma ArmsAreTheirOwn(s: Sys)
    ensures SameArms(s, s)
  {
  }

  /** Once the tracker will not select again, it never does. */
  lemma NoMoreSelect(s: Sys, a: Action)
    requires Inv(s) && Enabled(s, a) && !WillSelect(s.tracker)
    ensures !WillSelect(Apply(s, a).tracker)
  {
    PipeOf(s);
    if a.TrackerStep? {
      hide Inv, StreamInv, PipeInv, AnswerAll, AbandonAll, SetKill;
    } else {
      hide Inv, Enabled, Apply, StreamInv, PipeInv, TrackerInv, WillSelect;
      OthersLeaveJob(s, a);
    }
  }

  lemma {:induction false} NeverSelects(s: Sys, acts: seq<Action>)
    requires Inv(s) && CanRun(s, acts) && !WillSelect(s.tracker)
    ensures !WillSelect(After(s, acts).tracker)
    decreases |acts|
  {
    hide *;
    if |acts| > 0 {
      RunUnfolds(s, acts);
      NoMoreSelect(s, acts[0]);
      StepKeepsInv(s, acts[0]);
      NeverSelects(Apply(s, acts[0]), acts[1..]);
    } else {
      assert acts == [];
      EmptyRun(s);
    }
  }

  lemma KillingWillSelect(t: Tracker)
    ensures t.pc.Killing? || t.pc.Select? ==> WillSelect(t)
  {
  }

  /** Follow a run by one more step. */
  lemma OneMore(s: Sys, acts: seq<Action>, a: Action) returns (all: seq<Action>)
    requires Reachable(s) && CanRun(s, acts) && Enabled(After(s, acts), a)
    ensures all == acts + [a] && CanRun(s, all) && After(s, all) == Apply(After(s, acts), a) && Reachable(After(s, all))
  {
    hide *;
    all := acts + [a];
    RunOneMore(s, acts, a);
    ReachesAfter(s, all);
  }

  /** A queued request to kill the job can be brought to the child's kill by the job's own steps, ... */
  lemma KillReachesChild(s: Sys, k: nat) returns (acts: seq<Action>)
    requires Reachable(s) && k in s.killCh.buf && WillSelect(s.tracker)
    ensures CanRun(s, acts) && JobsOwn(acts) && After(s, acts).tracker.pc == Killing(k)
  {
    OneQueued(s, k);
    var front := BackToSelect(s);
    var e := After(s, front);
    assert SameArms(s, e);
    hide *;
    SelectArms(e);
    acts := OneMore(s, front, TrackerStep(RecvKill));
    KillIsJobsOwn(front);
  }

  lemma OneQueued(s: Sys, k: nat)
    requires Reachable(s) && k in s.killCh.buf
    ensures |s.killCh.buf| > 0 && s.killCh.buf[0] == k
  {
    ReachableInv(s);
    KillsOf(s);
    hide Reachable, Inv, LineInv, KillInv;
  }

  lemma KillIsJobsOwn(front: seq<Action>)
    requires JobsOwn(front)
    ensures JobsOwn(front + [TrackerStep(RecvKill)])
  {
  }

  /** ... unless the tracker will not select again: it has left its loop, or notes an exit after both streams
      have been read to their end. Then no run at all brings the request to the child. */
  lemma KillReachesChildIff(s: Sys, k: nat)
    requires Reachable(s) && k in s.killCh.buf
    ensures (exists acts :: CanRun(s, acts) && After(s, acts).tracker.pc == Killing(k)) <==> WillSelect(s.tracker)
  {
    hide *;
    if WillSelect(s.tracker) {
      var acts := KillReachesChild(s, k);
      assert CanRun(s, acts) && After(s, acts).tracker.pc == Killing(k);
    } else {
      ReachableInv(s);
      forall acts | CanRun(s, acts) ensures After(s, acts).tracker.pc != Killing(k) {
        NeverSelects(s, acts);
        KillingWillSelect(After(s, acts).tracker);
      }
    }
  }

  /** Whatever the child reports of its end can still be heard: while it has not been waited for and the tracker
      will select again, the job's own steps lead to noting just that. */
  lemma EndIsHeard(s: Sys, result: WaitResult) returns (acts: seq<Action>)
    requires Reachable(s) && WillSelect(s.tracker) && s.tracker.childOk
    ensures CanRun(s, acts + [TrackerStep(WaitReturns(result))]) && JobsOwn(acts)
    ensures After(s, acts + [TrackerStep(WaitReturns(result))]).tracker.pc
         == match result
            case ExitedWith(status) => RecordExit(status)
            case WaitFails(err) => SendFinal(Error(WaitChild(err)))
  {
    acts := BackToSelect(s);
    var e := After(s, acts);
    assert SameArms(s, e);
    hide *;
    SelectArms(e);
    var all := OneMore(s, acts, TrackerStep(WaitReturns(result)));
  }

  /** The message at the head of a stream that is still listened to can be taken: a frame to be sent on, an error
      to end the log. */
  lemma MessageIsTaken(s: Sys, k: StreamKind) returns (acts: seq<Action>)
    requires Reachable(s) && WillSelect(s.tracker)
    requires if k.Stdout? then s.tracker.stdoutOk else s.tracker.stderrOk
    requires |ReaderOf(s, k).ch.buf| > 0
    ensures CanRun(s, acts + [TrackerStep(RecvFrame(k))]) && JobsOwn(acts)
    ensures After(s, acts + [TrackerStep(RecvFrame(k))]).tracker.pc
         == match ReaderOf(s, k).ch.buf[0]
            case Good(frame) => SendFrame(Data(frame))
            case Bad(err) => SendFinal(Error(err))
  {
    acts := BackToSelect(s);
    var e := After(s, acts);
    assert SameArms(s, e);
    hide Reachable, CanRun, After, Enabled, Apply, WillSelect, JobsOwn;
    SelectArms(e);
    var all := OneMore(s, acts, TrackerStep(RecvFrame(k)));
  }
}
