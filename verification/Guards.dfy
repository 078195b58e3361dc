/** When each step of the pipeline is possible. In every reachable state a step's guard comes down to the few
    facts named here, so that no arm that is ready is ever switched off. */
module Guards {
  import opened Channels
  import opened Events
  import opened Readers
  import opened Tracker
  import opened Sessions
  import opened System
  import opened Sums
  import opened Invariant
  import opened LogTheorems
  import opened KillTheorems

  /** The select: an arm can be taken exactly when what it waits for is there, and taking it leads to handling
      just that. A queued request goes to the child's kill whatever else there is; whatever the child
      reports is heard while it has not been waited for; the message at the head of a stream is sent on or
      ends the loop; a stream is switched off exactly when it has been read to its end. */
  lemma SelectArms(s: Sys)
    requires Reachable(s) && s.tracker.pc.Select?
    ensures Enabled(s, TrackerStep(RecvKill)) <==> |s.killCh.buf| > 0
    ensures |s.killCh.buf| > 0 ==> Apply(s, TrackerStep(RecvKill)).tracker.pc == Killing(s.killCh.buf[0])
    ensures forall result :: Enabled(s, TrackerStep(WaitReturns(result))) <==> s.tracker.childOk
    ensures forall result :: s.tracker.childOk ==>
              && !Apply(s, TrackerStep(WaitReturns(result))).tracker.childOk
              && Apply(s, TrackerStep(WaitReturns(result))).tracker.pc
                 == match result
                    case ExitedWith(status) => RecordExit(status)
                    case WaitFails(err) => SendFinal(Error(WaitChild(err)))
    ensures OutputArms(s, Stdout, s.stdout, s.tracker.stdoutOk)
    ensures OutputArms(s, Stderr, s.stderr, s.tracker.stderrOk)
  {
    ReachableInv(s);
    hide Reachable, Inv;
    KillArm(s);
    WaitArm(s);
    OutputArm(s, Stdout);
    OutputArm(s, Stderr);
  }

  /** The arms of one stream, `on` saying that it has not been switched off. */
  ghost predicate OutputArms(s: Sys, k: StreamKind, r: Reader, on: bool)
    requires s.tracker.pc.Select?
  {
    && (Enabled(s, TrackerStep(RecvFrame(k))) <==> on && |r.ch.buf| > 0)
    && (on && |r.ch.buf| > 0 ==>
          Apply(s, TrackerStep(RecvFrame(k))).tracker.pc
          == match r.ch.buf[0]
             case Good(frame) => SendFrame(Data(frame))
             case Bad(err) => SendFinal(Error(err)))
    && (Enabled(s, TrackerStep(StreamEnds(k))) <==> on && |r.ch.buf| == 0 && r.pc.Finished?)
    && (on && |r.ch.buf| == 0 && r.pc.Finished? ==>
          var t, t' := s.tracker, Apply(s, TrackerStep(StreamEnds(k))).tracker;
          && t'.stdoutOk == (t.stdoutOk && !k.Stdout?) && t'.stderrOk == (t.stderrOk && !k.Stderr?)
          && t'.childOk == t.childOk)
  }

  lemma KillArm(s: Sys)
    requires Inv(s) && s.tracker.pc.Select?
    ensures Enabled(s, TrackerStep(RecvKill)) <==> |s.killCh.buf| > 0
    ensures |s.killCh.buf| > 0 ==> Apply(s, TrackerStep(RecvKill)).tracker.pc == Killing(s.killCh.buf[0])
  {
    PipeOf(s);
    hide Inv, PipeInv, StreamInv;
  }

  lemma WaitArm(s: Sys)
    requires s.tracker.pc.Select?
    ensures forall result :: Enabled(s, TrackerStep(WaitReturns(result))) <==> s.tracker.childOk
    ensures forall result :: s.tracker.childOk ==>
              && !Apply(s, TrackerStep(WaitReturns(result))).tracker.childOk
              && Apply(s, TrackerStep(WaitReturns(result))).tracker.pc
                 == match result
                    case ExitedWith(status) => RecordExit(status)
                    case WaitFails(err) => SendFinal(Error(WaitChild(err)))
  {
  }

  lemma OutputArm(s: Sys, k: StreamKind)
    requires Inv(s) && s.tracker.pc.Select?
    ensures OutputArms(s, k, if k.Stdout? then s.stdout else s.stderr,
                       if k.Stdout? then s.tracker.stdoutOk else s.tracker.stderrOk)
  {
    hide Inv, Enabled, Apply;
    EndOfOutput(s, k);
    OutputEnabled(s, k);
    OutputTaken(s, k);
  }

  /** A stream's channel is at its end exactly when its reader has finished and nothing is left in it. */
  lemma EndOfOutput(s: Sys, k: StreamKind)
    requires Inv(s)
    ensures ReaderOf(s, k).ch.AtEnd() <==> |ReaderOf(s, k).ch.buf| == 0 && ReaderOf(s, k).pc.Finished?
  {
    PipeOf(s);
    hide Inv, PipeInv, TrackerInv, FlowInv, ReadErrorInv, BytesOf, FrameOk;
  }

  lemma OutputEnabled(s: Sys, k: StreamKind)
    requires s.tracker.pc.Select?
    ensures Enabled(s, TrackerStep(RecvFrame(k))) <==>
              (if k.Stdout? then s.tracker.stdoutOk else s.tracker.stderrOk) && |ReaderOf(s, k).ch.buf| > 0
    ensures Enabled(s, TrackerStep(StreamEnds(k))) <==>
              (if k.Stdout? then s.tracker.stdoutOk else s.tracker.stderrOk) && ReaderOf(s, k).ch.AtEnd()
  {
    hide ReaderEnabled, BroadcasterEnabled, SessionEnabled, RequestEnabled, KillEnabled, Chan.AtEnd;
  }

  lemma OutputTaken(s: Sys, k: StreamKind)
    requires s.tracker.pc.Select?
    ensures Enabled(s, TrackerStep(RecvFrame(k))) ==>
              && |ReaderOf(s, k).ch.buf| > 0
              && Apply(s, TrackerStep(RecvFrame(k))).tracker.pc
                 == match ReaderOf(s, k).ch.buf[0]
                    case Good(frame) => SendFrame(Data(frame))
                    case Bad(err) => SendFinal(Error(err))
    ensures Enabled(s, TrackerStep(StreamEnds(k))) ==>
              var t, t' := s.tracker, Apply(s, TrackerStep(StreamEnds(k))).tracker;
              && t'.stdoutOk == (t.stdoutOk && !k.Stdout?) && t'.stderrOk == (t.stderrOk && !k.Stderr?)
              && t'.childOk == t.childOk
  {
    hide ReaderEnabled, ReaderApply, BroadcasterEnabled, BroadcasterApply, SessionEnabled, SessionApply, RequestEnabled,
         RequestApply, KillEnabled, KillApply;
  }

  /** The tracker's other awaits: it can send while fewer than two events are queued, the child's kill can
      return in any way its contract allows, and the lock can always be taken. */
  lemma AwaitGuards(s: Sys)
    requires Reachable(s)
    ensures Enabled(s, TrackerStep(FrameSent)) <==> s.tracker.pc.SendFrame? && |s.frameCh.buf| < 2
    ensures Enabled(s, TrackerStep(FinalSent)) <==> s.tracker.pc.SendFinal? && |s.frameCh.buf| < 2
    ensures forall err :: Enabled(s, TrackerStep(KillReturns(err))) <==>
              s.tracker.pc.Killing? && !(s.contract && err.None? && !s.tracker.childOk)
    ensures forall at :: Enabled(s, TrackerStep(MarkKill(at))) <==> s.tracker.pc.MarkKilled?
    ensures forall at :: Enabled(s, TrackerStep(RecordEnd(at))) <==> s.tracker.pc.RecordExit?
    ensures Enabled(s, TrackerStep(Stop)) <==> s.tracker.pc.StoreResult?
  {
    hide *;
    ReachableInv(s);
    SendGuards(s);
    AwaitEnabled(s);
  }

  lemma AwaitEnabled(s: Sys)
    ensures Enabled(s, TrackerStep(FrameSent)) <==> s.tracker.pc.SendFrame? && s.frameCh.CanSend()
    ensures Enabled(s, TrackerStep(FinalSent)) <==> s.tracker.pc.SendFinal? && s.frameCh.CanSend()
    ensures forall err :: Enabled(s, TrackerStep(KillReturns(err))) <==>
              s.tracker.pc.Killing? && !(s.contract && err.None? && !s.tracker.childOk)
    ensures forall at :: Enabled(s, TrackerStep(MarkKill(at))) <==> s.tracker.pc.MarkKilled?
    ensures forall at :: Enabled(s, TrackerStep(RecordEnd(at))) <==> s.tracker.pc.RecordExit?
    ensures Enabled(s, TrackerStep(Stop)) <==> s.tracker.pc.StoreResult?
  {
    hide ReaderEnabled, BroadcasterEnabled, SessionEnabled, RequestEnabled, KillEnabled, Chan.CanSend;
  }

  lemma SendGuards(s: Sys)
    requires Inv(s)
    ensures s.frameCh.CanSend() <==> |s.frameCh.buf| < 2
  {
    PipeOf(s);
    hide Inv, StreamInv, TrackerInv;
  }

  /** The broadcaster takes an event whenever one is queued, and a request whenever one is, whatever its relays
      do; it sees its source close exactly when the tracker has ended and nothing is left. */
  lemma BroadcasterGuards(s: Sys)
    requires Reachable(s)
    ensures Enabled(s, BroadcasterStep(BcastFrame)) <==> |s.frameCh.buf| > 0
    ensures Enabled(s, BroadcasterStep(BcastRequest)) <==> |s.reqCh.buf| > 0
    ensures Enabled(s, BroadcasterStep(FramesEnd)) <==>
              s.bcast.frameRxOk && |s.frameCh.buf| == 0 && s.tracker.pc.Stopped?
  {
    ReachableInv(s);
    PipeOf(s);
    hide Reachable, Inv, StreamInv, TrackerInv, ReaderEnabled, TrackerEnabled, SessionEnabled, RequestEnabled,
         KillEnabled;
  }

  /** A read can return any number of bytes from 1 to 1024 that are left; it ends exactly when none are; and a
      message can be sent while fewer than sixteen wait. */
  lemma ReaderGuards(s: Sys, k: StreamKind)
    requires Reachable(s)
    ensures var r := if k.Stdout? then s.stdout else s.stderr;
            && (forall n: nat :: Enabled(s, ReaderStep(k, Read(n))) <==>
                  r.pc.Reading? && 1 <= n <= |r.rest| && n <= 1024)
            && (Enabled(s, ReaderStep(k, End)) <==> r.pc.Reading? && |r.rest| == 0)
            && (Enabled(s, ReaderStep(k, Deliver)) <==>
                  r.pc.Sending? && |r.ch.buf| < 16 && !s.tracker.pc.Stopped?)
            && (Enabled(s, ReaderStep(k, DeliverFails)) <==> r.pc.Sending? && s.tracker.pc.Stopped?)
  {
    hide *;
    ReachableInv(s);
    PipeOf(s);
    ReaderEnabledIs(s, k);
  }

  lemma ReaderEnabledIs(s: Sys, k: StreamKind)
    requires StreamInv(s.stdout, Stdout, Log(s), s.tracker) && StreamInv(s.stderr, Stderr, Log(s), s.tracker)
    ensures var r := if k.Stdout? then s.stdout else s.stderr;
            && (forall n: nat :: Enabled(s, ReaderStep(k, Read(n))) <==>
                  r.pc.Reading? && 1 <= n <= |r.rest| && n <= 1024)
            && (Enabled(s, ReaderStep(k, End)) <==> r.pc.Reading? && |r.rest| == 0)
            && (Enabled(s, ReaderStep(k, Deliver)) <==>
                  r.pc.Sending? && |r.ch.buf| < 16 && !s.tracker.pc.Stopped?)
            && (Enabled(s, ReaderStep(k, DeliverFails)) <==> r.pc.Sending? && s.tracker.pc.Stopped?)
  {
    hide FlowInv, ReadErrorInv, BytesOf, FrameOk, Log, TrackerEnabled, BroadcasterEnabled, SessionEnabled,
         RequestEnabled, KillEnabled;
  }

  /** Log requests: anybody may ask; a request is sent when the queue is empty; a caller may leave at any time. */
  lemma RequestGuards(s: Sys, r: nat)
    requires Reachable(s)
    ensures Enabled(s, RequestStep(NewRequest))
    ensures Enabled(s, RequestStep(SendRequest(r))) <==>
              r < |s.reqs| && s.reqs[r].phase.Unsent? && |s.reqCh.buf| == 0
    ensures Enabled(s, RequestStep(LeaveRequest(r))) <==> r < |s.reqs| && s.reqs[r].caller
    ensures !Enabled(s, RequestStep(RequestRejected(r)))
  {
    ReachableInv(s);
    RequestsOf(s);
    hide Reachable, Inv, Sum, ReaderEnabled, TrackerEnabled, BroadcasterEnabled, SessionEnabled, KillEnabled;
  }

  /** Kill requests: the owner may ask at any time; a request is sent when the queue is empty, and refused
      exactly when the tracker has ended. */
  lemma KillGuards(s: Sys, k: nat)
    requires Reachable(s)
    ensures forall user :: Enabled(s, KillStep(NewKill(user))) <==> user == s.job.user
    ensures Enabled(s, KillStep(SendKill(k))) <==>
              k < |s.kills| && s.kills[k].phase.KillUnsent? && |s.killCh.buf| == 0 && !s.tracker.pc.Stopped?
    ensures Enabled(s, KillStep(KillRejected(k))) <==>
              k < |s.kills| && s.kills[k].phase.KillUnsent? && s.tracker.pc.Stopped?
    ensures Enabled(s, KillStep(LeaveKill(k))) <==> k < |s.kills| && s.kills[k].caller
  {
    hide *;
    ReachableInv(s);
    KillsOf(s);
    KillEnabledIs(s, k);
  }

  lemma KillEnabledIs(s: Sys, k: nat)
    requires KillsInv(s.tracker, s.killCh, s.kills, s.job, s.contract)
    ensures forall user :: Enabled(s, KillStep(NewKill(user))) <==> user == s.job.user
    ensures Enabled(s, KillStep(SendKill(k))) <==>
              k < |s.kills| && s.kills[k].phase.KillUnsent? && |s.killCh.buf| == 0 && !s.tracker.pc.Stopped?
    ensures Enabled(s, KillStep(KillRejected(k))) <==>
              k < |s.kills| && s.kills[k].phase.KillUnsent? && s.tracker.pc.Stopped?
    ensures Enabled(s, KillStep(LeaveKill(k))) <==> k < |s.kills| && s.kills[k].caller
  {
    hide LineInv, Sum, ReaderEnabled, TrackerEnabled, BroadcasterEnabled, SessionEnabled, RequestEnabled;
    if k < |s.kills| {
      assert KillInv(s.kills[k], s.tracker, s.job, s.contract);
    }
  }

  /** One client: the relay takes an event whenever one waits for it, and sends its oldest whenever fewer than
      1024 wait for the client, both whatever the other; it gives up exactly when its client is gone. The
      forwarder takes the next event when it has none in hand, and passes its item on when the client has
      taken the last. */
  lemma SessionGuards(s: Sys, i: nat)
    requires Reachable(s) && i < |s.sessions|
    ensures var x := s.sessions[i];
            && (Enabled(s, SessionStep(i, RelayRecv)) <==> x.relay.pc.Looping? && |x.input.buf| > 0)
            && (Enabled(s, SessionStep(i, RelaySend)) <==>
                  x.relay.pc.Looping? && x.relay.Backlog() != [] && x.output.open && |x.output.buf| < 1024)
            && (Enabled(s, SessionStep(i, RelaySendFails)) <==>
                  x.relay.pc.Looping? && x.relay.Backlog() != [] && !x.output.open)
            && (Enabled(s, SessionStep(i, StartForward)) <==> x.fwd.Opening?)
            && (Enabled(s, SessionStep(i, ForwardRecv)) <==> x.fwd.Receiving? && |x.output.buf| > 0)
            && (Enabled(s, SessionStep(i, ForwardSend)) <==>
                  x.fwd.Delivering? && x.stream.open && |x.stream.buf| == 0)
            && (Enabled(s, SessionStep(i, ForwardSendFails)) <==> x.fwd.Delivering? && !x.stream.open)
            && (Enabled(s, SessionStep(i, ClientRecv)) <==> x.stream.open && |x.stream.buf| > 0)
            && (Enabled(s, SessionStep(i, ClientLeave)) <==> x.stream.open)
  {
    ReachableInv(s);
    hide *;
    SessionOf(s, i);
    SessionStepEnabled(s, i);
    GuardsOfSession(s.bcast.frames, s.bcast.frameRxOk, s.sessions[i]);
  }

  lemma SessionStepEnabled(s: Sys, i: nat)
    requires i < |s.sessions|
    ensures forall a :: Enabled(s, SessionStep(i, a)) <==> SessionEnabled(s.sessions[i], a)
  {
    hide SessionEnabled;
  }

  lemma GuardsOfSession(frames: seq<FrameEvent>, live: bool, x: Session)
    requires SessionInv(frames, live, x)
    ensures SessionEnabled(x, RelayRecv) <==> x.relay.pc.Looping? && |x.input.buf| > 0
    ensures SessionEnabled(x, RelaySend) <==>
              x.relay.pc.Looping? && x.relay.Backlog() != [] && x.output.open && |x.output.buf| < 1024
    ensures SessionEnabled(x, RelaySendFails) <==>
              x.relay.pc.Looping? && x.relay.Backlog() != [] && !x.output.open
    ensures SessionEnabled(x, StartForward) <==> x.fwd.Opening?
    ensures SessionEnabled(x, ForwardRecv) <==> x.fwd.Receiving? && |x.output.buf| > 0
    ensures SessionEnabled(x, ForwardSend) <==> x.fwd.Delivering? && x.stream.open && |x.stream.buf| == 0
    ensures SessionEnabled(x, ForwardSendFails) <==> x.fwd.Delivering? && !x.stream.open
    ensures SessionEnabled(x, ClientRecv) <==> x.stream.open && |x.stream.buf| > 0
    ensures SessionEnabled(x, ClientLeave) <==> x.stream.open
  {
    hide RelayInv, ForwardInv;
    RefillTakesOldest(x.relay);
  }

  // What the code does where the whole system never gets: were a task's own sender not kept, these arms
  // would be taken.

  /** A relay whose input closes goes on to drain what it still holds; draining sends the oldest event, or lets
      it go once the client is gone, until nothing is left, and then the relay ends. */
  lemma DrainArms(x: Session)
    ensures SessionEnabled(x, RelayClosed) <==>
              x.relay.pc.Looping? && |x.input.buf| == 0 && x.input.senders == 0
    ensures SessionEnabled(x, RelayClosed) ==>
              var x' := SessionApply(x, RelayClosed);
              x'.relay.pc.Draining? && x'.relay.Backlog() == x.relay.Backlog() && x' == x.(relay := x'.relay)
    ensures SessionEnabled(x, DrainSend) <==>
              && x.relay.pc.Draining? && x.relay.Backlog() != []
              && (!x.output.open || |x.output.buf| < x.output.cap)
    ensures SessionEnabled(x, DrainSend) ==>
              var x' := SessionApply(x, DrainSend);
              && x'.relay.pc.Draining? && x'.relay.Backlog() == x.relay.Backlog()[1..]
              && (x.output.open ==>
                    && x'.output.buf == x.output.buf + [x.relay.Backlog()[0]]
                    && x'.relayed == x.relayed + [x.relay.Backlog()[0]])
              && (!x.output.open ==> x'.output == x.output && x'.relayed == x.relayed)
    ensures SessionEnabled(x, DrainDone) <==> x.relay.pc.Draining? && x.relay.Backlog() == []
    ensures SessionEnabled(x, DrainDone) ==>
              var x' := SessionApply(x, DrainDone);
              x'.relay.pc.Ended? && !x'.input.open && x'.relayed == x.relayed
  {
    RefillTakesOldest(x.relay);
    RefillKeepsBacklog(x.relay);
  }

  /** A forwarder whose log stops without a terminal event reports that, as the last item. */
  lemma ForwardClosedReports(x: Session)
    ensures SessionEnabled(x, ForwardClosed) <==>
              x.fwd.Receiving? && |x.output.buf| == 0 && x.output.senders == 0
    ensures SessionEnabled(x, ForwardClosed) ==>
              SessionApply(x, ForwardClosed) == x.(fwd := Delivering(Err(StreamTerminated), true))
  {
  }

  /** A client that goes away leaves at once: what was queued for it is discarded, and if its response had not
      been handed over yet there is no forwarder either. */
  lemma LeavingDiscards(x: Session)
    requires x.stream.open
    ensures var x' := SessionApply(x, ClientLeave);
            && !x'.stream.open && x'.stream.buf == [] && x'.got == x.got && x'.received == x.received
            && x'.relay == x.relay
            && (if x.fwd.Opening? then x'.fwd.Closed? && !x'.output.open else x'.fwd == x.fwd && x'.output == x.output)
  {
  }

  /** A broadcaster that neither events nor requests can reach leaves its loop, and drops its receivers and all
      its relays. */
  lemma LeavingLoop(s: Sys)
    ensures AfterLoopHead(s).bcast.running <==> s.bcast.frameRxOk || s.bcast.reqRxOk
    ensures !s.bcast.frameRxOk && !s.bcast.reqRxOk ==>
              var s' := AfterLoopHead(s);
              && !s'.frameCh.open && !s'.reqCh.open && |s'.sessions| == |s.sessions|
              && forall i :: 0 <= i < |s.sessions| ==> !s'.sessions[i].link.Tracked?
  {
  }

  /** How requests come to their ends without an answer: withdrawn if their caller left before sending them,
      refused if they could not be sent; a caller that leaves changes nothing else about its request. */
  lemma Unanswered(s: Sys, r: nat, k: nat)
    ensures Enabled(s, RequestStep(LeaveRequest(r))) ==>
              Apply(s, RequestStep(LeaveRequest(r))).reqs[r]
              == LogRequest(if s.reqs[r].phase.Unsent? then Withdrawn else s.reqs[r].phase, false)
    ensures Enabled(s, RequestStep(RequestRejected(r))) ==>
              Apply(s, RequestStep(RequestRejected(r))).reqs[r] == LogRequest(Refused, false)
    ensures Enabled(s, KillStep(LeaveKill(k))) ==>
              Apply(s, KillStep(LeaveKill(k))).kills[k]
              == System.Kill(s.kills[k].user,
                             if s.kills[k].phase.KillUnsent? then KillWithdrawn else s.kills[k].phase, false)
    ensures Enabled(s, KillStep(KillRejected(k))) ==>
              Apply(s, KillStep(KillRejected(k))).kills[k] == System.Kill(s.kills[k].user, KillRefused, false)
  {
    hide ReaderEnabled, ReaderApply, TrackerEnabled, TrackerApply, BroadcasterEnabled, BroadcasterApply, SessionEnabled,
         SessionApply;
  }
}
