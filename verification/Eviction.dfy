/** A listening client is served to the end if and only if its relay is not evicted, and eviction does
    happen to a client whose relay is merely not scheduled in time. */
module Eviction {
  import opened Channels
  import opened Events
  import opened Readers
  import opened Tracker
  import opened Sessions
  import opened System
  import opened Invariant
  import opened LogTheorems
  import opened EndToEnd
  import opened Progress

  /** Once nothing driven can happen any more for a listening client, it has its whole response exactly when
      its relay was not evicted. An evicted client is not told: its response never ends. */
  lemma ServedIffNotEvicted(s: Sys, i: nat)
    requires Reachable(s) && i < |s.sessions| && NothingFor(s, i)
    requires var x := s.sessions[i]; x.stream.open && x.relay.pc.Looping?
    ensures ResponseComplete(s.sessions[i]) <==> !s.sessions[i].link.Evicted?
  {
    ReachableInv(s);
    GotOf(s, i);
    hide Inv, Reachable, NothingFor, ResponseComplete, Sealed, Log, Chain;
    if s.sessions[i].link.Evicted? {
      EvictedHoldsStrictPrefix(s, i);
    } else {
      ServedWhenIdle(s, i);
    }
  }

  /** In this run some event was fanned out while the relay had 1024 unread ones. */
  predicate MetFull(s: Sys, acts: seq<Action>, i: nat)
    requires CanRun(s, acts)
    decreases |acts|
  {
    |acts| > 0
    && (FansOutFull(s, acts[0], i) || MetFull(Apply(s, acts[0]), acts[1..], i))
  }

  predicate FansOutFull(s: Sys, a: Action, i: nat) {
    a == BroadcasterStep(BcastFrame) && i < |s.sessions| && |s.sessions[i].input.buf| == RELAY_CAP
  }

  lemma MetFullUnfolds(s: Sys, acts: seq<Action>, i: nat)
    requires |acts| > 0 && CanRun(s, acts) && Enabled(s, acts[0]) && CanRun(Apply(s, acts[0]), acts[1..])
    ensures MetFull(s, acts, i) <==> FansOutFull(s, acts[0], i) || MetFull(Apply(s, acts[0]), acts[1..], i)
  {
    hide Enabled, Apply, FansOutFull;
  }

  lemma NothingMet(s: Sys, i: nat)
    ensures CanRun(s, []) && !MetFull(s, [], i)
  {
  }

  /** A session that is not there yet, or has not been evicted. */
  predicate Unevicted(s: Sys, i: nat) {
    i < |s.sessions| ==> !s.sessions[i].link.Evicted?
  }

  predicate Runs(s: Sys, i: nat) {
    i < |s.sessions| && s.sessions[i].relay.pc.Looping?
  }

  /** A relay that runs after a step ran before it, or has just been started. */
  lemma RanBefore(s: Sys, a: Action, i: nat)
    requires Reachable(s) && Enabled(s, a) && Runs(Apply(s, a), i) && i < |s.sessions|
    ensures Runs(s, i)
  {
    ReachableInv(s);
    hide *;
    StepMovesSession(s, a, i);
    RunningMove(s, a, s.sessions[i], Apply(s, a).sessions[i], i);
    RunsIs(s, i);
    RunsIs(Apply(s, a), i);
  }

  lemma RunsIs(s: Sys, i: nat)
    ensures Runs(s, i) <==> i < |s.sessions| && s.sessions[i].relay.pc.Looping?
  {
  }

  lemma RunningMove(s: Sys, a: Action, x: Session, x': Session, i: nat)
    requires SessionMoves(s, a, x, x', i) && x'.relay.pc.Looping?
    ensures x.relay.pc.Looping?
  {
    hide SessionApply, SessionEnabled;
    if a.SessionStep? && a.i == i {
      SessionStepFrame(x, a.s);
    }
  }

  /** A session starts out unevicted. */
  lemma StartsUnevicted(s: Sys, a: Action, i: nat)
    requires Inv(s) && Enabled(s, a) && |s.sessions| <= i
    ensures Unevicted(Apply(s, a), i)
  {
    hide Inv, ReaderEnabled, ReaderApply, TrackerEnabled, TrackerApply, SessionEnabled, SessionApply, RequestEnabled,
         RequestApply, KillEnabled, KillApply, BroadcasterEnabled, BroadcasterApply;
    if a.BroadcasterStep? {
      BroadcasterStartsUnevicted(s, a.b, i);
    } else if !a.SessionStep? {
      OthersLeaveSessions(s, a);
    }
  }

  lemma BroadcasterStartsUnevicted(s: Sys, b: BroadcasterAction, i: nat)
    requires BroadcasterEnabled(s, b) && |s.sessions| <= i
    ensures Unevicted(BroadcasterApply(s, b), i)
  {
    hide OfferTo, ReleaseFrom;
  }

  /** One step evicts a running relay, or one just started, exactly if it fans out to it when it is full. */
  lemma StepEvictsIff(s: Sys, a: Action, i: nat)
    requires Reachable(s) && Enabled(s, a) && Unevicted(s, i) && Runs(Apply(s, a), i)
    ensures Apply(s, a).sessions[i].link.Evicted? <==> FansOutFull(s, a, i)
  {
    hide Reachable, Enabled, Apply;
    if i < |s.sessions| {
      RanBefore(s, a, i);
      EvictedIffFull(s, a, i);
    } else {
      ReachableInv(s);
      StartsUnevicted(s, a, i);
    }
  }

  lemma EvictionStays(s: Sys, a: Action, i: nat)
    requires Reachable(s) && Enabled(s, a) && Runs(s, i) && s.sessions[i].link.Evicted?
    ensures i < |Apply(s, a).sessions| && Apply(s, a).sessions[i].link.Evicted?
  {
    hide Reachable, Enabled, Apply, Chain;
    EvictedStaysFrozen(s, a, i);
  }

  /** A relay that runs after a run ran all along, since it was started. */
  lemma {:induction false} RanAllAlong(s: Sys, acts: seq<Action>, i: nat)
    requires Reachable(s) && CanRun(s, acts) && Runs(After(s, acts), i) && i < |s.sessions|
    ensures Runs(s, i)
    decreases |acts|
  {
    hide *;
    if |acts| > 0 {
      RunUnfolds(s, acts);
      ReachesNext(s, acts[0]);
      ReachableInv(s);
      StepMovesSession(s, acts[0], i);
      RanAllAlong(Apply(s, acts[0]), acts[1..], i);
      RanBefore(s, acts[0], i);
    } else {
      assert acts == [];
      EmptyRun(s);
    }
  }

  lemma {:induction false} StaysEvicted(s: Sys, acts: seq<Action>, i: nat)
    requires Reachable(s) && CanRun(s, acts) && Runs(s, i) && s.sessions[i].link.Evicted?
    requires Runs(After(s, acts), i)
    ensures i < |After(s, acts).sessions| && After(s, acts).sessions[i].link.Evicted?
    decreases |acts|
  {
    hide *;
    RunsIs(s, i);
    if |acts| > 0 {
      RunUnfolds(s, acts);
      ReachesNext(s, acts[0]);
      EvictionStays(s, acts[0], i);
      RanAllAlong(Apply(s, acts[0]), acts[1..], i);
      StaysEvicted(Apply(s, acts[0]), acts[1..], i);
    } else {
      assert acts == [];
      EmptyRun(s);
    }
  }

  lemma UnevictedIs(s: Sys, i: nat)
    ensures Unevicted(s, i) <==> (i < |s.sessions| ==> !s.sessions[i].link.Evicted?)
  {
  }

  /** Over whole runs: a relay that still runs at the end, whether it was there at the start or was started in
      the run, has been evicted in it if and only if some event of the run was fanned out while the relay
      had 1024 unread ones. */
  lemma {:induction false} EvictedIffMetFull(s: Sys, acts: seq<Action>, i: nat)
    requires Reachable(s) && CanRun(s, acts) && Unevicted(s, i) && Runs(After(s, acts), i)
    ensures i < |After(s, acts).sessions|
    ensures After(s, acts).sessions[i].link.Evicted? <==> MetFull(s, acts, i)
    decreases |acts|
  {
    hide *;
    RunsIs(After(s, acts), i);
    if |acts| > 0 {
      RunUnfolds(s, acts);
      var a, s' := acts[0], Apply(s, acts[0]);
      MetFullUnfolds(s, acts, i);
      ReachesNext(s, a);
      UnevictedIs(s', i);
      FansOutNeedsSession(s, a, i);
      if i < |s'.sessions| {
        RanAllAlong(s', acts[1..], i);
        StepEvictsIff(s, a, i);
      } else {
        ReachableInv(s);
        SessionsRemain(s, a, i);
      }
      if FansOutFull(s, a, i) {
        StaysEvicted(s', acts[1..], i);
      } else {
        EvictedIffMetFull(s', acts[1..], i);
      }
    } else {
      assert acts == [];
      EmptyRun(s);
      NothingMet(s, i);
      UnevictedIs(s, i);
    }
  }

  lemma FansOutNeedsSession(s: Sys, a: Action, i: nat)
    ensures FansOutFull(s, a, i) ==> i < |s.sessions|
  {
  }

  lemma SessionsRemain(s: Sys, a: Action, i: nat)
    requires Inv(s) && Enabled(s, a) && |Apply(s, a).sessions| <= i
    ensures |s.sessions| <= i
  {
    hide *;
    if i < |s.sessions| {
      StepMovesSession(s, a, i);
    }
  }

  /** Which clients are served: take any run from a fresh job as far as it goes for a client that still
      listens. It has its whole response if and only if its relay never had 1024 unread events when
      another was fanned out. */
  lemma ServedIffNeverFull(s0: Sys, acts: seq<Action>, i: nat)
    requires Init(s0) && CanRun(s0, acts)
    requires i < |After(s0, acts).sessions| && NothingFor(After(s0, acts), i)
    requires After(s0, acts).sessions[i].stream.open && After(s0, acts).sessions[i].relay.pc.Looping?
    ensures ResponseComplete(After(s0, acts).sessions[i]) <==> !MetFull(s0, acts, i)
  {
    InitHasNoSessions(s0, i);
    ReachesItself(s0);
    ReachesAfter(s0, acts);
    hide Init, Reachable, CanRun, After, NothingFor, ResponseComplete, MetFull;
    EvictedIffMetFull(s0, acts, i);
    ServedIffNotEvicted(After(s0, acts), i);
  }

  lemma InitHasNoSessions(s: Sys, i: nat)
    requires Init(s)
    ensures Unevicted(s, i)
  {
  }

  /** `n` one-byte frames have gone all the way to the only session, none of them taken by its relay. */
  ghost predicate Flooding(s: Sys, n: nat) {
    && Reachable(s)
    && s.stdout.pc.Reading? && s.stdout.kind.Stdout? && |s.stdout.rest| + n == RELAY_CAP + 1
    && s.stdout.ch == New(READER_CAP, 2)
    && s.tracker == NEW_TRACKER && s.frameCh == New(FRAME_CAP, 1)
    && s.bcast.frameRxOk && s.bcast.reqRxOk && s.bcast.running
    && |s.bcast.frames| == n && |s.sessions| == 1
    && var x := s.sessions[0];
       && x.link.Tracked? && x.relay.pc.Looping? && x.stream.open
       && x.input.open && x.input.cap == RELAY_CAP && |x.input.buf| == n
  }

  /** The only session has been evicted by the 1025th event, its client listening. */
  ghost predicate Overrun(s: Sys) {
    && Reachable(s) && |s.bcast.frames| == RELAY_CAP + 1
    && |s.sessions| == 1
    && var x := s.sessions[0];
       && x.link.Evicted? && x.relay.pc.Looping? && x.stream.open && |x.input.buf| == RELAY_CAP
  }

  /** One more byte is read, and sent as a frame to the tracker. */
  lemma ReadByte(s: Sys, n: nat) returns (s': Sys)
    requires Flooding(s, n) && n <= RELAY_CAP
    ensures Reachable(s') && s' == s.(stdout := s'.stdout)
    ensures |s'.stdout.rest| + 1 == |s.stdout.rest| && s'.stdout.pc == Reading && s'.stdout.kind == s.stdout.kind
    ensures |s'.stdout.ch.buf| == 1 && s'.stdout.ch.buf[0].Good? && s'.stdout.ch.(buf := []) == s.stdout.ch
  {
    hide Reachable, SessionApply, RequestApply, KillApply, BroadcasterApply, TrackerApply;
    var s1 := Next(s, ReaderStep(Stdout, Read(1)));
    s' := Next(s1, ReaderStep(Stdout, Deliver));
    assert s'.stdout.ch.buf == [s1.stdout.pc.msg];
  }

  /** One more byte is read, and sent as a frame to the broadcaster. */
  lemma SendFrame(s: Sys, n: nat) returns (s': Sys)
    requires Flooding(s, n) && n <= RELAY_CAP
    ensures Reachable(s') && |s'.stdout.rest| + 1 == |s.stdout.rest| && s'.stdout.pc == Reading
    ensures s'.stdout.ch == s.stdout.ch && s'.stdout.kind == s.stdout.kind
    ensures |s'.frameCh.buf| == 1 && s'.frameCh == New(FRAME_CAP, 1).(buf := s'.frameCh.buf)
    ensures s'.tracker == NEW_TRACKER && s'.sessions == s.sessions && s'.bcast == s.bcast
  {
    hide Reachable, ReaderApply, SessionApply, RequestApply, KillApply, BroadcasterApply;
    var s2 := ReadByte(s, n);
    var s3 := Next(s2, TrackerStep(RecvFrame(Stdout)));
    assert s3.stdout.ch.buf == [];
    s' := Next(s3, TrackerStep(FrameSent));
  }

  /** One more frame travels down the pipeline. */
  lemma PushFrame(s: Sys, n: nat) returns (s': Sys)
    requires Flooding(s, n) && n <= RELAY_CAP
    ensures n < RELAY_CAP ==> Flooding(s', n + 1)
    ensures n == RELAY_CAP ==> Overrun(s')
  {
    hide Reachable, ReaderApply, ReaderEnabled, TrackerApply, TrackerEnabled, SessionApply, RequestApply, KillApply;
    var s4 := SendFrame(s, n);
    s' := Next(s4, BroadcasterStep(BcastFrame));
    assert s'.frameCh.buf == [];
    assert s'.sessions[0] == OfferTo(s.sessions[0], s4.frameCh.buf[0]);
  }

  lemma {:induction false} PushFrames(s: Sys, n: nat) returns (s': Sys)
    requires Flooding(s, n) && n <= RELAY_CAP
    ensures Overrun(s')
    decreases RELAY_CAP - n
  {
    hide Flooding, Overrun;
    s' := PushFrame(s, n);
    if n < RELAY_CAP {
      s' := PushFrames(s', n + 1);
    }
  }

  /** A client that subscribed before the job wrote anything can be evicted: the 1025th event finds
      1024 unread ones. By `EvictedStaysFrozen` and `EvictedHoldsStrictPrefix` it then never receives
      the end of the log, whatever it does. */
  lemma EvictionHappens(job: Job) returns (s: Sys)
    requires FreshJob(job)
    ensures Reachable(s) && |s.sessions| == 1 && |s.bcast.frames| == 1025
    ensures s.sessions[0].link.Evicted? && s.sessions[0].relay.pc.Looping? && s.sessions[0].stream.open
    ensures |s.sessions[0].input.buf| == 1024
  {
    var s0 := Subscribed(job, seq(RELAY_CAP + 1, i => 0 as byte));
    hide Reachable;
    s := PushFrames(s0, 0);
  }

  /** A client has subscribed before the job wrote anything. */
  lemma Subscribed(job: Job, output: seq<byte>) returns (s: Sys)
    requires FreshJob(job)
    ensures Reachable(s)
    ensures s == Initial(job, output, None, [], None, true).(
                   reqCh := New(REQ_CAP, 3),
                   reqs := [LogRequest(Served(0), true)],
                   sessions := [StartSession([], true)])
  {
    var s0 := Initial(job, output, None, [], None, true);
    ReachesItself(s0);
    hide Reachable, TrackerApply, SessionApply, KillApply, ReaderApply, StartSession;
    var s1 := Next(s0, RequestStep(NewRequest));
    assert s1.reqs == [LogRequest(Unsent, true)];
    var s2 := Next(s1, RequestStep(SendRequest(0)));
    assert s2.reqCh.buf == [0] && s2.reqs == [LogRequest(Queued, true)];
    s := Next(s2, BroadcasterStep(BcastRequest));
    assert s.reqCh.buf == [];
  }
}
