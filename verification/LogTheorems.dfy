/** What holds of a job's log and of its clients in every reachable state. */
module LogTheorems {
  import opened Events
  import opened Readers
  import opened Tracker
  import opened Sessions
  import opened System
  import opened Invariant

  function Last(log: seq<FrameEvent>): FrameEvent
    requires |log| > 0
  {
    log[|log| - 1]
  }

  lemma SessionOf(s: Sys, i: nat)
    requires Inv(s) && i < |s.sessions|
    ensures SessionInv(s.bcast.frames, s.bcast.frameRxOk, s.sessions[i])
  {
    hide TrackerInv, LogInv, PipeInv, StreamInv, RequestInv, KillsInv, SessionInv;
  }

  lemma PipeOf(s: Sys)
    requires Inv(s)
    ensures PipeInv(s.frameCh, s.tracker, s.bcast)
    ensures TrackerInv(s.tracker, s.job, s.contract)
    ensures StreamInv(s.stdout, Stdout, Log(s), s.tracker) && StreamInv(s.stderr, Stderr, Log(s), s.tracker)
    ensures s.reqCh.open
  {
    hide TrackerInv, LogInv, PipeInv, StreamInv, KillsInv, SessionsInv;
  }

  lemma RequestsOf(s: Sys)
    requires Inv(s)
    ensures RequestInv(s.reqCh, s.reqs)
  {
    hide TrackerInv, LogInv, PipeInv, StreamInv, KillsInv, SessionsInv, RequestInv;
  }

  /** What a step does to a given session. */
  ghost predicate SessionMoves(s: Sys, a: Action, x: Session, x': Session, i: nat) {
    if a == BroadcasterStep(BcastFrame) then
      s.bcast.frameRxOk && s.frameCh.CanRecv() && x' == OfferTo(x, s.frameCh.buf[0])
    else if a == BroadcasterStep(FramesEnd) then s.bcast.frameRxOk && x' == ReleaseFrom(x)
    else if a.SessionStep? && a.i == i then SessionEnabled(x, a.s) && x' == SessionApply(x, a.s)
    else x' == x
  }

  lemma BroadcasterMoves(s: Sys, b: BroadcasterAction, i: nat)
    requires PipeInv(s.frameCh, s.tracker, s.bcast) && BroadcasterEnabled(s, b) && !b.RequestsEnd? && i < |s.sessions|
    ensures var s' := BroadcasterApply(s, b);
            |s.sessions| <= |s'.sessions| && SessionMoves(s, BroadcasterStep(b), s.sessions[i], s'.sessions[i], i)
  {
    hide SessionApply, SessionEnabled, OfferTo, ReleaseFrom, StartSession;
  }

  lemma OthersLeaveSessions(s: Sys, a: Action)
    requires Enabled(s, a) && !a.SessionStep? && !a.BroadcasterStep?
    ensures Apply(s, a).sessions == s.sessions && Apply(s, a).bcast == s.bcast
  {
    match a
    case ReaderStep(k, r) =>
    case TrackerStep(t) => TrackerLeavesSessions(s, t);
    case RequestStep(q) => RequestLeavesSessions(s, q);
    case KillStep(k) => KillLeavesSessions(s, k);
  }

  lemma TrackerLeavesSessions(s: Sys, a: TrackerAction)
    requires TrackerEnabled(s, a)
    ensures TrackerApply(s, a).sessions == s.sessions && TrackerApply(s, a).bcast == s.bcast
  {
  }

  lemma RequestLeavesSessions(s: Sys, a: RequestAction)
    requires RequestEnabled(s, a)
    ensures RequestApply(s, a).sessions == s.sessions && RequestApply(s, a).bcast == s.bcast
  {
  }

  lemma KillLeavesSessions(s: Sys, a: KillAction)
    requires KillEnabled(s, a)
    ensures KillApply(s, a).sessions == s.sessions && KillApply(s, a).bcast == s.bcast
  {
  }

  lemma SessionStepMoves(s: Sys, j: nat, b: SessionAction, i: nat)
    requires Enabled(s, SessionStep(j, b)) && i < |s.sessions|
    ensures |Apply(s, SessionStep(j, b)).sessions| == |s.sessions|
    ensures SessionMoves(s, SessionStep(j, b), s.sessions[i], Apply(s, SessionStep(j, b)).sessions[i], i)
  {
    hide SessionApply, SessionEnabled;
  }

  lemma BroadcasterStepMoves(s: Sys, b: BroadcasterAction, i: nat)
    requires Inv(s) && Enabled(s, BroadcasterStep(b)) && i < |s.sessions|
    ensures |s.sessions| <= |Apply(s, BroadcasterStep(b)).sessions|
    ensures SessionMoves(s, BroadcasterStep(b), s.sessions[i], Apply(s, BroadcasterStep(b)).sessions[i], i)
  {
    PipeOf(s);
    RequestsNeverEnd(s);
    hide Inv, PipeInv, TrackerInv, StreamInv, SessionMoves, BroadcasterEnabled, BroadcasterApply;
    BroadcasterMoves(s, b, i);
  }

  lemma StepMovesSession(s: Sys, a: Action, i: nat)
    requires Inv(s) && Enabled(s, a) && i < |s.sessions|
    ensures |s.sessions| <= |Apply(s, a).sessions|
    ensures SessionMoves(s, a, s.sessions[i], Apply(s, a).sessions[i], i)
  {
    hide Inv, Enabled, Apply;
    match a
    case SessionStep(j, b) => SessionStepMoves(s, j, b, i);
    case BroadcasterStep(b) => BroadcasterStepMoves(s, b, i);
    case _ => OthersLeaveSessions(s, a);
  }

  lemma LogShape(s: Sys)
    requires Inv(s)
    ensures Sealed(Log(s)) || Unsealed(Log(s))
    ensures Sealed(Log(s)) <==> s.tracker.Finishing()
    ensures Sealed(Log(s)) ==> Last(Log(s)) == FinalEvent(s.tracker)
    ensures s.bcast.frames <= Log(s)
  {
    hide StreamInv, KillsInv, SessionsInv, RequestInv, PipeInv, TrackerInv;
    if Sealed(Log(s)) {
      assert Terminal(Log(s)[|Log(s)| - 1]);
    }
  }

  /** A log never holds more than one terminal event, and nothing follows it. Once the broadcaster has
      seen its source close, its history is the whole log, ends in the terminal event, and no relay
      waits for more. */
  lemma TerminalDiscipline(s: Sys)
    requires Reachable(s)
    ensures Sealed(s.bcast.frames) || Unsealed(s.bcast.frames)
    ensures !s.bcast.frameRxOk ==>
              && Sealed(s.bcast.frames) && s.bcast.frames == Log(s)
              && forall i :: 0 <= i < |s.sessions| ==> !s.sessions[i].link.Tracked?
  {
    ReachableInv(s);
    LogShape(s);
    PipeOf(s);
    PrefixSealing(s.bcast.frames, Log(s));
    hide Inv, RelayInv, ForwardInv, ChannelInv, Sealed, Unsealed, StreamInv;
    if !s.bcast.frameRxOk {
      assert Log(s) == s.bcast.frames;
      forall i | 0 <= i < |s.sessions| ensures !s.sessions[i].link.Tracked? {
        SessionOf(s, i);
      }
    }
  }

  /** What a client has received is always a prefix of the log, and a client that holds a terminal
      event holds the entire log. */
  lemma TerminalMeansWhole(s: Sys, i: nat)
    requires Reachable(s) && i < |s.sessions|
    ensures s.sessions[i].received <= Log(s)
    ensures Sealed(s.sessions[i].received) ==> s.sessions[i].received == Log(s)
    ensures !Sealed(s.sessions[i].received) ==> Unsealed(s.sessions[i].received)
  {
    ReachableInv(s);
    LogShape(s);
    ReceivedPrefix(s, i);
    hide Inv, Sealed, Unsealed, Log;
    PrefixSealing(s.sessions[i].received, Log(s));
    if Sealed(s.sessions[i].received) {
      SealedPrefixIsWhole(s.sessions[i].received, Log(s));
    }
  }

  lemma ReceivedPrefix(s: Sys, i: nat)
    requires Inv(s) && i < |s.sessions|
    ensures s.sessions[i].received <= s.bcast.frames <= Log(s)
  {
    LogShape(s);
    SessionOf(s, i);
    hide Inv, ForwardInv, ChannelInv, Log;
  }

  /** Two clients that each reached a terminal event received the same sequence, whenever they
      subscribed. */
  lemma ReplayAgreement(s: Sys, i: nat, j: nat)
    requires Reachable(s) && i < |s.sessions| && j < |s.sessions|
    requires Sealed(s.sessions[i].received) && Sealed(s.sessions[j].received)
    ensures s.sessions[i].received == s.sessions[j].received
  {
    hide *;
    TerminalMeansWhole(s, i);
    TerminalMeansWhole(s, j);
  }

  /** A request served after the broadcaster's source has closed is seeded with the whole sealed log. */
  lemma LateSubscriberSeededWithAll(s: Sys)
    requires Reachable(s) && Enabled(s, BroadcasterStep(BcastRequest)) && s.reqCh.buf[0] < |s.reqs|
    requires !s.bcast.frameRxOk && s.reqs[s.reqCh.buf[0]].caller
    ensures var s' := Apply(s, BroadcasterStep(BcastRequest));
            && |s'.sessions| == |s.sessions| + 1
            && s'.sessions[|s.sessions|].relay.Backlog() == Log(s)
            && Sealed(Log(s))
  {
    TerminalDiscipline(s);
    ReachableInv(s);
    PipeOf(s);
    hide Inv, Reachable, Sealed, Log, StreamInv, TrackerInv, Apply, Enabled;
    ServingStarts(s);
  }

  /** Serving a request whose caller waits starts a session on the history. */
  lemma ServingStarts(s: Sys)
    requires PipeInv(s.frameCh, s.tracker, s.bcast) && Enabled(s, BroadcasterStep(BcastRequest))
    requires s.reqCh.buf[0] < |s.reqs| && s.reqs[s.reqCh.buf[0]].caller
    ensures Apply(s, BroadcasterStep(BcastRequest)).sessions
         == s.sessions + [StartSession(s.bcast.frames, s.bcast.frameRxOk)]
  {
    hide StartSession;
  }

  /** Every request that was served has a session, and no two have the same. */
  ghost predicate ServedInv(reqs: seq<LogRequest>, n: nat) {
    && (forall r :: 0 <= r < |reqs| && reqs[r].phase.Served? ==> reqs[r].phase.session < n)
    && (forall q, r :: 0 <= q < r < |reqs| && reqs[q].phase.Served? && reqs[r].phase.Served? ==>
          reqs[q].phase.session != reqs[r].phase.session)
  }

  lemma RequestKeepsServed(s: Sys, q: RequestAction)
    requires ServedInv(s.reqs, |s.sessions|) && RequestEnabled(s, q)
    ensures ServedInv(RequestApply(s, q).reqs, |RequestApply(s, q).sessions|)
  {
  }

  lemma BroadcasterKeepsServed(s: Sys, b: BroadcasterAction)
    requires ServedInv(s.reqs, |s.sessions|) && BroadcasterEnabled(s, b)
    ensures ServedInv(BroadcasterApply(s, b).reqs, |BroadcasterApply(s, b).sessions|)
  {
    hide OfferTo, ReleaseFrom, StartSession;
  }

  lemma OthersLeaveRequests(s: Sys, a: Action)
    requires Enabled(s, a) && !a.RequestStep? && !a.BroadcasterStep?
    ensures Apply(s, a).reqs == s.reqs && |Apply(s, a).sessions| == |s.sessions|
  {
    hide ReaderEnabled, ReaderApply, TrackerEnabled, TrackerApply, KillEnabled, KillApply, SessionApply, SessionEnabled;
    match a
    case TrackerStep(t) => TrackerLeavesRequests(s, t);
    case KillStep(x) => KillLeavesRequests(s, x);
    case _ =>
  }

  lemma TrackerLeavesRequests(s: Sys, t: TrackerAction)
    requires TrackerEnabled(s, t)
    ensures TrackerApply(s, t).reqs == s.reqs && TrackerApply(s, t).sessions == s.sessions
  {
    hide AnswerAll, AbandonAll, SetKill;
  }

  lemma KillLeavesRequests(s: Sys, x: KillAction)
    requires KillEnabled(s, x)
    ensures KillApply(s, x).reqs == s.reqs && KillApply(s, x).sessions == s.sessions
  {
  }

  lemma StepKeepsServed(s: Sys, a: Action)
    requires ServedInv(s.reqs, |s.sessions|) && Enabled(s, a)
    ensures ServedInv(Apply(s, a).reqs, |Apply(s, a).sessions|)
  {
    hide ServedInv;
    if a.RequestStep? {
      hide RequestEnabled, RequestApply;
      RequestKeepsServed(s, a.q);
    } else if a.BroadcasterStep? {
      hide BroadcasterEnabled, BroadcasterApply;
      BroadcasterKeepsServed(s, a.b);
    } else {
      hide Enabled, Apply;
      OthersLeaveRequests(s, a);
    }
  }

  lemma {:induction false} RunKeepsServed(s: Sys, acts: seq<Action>)
    requires ServedInv(s.reqs, |s.sessions|) && CanRun(s, acts)
    ensures ServedInv(After(s, acts).reqs, |After(s, acts).sessions|)
    decreases |acts|
  {
    hide *;
    if |acts| > 0 {
      RunUnfolds(s, acts);
      StepKeepsServed(s, acts[0]);
      RunKeepsServed(Apply(s, acts[0]), acts[1..]);
    } else {
      assert acts == [];
      EmptyRun(s);
    }
  }

  /** Each served request for the log has a session of its own. */
  lemma EachServedHasOwnSession(s: Sys, r: nat)
    requires Reachable(s) && r < |s.reqs| && s.reqs[r].phase.Served?
    ensures s.reqs[r].phase.session < |s.sessions|
    ensures forall q :: 0 <= q < |s.reqs| && q != r && s.reqs[q].phase.Served? ==>
              s.reqs[q].phase.session != s.reqs[r].phase.session
  {
    var s0: Sys, acts: seq<Action> :| Init(s0) && CanRun(s0, acts) && After(s0, acts) == s;
    hide CanRun, After;
    RunKeepsServed(s0, acts);
  }

  /** No gap and no duplicate: for a relay that was not evicted and whose client is listening, what the
      client has, what waits for it, what the relay holds and what waits for the relay make up exactly
      the broadcaster's history. */
  lemma NoGapNoDuplicate(s: Sys, i: nat)
    requires Reachable(s) && i < |s.sessions|
    requires var x := s.sessions[i]; x.relay.pc.Looping? && !x.link.Evicted? && x.output.open
    ensures var x := s.sessions[i];
            x.received + x.output.buf + x.relay.Backlog() + x.input.buf == s.bcast.frames
  {
    ReachableInv(s);
    SessionOf(s, i);
    hide Inv, ForwardInv;
  }

  /** A relay that was evicted while running holds a strict prefix of the history, so its client never
      receives a terminal event, ... */
  lemma EvictedHoldsStrictPrefix(s: Sys, i: nat)
    requires Reachable(s) && i < |s.sessions|
    requires var x := s.sessions[i]; x.relay.pc.Looping? && x.link.Evicted?
    ensures var x := s.sessions[i];
            && Chain(x) <= s.bcast.frames && |Chain(x)| < |s.bcast.frames|
            && x.received <= Chain(x) && !Sealed(x.received)
  {
    ReachableInv(s);
    LogShape(s);
    TerminalMeansWhole(s, i);
    SessionOf(s, i);
    hide Inv, ForwardInv, Sealed, Unsealed, Log;
    assert s.sessions[i].relayed <= Chain(s.sessions[i]);
  }

  /** ... and no later step extends it: it stays evicted with the same events for good. */
  lemma EvictedStaysFrozen(s: Sys, a: Action, i: nat)
    requires Reachable(s) && Enabled(s, a) && i < |s.sessions|
    requires var x := s.sessions[i]; x.relay.pc.Looping? && x.link.Evicted?
    ensures i < |Apply(s, a).sessions|
    ensures var x := Apply(s, a).sessions[i];
            x.link.Evicted? && (x.relay.pc.Looping? ==> Chain(x) == Chain(s.sessions[i]))
  {
    ReachableInv(s);
    SessionOf(s, i);
    hide *;
    StepMovesSession(s, a, i);
    EvictedMove(s, a, s.sessions[i], Apply(s, a).sessions[i], i);
  }

  lemma EvictedMove(s: Sys, a: Action, x: Session, x': Session, i: nat)
    requires SessionInv(s.bcast.frames, s.bcast.frameRxOk, x) && SessionMoves(s, a, x, x', i)
    requires x.relay.pc.Looping? && x.link.Evicted?
    ensures x'.link.Evicted? && (x'.relay.pc.Looping? ==> Chain(x') == Chain(x))
  {
    hide RelayInv, ForwardInv, SessionApply, SessionEnabled, Chain;
    if a.SessionStep? && a.i == i {
      SessionStepFrame(x, a.s);
      if !a.s.RelaySendFails? {
        RelayStepChain(x, a.s);
      }
    }
  }

  /** A running relay is evicted by exactly those fan-outs that find its input holding 1024 unread
      events, and by no other step, ... */
  lemma EvictedIffFull(s: Sys, a: Action, i: nat)
    requires Reachable(s) && Enabled(s, a) && i < |s.sessions|
    requires s.sessions[i].relay.pc.Looping? && !s.sessions[i].link.Evicted?
    ensures i < |Apply(s, a).sessions|
    ensures Apply(s, a).sessions[i].link.Evicted? <==>
              a == BroadcasterStep(BcastFrame) && |s.sessions[i].input.buf| == RELAY_CAP
  {
    ReachableInv(s);
    SessionOf(s, i);
    hide *;
    StepMovesSession(s, a, i);
    EvictingMove(s, a, s.sessions[i], Apply(s, a).sessions[i], i);
  }

  lemma EvictingMove(s: Sys, a: Action, x: Session, x': Session, i: nat)
    requires SessionInv(s.bcast.frames, s.bcast.frameRxOk, x) && SessionMoves(s, a, x, x', i)
    requires x.relay.pc.Looping? && !x.link.Evicted?
    ensures x'.link.Evicted? <==> a == BroadcasterStep(BcastFrame) && |x.input.buf| == RELAY_CAP
  {
    hide RelayInv, ForwardInv, SessionApply, SessionEnabled;
    if a.SessionStep? && a.i == i {
      SessionStepFrame(x, a.s);
    }
  }

  /** ... so a running relay offered at most 1024 events after its snapshot is never evicted, however
      slow its client. */
  lemma EvictionBound(s: Sys, i: nat)
    requires Reachable(s) && i < |s.sessions|
    requires s.sessions[i].relay.pc.Looping?
    requires |s.bcast.frames| - s.sessions[i].snap <= RELAY_CAP
    ensures !s.sessions[i].link.Evicted?
    ensures |s.sessions[i].input.buf| <= |s.bcast.frames| - s.sessions[i].snap
  {
    ReachableInv(s);
    SessionOf(s, i);
    hide Inv, ForwardInv;
  }

  /** `log` is an interleaving of the two frame sequences. */
  ghost predicate Interleaves(log: seq<FrameEvent>, out: seq<Frame>, err: seq<Frame>)
    decreases |log|
  {
    if |log| == 0 then out == [] && err == []
    else
      || (|out| > 0 && Last(log) == Data(out[|out| - 1]) && Interleaves(log[..|log| - 1], out[..|out| - 1], err))
      || (|err| > 0 && Last(log) == Data(err[|err| - 1]) && Interleaves(log[..|log| - 1], out, err[..|err| - 1]))
  }

  lemma {:induction false} UnsealedInterleaves(log: seq<FrameEvent>)
    requires Unsealed(log)
    ensures Interleaves(log, FramesOf(log, Stdout), FramesOf(log, Stderr))
  {
    if |log| > 0 {
      var front := log[..|log| - 1];
      UnsealedInterleaves(front);
      var out, err := FramesOf(front, Stdout), FramesOf(front, Stderr);
      var f := log[|log| - 1].frame;
      assert log[|log| - 1].Data?;
      if f.kind.Stdout? {
        assert (out + [f])[..|out|] == out && err + [] == err;
      } else {
        assert (err + [f])[..|err|] == err && out + [] == out;
      }
    }
  }

  /** The events of a log that are not terminal. */
  function Body(log: seq<FrameEvent>): seq<FrameEvent> {
    if |log| > 0 && Terminal(Last(log)) then log[..|log| - 1] else log
  }

  lemma BodyInterleaves(log: seq<FrameEvent>)
    requires Sealed(log) || Unsealed(log)
    ensures Interleaves(Body(log), FramesOf(log, Stdout), FramesOf(log, Stderr))
  {
    UnsealedInterleaves(Body(log));
    if Sealed(log) {
      assert log == Body(log) + [Last(log)];
      FramesOfAppend(Body(log), Last(log), Stdout);
      FramesOfAppend(Body(log), Last(log), Stderr);
      assert FramesOf(log, Stdout) == FramesOf(Body(log), Stdout);
      assert FramesOf(log, Stderr) == FramesOf(Body(log), Stderr);
    }
  }

  /** One stream's part of the log: a prefix of the frames its reader cut, carrying a prefix of the
      stream, and all of it once the log ends with end of file. */
  lemma StreamPart(s: Sys, k: StreamKind)
    requires Inv(s)
    ensures var r, part := ReaderOf(s, k), FramesOf(Log(s), k);
            && part <= r.cut && r.seen <= r.source && BytesOf(r.cut) == r.seen
            && (forall f :: f in part ==> FrameOk(f, k))
            && BytesOf(part) <= r.source
    ensures Sealed(Log(s)) && Last(Log(s)) == EOF ==>
              var r := ReaderOf(s, k);
              FramesOf(Log(s), k) == r.cut && BytesOf(r.cut) == r.source && r.failure.None?
  {
    LogShape(s);
    PipeOf(s);
    hide Inv, StreamInv, FramesOf, Sealed, Unsealed, Log, PipeInv;
    ReaderPart(ReaderOf(s, k), k, Log(s), s.tracker);
  }

  lemma ReaderPart(r: Reader, k: StreamKind, log: seq<FrameEvent>, t: Tracker)
    requires StreamInv(r, k, log, t)
    ensures var part := FramesOf(log, k);
            && part <= r.cut && r.seen <= r.source && BytesOf(r.cut) == r.seen
            && (forall f :: f in part ==> FrameOk(f, k))
            && BytesOf(part) <= r.source
    ensures !t.Listening(k) ==> FramesOf(log, k) == r.cut && BytesOf(r.cut) == r.source && r.failure.None?
  {
    hide FramesOf, BytesOf, FrameOk;
    var part := FramesOf(log, k);
    assert part <= r.cut by {
      if r.ch.open {
        assert r.cut == part + (Goods(r.ch.buf) + InHand(r.pc));
      }
    }
    assert r.source == r.seen + r.rest;
    BytesOfPrefix(part, r.cut);
  }

  lemma {:induction false} BytesOfPrefix(part: seq<Frame>, whole: seq<Frame>)
    requires part <= whole
    ensures BytesOf(part) <= BytesOf(whole)
    decreases |whole|
  {
    if |part| < |whole| {
      BytesOfPrefix(part, whole[..|whole| - 1]);
    } else {
      assert part == whole;
    }
  }

  /** The log is a merge: its frames are an interleaving of a prefix of what each reader cut, in order
      and in sizes from 1 to 1024 bytes; when it ends with end of file, both streams were read to
      their end without an error and nothing is missing. */
  lemma LogIsMerge(s: Sys)
    requires Reachable(s)
    ensures var log := Log(s);
            var out, err := FramesOf(log, Stdout), FramesOf(log, Stderr);
            && Interleaves(Body(log), out, err)
            && out <= s.stdout.cut && err <= s.stderr.cut
            && (forall f :: f in out ==> FrameOk(f, Stdout)) && (forall f :: f in err ==> FrameOk(f, Stderr))
            && BytesOf(out) <= s.stdout.source && BytesOf(err) <= s.stderr.source
            && (Sealed(log) && Last(log) == EOF ==>
                  && BytesOf(out) == s.stdout.source && BytesOf(err) == s.stderr.source
                  && s.stdout.failure.None? && s.stderr.failure.None?)
  {
    ReachableInv(s);
    LogShape(s);
    StreamPart(s, Stdout);
    StreamPart(s, Stderr);
    BodyInterleaves(Log(s));
    hide Reachable, Inv, Log, BytesOf, FrameOk, FramesOf, Interleaves, Sealed, Unsealed;
  }

  /** The event is on its way to a client, in the relay's input, its backlog or the client's channel, or
      has been received. */
  predicate Holds(x: Session, ev: FrameEvent) {
    ev in x.input.buf || ev in x.relay.Backlog() || ev in x.output.buf || ev in x.received
  }

  /** What a session holds comes from the history. */
  lemma HeldIsLogged(frames: seq<FrameEvent>, live: bool, x: Session, ev: FrameEvent)
    requires SessionInv(frames, live, x) && Holds(x, ev)
    ensures ev in frames
  {
    hide ForwardInv, Relay.Backlog;
    if x.relay.pc.Looping? {
      PrefixMember(Chain(x), frames, ev);
    }
    PrefixMember(x.relayed, frames, ev);
    PrefixMember(x.received, x.relayed, ev);
  }

  /** End of file anywhere, between tracker and broadcaster, in the history, in any relay or channel or in
      a client's hands, means that the exit has been recorded. */
  lemma EofMeansExited(s: Sys)
    requires Reachable(s)
    requires EOF in Log(s) || exists i :: 0 <= i < |s.sessions| && Holds(s.sessions[i], EOF)
    ensures s.job.state.Exited? && s.job.endedAt.Some?
    ensures Sealed(Log(s)) && Last(Log(s)) == EOF
  {
    ReachableInv(s);
    LogShape(s);
    PipeOf(s);
    assert EOF in Log(s) by {
      hide Inv, Holds, Log;
      forall i | 0 <= i < |s.sessions| && Holds(s.sessions[i], EOF) ensures EOF in Log(s) {
        SessionOf(s, i);
        HeldIsLogged(s.bcast.frames, s.bcast.frameRxOk, s.sessions[i], EOF);
        PrefixMember(s.bcast.frames, Log(s), EOF);
      }
    }
    hide Inv, StreamInv, PipeInv, Log;
    var n :| 0 <= n < |Log(s)| && Log(s)[n] == EOF;
    if n + 1 < |Log(s)| {
      InnerEvent(Log(s), n);
    }
  }

  lemma PrefixMember<T>(part: seq<T>, whole: seq<T>, x: T)
    requires part <= whole
    ensures x in part ==> x in whole
  {
    if x in part {
      var n :| 0 <= n < |part| && part[n] == x;
      assert whole[n] == x;
    }
  }

  /** A job is recorded as exited exactly when its end time is. */
  lemma ExitedIffEnded(s: Sys)
    requires Reachable(s)
    ensures s.job.state.Exited? <==> s.job.endedAt.Some?
  {
    ReachableInv(s);
    PipeOf(s);
    hide Inv, StreamInv;
  }

  /** What a finished tracker stored: success exactly when the log ends with EOF, and then the exit is
      recorded. Otherwise it is recorded unless the tracker met its error first: before the child ended,
      or in waiting for it. */
  lemma StoredResult(s: Sys)
    requires Reachable(s) && s.tracker.pc.Stopped?
    ensures s.job.state.Exited? <==>
              !s.tracker.childOk && !(s.tracker.loopErr.Some? && s.tracker.loopErr.value.WaitChild?)
    ensures Sealed(Log(s))
    ensures s.tracker.res == Some(Succeeded) <==> Last(Log(s)) == EOF
    ensures s.tracker.res == Some(Succeeded) ==> s.job.state.Exited?
  {
    ReachableInv(s);
    LogShape(s);
    PipeOf(s);
    hide Inv, StreamInv, PipeInv, Log;
  }

  /** An error that ends a log is real: a read error is the one its stream failed with, and the only
      other kind is a failed wait for the child. */
  lemma ErrorIsReal(s: Sys)
    requires Reachable(s) && Sealed(Log(s)) && Last(Log(s)).Error?
    ensures var err := Last(Log(s)).err;
            && err != BroadcasterDisappeared
            && (err.ReadOutput? ==> ReaderOf(s, err.kind).failure == Some(err.io))
            && (err.WaitChild? ==> !s.job.state.Exited?)
  {
    ReachableInv(s);
    LogShape(s);
    PipeOf(s);
    hide Inv, Reachable, Log, Sealed, PipeInv, ReaderInv, FlowInv;
  }

  /** The log of a finished tracker ends with EOF if and only if both streams were read without an error
      and the child's exit was recorded. */
  lemma LogEndsWellIff(s: Sys)
    requires Reachable(s) && s.tracker.Finishing()
    ensures Sealed(Log(s))
    ensures Last(Log(s)) == EOF <==>
              s.stdout.failure.None? && s.stderr.failure.None? && s.job.state.Exited?
  {
    ReachableInv(s);
    LogShape(s);
    PipeOf(s);
    if Last(Log(s)) == EOF {
      StreamPart(s, Stdout);
      StreamPart(s, Stderr);
    } else {
      ErrorIsReal(s);
    }
    hide Inv, Reachable, Log, Sealed, PipeInv, StreamInv;
  }

  /** The log service outlives the job: the broadcaster never leaves its loop, its receivers stay
      open, and therefore no send to it fails, no tracker error is `BroadcasterDisappeared`, no log
      request is refused for want of a broadcaster, and no receive that depends on a task's own sender
      ever reports a closed channel. */
  lemma LogServiceOutlivesJob(s: Sys)
    requires Reachable(s)
    ensures s.bcast.running && s.frameCh.open && s.reqCh.open
    ensures s.tracker.loopErr != Some(BroadcasterDisappeared)
    ensures !Enabled(s, TrackerStep(FrameRejected)) && !Enabled(s, TrackerStep(FinalRejected))
    ensures !Enabled(s, TrackerStep(KillsEnd)) && !Enabled(s, BroadcasterStep(RequestsEnd))
    ensures forall r :: !Enabled(s, RequestStep(RequestRejected(r)))
  {
    ReachableInv(s);
    TrackerNeverCutOff(s);
    RequestsNeverEnd(s);
    PipeOf(s);
    hide Inv, StreamInv;
  }

  /** Nor does a relay ever see its input close, so it never drains and ends only when its client is
      gone; and a forwarder never sees a log that stops without a terminal event. */
  lemma RelayOutlivesJob(s: Sys, i: nat)
    requires Reachable(s) && i < |s.sessions|
    ensures var x := s.sessions[i];
            && !SessionEnabled(x, RelayClosed) && !x.relay.pc.Draining?
            && !SessionEnabled(x, ForwardClosed)
            && (x.relay.pc.Ended? ==> !x.output.open)
  {
    ReachableInv(s);
    hide *;
    SessionOf(s, i);
    RelayLives(s.bcast.frames, s.bcast.frameRxOk, s.sessions[i]);
  }

  lemma RelayLives(frames: seq<FrameEvent>, live: bool, x: Session)
    requires SessionInv(frames, live, x)
    ensures !SessionEnabled(x, RelayClosed) && !x.relay.pc.Draining? && !SessionEnabled(x, ForwardClosed)
    ensures x.relay.pc.Ended? ==> !x.output.open
  {
    hide RelayInv, ForwardInv;
  }

  /** No task ever enters a `select!` with every arm disabled: the tracker at the head of its select
      still has the child or a stream to listen to, and the broadcaster always has its requests. */
  lemma NoEmptySelect(s: Sys)
    requires Reachable(s)
    ensures s.tracker.pc.Select? ==>
              s.tracker.childOk || s.tracker.stdoutOk || s.tracker.stderrOk
    ensures s.bcast.reqRxOk && s.tracker.killOk
  {
    ReachableInv(s);
    PipeOf(s);
    hide Inv, StreamInv;
  }
}
