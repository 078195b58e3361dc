/** Log clients only observe: a system without them makes exactly the same steps. */
module Observers {
  import opened Channels
  import opened Sessions
  import opened System
  import opened Invariant
  import opened LogTheorems

  /** The job without its log clients: no relay, no forwarder, no client, no request. */
  function Erase(s: Sys): Sys {
    s.(reqCh := New(REQ_CAP, 2), reqs := [], sessions := [])
  }

  /** The steps that are not about log clients. */
  predicate CoreAction(a: Action) {
    !a.SessionStep? && !a.RequestStep? && a != BroadcasterStep(BcastRequest)
  }

  function CoreOnly(acts: seq<Action>): seq<Action> {
    if |acts| == 0 then []
    else (if CoreAction(acts[0]) then [acts[0]] else []) + CoreOnly(acts[1..])
  }

  lemma CoreFirst(acts: seq<Action>)
    requires |acts| > 0
    ensures CoreOnly(acts) == if CoreAction(acts[0]) then [acts[0]] + CoreOnly(acts[1..]) else CoreOnly(acts[1..])
  {
    hide CoreAction;
  }

  lemma CoreOfNone()
    ensures CoreOnly([]) == []
  {
  }

  lemma TrackerIgnoresClients(s: Sys, t: TrackerAction)
    ensures TrackerEnabled(Erase(s), t) == TrackerEnabled(s, t)
    ensures TrackerEnabled(s, t) ==> TrackerApply(Erase(s), t) == Erase(TrackerApply(s, t))
  {
  }

  lemma KillIgnoresClients(s: Sys, k: KillAction)
    ensures KillEnabled(Erase(s), k) == KillEnabled(s, k)
    ensures KillEnabled(s, k) ==> KillApply(Erase(s), k) == Erase(KillApply(s, k))
  {
  }

  lemma BroadcasterIgnoresClients(s: Sys, b: BroadcasterAction)
    requires Inv(s) && !b.BcastRequest?
    ensures BroadcasterEnabled(Erase(s), b) == BroadcasterEnabled(s, b)
    ensures BroadcasterEnabled(s, b) ==> BroadcasterApply(Erase(s), b) == Erase(BroadcasterApply(s, b))
  {
    PipeOf(s);
    RequestsNeverEnd(s);
    hide Inv, OfferTo, ReleaseFrom;
  }

  lemma LoopHeadStays(s: Sys)
    requires s.bcast.running && s.bcast.reqRxOk
    ensures AfterLoopHead(s) == s
  {
  }

  /** What serving a request amounts to while the broadcaster runs. */
  lemma ServingTouches(s: Sys) returns (reqCh: Chan<nat>, reqs: seq<LogRequest>, xs: seq<Session>)
    requires BroadcasterEnabled(s, BcastRequest)
    ensures BroadcasterApply(s, BcastRequest) == s.(reqCh := reqCh, reqs := reqs, sessions := xs)
  {
    hide AfterLoopHead, StartSession;
    reqCh, reqs, xs := s.reqCh.Recv(), s.reqs, s.sessions;
    var r := s.reqCh.buf[0];
    if r < |s.reqs| && s.reqs[r].caller {
      reqs := s.reqs[r := LogRequest(Served(|s.sessions|), true)];
      xs := s.sessions + [StartSession(s.bcast.frames, s.bcast.frameRxOk)];
    } else if r < |s.reqs| {
      reqs := s.reqs[r := LogRequest(Refused, false)];
    }
    LoopHeadStays(s.(reqCh := reqCh, reqs := reqs, sessions := xs));
  }

  /** The broadcaster serves a request without touching anything but the clients. */
  lemma RequestTouchesClientsOnly(s: Sys)
    requires BroadcasterEnabled(s, BcastRequest)
    ensures Erase(BroadcasterApply(s, BcastRequest)) == Erase(s)
  {
    hide BroadcasterEnabled, BroadcasterApply;
    var reqCh, reqs, xs := ServingTouches(s);
  }

  lemma StepIgnoresClients(s: Sys, a: Action)
    requires Inv(s)
    ensures CoreAction(a) ==> Enabled(Erase(s), a) == Enabled(s, a)
    ensures CoreAction(a) && Enabled(s, a) ==> Erase(Apply(s, a)) == Apply(Erase(s), a)
    ensures !CoreAction(a) && Enabled(s, a) ==> Erase(Apply(s, a)) == Erase(s)
  {
    hide Inv, TrackerEnabled, TrackerApply, BroadcasterEnabled, BroadcasterApply,
         SessionEnabled, SessionApply, RequestEnabled, RequestApply, KillEnabled, KillApply;
    match a
    case ReaderStep(k, r) =>
    case TrackerStep(t) => TrackerIgnoresClients(s, t);
    case BroadcasterStep(b) =>
      if b.BcastRequest? {
        if Enabled(s, a) { RequestTouchesClientsOnly(s); }
      } else {
        BroadcasterIgnoresClients(s, b);
      }
    case SessionStep(i, x) =>
    case RequestStep(q) => RequestIsForClients(s, q);
    case KillStep(x) => KillIgnoresClients(s, x);
  }

  lemma RequestIsForClients(s: Sys, q: RequestAction)
    ensures RequestEnabled(s, q) ==> Erase(RequestApply(s, q)) == Erase(s)
  {
  }

  /** A step that is not about log clients is possible with them exactly when it is possible without
      them, and does the same; a step about log clients changes nothing else. No relay or client, slow,
      stuck or gone, can therefore block or change the log. */
  lemma ClientsAreObservers(s: Sys, a: Action)
    requires Reachable(s)
    ensures CoreAction(a) ==> Enabled(Erase(s), a) == Enabled(s, a)
    ensures CoreAction(a) && Enabled(s, a) ==> Erase(Apply(s, a)) == Apply(Erase(s), a)
    ensures !CoreAction(a) && Enabled(s, a) ==> Erase(Apply(s, a)) == Erase(s)
  {
    ReachableInv(s);
    hide *;
    StepIgnoresClients(s, a);
  }

  /** Over whole runs: erasing the clients and their steps from a run gives a run of the job alone. */
  lemma {:induction false} ErasedRun(s: Sys, acts: seq<Action>)
    requires Inv(s) && CanRun(s, acts)
    ensures CanRun(Erase(s), CoreOnly(acts))
    ensures After(Erase(s), CoreOnly(acts)) == Erase(After(s, acts))
    decreases |acts|
  {
    hide *;
    if |acts| > 0 {
      var a, rest := acts[0], acts[1..];
      RunUnfolds(s, acts);
      StepIgnoresClients(s, a);
      StepKeepsInv(s, a);
      ErasedRun(Apply(s, a), rest);
      CoreFirst(acts);
      if CoreAction(a) {
        RunFolds(Erase(s), a, CoreOnly(rest));
      }
    } else {
      assert acts == [];
      CoreOfNone();
      EmptyRun(s);
      EmptyRun(Erase(s));
    }
  }

  lemma {:induction false} LiftedFrom(s: Sys, acts: seq<Action>)
    requires Inv(s) && CanRun(Erase(s), acts)
    requires forall n :: 0 <= n < |acts| ==> CoreAction(acts[n])
    ensures CanRun(s, acts) && Erase(After(s, acts)) == After(Erase(s), acts)
    decreases |acts|
  {
    hide *;
    if |acts| > 0 {
      var a, rest := acts[0], acts[1..];
      RunUnfolds(Erase(s), acts);
      StepIgnoresClients(s, a);
      StepKeepsInv(s, a);
      LiftedFrom(Apply(s, a), rest);
      RunFolds(s, a, rest);
      assert acts == [a] + rest;
    } else {
      assert acts == [];
      EmptyRun(s);
      EmptyRun(Erase(s));
    }
  }

  /** And every run of the job alone can be taken whatever clients there are, with the same result. */
  lemma LiftedRun(s: Sys, acts: seq<Action>)
    requires Reachable(s) && CanRun(Erase(s), acts)
    requires forall n :: 0 <= n < |acts| ==> CoreAction(acts[n])
    ensures CanRun(s, acts) && Erase(After(s, acts)) == After(Erase(s), acts)
  {
    ReachableInv(s);
    hide *;
    LiftedFrom(s, acts);
  }
}
