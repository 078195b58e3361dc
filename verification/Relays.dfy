/** The broadcaster and the relay as objects updated in place, proved to make the steps the whole
    system is built from. */
module Relays {
  import opened Channels
  import opened Events
  import opened Sessions
  import opened System

  /** The broadcaster's handle on a relay: a sender of the relay's input. */
  class FrameRelay {
    var input: Chan<FrameEvent>

    constructor (senders: nat)
      ensures input == New(RELAY_CAP, senders)
    {
      input := New(RELAY_CAP, senders);
    }

    /** Offer an event without waiting. */
    method Accept(ev: FrameEvent) returns (ok: bool)
      modifies this
      ensures ok == old(input.CanSend())
      ensures input == if ok then old(input).Send(ev) else old(input)
    {
      ok := input.CanSend();
      if ok {
        input := input.Send(ev);
      }
    }

    /** The handle is dropped. */
    method Drop()
      modifies this
      ensures input == old(input).DropSender()
    {
      input := input.DropSender();
    }

    /** Offer an event, and drop the handle if it was not accepted. */
    method Retain(ev: FrameEvent) returns (ok: bool)
      modifies this
      ensures ok == old(input.CanSend())
      ensures input == old(Offer(input, ev))
    {
      ok := Accept(ev);
      if !ok {
        Drop();
      }
    }
  }

  /** The inputs of the broadcaster's relays, ... */
  ghost function Inputs(relays: seq<FrameRelay>): seq<Chan<FrameEvent>>
    reads relays
  {
    seq(|relays|, i requires 0 <= i < |relays| reads relays => relays[i].input)
  }

  /** ... and those of the sessions it tracks. The two are the same list, in the same order. */
  function TrackedInputs(xs: seq<Session>): seq<Chan<FrameEvent>> {
    if |xs| == 0 then []
    else
      var last := xs[|xs| - 1];
      TrackedInputs(xs[..|xs| - 1]) + if last.link.Tracked? then [last.input] else []
  }

  /** The relays' inputs after each has been offered an event: the ones that could take it, with it at their
      end. */
  function Offered(inputs: seq<Chan<FrameEvent>>, ev: FrameEvent): seq<Chan<FrameEvent>> {
    if |inputs| == 0 then []
    else
      var last := inputs[|inputs| - 1];
      Offered(inputs[..|inputs| - 1], ev)
      + if last.open && |last.buf| < last.cap then [last.(buf := last.buf + [ev])] else []
  }

  /** The fan-out to the sessions is the fan-out to their inputs. */
  lemma {:induction false} FanOutOffers(xs: seq<Session>, ev: FrameEvent)
    ensures TrackedInputs(FanOut(xs, ev)) == Offered(TrackedInputs(xs), ev)
  {
    if |xs| > 0 {
      var front := xs[..|xs| - 1];
      FanOutOffers(front, ev);
      assert FanOut(xs, ev)[..|xs| - 1] == FanOut(front, ev);
      var last := xs[|xs| - 1];
      if last.link.Tracked? {
        OfferedAppend(TrackedInputs(front), last.input, ev);
      } else {
        assert TrackedInputs(xs) == TrackedInputs(front);
        assert TrackedInputs(FanOut(xs, ev)) == TrackedInputs(FanOut(front, ev));
      }
    }
  }

  lemma OfferedAppend(inputs: seq<Chan<FrameEvent>>, last: Chan<FrameEvent>, ev: FrameEvent)
    ensures Offered(inputs + [last], ev)
         == Offered(inputs, ev) + if last.open && |last.buf| < last.cap then [last.(buf := last.buf + [ev])] else []
  {
    assert (inputs + [last])[..|inputs|] == inputs;
  }

  lemma {:induction false} ReleaseTracksNone(xs: seq<Session>)
    ensures TrackedInputs(ReleaseAll(xs)) == []
  {
    if |xs| > 0 {
      ReleaseTracksNone(xs[..|xs| - 1]);
      assert ReleaseAll(xs)[..|xs| - 1] == ReleaseAll(xs[..|xs| - 1]);
    }
  }

  lemma StartTracks(xs: seq<Session>, frames: seq<FrameEvent>, live: bool)
    ensures TrackedInputs(xs + [StartSession(frames, live)])
         == TrackedInputs(xs) + if live then [New(1024, 2)] else []
  {
    assert (xs + [StartSession(frames, live)])[..|xs|] == xs;
  }

  lemma StartsOnHistory(frames: seq<FrameEvent>, live: bool)
    ensures StartSession(frames, live).input == New(1024, if live then 2 else 1)
    ensures StartSession(frames, live).relay.Backlog() == frames
  {
  }

  /** The relays that accept an event, in order. */
  ghost function Accepting(relays: seq<FrameRelay>): seq<FrameRelay>
    reads relays
  {
    if |relays| == 0 then []
    else
      var last := relays[|relays| - 1];
      Accepting(relays[..|relays| - 1]) + if last.input.CanSend() then [last] else []
  }

  lemma {:induction false} AcceptingDistinct(relays: seq<FrameRelay>)
    requires forall i, j :: 0 <= i < j < |relays| ==> relays[i] != relays[j]
    ensures forall r :: r in Accepting(relays) ==> r in relays
    ensures forall i, j :: 0 <= i < j < |Accepting(relays)| ==> Accepting(relays)[i] != Accepting(relays)[j]
  {
    if |relays| > 0 {
      AcceptingDistinct(relays[..|relays| - 1]);
      assert relays[|relays| - 1] !in relays[..|relays| - 1];
    }
  }

  /** Exactly the relays with room are kept, and offering them an event leaves their inputs as offered. */
  lemma {:induction false} AcceptedInputs(relays: seq<FrameRelay>, ev: FrameEvent)
    ensures forall r :: r in Accepting(relays) <==> r in relays && r.input.open && |r.input.buf| < r.input.cap
    ensures Offered(Inputs(relays), ev) == OfferedTo(Accepting(relays), ev)
  {
    if |relays| > 0 {
      var front, last := relays[..|relays| - 1], relays[|relays| - 1];
      AcceptedInputs(front, ev);
      assert Inputs(relays) == Inputs(front) + [last.input];
      OfferedAppend(Inputs(front), last.input, ev);
      assert relays == front + [last];
      var kept := Accepting(front);
      assert last.input.CanSend() ==> OfferedTo(kept + [last], ev) == OfferedTo(kept, ev) + [Offer(last.input, ev)];
    }
  }

  /** The inputs of these relays once each has been offered the event. */
  ghost function OfferedTo(relays: seq<FrameRelay>, ev: FrameEvent): seq<Chan<FrameEvent>>
    reads relays
  {
    seq(|relays|, i requires 0 <= i < |relays| reads relays => Offer(relays[i].input, ev))
  }

  class FrameBroadcaster {
    var frames: seq<FrameEvent>
    var relays: seq<FrameRelay>
    var frameRxOk: bool
    var reqRxOk: bool
    var running: bool

    ghost predicate Valid()
      reads this
    {
      && (forall i, j :: 0 <= i < j < |relays| ==> relays[i] != relays[j])
      && running == (frameRxOk || reqRxOk)
    }

    ghost function View(): Broadcaster
      reads this
    {
      Broadcaster(frames, frameRxOk, reqRxOk, running)
    }

    constructor ()
      ensures Valid() && View() == Broadcaster([], true, true, true) && relays == []
    {
      frames, relays := [], [];
      frameRxOk, reqRxOk, running := true, true, true;
    }

    method LoopHead()
      modifies this`running
      ensures View() == old(View()).LoopHead()
    {
      running := frameRxOk || reqRxOk;
    }

    /** Offer an event to every relay, without waiting for any; those that took it, in order. */
    method OfferAll(ev: FrameEvent) returns (kept: seq<FrameRelay>)
      requires Valid()
      modifies relays
      ensures kept == old(Accepting(relays))
      ensures forall r :: r in relays ==> r.input == old(Offer(r.input, ev))
    {
      hide Offer, Chan<FrameEvent>.CanSend;
      kept := [];
      var i := 0;
      while i < |relays|
        invariant 0 <= i <= |relays|
        invariant kept == old(Accepting(relays[..i]))
        invariant forall j :: 0 <= j < i ==> relays[j].input == old(Offer(relays[j].input, ev))
        invariant forall j :: i <= j < |relays| ==> relays[j].input == old(relays[j].input)
      {
        var r := relays[i];
        assert relays[..i + 1][..i] == relays[..i];
        var ok := r.Retain(ev);
        if ok {
          kept := kept + [r];
        }
        i := i + 1;
      }
      assert relays[..i] == relays;
    }

    /** A new event from the tracker: it is offered to every relay, those that cannot take it are
        dropped, the others keep their order, and it joins the history. `xs` are the sessions as the
        system sees them: the broadcaster's list remains the list of those it tracks. */
    method OnFrame(ev: FrameEvent, ghost xs: seq<Session>)
      requires Valid() && running && frameRxOk
      modifies this, relays
      ensures Valid() && View() == old(View()).(frames := old(frames) + [ev])
      ensures relays == old(Accepting(relays))
      ensures forall r :: r in old(relays) ==> r.input == old(Offer(r.input, ev))
      ensures forall r :: r in relays <==> r in old(relays) && old(r.input.open && |r.input.buf| < r.input.cap)
      ensures Inputs(relays) == old(Offered(Inputs(relays), ev))
      ensures old(Inputs(relays)) == TrackedInputs(xs) ==> Inputs(relays) == TrackedInputs(FanOut(xs, ev))
    {
      hide Offer, Offered, Accepting;
      AcceptingDistinct(relays);
      AcceptedInputs(relays, ev);
      FanOutOffers(xs, ev);
      ghost var offered := OfferedTo(Accepting(relays), ev);
      var kept := OfferAll(ev);
      assert Inputs(kept) == offered;
      relays := kept;
      frames := frames + [ev];
      LoopHead();
      assert Inputs(relays) == offered;
    }

    /** The tracker is gone: there will be no more events, and the relays are let go. */
    method OnFramesEnd(ghost xs: seq<Session>)
      requires Valid() && running && frameRxOk
      modifies this, relays
      ensures Inputs(relays) == TrackedInputs(ReleaseAll(xs))
      ensures Valid() && View() == old(View()).(frameRxOk := false).LoopHead()
      ensures relays == []
      ensures forall r :: r in old(relays) ==> r.input == old(r.input).DropSender()
    {
      ReleaseTracksNone(xs);
      frameRxOk := false;
      var i := 0;
      while i < |relays|
        invariant 0 <= i <= |relays| && relays == old(relays) && View() == old(View()).(frameRxOk := false)
        invariant forall j :: 0 <= j < i ==> relays[j].input == old(relays[j].input).DropSender()
        invariant forall j :: i <= j < |relays| ==> relays[j].input == old(relays[j].input)
        modifies relays
      {
        relays[i].Drop();
        i := i + 1;
      }
      relays := [];
      LoopHead();
    }

    /** A request. If its caller takes the receiver, a relay is started on a snapshot of the history, and
        tracked only if there might be more events; if the caller is gone, no relay is started. */
    method OnRequest(accepted: bool, ghost xs: seq<Session>)
      returns (relay: Option<FrameRelay>, snapshot: seq<FrameEvent>)
      requires Valid() && running && reqRxOk
      modifies this
      ensures old(Inputs(relays)) == TrackedInputs(xs) ==>
                Inputs(relays)
                == TrackedInputs(if accepted then xs + [StartSession(frames, frameRxOk)] else xs)
      ensures Valid() && View() == old(View())
      ensures relay.Some? <==> accepted
      ensures accepted ==>
                && fresh(relay.value) && relay.value.input == StartSession(frames, frameRxOk).input
                && snapshot == frames && snapshot == StartSession(frames, frameRxOk).relay.Backlog()
      ensures relays == if accepted && frameRxOk then old(relays) + [relay.value] else old(relays)
    {
      StartTracks(xs, frames, frameRxOk);
      StartsOnHistory(frames, frameRxOk);
      hide StartSession, TrackedInputs;
      relay, snapshot := None, [];
      if accepted {
        snapshot := frames;
        var handle := new FrameRelay(2);
        relay := Some(handle);
        if frameRxOk {
          relays := relays + [handle];
        } else {
          handle.Drop();
        }
      }
      assert Inputs(relays) == old(Inputs(relays)) + if accepted && frameRxOk then [New(1024, 2)] else [];
      LoopHead();
    }

    /** Nobody can make a request any more. The relays stay: there might be more events for them. */
    method OnRequestsEnd()
      requires Valid() && running && reqRxOk
      modifies this
      ensures Valid() && View() == old(View()).(reqRxOk := false).LoopHead()
      ensures relays == old(relays) && frames == old(frames) && !reqRxOk
      ensures frameRxOk == old(frameRxOk) && running == frameRxOk
    {
      reqRxOk := false;
      LoopHead();
    }
  }

  /** The relay's task. */
  class RelayTask {
    var pc: RelayPc
    var frames: seq<FrameEvent>
    var toSend: Option<FrameEvent>

    ghost function View(): Relay
      reads this
    {
      Relay(pc, frames, toSend)
    }

    constructor (snapshot: seq<FrameEvent>)
      ensures View() == Relay(Looping, snapshot, None)
    {
      pc, frames, toSend := Looping, snapshot, None;
    }

    /** The head of the loop. */
    method Refill()
      modifies this
      ensures View() == old(View()).Refill()
      ensures View().Backlog() == old(View().Backlog())
      ensures toSend.None? ==> old(View().Backlog()) == []
    {
      RefillKeepsBacklog(View());
      RefillTakesOldest(View());
      if toSend.None? && |frames| > 0 {
        toSend := Some(frames[0]);
        frames := frames[1..];
      }
    }

    /** The arm that receives from the broadcaster. A send that was pending is cancelled: its event stays
        in hand. */
    method OnBroadcast(received: Option<FrameEvent>)
      requires pc.Looping?
      modifies this
      ensures received.Some? ==> View() == old(View()).Received(received.value)
      ensures received.None? ==> View() == old(View()).SourceClosed()
      ensures received.Some? ==> pc.Looping? && View().Backlog() == old(View().Backlog()) + [received.value]
      ensures received.None? ==> pc.Draining? && View().Backlog() == old(View().Backlog())
    {
      RefillTakesOldest(View());
      RefillKeepsBacklog(View());
      Refill();
      match received {
        case Some(ev) => frames := frames + [ev];
        case None => pc := Draining;
      }
    }

    /** The arm that sends to the client. */
    method OnSent(ok: bool)
      requires pc.Looping? && View().Refill().toSend.Some?
      modifies this
      ensures View() == if ok then old(View()).Sent() else old(View()).Stop()
      ensures ok ==> pc.Looping? && toSend.None? && [old(View().Backlog())[0]] + frames == old(View().Backlog())
      ensures !ok ==> pc.Ended?
    {
      RefillTakesOldest(View());
      Refill();
      if ok {
        toSend := None;
      } else {
        pc, frames, toSend := Ended, [], None;
      }
    }

    /** After the loop, had the input closed: send everything left, ignoring failures once the client,
        which takes `room` more events, is gone. */
    method Drain(room: nat) returns (sent: seq<FrameEvent>)
      requires pc.Draining?
      modifies this
      ensures View() == old(View()).Stop()
      ensures var all := old(View().Backlog()); sent == if room < |all| then all[..room] else all
    {
      sent := [];
      var left := (if toSend.Some? then [toSend.value] else []) + frames;
      var i := 0;
      while i < |left|
        invariant 0 <= i <= |left|
        invariant sent == left[..if room < i then room else i]
      {
        if |sent| < room {
          sent := sent + [left[i]];
        }
        i := i + 1;
      }
      pc, frames, toSend := Ended, [], None;
    }
  }
}
