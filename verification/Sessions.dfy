/** One log client from end to end: the relay that replays the log to it, and the forwarder that
    turns log events into items of the client's response stream. */
module Sessions {
  import opened Channels
  import opened Events

  /** The broadcaster's hold on a relay: it still offers events to it, it gave up on it because an
      offer failed, or it let go of it because there will be no more events. */
  datatype Link = Tracked | Evicted | Released

  datatype RelayPc = Looping | Draining | Ended

  /** The relay's local variables. */
  datatype Relay = Relay(pc: RelayPc, pending: seq<FrameEvent>, toSend: Option<FrameEvent>) {
    /** The head of the loop: take up the next event if none is being sent. */
    function Refill(): Relay {
      if toSend.None? && |pending| > 0 then this.(toSend := Some(pending[0]), pending := pending[1..]) else this
    }

    function Received(ev: FrameEvent): Relay {
      Refill().(pending := Refill().pending + [ev])
    }

    function SourceClosed(): Relay {
      Refill().(pc := Draining)
    }

    function Sent(): Relay {
      Refill().(toSend := None)
    }

    function Stop(): Relay {
      Relay(Ended, [], None)
    }

    /** The events taken over but not yet sent, in order. */
    function Backlog(): seq<FrameEvent> {
      (if toSend.Some? then [toSend.value] else []) + pending
    }
  }

  datatype LogFrame = LogFrame(kind: int, bs: seq<byte>)

  datatype Status = StreamTerminated | StreamFailed(err: TrackerError)

  datatype Item = Ok(frame: LogFrame) | Err(status: Status)

  function ToLogFrameKind(k: StreamKind): int {
    match k
    case Stdout => 0
    case Stderr => 1
  }

  datatype ForwarderPc =
    | Opening                          // the request handler still holds the receiver
    | Receiving
    | Delivering(item: Item, last: bool)
    | Closed

  /** `snap` is the length of the log when the session began. `relayed` records every event the relay
      has put into `output`, `received` those the forwarder has taken out, and `got` the items the
      client has received. */
  datatype Session = Session(
    snap: nat,
    link: Link,
    input: Chan<FrameEvent>,
    relay: Relay,
    relayed: seq<FrameEvent>,
    output: Chan<FrameEvent>,
    received: seq<FrameEvent>,
    fwd: ForwarderPc,
    stream: Chan<Item>,
    got: seq<Item>)

  /** The capacity of both channels of a relay, and that of a response stream. */
  const RELAY_CAP := 1024
  const STREAM_CAP := 1

  datatype SessionAction =
    | RelayRecv | RelayClosed | RelaySend | RelaySendFails | DrainSend | DrainDone
    | StartForward | ForwardRecv | ForwardClosed | ForwardSend | ForwardSendFails
    | ClientRecv | ClientLeave

  /** A relay starts with a snapshot of the log. Its task owns a sender of its own input, and the
      broadcaster owns another for as long as it tracks the relay. */
  function StartSession(frames: seq<FrameEvent>, track: bool): Session {
    Session(|frames|, if track then Tracked else Released, New(RELAY_CAP, if track then 2 else 1),
            Relay(Looping, frames, None), [], New(RELAY_CAP, 1), [], Opening, New(STREAM_CAP, 1), [])
  }

  /** A non-blocking offer of an event: on failure the relay's handle, and its sender, are dropped. */
  function Offer(input: Chan<FrameEvent>, ev: FrameEvent): Chan<FrameEvent> {
    if input.CanSend() then input.Send(ev) else input.DropSender()
  }

  function OfferTo(x: Session, ev: FrameEvent): Session {
    if !x.link.Tracked? then x
    else x.(input := Offer(x.input, ev), link := if x.input.CanSend() then Tracked else Evicted)
  }

  function ReleaseFrom(x: Session): Session {
    if !x.link.Tracked? then x
    else x.(input := x.input.DropSender(), link := Released)
  }

  /** The item an event is turned into, if any. */
  function ItemOf(ev: FrameEvent): seq<Item> {
    match ev
    case Data(frame) => [Ok(LogFrame(ToLogFrameKind(frame.kind), frame.bs))]
    case Error(err) => [Err(StreamFailed(err))]
    case EOF => []
  }

  /** The relay's task ends: its receiver and its senders are dropped. */
  function EndRelay(x: Session): Session {
    x.(relay := x.relay.Stop(),
       input := x.input.DropReceiver().DropSender(),
       output := x.output.DropSender())
  }

  /** The forwarder's task ends. */
  function CloseForwarder(x: Session): Session {
    x.(fwd := Closed, output := x.output.DropReceiver(), stream := x.stream.DropSender())
  }

  predicate SessionEnabled(x: Session, a: SessionAction) {
    match a
    case RelayRecv => x.relay.pc.Looping? && x.input.CanRecv()
    case RelayClosed => x.relay.pc.Looping? && x.input.AtEnd()
    case RelaySend => x.relay.pc.Looping? && x.relay.Refill().toSend.Some? && x.output.CanSend()
    case RelaySendFails => x.relay.pc.Looping? && x.relay.Refill().toSend.Some? && !x.output.open
    case DrainSend =>
      x.relay.pc.Draining? && x.relay.Refill().toSend.Some? && (x.output.CanSend() || !x.output.open)
    case DrainDone => x.relay.pc.Draining? && x.relay.Refill().toSend.None?
    case StartForward => x.fwd.Opening?
    case ForwardRecv => x.fwd.Receiving? && x.output.CanRecv()
    case ForwardClosed => x.fwd.Receiving? && x.output.AtEnd()
    case ForwardSend => x.fwd.Delivering? && x.stream.CanSend()
    case ForwardSendFails => x.fwd.Delivering? && !x.stream.open
    case ClientRecv => x.stream.open && x.stream.CanRecv()
    case ClientLeave => x.stream.open
  }

  function SessionApply(x: Session, a: SessionAction): Session
    requires SessionEnabled(x, a)
  {
    match a
    case RelayRecv => x.(relay := x.relay.Received(x.input.buf[0]), input := x.input.Recv())
    case RelayClosed => x.(relay := x.relay.SourceClosed())
    case RelaySend =>
      var ev := x.relay.Refill().toSend.value;
      x.(relay := x.relay.Sent(), relayed := x.relayed + [ev], output := x.output.Send(ev))
    case RelaySendFails => EndRelay(x)
    case DrainSend =>
      var ev := x.relay.Refill().toSend.value;
      if x.output.CanSend() then
        x.(relay := x.relay.Sent(), relayed := x.relayed + [ev], output := x.output.Send(ev))
      else
        x.(relay := x.relay.Sent())
    case DrainDone => EndRelay(x)
    case StartForward => x.(fwd := Receiving)
    case ForwardRecv =>
      var ev := x.output.buf[0];
      var x' := x.(output := x.output.Recv(), received := x.received + [ev]);
      if ev.EOF? then CloseForwarder(x') else x'.(fwd := Delivering(ItemOf(ev)[0], ev.Error?))
    case ForwardClosed => x.(fwd := Delivering(Err(StreamTerminated), true))
    case ForwardSend =>
      var x' := x.(stream := x.stream.Send(x.fwd.item));
      if x.fwd.last then CloseForwarder(x') else x'.(fwd := Receiving)
    case ForwardSendFails => CloseForwarder(x)
    case ClientRecv => x.(got := x.got + [x.stream.buf[0]], stream := x.stream.Recv())
    case ClientLeave =>
      var x' := x.(stream := x.stream.DropReceiver());
      if x.fwd.Opening? then CloseForwarder(x') else x'
  }

  /** The items a sequence of events is turned into. */
  function Items(evs: seq<FrameEvent>): seq<Item> {
    if |evs| == 0 then [] else Items(evs[..|evs| - 1]) + ItemOf(evs[|evs| - 1])
  }

  lemma ItemsAppend(evs: seq<FrameEvent>, ev: FrameEvent)
    ensures Items(evs + [ev]) == Items(evs) + ItemOf(ev)
  {
    assert (evs + [ev])[..|evs|] == evs;
  }

  function ItemInHand(fwd: ForwarderPc): seq<Item> {
    if fwd.Delivering? then [fwd.item] else []
  }

  /** Everything the relay has been given, oldest first: what it has relayed, what it holds, and what
      waits in its input. */
  function Chain(x: Session): seq<FrameEvent> {
    x.relayed + x.relay.Backlog() + x.input.buf
  }

  /** What holds of every session. `frames` is the broadcaster's history and `live` says that the
      broadcaster may still receive events. */
  ghost predicate SessionInv(frames: seq<FrameEvent>, live: bool, x: Session) {
    && ChannelInv(x)
    && (live ==> !x.link.Released?) && (!live ==> !x.link.Tracked?)
    && RelayInv(frames, x)
    && ForwardInv(x)
  }

  ghost predicate ChannelInv(x: Session) {
    && x.input.cap == RELAY_CAP && |x.input.buf| <= RELAY_CAP
    && x.output.cap == RELAY_CAP && |x.output.buf| <= RELAY_CAP
    && x.stream.cap == STREAM_CAP && |x.stream.buf| <= STREAM_CAP
    && !x.relay.pc.Draining?
    && x.input.open == x.relay.pc.Looping?
    && x.input.senders == Count(x.relay.pc.Looping?) + Count(x.link.Tracked?)
    && x.output.senders == Count(x.relay.pc.Looping?)
    && x.output.open == !x.fwd.Closed?
    && x.stream.senders == Count(!x.fwd.Closed?)
    && (x.relay.pc.Ended? ==> x.fwd.Closed? && x.relay.Backlog() == [] && x.input.buf == [])
    && (!x.output.open ==> x.output.buf == [])
  }

  ghost predicate RelayInv(frames: seq<FrameEvent>, x: Session) {
    && x.snap <= |frames|
    && x.relayed <= frames
    && (x.output.open ==> x.relayed == x.received + x.output.buf)
    && x.received <= x.relayed
    && (x.relay.pc.Looping? ==>
          && |x.relayed + x.relay.Backlog()| >= x.snap
          && (!x.link.Evicted? ==> Chain(x) == frames)
          && (x.link.Evicted? ==>
                Chain(x) <= frames && x.snap + RELAY_CAP <= |Chain(x)| < |frames|))
  }

  ghost predicate ForwardInv(x: Session) {
    && (x.fwd.Opening? ==> x.received == [])
    && (x.fwd.Opening? || x.fwd.Receiving? ==> Unsealed(x.received))
    && (x.fwd.Delivering? ==>
          && |x.received| > 0 && Unsealed(x.received[..|x.received| - 1])
          && x.fwd.last == Terminal(x.received[|x.received| - 1])
          && x.received[|x.received| - 1] != EOF)
    && (x.fwd.Closed? && x.stream.open ==> Sealed(x.received))
    && (x.stream.open ==> x.got + x.stream.buf + ItemInHand(x.fwd) == Items(x.received))
    && (!x.stream.open ==> x.got <= Items(x.received))
  }

  lemma StartSessionInv(frames: seq<FrameEvent>, live: bool)
    ensures SessionInv(frames, live, StartSession(frames, live))
  {
    var x := StartSession(frames, live);
    assert Chain(x) == frames;
  }

  /** A new event keeps every session's invariant: it reaches a tracked relay or evicts it. */
  lemma OfferKeepsInv(frames: seq<FrameEvent>, ev: FrameEvent, x: Session)
    requires SessionInv(frames, true, x)
    ensures SessionInv(frames + [ev], true, OfferTo(x, ev))
  {
    var x' := OfferTo(x, ev);
    if x.relay.pc.Looping? && x.link.Tracked? && x.input.CanSend() {
      assert Chain(x') == Chain(x) + [ev];
    } else {
      assert Chain(x') == Chain(x);
    }
  }

  lemma ReleaseKeepsInv(frames: seq<FrameEvent>, x: Session)
    requires SessionInv(frames, true, x)
    ensures SessionInv(frames, false, ReleaseFrom(x))
  {
    assert Chain(ReleaseFrom(x)) == Chain(x);
  }

  lemma RefillKeepsBacklog(r: Relay)
    ensures r.Refill().Backlog() == r.Backlog()
  {
  }

  /** Whatever is in hand already, the head of the loop leaves the oldest event of the backlog in hand and
      the others waiting in order; the hand stays empty only if there is nothing to send. */
  lemma RefillTakesOldest(r: Relay)
    ensures r.Refill().toSend == if r.Backlog() == [] then None else Some(r.Backlog()[0])
    ensures r.Refill().pending == if r.Backlog() == [] then [] else r.Backlog()[1..]
    ensures r.Refill().pc == r.pc
  {
    if r.toSend.Some? {
      assert r.Backlog()[1..] == r.pending;
    }
  }

  lemma RelayRecvChain(x: Session)
    requires SessionEnabled(x, RelayRecv)
    ensures Chain(SessionApply(x, RelayRecv)) == Chain(x)
    ensures SessionApply(x, RelayRecv).relay.Backlog() == x.relay.Backlog() + [x.input.buf[0]]
  {
    RefillKeepsBacklog(x.relay);
    var x' := SessionApply(x, RelayRecv);
    assert x'.relay.Backlog() == x.relay.Refill().Backlog() + [x.input.buf[0]];
    assert [x.input.buf[0]] + x.input.buf[1..] == x.input.buf;
  }

  lemma RelaySendChain(x: Session)
    requires SessionEnabled(x, RelaySend)
    ensures var x' := SessionApply(x, RelaySend);
            && Chain(x') == Chain(x)
            && x'.relayed + x'.relay.Backlog() == x.relayed + x.relay.Backlog()
  {
    RefillKeepsBacklog(x.relay);
    var x' := SessionApply(x, RelaySend);
    var ev := x.relay.Refill().toSend.value;
    assert x.relay.Refill().Backlog() == [ev] + x'.relay.Backlog();
    assert x'.relayed == x.relayed + [ev] && x'.input == x.input;
    hide SessionApply, SessionEnabled, Relay.Refill, Relay.Backlog;
    MoveHead(x.relayed, ev, x'.relay.Backlog());
  }

  lemma MoveHead<T>(front: seq<T>, x: T, back: seq<T>)
    ensures (front + [x]) + back == front + ([x] + back)
  {
  }

  /** No step of a running relay loses, repeats or reorders an event: not when it moves one along, and
      not when a send is cancelled because an event arrived first. */
  lemma RelayStepChain(x: Session, a: SessionAction)
    requires ChannelInv(x) && SessionEnabled(x, a)
    requires x.relay.pc.Looping? && !a.RelaySendFails?
    ensures Chain(SessionApply(x, a)) == Chain(x)
    ensures |SessionApply(x, a).relayed + SessionApply(x, a).relay.Backlog()| >= |x.relayed + x.relay.Backlog()|
  {
    match a
    case RelayRecv => RelayRecvChain(x);
    case RelaySend => RelaySendChain(x);
    case _ =>
  }

  lemma SessionKeepsChannels(x: Session, a: SessionAction)
    requires ChannelInv(x) && SessionEnabled(x, a)
    ensures ChannelInv(SessionApply(x, a))
  {
  }

  /** What has been put into the client's channel is what was taken out of it and what still waits. */
  lemma SessionKeepsOutput(x: Session, a: SessionAction)
    requires x.output.open ==> x.relayed == x.received + x.output.buf
    requires x.received <= x.relayed && (!x.output.open ==> x.output.buf == []) && SessionEnabled(x, a)
    ensures var x' := SessionApply(x, a);
            && (x'.output.open ==> x'.relayed == x'.received + x'.output.buf)
            && x'.received <= x'.relayed
  {
    hide Relay.Refill, Relay.Received, Relay.Backlog;
    if a.ForwardRecv? {
      assert x.output.open ==> x.received + x.output.buf == (x.received + [x.output.buf[0]]) + x.output.buf[1..];
    }
  }

  /** A step keeps the session's snapshot and link, and its record of what was relayed unless it is a
      step of the relay's own loop. */
  lemma SessionStepFrame(x: Session, a: SessionAction)
    requires SessionEnabled(x, a)
    ensures var x' := SessionApply(x, a);
            && x'.snap == x.snap && x'.link == x.link
            && (x'.relay.pc.Looping? ==> x.relay.pc.Looping? && !a.RelaySendFails?)
            && (x.relay.pc.Looping? || a.DrainSend? || x'.relayed == x.relayed)
            && (a.RelaySendFails? ==> x'.relayed == x.relayed)
  {
    hide Relay.Backlog;
  }

  lemma SessionKeepsRelay(frames: seq<FrameEvent>, x: Session, a: SessionAction)
    requires ChannelInv(x) && RelayInv(frames, x) && SessionEnabled(x, a)
    ensures RelayInv(frames, SessionApply(x, a))
  {
    var x' := SessionApply(x, a);
    SessionKeepsOutput(x, a);
    SessionStepFrame(x, a);
    if x.relay.pc.Looping? && !a.RelaySendFails? {
      RelayStepChain(x, a);
      RelayedInChain(x');
    }
    hide SessionApply, SessionEnabled, Relay.Backlog, Chain;
  }

  lemma RelayedInChain(x: Session)
    ensures x.relayed <= Chain(x)
  {
    hide Relay.Backlog;
  }

  lemma ForwardRecvKeeps(x: Session)
    requires ChannelInv(x) && ForwardInv(x) && SessionEnabled(x, ForwardRecv)
    ensures ForwardInv(SessionApply(x, ForwardRecv))
  {
    hide Items;
    var ev := x.output.buf[0];
    var x' := SessionApply(x, ForwardRecv);
    ItemsAppend(x.received, ev);
    SealAppend(x.received, ev);
    assert x'.received[..|x.received|] == x.received;
    assert !ev.EOF? ==> ItemOf(ev) == [ItemOf(ev)[0]];
    assert x.stream.open ==> x.got + x.stream.buf == Items(x.received);
    if x.stream.open {
      assert x'.got + x'.stream.buf + ItemInHand(x'.fwd) == Items(x'.received);
    } else {
      assert Items(x.received) <= Items(x'.received);
    }
  }

  lemma ForwardSendKeeps(x: Session)
    requires ChannelInv(x) && ForwardInv(x) && SessionEnabled(x, ForwardSend)
    ensures ForwardInv(SessionApply(x, ForwardSend))
  {
    hide Items, Relay.Backlog;
    var x' := SessionApply(x, ForwardSend);
    var n := |x.received| - 1;
    SealAppend(x.received[..n], x.received[n]);
    assert x.received == x.received[..n] + [x.received[n]];
    assert x.got + (x.stream.buf + [x.fwd.item]) == x.got + x.stream.buf + [x.fwd.item];
  }

  lemma ClientStepKeeps(x: Session, a: SessionAction)
    requires ChannelInv(x) && ForwardInv(x) && SessionEnabled(x, a)
    requires a.ClientRecv? || a.ClientLeave?
    ensures ForwardInv(SessionApply(x, a))
  {
    var x' := SessionApply(x, a);
    assert a.ClientRecv? ==> x'.got + x'.stream.buf == x.got + x.stream.buf;
    assert x.got + x.stream.buf + ItemInHand(x.fwd) == x.got + (x.stream.buf + ItemInHand(x.fwd));
  }

  lemma SessionKeepsForward(x: Session, a: SessionAction)
    requires ChannelInv(x) && ForwardInv(x) && SessionEnabled(x, a)
    ensures ForwardInv(SessionApply(x, a))
  {
    match a
    case ForwardRecv => ForwardRecvKeeps(x);
    case ForwardSend => ForwardSendKeeps(x);
    case ClientRecv => ClientStepKeeps(x, a);
    case ClientLeave => ClientStepKeeps(x, a);
    case _ =>
  }

  lemma SessionKeepsInv(frames: seq<FrameEvent>, live: bool, x: Session, a: SessionAction)
    requires SessionInv(frames, live, x) && SessionEnabled(x, a)
    ensures SessionInv(frames, live, SessionApply(x, a))
  {
    SessionKeepsChannels(x, a);
    SessionKeepsRelay(frames, x, a);
    SessionKeepsForward(x, a);
  }
}
