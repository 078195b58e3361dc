/** From the child's output streams to the bytes a client of the log service has received. */
module EndToEnd {
  import opened Events
  import opened Sessions
  import opened System
  import opened Invariant
  import opened LogTheorems

  /** How the protocol numbers the streams: STDOUT is 0 and STDERR is 1. */
  predicate OfStream(frame: LogFrame, k: StreamKind) {
    match k
    case Stdout => frame.kind == 0
    case Stderr => frame.kind == 1
  }

  /** The bytes of one stream among the items of a response. */
  function StreamBytes(items: seq<Item>, k: StreamKind): seq<byte> {
    if |items| == 0 then []
    else
      var last := items[|items| - 1];
      StreamBytes(items[..|items| - 1], k)
      + if last.Ok? && OfStream(last.frame, k) then last.frame.bs else []
  }

  predicate AllOk(items: seq<Item>) {
    forall i :: 0 <= i < |items| ==> items[i].Ok?
  }

  /** The response has ended: the forwarder is gone and the client, still there, has taken every item. */
  predicate ResponseComplete(x: Session) {
    x.stream.open && x.fwd.Closed? && |x.stream.buf| == 0
  }

  lemma StreamBytesAppend(items: seq<Item>, it: Item, k: StreamKind)
    ensures StreamBytes(items + [it], k)
         == StreamBytes(items, k) + if it.Ok? && OfStream(it.frame, k) then it.frame.bs else []
  {
    assert (items + [it])[..|items|] == items;
  }

  lemma {:induction false} StreamBytesPrefix(part: seq<Item>, whole: seq<Item>, k: StreamKind)
    requires part <= whole
    ensures StreamBytes(part, k) <= StreamBytes(whole, k)
    decreases |whole|
  {
    if |part| < |whole| {
      StreamBytesPrefix(part, whole[..|whole| - 1], k);
    } else {
      assert part == whole;
    }
  }

  /** Turning events into items keeps each stream's bytes. */
  lemma {:induction false} ItemsKeepBytes(evs: seq<FrameEvent>, k: StreamKind)
    ensures StreamBytes(Items(evs), k) == BytesOf(FramesOf(evs, k))
  {
    if |evs| > 0 {
      var front, ev := evs[..|evs| - 1], evs[|evs| - 1];
      ItemsKeepBytes(front, k);
      if ev.EOF? {
        assert Items(evs) == Items(front) && FramesOf(evs, k) == FramesOf(front, k);
      } else {
        StreamBytesAppend(Items(front), ItemOf(ev)[0], k);
        assert ItemOf(ev) == [ItemOf(ev)[0]];
        if ev.Data? && ev.frame.kind == k {
          BytesOfAppend(FramesOf(front, k), ev.frame);
        } else {
          assert FramesOf(evs, k) == FramesOf(front, k);
        }
      }
    }
  }

  /** A sealed log is turned into successful items only if it ends with end of file. */
  lemma {:induction false} ItemsOkIffEof(log: seq<FrameEvent>)
    requires Sealed(log)
    ensures AllOk(Items(log)) <==> Last(log) == EOF
  {
    var front := log[..|log| - 1];
    UnsealedItemsOk(front);
    if !Last(log).EOF? {
      assert Items(log)[|Items(front)|] == ItemOf(Last(log))[0];
    }
  }

  lemma {:induction false} UnsealedItemsOk(log: seq<FrameEvent>)
    requires Unsealed(log)
    ensures AllOk(Items(log))
  {
    if |log| > 0 {
      UnsealedItemsOk(log[..|log| - 1]);
      assert log[|log| - 1].Data?;
    }
  }

  lemma {:induction false} FramesOfPrefix(part: seq<FrameEvent>, whole: seq<FrameEvent>, k: StreamKind)
    requires part <= whole
    ensures FramesOf(part, k) <= FramesOf(whole, k)
    decreases |whole|
  {
    if |part| < |whole| {
      FramesOfPrefix(part, whole[..|whole| - 1], k);
    } else {
      assert part == whole;
    }
  }

  lemma GotOf(s: Sys, i: nat)
    requires Inv(s) && i < |s.sessions|
    ensures s.sessions[i].got <= Items(s.sessions[i].received)
    ensures ResponseComplete(s.sessions[i]) ==>
              s.sessions[i].got == Items(s.sessions[i].received) && Sealed(s.sessions[i].received)
  {
    hide Inv, RelayInv, ChannelInv, Items, Sealed, Unsealed;
    SessionOf(s, i);
    var x := s.sessions[i];
    if x.stream.open {
      assert x.got + x.stream.buf + ItemInHand(x.fwd) == x.got + (x.stream.buf + ItemInHand(x.fwd));
    }
  }

  /** Nothing is invented, reordered or repeated: at any moment, what any client has received of a
      stream is a prefix of what the child wrote to it. */
  lemma NothingInvented(s: Sys, i: nat, k: StreamKind)
    requires Reachable(s) && i < |s.sessions|
    ensures StreamBytes(s.sessions[i].got, k) <= ReaderOf(s, k).source
  {
    ReachableInv(s);
    GotOf(s, i);
    ReceivedPrefix(s, i);
    StreamPart(s, k);
    hide Reachable, Inv, Log, Items, StreamBytes, FramesOf, BytesOf;
    var received := s.sessions[i].received;
    StreamBytesPrefix(s.sessions[i].got, Items(received), k);
    ItemsKeepBytes(received, k);
    FramesOfPrefix(received, Log(s), k);
    BytesOfPrefix(FramesOf(received, k), FramesOf(Log(s), k));
  }

  /** A response that ended without an error item has delivered, for each stream, exactly the bytes the
      child wrote to it up to end of file, and the job is recorded as exited. */
  lemma CompleteResponseIsWholeOutput(s: Sys, i: nat)
    requires Reachable(s) && i < |s.sessions|
    requires ResponseComplete(s.sessions[i]) && AllOk(s.sessions[i].got)
    ensures StreamBytes(s.sessions[i].got, Stdout) == s.stdout.source && s.stdout.failure.None?
    ensures StreamBytes(s.sessions[i].got, Stderr) == s.stderr.source && s.stderr.failure.None?
    ensures s.job.state.Exited? && s.job.endedAt.Some?
  {
    CompleteResponseOkIffEof(s, i);
    ReachableInv(s);
    GotOf(s, i);
    TerminalMeansWhole(s, i);
    StreamPart(s, Stdout);
    StreamPart(s, Stderr);
    ItemsKeepBytes(Log(s), Stdout);
    ItemsKeepBytes(Log(s), Stderr);
    hide Reachable, Inv, Items, StreamBytes, FramesOf, BytesOf, Sealed, Log;
    assert EOF in Log(s);
    EofMeansExited(s);
  }

  /** A response that ended has an error item if and only if the log ends with an error. */
  lemma CompleteResponseOkIffEof(s: Sys, i: nat)
    requires Reachable(s) && i < |s.sessions|
    requires ResponseComplete(s.sessions[i])
    ensures Sealed(Log(s))
    ensures AllOk(s.sessions[i].got) <==> Last(Log(s)) == EOF
  {
    ReachableInv(s);
    GotOf(s, i);
    TerminalMeansWhole(s, i);
    hide Reachable, Inv, Items, Log;
    ItemsOkIffEof(Log(s));
  }

  /** What an event is to a client: a frame of that stream with those bytes, or a failure of the log with
      that error. End of file is no item. */
  predicate Mirrors(it: Item, ev: FrameEvent) {
    match ev
    case Data(frame) => it == Ok(LogFrame(if frame.kind.Stdout? then 0 else 1, frame.bs))
    case Error(err) => it == Err(StreamFailed(err))
    case EOF => false
  }

  lemma {:induction false} UnsealedItemsMirror(log: seq<FrameEvent>)
    requires Unsealed(log)
    ensures |Items(log)| == |log|
    ensures forall j :: 0 <= j < |log| ==> Mirrors(Items(log)[j], log[j])
  {
    if |log| > 0 {
      UnsealedItemsMirror(log[..|log| - 1]);
      assert log[|log| - 1].Data?;
    }
  }

  /** The items of a log are its events one by one, without the end of file. */
  lemma {:induction false} ItemsMirror(log: seq<FrameEvent>)
    requires Sealed(log) || Unsealed(log)
    ensures |Items(log)| == |log| - if |log| > 0 && Last(log) == EOF then 1 else 0
    ensures forall j :: 0 <= j < |Items(log)| ==> Mirrors(Items(log)[j], log[j])
  {
    if Sealed(log) {
      UnsealedItemsMirror(log[..|log| - 1]);
    } else {
      UnsealedItemsMirror(log);
      assert |log| > 0 ==> !Terminal(log[|log| - 1]);
    }
  }

  lemma {:induction false} ItemsPrefix(part: seq<FrameEvent>, whole: seq<FrameEvent>)
    requires part <= whole
    ensures Items(part) <= Items(whole)
    decreases |whole|
  {
    if |part| < |whole| {
      ItemsPrefix(part, whole[..|whole| - 1]);
    } else {
      assert part == whole;
    }
  }

  /** At any moment, each item a client has received is what the event in the same place of the log is to a
      client: kind, bytes and error are the event's own. */
  lemma GotMirrorsLog(s: Sys, i: nat)
    requires Reachable(s) && i < |s.sessions|
    ensures |s.sessions[i].got| <= |Log(s)|
    ensures forall j :: 0 <= j < |s.sessions[i].got| ==> Mirrors(s.sessions[i].got[j], Log(s)[j])
  {
    hide *;
    ReachableInv(s);
    GotOf(s, i);
    ReceivedPrefix(s, i);
    LogShape(s);
    PartMirrors(s.sessions[i].got, s.sessions[i].received, Log(s));
  }

  lemma PartMirrors(got: seq<Item>, received: seq<FrameEvent>, log: seq<FrameEvent>)
    requires got <= Items(received) && received <= log && (Sealed(log) || Unsealed(log))
    ensures |got| <= |log|
    ensures forall j :: 0 <= j < |got| ==> Mirrors(got[j], log[j])
  {
    hide Items, Sealed, Unsealed, Mirrors;
    ItemsPrefix(received, log);
    ItemsMirror(log);
    assert got <= Items(log);
  }

  /** A response that has ended holds an item for every event of the log but the end of file: it ends with
      the log's own error if the log does, and holds no other. */
  lemma CompleteResponseMirrorsLog(s: Sys, i: nat)
    requires Reachable(s) && i < |s.sessions| && ResponseComplete(s.sessions[i])
    ensures Sealed(Log(s)) && WholeMirrors(s.sessions[i].got, Log(s))
  {
    hide *;
    ReachableInv(s);
    GotOf(s, i);
    TerminalMeansWhole(s, i);
    SealedItemsMirror(Log(s));
  }

  /** An item for every event but the end of file; all of them frames, but for the error at the end. */
  ghost predicate WholeMirrors(got: seq<Item>, log: seq<FrameEvent>)
    requires Sealed(log)
  {
    && |got| == |log| - (if Last(log) == EOF then 1 else 0)
    && (forall j :: 0 <= j < |got| ==> Mirrors(got[j], log[j]))
    && (Last(log).Error? ==>
          && got[|got| - 1] == Err(StreamFailed(Last(log).err))
          && forall j :: 0 <= j < |got| - 1 ==> got[j].Ok?)
    && (Last(log) == EOF ==> forall j :: 0 <= j < |got| ==> got[j].Ok?)
  }

  lemma SealedItemsMirror(log: seq<FrameEvent>)
    requires Sealed(log)
    ensures WholeMirrors(Items(log), log)
  {
    hide Items;
    ItemsMirror(log);
    forall j | 0 <= j < |log| - 1 ensures log[j].Data? {
      InnerEvent(log, j);
    }
  }

  /** A client that was told of a read error was told the stream's own. */
  lemma ReceivedErrorIsReal(s: Sys, i: nat, k: StreamKind, err: IoError)
    requires Reachable(s) && i < |s.sessions|
    requires Err(StreamFailed(ReadOutput(k, err))) in s.sessions[i].got
    ensures ReaderOf(s, k).failure == Some(err)
  {
    hide Reachable, Log, Mirrors, Sealed, Unsealed;
    GotMirrorsLog(s, i);
    ReachableInv(s);
    LogShape(s);
    var j :| 0 <= j < |s.sessions[i].got| && s.sessions[i].got[j] == Err(StreamFailed(ReadOutput(k, err)));
    ErrorMirror(s.sessions[i].got[j], Log(s)[j]);
    if j + 1 < |Log(s)| {
      InnerEvent(Log(s), j);
    }
    TerminalSeals(Log(s), j);
    ErrorIsReal(s);
  }

  lemma ErrorMirror(it: Item, ev: FrameEvent)
    requires Mirrors(it, ev) && it.Err? && it.status.StreamFailed?
    ensures ev == Error(it.status.err)
  {
  }

  lemma TerminalSeals(log: seq<FrameEvent>, j: nat)
    requires (Sealed(log) || Unsealed(log)) && j < |log| && Terminal(log[j])
    ensures Sealed(log)
  {
  }

  /** Every event up to and including the first terminal one, or a report that there was none. */
  function Response(evs: seq<FrameEvent>): seq<Item> {
    if |evs| == 0 then [Err(StreamTerminated)]
    else ItemOf(evs[0]) + if Terminal(evs[0]) then [] else Response(evs[1..])
  }

  /** The forwarding loop itself, against a receiver that yields `evs` and then closes, and a client that
      takes `room` items before it goes away. */
  method ForwardLogs(evs: seq<FrameEvent>, room: nat) returns (items: seq<Item>)
    ensures items == Clip(Response(evs), room)
    ensures var n := Leading(evs);
            var end := if n == |evs| || evs[n].Error? then 1 else 0;
            && |items| == (if room < n + end then room else n + end)
            && (forall j :: 0 <= j < |items| && j < n ==> Mirrors(items[j], evs[j]))
            && (|items| > n ==>
                  items[n] == if n == |evs| then Err(StreamTerminated) else Err(StreamFailed(evs[n].err)))
  {
    hide Response, Mirrors, Leading;
    ClippedShape(evs, room);
    items := [];
    var i := 0;
    assert evs[0..] == evs;
    while true
      invariant 0 <= i <= |evs| && |items| <= room
      invariant Response(evs) == items + Response(evs[i..])
      decreases |evs| - i
    {
      ClipAfter(items, Response(evs[i..]), room);
      if i == |evs| {
        assert evs[i..] == [];
        ResponseOfNothing();
        if |items| < room { items := items + [Err(StreamTerminated)]; }
        break;
      }
      var event := evs[i];
      ResponseUnfolds(evs, i);
      i := i + 1;
      match event {
        case Data(frame) =>
          if |items| == room { break; }
          items := items + [Ok(LogFrame(ToLogFrameKind(frame.kind), frame.bs))];
        case Error(err) =>
          if |items| < room { items := items + [Err(StreamFailed(err))]; }
          break;
        case EOF =>
          break;
      }
    }
  }

  /** How many events come before the first terminal one, or in all. */
  function Leading(evs: seq<FrameEvent>): (n: nat)
    ensures n <= |evs| && (n < |evs| ==> Terminal(evs[n]))
    ensures forall j :: 0 <= j < n ==> evs[j].Data?
  {
    if |evs| == 0 || Terminal(evs[0]) then 0 else 1 + Leading(evs[1..])
  }

  /** The response to a sequence of events: its leading events, then the error that ended it, or a report if
      nothing did. */
  lemma {:induction false} ResponseShape(evs: seq<FrameEvent>)
    ensures var n := Leading(evs);
            var end := if n == |evs| || evs[n].Error? then 1 else 0;
            && |Response(evs)| == n + end
            && (forall j :: 0 <= j < n ==> Mirrors(Response(evs)[j], evs[j]))
            && (end == 1 ==>
                  Response(evs)[n] == if n == |evs| then Err(StreamTerminated) else Err(StreamFailed(evs[n].err)))
  {
    if |evs| > 0 && !Terminal(evs[0]) {
      ResponseShape(evs[1..]);
      assert Response(evs) == ItemOf(evs[0]) + Response(evs[1..]);
    }
  }

  lemma ClippedShape(evs: seq<FrameEvent>, room: nat)
    ensures var items, n := Clip(Response(evs), room), Leading(evs);
            var end := if n == |evs| || evs[n].Error? then 1 else 0;
            && |items| == (if room < n + end then room else n + end)
            && (forall j :: 0 <= j < |items| && j < n ==> Mirrors(items[j], evs[j]))
            && (|items| > n ==>
                  items[n] == if n == |evs| then Err(StreamTerminated) else Err(StreamFailed(evs[n].err)))
  {
    hide Response, Mirrors, Leading;
    ResponseShape(evs);
  }

  /** The first `room` items. */
  function Clip(items: seq<Item>, room: nat): seq<Item> {
    if room < |items| then items[..room] else items
  }

  lemma ClipAfter(front: seq<Item>, rest: seq<Item>, room: nat)
    requires |front| <= room
    ensures |front| == room ==> Clip(front + rest, room) == front
    ensures |front| < room && |rest| <= 1 ==> Clip(front + rest, room) == front + rest
    ensures |rest| == 0 ==> Clip(front + rest, room) == front
  {
  }

  lemma ResponseOfNothing()
    ensures Response([]) == [Err(StreamTerminated)]
  {
  }

  lemma ResponseUnfolds(evs: seq<FrameEvent>, i: nat)
    requires i < |evs|
    ensures Response(evs[i..]) == ItemOf(evs[i]) + if Terminal(evs[i]) then [] else Response(evs[i + 1..])
  {
    assert evs[i..][1..] == evs[i + 1..];
  }

  /** On a whole log the loop's response is the items of the log's events, as in the pipeline. */
  lemma {:induction false} ResponseOfSealedLog(front: seq<FrameEvent>, last: FrameEvent)
    requires Unsealed(front) && Terminal(last)
    ensures Response(front + [last]) == Items(front + [last])
    decreases |front|
  {
    var log := front + [last];
    if |front| == 0 {
      assert log == [last] && log[1..] == [] && log[..0] == [];
    } else {
      assert log[1..] == front[1..] + [last];
      ResponseOfSealedLog(front[1..], last);
      ItemsCons(front[0], front[1..] + [last]);
      assert log == [front[0]] + (front[1..] + [last]);
    }
  }

  lemma {:induction false} ItemsCons(ev: FrameEvent, evs: seq<FrameEvent>)
    ensures Items([ev] + evs) == ItemOf(ev) + Items(evs)
    decreases |evs|
  {
    hide ItemOf, Items;
    if |evs| == 0 {
      assert [ev] + evs == [] + [ev];
      ItemsAppend([], ev);
      NoItems();
    } else {
      var front, last := evs[..|evs| - 1], evs[|evs| - 1];
      assert evs == front + [last] && [ev] + evs == ([ev] + front) + [last];
      ItemsCons(ev, front);
      ItemsAppend(front, last);
      ItemsAppend([ev] + front, last);
    }
  }

  lemma NoItems()
    ensures Items([]) == []
  {
  }
}
