/** The task that cuts one output stream of the child into frames. */
module Readers {
  import opened Channels
  import opened Events

  /** What a reader sends to the tracker: a frame, or the read error that ended it. */
  datatype Message = Good(frame: Frame) | Bad(err: TrackerError)

  datatype ReaderPc =
    | Reading                  // awaiting the stream
    | Sending(msg: Message)    // awaiting room in the tracker's channel
    | Finished

  /** `source` is everything the stream will ever yield and `failure` how it ends (None is end of
      file); `seen` and `rest` split the source at the read position. `cut` records the frames made
      so far. `ch` is the channel to the tracker. */
  datatype Reader = Reader(
    kind: StreamKind,
    source: seq<byte>,
    failure: Option<IoError>,
    seen: seq<byte>,
    rest: seq<byte>,
    cut: seq<Frame>,
    pc: ReaderPc,
    ch: Chan<Message>)

  datatype ReaderAction =
    | Read(n: nat)     // the stream yields n bytes
    | End              // the stream yields zero bytes or an error
    | Deliver          // a pending send completes
    | DeliverFails     // a pending send fails: the tracker dropped its receiver

  /** The capacity of the channel to the tracker. */
  const READER_CAP := 16

  function Start(kind: StreamKind, source: seq<byte>, failure: Option<IoError>): Reader {
    Reader(kind, source, failure, [], source, [], Reading, New(READER_CAP, 2))
  }

  predicate ReaderEnabled(r: Reader, a: ReaderAction) {
    match a
    case Read(n) => r.pc.Reading? && 1 <= n <= |r.rest| && n <= FRAME_MAX
    case End => r.pc.Reading? && |r.rest| == 0
    case Deliver => r.pc.Sending? && r.ch.CanSend()
    case DeliverFails => r.pc.Sending? && !r.ch.open
  }

  /** The task ends: every sender it still holds is dropped. */
  function Finish(r: Reader): Reader {
    r.(pc := Finished, ch := r.ch.(senders := 0))
  }

  function ReaderApply(r: Reader, a: ReaderAction): Reader
    requires ReaderEnabled(r, a)
  {
    match a
    case Read(n) =>
      var frame := Frame(r.kind, r.rest[..n]);
      r.(seen := r.seen + r.rest[..n], rest := r.rest[n..], cut := r.cut + [frame], pc := Sending(Good(frame)))
    case End =>
      if r.failure.None? then Finish(r)
      else
        // the inner loop returned the error and with it the sender it had been given
        r.(pc := Sending(Bad(ReadOutput(r.kind, r.failure.value))), ch := r.ch.DropSender())
    case Deliver =>
      var r' := r.(ch := r.ch.Send(r.pc.msg));
      if r.pc.msg.Good? then r'.(pc := Reading) else Finish(r')
    case DeliverFails => Finish(r)
  }

  /** The frames among a channel's messages. */
  function Goods(msgs: seq<Message>): seq<Frame> {
    if |msgs| == 0 then []
    else (if msgs[0].Good? then [msgs[0].frame] else []) + Goods(msgs[1..])
  }

  lemma {:induction false} GoodsAppend(msgs: seq<Message>, m: Message)
    ensures Goods(msgs + [m]) == Goods(msgs) + if m.Good? then [m.frame] else []
  {
    if |msgs| == 0 {
      assert msgs + [m] == [m];
    } else {
      GoodsAppend(msgs[1..], m);
      assert (msgs + [m])[1..] == msgs[1..] + [m];
    }
  }

  /** The frame a reader has cut but not yet delivered. */
  function InHand(pc: ReaderPc): seq<Frame> {
    if pc.Sending? && pc.msg.Good? then [pc.msg.frame] else []
  }

  /** What a reader keeps on its own: the frames it cut carry exactly the bytes it read, in order and
      in sizes from 1 to 1024, and an error is only ever the last message it sends. */
  ghost predicate ReaderInv(r: Reader) {
    && r.seen + r.rest == r.source
    && BytesOf(r.cut) == r.seen
    && (forall i :: 0 <= i < |r.cut| ==> FrameOk(r.cut[i], r.kind))
    && r.ch.cap == READER_CAP && |r.ch.buf| <= READER_CAP
    && r.ch.senders == (if r.pc.Finished? then 0 else if r.pc.Sending? && r.pc.msg.Bad? then 1 else 2)
    && (r.pc.Sending? && r.pc.msg.Bad? ==>
          |r.rest| == 0 && r.failure.Some? && r.pc.msg.err == ReadOutput(r.kind, r.failure.value))
    && (forall i :: 0 <= i < |r.ch.buf| && r.ch.buf[i].Bad? ==>
          i == |r.ch.buf| - 1 && r.pc.Finished? && r.failure.Some?
          && r.ch.buf[i].err == ReadOutput(r.kind, r.failure.value))
    && (r.pc.Finished? && r.ch.open ==> |r.rest| == 0)
  }

  /** How a reader stands to its receiver. `logged` are the frames the tracker has taken over, `on`
      says the tracker still listens, `healthy` that the tracker has met no error. */
  ghost predicate FlowInv(r: Reader, logged: seq<Frame>, on: bool, healthy: bool) {
    && (r.ch.open ==> r.cut == logged + Goods(r.ch.buf) + InHand(r.pc))
    && (!r.ch.open ==> logged <= r.cut && r.ch.buf == [])
    && (!on ==> r.pc.Finished? && r.ch.buf == [] && r.rest == [] && r.failure.None? && r.cut == logged)
    && (r.ch.open && r.pc.Finished? && r.failure.Some? && healthy ==>
          |r.ch.buf| > 0 && r.ch.buf[|r.ch.buf| - 1].Bad?)
  }

  lemma StartInv(kind: StreamKind, source: seq<byte>, failure: Option<IoError>)
    ensures var r := Start(kind, source, failure);
            ReaderInv(r) && FlowInv(r, [], true, true)
  {
  }

  lemma ReadKeepsInv(r: Reader, n: nat)
    requires ReaderInv(r) && ReaderEnabled(r, Read(n))
    ensures ReaderInv(ReaderApply(r, Read(n)))
  {
    hide BytesOf;
    BytesOfAppend(r.cut, Frame(r.kind, r.rest[..n]));
    assert r.rest[..n] + r.rest[n..] == r.rest;
    assert (r.seen + r.rest[..n]) + r.rest[n..] == r.source;
  }

  lemma DeliverKeepsInv(r: Reader)
    requires ReaderInv(r) && ReaderEnabled(r, Deliver)
    ensures ReaderInv(ReaderApply(r, Deliver))
  {
    hide BytesOf, FrameOk;
  }

  lemma EndKeepsInv(r: Reader, a: ReaderAction)
    requires ReaderInv(r) && ReaderEnabled(r, a) && (a.End? || a.DeliverFails?)
    ensures ReaderInv(ReaderApply(r, a))
  {
    hide BytesOf, FrameOk;
  }

  lemma ReaderKeepsInv(r: Reader, a: ReaderAction)
    requires ReaderInv(r) && ReaderEnabled(r, a)
    ensures ReaderInv(ReaderApply(r, a))
  {
    hide ReaderInv, ReaderEnabled, ReaderApply;
    match a
    case Read(n) => ReadKeepsInv(r, n);
    case Deliver => DeliverKeepsInv(r);
    case _ => EndKeepsInv(r, a);
  }

  lemma DeliverKeepsFlow(r: Reader, logged: seq<Frame>, on: bool, healthy: bool)
    requires ReaderInv(r) && FlowInv(r, logged, on, healthy) && ReaderEnabled(r, Deliver)
    ensures FlowInv(ReaderApply(r, Deliver), logged, on, healthy)
  {
    hide BytesOf, FrameOk, Goods;
    GoodsAppend(r.ch.buf, r.pc.msg);
    var r' := ReaderApply(r, Deliver);
    assert r.cut == logged + Goods(r.ch.buf) + InHand(r.pc);
    assert Goods(r'.ch.buf) == Goods(r.ch.buf) + InHand(r.pc) && InHand(r'.pc) == [];
  }

  lemma ReaderKeepsFlow(r: Reader, a: ReaderAction, logged: seq<Frame>, on: bool, healthy: bool)
    requires ReaderInv(r) && FlowInv(r, logged, on, healthy) && ReaderEnabled(r, a)
    ensures FlowInv(ReaderApply(r, a), logged, on, healthy)
  {
    hide BytesOf, FrameOk, Goods;
    if a.Deliver? {
      DeliverKeepsFlow(r, logged, on, healthy);
    }
  }

  /** One result of reading the stream: some bytes (none means end of file) or an error. */
  datatype ReadResult = Chunk(bs: seq<byte>) | ReadFails(err: IoError)

  predicate EndsReading(res: ReadResult) {
    res.ReadFails? || |res.bs| == 0
  }

  /** A complete history of reads: chunks of at most one buffer, then end of file or an error. */
  predicate CompleteReads(results: seq<ReadResult>) {
    && |results| > 0 && EndsReading(results[|results| - 1])
    && forall i :: 0 <= i < |results| ==> results[i].Chunk? ==> |results[i].bs| <= FRAME_MAX
  }

  /** The messages a history of reads amounts to. */
  function Messages(kind: StreamKind, results: seq<ReadResult>): seq<Message> {
    if |results| == 0 then []
    else if results[0].ReadFails? then [Bad(ReadOutput(kind, results[0].err))]
    else if |results[0].bs| == 0 then []
    else [Good(Frame(kind, results[0].bs))] + Messages(kind, results[1..])
  }

  /** The reading loop itself, against a stream that yields `results` and a tracker that accepts
      `room` messages before it goes away. */
  method ConsumeOutput(kind: StreamKind, results: seq<ReadResult>, room: nat) returns (sent: seq<Message>)
    requires CompleteReads(results)
    ensures var all := Messages(kind, results);
            sent == if room < |all| then all[..room] else all
  {
    hide BytesOf, FrameOk;
    sent := [];
    var failed: Option<TrackerError> := None;
    var i := 0;
    while true
      invariant 0 <= i < |results|
      invariant |sent| == i <= room
      invariant failed.None?
      invariant Messages(kind, results) == sent + Messages(kind, results[i..])
      decreases |results| - i
    {
      var res := results[i];
      if res.ReadFails? {
        failed := Some(ReadOutput(kind, res.err));
        break;
      }
      if |res.bs| == 0 {
        break;
      }
      if |sent| == room {
        break;
      }
      assert results[i..][1..] == results[i + 1..];
      sent := sent + [Good(Frame(kind, res.bs))];
      i := i + 1;
    }
    if failed.Some? && |sent| < room {
      sent := sent + [Bad(failed.value)];
    }
  }

  /** The history of reads behind a finished reader. */
  function ReadsOf(r: Reader): seq<ReadResult> {
    seq(|r.cut|, i requires 0 <= i < |r.cut| => Chunk(r.cut[i].bs))
    + [if r.failure.Some? then ReadFails(r.failure.value) else Chunk([])]
  }

  /** The step-by-step reader and the loop agree: a reader that finished with its receiver alive has
      read a complete history, and the loop makes of it the reader's frames followed by its error. */
  lemma FinishedReaderMatchesLoop(r: Reader)
    requires ReaderInv(r) && r.pc.Finished? && r.ch.open
    ensures CompleteReads(ReadsOf(r))
    ensures Goods(Messages(r.kind, ReadsOf(r))) == r.cut
    ensures BytesOf(Goods(Messages(r.kind, ReadsOf(r)))) == r.source
    ensures r.failure.None? ==> forall m :: m in Messages(r.kind, ReadsOf(r)) ==> m.Good?
    ensures r.failure.Some? ==> Bad(ReadOutput(r.kind, r.failure.value)) in Messages(r.kind, ReadsOf(r))
  {
    MessagesFrom(r, 0);
    assert r.cut[0..] == r.cut && ReadsOf(r)[0..] == ReadsOf(r);
  }

  lemma {:induction false} MessagesFrom(r: Reader, i: nat)
    requires ReaderInv(r) && i <= |r.cut|
    ensures var msgs := Messages(r.kind, ReadsOf(r)[i..]);
            && Goods(msgs) == r.cut[i..]
            && (r.failure.Some? ==> |msgs| > 0 && msgs[|msgs| - 1] == Bad(ReadOutput(r.kind, r.failure.value)))
            && (r.failure.None? ==> forall j :: 0 <= j < |msgs| ==> msgs[j].Good?)
    decreases |r.cut| - i
  {
    var results := ReadsOf(r)[i..];
    if i < |r.cut| {
      MessagesFrom(r, i + 1);
      assert results[1..] == ReadsOf(r)[i + 1..];
      assert results[0] == Chunk(r.cut[i].bs) && FrameOk(r.cut[i], r.kind);
      var msgs := Messages(r.kind, results);
      assert msgs[1..] == Messages(r.kind, ReadsOf(r)[i + 1..]);
    } else {
      var msgs := Messages(r.kind, results);
      assert msgs == if r.failure.Some? then [Bad(ReadOutput(r.kind, r.failure.value))] else [];
      assert r.cut[i..] == [];
    }
  }
}
