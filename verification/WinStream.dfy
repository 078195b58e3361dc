/** The Windows output stream: a thread reads the child's pipe and hands chunks over a bounded queue to
    an asynchronous reader, which it wakes after each. */
module WinStream {
  import opened Channels
  import opened Events
  import opened Readers

  // ------------------------------------------------------------- poll_read

  /** A queued result of reading the pipe. */
  datatype Item = Bytes(bs: seq<byte>) | Failure(err: IoError)

  datatype PollResult = Pending | Ready(bs: seq<byte>) | Failed(err: IoError)

  /** The stream's buffer and the position up to which it has been handed out. */
  datatype Cursor = Cursor(buffer: seq<byte>, pos: nat) {
    predicate Ok() {
      pos <= |buffer|
    }

    function Left(): seq<byte>
      requires Ok()
    {
      buffer[pos..]
    }
  }

  /** Hand out what fits. */
  function Copy(c: Cursor, room: nat): (Cursor, PollResult)
    requires c.Ok()
  {
    var n := if |c.buffer| - c.pos < room then |c.buffer| - c.pos else room;
    (c.(pos := c.pos + n), Ready(c.buffer[c.pos..c.pos + n]))
  }

  /** One poll of the stream with room for `room` bytes: the next buffer is fetched only when the
      current one has been handed out. */
  function PollRead(q: Chan<Item>, c: Cursor, room: nat): (Chan<Item>, Cursor, PollResult)
    requires c.Ok()
  {
    if c.pos < |c.buffer| then
      var (c', res) := Copy(c, room);
      (q, c', res)
    else if q.CanRecv() then
      match q.buf[0]
      case Bytes(bs) =>
        var (c', res) := Copy(Cursor(bs, 0), room);
        (q.Recv(), c', res)
      case Failure(err) => (q.Recv(), c, Failed(err))
    else if q.AtEnd() then (q, c, Ready([]))
    else (q, c, Pending)
  }

  function Payload(item: Item): seq<byte> {
    if item.Bytes? then item.bs else []
  }

  /** The bytes waiting in a queue. */
  function QueuedBytes(items: seq<Item>): seq<byte> {
    if |items| == 0 then [] else Payload(items[0]) + QueuedBytes(items[1..])
  }

  lemma CopyConserves(c: Cursor, room: nat)
    requires c.Ok()
    ensures var (c', res) := Copy(c, room);
            c'.Ok() && res.Ready? && res.bs + c'.Left() == c.Left() && |res.bs| <= room
  {
  }

  /** A poll loses, repeats and reorders nothing, whatever room it is given: what it hands out, what
      stays in the buffer and what stays in the queue are what was in the buffer and in the queue. */
  lemma PollConserves(q: Chan<Item>, c: Cursor, room: nat)
    requires c.Ok()
    ensures var (q', c', res) := PollRead(q, c, room);
            && c'.Ok()
            && HandedOut(res) + c'.Left() + QueuedBytes(q'.buf) == c.Left() + QueuedBytes(q.buf)
            && |HandedOut(res)| <= room
  {
    hide Copy;
    var (q', c', res) := PollRead(q, c, room);
    if c.pos < |c.buffer| {
      CopyConserves(c, room);
    } else if q.CanRecv() && q.buf[0].Bytes? {
      CopyConserves(Cursor(q.buf[0].bs, 0), room);
      assert c.Left() == [];
      assert QueuedBytes(q.buf) == Payload(q.buf[0]) + QueuedBytes(q'.buf);
    } else if q.CanRecv() {
      assert QueuedBytes(q.buf) == [] + QueuedBytes(q'.buf);
    }
  }

  function HandedOut(res: PollResult): seq<byte> {
    if res.Ready? then res.bs else []
  }

  /** As much as fits. */
  function First(bs: seq<byte>, room: nat): seq<byte> {
    if |bs| < room then bs else bs[..room]
  }

  /** What a poll of a stream with `left` in its buffer means: it hands out what fits of the buffer; if that
      is used up, of the next chunk; or passes on an error; and with nothing queued it tells whether
      more may come. */
  predicate PollMeans(rx: Chan<Item>, left: seq<byte>, room: nat, rx': Chan<Item>, left': seq<byte>, res: PollResult) {
    if left != [] then
      rx' == rx && res == Ready(First(left, room)) && First(left, room) + left' == left
    else if rx.buf != [] then
      && rx' == rx.(buf := rx.buf[1..])
      && match rx.buf[0]
         case Bytes(bs) => res == Ready(First(bs, room)) && First(bs, room) + left' == bs
         case Failure(err) => res == Failed(err) && left' == []
    else
      rx' == rx && left' == [] && res == if rx.senders == 0 then Ready([]) else Pending
  }

  lemma PollReports(q: Chan<Item>, c: Cursor, room: nat)
    requires c.Ok()
    ensures var (q', c', res) := PollRead(q, c, room);
            c'.Ok() && PollMeans(q, c.buffer[c.pos..], room, q', c'.buffer[c'.pos..], res)
  {
    CopyReports(c, room);
    if q.CanRecv() && q.buf[0].Bytes? {
      CopyReports(Cursor(q.buf[0].bs, 0), room);
      assert Cursor(q.buf[0].bs, 0).Left() == q.buf[0].bs;
    }
    hide Copy, First;
  }

  lemma CopyReports(c: Cursor, room: nat)
    requires c.Ok()
    ensures var (c', res) := Copy(c, room);
            && c'.Ok() && res == Ready(First(c.Left(), room)) && First(c.Left(), room) + c'.Left() == c.Left()
  {
    CopyConserves(c, room);
    var (c', res) := Copy(c, room);
    assert res.bs == First(c.Left(), room);
  }

  /** The caller's buffer. */
  class ReadBuf {
    const data: array<byte>
    var filled: nat

    ghost predicate Valid()
      reads this
    {
      filled <= data.Length
    }

    constructor (size: nat)
      ensures Valid() && fresh(this) && fresh(data) && data.Length == size && filled == 0
    {
      data := new byte[size];
      filled := 0;
    }

    method PutSlice(bs: seq<byte>)
      requires Valid() && filled + |bs| <= data.Length
      modifies this, data
      ensures Valid() && filled == old(filled) + |bs|
      ensures data[old(filled)..filled] == bs
      ensures data[..old(filled)] == old(data[..filled])
    {
      var i := 0;
      while i < |bs|
        invariant 0 <= i <= |bs| && filled == old(filled)
        invariant data[filled..filled + i] == bs[..i]
        invariant data[..filled] == old(data[..filled])
        modifies data
      {
        data[filled + i] := bs[i];
        i := i + 1;
      }
      filled := filled + |bs|;
    }
  }

  class WinHandleOutputStream {
    var rx: Chan<Item>
    var buffer: seq<byte>
    var pos: nat
    var wakerSet: bool

    ghost predicate Valid()
      reads this
    {
      pos <= |buffer|
    }

    constructor (rx: Chan<Item>)
      ensures Valid() && this.rx == rx && buffer == [] && pos == 0 && !wakerSet
    {
      this.rx := rx;
      buffer, pos, wakerSet := [], 0, false;
    }

    /** Register the waker, then either hand out bytes, report an error or end of file, or give up for
        now. Exactly the bytes of the result are appended to the caller's buffer. */
    method Poll(buf: ReadBuf) returns (res: PollResult)
      requires Valid() && buf.Valid()
      modifies this, buf, buf.data
      ensures Valid() && buf.Valid() && wakerSet
      ensures (rx, Cursor(buffer, pos), res)
           == PollRead(old(rx), old(Cursor(buffer, pos)), old(buf.data.Length - buf.filled))
      ensures var got := HandedOut(res);
              && buf.filled == old(buf.filled) + |got|
              && buf.data[old(buf.filled)..buf.filled] == got
      ensures buf.data[..old(buf.filled)] == old(buf.data[..buf.filled])
      ensures PollMeans(old(rx), old(buffer[pos..]), old(buf.data.Length - buf.filled), rx, buffer[pos..], res)
    {
      PollReports(rx, Cursor(buffer, pos), buf.data.Length - buf.filled);
      hide PollMeans;
      wakerSet := true;
      if pos >= |buffer| {
        if rx.CanRecv() {
          var item := rx.buf[0];
          rx := rx.Recv();
          match item {
            case Bytes(bs) =>
              buffer, pos := bs, 0;
            case Failure(err) =>
              return Failed(err);
          }
        } else if rx.AtEnd() {
          return Ready([]);
        } else {
          return Pending;
        }
      }
      var avail := |buffer| - pos;
      var room := buf.data.Length - buf.filled;
      var toCopy := if avail < room then avail else room;
      res := Ready(buffer[pos..pos + toCopy]);
      buf.PutSlice(buffer[pos..pos + toCopy]);
      pos := pos + toCopy;
    }
  }

  // ------------------------------------------------- the two tasks together

  /** What reading the pipe returns: up to one buffer of bytes, the end of the pipe, or an error. */
  datatype PipeRead = Got(bs: seq<byte>) | BrokenPipe | PipeFails(err: IoError)

  /** The reading thread. `last` says that it will stop after this item. */
  datatype ProducerPc =
    | ReadingPipe
    | SendingItem(item: Item, last: bool)
    | Waking(last: bool)
    | Dropping
    | Gone

  /** The task that reads the stream: running, between registering its waker and looking at the queue,
      parked until it is scheduled, or done with the stream. */
  datatype ConsumerPc = Active | Polling(room: nat) | Parked | Stopped

  /** `piped` records the bytes the pipe yielded, `sent` those put into the queue, `results` what the
      consumer's polls returned. `stops` says that the consumer stops at the first zero-byte or error
      result, `roomy` that it never polls without room for a byte. */
  datatype Win = Win(
    stops: bool,
    roomy: bool,
    piped: seq<byte>,
    sent: seq<byte>,
    producer: ProducerPc,
    queue: Chan<Item>,
    waker: bool,
    scheduled: bool,
    consumer: ConsumerPc,
    cursor: Cursor,
    results: seq<ReadResult>)

  const QUEUE_CAP := 1024

  datatype WinAction =
    | PipeReturns(res: PipeRead) | SendItem | SendFails | Wake | DropSender
    | TaskRuns | Poll(room: nat) | TryRecv | Leave | CloseStream | SpuriousWake

  function WinStart(stops: bool, roomy: bool): Win {
    Win(stops, roomy, [], [], ReadingPipe, New(QUEUE_CAP, 1), false, false, Active, Cursor([], 0), [])
  }

  predicate WinEnabled(w: Win, a: WinAction) {
    match a
    case PipeReturns(res) => w.producer.ReadingPipe? && (res.Got? ==> |res.bs| <= FRAME_MAX)
    case SendItem => w.producer.SendingItem? && w.queue.CanSend()
    case SendFails => w.producer.SendingItem? && !w.queue.open
    case Wake => w.producer.Waking?
    case DropSender => w.producer.Dropping?
    case TaskRuns => w.consumer.Parked? && w.scheduled
    case Poll(room) => w.consumer.Active? && (w.roomy ==> room > 0)
    case TryRecv => w.consumer.Polling? && w.cursor.Ok()
    case Leave => w.consumer.Active?
    case CloseStream => w.consumer.Stopped? && w.queue.open
    case SpuriousWake => true
  }

  /** The item a read of the pipe is turned into: the end of the pipe becomes an empty chunk. */
  function ItemOf(res: PipeRead): Item {
    match res
    case Got(bs) => Bytes(bs)
    case BrokenPipe => Bytes([])
    case PipeFails(err) => Failure(err)
  }

  /** An item after which the thread stops. */
  predicate FinalItem(item: Item) {
    item.Failure? || |item.bs| == 0
  }

  /** A completed poll as the consumer records it. A zero-byte result counts only if there was room. */
  function Recorded(res: PollResult, room: nat): seq<ReadResult> {
    match res
    case Pending => []
    case Ready(bs) => if |bs| == 0 && room == 0 then [] else [Chunk(bs)]
    case Failed(err) => [ReadFails(err)]
  }

  function WinApply(w: Win, a: WinAction): Win
    requires WinEnabled(w, a)
  {
    match a
    case PipeReturns(res) =>
      w.(piped := w.piped + (if res.Got? then res.bs else []),
         producer := SendingItem(ItemOf(res), FinalItem(ItemOf(res))))
    case SendItem =>
      var item := w.producer.item;
      w.(sent := w.sent + Payload(item),
         queue := w.queue.Send(item),
         producer := Waking(w.producer.last))
    case SendFails =>
      // a failed send of bytes ends the thread at once; after a failed send of an error it still wakes
      w.(producer := if w.producer.item.Failure? then Waking(true) else Dropping)
    case Wake =>
      w.(scheduled := w.scheduled || w.waker,
         waker := false,
         producer := if w.producer.last then Dropping else ReadingPipe)
    case DropSender => w.(producer := Gone, queue := w.queue.DropSender())
    case TaskRuns => w.(consumer := Active, scheduled := false)
    case Poll(room) => w.(consumer := Polling(room), waker := true)
    case TryRecv =>
      var room := w.consumer.room;
      var (q, c, res) := PollRead(w.queue, w.cursor, room);
      var recorded := Recorded(res, room);
      var ended := |recorded| > 0 && EndsReading(recorded[0]);
      w.(queue := q, cursor := c, results := w.results + recorded,
         consumer := if res.Pending? then Parked else if ended && w.stops then Stopped else Active)
    case Leave => w.(consumer := Stopped)
    case CloseStream => w.(queue := w.queue.DropReceiver())
    case SpuriousWake => w.(scheduled := true)
  }

  /** What the thread sends for a read: its bytes, none at the end of the pipe, or its error. */
  predicate Carries(item: Item, res: PipeRead) {
    match res
    case Got(bs) => item == Bytes(bs)
    case BrokenPipe => item == Bytes([])
    case PipeFails(err) => item == Failure(err)
  }

  /** A read after which the thread stops. */
  predicate EndsPipe(res: PipeRead) {
    !res.Got? || res.bs == []
  }

  /** How many reads of a pipe the thread makes: all up to the first that ends it. */
  function ReadsMade(pipe: seq<PipeRead>): (n: nat)
    ensures n <= |pipe| && (n < |pipe| ==> n > 0 && EndsPipe(pipe[n - 1]))
    ensures forall j :: 0 <= j < n - 1 ==> !EndsPipe(pipe[j])
  {
    if |pipe| == 0 then 0
    else if EndsPipe(pipe[0]) then 1
    else 1 + ReadsMade(pipe[1..])
  }

  /** The thread's loop itself, against a pipe that yields `pipe` and a queue that takes `room` items before
      its receiver is dropped. It wakes the task after each item it sent, and after an error it could
      not send. */
  method ReadHandle(pipe: seq<PipeRead>, room: nat) returns (sent: seq<Item>, wakes: nat)
    ensures var n := ReadsMade(pipe);
            && |sent| == (if room < n then room else n)
            && (forall j :: 0 <= j < |sent| ==> Carries(sent[j], pipe[j]))
            && wakes == |sent| + if room < n && pipe[room].PipeFails? then 1 else 0
  {
    sent, wakes := [], 0;
    var i := 0;
    assert pipe[0..] == pipe;
    while i < |pipe|
      invariant 0 <= i <= |pipe|
      invariant |sent| == i <= room && wakes == i
      invariant forall j :: 0 <= j < i ==> Carries(sent[j], pipe[j])
      invariant ReadsMade(pipe) == i + ReadsMade(pipe[i..])
    {
      assert pipe[i..][1..] == pipe[i + 1..];
      var chunk: seq<byte> := [];
      match pipe[i] {
        case PipeFails(err) =>
          if |sent| < room {
            sent := sent + [Failure(err)];
          }
          wakes := wakes + 1;
          break;
        case BrokenPipe =>
        case Got(bs) =>
          chunk := bs;
      }
      if |sent| == room {
        break;
      }
      sent := sent + [Bytes(chunk)];
      wakes := wakes + 1;
      if |chunk| == 0 {
        break;
      }
      i := i + 1;
    }
  }

  predicate WinCanRun(w: Win, acts: seq<WinAction>)
    decreases |acts|
  {
    |acts| == 0 || (WinEnabled(w, acts[0]) && WinCanRun(WinApply(w, acts[0]), acts[1..]))
  }

  function WinAfter(w: Win, acts: seq<WinAction>): Win
    requires WinCanRun(w, acts)
    decreases |acts|
  {
    if |acts| == 0 then w else WinAfter(WinApply(w, acts[0]), acts[1..])
  }

  /** The bytes among the results of a consumer's polls. */
  function Delivered(results: seq<ReadResult>): seq<byte> {
    if |results| == 0 then []
    else Delivered(results[..|results| - 1])
         + if results[|results| - 1].Chunk? then results[|results| - 1].bs else []
  }

  predicate LastSent(p: ProducerPc) {
    (p.Waking? && p.last) || p.Dropping? || p.Gone?
  }

  ghost predicate QueueInv(w: Win) {
    && w.cursor.Ok() && |w.cursor.buffer| <= FRAME_MAX
    && w.queue.cap == QUEUE_CAP && |w.queue.buf| <= QUEUE_CAP
    && w.queue.senders == Count(!w.producer.Gone?)
    && (!w.queue.open ==> w.consumer.Stopped? && w.queue.buf == [])
    && (forall i :: 0 <= i < |w.queue.buf| ==>
          && (w.queue.buf[i].Bytes? ==> |w.queue.buf[i].bs| <= FRAME_MAX)
          && (FinalItem(w.queue.buf[i]) ==> i == |w.queue.buf| - 1 && LastSent(w.producer)))
    && (w.producer.SendingItem? ==>
          && w.producer.last == FinalItem(w.producer.item)
          && (w.producer.item.Bytes? ==> |w.producer.item.bs| <= FRAME_MAX))
    && (w.roomy && w.consumer.Polling? ==> w.consumer.room > 0)
  }

  /** What a polling consumer has and what is on its way to it. */
  function Flow(w: Win): seq<byte>
    requires w.cursor.Ok()
  {
    Delivered(w.results) + w.cursor.Left() + QueuedBytes(w.queue.buf)
  }

  function InHand(p: ProducerPc): seq<byte> {
    if p.SendingItem? then Payload(p.item) else []
  }

  /** The consumer has been told of the end of the pipe, or of an error. */
  ghost predicate Ended(results: seq<ReadResult>) {
    exists i :: 0 <= i < |results| && EndsReading(results[i])
  }

  ghost predicate BytesInv(w: Win) {
    && w.cursor.Ok()
    && (w.queue.open ==> Flow(w) == w.sent && w.sent + InHand(w.producer) == w.piped)
    && Delivered(w.results) <= w.sent <= w.piped
    && (Ended(w.results) ==> Delivered(w.results) == w.sent == w.piped && LastSent(w.producer))
  }

  /** What became of the thread's last item: it is in the queue unless the consumer has finished. */
  ghost predicate EndInv(w: Win) {
    LastSent(w.producer) ==>
      w.consumer.Stopped? || (|w.queue.buf| > 0 && FinalItem(w.queue.buf[|w.queue.buf| - 1]))
  }

  ghost predicate WakeInv(w: Win) {
    && (w.consumer.Polling? || w.consumer.Parked? ==> w.waker || w.scheduled)
    && (w.consumer.Parked? && !w.scheduled ==> |w.queue.buf| == 0 || w.producer.Waking?)
  }

  /** The consumer's results are chunks of at most one buffer, and only the last can end its reading. */
  ghost predicate ResultsOk(results: seq<ReadResult>, consumer: ConsumerPc) {
    forall i :: 0 <= i < |results| ==>
      && (results[i].Chunk? ==> |results[i].bs| <= FRAME_MAX)
      && (EndsReading(results[i]) ==> i == |results| - 1 && consumer.Stopped?)
  }

  /** Holds for every consumer. */
  ghost predicate StreamInv(w: Win) {
    QueueInv(w) && BytesInv(w) && WakeInv(w)
  }

  /** Holds for a consumer that always offers room and stops at the first zero-byte or error result. */
  ghost predicate CarefulInv(w: Win) {
    w.stops && w.roomy && EndInv(w) && ResultsOk(w.results, w.consumer)
  }

  lemma DeliveredAppend(results: seq<ReadResult>, r: ReadResult)
    ensures Delivered(results + [r]) == Delivered(results) + if r.Chunk? then r.bs else []
  {
    assert (results + [r])[..|results|] == results;
  }

  lemma {:induction false} QueuedAppend(items: seq<Item>, item: Item)
    ensures QueuedBytes(items + [item]) == QueuedBytes(items) + Payload(item)
  {
    hide Payload;
    if |items| == 0 {
      assert items + [item] == [item];
      assert QueuedBytes([item]) == Payload(item) + QueuedBytes([item][1..]);
    } else {
      var rest := items[1..];
      QueuedAppend(rest, item);
      assert (items + [item])[1..] == rest + [item];
      Regroup([], Payload(items[0]), QueuedBytes(rest), Payload(item));
    }
  }

  lemma DeliveredRecorded(results: seq<ReadResult>, res: PollResult, room: nat)
    ensures Delivered(results + Recorded(res, room)) == Delivered(results) + HandedOut(res)
  {
    var recorded := Recorded(res, room);
    if |recorded| == 0 {
      assert results + recorded == results;
    } else {
      DeliveredAppend(results, recorded[0]);
      assert results + recorded == results + [recorded[0]];
    }
  }

  lemma TryRecvKeepsQueue(w: Win)
    requires QueueInv(w) && WinEnabled(w, TryRecv)
    ensures QueueInv(WinApply(w, TryRecv))
  {
  }

  /** What taking a poll's result changes. */
  lemma TryRecvParts(w: Win)
    requires WinEnabled(w, TryRecv)
    ensures var (w', room) := (WinApply(w, TryRecv), w.consumer.room);
            var (q, c, res) := PollRead(w.queue, w.cursor, room);
            && w'.queue == q && w'.cursor == c && w'.results == w.results + Recorded(res, room)
            && w'.sent == w.sent && w'.piped == w.piped && w'.producer == w.producer
  {
    hide PollRead, Recorded;
  }

  lemma TryRecvFlow(w: Win)
    requires WinEnabled(w, TryRecv)
    ensures WinApply(w, TryRecv).cursor.Ok() && Flow(WinApply(w, TryRecv)) == Flow(w)
    ensures Delivered(w.results) <= Delivered(WinApply(w, TryRecv).results) <= Flow(w)
  {
    TryRecvParts(w);
    var (q, c, res) := PollRead(w.queue, w.cursor, w.consumer.room);
    PollConserves(w.queue, w.cursor, w.consumer.room);
    DeliveredRecorded(w.results, res, w.consumer.room);
    hide WinApply, PollRead, Recorded, QueuedBytes, Delivered, HandedOut, Cursor.Left;
    Moved(Delivered(w.results), HandedOut(res), c.Left(), QueuedBytes(q.buf), w.cursor.Left(),
          QueuedBytes(w.queue.buf));
  }

  /** Bytes move from the buffer and the queue to what has been delivered. */
  lemma Moved(d: seq<byte>, got: seq<byte>, left: seq<byte>, queued: seq<byte>, left0: seq<byte>, queued0: seq<byte>)
    requires got + left + queued == left0 + queued0
    ensures (d + got) + left + queued == d + left0 + queued0
    ensures d <= d + got <= d + left0 + queued0
  {
    Regroup(d, got, left, queued);
    assert d + left0 + queued0 == d + (left0 + queued0);
  }

  lemma Regroup(a: seq<byte>, b: seq<byte>, c: seq<byte>, d: seq<byte>)
    ensures (a + b) + c + d == a + (b + c + d)
  {
  }

  /** The result of a poll that tells the consumer of the end: no bytes although there was room, or an
      error. */
  predicate TellsEnd(res: PollResult, room: nat) {
    res.Failed? || (res == Ready([]) && room > 0)
  }

  /** Zero bytes into a buffer with room, or an error, come only from the thread's last item, or after the
      thread is gone: either way nothing is left. */
  lemma ZeroBytesMeansEnd(w: Win)
    requires QueueInv(w) && WinEnabled(w, TryRecv)
    requires TellsEnd(PollRead(w.queue, w.cursor, w.consumer.room).2, w.consumer.room)
    ensures var w' := WinApply(w, TryRecv);
            LastSent(w.producer) && w'.cursor.Ok() && w'.cursor.Left() == [] && QueuedBytes(w'.queue.buf) == []
  {
    TryRecvParts(w);
    hide WinApply;
  }

  lemma EndedByPoll(results: seq<ReadResult>, res: PollResult, room: nat)
    ensures Ended(results + Recorded(res, room)) <==> Ended(results) || TellsEnd(res, room)
  {
    var recorded := Recorded(res, room);
    forall i | 0 <= i < |results| ensures (results + recorded)[i] == results[i] {
    }
    if |recorded| > 0 {
      assert (results + recorded)[|results|] == recorded[0];
    }
  }

  lemma TryRecvKeepsBytes(w: Win)
    requires QueueInv(w) && BytesInv(w) && WinEnabled(w, TryRecv)
    ensures BytesInv(WinApply(w, TryRecv))
  {
    var w' := WinApply(w, TryRecv);
    TryRecvParts(w);
    TryRecvFlow(w);
    assert w.queue.open;
    var room, res := w.consumer.room, PollRead(w.queue, w.cursor, w.consumer.room).2;
    EndedByPoll(w.results, res, room);
    if TellsEnd(res, room) {
      ZeroBytesMeansEnd(w);
    }
    hide WinApply, PollRead, Delivered, Ended, TellsEnd, Recorded;
    PollKeepsOpen(w.queue, w.cursor, room);
    if TellsEnd(res, room) {
      assert Flow(w') == Delivered(w'.results);
    }
  }

  lemma PollKeepsOpen(q: Chan<Item>, c: Cursor, room: nat)
    requires c.Ok()
    ensures PollRead(q, c, room).0.open == q.open
  {
  }

  lemma SendItemKeepsBytes(w: Win)
    requires QueueInv(w) && BytesInv(w) && WinEnabled(w, SendItem)
    ensures BytesInv(WinApply(w, SendItem))
  {
    hide PollRead, Recorded, Delivered, QueuedBytes, QueueInv, Payload;
    QueuedAppend(w.queue.buf, w.producer.item);
    Regroup(Delivered(w.results), w.cursor.Left(), QueuedBytes(w.queue.buf), Payload(w.producer.item));
    Regroup(Delivered(w.results), [], w.cursor.Left(), QueuedBytes(w.queue.buf));
    assert Flow(WinApply(w, SendItem)) == Flow(w) + InHand(w.producer);
  }

  lemma OtherStepKeepsBytes(w: Win, a: WinAction)
    requires QueueInv(w) && BytesInv(w) && WinEnabled(w, a) && !a.TryRecv?
    ensures BytesInv(WinApply(w, a))
  {
    if a.SendItem? {
      SendItemKeepsBytes(w);
    } else {
      hide PollRead, Recorded, Delivered, QueuedBytes;
    }
  }

  /** Whatever the consumer does, the queue stays well-formed and no byte is lost. */
  lemma WinStepKeepsStream(w: Win, a: WinAction)
    requires StreamInv(w) && WinEnabled(w, a)
    ensures StreamInv(WinApply(w, a))
  {
    hide QueueInv, BytesInv, WakeInv, WinEnabled, WinApply;
    WinStepKeepsWake(w, a);
    if a.TryRecv? {
      TryRecvKeepsQueue(w);
      TryRecvKeepsBytes(w);
    } else {
      OtherStepKeepsBytes(w, a);
      OtherStepKeepsQueue(w, a);
    }
  }

  /** Whatever the consumer does, it is not parked and unscheduled while something waits for it, unless the
      thread is about to wake it. */
  lemma WinStepKeepsWake(w: Win, a: WinAction)
    requires QueueInv(w) && WakeInv(w) && WinEnabled(w, a)
    ensures WakeInv(WinApply(w, a))
  {
    hide Recorded, Delivered, QueuedBytes;
  }

  lemma OtherStepKeepsQueue(w: Win, a: WinAction)
    requires QueueInv(w) && WinEnabled(w, a) && !a.TryRecv?
    ensures QueueInv(WinApply(w, a))
  {
    hide PollRead, Recorded, Delivered, QueuedBytes;
  }

  lemma TryRecvKeepsCareful(w: Win)
    requires QueueInv(w) && CarefulInv(w) && WinEnabled(w, TryRecv)
    ensures CarefulInv(WinApply(w, TryRecv))
  {
  }

  lemma OtherStepKeepsCareful(w: Win, a: WinAction)
    requires QueueInv(w) && CarefulInv(w) && WinEnabled(w, a) && !a.TryRecv?
    ensures CarefulInv(WinApply(w, a))
  {
    hide PollRead, Recorded, Delivered, QueuedBytes;
  }

  lemma WinStepKeepsCareful(w: Win, a: WinAction)
    requires StreamInv(w) && CarefulInv(w) && WinEnabled(w, a)
    ensures CarefulInv(WinApply(w, a))
  {
    if a.TryRecv? {
      TryRecvKeepsCareful(w);
    } else {
      OtherStepKeepsCareful(w, a);
    }
  }

  lemma {:induction false} WinRunKeepsInv(w: Win, acts: seq<WinAction>)
    requires StreamInv(w) && WinCanRun(w, acts)
    ensures StreamInv(WinAfter(w, acts))
    ensures CarefulInv(w) ==> CarefulInv(WinAfter(w, acts))
    decreases |acts|
  {
    if |acts| > 0 {
      hide StreamInv, CarefulInv, WinEnabled, WinApply;
      WinStepKeepsStream(w, acts[0]);
      if CarefulInv(w) {
        WinStepKeepsCareful(w, acts[0]);
      }
      WinRunKeepsInv(WinApply(w, acts[0]), acts[1..]);
    }
  }

  // --------------------------------------------------------------- results

  /** Byte conservation: for any consumer, any sequence of buffer sizes and any interleaving, what has
      been delivered, what is left in the buffer and what is queued are exactly the bytes sent; a
      zero-byte result or an error was returned only after every byte of the pipe had been delivered. */
  lemma BytesConserved(stops: bool, roomy: bool, acts: seq<WinAction>)
    requires WinCanRun(WinStart(stops, roomy), acts)
    ensures var w := WinAfter(WinStart(stops, roomy), acts);
            && w.cursor.Ok()
            && (w.queue.open ==>
                  Delivered(w.results) + w.cursor.Left() + QueuedBytes(w.queue.buf) == w.sent
                  && w.sent + InHand(w.producer) == w.piped)
            && Delivered(w.results) <= w.piped
            && (Ended(w.results) ==> Delivered(w.results) == w.piped)
  {
    WinRunKeepsInv(WinStart(stops, roomy), acts);
  }

  /** No lost wakeup while the thread works: whatever it does, a consumer is never parked and unscheduled
      while there is something for it, unless the thread is just about to wake it; its waker is then
      set, and the thread can always take its next step. */
  lemma ParkedIsWaited(stops: bool, roomy: bool, acts: seq<WinAction>)
    requires WinCanRun(WinStart(stops, roomy), acts)
    ensures var w := WinAfter(WinStart(stops, roomy), acts);
            w.consumer.Parked? && !w.scheduled ==>
              && w.waker
              && (|w.queue.buf| == 0 || w.producer.Waking?)
              && (w.producer.SendingItem? ==> WinEnabled(w, SendItem))
  {
    WinRunKeepsInv(WinStart(stops, roomy), acts);
    hide WinCanRun, WinAfter, WinApply, BytesInv, CarefulInv;
  }

  /** Parked and unscheduled, with a thread that will not wake it any more. */
  predicate Stranded(w: Win) {
    w.consumer.Parked? && !w.scheduled && (w.producer.Dropping? || w.producer.Gone?)
  }

  /** A consumer that always offers room and stops at the first zero-byte or error result is never
      stranded. */
  lemma CarefulNotStranded(acts: seq<WinAction>)
    requires WinCanRun(WinStart(true, true), acts)
    ensures !Stranded(WinAfter(WinStart(true, true), acts))
  {
    WinRunKeepsInv(WinStart(true, true), acts);
    hide WinCanRun, WinAfter, WinApply, BytesInv;
  }

  lemma {:induction false} WinOneMore(w: Win, acts: seq<WinAction>, a: WinAction)
    requires WinCanRun(w, acts) && WinEnabled(WinAfter(w, acts), a)
    ensures WinCanRun(w, acts + [a]) && WinAfter(w, acts + [a]) == WinApply(WinAfter(w, acts), a)
    decreases |acts|
  {
    hide WinEnabled, WinApply;
    if |acts| == 0 {
      assert acts + [a] == [a] && WinCanRun(WinApply(w, a), []);
    } else {
      WinOneMore(WinApply(w, acts[0]), acts[1..], a);
      assert (acts + [a])[1..] == acts[1..] + [a];
    }
  }

  /** Extend a run by one step. */
  lemma Next(w0: Win, acts: seq<WinAction>, a: WinAction) returns (acts': seq<WinAction>, w: Win)
    requires WinCanRun(w0, acts) && WinEnabled(WinAfter(w0, acts), a)
    ensures WinCanRun(w0, acts') && WinAfter(w0, acts') == w == WinApply(WinAfter(w0, acts), a)
  {
    WinOneMore(w0, acts, a);
    acts' := acts + [a];
    w := WinAfter(w0, acts');
  }

  /** The end of the pipe has been read, a poll with room for `room` bytes has taken its mark out of the
      queue, and the thread has woken the task but not yet dropped its sender. */
  lemma MarkTaken(w0: Win, room: nat) returns (acts: seq<WinAction>, w: Win)
    requires w0 == WinStart(w0.stops, w0.roomy)
    requires if w0.stops then !w0.roomy && room == 0 else room > 0
    ensures WinCanRun(w0, acts) && WinAfter(w0, acts) == w
    ensures w == w0.(producer := Dropping, scheduled := true, results := if room > 0 then [Chunk([])] else [])
  {
    acts, w := [], w0;
    acts, w := Next(w0, acts, PipeReturns(BrokenPipe));
    acts, w := Next(w0, acts, SendItem);
    acts, w := Next(w0, acts, Poll(room));
    assert w.queue.buf == [Bytes([])] && w.consumer == Polling(room);
    acts, w := Next(w0, acts, TryRecv);
    assert w.queue.buf == [] && w.consumer == Active;
    acts, w := Next(w0, acts, Wake);
  }

  /** From there a task that polls on is parked for good: its wakeup is spent on finding the queue empty
      but not yet closed. */
  lemma ParkedForGood(w0: Win, acts0: seq<WinAction>) returns (acts: seq<WinAction>, w: Win)
    requires WinCanRun(w0, acts0)
    requires WinAfter(w0, acts0)
          == w0.(producer := Dropping, scheduled := true, results := WinAfter(w0, acts0).results)
    requires w0 == WinStart(w0.stops, w0.roomy)
    ensures WinCanRun(w0, acts) && WinAfter(w0, acts) == w
    ensures w.consumer.Parked? && !w.scheduled && w.producer.Gone? && w.queue.open
    ensures w.results == WinAfter(w0, acts0).results
  {
    hide WinCanRun, WinAfter;
    acts, w := Next(w0, acts0, Poll(1));
    acts, w := Next(w0, acts, TryRecv);
    assert w.consumer == Parked;
    acts, w := Next(w0, acts, TaskRuns);
    acts, w := Next(w0, acts, Poll(1));
    acts, w := Next(w0, acts, TryRecv);
    acts, w := Next(w0, acts, DropSender);
  }

  /** Stopping is needed: a consumer that goes on polling after a zero-byte result can be parked for
      good, the thread being gone. */
  lemma PollingOnLosesWakeup() returns (acts: seq<WinAction>, w: Win)
    ensures WinCanRun(WinStart(false, true), acts) && w == WinAfter(WinStart(false, true), acts)
    ensures w.consumer.Parked? && !w.scheduled && w.producer.Gone? && w.queue.open
  {
    acts, w := MarkTaken(WinStart(false, true), 1);
    acts, w := ParkedForGood(WinStart(false, true), acts);
  }

  /** Room is needed: a poll without room swallows the mark of the end, and the consumer, never told of
      it, can be parked for good. */
  lemma PollingWithoutRoomLosesWakeup() returns (acts: seq<WinAction>, w: Win)
    ensures WinCanRun(WinStart(true, false), acts) && w == WinAfter(WinStart(true, false), acts)
    ensures w.consumer.Parked? && !w.scheduled && w.producer.Gone? && w.queue.open && w.results == []
  {
    acts, w := MarkTaken(WinStart(true, false), 0);
    acts, w := ParkedForGood(WinStart(true, false), acts);
  }

  /** Any consumer that is not held to both can be stranded. */
  lemma CarelessCanStrand(stops: bool, roomy: bool) returns (acts: seq<WinAction>, w: Win)
    requires !(stops && roomy)
    ensures WinCanRun(WinStart(stops, roomy), acts) && w == WinAfter(WinStart(stops, roomy), acts)
    ensures Stranded(w) && w.producer.Gone? && w.queue.open
  {
    acts, w := MarkTaken(WinStart(stops, roomy), if stops then 0 else 1);
    acts, w := ParkedForGood(WinStart(stops, roomy), acts);
  }

  /** Exactly when no wakeup is lost: over all runs, a kind of consumer is never stranded if and only if it
      stops at the first zero-byte or error result and always offers room. */
  lemma StrandedIff(stops: bool, roomy: bool)
    ensures (forall acts :: WinCanRun(WinStart(stops, roomy), acts) ==>
               !Stranded(WinAfter(WinStart(stops, roomy), acts)))
            <==> stops && roomy
  {
    hide WinCanRun, WinAfter, WinStart, Stranded;
    if stops && roomy {
      forall acts | WinCanRun(WinStart(stops, roomy), acts)
        ensures !Stranded(WinAfter(WinStart(stops, roomy), acts))
      {
        CarefulNotStranded(acts);
      }
    } else {
      var acts, w := CarelessCanStrand(stops, roomy);
    }
  }

  /** No lost wakeup: the consumers that are never stranded are never parked and unscheduled while there is
      something for them, unless the thread is just about to wake them, nor once it has finished. */
  lemma NoLostWakeup(stops: bool, roomy: bool, acts: seq<WinAction>)
    requires WinCanRun(WinStart(stops, roomy), acts)
    ensures var w := WinAfter(WinStart(stops, roomy), acts);
            w.consumer.Parked? && !w.scheduled ==>
              && w.waker
              && (|w.queue.buf| == 0 || w.producer.Waking?)
              && (w.producer.SendingItem? ==> WinEnabled(w, SendItem))
              && (stops && roomy ==> !w.producer.Dropping? && !w.producer.Gone?)
  {
    hide WinCanRun, WinAfter, WinStart, WinEnabled;
    ParkedIsWaited(stops, roomy, acts);
    StrandedIff(stops, roomy);
  }

  /** How the reads of a stream ended: at end of file, or with an error. */
  function FailureOf(results: seq<ReadResult>): Option<IoError>
    requires |results| > 0
  {
    var last := results[|results| - 1];
    if last.ReadFails? then Some(last.err) else None
  }

  /** What reading the pipe returned in a run, in order. */
  function PipeReads(acts: seq<WinAction>): seq<PipeRead> {
    if |acts| == 0 then []
    else PipeReads(acts[..|acts| - 1]) + if acts[|acts| - 1].PipeReturns? then [acts[|acts| - 1].res] else []
  }

  /** The bytes of those reads. */
  function BytesRead(pipe: seq<PipeRead>): seq<byte> {
    if |pipe| == 0 then []
    else BytesRead(pipe[..|pipe| - 1]) + if pipe[|pipe| - 1].Got? then pipe[|pipe| - 1].bs else []
  }

  /** What a consumer is told of the read that ended the pipe. */
  predicate Tells(res: ReadResult, read: PipeRead) {
    match read
    case PipeFails(err) => res == ReadFails(err)
    case _ => EndsPipe(read) && res == Chunk([])
  }

  predicate LastEnds(pipe: seq<PipeRead>) {
    |pipe| > 0 && EndsPipe(pipe[|pipe| - 1])
  }

  /** How the thread, the queue and the consumer stand to what reading the pipe has returned: no read follows
      one that ends the pipe, and it is that one the last item in the queue or the last result speaks of. */
  ghost predicate ReadsInv(w: Win, pipe: seq<PipeRead>) {
    && w.piped == BytesRead(pipe)
    && (forall j :: 0 <= j < |pipe| - 1 ==> !EndsPipe(pipe[j]))
    && (w.producer.ReadingPipe? || (w.producer.Waking? && !w.producer.last) ==> !LastEnds(pipe))
    && (w.producer.SendingItem? ==>
          && |pipe| > 0 && Carries(w.producer.item, pipe[|pipe| - 1])
          && w.producer.last == EndsPipe(pipe[|pipe| - 1]))
    && (forall i :: 0 <= i < |w.queue.buf| && FinalItem(w.queue.buf[i]) ==>
          LastEnds(pipe) && Carries(w.queue.buf[i], pipe[|pipe| - 1]))
    && (forall i :: 0 <= i < |w.results| && EndsReading(w.results[i]) ==>
          LastEnds(pipe) && Tells(w.results[i], pipe[|pipe| - 1]))
  }

  function ReadOf(a: WinAction): seq<PipeRead> {
    if a.PipeReturns? then [a.res] else []
  }

  lemma PipeReadsAppend(acts: seq<WinAction>, a: WinAction)
    ensures PipeReads(acts + [a]) == PipeReads(acts) + ReadOf(a)
  {
    assert (acts + [a])[..|acts|] == acts;
  }

  lemma BytesReadAppend(pipe: seq<PipeRead>, read: PipeRead)
    ensures BytesRead(pipe + [read]) == BytesRead(pipe) + if read.Got? then read.bs else []
  {
    assert (pipe + [read])[..|pipe|] == pipe;
  }

  lemma PipeReturnsReads(w: Win, res: PipeRead, pipe: seq<PipeRead>)
    requires ReadsInv(w, pipe) && QueueInv(w) && CarefulInv(w) && WinEnabled(w, PipeReturns(res))
    ensures ReadsInv(WinApply(w, PipeReturns(res)), pipe + [res])
  {
    BytesReadAppend(pipe, res);
    hide BytesRead, PollRead, Delivered, QueuedBytes, EndInv, ResultsOk;
  }

  lemma TryRecvReads(w: Win, pipe: seq<PipeRead>)
    requires ReadsInv(w, pipe) && QueueInv(w) && CarefulInv(w) && WinEnabled(w, TryRecv)
    ensures ReadsInv(WinApply(w, TryRecv), pipe)
  {
    hide BytesRead, Delivered, QueuedBytes, ResultsOk;
  }

  lemma OtherReads(w: Win, a: WinAction, pipe: seq<PipeRead>)
    requires ReadsInv(w, pipe) && QueueInv(w) && CarefulInv(w) && WinEnabled(w, a)
    requires !a.PipeReturns? && !a.TryRecv?
    ensures ReadsInv(WinApply(w, a), pipe)
  {
    hide BytesRead, PollRead, Delivered, QueuedBytes, EndInv, ResultsOk;
  }

  lemma WinStepReads(w: Win, a: WinAction, pipe: seq<PipeRead>)
    requires ReadsInv(w, pipe) && StreamInv(w) && CarefulInv(w) && WinEnabled(w, a)
    ensures ReadsInv(WinApply(w, a), pipe + ReadOf(a))
  {
    hide ReadsInv, QueueInv, CarefulInv, WinEnabled, WinApply;
    if a.PipeReturns? {
      PipeReturnsReads(w, a.res, pipe);
    } else {
      assert pipe + [] == pipe;
      if a.TryRecv? {
        TryRecvReads(w, pipe);
      } else {
        OtherReads(w, a, pipe);
      }
    }
  }

  lemma {:induction false} WinRunReads(w: Win, past: seq<WinAction>, acts: seq<WinAction>)
    requires StreamInv(w) && CarefulInv(w) && ReadsInv(w, PipeReads(past)) && WinCanRun(w, acts)
    ensures ReadsInv(WinAfter(w, acts), PipeReads(past + acts))
    decreases |acts|
  {
    hide *;
    if |acts| > 0 {
      WinUnfolds(w, acts);
      WinStepKeepsStream(w, acts[0]);
      WinStepKeepsCareful(w, acts[0]);
      PipeReadsAppend(past, acts[0]);
      WinStepReads(w, acts[0], PipeReads(past));
      WinRunReads(WinApply(w, acts[0]), past + [acts[0]], acts[1..]);
      assert past + [acts[0]] + acts[1..] == past + acts;
    } else {
      assert acts == [] && past + acts == past;
      WinEmptyRun(w);
    }
  }

  lemma WinUnfolds(w: Win, acts: seq<WinAction>)
    requires |acts| > 0 && WinCanRun(w, acts)
    ensures WinEnabled(w, acts[0]) && WinCanRun(WinApply(w, acts[0]), acts[1..])
    ensures WinAfter(w, acts) == WinAfter(WinApply(w, acts[0]), acts[1..])
  {
    hide WinEnabled, WinApply;
  }

  lemma WinEmptyRun(w: Win)
    ensures WinCanRun(w, []) && WinAfter(w, []) == w
  {
  }

  lemma {:induction false} ReadsAreReturns(acts: seq<WinAction>, res: PipeRead)
    ensures res in PipeReads(acts) <==> PipeReturns(res) in acts
  {
    if |acts| > 0 {
      var n := |acts| - 1;
      ReadsAreReturns(acts[..n], res);
      assert acts == acts[..n] + [acts[n]];
    }
  }

  /** The consumer is told what became of the pipe: over all runs of a careful consumer that was told of an
      end, the bytes piped are those the reads returned, it was told of an error if and only if a read
      returned that error, and of end of file if and only if a read found the pipe broken or returned no
      bytes. */
  lemma EndIsThePipes(acts: seq<WinAction>)
    requires WinCanRun(WinStart(true, true), acts)
    requires Ended(WinAfter(WinStart(true, true), acts).results)
    ensures var w := WinAfter(WinStart(true, true), acts);
            && w.piped == BytesRead(PipeReads(acts))
            && (forall err :: ReadFails(err) in w.results <==> PipeReturns(PipeFails(err)) in acts)
            && (Chunk([]) in w.results <==> PipeReturns(BrokenPipe) in acts || PipeReturns(Got([])) in acts)
  {
    var w, pipe := WinAfter(WinStart(true, true), acts), PipeReads(acts);
    WinRunReads(WinStart(true, true), [], acts);
    assert [] + acts == acts;
    hide WinCanRun, WinAfter, WinStart, BytesRead, PipeReads;
    forall res: PipeRead ensures res in pipe <==> PipeReturns(res) in acts {
      ReadsAreReturns(acts, res);
    }
    EndMatches(w, pipe);
  }

  lemma EndMatches(w: Win, pipe: seq<PipeRead>)
    requires ReadsInv(w, pipe) && Ended(w.results)
    ensures forall err :: ReadFails(err) in w.results <==> PipeFails(err) in pipe
    ensures Chunk([]) in w.results <==> BrokenPipe in pipe || Got([]) in pipe
  {
    hide BytesRead, Carries, FinalItem;
    var i :| 0 <= i < |w.results| && EndsReading(w.results[i]);
    var last := pipe[|pipe| - 1];
    assert w.results[i] in w.results && last in pipe;
    forall read | read in pipe && EndsPipe(read) ensures read == last {
      var j :| 0 <= j < |pipe| && pipe[j] == read;
    }
    forall res | res in w.results && EndsReading(res) ensures Tells(res, last) {
      var j :| 0 <= j < |w.results| && w.results[j] == res;
    }
  }

  /** When each step of the thread and of the task is possible, over all runs. */
  lemma WinGuards(stops: bool, roomy: bool, acts: seq<WinAction>)
    requires WinCanRun(WinStart(stops, roomy), acts)
    ensures var w := WinAfter(WinStart(stops, roomy), acts);
            && (forall res :: WinEnabled(w, PipeReturns(res)) <==>
                  w.producer.ReadingPipe? && (res.Got? ==> |res.bs| <= 1024))
            && (WinEnabled(w, SendItem) <==> w.producer.SendingItem? && w.queue.open && |w.queue.buf| < 1024)
            && (WinEnabled(w, SendFails) <==> w.producer.SendingItem? && !w.queue.open)
            && (WinEnabled(w, Wake) <==> w.producer.Waking?)
            && (WinEnabled(w, DropSender) <==> w.producer.Dropping?)
            && (WinEnabled(w, TaskRuns) <==> w.consumer.Parked? && w.scheduled)
            && (forall room :: WinEnabled(w, Poll(room)) <==> w.consumer.Active? && (roomy ==> room > 0))
            && (WinEnabled(w, TryRecv) <==> w.consumer.Polling?)
            && (WinEnabled(w, Leave) <==> w.consumer.Active?)
            && (WinEnabled(w, CloseStream) <==> w.consumer.Stopped? && w.queue.open)
            && WinEnabled(w, SpuriousWake)
  {
    WinRunKeepsInv(WinStart(stops, roomy), acts);
    KindStays(WinStart(stops, roomy), acts);
    hide WinCanRun, WinAfter, WinEnabled, QueueInv, BytesInv, WakeInv, CarefulInv;
    GuardsOf(WinAfter(WinStart(stops, roomy), acts));
  }

  lemma GuardsOf(w: Win)
    requires QueueInv(w)
    ensures forall res :: WinEnabled(w, PipeReturns(res)) <==>
              w.producer.ReadingPipe? && (res.Got? ==> |res.bs| <= 1024)
    ensures WinEnabled(w, SendItem) <==> w.producer.SendingItem? && w.queue.open && |w.queue.buf| < 1024
    ensures WinEnabled(w, SendFails) <==> w.producer.SendingItem? && !w.queue.open
    ensures WinEnabled(w, Wake) <==> w.producer.Waking?
    ensures WinEnabled(w, DropSender) <==> w.producer.Dropping?
    ensures WinEnabled(w, TaskRuns) <==> w.consumer.Parked? && w.scheduled
    ensures forall room :: WinEnabled(w, Poll(room)) <==> w.consumer.Active? && (w.roomy ==> room > 0)
    ensures WinEnabled(w, TryRecv) <==> w.consumer.Polling?
    ensures WinEnabled(w, Leave) <==> w.consumer.Active?
    ensures WinEnabled(w, CloseStream) <==> w.consumer.Stopped? && w.queue.open
    ensures WinEnabled(w, SpuriousWake)
  {
    hide FinalItem;
  }

  lemma {:induction false} KindStays(w: Win, acts: seq<WinAction>)
    requires WinCanRun(w, acts)
    ensures WinAfter(w, acts).roomy == w.roomy && WinAfter(w, acts).stops == w.stops
    decreases |acts|
  {
    if |acts| > 0 {
      hide WinEnabled, WinApply;
      KindStaysOnce(w, acts[0]);
      KindStays(WinApply(w, acts[0]), acts[1..]);
    }
  }

  lemma KindStaysOnce(w: Win, a: WinAction)
    requires WinEnabled(w, a)
    ensures WinApply(w, a).roomy == w.roomy && WinApply(w, a).stops == w.stops
  {
    hide PollRead, Recorded;
  }

  /** How thread and task come to wake, stop and leave. A wake schedules a task that has registered and uses
      its registration up; one that was scheduled already stays so. An error that could not be sent still
      wakes the task; bytes that could not end the thread at once. Dropping the stream discards what is
      queued. */
  lemma WakingAndLeaving(w: Win)
    ensures var w0 := WinStart(w.stops, w.roomy);
            && w0.producer.ReadingPipe? && w0.consumer.Active? && !w0.waker && !w0.scheduled
            && w0.queue == New(1024, 1) && w0.cursor.buffer == [] && w0.results == [] && w0.piped == []
    ensures WinEnabled(w, Wake) ==>
              var w' := WinApply(w, Wake);
              && w'.scheduled == (w.scheduled || w.waker) && !w'.waker
              && w'.producer == (if w.producer.last then Dropping else ReadingPipe)
              && w'.consumer == w.consumer && w'.queue == w.queue
    ensures WinEnabled(w, SendFails) ==>
              WinApply(w, SendFails)
              == w.(producer := if w.producer.item.Failure? then Waking(true) else Dropping)
    ensures WinEnabled(w, DropSender) ==>
              WinApply(w, DropSender).producer.Gone?
              && (w.queue.senders == 1 ==> WinApply(w, DropSender).queue.senders == 0)
    ensures WinEnabled(w, TaskRuns) ==> WinApply(w, TaskRuns) == w.(consumer := Active, scheduled := false)
    ensures WinEnabled(w, Leave) ==> WinApply(w, Leave) == w.(consumer := Stopped)
    ensures WinEnabled(w, CloseStream) ==>
              WinApply(w, CloseStream) == w.(queue := w.queue.(open := false, buf := []))
    ensures WinApply(w, SpuriousWake) == w.(scheduled := true)
  {
    hide PollRead, Recorded;
  }

  /** From the pipe to frames: when a careful consumer has been told of the end, what it read is a complete
      history for the loop that cuts frames, the frames carry exactly the pipe's bytes, and the loop
      reports an error, the one the consumer was told of, if and only if that was the end. */
  lemma PipeToFrames(acts: seq<WinAction>, kind: StreamKind)
    requires WinCanRun(WinStart(true, true), acts)
    requires Ended(WinAfter(WinStart(true, true), acts).results)
    ensures var w := WinAfter(WinStart(true, true), acts);
            && CompleteReads(w.results)
            && BytesOf(Goods(Messages(kind, w.results))) == w.piped
            && (Chunk([]) in w.results <==> FailureOf(w.results).None?)
            && w.piped == BytesRead(PipeReads(acts))
            && (forall err :: FailureOf(w.results) == Some(err) <==> PipeReturns(PipeFails(err)) in acts)
            && var failure := FailureOf(w.results);
               forall m :: m in Messages(kind, w.results) && m.Bad? <==>
                     failure.Some? && m == Bad(ReadOutput(kind, failure.value))
  {
    CarefulRun(acts);
    EndIsThePipes(acts);
    hide *;
    var w := WinAfter(WinStart(true, true), acts);
    EndIsLast(w.results, w.consumer);
    FailureOrEnd(w.results);
    ChunksToFrames(kind, w.results);
  }

  lemma FailureOrEnd(results: seq<ReadResult>)
    requires |results| > 0 && EndsReading(results[|results| - 1])
    requires forall i :: 0 <= i < |results| - 1 ==> !EndsReading(results[i])
    ensures Chunk([]) in results <==> FailureOf(results).None?
    ensures forall err :: ReadFails(err) in results <==> FailureOf(results) == Some(err)
  {
    forall err | ReadFails(err) in results ensures FailureOf(results) == Some(err) {
      var i :| 0 <= i < |results| && results[i] == ReadFails(err);
      assert EndsReading(results[i]);
    }
    assert results[|results| - 1] in results;
    if Chunk([]) in results {
      var i :| 0 <= i < |results| && results[i] == Chunk([]);
      assert EndsReading(results[i]);
    } else {
      assert results[|results| - 1] in results;
    }
  }

  /** What holds of a careful consumer that has been told of the end. */
  lemma CarefulRun(acts: seq<WinAction>)
    requires WinCanRun(WinStart(true, true), acts)
    ensures var w := WinAfter(WinStart(true, true), acts);
            ResultsOk(w.results, w.consumer) && (Ended(w.results) ==> Delivered(w.results) == w.piped)
  {
    WinRunKeepsInv(WinStart(true, true), acts);
  }

  lemma EndIsLast(results: seq<ReadResult>, consumer: ConsumerPc)
    requires ResultsOk(results, consumer) && Ended(results)
    ensures CompleteReads(results)
    ensures forall i :: 0 <= i < |results| - 1 ==> !EndsReading(results[i])
  {
    var i :| 0 <= i < |results| && EndsReading(results[i]);
  }

  lemma {:induction false} ChunksToFrames(kind: StreamKind, results: seq<ReadResult>)
    requires |results| > 0 && EndsReading(results[|results| - 1])
    requires forall i :: 0 <= i < |results| - 1 ==> !EndsReading(results[i])
    ensures BytesOf(Goods(Messages(kind, results))) == Delivered(results)
    ensures var failure := FailureOf(results);
            forall m :: m in Messages(kind, results) && m.Bad? <==>
                  failure.Some? && m == Bad(ReadOutput(kind, failure.value))
    decreases |results|
  {
    var n := |results| - 1;
    if n == 0 {
      assert results == [results[0]];
      assert Delivered(results[..0]) == [];
    } else {
      hide BytesOf, Goods, Messages, Delivered, EndsReading;
      var last := results[n];
      MessagesOf(kind, results[0], results[1..]);
      ChunksToFrames(kind, results[1..]);
      DeliveredFirst(results);
      var rest := Messages(kind, results[1..]);
      BytesFirst(Frame(kind, results[0].bs), rest);
    }
  }

  lemma MessagesOf(kind: StreamKind, first: ReadResult, rest: seq<ReadResult>)
    ensures !EndsReading(first) ==>
              Messages(kind, [first] + rest) == [Good(Frame(kind, first.bs))] + Messages(kind, rest)
  {
    assert ([first] + rest)[1..] == rest;
  }

  lemma BytesFirst(frame: Frame, rest: seq<Message>)
    ensures BytesOf(Goods([Good(frame)] + rest)) == frame.bs + BytesOf(Goods(rest))
  {
    assert ([Good(frame)] + rest)[1..] == rest;
    BytesOfCons(frame, Goods(rest));
  }

  lemma {:induction false} BytesOfCons(frame: Frame, frames: seq<Frame>)
    ensures BytesOf([frame] + frames) == frame.bs + BytesOf(frames)
    decreases |frames|
  {
    if |frames| == 0 {
      assert [frame] + frames == [] + [frame];
      BytesOfAppend([], frame);
    } else {
      hide BytesOf;
      var front, last := frames[..|frames| - 1], frames[|frames| - 1];
      assert frames == front + [last] && [frame] + frames == ([frame] + front) + [last];
      BytesOfCons(frame, front);
      BytesOfAppend(front, last);
      BytesOfAppend([frame] + front, last);
    }
  }

  lemma {:induction false} DeliveredFirst(results: seq<ReadResult>)
    requires |results| > 0
    ensures Delivered(results) == (if results[0].Chunk? then results[0].bs else []) + Delivered(results[1..])
    decreases |results|
  {
    var n := |results| - 1;
    if n == 0 {
      assert results[..0] == [] && results[1..] == [];
    } else {
      DeliveredFirst(results[..n]);
      assert results[..n][1..] == results[1..][..n - 1];
    }
  }
}
