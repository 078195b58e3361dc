/** Frames and frame events: what the pipeline carries, and what a log of them says. */
module Events {

  newtype byte = x: int | 0 <= x < 256

  datatype Option<+T> = None | Some(value: T)

  datatype StreamKind = Stdout | Stderr

  datatype IoError = IoError(msg: string)

  datatype TrackerError =
    | WaitChild(io: IoError)
    | ReadOutput(kind: StreamKind, io: IoError)
    | BroadcasterDisappeared

  datatype Frame = Frame(kind: StreamKind, bs: seq<byte>)

  datatype FrameEvent =
    | Data(frame: Frame)
    | Error(err: TrackerError)
    | EOF

  /** The largest frame a reader cuts. */
  const FRAME_MAX := 1024

  predicate Terminal(ev: FrameEvent) {
    !ev.Data?
  }

  /** No terminal event yet. */
  predicate Unsealed(log: seq<FrameEvent>) {
    forall i :: 0 <= i < |log| ==> !Terminal(log[i])
  }

  /** Exactly one terminal event, in last place. */
  predicate Sealed(log: seq<FrameEvent>) {
    |log| > 0 && Terminal(log[|log| - 1]) && Unsealed(log[..|log| - 1])
  }

  /** The frames of one stream, in log order. */
  function FramesOf(log: seq<FrameEvent>, k: StreamKind): seq<Frame> {
    if |log| == 0 then []
    else
      var last := log[|log| - 1];
      FramesOf(log[..|log| - 1], k) + if last.Data? && last.frame.kind == k then [last.frame] else []
  }

  /** The bytes carried by a sequence of frames. */
  function BytesOf(frames: seq<Frame>): seq<byte> {
    if |frames| == 0 then [] else BytesOf(frames[..|frames| - 1]) + frames[|frames| - 1].bs
  }

  predicate FrameOk(f: Frame, k: StreamKind) {
    f.kind == k && 1 <= |f.bs| <= FRAME_MAX
  }

  lemma FramesOfAppend(log: seq<FrameEvent>, ev: FrameEvent, k: StreamKind)
    ensures FramesOf(log + [ev], k)
         == FramesOf(log, k) + if ev.Data? && ev.frame.kind == k then [ev.frame] else []
  {
    assert (log + [ev])[..|log|] == log;
  }

  lemma BytesOfAppend(frames: seq<Frame>, f: Frame)
    ensures BytesOf(frames + [f]) == BytesOf(frames) + f.bs
  {
    assert (frames + [f])[..|frames|] == frames;
  }

  /** Sealing an unsealed log. */
  lemma SealAppend(log: seq<FrameEvent>, ev: FrameEvent)
    requires Unsealed(log)
    ensures Terminal(ev) ==> Sealed(log + [ev])
    ensures !Terminal(ev) ==> Unsealed(log + [ev])
  {
    assert (log + [ev])[..|log|] == log;
  }

  /** Only the last event of a log can be terminal. */
  lemma InnerEvent(log: seq<FrameEvent>, i: nat)
    requires Sealed(log) || Unsealed(log)
    requires i + 1 < |log|
    ensures !Terminal(log[i])
  {
    assert log[..|log| - 1][i] == log[i];
  }

  /** A prefix of a sealed log that is itself sealed is the whole log: nothing follows a terminal
      event. */
  lemma SealedPrefixIsWhole(part: seq<FrameEvent>, log: seq<FrameEvent>)
    requires part <= log && Sealed(part) && (Sealed(log) || Unsealed(log))
    ensures part == log
  {
    assert log[|part| - 1] == part[|part| - 1];
    if |part| < |log| {
      InnerEvent(log, |part| - 1);
    }
  }

  /** A prefix of a log is sealed or unsealed. */
  lemma PrefixSealing(part: seq<FrameEvent>, log: seq<FrameEvent>)
    requires part <= log && (Sealed(log) || Unsealed(log))
    ensures Sealed(part) || Unsealed(part)
  {
    if part != log {
      forall i | 0 <= i < |part| ensures !Terminal(part[i]) {
        assert part[i] == log[i];
        InnerEvent(log, i);
      }
    }
  }
}
