/** The Windows stream feeding the pipeline: the reader of a job's output reads what the stream hands out,
    and what it hands out is what the pipe yielded. */
module Bridge {
  import opened Events
  import opened Readers
  import opened Sessions
  import opened System
  import opened EndToEnd
  import WinStream

  /** Everything the reader has read so far are the first results of the stream's polls. */
  ghost predicate Follows(r: Reader, results: seq<ReadResult>) {
    && |r.cut| <= |results|
    && forall i :: 0 <= i < |r.cut| ==> results[i] == Chunk(r.cut[i].bs)
  }

  /** The step a reader takes on a result of its stream. */
  function StepFor(res: ReadResult): ReaderAction {
    if EndsReading(res) then End else Read(|res.bs|)
  }

  /** The bytes read so far are those of the results read so far. */
  lemma {:induction false} FollowedBytes(frames: seq<Frame>, results: seq<ReadResult>)
    requires |frames| <= |results|
    requires forall i :: 0 <= i < |frames| ==> results[i] == Chunk(frames[i].bs)
    ensures BytesOf(frames) == WinStream.Delivered(results[..|frames|])
  {
    if |frames| > 0 {
      var n := |frames| - 1;
      FollowedBytes(frames[..n], results);
      assert results[..n + 1][..n] == results[..n];
    }
  }

  lemma {:induction false} DeliveredPrefix(results: seq<ReadResult>, n: nat)
    requires n <= |results|
    ensures WinStream.Delivered(results[..n]) <= WinStream.Delivered(results)
    decreases |results|
  {
    if n < |results| {
      var front := results[..|results| - 1];
      DeliveredPrefix(front, n);
      assert front[..n] == results[..n];
    } else {
      assert results[..n] == results;
    }
  }

  /** A stream whose polls told its consumer of the end, seen as the source of a reader. */
  predicate SourceIs(r: Reader, w: WinStream.Win)
    requires |w.results| > 0
  {
    r.source == w.piped && r.failure == WinStream.FailureOf(w.results)
  }

  /** The bytes of the next result are the next bytes of the source. */
  lemma NextBytes(r: Reader, results: seq<ReadResult>)
    requires ReaderInv(r) && Follows(r, results) && |r.cut| < |results|
    requires r.source == WinStream.Delivered(results)
    ensures var res := results[|r.cut|];
            && (res.Chunk? ==> res.bs <= r.rest)
            && (EndsReading(res) && |r.cut| == |results| - 1 ==> r.rest == [])
  {
    hide BytesOf, WinStream.Delivered, EndsReading, FrameOk;
    var n := |r.cut|;
    var res, before, upTo := results[n], results[..n], results[..n + 1];
    FollowedBytes(r.cut, results);
    DeliveredPrefix(results, n + 1);
    assert upTo == before + [res];
    WinStream.DeliveredAppend(before, res);
    hide ReaderInv, Follows;
    TailPrefix(r.seen, if res.Chunk? then res.bs else [], r.rest);
    if n == |results| - 1 && EndsReading(res) {
      assert upTo == results;
      EndsWithNothing(res);
    }
  }

  lemma EndsWithNothing(res: ReadResult)
    requires EndsReading(res)
    ensures (if res.Chunk? then res.bs else []) == []
  {
  }

  lemma TailPrefix(front: seq<byte>, part: seq<byte>, rest: seq<byte>)
    requires front + part <= front + rest
    ensures part <= rest
    ensures front + part == front + rest ==> part == rest
  {
    forall i | 0 <= i < |part| ensures part[i] == rest[i] {
      assert (front + part)[|front| + i] == (front + rest)[|front| + i];
    }
  }

  /** A reader of the pipeline whose source is the pipe can always do what its stream has it do next: it
      takes each chunk as one read, in the order and sizes the polls returned them, and ends just when
      the stream does, in the same way. */
  lemma StreamDrivesReader(acts: seq<WinStream.WinAction>, r: Reader)
    requires WinStream.WinCanRun(WinStream.WinStart(true, true), acts)
    requires var results := WinStream.WinAfter(WinStream.WinStart(true, true), acts).results;
             WinStream.Ended(results) && Follows(r, results)
    requires SourceIs(r, WinStream.WinAfter(WinStream.WinStart(true, true), acts))
    requires ReaderInv(r) && r.pc.Reading?
    ensures var results := WinStream.WinAfter(WinStream.WinStart(true, true), acts).results;
            && |r.cut| < |results|
            && var res := results[|r.cut|];
               && ReaderEnabled(r, StepFor(res))
               && var r' := ReaderApply(r, StepFor(res));
                  && Follows(r', results)
                  && (res.ReadFails? ==> r'.pc == Sending(Bad(ReadOutput(r.kind, res.err))))
                  && (res.Chunk? && res.bs == [] ==> r'.pc.Finished?)
                  && (res.Chunk? && res.bs != [] ==> r'.pc == Sending(Good(Frame(r.kind, res.bs))))
  {
    var w := WinStream.WinAfter(WinStream.WinStart(true, true), acts);
    WinStream.CarefulRun(acts);
    hide WinStream.WinCanRun, WinStream.WinAfter, WinStream.WinStart, WinStream.Delivered;
    WinStream.EndIsLast(w.results, w.consumer);
    ReaderTakesNext(r, w.results);
  }

  lemma ReaderTakesNext(r: Reader, results: seq<ReadResult>)
    requires CompleteReads(results) && forall i :: 0 <= i < |results| - 1 ==> !EndsReading(results[i])
    requires r.source == WinStream.Delivered(results) && r.failure == WinStream.FailureOf(results)
    requires ReaderInv(r) && r.pc.Reading? && Follows(r, results)
    ensures |r.cut| < |results|
    ensures var res := results[|r.cut|];
            && ReaderEnabled(r, StepFor(res))
            && var r' := ReaderApply(r, StepFor(res));
               && Follows(r', results)
               && (res.ReadFails? ==> r'.pc == Sending(Bad(ReadOutput(r.kind, res.err))))
               && (res.Chunk? && res.bs == [] ==> r'.pc.Finished?)
               && (res.Chunk? && res.bs != [] ==> r'.pc == Sending(Good(Frame(r.kind, res.bs))))
  {
    NotAllFollowed(r, results);
    NextBytes(r, results);
    hide WinStream.Delivered, ReaderInv, Follows, ReaderApply, ReaderEnabled;
    if EndsReading(results[|r.cut|]) {
      EndsToo(r, results);
    } else {
      ReadsChunk(r, results);
    }
  }

  /** A frame is never empty, so the reader has not yet seen the end. */
  lemma NotAllFollowed(r: Reader, results: seq<ReadResult>)
    requires CompleteReads(results) && ReaderInv(r) && Follows(r, results)
    ensures |r.cut| < |results|
  {
    hide BytesOf;
  }

  lemma ReadsChunk(r: Reader, results: seq<ReadResult>)
    requires r.pc.Reading? && Follows(r, results) && |r.cut| < |results|
    requires var res := results[|r.cut|]; res.Chunk? && 1 <= |res.bs| <= FRAME_MAX && res.bs <= r.rest
    ensures var res := results[|r.cut|];
            && ReaderEnabled(r, StepFor(res))
            && var r' := ReaderApply(r, StepFor(res));
               Follows(r', results) && r'.pc == Sending(Good(Frame(r.kind, res.bs)))
  {
    var res := results[|r.cut|];
    assert r.rest[..|res.bs|] == res.bs;
  }

  lemma EndsToo(r: Reader, results: seq<ReadResult>)
    requires r.pc.Reading? && Follows(r, results) && |r.cut| == |results| - 1 && r.rest == []
    requires EndsReading(results[|r.cut|]) && r.failure == WinStream.FailureOf(results)
    ensures var res := results[|r.cut|];
            && ReaderEnabled(r, StepFor(res))
            && var r' := ReaderApply(r, StepFor(res));
               && Follows(r', results)
               && (if res.ReadFails? then r'.pc == Sending(Bad(ReadOutput(r.kind, res.err))) else r'.pc.Finished?)
  {
  }

  /** From the pipe to the client: with the stream of a finished pipe as one of the job's two sources, what
      any client has received of it is at any moment a prefix of the bytes the reads of the pipe returned;
      a response that ended without an error item carries all of them, and then no read failed; and one
      that ended with an error of this stream names the error a read failed with. */
  lemma PipeToClient(acts: seq<WinStream.WinAction>, s: Sys, k: StreamKind, i: nat)
    requires WinStream.WinCanRun(WinStream.WinStart(true, true), acts)
    requires var w := WinStream.WinAfter(WinStream.WinStart(true, true), acts);
             WinStream.Ended(w.results) && SourceIs(ReaderOf(s, k), w)
    requires Reachable(s) && i < |s.sessions|
    ensures var bytes := WinStream.BytesRead(WinStream.PipeReads(acts));
            && StreamBytes(s.sessions[i].got, k) <= bytes
            && (ResponseComplete(s.sessions[i]) && AllOk(s.sessions[i].got) ==>
                  && StreamBytes(s.sessions[i].got, k) == bytes
                  && forall err :: WinStream.PipeReturns(WinStream.PipeFails(err)) !in acts)
    ensures forall err :: Err(StreamFailed(ReadOutput(k, err))) in s.sessions[i].got ==>
              WinStream.PipeReturns(WinStream.PipeFails(err)) in acts
  {
    WinStream.PipeToFrames(acts, k);
    hide *;
    SourceMeans(ReaderOf(s, k), WinStream.WinAfter(WinStream.WinStart(true, true), acts));
    NothingInvented(s, i, k);
    if ResponseComplete(s.sessions[i]) && AllOk(s.sessions[i].got) {
      CompleteResponseIsWholeOutput(s, i);
      KindOf(s, k);
    }
    forall err | Err(StreamFailed(ReadOutput(k, err))) in s.sessions[i].got
      ensures ReaderOf(s, k).failure == Some(err)
    {
      ReceivedErrorIsReal(s, i, k, err);
    }
  }

  lemma KindOf(s: Sys, k: StreamKind)
    ensures ReaderOf(s, k) == s.stdout || ReaderOf(s, k) == s.stderr
  {
  }

  lemma SourceMeans(r: Reader, w: WinStream.Win)
    requires |w.results| > 0 && SourceIs(r, w)
    ensures r.source == w.piped && r.failure == WinStream.FailureOf(w.results)
  {
    hide WinStream.FailureOf;
  }
}
