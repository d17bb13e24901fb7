/**
 * The trigger-phrase detector of the microphone pipeline (wakeword.py): the warm-up counter
 * and threshold rule applied to each audio chunk, the effect of `start`/`stop` on the
 * detector's fields, and the window arithmetic of `_stride_windows`.
 *
 * The spectrogram and the classifier are not modelled: the classifier's scores for a chunk
 * are an input. The registered callback is an identity, and invoking it appends a `Call`
 * to the detector's log.
 */
module WakeWord {
  import opened Wrappers

  /** Chunks ignored after construction before any score is looked at. */
  const WarmUpChunks: nat := 5
  /** Chunk size and `_spectrogram` window defaults of the source. */
  const DefaultChunk: nat := 1024
  const DefaultNfft: nat := 256
  const DefaultNoverlap: nat := 128

  /** PyAudio's verdict returned by a stream callback. */
  datatype StreamFlag = Continue | Complete | Abort

  /** A registered callback, told apart by an identity. */
  type Handler = nat

  /** One invocation of a callback, with the score it was passed. */
  datatype Call = Call(handler: Handler, score: real)

  /** `score.max()`. */
  function Max(scores: seq<real>): (m: real)
    requires |scores| > 0
    ensures m in scores
    ensures forall i :: 0 <= i < |scores| ==> scores[i] <= m
  {
    if |scores| == 1 then scores[0]
    else
      var rest := Max(scores[1..]);
      if scores[0] >= rest then scores[0] else rest
  }

  /** `np.any(score > threshold)`. */
  predicate AnyAbove(scores: seq<real>, threshold: real)
  {
    exists i :: 0 <= i < |scores| && scores[i] > threshold
  }

  /** `skip_count` after one more chunk. */
  function NextSkip(skip: nat): nat
  {
    if skip < WarmUpChunks then skip + 1 else skip
  }

  /** The score the callback is invoked with for one chunk, if it is invoked at all. */
  function Fired(skip: nat, scores: seq<real>, threshold: real): (f: Option<real>)
    ensures f.Some? <==> skip >= WarmUpChunks && AnyAbove(scores, threshold)
    ensures f.Some? ==> f.value in scores && f.value > threshold
    ensures f.Some? ==> forall i :: 0 <= i < |scores| ==> scores[i] <= f.value
  {
    if skip < WarmUpChunks then None
    else if AnyAbove(scores, threshold) then Some(Max(scores))
    else None
  }

  /** The warm-up counter after a run of chunks and the scores the callback received. */
  datatype Trace = Trace(skip: nat, fired: seq<real>)

  /** A run of chunks through `_detect`, chunk by chunk. */
  function Run(skip: nat, chunks: seq<seq<real>>, threshold: real): Trace
    decreases |chunks|
  {
    if chunks == [] then Trace(skip, [])
    else
      var before := Run(skip, chunks[..|chunks| - 1], threshold);
      var f := Fired(before.skip, chunks[|chunks| - 1], threshold);
      Trace(NextSkip(before.skip), before.fired + (if f.Some? then [f.value] else []))
  }

  /** What one warmed-up chunk passes to the callback: its maximum score when some score is
      above the threshold, nothing otherwise. */
  function Contribution(scores: seq<real>, threshold: real): seq<real>
  {
    if AnyAbove(scores, threshold) then [Max(scores)] else []
  }

  /** Reference definition of the trigger rule without any warm-up, chunk by chunk from the
      first. */
  function Triggered(chunks: seq<seq<real>>, threshold: real): seq<real>
  {
    if chunks == [] then []
    else Contribution(chunks[0], threshold) + Triggered(chunks[1..], threshold)
  }

  lemma {:induction false} TriggeredAppend(chunks: seq<seq<real>>, last: seq<real>, threshold: real)
    ensures Triggered(chunks + [last], threshold) == Triggered(chunks, threshold) + Contribution(last, threshold)
    decreases |chunks|
  {
    if chunks == [] {
      assert [last][1..] == [];
      assert chunks + [last] == [last];
    } else {
      var longer := chunks + [last];
      assert longer[0] == chunks[0];
      assert longer[1..] == chunks[1..] + [last];
      TriggeredAppend(chunks[1..], last, threshold);
      calc {
        Triggered(longer, threshold);
        Contribution(chunks[0], threshold) + Triggered(chunks[1..] + [last], threshold);
        Contribution(chunks[0], threshold) + (Triggered(chunks[1..], threshold) + Contribution(last, threshold));
        (Contribution(chunks[0], threshold) + Triggered(chunks[1..], threshold)) + Contribution(last, threshold);
      }
    }
  }

  function Min(a: int, b: int): int { if a <= b then a else b }

  /** A fresh detector ignores the first five chunks whatever their scores, and from then on
      invokes the callback exactly for the chunks with a score above the threshold, each
      time with that chunk's maximum score. */
  lemma {:induction false} FreshRun(chunks: seq<seq<real>>, threshold: real)
    ensures Run(0, chunks, threshold).skip == Min(|chunks|, WarmUpChunks)
    ensures Run(0, chunks, threshold).fired == Triggered(chunks[Min(|chunks|, WarmUpChunks)..], threshold)
    decreases |chunks|
  {
    if chunks != [] {
      var n := |chunks|;
      var prefix := chunks[..n - 1];
      var last := chunks[n - 1];
      FreshRun(prefix, threshold);
      if n > WarmUpChunks {
        assert chunks[WarmUpChunks..] == prefix[WarmUpChunks..] + [last];
        TriggeredAppend(prefix[WarmUpChunks..], last, threshold);
      }
    }
  }

  /** Once warmed up, a detector never warms up again: a run from a saturated counter
      invokes the callback exactly as the rule without warm-up says. */
  lemma {:induction false} WarmRun(chunks: seq<seq<real>>, threshold: real)
    ensures Run(WarmUpChunks, chunks, threshold) == Trace(WarmUpChunks, Triggered(chunks, threshold))
    decreases |chunks|
  {
    if chunks != [] {
      var prefix := chunks[..|chunks| - 1];
      WarmRun(prefix, threshold);
      assert chunks == prefix + [chunks[|chunks| - 1]];
      TriggeredAppend(prefix, chunks[|chunks| - 1], threshold);
    }
  }

  /** The detector as the audio thread and the caller see it. */
  class Detector {
    /** A chunk triggers when some score is strictly above this. */
    const threshold: real
    /** The callback registered by the last `start`, if any. */
    var callback: Option<Handler>
    /** Chunks seen so far, up to the warm-up length. */
    var skipCount: nat
    /** Whether the stream is delivering chunks. */
    var streaming: bool
    /** Every callback invocation so far, oldest first. */
    var calls: seq<Call>

    ghost predicate Valid()
      reads this
    {
      skipCount <= WarmUpChunks && (streaming ==> callback.Some?)
    }

    constructor (threshold: real)
      ensures Valid()
      ensures this.threshold == threshold
      ensures callback == None && skipCount == 0 && !streaming && calls == []
    {
      this.threshold := threshold;
      callback := None;
      skipCount := 0;
      streaming := false;
      calls := [];
    }

    /** `start`: register the callback and let chunks flow; the warm-up counter is kept. */
    method Start(handler: Handler)
      requires Valid()
      modifies this
      ensures Valid() && streaming && callback == Some(handler)
      ensures skipCount == old(skipCount) && calls == old(calls)
    {
      callback := Some(handler);
      streaming := true;
    }

    /** `is_active`. */
    method IsActive() returns (active: bool)
      ensures active == streaming
    {
      active := streaming;
    }

    /** `stop`: halt the chunks; the callback and the warm-up counter are kept. */
    method Stop()
      requires Valid()
      modifies this
      ensures Valid() && !streaming
      ensures callback == old(callback) && skipCount == old(skipCount) && calls == old(calls)
    {
      streaming := false;
    }

    /** `_detect` on one chunk with the classifier's scores for it. */
    method Detect(scores: seq<real>) returns (flag: StreamFlag)
      requires Valid() && streaming
      modifies this
      ensures Valid() && streaming && callback == old(callback)
      ensures flag == Continue
      ensures skipCount == NextSkip(old(skipCount))
      ensures old(skipCount) < WarmUpChunks ==> calls == old(calls)
      ensures calls == old(calls) + match Fired(old(skipCount), scores, threshold)
                                    case None => []
                                    case Some(score) => [Call(callback.value, score)]
    {
      if skipCount < WarmUpChunks {
        skipCount := skipCount + 1;
        return Continue;
      }
      if AnyAbove(scores, threshold) {
        calls := calls + [Call(callback.value, Max(scores))];
      }
      return Continue;
    }
  }

  /** The calls a callback receives for a list of scores, in order. */
  function CallsWith(handler: Handler, scores: seq<real>): (calls: seq<Call>)
    ensures |calls| == |scores|
    ensures forall i :: 0 <= i < |scores| ==> calls[i] == Call(handler, scores[i])
  {
    seq(|scores|, i requires 0 <= i < |scores| => Call(handler, scores[i]))
  }

  /** The audio thread delivering a run of chunks to a started detector, one `_detect` call
      per chunk: the warm-up counter and the calls appended are those `Run` describes. */
  method Listen(detector: Detector, chunks: seq<seq<real>>)
    requires detector.Valid() && detector.streaming
    modifies detector
    ensures detector.Valid() && detector.streaming && detector.callback == old(detector.callback)
    ensures detector.skipCount == Run(old(detector.skipCount), chunks, detector.threshold).skip
    ensures detector.calls == old(detector.calls)
      + CallsWith(detector.callback.value, Run(old(detector.skipCount), chunks, detector.threshold).fired)
  {
    ghost var start := detector.skipCount;
    var i := 0;
    while i < |chunks|
      invariant 0 <= i <= |chunks|
      invariant detector.Valid() && detector.streaming && detector.callback == old(detector.callback)
      invariant detector.skipCount == Run(start, chunks[..i], detector.threshold).skip
      invariant detector.calls == old(detector.calls)
        + CallsWith(detector.callback.value, Run(start, chunks[..i], detector.threshold).fired)
    {
      ghost var fired := Run(start, chunks[..i], detector.threshold).fired;
      var _ := detector.Detect(chunks[i]);
      assert chunks[..i + 1][..i] == chunks[..i];
      ghost var f := Fired(Run(start, chunks[..i], detector.threshold).skip, chunks[i], detector.threshold);
      ghost var more := if f.Some? then [f.value] else [];
      assert CallsWith(detector.callback.value, fired + more)
          == CallsWith(detector.callback.value, fired) + CallsWith(detector.callback.value, more);
      i := i + 1;
    }
    assert chunks[..i] == chunks;
  }

  /** The number of `nfft`-sample windows, `nfft - noverlap` apart, that `_stride_windows`
      lays over `n` samples; negative when `n < noverlap`. */
  function WindowCount(n: int, nfft: int, noverlap: int): int
    requires 0 <= noverlap < nfft
  {
    (n - noverlap) / (nfft - noverlap)
  }

  /** Every window lies inside the chunk. */
  lemma WindowFits(n: int, nfft: int, noverlap: int, j: int)
    requires 0 <= noverlap < nfft
    requires 0 <= j < WindowCount(n, nfft, noverlap)
    ensures j * (nfft - noverlap) + nfft <= n
  {
    var step := nfft - noverlap;
    var q := (n - noverlap) / step;
    assert q * step + (n - noverlap) % step == n - noverlap;
    MulMonotone(j + 1, q, step);
    assert (j + 1) * step == j * step + step;
  }

  lemma {:induction false} MulMonotone(a: int, b: int, c: nat)
    requires a <= b
    ensures a * c <= b * c
    decreases b - a
  {
    if a < b {
      MulMonotone(a + 1, b, c);
      assert (a + 1) * c == a * c + c;
    }
  }

  /** The window count is negative exactly when there are fewer samples than the overlap. */
  lemma WindowCountSign(n: int, nfft: int, noverlap: int)
    requires 0 <= noverlap < nfft
    ensures WindowCount(n, nfft, noverlap) < 0 <==> n < noverlap
  {
    var step := nfft - noverlap;
    var q, r := (n - noverlap) / step, (n - noverlap) % step;
    assert n - noverlap == q * step + r && 0 <= r < step;
    if q < 0 {
      MulMonotone(q, -1, step);
    } else {
      MulMonotone(0, q, step);
    }
  }

  /** The window count is the largest that fits: one more window would run past the end. */
  lemma WindowCountIsLargest(n: int, nfft: int, noverlap: int)
    requires 0 <= noverlap < nfft && noverlap <= n
    ensures WindowCount(n, nfft, noverlap) >= 0
    ensures n < WindowCount(n, nfft, noverlap) * (nfft - noverlap) + nfft
  {
    var step := nfft - noverlap;
    var q := (n - noverlap) / step;
    var r := (n - noverlap) % step;
    assert n - noverlap == q * step + r && r < step;
  }

  /** `_stride_windows`: the samples as `nfft` rows and one column per window, column j
      holding the window that starts at sample `j * (nfft - noverlap)`; numpy refuses the
      negative column count that fewer than `noverlap` samples give. */
  function StrideWindows<T>(data: seq<T>, nfft: int, noverlap: int): (r: Option<seq<seq<T>>>)
    requires 0 <= noverlap < nfft
    ensures r.None? <==> |data| < noverlap
    ensures r.Some? ==> |r.value| == nfft
    ensures r.Some? ==> forall i :: 0 <= i < nfft ==> |r.value[i]| == WindowCount(|data|, nfft, noverlap)
  {
    var count := WindowCount(|data|, nfft, noverlap);
    WindowCountSign(|data|, nfft, noverlap);
    if count < 0 then None
    else
      Some(seq(nfft, i requires 0 <= i < nfft =>
        seq(count, j requires 0 <= j < count =>
          WindowFits(|data|, nfft, noverlap, j);
          data[i + j * (nfft - noverlap)])))
  }

  /** Sample i of window j is sample `i + j * (nfft - noverlap)` of the chunk, which exists. */
  lemma WindowSample<T>(data: seq<T>, nfft: int, noverlap: int, i: int, j: int)
    requires 0 <= noverlap < nfft
    requires 0 <= i < nfft && 0 <= j < WindowCount(|data|, nfft, noverlap)
    ensures StrideWindows(data, nfft, noverlap).Some?
    ensures i + j * (nfft - noverlap) < |data|
    ensures StrideWindows(data, nfft, noverlap).value[i][j] == data[i + j * (nfft - noverlap)]
  {
    WindowFits(|data|, nfft, noverlap, j);
  }

  /** A default chunk of 1024 samples gives 7 windows of 256 samples. */
  lemma DefaultChunkWindows<T>(data: seq<T>)
    requires |data| == DefaultChunk
    ensures WindowCount(|data|, DefaultNfft, DefaultNoverlap) == 7
    ensures var r := StrideWindows(data, DefaultNfft, DefaultNoverlap);
      r.Some? && |r.value| == 256 && forall i :: 0 <= i < 256 ==> |r.value[i]| == 7
  {
  }
}
