/**
  Cutting decoded sound into encoder frames (internal/transcode/transcode_c.c:1186-1299 and 1484-1504). Samples
  are integers, one for all channels; the encoder takes frames until it fails.
 */
module AudioFifo {

  const DEFAULT_FRAME := 960

  function FrameSize(encoder: int): (n: int)
    ensures n > 0 && n == if encoder > 0 then encoder else 960
  {
    if encoder <= 0 then DEFAULT_FRAME else encoder
  }

  datatype Frame = Frame(samples: seq<int>, pts: int)

  /** What has been encoded and what waits. */
  datatype Sound = Sound(frames: seq<seq<int>>, fifo: seq<int>)

  // ---------------------------------------------------------------- what the frames are

  function Join(frames: seq<seq<int>>): (all: seq<int>) {
    if |frames| == 0 then [] else Join(frames[..|frames| - 1]) + frames[|frames| - 1]
  }

  ghost predicate Sized(frames: seq<seq<int>>, n: int) {
    forall k :: 0 <= k < |frames| ==> |frames[k]| == n
  }

  function Zeros(n: nat): (z: seq<int>)
    ensures |z| == n && forall i :: 0 <= i < n ==> z[i] == 0
  {
    seq(n, i => 0)
  }

  /** The frames hold a prefix of the samples, every frame is full, and the rest waits. */
  ghost predicate Cut(s: Sound, all: seq<int>, n: int) {
    Join(s.frames) + s.fifo == all && Sized(s.frames, n)
  }

  /** Nothing more can be encoded. */
  ghost predicate Drained(s: Sound, all: seq<int>, n: int) {
    Cut(s, all, n) && |s.fifo| < n
  }

  /** The frames of a stream that has ended. */
  ghost predicate Flushed(frames: seq<seq<int>>, all: seq<int>, n: int) {
    Sized(frames, n) && exists z :: 0 <= z < n && Join(frames) == all + Zeros(z)
  }

  lemma JoinMore(frames: seq<seq<int>>, f: seq<int>)
    ensures Join(frames + [f]) == Join(frames) + f
  {
    assert (frames + [f])[..|frames|] == frames;
  }

  lemma {:induction false} JoinLength(frames: seq<seq<int>>, n: int)
    requires Sized(frames, n)
    ensures |Join(frames)| == |frames| * n
  {
    if |frames| > 0 {
      JoinLength(frames[..|frames| - 1], n);
    }
  }

  /** Full frames are determined by the samples they join to. */
  lemma {:induction false} FramesDetermined(a: seq<seq<int>>, b: seq<seq<int>>, n: int)
    requires n > 0 && Sized(a, n) && Sized(b, n) && Join(a) == Join(b)
    ensures a == b
  {
    JoinLength(a, n);
    JoinLength(b, n);
    Quotients(|a|, |b|, 0, 0, n);
    if |a| > 0 {
      var a0, b0 := a[..|a| - 1], b[..|b| - 1];
      JoinLength(a0, n);
      JoinLength(b0, n);
      assert Join(a)[..|Join(a0)|] == Join(a0) && Join(b)[..|Join(b0)|] == Join(b0);
      assert Join(a)[|Join(a0)|..] == a[|a| - 1] && Join(b)[|Join(b0)|..] == b[|b| - 1];
      FramesDetermined(a0, b0, n);
      assert a == a0 + [a[|a| - 1]] && b == b0 + [b[|b| - 1]];
    }
  }

  /** However the samples arrived, what has been encoded and what waits is the same. */
  lemma DrainedDetermined(s: Sound, t: Sound, all: seq<int>, n: int)
    requires n > 0 && Drained(s, all, n) && Drained(t, all, n)
    ensures s == t
  {
    hide Join;
    JoinLength(s.frames, n);
    JoinLength(t.frames, n);
    Quotients(|s.frames|, |t.frames|, |s.fifo|, |t.fifo|, n);
    assert all[..|Join(s.frames)|] == Join(s.frames) && all[..|Join(t.frames)|] == Join(t.frames);
    assert all[|Join(s.frames)|..] == s.fifo && all[|Join(t.frames)|..] == t.fifo;
    FramesDetermined(s.frames, t.frames, n);
  }

  lemma AtLeastOne(a: nat, n: int)
    requires n > 0
    ensures a > 0 ==> a * n == (a - 1) * n + n && (a - 1) * n >= 0
  {
  }

  lemma {:induction false} Quotients(a: nat, b: nat, x: nat, y: nat, n: int)
    requires n > 0 && x < n && y < n && a * n + x == b * n + y
    ensures a == b && x == y
  {
    AtLeastOne(a, n);
    AtLeastOne(b, n);
    if a > 0 && b > 0 {
      Quotients(a - 1, b - 1, x, y, n);
    }
  }

  // ---------------------------------------------------------------- the pipeline

  class OutputPipeline {
    const encoderFrameSize: int
    const quota: nat   // how many frames the encoder accepts before it fails
    const drains: bool // whether its last packets can be had
    var fifo: seq<int>
    var nextPts: int
    var encoded: seq<Frame>
    var ended: bool    // the encoder has been told that no frame follows
    ghost var written: seq<int>

    constructor (encoderFrameSize: int, quota: nat, drains: bool)
      ensures this.encoderFrameSize == encoderFrameSize && this.quota == quota && this.drains == drains
      ensures Valid() && written == [] && encoded == [] && fifo == []
    {
      this.encoderFrameSize, this.quota, this.drains := encoderFrameSize, quota, drains;
      fifo, nextPts, encoded, written, ended := [], 0, [], [], false;
    }

    function Size(): (n: int)
      ensures n > 0
    {
      FrameSize(encoderFrameSize)
    }

    /** Every sample written is in a frame or waits, frames are full, and frame k starts at k frame sizes. */
    ghost predicate Valid()
      reads this
    {
      && Cut(Sound(Samples(encoded), fifo), written, Size())
      && nextPts == |encoded| * Size() && Timed(encoded, Size())
      && |encoded| <= quota
    }

    /** The encoder has failed on the one frame that is missing. */
    ghost predicate Refused()
      reads this
    {
      |encoded| == quota && exists f: seq<int> :: Cut(Sound(Samples(encoded) + [f], fifo), written, Size())
    }

    /** The encoder takes a frame, or fails. */
    method EncodeWriteFrame(f: Frame) returns (ok: bool)
      requires |encoded| <= quota
      modifies this`encoded
      ensures ok <==> |old(encoded)| < quota
      ensures encoded == if ok then old(encoded) + [f] else old(encoded)
    {
      ok := |encoded| < quota;
      if ok {
        encoded := encoded + [f];
      }
    }

    /** No frame follows: the encoder gives out what it still holds. */
    method EndEncoding() returns (ok: bool)
      modifies this`ended
      ensures ended && ok == drains
    {
      ended := true;
      ok := drains;
    }

    /**
      Leaves less than a frame waiting, unless the encoder fails or the job is aborted. `aborted` is what the abort
      flag says after so many frames have been encoded; the first time it says so the drain stops.
     */
    method DrainAudioFifo(aborted: nat -> bool) returns (ok: bool)
      requires Valid()
      modifies this`fifo, this`nextPts, this`encoded
      ensures old(encoded) <= encoded && Timed(encoded, Size())
      ensures ok ==> Valid() && |fifo| < Size()
      ensures !ok ==> (Valid() && |encoded| > |old(encoded)| && aborted(|encoded|)) || Refused()
      ensures forall k :: |old(encoded)| < k < |encoded| + (if ok then 1 else 0) ==> !aborted(k)
      ensures aborted(|old(encoded)| + 1) ==> (ok <==> old(|fifo|) < Size())
    {
      hide Cut, Timed, Samples;
      var n := FrameSize(encoderFrameSize);
      while |fifo| >= n
        invariant Valid() && old(encoded) <= encoded
        invariant forall k :: |old(encoded)| < k <= |encoded| ==> !aborted(k)
        invariant fifo == old(fifo) || |encoded| > |old(encoded)|
        decreases |fifo|
      {
        CutMore(Sound(Samples(encoded), fifo), written, n);
        TimedMore(encoded, Frame(fifo[..n], nextPts), n);
        var f := Frame(fifo[..n], nextPts);
        fifo := fifo[n..];
        nextPts := nextPts + n;
        ok := EncodeWriteFrame(f);
        if !ok || aborted(|encoded|) {
          return false;
        }
      }
      return true;
    }

    /** Converted samples join the queue; as much as fills a frame is encoded at once. */
    method WriteSamples(chunk: seq<int>, aborted: nat -> bool) returns (ok: bool)
      requires Valid()
      modifies this`fifo, this`nextPts, this`encoded, this`written
      ensures written == old(written) + chunk
      ensures old(encoded) <= encoded && Timed(encoded, Size())
      ensures ok ==> Valid() && |fifo| < Size()
      ensures !ok ==> (Valid() && |encoded| > |old(encoded)| && aborted(|encoded|)) || Refused()
      ensures forall k :: |old(encoded)| < k < |encoded| + (if ok then 1 else 0) ==> !aborted(k)
    {
      hide Timed, Samples, Join;
      if |chunk| > 0 {
        fifo := fifo + chunk;
      }
      written := written + chunk;
      assert Join(Samples(encoded)) + (old(fifo) + chunk) == (Join(Samples(encoded)) + old(fifo)) + chunk;
      assert old(fifo) + [] == old(fifo);
      ok := DrainAudioFifo(aborted);
    }

    /** What is left over is padded with silence to a last frame, and the encoder is drained. */
    method FlushAudioPipeline() returns (ok: bool)
      requires Valid()
      modifies this`fifo, this`nextPts, this`encoded, this`ended
      ensures old(encoded) <= encoded && Timed(encoded, Size())
      ensures ok ==> ended && fifo == [] && Flushed(Samples(encoded), written, Size())
      ensures !ok ==> |encoded| == quota || (!drains && fifo == [] && Flushed(Samples(encoded), written, Size()))
    {
      hide Timed, Samples, Join;
      ok := DrainAudioFifo(k => false);
      if !ok {
        return;
      }
      var n := FrameSize(encoderFrameSize);
      var remaining := |fifo|;
      if remaining > 0 {
        var f := Frame(fifo + Zeros(n - remaining), nextPts);
        PadLast(Sound(Samples(encoded), fifo), written, n);
        TimedMore(encoded, f, n);
        fifo := [];
        nextPts := nextPts + n;
        ok := EncodeWriteFrame(f);
        if !ok {
          return;
        }
      } else {
        AllIn(Sound(Samples(encoded), fifo), written, n);
      }
      ok := EndEncoding();
    }
  }

  function Samples(encoded: seq<Frame>): (f: seq<seq<int>>)
    ensures |f| == |encoded|
  {
    seq(|encoded|, k requires 0 <= k < |encoded| => encoded[k].samples)
  }

  /** Frame k starts at k frame sizes. */
  ghost predicate Timed(encoded: seq<Frame>, n: int) {
    forall k :: 0 <= k < |encoded| ==> encoded[k].pts == k * n
  }

  lemma TimedMore(encoded: seq<Frame>, f: Frame, n: int)
    requires Timed(encoded, n) && f.pts == |encoded| * n
    ensures Timed(encoded + [f], n) && |encoded + [f]| * n == f.pts + n
    ensures Samples(encoded + [f]) == Samples(encoded) + [f.samples]
  {
  }

  /** Encoding the next full frame keeps every sample. */
  lemma CutMore(s: Sound, all: seq<int>, n: int)
    requires Cut(s, all, n) && 0 < n <= |s.fifo|
    ensures Cut(Sound(s.frames + [s.fifo[..n]], s.fifo[n..]), all, n)
  {
    JoinMore(s.frames, s.fifo[..n]);
    assert s.fifo == s.fifo[..n] + s.fifo[n..];
  }

  lemma PadLast(s: Sound, all: seq<int>, n: int)
    requires Cut(s, all, n) && 0 < |s.fifo| < n
    ensures Flushed(s.frames + [s.fifo + Zeros(n - |s.fifo|)], all, n)
  {
    var z := n - |s.fifo|;
    JoinMore(s.frames, s.fifo + Zeros(z));
    assert Join(s.frames) + (s.fifo + Zeros(z)) == (Join(s.frames) + s.fifo) + Zeros(z);
  }

  lemma AllIn(s: Sound, all: seq<int>, n: int)
    requires Cut(s, all, n) && s.fifo == [] && n > 0
    ensures Flushed(s.frames, all, n)
  {
    assert Join(s.frames) + s.fifo == Join(s.frames) && all + Zeros(0) == all;
  }

  /** The frames of an ended stream are determined by its samples: how the samples arrived leaves no trace. */
  lemma FlushedDetermined(a: seq<seq<int>>, b: seq<seq<int>>, all: seq<int>, n: int)
    requires n > 0 && Flushed(a, all, n) && Flushed(b, all, n)
    ensures a == b && |a| * n >= |all| > |a| * n - n
  {
    hide Join;
    var y :| 0 <= y < n && Join(a) == all + Zeros(y);
    var z :| 0 <= z < n && Join(b) == all + Zeros(z);
    JoinLength(a, n);
    JoinLength(b, n);
    if y <= z {
      Rounded(|a|, |b|, |all|, y, z, n);
    } else {
      Rounded(|b|, |a|, |all|, z, y, n);
    }
    assert Zeros(y) == Zeros(z);
    FramesDetermined(a, b, n);
  }

  lemma Rounded(a: nat, b: nat, size: nat, y: nat, z: nat, n: int)
    requires n > 0 && y <= z < n && a * n == size + y && b * n == size + z
    ensures a == b && y == z
  {
    Quotients(a, b, z - y, 0, n);
  }

  /** A whole stream: decoded chunks of any sizes, then the flush. */
  method EncodeStream(out: OutputPipeline, chunks: seq<seq<int>>, aborted: nat -> bool) returns (ok: bool)
    requires out.Valid() && out.written == []
    modifies out
    ensures Timed(out.encoded, out.Size())
    ensures ok ==> out.ended && out.fifo == [] && Flushed(Samples(out.encoded), Join(chunks), out.Size())
    ensures !ok ==> |out.encoded| == out.quota || !out.drains || aborted(|out.encoded|)
  {
    hide Timed, Samples, Flushed;
    var i := 0;
    while i < |chunks|
      invariant i <= |chunks| && out.Valid() && out.written == Join(chunks[..i])
    {
      ok := out.WriteSamples(chunks[i], aborted);
      if !ok {
        return;
      }
      assert chunks[..i + 1][..i] == chunks[..i];
      i := i + 1;
    }
    assert chunks[..i] == chunks;
    ok := out.FlushAudioPipeline();
  }
}
