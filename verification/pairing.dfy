/** The sample-pairing cache shared by the MP3 and Ogg Vorbis writers. Both
    encoders take stereo frames, but samples arrive one at a time: the first
    of each pair is held back and the second completes a frame. */
module Pairing {
  import opened Base
  import opened Errors

  datatype Frame = Frame(left: real, right: real)

  /** A pairing writer: the held-back sample, and the frames the encoder has
      accepted so far, in order. */
  datatype Paired = Paired(cache: Option<real>, frames: seq<Frame>)

  /** What the encoder (and, for MP3, the file write after it) reports for
      one frame given the frames before it: `None` on success, or the
      error's message. */
  type FrameSink = (seq<Frame>, Frame) -> Option<string>

  const EmptyPaired: Paired := Paired(None, [])

  /** `write_sample`: with nothing cached the sample is cached and nothing is
      encoded; with a cached sample c, the frame (c, sample) is encoded and
      the cache cleared. An encoder error is returned as a writer error and
      leaves the cache holding c. */
  function WriteSample(p: Paired, sample: real, sink: FrameSink): (r: (Result<(), MIDIRendererError>, Paired))
    ensures p.cache.None? ==> r.0.Ok? && r.1 == Paired(Some(sample), p.frames)
    ensures p.cache.Some? && sink(p.frames, Frame(p.cache.value, sample)).None? ==>
      r.0.Ok? && r.1 == Paired(None, p.frames + [Frame(p.cache.value, sample)])
    ensures p.cache.Some? && sink(p.frames, Frame(p.cache.value, sample)).Some? ==>
      r.0 == Err(Writer(sink(p.frames, Frame(p.cache.value, sample)).value)) && r.1 == p
  {
    match p.cache
    case None => (Ok(()), p.(cache := Some(sample)))
    case Some(c) =>
      match sink(p.frames, Frame(c, sample))
      case None => (Ok(()), Paired(None, p.frames + [Frame(c, sample)]))
      case Some(msg) => (Err(Writer(msg)), p)
  }

  /** Writes a block sample by sample, stopping at the first error. */
  function WriteSamples(p: Paired, samples: seq<real>, sink: FrameSink): (r: (Result<(), MIDIRendererError>, Paired))
    ensures |r.1.frames| >= |p.frames| && r.1.frames[..|p.frames|] == p.frames
    decreases |samples|
  {
    if |samples| == 0 then (Ok(()), p)
    else
      var a := WriteSample(p, samples[0], sink);
      if a.0.Err? then a else WriteSamples(a.1, samples[1..], sink)
  }

  /** `finalize`: the encoder is flushed and any held-back sample is dropped
      without being encoded. */
  function Finalize(p: Paired, flush: Option<string>): (r: (Result<(), MIDIRendererError>, seq<Frame>))
    ensures r.1 == p.frames
    ensures r.0.Ok? <==> flush.None?
    ensures flush.Some? ==> r.0 == Err(Writer(flush.value))
  {
    match flush
    case None => (Ok(()), p.frames)
    case Some(msg) => (Err(Writer(msg)), p.frames)
  }

  ghost predicate NeverFails(sink: FrameSink)
  {
    forall fs: seq<Frame>, f: Frame :: sink(fs, f).None?
  }

  /** With an encoder that never fails, writing samples s0 s1 s2 ... from an
      empty cache encodes the frames (s0, s1), (s2, s3), ... in order, and an
      odd sample out stays cached. */
  lemma {:induction false} WriteSamplesPairs(p: Paired, samples: seq<real>, sink: FrameSink)
    requires NeverFails(sink) && p.cache.None?
    ensures var r := WriteSamples(p, samples, sink);
      && r.0.Ok?
      && |r.1.frames| == |p.frames| + |samples| / 2
      && r.1.frames[..|p.frames|] == p.frames
      && (forall i :: 0 <= i < |samples| / 2 ==>
            r.1.frames[|p.frames| + i] == Frame(samples[2 * i], samples[2 * i + 1]))
      && r.1.cache == (if |samples| % 2 == 1 then Some(samples[|samples| - 1]) else None)
    decreases |samples|
  {
    if |samples| == 1 {
    } else if |samples| >= 2 {
      var a := WriteSample(p, samples[0], sink);
      var b := WriteSample(a.1, samples[1], sink);
      assert b.0.Ok? && b.1 == Paired(None, p.frames + [Frame(samples[0], samples[1])]);
      var rest := samples[2..];
      WriteSamplesPairs(b.1, rest, sink);
      assert samples[1..][1..] == rest;
      assert WriteSamples(p, samples, sink) == WriteSamples(b.1, rest, sink);
      var r := WriteSamples(b.1, rest, sink);
      forall i | 1 <= i < |samples| / 2
        ensures r.1.frames[|p.frames| + i] == Frame(samples[2 * i], samples[2 * i + 1])
      {
        assert r.1.frames[|b.1.frames| + (i - 1)] == Frame(rest[2 * (i - 1)], rest[2 * (i - 1) + 1]);
      }
      assert r.1.frames[..|b.1.frames|] == b.1.frames;
      assert r.1.frames[|p.frames|] == b.1.frames[|p.frames|];
    }
  }
}
