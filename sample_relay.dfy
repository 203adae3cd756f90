/** What the relay loop hands to the muxer: one descriptor per extracted sample,
    with the sample's own size and timestamp, offset 0, and its flags translated
    from MediaExtractor bits to MediaCodec bits. */
module SampleRelay {
  import opened Media

  /** The flag translation: the sync bit becomes the key-frame bit, the
      partial-frame bit becomes the partial-frame bit, and nothing else is set,
      since the descriptor's flags are cleared before each sample. */
  function TranslateFlags(sampleFlags: bv32): (flags: bv32)
    ensures (flags & BUFFER_FLAG_KEY_FRAME != 0) <==> (sampleFlags & SAMPLE_FLAG_SYNC != 0)
    ensures (flags & BUFFER_FLAG_PARTIAL_FRAME != 0) <==> (sampleFlags & SAMPLE_FLAG_PARTIAL_FRAME != 0)
    ensures flags & !(BUFFER_FLAG_KEY_FRAME | BUFFER_FLAG_PARTIAL_FRAME) == 0
  {
    var keyFrame: bv32 := if sampleFlags & SAMPLE_FLAG_SYNC != 0 then BUFFER_FLAG_KEY_FRAME else 0;
    var partialFrame: bv32 := if sampleFlags & SAMPLE_FLAG_PARTIAL_FRAME != 0 then BUFFER_FLAG_PARTIAL_FRAME else 0;
    keyFrame | partialFrame
  }

  /** Only the sync and partial-frame bits matter: the encrypted bit and every
      other extractor bit are dropped, and the codec-config and end-of-stream
      bits are never produced. */
  lemma TranslateFlagsIgnoresOtherBits(a: bv32, b: bv32)
    requires a & (SAMPLE_FLAG_SYNC | SAMPLE_FLAG_PARTIAL_FRAME) == b & (SAMPLE_FLAG_SYNC | SAMPLE_FLAG_PARTIAL_FRAME)
    ensures TranslateFlags(a) == TranslateFlags(b)
    ensures TranslateFlags(a ^ SAMPLE_FLAG_ENCRYPTED) == TranslateFlags(a)
    ensures TranslateFlags(a) & (BUFFER_FLAG_CODEC_CONFIG | BUFFER_FLAG_END_OF_STREAM) == 0
  {
  }

  /** The descriptor the loop builds for sample `s`. */
  function InfoFor(s: Sample): SampleInfo {
    SampleInfo(0, s.size, s.timeUs, TranslateFlags(s.flags))
  }

  /** The muxer's sample table after relaying `samples` under `trackIndex`. */
  function Relayed(samples: seq<Sample>, trackIndex: int): seq<WrittenSample> {
    if samples == [] then []
    else Relayed(samples[..|samples| - 1], trackIndex)
         + [WrittenSample(trackIndex, InfoFor(samples[|samples| - 1]))]
  }

  /** The calls the loop makes for `samples`: a write, then an advance, per sample. */
  function RelayCalls(samples: seq<Sample>, trackIndex: int): seq<Call> {
    if samples == [] then []
    else RelayCalls(samples[..|samples| - 1], trackIndex)
         + [MuxerWriteSampleData(trackIndex, InfoFor(samples[|samples| - 1])), ExtractorAdvance]
  }

  /** Relaying one more sample appends its record and its two calls. */
  lemma RelayStep(samples: seq<Sample>, trackIndex: int, n: nat)
    requires n < |samples|
    ensures Relayed(samples[..n + 1], trackIndex)
         == Relayed(samples[..n], trackIndex) + [WrittenSample(trackIndex, InfoFor(samples[n]))]
    ensures RelayCalls(samples[..n + 1], trackIndex)
         == RelayCalls(samples[..n], trackIndex) + [MuxerWriteSampleData(trackIndex, InfoFor(samples[n])), ExtractorAdvance]
  {
    assert samples[..n + 1][..n] == samples[..n];
  }

  /** Each sample is written exactly once, in extractor order, under the given
      track, with its own size and timestamp, offset 0 and translated flags. */
  lemma {:induction false} RelayedAt(samples: seq<Sample>, trackIndex: int, k: nat)
    requires k < |samples|
    ensures |Relayed(samples, trackIndex)| == |samples|
    ensures Relayed(samples, trackIndex)[k].trackIndex == trackIndex
    ensures Relayed(samples, trackIndex)[k].info.offset == 0
    ensures Relayed(samples, trackIndex)[k].info.size == samples[k].size
    ensures Relayed(samples, trackIndex)[k].info.presentationTimeUs == samples[k].timeUs
    ensures Relayed(samples, trackIndex)[k].info.flags == TranslateFlags(samples[k].flags)
  {
    var front := samples[..|samples| - 1];
    if k < |front| {
      RelayedAt(front, trackIndex, k);
    } else {
      RelayedLength(front, trackIndex);
    }
  }

  lemma {:induction false} RelayedLength(samples: seq<Sample>, trackIndex: int)
    ensures |Relayed(samples, trackIndex)| == |samples|
  {
    if samples != [] {
      RelayedLength(samples[..|samples| - 1], trackIndex);
    }
  }

  function WrittenTimestamps(written: seq<WrittenSample>): seq<int> {
    seq(|written|, k requires 0 <= k < |written| => written[k].info.presentationTimeUs)
  }

  function SampleTimestamps(samples: seq<Sample>): seq<int> {
    seq(|samples|, k requires 0 <= k < |samples| => samples[k].timeUs)
  }

  /** The timestamps in the output's sample table are those of the source track, in order. */
  lemma RelayPreservesTimestamps(samples: seq<Sample>, trackIndex: int)
    ensures WrittenTimestamps(Relayed(samples, trackIndex)) == SampleTimestamps(samples)
  {
    RelayedLength(samples, trackIndex);
    forall k | 0 <= k < |samples|
      ensures WrittenTimestamps(Relayed(samples, trackIndex))[k] == SampleTimestamps(samples)[k]
    {
      RelayedAt(samples, trackIndex, k);
    }
  }

  /** Key-frame and partial-frame marks in the output match the source sample by sample. */
  lemma RelayPreservesFlags(samples: seq<Sample>, trackIndex: int, k: nat)
    requires k < |samples|
    ensures |Relayed(samples, trackIndex)| == |samples|
    ensures var flags := Relayed(samples, trackIndex)[k].info.flags;
      && ((flags & BUFFER_FLAG_KEY_FRAME != 0) <==> (samples[k].flags & SAMPLE_FLAG_SYNC != 0))
      && ((flags & BUFFER_FLAG_PARTIAL_FRAME != 0) <==> (samples[k].flags & SAMPLE_FLAG_PARTIAL_FRAME != 0))
      && flags & !(BUFFER_FLAG_KEY_FRAME | BUFFER_FLAG_PARTIAL_FRAME) == 0
  {
    RelayedAt(samples, trackIndex, k);
  }

  /** The loop's calls alternate: a write of sample k at position 2k, an advance right after it. */
  lemma {:induction false} RelayCallsAt(samples: seq<Sample>, trackIndex: int)
    ensures |RelayCalls(samples, trackIndex)| == 2 * |samples|
    ensures forall k :: 0 <= k < |samples| ==>
      RelayCalls(samples, trackIndex)[2 * k] == MuxerWriteSampleData(trackIndex, InfoFor(samples[k]))
    ensures forall k :: 0 <= k < |samples| ==>
      RelayCalls(samples, trackIndex)[2 * k + 1] == ExtractorAdvance
  {
    if samples != [] {
      var front := samples[..|samples| - 1];
      RelayCallsAt(front, trackIndex);
      forall k | 0 <= k < |front|
        ensures front[k] == samples[k]
      {
      }
    }
  }

  /** In `calls`, every write goes to `trackIndex` and is followed at once by
      an advance, every advance comes right after a write, and nothing else occurs. */
  ghost predicate WritesThenAdvances(calls: seq<Call>, trackIndex: int) {
    forall k {:trigger calls[k]} :: 0 <= k < |calls| ==>
      && (calls[k].MuxerWriteSampleData? || calls[k] == ExtractorAdvance)
      && (calls[k].MuxerWriteSampleData? ==>
            calls[k].trackIndex == trackIndex && k + 1 < |calls| && calls[k + 1] == ExtractorAdvance)
      && (calls[k] == ExtractorAdvance ==> 0 < k && calls[k - 1].MuxerWriteSampleData?)
  }

  /** The loop's calls are a write followed by an advance, sample after sample. */
  lemma RelayCallsAlternate(samples: seq<Sample>, trackIndex: int)
    ensures |RelayCalls(samples, trackIndex)| == 2 * |samples|
    ensures WritesThenAdvances(RelayCalls(samples, trackIndex), trackIndex)
  {
    RelayCallsAt(samples, trackIndex);
  }
}
