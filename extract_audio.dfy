/** extractAudioFromVideo: open the video, pick its first audio track, and
    re-mux that track's samples one by one into a fresh MPEG-4 file. */
module AudioExtraction {
  import opened Optional
  import opened Media
  import opened TrackSelection
  import opened SampleRelay

  /** How the extraction ends: normally, or with the IOException it throws. */
  datatype Outcome = Success | Failure(message: string)

  const NO_AUDIO_TRACK_MESSAGE: string := "No audio track found in video"

  /** The calls before the first sample: open, select, create, add the track, start. */
  function SetupCalls(index: nat, format: MediaFormat, outputPath: string): seq<Call> {
    [ExtractorSetDataSource, ExtractorSelectTrack(index), MuxerCreate(outputPath, MUXER_OUTPUT_MPEG_4),
     MuxerAddTrack(format), MuxerStart]
  }

  const TEARDOWN_CALLS: seq<Call> := [MuxerStop, MuxerRelease, ExtractorRelease]

  /** Every call made on the media objects when the audio track is `index`. */
  function SuccessCalls(index: nat, format: MediaFormat, samples: seq<Sample>, outputPath: string): seq<Call> {
    SetupCalls(index, format, outputPath) + RelayCalls(samples, 0) + TEARDOWN_CALLS
  }

  /** Every call the extraction makes on `video`: with no audio track, only
      opening and releasing the extractor. */
  function ExpectedCalls(video: seq<Track>, outputPath: string): seq<Call> {
    match FirstAudioTrack(video)
    case None => [ExtractorSetDataSource, ExtractorRelease]
    case Some(i) => SuccessCalls(i, video[i].format, video[i].samples, outputPath)
  }

  /** The calls appended one at a time on the normal path make up SuccessCalls. */
  lemma SuccessCallsInSteps(before: seq<Call>, index: nat, format: MediaFormat, samples: seq<Sample>, outputPath: string)
    ensures before + [ExtractorSetDataSource] + [ExtractorSelectTrack(index)]
            + [MuxerCreate(outputPath, MUXER_OUTPUT_MPEG_4)] + [MuxerAddTrack(format)] + [MuxerStart]
            + RelayCalls(samples, 0) + [MuxerStop] + [MuxerRelease] + [ExtractorRelease]
         == before + SuccessCalls(index, format, samples, outputPath)
  {
  }

  /** The order of calls on the normal path: one addTrack with the audio
      format, then start; every write goes to the index addTrack returned,
      comes after start and is followed at once by an advance, and every
      advance follows a write; stop, the muxer's release and the extractor's
      release come last, once each, in that order. */
  lemma CallOrder(index: nat, format: MediaFormat, samples: seq<Sample>, outputPath: string)
    ensures var calls := SuccessCalls(index, format, samples, outputPath);
      && |calls| == 2 * |samples| + 8
      && calls[..5] == [ExtractorSetDataSource, ExtractorSelectTrack(index),
                        MuxerCreate(outputPath, MUXER_OUTPUT_MPEG_4), MuxerAddTrack(format), MuxerStart]
      && (forall k :: 0 <= k < |calls| && calls[k].MuxerAddTrack? ==> k == 3)
      && (forall k :: 0 <= k < |calls| && calls[k].MuxerStart? ==> k == 4)
      && (forall k :: 0 <= k < |calls| && calls[k].MuxerWriteSampleData? ==>
            4 < k < |calls| - 4 && calls[k].trackIndex == 0 && calls[k + 1] == ExtractorAdvance)
      && (forall k :: 0 <= k < |calls| && calls[k].ExtractorAdvance? ==>
            4 < k && calls[k - 1].MuxerWriteSampleData?)
      && (forall k :: 0 <= k < |calls| - 3 ==>
            !calls[k].MuxerStop? && !calls[k].MuxerRelease? && !calls[k].ExtractorRelease?)
      && calls[|calls| - 3..] == TEARDOWN_CALLS
  {
    var relay := RelayCalls(samples, 0);
    RelayCallsAlternate(samples, 0);
    var calls := SuccessCalls(index, format, samples, outputPath);
    var n := |relay|;
    assert calls[..5] == SetupCalls(index, format, outputPath);
    assert calls[5 + n..] == TEARDOWN_CALLS;
    forall k | 0 <= k < |calls|
      ensures k < 5 ==> calls[k] == SetupCalls(index, format, outputPath)[k]
      ensures 5 <= k < 5 + n ==> calls[k] == relay[k - 5]
      ensures 5 + n <= k ==> calls[k] == TEARDOWN_CALLS[k - 5 - n]
      ensures calls[k].MuxerWriteSampleData? ==>
        4 < k < |calls| - 4 && calls[k].trackIndex == 0 && calls[k + 1] == ExtractorAdvance
      ensures calls[k].ExtractorAdvance? ==> 4 < k && calls[k - 1].MuxerWriteSampleData?
    {
      if k < 5 {
        assert calls[k] == calls[..5][k];
      } else if k < 5 + n {
        assert calls[k] == (SetupCalls(index, format, outputPath) + relay)[k];
        if relay[k - 5].MuxerWriteSampleData? {
          assert calls[k + 1] == (SetupCalls(index, format, outputPath) + relay)[k + 1];
        }
        if relay[k - 5] == ExtractorAdvance {
          assert calls[k - 1] == (SetupCalls(index, format, outputPath) + relay)[k - 1];
        }
      } else {
        assert calls[k] == calls[5 + n..][k - 5 - n];
      }
    }
  }

  /** The track search at the head of extractAudioFromVideo: the index of the
      first track whose MIME is non-null and starts with "audio/", with its
      format, or -1 and no format when there is none. */
  method FindAudioTrack(extractor: Extractor) returns (audioTrackIndex: int, audioFormat: Option<MediaFormat>)
    requires !extractor.released
    ensures -1 <= audioTrackIndex < |extractor.tracks|
    ensures audioTrackIndex >= 0 ==>
      && IsAudioTrack(extractor.tracks[audioTrackIndex])
      && (forall j :: 0 <= j < audioTrackIndex ==> !IsAudioTrack(extractor.tracks[j]))
      && audioFormat == Some(extractor.tracks[audioTrackIndex].format)
    ensures audioTrackIndex == -1 ==>
      && (forall j :: 0 <= j < |extractor.tracks| ==> !IsAudioTrack(extractor.tracks[j]))
      && audioFormat == None
  {
    audioTrackIndex := -1;
    audioFormat := None;

    var i := 0;
    var trackCount := extractor.GetTrackCount();
    while i < trackCount
      invariant 0 <= i <= trackCount == |extractor.tracks|
      invariant forall j :: 0 <= j < i ==> !IsAudioTrack(extractor.tracks[j])
      invariant audioTrackIndex == -1 && audioFormat == None
    {
      var format := extractor.GetTrackFormat(i);
      var mime := format.mime;
      if mime.Some? && StartsWith(mime.value, AUDIO_MIME_PREFIX) {
        audioTrackIndex := i;
        audioFormat := Some(format);
        break;
      }
      i := i + 1;
      trackCount := extractor.GetTrackCount();
    }
  }

  /** The relay loop of extractAudioFromVideo: read the current sample's size,
      stop on a negative one, otherwise fill `bufferInfo` from the sample, hand
      it to the muxer and advance. Every sample of the freshly selected track
      is written once, in order, under `trackIndex`, each write followed by an
      advance. */
  method RelaySamples(extractor: Extractor, muxer: Muxer, trackIndex: int, bufferInfo: BufferInfo)
    requires extractor.Valid() && !extractor.released && extractor.selected.Some? && extractor.cursor == 0
    requires muxer.state == Started && 0 <= trackIndex < |muxer.tracks|
    requires extractor.journal == muxer.journal
    modifies extractor, muxer, bufferInfo, extractor.journal
    ensures extractor.Valid() && !extractor.released
    ensures extractor.tracks == old(extractor.tracks) && extractor.selected == old(extractor.selected)
    ensures extractor.cursor == |extractor.Samples()|
    ensures muxer.state == Started && muxer.tracks == old(muxer.tracks)
    ensures muxer.written == old(muxer.written) + Relayed(extractor.Samples(), trackIndex)
    ensures extractor.journal.calls == old(extractor.journal.calls) + RelayCalls(extractor.Samples(), trackIndex)
  {
    ghost var journal := extractor.journal;
    ghost var samples := extractor.Samples();
    ghost var written0, calls0 := muxer.written, journal.calls;

    while true
      invariant extractor.Valid() && !extractor.released
      invariant extractor.tracks == old(extractor.tracks) && extractor.selected == old(extractor.selected)
      invariant extractor.cursor <= |samples|
      invariant muxer.state == Started && muxer.tracks == old(muxer.tracks)
      invariant muxer.written == written0 + Relayed(samples[..extractor.cursor], trackIndex)
      invariant journal.calls == calls0 + RelayCalls(samples[..extractor.cursor], trackIndex)
      decreases |samples| - extractor.cursor
    {
      bufferInfo.size := extractor.ReadSampleData();
      if bufferInfo.size < 0 {
        break;
      }

      bufferInfo.presentationTimeUs := extractor.GetSampleTime();
      bufferInfo.offset := 0;

      // Convert MediaExtractor flags to MediaCodec flags
      var sampleFlags := extractor.GetSampleFlags();
      bufferInfo.flags := TranslateFlags(sampleFlags);

      ghost var n := extractor.cursor;
      ghost var info := InfoFor(samples[n]);
      assert bufferInfo.Value() == info;
      RelayStep(samples, trackIndex, n);
      muxer.WriteSampleData(trackIndex, bufferInfo);
      var _ := extractor.Advance();
    }
    assert samples[..extractor.cursor] == samples;
  }

  /** extractAudioFromVideo(videoPath, outputPath). The file at videoPath is
      represented by its parsed tracks `video`; `journal` records the calls
      made on the extractor and the muxer. */
  method ExtractAudioFromVideo(video: seq<Track>, outputPath: string, journal: Journal)
    returns (outcome: Outcome, extractor: Extractor, muxer: Muxer?)
    modifies journal
    ensures fresh(extractor) && extractor.journal == journal && extractor.released
    ensures journal.calls == old(journal.calls) + ExpectedCalls(video, outputPath)
    ensures FirstAudioTrack(video).None? ==>
      outcome == Failure(NO_AUDIO_TRACK_MESSAGE) && muxer == null && extractor.selected == None
    ensures FirstAudioTrack(video).Some? ==>
      var i := FirstAudioTrack(video).value;
      && outcome == Success
      && extractor.selected == Some(i) && extractor.cursor == |video[i].samples|
      && muxer != null && fresh(muxer) && muxer.journal == journal
      && muxer.path == outputPath && muxer.outputFormat == MUXER_OUTPUT_MPEG_4
      && muxer.state == Released
      && muxer.tracks == [video[i].format]
      && muxer.written == Relayed(video[i].samples, 0)
  {
    extractor := new Extractor(journal);
    extractor.SetDataSource(video);

    // Find audio track
    var audioTrackIndex, audioFormat := FindAudioTrack(extractor);

    if audioTrackIndex < 0 {
      extractor.Release();
      return Failure(NO_AUDIO_TRACK_MESSAGE), extractor, null;
    }
    FirstAudioTrackIsLeast(video, audioTrackIndex);
    ghost var samples := video[audioTrackIndex].samples;

    extractor.SelectTrack(audioTrackIndex);

    // Create muxer for output
    muxer := new Muxer(outputPath, MUXER_OUTPUT_MPEG_4, journal);
    var trackIndex := muxer.AddTrack(audioFormat.value);
    muxer.Start();

    // Extract and write audio data
    var bufferInfo := new BufferInfo();
    RelaySamples(extractor, muxer, trackIndex, bufferInfo);
    assert extractor.Samples() == samples;

    // Cleanup
    muxer.Stop();
    muxer.Release();
    extractor.Release();
    outcome := Success;
    SuccessCallsInSteps(old(journal.calls), audioTrackIndex, audioFormat.value, samples, outputPath);
  }
}
