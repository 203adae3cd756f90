/** Abstract models of the Android media classes that the extraction drives:
    MediaExtractor (a demuxer over a parsed container), MediaMuxer (an MPEG-4
    writer with a strict lifecycle) and MediaCodec.BufferInfo (the mutable
    descriptor handed to the muxer with every sample). Their container parsing
    and writing is not visible, so each class keeps only the state the calls
    made by the extraction observe or change. Every state-changing call is
    appended to a shared Journal, which is how the order of calls across the
    two objects is stated. */
module Media {
  import opened Optional

  /** A track's MediaFormat: the string stored under KEY_MIME (None when the key
      is absent, i.e. getString returns null) and the codec-specific data that
      the muxer copies into the output. */
  datatype MediaFormat = MediaFormat(mime: Option<string>, codecSpecificData: seq<bv8>)

  /** One compressed access unit as the extractor reports it: its size in bytes,
      its presentation time in microseconds and its MediaExtractor flag bits. */
  datatype Sample = Sample(size: nat, timeUs: int, flags: bv32)

  /** A track of the source container: its format and its samples in container order. */
  datatype Track = Track(format: MediaFormat, samples: seq<Sample>)

  // MediaExtractor.getSampleFlags bits
  const SAMPLE_FLAG_SYNC: bv32 := 1
  const SAMPLE_FLAG_ENCRYPTED: bv32 := 2
  const SAMPLE_FLAG_PARTIAL_FRAME: bv32 := 4

  // MediaCodec.BufferInfo.flags bits
  const BUFFER_FLAG_KEY_FRAME: bv32 := 1
  const BUFFER_FLAG_CODEC_CONFIG: bv32 := 2
  const BUFFER_FLAG_END_OF_STREAM: bv32 := 4
  const BUFFER_FLAG_PARTIAL_FRAME: bv32 := 8

  // MediaMuxer.OutputFormat.MUXER_OUTPUT_MPEG_4
  const MUXER_OUTPUT_MPEG_4: int := 0

  /** The value of a BufferInfo at the moment it is handed to the muxer. */
  datatype SampleInfo = SampleInfo(offset: int, size: int, presentationTimeUs: int, flags: bv32)

  /** One entry of the muxer's sample table: the track it was written to and its descriptor. */
  datatype WrittenSample = WrittenSample(trackIndex: int, info: SampleInfo)

  /** The state-changing calls made on an extractor or a muxer. */
  datatype Call =
    | ExtractorSetDataSource
    | ExtractorSelectTrack(index: nat)
    | ExtractorAdvance
    | ExtractorRelease
    | MuxerCreate(path: string, outputFormat: int)
    | MuxerAddTrack(format: MediaFormat)
    | MuxerStart
    | MuxerWriteSampleData(trackIndex: int, info: SampleInfo)
    | MuxerStop
    | MuxerRelease

  /** The record, in order, of every state-changing call made on the media objects. */
  class Journal {
    var calls: seq<Call>

    constructor ()
      ensures calls == []
    {
      calls := [];
    }
  }

  /** MediaCodec.BufferInfo: four public fields that the caller sets one by one. */
  class BufferInfo {
    var offset: int
    var size: int
    var presentationTimeUs: int
    var flags: bv32

    constructor ()
      ensures Value() == SampleInfo(0, 0, 0, 0)
    {
      offset, size, presentationTimeUs, flags := 0, 0, 0, 0;
    }

    function Value(): SampleInfo
      reads this
    {
      SampleInfo(offset, size, presentationTimeUs, flags)
    }
  }

  /** MediaExtractor over a container already parsed into tracks. At most one
      track is selected; `cursor` is the position of the current sample in it. */
  class Extractor {
    const journal: Journal
    var tracks: seq<Track>
    var selected: Option<nat>
    var cursor: nat
    var released: bool

    ghost predicate Valid()
      reads this
    {
      selected.Some? ==> selected.value < |tracks| && cursor <= |tracks[selected.value].samples|
    }

    /** The samples of the selected track. */
    ghost function Samples(): seq<Sample>
      reads this
      requires Valid() && selected.Some?
    {
      tracks[selected.value].samples
    }

    constructor (journal: Journal)
      ensures Valid() && this.journal == journal
      ensures tracks == [] && selected == None && cursor == 0 && !released
    {
      this.journal := journal;
      tracks, selected, cursor, released := [], None, 0, false;
    }

    /** Parses the container; here the container is given already as its tracks. */
    method SetDataSource(container: seq<Track>)
      requires Valid() && !released && selected == None
      modifies this, journal
      ensures Valid() && tracks == container
      ensures selected == None && cursor == old(cursor) && !released
      ensures journal.calls == old(journal.calls) + [ExtractorSetDataSource]
    {
      tracks := container;
      journal.calls := journal.calls + [ExtractorSetDataSource];
    }

    method GetTrackCount() returns (count: int)
      requires !released
      ensures count == |tracks|
    {
      count := |tracks|;
    }

    method GetTrackFormat(index: int) returns (format: MediaFormat)
      requires !released && 0 <= index < |tracks|
      ensures format == tracks[index].format
    {
      format := tracks[index].format;
    }

    /** Restricts the sample calls to track `index`, positioned at its first sample. */
    method SelectTrack(index: int)
      requires Valid() && !released && 0 <= index < |tracks|
      modifies this, journal
      ensures Valid() && tracks == old(tracks) && !released
      ensures selected == Some(index) && cursor == 0
      ensures journal.calls == old(journal.calls) + [ExtractorSelectTrack(index)]
    {
      selected, cursor := Some(index), 0;
      journal.calls := journal.calls + [ExtractorSelectTrack(index)];
    }

    /** The size of the current sample, or -1 once the selected track is exhausted. */
    method ReadSampleData() returns (size: int)
      requires Valid() && !released && selected.Some?
      ensures size == if cursor < |Samples()| then Samples()[cursor].size else -1
      ensures size < 0 <==> cursor == |Samples()|
    {
      var samples := tracks[selected.value].samples;
      size := if cursor < |samples| then samples[cursor].size else -1;
    }

    /** The current sample's presentation time, or -1 once the track is exhausted. */
    method GetSampleTime() returns (timeUs: int)
      requires Valid() && !released && selected.Some?
      ensures timeUs == if cursor < |Samples()| then Samples()[cursor].timeUs else -1
    {
      var samples := tracks[selected.value].samples;
      timeUs := if cursor < |samples| then samples[cursor].timeUs else -1;
    }

    method GetSampleFlags() returns (flags: bv32)
      requires Valid() && !released && selected.Some? && cursor < |Samples()|
      ensures flags == Samples()[cursor].flags
    {
      flags := tracks[selected.value].samples[cursor].flags;
    }

    /** Moves to the next sample; `more` tells whether one is left. */
    method Advance() returns (more: bool)
      requires Valid() && !released && selected.Some?
      modifies this, journal
      ensures Valid() && tracks == old(tracks) && selected == old(selected) && !released
      ensures cursor == if old(cursor) < |Samples()| then old(cursor) + 1 else old(cursor)
      ensures more <==> cursor < |Samples()|
      ensures journal.calls == old(journal.calls) + [ExtractorAdvance]
    {
      if cursor < |tracks[selected.value].samples| {
        cursor := cursor + 1;
      }
      more := cursor < |tracks[selected.value].samples|;
      journal.calls := journal.calls + [ExtractorAdvance];
    }

    method Release()
      requires Valid()
      modifies this, journal
      ensures Valid() && released
      ensures tracks == old(tracks) && selected == old(selected) && cursor == old(cursor)
      ensures journal.calls == old(journal.calls) + [ExtractorRelease]
    {
      released := true;
      journal.calls := journal.calls + [ExtractorRelease];
    }
  }

  /** The MediaMuxer lifecycle: tracks are added while Initialized, samples are
      written while Started, stop() finalises the file, release() frees it. */
  datatype MuxerState = Initialized | Started | Stopped | Released

  /** MediaMuxer: the formats of the tracks added and the sample table written so far. */
  class Muxer {
    const journal: Journal
    const path: string
    const outputFormat: int
    var state: MuxerState
    var tracks: seq<MediaFormat>
    var written: seq<WrittenSample>

    constructor (path: string, outputFormat: int, journal: Journal)
      modifies journal
      ensures this.journal == journal && this.path == path && this.outputFormat == outputFormat
      ensures state == Initialized && tracks == [] && written == []
      ensures journal.calls == old(journal.calls) + [MuxerCreate(path, outputFormat)]
    {
      this.journal, this.path, this.outputFormat := journal, path, outputFormat;
      state, tracks, written := Initialized, [], [];
      new;
      journal.calls := journal.calls + [MuxerCreate(path, outputFormat)];
    }

    /** Adds a track with `format`; the result is the index to write its samples under. */
    method AddTrack(format: MediaFormat) returns (index: int)
      requires state == Initialized
      modifies this, journal
      ensures state == Initialized && written == old(written)
      ensures index == |old(tracks)| && tracks == old(tracks) + [format]
      ensures journal.calls == old(journal.calls) + [MuxerAddTrack(format)]
    {
      index := |tracks|;
      tracks := tracks + [format];
      journal.calls := journal.calls + [MuxerAddTrack(format)];
    }

    method Start()
      requires state == Initialized && |tracks| > 0
      modifies this, journal
      ensures state == Started && tracks == old(tracks) && written == old(written)
      ensures journal.calls == old(journal.calls) + [MuxerStart]
    {
      state := Started;
      journal.calls := journal.calls + [MuxerStart];
    }

    /** Appends one sample, described by the current value of `info`, to track `trackIndex`. */
    method WriteSampleData(trackIndex: int, info: BufferInfo)
      requires state == Started && 0 <= trackIndex < |tracks|
      requires info.offset >= 0 && info.size >= 0
      modifies this, journal
      ensures state == Started && tracks == old(tracks)
      ensures written == old(written) + [WrittenSample(trackIndex, info.Value())]
      ensures journal.calls == old(journal.calls) + [MuxerWriteSampleData(trackIndex, info.Value())]
    {
      written := written + [WrittenSample(trackIndex, info.Value())];
      journal.calls := journal.calls + [MuxerWriteSampleData(trackIndex, info.Value())];
    }

    method Stop()
      requires state == Started
      modifies this, journal
      ensures state == Stopped && tracks == old(tracks) && written == old(written)
      ensures journal.calls == old(journal.calls) + [MuxerStop]
    {
      state := Stopped;
      journal.calls := journal.calls + [MuxerStop];
    }

    method Release()
      modifies this, journal
      ensures state == Released && tracks == old(tracks) && written == old(written)
      ensures journal.calls == old(journal.calls) + [MuxerRelease]
    {
      state := Released;
      journal.calls := journal.calls + [MuxerRelease];
    }
  }
}
