# Audio re-mux core of the Audio2Video Android app, in Dafny

The app takes a video the user picks, finds its first audio track and copies
that track's compressed samples, one by one and without re-encoding, into a new
MPEG-4 (`.m4a`) file. This project models that core, `extractAudioFromVideo`,
together with the string fallback of `getFileName` that shows a picked file's
name, and proves what they do.

Android's `MediaExtractor`, `MediaMuxer` and `MediaCodec.BufferInfo` are not
visible, so `media.dfy` models them as classes with only the state the
extraction observes or changes:

- The extractor holds the container's tracks, at most one selected track and a
  cursor over that track's samples. `readSampleData` returns -1 once the samples
  are exhausted.
- The muxer has a lifecycle (`Initialized → Started → Stopped → Released`) that
  its methods require: a track is added before `start`, and a sample is written
  only after it. It keeps the added track formats and the sample table written.
- `BufferInfo` is a mutable object whose four fields the relay loop sets one by
  one.
- Both media objects append each state-changing call to a shared `Journal`. This
  is how the order of calls across the two objects is stated.

Files and modules:

- `optional.dfy` (`Optional`) holds `Option`, which stands for a Java reference
  that may be null. Both the media model and the file-name logic use it.
- `media.dfy` (`Media`) holds the abstract library classes, the flag constants
  and the `Journal`.
- `track_selection.dfy` (`TrackSelection`) holds the selection rule, "first
  track whose MIME is non-null and starts with `audio/`".
- `sample_relay.dfy` (`SampleRelay`) holds the flag translation, the sample
  table and the call sequence the relay produces, and lemmas about them.
- `extract_audio.dfy` (`AudioExtraction`) holds the imperative
  `ExtractAudioFromVideo`. Its track search and its relay loop are the methods
  `FindAudioTrack` and `RelaySamples`, and it calls them in the original order.
  It also holds the expected call sequence and the call-order lemma.
- `file_names.dfy` (`FileNames`) holds `getFileName` and its last-path-segment
  fallback.

The video file at `videoPath` is represented by its parsed track list. The
`IOException` thrown when there is no audio track becomes
`Failure("No audio track found in video")`.

The model follows the code as written:

- The code releases the extractor only on the no-audio path and at the end of
  the normal path, and it releases the muxer only at the end of the normal path.
  It has no scoped or guaranteed release. The model adds none.
- The code selects tracks with a MIME prefix test, not a track-kind
  enumeration.
- The code raises only one error of its own, for the missing audio track.

Constants follow the Android API:

- `SAMPLE_FLAG_SYNC` = 1, `SAMPLE_FLAG_ENCRYPTED` = 2, `SAMPLE_FLAG_PARTIAL_FRAME` = 4
- `BUFFER_FLAG_KEY_FRAME` = 1, `BUFFER_FLAG_CODEC_CONFIG` = 2,
  `BUFFER_FLAG_END_OF_STREAM` = 4, `BUFFER_FLAG_PARTIAL_FRAME` = 8
- `MUXER_OUTPUT_MPEG_4` = 0

## Model

| member | source | states |
|---|---|---|
| `Media.Extractor.constructor` | app/src/main/java/com/example/audio2videonew/MainActivity.java:226 | a new extractor has no tracks and no selection and is not released |
| `Media.Extractor.SetDataSource` | app/src/main/java/com/example/audio2videonew/MainActivity.java:227 | the extractor's tracks become the container's tracks, nothing is selected, and the call is journalled |
| `Media.Extractor.GetTrackCount` | app/src/main/java/com/example/audio2videonew/MainActivity.java:233 | the number of tracks in the container |
| `Media.Extractor.GetTrackFormat` | app/src/main/java/com/example/audio2videonew/MainActivity.java:234-235 | the format (MIME, possibly absent, and codec data) of track `index` |
| `Media.Extractor.SelectTrack` | app/src/main/java/com/example/audio2videonew/MainActivity.java:248 | track `index` becomes the selected track, positioned at its first sample; the call is journalled |
| `Media.Extractor.ReadSampleData` | app/src/main/java/com/example/audio2videonew/MainActivity.java:260-263 | the current sample's size, and -1 exactly when the selected track is exhausted |
| `Media.Extractor.GetSampleTime` | app/src/main/java/com/example/audio2videonew/MainActivity.java:265 | the current sample's presentation time in microseconds (-1 past the end) |
| `Media.Extractor.GetSampleFlags` | app/src/main/java/com/example/audio2videonew/MainActivity.java:269 | the current sample's extractor flag bits |
| `Media.Extractor.Advance` | app/src/main/java/com/example/audio2videonew/MainActivity.java:279 | the cursor moves one sample forward (it stays put at the end); the result says whether a sample remains; the call is journalled |
| `Media.Extractor.Release` | app/src/main/java/com/example/audio2videonew/MainActivity.java:283-285 | the extractor is released, with its tracks and position unchanged; the call is journalled |
| `Media.Muxer.constructor` | app/src/main/java/com/example/audio2videonew/MainActivity.java:251 | a new muxer for the output path and format has no tracks and no samples and is in the Initialized state; its creation is journalled |
| `Media.Muxer.AddTrack` | app/src/main/java/com/example/audio2videonew/MainActivity.java:252 | allowed only before start; appends the format and returns its index, which is the number of tracks added before it |
| `Media.Muxer.Start` | app/src/main/java/com/example/audio2videonew/MainActivity.java:253 | allowed only when Initialized and at least one track has been added; moves the muxer to Started |
| `Media.Muxer.WriteSampleData` | app/src/main/java/com/example/audio2videonew/MainActivity.java:278 | allowed only when Started, for an added track and a non-negative offset and size; appends the descriptor's current value to the sample table |
| `Media.Muxer.Stop` | app/src/main/java/com/example/audio2videonew/MainActivity.java:283 | allowed only when Started; moves the muxer to Stopped and keeps its tracks and samples |
| `Media.Muxer.Release` | app/src/main/java/com/example/audio2videonew/MainActivity.java:284 | moves the muxer to Released and keeps its tracks and samples |
| `Media.BufferInfo.constructor` | app/src/main/java/com/example/audio2videonew/MainActivity.java:257 | a new descriptor has offset, size, time and flags all 0 |
| `TrackSelection.StartsWith` | app/src/main/java/com/example/audio2videonew/MainActivity.java:236 | true exactly when `prefix` is no longer than `s` and matches it character by character from position 0; an empty prefix always matches, a longer one never does |
| `TrackSelection.FindAudioFrom` | app/src/main/java/com/example/audio2videonew/MainActivity.java:233-241 | the result is the smallest index from `from` on whose MIME is non-null and starts with "audio/", and every track before it fails that test; the result is None exactly when no track from `from` on passes |
| `TrackSelection.FirstAudioTrackIsLeast` | app/src/main/java/com/example/audio2videonew/MainActivity.java:233-241 | the converse: an audio track preceded only by non-audio tracks is the one selected |
| `AudioExtraction.FindAudioTrack` | app/src/main/java/com/example/audio2videonew/MainActivity.java:229-241 | the search loop returns the first audio track's index and that track's format; when there is no audio track it returns -1 and no format |
| `AudioExtraction.RelaySamples` | app/src/main/java/com/example/audio2videonew/MainActivity.java:259-280 | after the loop, every sample of the selected track has been written once, in extractor order, under the added track's index; the cursor is at the end; the journal gained exactly a write-then-advance pair per sample; the muxer is still Started |
| `AudioExtraction.ExtractAudioFromVideo` | app/src/main/java/com/example/audio2videonew/MainActivity.java:225-286 | with no audio track: Failure with the source's message, no muxer, the extractor released, and only setDataSource and release journalled. Otherwise: Success; the muxer holds exactly the selected track's format; its sample table is the selected track's samples relayed under index 0; muxer and extractor are both released; the journal holds exactly the expected call sequence |
| `AudioExtraction.CallOrder` | app/src/main/java/com/example/audio2videonew/MainActivity.java:248-285 | on the normal path addTrack occurs once (call 3, with the audio format) and start once (call 4). Every write comes after start, goes to index 0 and is followed at once by an advance. Every advance follows a write. stop, the muxer's release and the extractor's release are the last three calls, in that order, and occur nowhere earlier |
| `SampleRelay.TranslateFlags` | app/src/main/java/com/example/audio2videonew/MainActivity.java:269-276 | the key-frame bit is set iff the sync bit was set, and the partial-frame bit iff the partial-frame bit was set; no other bit is ever set |
| `SampleRelay.TranslateFlagsIgnoresOtherBits` | app/src/main/java/com/example/audio2videonew/MainActivity.java:269-276 | inputs that agree on the sync and partial-frame bits translate alike; the encrypted bit is dropped; codec-config and end-of-stream are never produced |
| `SampleRelay.RelayedAt` | app/src/main/java/com/example/audio2videonew/MainActivity.java:259-280 | the sample table has one entry per source sample; entry k is sample k under the given track, with offset 0, the sample's size and timestamp, and its translated flags |
| `SampleRelay.RelayPreservesTimestamps` | app/src/main/java/com/example/audio2videonew/MainActivity.java:265 | the sequence of written timestamps equals the sequence read from the selected track |
| `SampleRelay.RelayPreservesFlags` | app/src/main/java/com/example/audio2videonew/MainActivity.java:269-276 | for each written sample, key-frame iff the source sample was sync, partial-frame iff it was partial, and nothing else |
| `SampleRelay.RelayCallsAt` | app/src/main/java/com/example/audio2videonew/MainActivity.java:278-279 | the relay makes two calls per sample: the write of sample k at position 2k and an advance at position 2k+1 |
| `SampleRelay.RelayCallsAlternate` | app/src/main/java/com/example/audio2videonew/MainActivity.java:278-279 | the relay makes only writes and advances; each write is followed at once by an advance, and each advance follows a write |
| `FileNames.LastIndexOf` | app/src/main/java/com/example/audio2videonew/MainActivity.java:140 | -1 exactly when the character does not occur; otherwise a position holding it with no occurrence after it |
| `FileNames.LastPathSegment` | app/src/main/java/com/example/audio2videonew/MainActivity.java:138-144 | the name contains no '/'. It is a suffix of the path. It is either the whole path or is preceded by a '/', so it is the text after the last '/', or the whole path when there is none |
| `FileNames.LastPathSegmentUnique` | app/src/main/java/com/example/audio2videonew/MainActivity.java:138-144 | any suffix with those properties is the one the fallback returns |
| `FileNames.GetFileName` | app/src/main/java/com/example/audio2videonew/MainActivity.java:126-146 | for a "content" URI whose query yields a display name, that name. Otherwise it is the path's last segment (`LastPathSegment`): the text after the last '/', or the whole path when there is none. It is a '/'-free suffix of the path, preceded by a '/' unless it is the whole path. Only a queried name may contain '/' |

## Left out

- The UI and Android lifecycle (MainActivity.java:49-124): views, listeners, permission requests, the file picker and toasts. They are presentation with no logic to state.
- The worker thread and the UI dispatch in `extractAudio` (MainActivity.java:148-202). These are concurrency and presentation. The outcome of one extraction is the `Outcome` value.
- `getRealPathFromUri` (MainActivity.java:204-223), the output directory and the timestamped output name (MainActivity.java:162-170). These are file I/O and clock reads. The model receives the parsed video and the output path as parameters.
- The content-resolver query of `getFileName` (MainActivity.java:128-137). It is a foreign call, so its result is the `displayName` parameter. A null `getScheme()` or `getPath()` (a NullPointerException in the code) is not modelled.
- Container parsing and MPEG-4 writing inside `MediaExtractor` and `MediaMuxer`. They are not visible. The model keeps only the abstract state described above. Samples carry no payload bytes, so the 1 MiB `ByteBuffer` (MainActivity.java:256) is not modelled either.
- Media.Extractor.ReadSampleData: what `readSampleData` does with a sample larger than the 1 MiB buffer is not modelled. The abstract extractor returns every sample's size. So no exception can arise inside the relay loop, and the missing cleanup on such an exception is not exercised.
- Media.Extractor.SetDataSource: an unreadable or unparsable source (an `IOException` from `setDataSource`) is not modelled; the container is given already parsed.
- Media.Muxer.constructor: an `IOException` from creating the output file is not modelled; creation always succeeds.
- Media.Extractor.SelectTrack: the library lets several tracks be selected at once; the model keeps one, which is all the extraction uses.
- The `Journal` records only state-changing calls. The queries `getTrackCount`, `getTrackFormat`, `readSampleData`, `getSampleTime` and `getSampleFlags` are not journalled.
- `ExtractAudioFromVideo` is one method in the code. The model splits its track search and relay loop into `FindAudioTrack` and `RelaySamples` to keep each proof small. The calls and their order are unchanged.
