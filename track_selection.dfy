/** Which track the extraction picks: the first one whose MIME type is present
    and begins with "audio/". */
module TrackSelection {
  import opened Optional
  import opened Media

  const AUDIO_MIME_PREFIX: string := "audio/"

  /** String.startsWith: every character of `prefix` matches `s` at the same
      position; an empty prefix always matches, a longer one never does. */
  predicate StartsWith(s: string, prefix: string): (b: bool)
    ensures b <==> |prefix| <= |s| && forall i :: 0 <= i < |prefix| ==> s[i] == prefix[i]
    ensures prefix == [] ==> b
    ensures |prefix| > |s| ==> !b
  {
    |prefix| <= |s| && s[..|prefix|] == prefix
  }

  /** The selection test applied to a track's KEY_MIME value: non-null and audio-typed. */
  predicate IsAudioMime(mime: Option<string>) {
    mime.Some? && StartsWith(mime.value, AUDIO_MIME_PREFIX)
  }

  predicate IsAudioTrack(track: Track) {
    IsAudioMime(track.format.mime)
  }

  /** The first audio track at or after `from`, if there is one. */
  function FindAudioFrom(tracks: seq<Track>, from: nat): (r: Option<nat>)
    requires from <= |tracks|
    ensures r.Some? ==> from <= r.value < |tracks| && IsAudioTrack(tracks[r.value])
    ensures r.Some? ==> forall j :: from <= j < r.value ==> !IsAudioTrack(tracks[j])
    ensures r.None? <==> forall j :: from <= j < |tracks| ==> !IsAudioTrack(tracks[j])
    decreases |tracks| - from
  {
    if from == |tracks| then None
    else if IsAudioTrack(tracks[from]) then Some(from)
    else FindAudioFrom(tracks, from + 1)
  }

  /** The index the extraction selects, or None when the container has no audio track. */
  function FirstAudioTrack(tracks: seq<Track>): Option<nat> {
    FindAudioFrom(tracks, 0)
  }

  /** Conversely, an audio track preceded only by non-audio tracks is the one selected. */
  lemma FirstAudioTrackIsLeast(tracks: seq<Track>, i: nat)
    requires i < |tracks| && IsAudioTrack(tracks[i])
    requires forall j :: 0 <= j < i ==> !IsAudioTrack(tracks[j])
    ensures FirstAudioTrack(tracks) == Some(i)
  {
  }
}
