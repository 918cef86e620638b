/**
 * The stream probe result and the search CameraDevice::Open runs over it
 * for the first video stream.
 */
module Streams {

  /** `codecpar->codec_type` of a stream (FFmpeg's AVMEDIA_TYPE_* values). */
  datatype MediaType = Unknown | Video | Audio | Data | Subtitle | Attachment

  predicate HasVideo(streams: seq<MediaType>) {
    exists i :: 0 <= i < |streams| && streams[i] == Video
  }

  /** `i` is the lowest index of a video stream. */
  predicate IsFirstVideo(streams: seq<MediaType>, i: int) {
    && 0 <= i < |streams|
    && streams[i] == Video
    && forall j :: 0 <= j < i ==> streams[j] != Video
  }

  /** The index of the first video stream at or after `k`, or -1 when there is none. */
  function FirstVideoFrom(streams: seq<MediaType>, k: nat): int
    decreases |streams| - k
  {
    if k >= |streams| then -1
    else if streams[k] == Video then k
    else FirstVideoFrom(streams, k + 1)
  }

  /** The index of the first video stream, or -1. */
  function FirstVideo(streams: seq<MediaType>): int {
    FirstVideoFrom(streams, 0)
  }

  lemma {:induction false} FirstVideoFromSpec(streams: seq<MediaType>, k: nat)
    requires k <= |streams|
    ensures FirstVideoFrom(streams, k) == -1 <==> forall j :: k <= j < |streams| ==> streams[j] != Video
    ensures FirstVideoFrom(streams, k) != -1 ==>
              && k <= FirstVideoFrom(streams, k) < |streams|
              && streams[FirstVideoFrom(streams, k)] == Video
              && forall j :: k <= j < FirstVideoFrom(streams, k) ==> streams[j] != Video
    decreases |streams| - k
  {
    if k < |streams| && streams[k] != Video {
      FirstVideoFromSpec(streams, k + 1);
    }
  }

  /** FirstVideo finds the lowest video index, and finds none exactly when there is no video stream. */
  lemma FirstVideoSpec(streams: seq<MediaType>)
    ensures FirstVideo(streams) == -1 <==> !HasVideo(streams)
    ensures FirstVideo(streams) != -1 ==> IsFirstVideo(streams, FirstVideo(streams))
  {
    FirstVideoFromSpec(streams, 0);
  }

  /**
   * The `for (i = 0; i < nb_streams; i++)` loop with its `break`: the index
   * of the first video stream, or -1 when there is none.
   */
  method FindVideoStream(streams: seq<MediaType>) returns (videoIndex: int)
    ensures videoIndex == FirstVideo(streams)
  {
    videoIndex := -1;
    for i := 0 to |streams|
      invariant videoIndex == -1
      invariant FirstVideoFrom(streams, i) == FirstVideo(streams)
    {
      if streams[i] == Video {
        videoIndex := i;
        break;
      }
    }
  }
}
