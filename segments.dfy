/**
 * The records the transcriber yields and the loop of `transcribe_audio`
 * that copies them into the `results` list, stripping each text.
 */
module Segments {

  import opened Strings

  /** One transcribed span: its start and end offsets in milliseconds and its text. */
  datatype Segment = Segment(startMs: nat, endMs: nat, text: string)

  /** The record kept for one transcribed segment: same offsets, text with surrounding whitespace removed. */
  function ResultOf(segment: Segment): (r: Segment)
    ensures r.startMs == segment.startMs && r.endMs == segment.endMs
    ensures IsStripped(r.text) && |r.text| <= |segment.text|
  {
    Segment(segment.startMs, segment.endMs, Strip(segment.text))
  }

  /** Builds `results` by appending one record per segment, in the order the segments arrive. */
  method CollectResults(segments: seq<Segment>) returns (results: seq<Segment>)
    ensures |results| == |segments|
    ensures forall i :: 0 <= i < |segments| ==> results[i] == ResultOf(segments[i])
    ensures forall i :: 0 <= i < |results| ==> IsStripped(results[i].text)
  {
    results := [];
    for i := 0 to |segments|
      invariant |results| == i
      invariant forall j :: 0 <= j < i ==> results[j] == ResultOf(segments[j])
    {
      var segment := segments[i];
      var result := Segment(segment.startMs, segment.endMs, Strip(segment.text));
      results := results + [result];
    }
  }

}
