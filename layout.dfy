/**
 * The line structure of the txt, SRT and WebVTT outputs: what a reader
 * splitting each file at '\n' finds on every line, and that the cue
 * numbers and timing lines read back to the segments they came from.
 */
module Layout {

  import opened Options
  import opened Digits
  import opened Strings
  import opened Timestamps
  import opened Segments
  import opened Emission

  /** No text spans more than one line. */
  predicate SingleLineTexts(results: seq<Segment>) {
    forall i :: 0 <= i < |results| ==> NoNewline(results[i].text)
  }

  lemma SingleLineTextsAreSingleLines(results: seq<Segment>)
    requires SingleLineTexts(results)
    ensures SingleLines(Texts(results))
  {
  }

  // ------------------------------------------------------------------- txt

  lemma {:induction false} TxtIsUnlines(results: seq<Segment>)
    ensures TxtDocument(results) == Unlines(Texts(results))
  {
    if results != [] {
      assert Texts(results) == [results[0].text] + Texts(results[1..]);
      UnlinesCons(results[0].text, Texts(results[1..]));
      TxtIsUnlines(results[1..]);
    }
  }

  /** The txt output holds exactly one line per result, that result's text, in order. */
  lemma TxtLayout(results: seq<Segment>)
    requires SingleLineTexts(results)
    ensures Lines(TxtDocument(results)) == Texts(results)
    ensures |Lines(TxtDocument(results))| == |results|
  {
    TxtIsUnlines(results);
    LinesOfUnlines(Texts(results));
  }

  // ---------------------------------------------------------- timing lines

  /** Reads a `start --> end` line written in style `fmt` back into two offsets. */
  function ParseTiming(line: string, fmt: string): Option<(nat, nat)> {
    var k := IndexOf(line, ' ');
    if k + 5 <= |line| && line[k..k + 5] == " --> " then
      var start, end := ParseTimestamp(line[..k], fmt), ParseTimestamp(line[k + 5..], fmt);
      if start.Some? && end.Some? then Some((start.value, end.value)) else None
    else None
  }

  lemma TimestampHasNoSpace(ms: nat, fmt: string)
    ensures forall i :: 0 <= i < |FormatTimestamp(ms, fmt)| ==> FormatTimestamp(ms, fmt)[i] != ' '
    ensures NoNewline(FormatTimestamp(ms, fmt))
  {
    TimestampFields(ms, fmt);
    FieldShapes(ms);
    FieldsHoldNoSpace(ZeroPad(Hours(ms), 2), ZeroPad(Minutes(ms), 2), ZeroPad(WholeSeconds(ms), 2),
                      ZeroPad(Millis(ms), 3), Separator(fmt));
  }

  lemma FieldsHoldNoSpace(hh: string, mm: string, ss: string, fff: string, sep: char)
    requires AllDigits(hh) && AllDigits(mm) && AllDigits(ss) && AllDigits(fff)
    requires sep == ',' || sep == '.'
    ensures var r := hh + ":" + mm + ":" + ss + [sep] + fff;
      && (forall i :: 0 <= i < |r| ==> r[i] != ' ')
      && NoNewline(r)
  {
  }

  /** Two space-free stamps joined by ` --> ` split back into those two stamps. */
  lemma ParseJoined(a: string, b: string, fmt: string)
    requires forall i :: 0 <= i < |a| ==> a[i] != ' '
    ensures ParseTiming(a + " --> " + b, fmt) ==
      var start, end := ParseTimestamp(a, fmt), ParseTimestamp(b, fmt);
      if start.Some? && end.Some? then Some((start.value, end.value)) else None
  {
    var line := a + " --> " + b;
    assert line == a + [' '] + ("--> " + b);
    IndexAfter(a, ' ', "--> " + b);
    var k := |a|;
    assert line[k..k + 5] == " --> ";
    assert line[..k] == a;
    assert line[k + 5..] == b;
  }

  /** A timing line reads back to the offsets of its segment. */
  lemma ParseTimingLine(result: Segment, fmt: string)
    ensures ParseTiming(TimingLine(result, fmt), fmt) == Some((result.startMs, result.endMs))
  {
    TimestampHasNoSpace(result.startMs, fmt);
    ParseJoined(FormatTimestamp(result.startMs, fmt), FormatTimestamp(result.endMs, fmt), fmt);
    ParseFormatted(result.startMs, fmt);
    ParseFormatted(result.endMs, fmt);
  }

  lemma TimingLineSingle(result: Segment, fmt: string)
    ensures NoNewline(TimingLine(result, fmt))
  {
    TimestampHasNoSpace(result.startMs, fmt);
    TimestampHasNoSpace(result.endMs, fmt);
  }

  lemma TimingsSingle(results: seq<Segment>, fmt: string)
    ensures SingleLines(Timings(results, fmt))
  {
    forall i | 0 <= i < |results| ensures NoNewline(Timings(results, fmt)[i]) {
      TimingsAt(results, fmt, i);
      TimingLineSingle(results[i], fmt);
    }
  }

  // ---------------------------------------------- line groups, generically

  lemma UnlinesOfThree(a: string, b: string, c: string, rest: seq<string>)
    ensures Unlines([a, b, c] + rest) == a + "\n" + b + "\n" + c + "\n" + Unlines(rest)
  {
    assert [a, b, c] + rest == [a] + ([b] + ([c] + rest));
    UnlinesCons(a, [b] + ([c] + rest));
    UnlinesCons(b, [c] + rest);
    UnlinesCons(c, rest);
  }

  lemma UnlinesOfFour(a: string, b: string, c: string, d: string, rest: seq<string>)
    ensures Unlines([a, b, c, d] + rest) == a + "\n" + b + "\n" + c + "\n" + d + "\n" + Unlines(rest)
  {
    assert [a, b, c, d] + rest == [a] + ([b, c, d] + rest);
    UnlinesCons(a, [b, c, d] + rest);
    UnlinesOfThree(b, c, d, rest);
  }

  lemma SliceHead<T>(head: seq<T>, tail: seq<T>)
    ensures (head + tail)[..|head|] == head
  {
  }

  /** A window of `head + tail` past the head is the same window of `tail`. */
  lemma SliceAfter<T>(head: seq<T>, tail: seq<T>, k: nat, width: nat)
    requires k + width <= |tail|
    ensures (head + tail)[|head| + k..|head| + k + width] == tail[k..k + width]
  {
  }

  // ------------------------------------------------------------------- SRT

  /** The lines of SRT blocks numbered from `first`, given each block's timing line and text:
      number, timing, text, blank. */
  function SrtLines(timings: seq<string>, texts: seq<string>, first: nat): seq<string>
    requires |timings| == |texts|
  {
    if texts == [] then []
    else [Decimal(first), timings[0], texts[0], ""] + SrtLines(timings[1..], texts[1..], first + 1)
  }

  lemma {:induction false} SrtIsUnlines(timings: seq<string>, texts: seq<string>, first: nat)
    requires |timings| == |texts|
    ensures SrtBlocks(timings, texts, first) == Unlines(SrtLines(timings, texts, first))
  {
    if texts != [] {
      var tail := SrtLines(timings[1..], texts[1..], first + 1);
      UnlinesOfFour(Decimal(first), timings[0], texts[0], "", tail);
      SrtIsUnlines(timings[1..], texts[1..], first + 1);
    }
  }

  lemma {:induction false} SrtLinesSingle(timings: seq<string>, texts: seq<string>, first: nat)
    requires |timings| == |texts|
    requires SingleLines(timings) && SingleLines(texts)
    ensures SingleLines(SrtLines(timings, texts, first))
  {
    if texts != [] {
      assert SingleLines(timings[1..]) && SingleLines(texts[1..]) by {
        forall i | 0 <= i < |texts| - 1 ensures NoNewline(timings[1..][i]) && NoNewline(texts[1..][i]) {
          assert timings[1..][i] == timings[i + 1] && texts[1..][i] == texts[i + 1];
        }
      }
      SrtLinesSingle(timings[1..], texts[1..], first + 1);
      var head := [Decimal(first), timings[0], texts[0], ""];
      DecimalDigits(first);
      assert NoNewline(timings[0]) && NoNewline(texts[0]);
      assert SingleLines(head);
    }
  }

  lemma {:induction false} SrtLinesAt(timings: seq<string>, texts: seq<string>, first: nat, i: nat)
    requires |timings| == |texts| && i < |texts|
    ensures |SrtLines(timings, texts, first)| == 4 * |texts|
    ensures SrtLines(timings, texts, first)[4 * i..4 * i + 4] == [Decimal(first + i), timings[i], texts[i], ""]
  {
    var head := [Decimal(first), timings[0], texts[0], ""];
    var tail := SrtLines(timings[1..], texts[1..], first + 1);
    if i > 0 {
      SrtLinesAt(timings[1..], texts[1..], first + 1, i - 1);
      SliceAfter(head, tail, 4 * (i - 1), 4);
    } else {
      if |texts| > 1 {
        SrtLinesAt(timings[1..], texts[1..], first + 1, 0);
      }
      SliceHead(head, tail);
    }
  }

  /** Block `i` line by line. */
  lemma SrtBlockLines(timings: seq<string>, texts: seq<string>, first: nat, i: nat)
    requires |timings| == |texts| && i < |texts|
    ensures var ls := SrtLines(timings, texts, first);
      && |ls| == 4 * |texts|
      && ls[4 * i] == Decimal(first + i) && ls[4 * i + 1] == timings[i]
      && ls[4 * i + 2] == texts[i] && ls[4 * i + 3] == ""
  {
    SrtLinesAt(timings, texts, first, i);
    var ls := SrtLines(timings, texts, first);
    var block := ls[4 * i..4 * i + 4];
    assert ls[4 * i] == block[0] && ls[4 * i + 1] == block[1];
    assert ls[4 * i + 2] == block[2] && ls[4 * i + 3] == block[3];
  }

  /** The SRT output splits back into exactly the lines its blocks were made of. */
  lemma SrtDocumentLines(results: seq<Segment>)
    requires SingleLineTexts(results)
    ensures Lines(SrtDocument(results)) == SrtLines(Timings(results, "srt"), Texts(results), 1)
  {
    var timings, texts := Timings(results, "srt"), Texts(results);
    TimingsSingle(results, "srt");
    SingleLineTextsAreSingleLines(results);
    SrtLinesSingle(timings, texts, 1);
    SrtIsUnlines(timings, texts, 1);
    LinesOfUnlines(SrtLines(timings, texts, 1));
  }

  /** The SRT output, read line by line, is N four-line blocks in segment order: the block
      number 1..N, the segment's timing line, its text and a blank line. */
  lemma SrtLayout(results: seq<Segment>)
    requires SingleLineTexts(results)
    ensures var ls := Lines(SrtDocument(results));
      && |ls| == 4 * |results|
      && forall i :: 0 <= i < |results| ==>
           && ls[4 * i] == Decimal(i + 1)
           && ls[4 * i + 1] == Timings(results, "srt")[i]
           && ls[4 * i + 2] == results[i].text
           && ls[4 * i + 3] == ""
  {
    var timings, texts := Timings(results, "srt"), Texts(results);
    SrtDocumentLines(results);
    var ls := SrtLines(timings, texts, 1);
    if results != [] {
      SrtBlockLines(timings, texts, 1, 0);
    }
    forall i | 0 <= i < |results|
      ensures ls[4 * i] == Decimal(i + 1)
      ensures ls[4 * i + 1] == timings[i]
      ensures ls[4 * i + 2] == results[i].text
      ensures ls[4 * i + 3] == ""
    {
      SrtBlockLines(timings, texts, 1, i);
    }
  }

  // ---------------------------------------------------------------- WebVTT

  /** The lines of WebVTT cues, given each cue's timing line and text: timing, text, blank. */
  function VttLines(timings: seq<string>, texts: seq<string>): seq<string>
    requires |timings| == |texts|
  {
    if texts == [] then [] else [timings[0], texts[0], ""] + VttLines(timings[1..], texts[1..])
  }

  lemma {:induction false} VttCuesAreUnlines(timings: seq<string>, texts: seq<string>)
    requires |timings| == |texts|
    ensures VttCues(timings, texts) == Unlines(VttLines(timings, texts))
  {
    if texts != [] {
      UnlinesOfThree(timings[0], texts[0], "", VttLines(timings[1..], texts[1..]));
      VttCuesAreUnlines(timings[1..], texts[1..]);
    }
  }

  lemma {:induction false} VttLinesSingle(timings: seq<string>, texts: seq<string>)
    requires |timings| == |texts|
    requires SingleLines(timings) && SingleLines(texts)
    ensures SingleLines(VttLines(timings, texts))
  {
    if texts != [] {
      assert SingleLines(timings[1..]) && SingleLines(texts[1..]) by {
        forall i | 0 <= i < |texts| - 1 ensures NoNewline(timings[1..][i]) && NoNewline(texts[1..][i]) {
          assert timings[1..][i] == timings[i + 1] && texts[1..][i] == texts[i + 1];
        }
      }
      VttLinesSingle(timings[1..], texts[1..]);
      var head := [timings[0], texts[0], ""];
      assert NoNewline(timings[0]) && NoNewline(texts[0]);
      assert SingleLines(head);
    }
  }

  lemma {:induction false} VttLinesAt(timings: seq<string>, texts: seq<string>, i: nat)
    requires |timings| == |texts| && i < |texts|
    ensures |VttLines(timings, texts)| == 3 * |texts|
    ensures VttLines(timings, texts)[3 * i..3 * i + 3] == [timings[i], texts[i], ""]
  {
    var head := [timings[0], texts[0], ""];
    var tail := VttLines(timings[1..], texts[1..]);
    if i > 0 {
      VttLinesAt(timings[1..], texts[1..], i - 1);
      SliceAfter(head, tail, 3 * (i - 1), 3);
    } else {
      if |texts| > 1 {
        VttLinesAt(timings[1..], texts[1..], 0);
      }
      SliceHead(head, tail);
    }
  }

  /** Cue `i` line by line. */
  lemma VttCueLines(timings: seq<string>, texts: seq<string>, i: nat)
    requires |timings| == |texts| && i < |texts|
    ensures var ls := VttLines(timings, texts);
      && |ls| == 3 * |texts|
      && ls[3 * i] == timings[i] && ls[3 * i + 1] == texts[i] && ls[3 * i + 2] == ""
  {
    VttLinesAt(timings, texts, i);
    var ls := VttLines(timings, texts);
    var cue := ls[3 * i..3 * i + 3];
    assert ls[3 * i] == cue[0] && ls[3 * i + 1] == cue[1] && ls[3 * i + 2] == cue[2];
  }

  /** A WebVTT document over single-line timing lines and texts splits back into the header lines
      and exactly the lines its cues were made of. */
  lemma VttDocumentLines(timings: seq<string>, texts: seq<string>)
    requires |timings| == |texts|
    requires SingleLines(timings) && SingleLines(texts)
    ensures Lines("WEBVTT\n\n" + VttCues(timings, texts)) == ["WEBVTT", ""] + VttLines(timings, texts)
  {
    var cues := VttLines(timings, texts);
    var all := ["WEBVTT", ""] + cues;
    VttCuesAreUnlines(timings, texts);
    UnlinesAppend(["WEBVTT", ""], cues);
    UnlinesCons("WEBVTT", [""]);
    UnlinesCons("", []);
    assert "WEBVTT\n\n" + VttCues(timings, texts) == Unlines(all);
    VttLinesSingle(timings, texts);
    assert SingleLines(all);
    LinesOfUnlines(all);
  }

  /** The WebVTT output, read line by line: `WEBVTT`, a blank line, then per segment in order
      its timing line, its text and a blank line, with no cue numbers. */
  lemma VttLayout(results: seq<Segment>)
    requires SingleLineTexts(results)
    ensures var ls := Lines(VttDocument(results));
      && |ls| == 2 + 3 * |results|
      && ls[0] == "WEBVTT" && ls[1] == ""
      && forall i :: 0 <= i < |results| ==>
           && ls[2 + 3 * i] == Timings(results, "vtt")[i]
           && ls[2 + 3 * i + 1] == results[i].text
           && ls[2 + 3 * i + 2] == ""
  {
    var timings, texts := Timings(results, "vtt"), Texts(results);
    TimingsSingle(results, "vtt");
    SingleLineTextsAreSingleLines(results);
    VttDocumentLines(timings, texts);
    var cues := VttLines(timings, texts);
    var header := ["WEBVTT", ""];
    var ls := Lines(VttDocument(results));
    assert ls == header + cues;
    assert ls[0] == header[0] && ls[1] == header[1];
    if results != [] {
      VttCueLines(timings, texts, 0);
    }
    forall i | 0 <= i < |results|
      ensures ls[2 + 3 * i] == timings[i]
      ensures ls[2 + 3 * i + 1] == results[i].text
      ensures ls[2 + 3 * i + 2] == ""
    {
      VttCueLines(timings, texts, i);
      assert ls[2 + 3 * i] == cues[3 * i] && ls[2 + 3 * i + 1] == cues[3 * i + 1] && ls[2 + 3 * i + 2] == cues[3 * i + 2];
    }
  }

}
