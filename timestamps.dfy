/**
 * `format_timestamp`: a time offset rendered as `HH:MM:SS.mmm` for WebVTT,
 * or as `HH:MM:SS,mmm` for SRT. Time is held as whole milliseconds.
 */
module Timestamps {

  import opened Options
  import opened Digits
  import opened Strings

  /** `seconds // 3600`. Not bounded: past 99 hours the field grows beyond two digits. */
  function Hours(ms: nat): nat {
    ms / 3_600_000
  }

  /** `(seconds % 3600) // 60`. */
  function Minutes(ms: nat): (m: nat)
    ensures m < 60
  {
    ms % 3_600_000 / 60_000
  }

  /** The whole part of `seconds % 60`. */
  function WholeSeconds(ms: nat): (s: nat)
    ensures s < 60
  {
    ms % 60_000 / 1000
  }

  /** The three fractional digits of `seconds % 60`. */
  function Millis(ms: nat): (f: nat)
    ensures f < 1000
  {
    ms % 1000
  }

  /** The decimal separator of a style: a comma for "srt", a point for anything else. */
  function Separator(fmt: string): char {
    if fmt == "srt" then ',' else '.'
  }

  /** `f"{hours:02d}:{minutes:02d}:{secs:06.3f}"`, with `.replace(".", ",")` when `fmt` is "srt". */
  function FormatTimestamp(ms: nat, fmt: string): string {
    var plain := ZeroPad(Hours(ms), 2) + ":" + ZeroPad(Minutes(ms), 2) + ":"
                 + ZeroPad(WholeSeconds(ms), 2) + "." + ZeroPad(Millis(ms), 3);
    if fmt == "srt" then ReplaceChar(plain, '.', ',') else plain
  }

  /** Reads a timestamp written in style `fmt` back into milliseconds. */
  function ParseTimestamp(s: string, fmt: string): Option<nat> {
    var n := |s|;
    if n < 11 || s[n - 10] != ':' || s[n - 7] != ':' || s[n - 4] != Separator(fmt) then None
    else
      var h, m, sec, milli := ParseNat(s[..n - 10]), ParseNat(s[n - 9..n - 7]),
                              ParseNat(s[n - 6..n - 4]), ParseNat(s[n - 3..]);
      if h.None? || m.None? || sec.None? || milli.None? then None
      else Some(h.value * 3_600_000 + m.value * 60_000 + sec.value * 1000 + milli.value)
  }

  /** Euclidean division by a minute is unique. */
  lemma MinuteDivision(x: nat, q: nat, r: nat)
    requires x == q * 60_000 + r && r < 60_000
    ensures x % 60_000 == r
  {
  }

  /** Euclidean division by a second is unique. */
  lemma SecondDivision(x: nat, q: nat, r: nat)
    requires x == q * 1000 + r && r < 1000
    ensures x % 1000 == r
  {
  }

  /** The four fields put back together give the offset they were taken from. */
  lemma Decompose(ms: nat)
    ensures Hours(ms) * 3_600_000 + Minutes(ms) * 60_000 + WholeSeconds(ms) * 1000 + Millis(ms) == ms
  {
    var h, r1 := ms / 3_600_000, ms % 3_600_000;
    var m, r2 := r1 / 60_000, r1 % 60_000;
    assert ms == h * 3_600_000 + r1;
    assert r1 == m * 60_000 + r2;
    MinuteDivision(ms, h * 60 + m, r2);
    var s, f := r2 / 1000, r2 % 1000;
    assert r2 == s * 1000 + f;
    SecondDivision(ms, (h * 60 + m) * 60 + s, f);
  }

  /** The explicit field layout: hours, ':', minutes, ':', seconds, separator, milliseconds. */
  lemma TimestampFields(ms: nat, fmt: string)
    ensures FormatTimestamp(ms, fmt)
            == ZeroPad(Hours(ms), 2) + ":" + ZeroPad(Minutes(ms), 2) + ":"
               + ZeroPad(WholeSeconds(ms), 2) + [Separator(fmt)] + ZeroPad(Millis(ms), 3)
  {
    FieldShapes(ms);
    if fmt == "srt" {
      CommaForPoint(ZeroPad(Hours(ms), 2), ZeroPad(Minutes(ms), 2), ZeroPad(WholeSeconds(ms), 2), ZeroPad(Millis(ms), 3));
    }
  }

  lemma CommaForPoint(hh: string, mm: string, ss: string, fff: string)
    requires AllDigits(hh) && AllDigits(mm) && AllDigits(ss) && AllDigits(fff)
    ensures ReplaceChar(hh + ":" + mm + ":" + ss + "." + fff, '.', ',') == hh + ":" + mm + ":" + ss + "," + fff
  {
    DigitsHoldNoPoint(hh);
    DigitsHoldNoPoint(mm);
    DigitsHoldNoPoint(ss);
    DigitsHoldNoPoint(fff);
    assert ReplaceChar(":", '.', ',') == ":";
    assert ReplaceChar(".", '.', ',') == ",";
    ReplaceAppend(hh, ":", '.', ',');
    ReplaceAppend(hh + ":", mm, '.', ',');
    ReplaceAppend(hh + ":" + mm, ":", '.', ',');
    ReplaceAppend(hh + ":" + mm + ":", ss, '.', ',');
    ReplaceAppend(hh + ":" + mm + ":" + ss, ".", '.', ',');
    ReplaceAppend(hh + ":" + mm + ":" + ss + ".", fff, '.', ',');
  }

  lemma DigitsHoldNoPoint(s: string)
    requires AllDigits(s)
    ensures ReplaceChar(s, '.', ',') == s
  {
    ReplaceAbsent(s, '.', ',');
  }

  /** The four fields are digit strings; minutes, seconds and milliseconds always fill 2, 2 and 3 characters. */
  lemma FieldShapes(ms: nat)
    ensures |ZeroPad(Minutes(ms), 2)| == 2 && |ZeroPad(WholeSeconds(ms), 2)| == 2
    ensures |ZeroPad(Millis(ms), 3)| == 3
    ensures |ZeroPad(Hours(ms), 2)| >= 2
    ensures AllDigits(ZeroPad(Hours(ms), 2)) && AllDigits(ZeroPad(Minutes(ms), 2))
    ensures AllDigits(ZeroPad(WholeSeconds(ms), 2)) && AllDigits(ZeroPad(Millis(ms), 3))
  {
    ZeroPadDigits(Hours(ms), 2);
    ZeroPadDigits(Minutes(ms), 2);
    ZeroPadDigits(WholeSeconds(ms), 2);
    ZeroPadDigits(Millis(ms), 3);
    ZeroPadWidth(Minutes(ms), 2);
    ZeroPadWidth(WholeSeconds(ms), 2);
    ZeroPadWidth(Millis(ms), 3);
  }

  /** The rendered layout: every character a digit except the two colons and the separator,
      which sit 10, 7 and 4 places from the end; under 100 hours the text is 12 characters. */
  lemma TimestampLayout(ms: nat, fmt: string)
    ensures var r := FormatTimestamp(ms, fmt);
      && |r| >= 12
      && r[|r| - 10] == ':' && r[|r| - 7] == ':' && r[|r| - 4] == Separator(fmt)
      && (forall i :: 0 <= i < |r| && i != |r| - 10 && i != |r| - 7 && i != |r| - 4 ==> IsDigit(r[i]))
      && (Hours(ms) < 100 ==> |r| == 12)
  {
    TimestampFields(ms, fmt);
    FieldShapes(ms);
    if Hours(ms) < 100 {
      ZeroPadWidth(Hours(ms), 2);
    }
  }

  /** The SRT form is the WebVTT form with its one '.' turned into ','; the WebVTT form holds no
      comma and the SRT form no point. */
  lemma SrtIsVttWithComma(ms: nat)
    ensures var srt, vtt := FormatTimestamp(ms, "srt"), FormatTimestamp(ms, "vtt");
      && |srt| == |vtt|
      && (forall i :: 0 <= i < |vtt| ==> (vtt[i] == '.' <==> i == |vtt| - 4))
      && (forall i :: 0 <= i < |vtt| ==> srt[i] == if i == |vtt| - 4 then ',' else vtt[i])
      && (forall i :: 0 <= i < |vtt| ==> vtt[i] != ',' && srt[i] != '.')
  {
    TimestampFields(ms, "srt");
    TimestampFields(ms, "vtt");
    FieldShapes(ms);
    SeparatorSwap(ZeroPad(Hours(ms), 2), ZeroPad(Minutes(ms), 2), ZeroPad(WholeSeconds(ms), 2), ZeroPad(Millis(ms), 3));
  }

  lemma SeparatorSwap(hh: string, mm: string, ss: string, fff: string)
    requires AllDigits(hh) && AllDigits(mm) && AllDigits(ss) && AllDigits(fff) && |fff| == 3
    ensures var srt, vtt := hh + ":" + mm + ":" + ss + [','] + fff, hh + ":" + mm + ":" + ss + ['.'] + fff;
      && |srt| == |vtt|
      && (forall i :: 0 <= i < |vtt| ==> (vtt[i] == '.' <==> i == |vtt| - 4))
      && (forall i :: 0 <= i < |vtt| ==> srt[i] == if i == |vtt| - 4 then ',' else vtt[i])
      && (forall i :: 0 <= i < |vtt| ==> vtt[i] != ',' && srt[i] != '.')
  {
    var head := hh + ":" + mm + ":" + ss;
    assert forall i :: 0 <= i < |head| ==> head[i] != '.' && head[i] != ',';
  }

  /** Reading a timestamp back in the style it was written in gives the original offset. */
  lemma ParseFormatted(ms: nat, fmt: string)
    ensures ParseTimestamp(FormatTimestamp(ms, fmt), fmt) == Some(ms)
  {
    TimestampFields(ms, fmt);
    ParseFieldLayout(ms, fmt);
  }

  lemma ParseFieldLayout(ms: nat, fmt: string)
    ensures ParseTimestamp(ZeroPad(Hours(ms), 2) + ":" + ZeroPad(Minutes(ms), 2) + ":"
                           + ZeroPad(WholeSeconds(ms), 2) + [Separator(fmt)] + ZeroPad(Millis(ms), 3), fmt)
            == Some(ms)
  {
    var h, m, sec, f := Hours(ms), Minutes(ms), WholeSeconds(ms), Millis(ms);
    var hh, mm, ss, fff := ZeroPad(h, 2), ZeroPad(m, 2), ZeroPad(sec, 2), ZeroPad(f, 3);
    FieldShapes(ms);
    ParseZeroPad(h, 2);
    ParseZeroPad(m, 2);
    ParseZeroPad(sec, 2);
    ParseZeroPad(f, 3);
    ParseFields(hh, mm, ss, fff, h, m, sec, f, fmt);
    Decompose(ms);
  }

  lemma ParseFields(hh: string, mm: string, ss: string, fff: string, h: nat, m: nat, sec: nat, f: nat, fmt: string)
    requires |hh| >= 1 && |mm| == 2 && |ss| == 2 && |fff| == 3
    requires ParseNat(hh) == Some(h) && ParseNat(mm) == Some(m) && ParseNat(ss) == Some(sec) && ParseNat(fff) == Some(f)
    ensures ParseTimestamp(hh + ":" + mm + ":" + ss + [Separator(fmt)] + fff, fmt)
            == Some(h * 3_600_000 + m * 60_000 + sec * 1000 + f)
  {
    var s := hh + ":" + mm + ":" + ss + [Separator(fmt)] + fff;
    var n := |s|;
    assert s[..n - 10] == hh;
    assert s[n - 9..n - 7] == mm;
    assert s[n - 6..n - 4] == ss;
    assert s[n - 3..] == fff;
  }

  /** Distinct offsets never render alike. */
  lemma FormatInjective(a: nat, b: nat, fmt: string)
    requires FormatTimestamp(a, fmt) == FormatTimestamp(b, fmt)
    ensures a == b
  {
    ParseFormatted(a, fmt);
    ParseFormatted(b, fmt);
  }

}
