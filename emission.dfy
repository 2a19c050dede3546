/**
 * The txt, SRT and WebVTT outputs of `transcribe_audio`, the choice of
 * formats to write and the name of each output file. A file write is
 * modelled by the string that would be written.
 */
module Emission {

  import opened Digits
  import opened Strings
  import opened Timestamps
  import opened Segments

  // ---------------------------------------------------------------- documents

  /** txt: each text followed by a newline. */
  function TxtDocument(results: seq<Segment>): string {
    if results == [] then "" else results[0].text + "\n" + TxtDocument(results[1..])
  }

  /** The texts of the results, in order. */
  function Texts(results: seq<Segment>): (texts: seq<string>)
    ensures |texts| == |results|
    ensures forall i :: 0 <= i < |results| ==> texts[i] == results[i].text
  {
    seq(|results|, i requires 0 <= i < |results| => results[i].text)
  }

  /** The cue timing line `start --> end`, both offsets in style `fmt`. */
  function TimingLine(result: Segment, fmt: string): string {
    FormatTimestamp(result.startMs, fmt) + " --> " + FormatTimestamp(result.endMs, fmt)
  }

  /** The timing lines of the results in style `fmt`, in order. */
  function Timings(results: seq<Segment>, fmt: string): (timings: seq<string>)
    ensures |timings| == |results|
  {
    seq(|results|, i requires 0 <= i < |results| => TimingLine(results[i], fmt))
  }

  lemma TimingsAt(results: seq<Segment>, fmt: string, i: nat)
    requires i < |results|
    ensures Timings(results, fmt)[i] == TimingLine(results[i], fmt)
  {
  }

  /** One SRT block: its number, the timing line, the text and a blank line. */
  function SrtBlock(index: nat, timing: string, text: string): string {
    Decimal(index) + "\n" + timing + "\n" + text + "\n\n"
  }

  /** The SRT blocks for the given timing lines and texts, numbered from `first` on. */
  function SrtBlocks(timings: seq<string>, texts: seq<string>, first: nat): string
    requires |timings| == |texts|
  {
    if texts == [] then "" else SrtBlock(first, timings[0], texts[0]) + SrtBlocks(timings[1..], texts[1..], first + 1)
  }

  /** SRT: blocks numbered 1, 2, ... in segment order. */
  function SrtDocument(results: seq<Segment>): string {
    SrtBlocks(Timings(results, "srt"), Texts(results), 1)
  }

  /** One WebVTT cue: the timing line, the text and a blank line; cues carry no number. */
  function VttCue(timing: string, text: string): string {
    timing + "\n" + text + "\n\n"
  }

  function VttCues(timings: seq<string>, texts: seq<string>): string
    requires |timings| == |texts|
  {
    if texts == [] then "" else VttCue(timings[0], texts[0]) + VttCues(timings[1..], texts[1..])
  }

  /** WebVTT: the `WEBVTT` header and a blank line, then the cues. */
  function VttDocument(results: seq<Segment>): string {
    "WEBVTT\n\n" + VttCues(Timings(results, "vtt"), Texts(results))
  }

  // ------------------------------------------------------------ the writers

  /** One pass of the SRT loop: appending block `i + 1` keeps the written prefix a prefix of the document. */
  lemma SrtStep(timings: seq<string>, texts: seq<string>, out: string, i: nat, doc: string)
    requires |timings| == |texts| && i < |texts|
    requires out + SrtBlocks(timings[i..], texts[i..], i + 1) == doc
    ensures (out + SrtBlock(i + 1, timings[i], texts[i])) + SrtBlocks(timings[i + 1..], texts[i + 1..], i + 2) == doc
  {
    assert timings[i..][1..] == timings[i + 1..];
    assert texts[i..][1..] == texts[i + 1..];
  }

  /** One pass of the WebVTT loop, likewise. */
  lemma VttStep(timings: seq<string>, texts: seq<string>, out: string, i: nat, doc: string)
    requires |timings| == |texts| && i < |texts|
    requires out + VttCues(timings[i..], texts[i..]) == doc
    ensures (out + VttCue(timings[i], texts[i])) + VttCues(timings[i + 1..], texts[i + 1..]) == doc
  {
    assert timings[i..][1..] == timings[i + 1..];
    assert texts[i..][1..] == texts[i + 1..];
  }

  /** The txt branch: one write per result. */
  method RenderTxt(results: seq<Segment>) returns (out: string)
    ensures out == TxtDocument(results)
  {
    out := "";
    for i := 0 to |results|
      invariant out + TxtDocument(results[i..]) == TxtDocument(results)
    {
      assert results[i..][1..] == results[i + 1..];
      out := out + results[i].text + "\n";
    }
  }

  /** The srt branch: `enumerate(results, 1)`, one numbered block per result. */
  method RenderSrt(results: seq<Segment>) returns (out: string)
    ensures out == SrtDocument(results)
  {
    ghost var timings, texts := Timings(results, "srt"), Texts(results);
    out := "";
    for i := 0 to |results|
      invariant out + SrtBlocks(timings[i..], texts[i..], i + 1) == SrtDocument(results)
    {
      var start := FormatTimestamp(results[i].startMs, "srt");
      var end := FormatTimestamp(results[i].endMs, "srt");
      TimingsAt(results, "srt", i);
      SrtStep(timings, texts, out, i, SrtDocument(results));
      out := out + SrtBlock(i + 1, start + " --> " + end, results[i].text);
    }
  }

  /** The vtt branch: the header, then one cue per result. */
  method RenderVtt(results: seq<Segment>) returns (out: string)
    ensures out == VttDocument(results)
  {
    ghost var timings, texts := Timings(results, "vtt"), Texts(results);
    out := "WEBVTT\n\n";
    for i := 0 to |results|
      invariant out + VttCues(timings[i..], texts[i..]) == VttDocument(results)
    {
      var start := FormatTimestamp(results[i].startMs, "vtt");
      var end := FormatTimestamp(results[i].endMs, "vtt");
      TimingsAt(results, "vtt", i);
      VttStep(timings, texts, out, i, VttDocument(results));
      out := out + VttCue(start + " --> " + end, results[i].text);
    }
  }

  // ------------------------------------------------------ choosing the files

  /** What one output file holds: text, or the records handed to `json.dump`. */
  datatype Body = Text(content: string) | JsonDump(records: seq<Segment>)

  /** One written file: its name inside the output directory and its body. */
  datatype OutputFile = OutputFile(name: string, body: Body)

  /** What a run can write, one entry per format: the three text documents and the json records. */
  datatype Documents = Documents(txt: string, records: seq<Segment>, srt: string, vtt: string)

  /** The documents rendered from one list of results. */
  function Render(results: seq<Segment>): Documents {
    Documents(TxtDocument(results), results, SrtDocument(results), VttDocument(results))
  }

  const AllFormats: seq<string> := ["txt", "json", "srt", "vtt"]

  /** `--all` writes every format in a fixed order; otherwise only the requested one. */
  function FormatsToSave(outputAll: bool, outputFormat: string): seq<string> {
    if outputAll then AllFormats else [outputFormat]
  }

  /** The files one pass of the loop writes for `fmt`: one file, or none for a name outside the four. */
  function FilesFor(fmt: string, baseName: string, docs: Documents): seq<OutputFile> {
    if fmt == "txt" then [OutputFile(baseName + ".txt", Text(docs.txt))]
    else if fmt == "json" then [OutputFile(baseName + ".json", JsonDump(docs.records))]
    else if fmt == "srt" then [OutputFile(baseName + ".srt", Text(docs.srt))]
    else if fmt == "vtt" then [OutputFile(baseName + ".vtt", Text(docs.vtt))]
    else []
  }

  /** The files written for a list of formats, in that order. */
  function Emitted(formats: seq<string>, baseName: string, docs: Documents): seq<OutputFile> {
    if formats == [] then [] else FilesFor(formats[0], baseName, docs) + Emitted(formats[1..], baseName, docs)
  }

  /** The output loop of `transcribe_audio`: one file per chosen format, each named after the input's stem. */
  method SaveOutputs(results: seq<Segment>, baseName: string, outputFormat: string, outputAll: bool)
    returns (files: seq<OutputFile>)
    ensures files == Emitted(FormatsToSave(outputAll, outputFormat), baseName, Render(results))
    ensures outputAll ==> files == [
      OutputFile(baseName + ".txt", Text(TxtDocument(results))),
      OutputFile(baseName + ".json", JsonDump(results)),
      OutputFile(baseName + ".srt", Text(SrtDocument(results))),
      OutputFile(baseName + ".vtt", Text(VttDocument(results)))]
    ensures !outputAll ==> |files| <= 1
    ensures !outputAll ==> (files == [] <==> outputFormat !in AllFormats)
    ensures !outputAll && files != [] ==> files[0].name == baseName + "." + outputFormat
    ensures forall i, j :: 0 <= i < j < |files| ==> files[i].name != files[j].name
  {
    var formats := FormatsToSave(outputAll, outputFormat);
    files := WriteFormats(formats, baseName, results);
    if outputAll {
      EmittedAll(baseName, Render(results));
    } else {
      EmittedOne(outputFormat, baseName, Render(results));
    }
  }

  /** `for fmt in formats_to_save`: the if/elif chain over the format name, once per listed format. */
  method WriteFormats(formats: seq<string>, baseName: string, results: seq<Segment>)
    returns (files: seq<OutputFile>)
    ensures files == Emitted(formats, baseName, Render(results))
  {
    ghost var docs := Render(results);
    files := [];
    for k := 0 to |formats|
      invariant files + Emitted(formats[k..], baseName, docs) == Emitted(formats, baseName, docs)
    {
      var fmt := formats[k];
      var written: seq<OutputFile> := [];
      if fmt == "txt" {
        var content := RenderTxt(results);
        written := [OutputFile(baseName + ".txt", Text(content))];
      } else if fmt == "json" {
        written := [OutputFile(baseName + ".json", JsonDump(results))];
      } else if fmt == "srt" {
        var content := RenderSrt(results);
        written := [OutputFile(baseName + ".srt", Text(content))];
      } else if fmt == "vtt" {
        var content := RenderVtt(results);
        written := [OutputFile(baseName + ".vtt", Text(content))];
      }
      assert written == FilesFor(fmt, baseName, docs);
      EmittedStep(formats, k, files, baseName, docs);
      files := files + written;
    }
    assert formats[|formats|..] == [];
  }

  /** One pass of the format loop: appending the files for `formats[k]` keeps the written list a prefix of the whole. */
  lemma EmittedStep(formats: seq<string>, k: nat, files: seq<OutputFile>, baseName: string, docs: Documents)
    requires k < |formats|
    requires files + Emitted(formats[k..], baseName, docs) == Emitted(formats, baseName, docs)
    ensures (files + FilesFor(formats[k], baseName, docs)) + Emitted(formats[k + 1..], baseName, docs)
            == Emitted(formats, baseName, docs)
  {
    assert formats[k..][1..] == formats[k + 1..];
  }

  /** With `--all`, the four files in order txt, json, srt, vtt, under four different names. */
  lemma EmittedAll(baseName: string, docs: Documents)
    ensures var files := Emitted(AllFormats, baseName, docs);
      && files == [
        OutputFile(baseName + ".txt", Text(docs.txt)),
        OutputFile(baseName + ".json", JsonDump(docs.records)),
        OutputFile(baseName + ".srt", Text(docs.srt)),
        OutputFile(baseName + ".vtt", Text(docs.vtt))]
      && forall i, j :: 0 <= i < j < |files| ==> files[i].name != files[j].name
  {
    var txt := OutputFile(baseName + ".txt", Text(docs.txt));
    var json := OutputFile(baseName + ".json", JsonDump(docs.records));
    var srt := OutputFile(baseName + ".srt", Text(docs.srt));
    var vtt := OutputFile(baseName + ".vtt", Text(docs.vtt));
    EmittedCons("vtt", [], baseName, docs);
    EmittedCons("srt", ["vtt"], baseName, docs);
    EmittedCons("json", ["srt", "vtt"], baseName, docs);
    EmittedCons("txt", ["json", "srt", "vtt"], baseName, docs);
    assert Emitted([], baseName, docs) == [];
    assert Emitted(AllFormats, baseName, docs) == [txt, json, srt, vtt];
    ExtensionsDiffer(baseName);
    var files := [txt, json, srt, vtt];
    var names := [baseName + ".txt", baseName + ".json", baseName + ".srt", baseName + ".vtt"];
    assert forall i :: 0 <= i < 4 ==> files[i].name == names[i];
  }

  lemma EmittedCons(fmt: string, rest: seq<string>, baseName: string, docs: Documents)
    ensures Emitted([fmt] + rest, baseName, docs) == FilesFor(fmt, baseName, docs) + Emitted(rest, baseName, docs)
  {
    assert ([fmt] + rest)[1..] == rest;
  }

  /** Without `--all`, the one requested format is written, or nothing for a name outside the four. */
  lemma EmittedOne(outputFormat: string, baseName: string, docs: Documents)
    ensures var files := Emitted([outputFormat], baseName, docs);
      && |files| <= 1
      && (files == [] <==> outputFormat !in AllFormats)
      && (files != [] ==> files[0].name == baseName + "." + outputFormat)
  {
    assert [outputFormat][1..] == [];
  }

  /** The four file names of one run are pairwise different, so no output overwrites another. */
  lemma ExtensionsDiffer(baseName: string)
    ensures var names := [baseName + ".txt", baseName + ".json", baseName + ".srt", baseName + ".vtt"];
      forall i, j :: 0 <= i < j < 4 ==> names[i] != names[j]
  {
    var names := [baseName + ".txt", baseName + ".json", baseName + ".srt", baseName + ".vtt"];
    assert names[0][|baseName| + 1] == 't';
    assert names[1][|baseName| + 1] == 'j';
    assert names[2][|baseName| + 1] == 's';
    assert names[3][|baseName| + 1] == 'v';
  }

}
