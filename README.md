# transcribe.py output model

A model of the output side of the home server's transcription script
`hosts/homeserver/transcribe.py`. The script runs faster-whisper over an audio
file and writes what it hears as plain text, JSON, SRT subtitles or WebVTT
subtitles. The model covers these parts of the script:

- the precision override applied before the Whisper model is loaded: half
  precision on a CUDA device becomes single precision;
- the loop that copies each transcribed segment into `results`, stripping
  the whitespace around its text;
- `format_timestamp`, which renders an offset as `HH:MM:SS,mmm` for SRT and
  `HH:MM:SS.mmm` for WebVTT;
- the three text writers, txt, srt and vtt, plus the json writer as the records
  it hands to `json.dump`;
- the choice of formats to write, `--all` or the single requested one, and
  the name of each output file.

Modules:

- `Options` holds the `Option` type.
- `Digits` covers decimal rendering, zero padding and reading digits back.
- `Strings` covers Python's `str.strip`, single-character `replace` and
  splitting text into lines.
- `Timestamps` covers `format_timestamp` and its inverse.
- `Segments` covers the segment record and the results loop.
- `Emission` covers the documents, their writer loops and the file choice.
- `Layout` describes the written files line by line.
- `ComputeType` covers the precision override.

A writer loop is a method that returns the string the file would receive.
Each one is proved equal to a recursive definition of the whole document. The
`Layout` lemmas then split that document at `'\n'` and state what every line
holds.

## Model

| member | source | states |
|---|---|---|
| ComputeType.EffectiveComputeType | hosts/homeserver/transcribe.py:47-50 | The compute type changes exactly when the device is "cuda" and the requested type is "float16", and then it becomes "float32". A CUDA device is never given "float16"; any other device, or any other type, keeps the requested value. |
| Segments.ResultOf | hosts/homeserver/transcribe.py:110-114 | A result record keeps the segment's start and end. Its text has no whitespace at either end and is no longer than the segment's text. |
| Segments.CollectResults | hosts/homeserver/transcribe.py:107-115 | There is one result per segment, in arrival order. Result i is segment i with its text stripped, so every result text is stripped. |
| Strings.TrimStart | hosts/homeserver/transcribe.py:113 | The result is a suffix of the input. Everything dropped is whitespace (Python's `isspace` set), and the result does not start with whitespace. |
| Strings.TrimEnd | hosts/homeserver/transcribe.py:113 | The result is a prefix of the input. Everything dropped is whitespace, and the result does not end with whitespace. |
| Strings.Strip | hosts/homeserver/transcribe.py:113 | `strip()` yields a string with no whitespace at either end, no longer than its input. |
| Strings.StripExact | hosts/homeserver/transcribe.py:113 | Whitespace, then a stripped core, then whitespace, strips to exactly that core. Nothing inside the text is touched. |
| Strings.StripIdempotent | hosts/homeserver/transcribe.py:113 | Stripping an already stripped text changes nothing. |
| Strings.ReplaceChar | hosts/homeserver/transcribe.py:196 | `.replace(".", ",")` keeps the length and turns every '.' into ',' and every other character into itself. |
| Timestamps.Minutes | hosts/homeserver/transcribe.py:192 | The minutes field is below 60. |
| Timestamps.WholeSeconds | hosts/homeserver/transcribe.py:193 | The whole-seconds field is below 60. |
| Timestamps.Millis | hosts/homeserver/transcribe.py:193 | The milliseconds field is below 1000. |
| Timestamps.Decompose | hosts/homeserver/transcribe.py:191-193 | Hours·3600000 + minutes·60000 + seconds·1000 + milliseconds gives back the offset. |
| Timestamps.TimestampFields | hosts/homeserver/transcribe.py:195-198 | A timestamp is the hours padded to two digits, ':', the minutes, ':', the seconds, the separator, then the milliseconds padded to three digits. The separator is ',' for "srt" and '.' otherwise. |
| Timestamps.FieldShapes | hosts/homeserver/transcribe.py:196 | Every field is digits only. Minutes and seconds fill exactly 2 characters and milliseconds exactly 3; hours take at least 2. |
| Timestamps.TimestampLayout | hosts/homeserver/transcribe.py:195-198 | A timestamp is at least 12 characters long. Its colons sit 10 and 7 places from the end and the separator 4 places from the end; every other character is a digit. Under 100 hours it is exactly 12 characters. |
| Timestamps.SrtIsVttWithComma | hosts/homeserver/transcribe.py:195-198 | The SRT form equals the WebVTT form except at the one decimal point, which becomes ','. The WebVTT form has exactly one '.' and no ','; the SRT form has no '.'. |
| Timestamps.ParseFormatted | hosts/homeserver/transcribe.py:189-198 | Reading a timestamp back in the style it was written in gives the original offset. |
| Timestamps.FormatInjective | hosts/homeserver/transcribe.py:189-198 | Two different offsets never render as the same timestamp. |
| Digits.ParseDecimal | hosts/homeserver/transcribe.py:150 | The decimal form of a number, such as an SRT cue number, reads back to that number. |
| Digits.ParseZeroPad | hosts/homeserver/transcribe.py:196 | A `:02d`-style zero-padded field reads back to the number it renders. |
| Digits.ZeroPadWidth | hosts/homeserver/transcribe.py:196 | A number below 10^width, padded to `width`, takes exactly `width` characters. |
| Digits.DecimalDigits | hosts/homeserver/transcribe.py:150 | `str(n)` consists of digits only, with no leading zero unless n is 0. |
| Emission.RenderTxt | hosts/homeserver/transcribe.py:133-135 | The txt loop writes exactly the txt document: each text followed by a newline. |
| Emission.RenderSrt | hosts/homeserver/transcribe.py:146-150 | The srt loop writes exactly the SRT document: blocks numbered from 1, each with a number, a timing line in SRT style, the text and a blank line. |
| Emission.RenderVtt | hosts/homeserver/transcribe.py:155-160 | The vtt loop writes exactly the WebVTT document: the header and a blank line, then unnumbered cues in WebVTT style. |
| Emission.WriteFormats | hosts/homeserver/transcribe.py:130-161 | The format loop writes, for each listed format in order, the file the if/elif chain picks. A format outside the four writes nothing. |
| Emission.SaveOutputs | hosts/homeserver/transcribe.py:128-161 | With `--all`, the files are base.txt, base.json, base.srt and base.vtt, in that order and with their documents. Otherwise at most one file, base + "." + format, is written, and none when the format is not one of the four. File names never repeat. |
| Emission.EmittedAll | hosts/homeserver/transcribe.py:128-161 | The four-format list yields the four files in order txt, json, srt, vtt, under pairwise different names. |
| Emission.EmittedOne | hosts/homeserver/transcribe.py:128-161 | A one-format list yields at most one file, named base + "." + format. It yields none exactly when the format is not txt, json, srt or vtt. |
| Emission.ExtensionsDiffer | hosts/homeserver/transcribe.py:132-154 | The four file names of one run differ pairwise, so no output overwrites another. |
| Layout.TxtLayout | hosts/homeserver/transcribe.py:134-135 | For single-line texts, splitting the txt file at newlines gives exactly the N result texts in order. |
| Layout.ParseTimingLine | hosts/homeserver/transcribe.py:148-150 | A `start --> end` line reads back to the segment's start and end offsets. |
| Layout.TimestampHasNoSpace | hosts/homeserver/transcribe.py:195-198 | A timestamp contains no space and no newline. |
| Layout.TimingsSingle | hosts/homeserver/transcribe.py:150 | Every timing line fits on one line. |
| Layout.SrtLayout | hosts/homeserver/transcribe.py:147-150 | For single-line texts, the SRT file's lines are N blocks of four. Block i holds the number i+1, result i's timing line, its text and an empty line. |
| Layout.VttLayout | hosts/homeserver/transcribe.py:156-160 | For single-line texts, the WebVTT file's lines are "WEBVTT", an empty line, then N groups of three. Group i holds result i's timing line, its text and an empty line, with no cue number. |
| Layout.SrtDocumentLines | hosts/homeserver/transcribe.py:147-150 | For single-line texts, splitting the SRT document at newlines gives the concatenated four-line groups. |
| Layout.VttDocumentLines | hosts/homeserver/transcribe.py:156-160 | For single-line timing lines and texts, splitting the WebVTT document at newlines gives the header lines followed by the three-line cue groups. |
| Strings.LinesOfUnlines | hosts/homeserver/transcribe.py:135 | Writing single-line strings, each followed by '\n', and splitting the result at '\n' gives back the same strings. |

## Left out

- Loading the Whisper model, including the retry with "float32" after a `ValueError` that mentions float16 (lines 52-73). This is a call into faster-whisper; only the override decided before the call is modelled.
- `model.transcribe` and its decoding parameters. The segments it yields are the input of `Segments.CollectResults`.
- All `print` logging, including the per-segment progress line.
- The float seconds of the source. Times are whole milliseconds, so the rounding of `{secs:06.3f}` is not modelled. For example, a fractional part that rounds up to `60.000` is not covered.
- JSON serialisation. The json file's body is the list of records `json.dump` receives.
- The output directory: `mkdir`, `Path(audio_path).parent` and `Path(...).stem`. A file name is modelled as the stem string plus its extension; opening and writing files is modelled by the string written.
- Speaker diarization and its `.rttm` file (lines 163-186). This is a call into pyannote and an optional network download.
- The command line parsing, which lies outside `transcribe_audio` and `format_timestamp`.
- Emission.FormatsToSave: has no contract of its own. What it selects is stated through `Emission.SaveOutputs`, `Emission.EmittedAll` and `Emission.EmittedOne`.
- Layout.TxtLayout, Layout.SrtLayout, Layout.VttLayout, Layout.SrtDocumentLines, Layout.VttDocumentLines: assume that no result text contains a newline. A text that does adds lines of its own, and the line-by-line layout does not hold for it.
