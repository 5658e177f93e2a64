/** The two computations of `WhisperReader` (src/WhisperReader.ts): the shell
    command that runs the Whisper transcriber on an audio file, and the
    cleanup that drops everything Whisper prints before the transcript. */
module WhisperReader {
  import opened JsSemantics

  /** The reader's settings, each already rendered as the text that goes
      into the command line. */
  datatype WhisperReader = WhisperReader(
    model: string,
    temperature: nat,
    language: string,
    outputDirectory: string,
    outputFormat: string,
    task: string,
    device: string)

  /** The first timestamp Whisper prints, which opens the transcript. */
  const TRANSCRIPT_START := "[00:00.000"

  /** The eight parts of the command: the program with the file, then one
      `--option value` pair per setting. */
  function WhisperCommandParts(reader: WhisperReader, filePath: string): seq<string> {
    [ "whisper " + filePath,
      "--model " + reader.model,
      "--temperature " + NatToString(reader.temperature),
      "--language " + reader.language,
      "--output_dir " + reader.outputDirectory,
      "--output_format " + reader.outputFormat,
      "--task " + reader.task,
      "--device " + reader.device ]
  }

  /** The command `whisperExec` runs. */
  function WhisperCommand(reader: WhisperReader, filePath: string): string {
    Join(WhisperCommandParts(reader, filePath), " ")
  }

  /** The command starts with `whisper <filePath>`, ends with the device
      option, and is its eight parts with one space between each two. */
  lemma WhisperCommandShape(reader: WhisperReader, filePath: string)
    ensures var command, parts := WhisperCommand(reader, filePath), WhisperCommandParts(reader, filePath);
      && |parts| == 8
      && |command| >= 8 + |filePath|
      && command[..8 + |filePath|] == "whisper " + filePath
      && |command| == SumLengths(parts) + 7
      && command[|command| - 9 - |reader.device|..] == "--device " + reader.device
  {
    var parts := WhisperCommandParts(reader, filePath);
    JoinShape(parts, " ");
    var init := parts[..7];
    assert Join(parts, " ") == Join(init, " ") + " " + parts[7];
  }

  /** `cleanWhisperOutput`: the output from the first occurrence of the
      transcript's opening timestamp on. Without one, `indexOf` gives -1 and
      `slice(-1)` keeps just the last character. */
  function CleanWhisperOutput(output: string): (r: string)
    ensures |r| <= |output| && r == output[|output| - |r|..]
    ensures (exists j: nat :: OccursAt(output, TRANSCRIPT_START, j)) ==>
      OccursAt(r, TRANSCRIPT_START, 0) &&
      forall j: nat :: j < |output| - |r| ==> !OccursAt(output, TRANSCRIPT_START, j)
    ensures (forall j: nat :: !OccursAt(output, TRANSCRIPT_START, j)) ==>
      r == if output == [] then [] else [output[|output| - 1]]
  {
    var startOfTranscription := IndexOf(output, TRANSCRIPT_START);
    SliceFromIndexOf(output, TRANSCRIPT_START);
    SliceFrom(output, startOfTranscription)
  }

  /** Cleaning an already cleaned output changes nothing. */
  lemma CleanWhisperOutputIdempotent(output: string)
    ensures CleanWhisperOutput(CleanWhisperOutput(output)) == CleanWhisperOutput(output)
  {
    var r := CleanWhisperOutput(output);
    if exists j: nat :: OccursAt(output, TRANSCRIPT_START, j) {
      assert OccursAt(r, TRANSCRIPT_START, 0);
      assert IndexOf(r, TRANSCRIPT_START) == 0;
    } else {
      assert |r| <= 1;
      assert forall j: nat :: !OccursAt(r, TRANSCRIPT_START, j);
    }
  }
}
