/**
 * The output-path derivation of `processVideoForFastStart`
 * (process_video_for_fast_start.go). The ffmpeg run itself is external:
 * its success or failure is an input.
 */
module FastStart {
  import opened Wrappers
  import opened FilePath

  const ProcessingSuffix := ".processing"

  datatype FastStartError = FfmpegFailed

  /** The input with its extension cut off, ".processing" appended and the extension put back. */
  function OutputPath(input: string): (out: string)
    ensures |out| == |input| + |ProcessingSuffix|
    ensures IsSuffix(Ext(input), out)
  {
    var ext := Ext(input);
    input[..|input| - |ext|] + ProcessingSuffix + ext
  }

  /** With an extension `e` on the final element, the output is `stem + ".processing" + e`. */
  lemma OutputPathWithExtension(stem: string, e: string)
    requires IsExtensionOf(e, stem + e)
    ensures OutputPath(stem + e) == stem + ProcessingSuffix + e
  {
    ExtUnique(stem + e, e);
    assert (stem + e)[..|stem|] == stem;
  }

  /** With no dot in the final element, the suffix is simply appended. */
  lemma OutputPathWithoutExtension(input: string)
    requires FinalElementHasNoDot(input)
    ensures OutputPath(input) == input + ProcessingSuffix
  {
    ExtUnique(input, []);
    assert input[..|input|] == input;
  }

  /**
   * The output is never the input, and everything up to and including each
   * separator of the input is kept: the file stays in its directory.
   */
  lemma OutputPathSameDirectory(input: string)
    ensures OutputPath(input) != input
    ensures forall j | 0 <= j < |input| && input[j] == Separator :: OutputPath(input)[..j + 1] == input[..j + 1]
  {
  }

  /** ".processing" is itself a well-formed extension. */
  lemma ProcessingSuffixIsExtension(p: string)
    ensures IsExtensionOf(ProcessingSuffix, p + ProcessingSuffix)
  {
    var q := p + ProcessingSuffix;
    assert q[|q| - |ProcessingSuffix|..] == ProcessingSuffix;
    assert ProcessingSuffix[1..] == "processing";
  }

  /** The output's own extension: the input's, or ".processing" when the input had none. */
  lemma OutputPathExt(input: string)
    ensures Ext(OutputPath(input)) == if Ext(input) == [] then ProcessingSuffix else Ext(input)
  {
    var ext := Ext(input);
    var out := OutputPath(input);
    if ext == [] {
      assert out == input + ProcessingSuffix;
      ProcessingSuffixIsExtension(input);
      ExtUnique(out, ProcessingSuffix);
    } else {
      assert IsExtensionOf(ext, out);
      ExtUnique(out, ext);
    }
  }

  /**
   * `processVideoForFastStart(inputPath)`: ffmpeg is asked to write the
   * derived output path; its failure is returned as an error with no path.
   */
  function ProcessVideoForFastStart(input: string, ffmpegSucceeds: (string, string) -> bool): (r: Result<string, FastStartError>)
    ensures r.Success? <==> ffmpegSucceeds(input, OutputPath(input))
    ensures r.Success? ==> r.value == OutputPath(input)
  {
    var output := OutputPath(input);
    if ffmpegSucceeds(input, output) then Success(output) else Failure(FfmpegFailed)
  }
}
