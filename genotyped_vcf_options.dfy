/**
 * `GenotypedVcfGenericJobOptions`: a read-only holder of seven job parameters.  A field
 * keeps its initial value when its parameter is absent, so the aggregation mode starts as
 * "NONE" and every other field as null.  The two path getters parse on every call.
 */
module GenotypedVcfOptions {
  import opened Wrappers
  import opened Exceptions
  import opened Paths
  import opened JobParameters
  import NormalizerValidation

  const DefaultAggregation := "NONE"

  datatype GenotypedVcfGenericJobOptions = GenotypedVcfGenericJobOptions(
    inputFilePath: Option<string>,
    fileId: Option<string>,
    aggregated: string,
    studyType: Option<string>,
    studyName: Option<string>,
    studyId: Option<string>,
    outputDirectory: Option<string>)
  {
    /** `getFilePath`: `Paths.get` of the input VCF string; null throws. */
    function FilePath(): (r: Result<Path, Error>)
      ensures inputFilePath.None? ==> r == Err(NullPointer)
      ensures inputFilePath.Some? ==> r == Parse(inputFilePath.value)
    {
      match inputFilePath
      case None => Err(NullPointer)
      case Some(s) => Parse(s)
    }

    /** `getOutputDirectory`: `Paths.get` of the output directory string; null throws. */
    function OutputDirectory(): (r: Result<Path, Error>)
      ensures outputDirectory.None? ==> r == Err(NullPointer)
      ensures outputDirectory.Some? ==> r == Parse(outputDirectory.value)
    {
      match outputDirectory
      case None => Err(NullPointer)
      case Some(s) => Parse(s)
    }
  }

  /** The holder as injection leaves it: each present parameter overwrites its field's initial value. */
  function Inject(params: JobParams): (o: GenotypedVcfGenericJobOptions)
    ensures o.aggregated == (if InputVcfAggregation in params then params[InputVcfAggregation] else DefaultAggregation)
    ensures o.inputFilePath == Get(params, InputVcf) && o.fileId == Get(params, InputVcfId)
    ensures o.studyType == Get(params, InputStudyType) && o.studyName == Get(params, InputStudyName)
    ensures o.studyId == Get(params, InputStudyId) && o.outputDirectory == Get(params, OutputDir)
  {
    GenotypedVcfGenericJobOptions(
      Get(params, InputVcf),
      Get(params, InputVcfId),
      if InputVcfAggregation in params then params[InputVcfAggregation] else DefaultAggregation,
      Get(params, InputStudyType),
      Get(params, InputStudyName),
      Get(params, InputStudyId),
      Get(params, OutputDir))
  }

  /** Without an aggregation parameter the mode is "NONE". */
  lemma AggregationDefaultsToNone(params: JobParams)
    requires InputVcfAggregation !in params
    ensures Inject(params).aggregated == "NONE"
  {
  }

  /** A well-formed path handed in as `input.vcf` comes back unchanged from `getFilePath`. */
  lemma FilePathRoundTrip(params: JobParams, p: Path)
    requires WellFormed(p)
    ensures Inject(params[InputVcf := Render(p)]).FilePath() == Ok(p)
    ensures Inject(params[OutputDir := Render(p)]).OutputDirectory() == Ok(p)
  {
    ParseRender(p);
  }

  /**
   * Parameters the normalizer validator accepted give a holder whose input path parses to
   * a readable file and whose file id is non-empty, so the normalizer step's getters cannot throw there.
   */
  lemma ValidatedParametersAreUsable(fs: FileSystem, params: JobParams)
    requires NormalizerValidation.Validate(fs, params).Pass?
    ensures Inject(params).FilePath().Ok? && IsReadable(fs, Inject(params).FilePath().value)
    ensures Inject(params).OutputDirectory().Ok? <==> Nul !in params[OutputDir]
    ensures Inject(params).fileId.Some? && Inject(params).fileId.value != []
    ensures Inject(params).aggregated == params[InputVcfAggregation]
  {
  }
}
