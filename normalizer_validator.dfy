/**
 * `VariantNormalizerStepParametersValidator`: the required-key check, then the input VCF
 * must parse as a path, exist and be readable, then the VCF id must be non-empty.  The
 * first failing check is the one reported; the parameters are only read.
 */
module NormalizerValidation {
  import opened Wrappers
  import opened Exceptions
  import opened Paths
  import opened JobParameters
  import GenotypedVcfValidation

  const RequiredKeys: set<string> :=
    {InputVcf, InputVcfId, InputVcfAggregation, InputStudyId, InputStudyName, InputStudyType, OutputDir}

  const OptionalKeys: set<string> := {}

  const NotExistsMessage := "The input VCF file does not exist"
  const NotReadableMessage := "The input VCF file is not readable"
  const EmptyIdMessage := "A unique file ID must be specified"

  /** `validateInputVcf`: the path parses, the file is not known to be missing, and it is readable. */
  function ValidateInputVcf(fs: FileSystem, filePath: string): (r: Outcome<Error>)
    ensures r.Pass? <==> Parse(filePath).Ok? && IsReadable(fs, Parse(filePath).value)
    ensures Parse(filePath).Err? ==> r == Fail(ParametersInvalid(Parse(filePath).error.message))
    ensures Parse(filePath).Ok? && NotExists(fs, Parse(filePath).value) ==>
              r == Fail(ParametersInvalid(NotExistsMessage))
    ensures Parse(filePath).Ok? && !NotExists(fs, Parse(filePath).value)
              && !IsReadable(fs, Parse(filePath).value) ==>
              r == Fail(ParametersInvalid(NotReadableMessage))
  {
    match Parse(filePath)
    case Err(e) => Fail(ParametersInvalid(e.message))
    case Ok(path) =>
      if NotExists(fs, path) then Fail(ParametersInvalid(NotExistsMessage))
      else if !IsReadable(fs, path) then Fail(ParametersInvalid(NotReadableMessage))
      else Pass
  }

  /** `validateInputVcfId`: rejected exactly when the identifier is the empty string. */
  function ValidateInputVcfId(id: string): (r: Outcome<Error>)
    ensures r.Pass? <==> |id| > 0
    ensures r.Fail? ==> r.error == ParametersInvalid(EmptyIdMessage)
  {
    if id == [] then Fail(ParametersInvalid(EmptyIdMessage)) else Pass
  }

  /** `validate`: the inherited key check, then the two domain checks, stopping at the first failure. */
  function Validate(fs: FileSystem, params: JobParams): (r: Outcome<Error>)
    ensures r.Pass? <==>
              RequiredKeys <= params.Keys
              && ValidateInputVcf(fs, params[InputVcf]).Pass?
              && params[InputVcfId] != []
    ensures !(RequiredKeys <= params.Keys) ==> r == Fail(MissingKeys(RequiredKeys - params.Keys))
    ensures RequiredKeys <= params.Keys && ValidateInputVcf(fs, params[InputVcf]).Fail? ==>
              r == ValidateInputVcf(fs, params[InputVcf])
    ensures RequiredKeys <= params.Keys && ValidateInputVcf(fs, params[InputVcf]).Pass? ==>
              r == ValidateInputVcfId(params[InputVcfId])
  {
    var keys := ValidateKeys(RequiredKeys, OptionalKeys, params);
    if keys.Fail? then keys
    else
      var vcf := ValidateInputVcf(fs, params[InputVcf]);
      if vcf.Fail? then vcf
      else ValidateInputVcfId(params[InputVcfId])
  }

  /** The identifiers `VariantNormalizerStepParametersValidatorTest` accepts and refuses. */
  lemma IdentifierExamples()
    ensures ValidateInputVcfId("id") == Pass
    ensures ValidateInputVcfId("id12345") == Pass
    ensures ValidateInputVcfId("id-12345") == Pass
    ensures ValidateInputVcfId("12345.id") == Pass
    ensures ValidateInputVcfId("") == Fail(ParametersInvalid(EmptyIdMessage))
  {
  }

  /** An existing readable file is accepted; a missing one or an unreadable one is refused. */
  lemma InputVcfExamples(fs: FileSystem, dir: string, name: string)
    requires Nul !in dir && IsName(name)
    ensures var p := Parse(dir + [Separator] + name);
      p.Ok? &&
      (fs(p.value) == Present(true) ==> ValidateInputVcf(fs, dir + [Separator] + name) == Pass) &&
      (fs(p.value) == Missing ==>
         ValidateInputVcf(fs, dir + [Separator] + name) == Fail(ParametersInvalid(NotExistsMessage))) &&
      (fs(p.value) == Present(false) ==>
         ValidateInputVcf(fs, dir + [Separator] + name) == Fail(ParametersInvalid(NotReadableMessage)))
  {
    FileNameOfChild(Some(dir), name, []);
    assert ChildPath(Some(dir), name, []) == dir + [Separator] + name;
  }

  /** A path containing NUL never reaches the file system: the parser's message is reported. */
  lemma UnparsablePathRefused(fs: FileSystem, dir: string, name: string)
    ensures ValidateInputVcf(fs, dir + [Nul] + name)
              == Fail(ParametersInvalid("Nul character not allowed: " + (dir + [Nul] + name)))
  {
    assert (dir + [Nul] + name)[|dir|] == Nul;
  }

  /** Whatever the file system holds, missing keys are reported before anything else. */
  lemma KeysCheckedFirst(fs: FileSystem, params: JobParams, key: string)
    requires key in RequiredKeys
    ensures Validate(fs, params - {key}) == Fail(MissingKeys(RequiredKeys - (params.Keys - {key})))
  {
  }

  /**
   * Whatever the normalizer accepts, the presence-only validator of the genotyped job accepts
   * too; accepted parameters also carry the aggregation mode and a non-empty id.
   */
  lemma StricterThanPresenceCheck(fs: FileSystem, params: JobParams)
    requires Validate(fs, params).Pass?
    ensures GenotypedVcfValidation.Validate(params).Pass?
    ensures RequiredKeys <= params.Keys
    ensures InputVcfAggregation in params
    ensures |params[InputVcfId]| > 0
  {
  }

  /**
   * The inclusion is strict: parameters without the aggregation mode, whatever the file
   * system holds, pass the genotyped validator and are refused by the normalizer's.
   */
  lemma {:induction false} StrictlyStricter(fs: FileSystem, params: JobParams)
    requires GenotypedVcfValidation.RequiredKeys <= params.Keys
    ensures GenotypedVcfValidation.Validate(params - {InputVcfAggregation}).Pass?
    ensures Validate(fs, params - {InputVcfAggregation}) == Fail(MissingKeys({InputVcfAggregation}))
  {
    var p := params - {InputVcfAggregation};
    assert InputVcfAggregation !in GenotypedVcfValidation.RequiredKeys;
    assert GenotypedVcfValidation.RequiredKeys <= p.Keys;
    assert RequiredKeys - p.Keys == {InputVcfAggregation};
  }
}
