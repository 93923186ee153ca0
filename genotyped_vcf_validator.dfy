/** `GenotypedVcfJobParametersValidator`: a presence-only check of six keys. */
module GenotypedVcfValidation {
  import opened Wrappers
  import opened Exceptions
  import opened JobParameters

  const RequiredKeys: set<string> :=
    {InputVcf, InputVcfId, InputStudyType, InputStudyName, InputStudyId, OutputDir}

  const OptionalKeys: set<string> := {}

  /** `validate` is inherited unchanged, so only key presence is checked. */
  function Validate(params: JobParams): (r: Outcome<Error>)
    ensures r.Pass? <==> RequiredKeys <= params.Keys
    ensures r.Fail? ==> r.error == MissingKeys(RequiredKeys - params.Keys) && r.error.keys != {}
  {
    ValidateKeys(RequiredKeys, OptionalKeys, params)
  }

  /** The aggregation mode is not required, and keys beyond the required ones are never refused. */
  lemma AggregationNotRequired(params: JobParams)
    requires RequiredKeys <= params.Keys
    ensures Validate(params - {InputVcfAggregation}) == Pass
    ensures forall extra: JobParams :: Validate(params + extra) == Pass
  {
    assert InputVcfAggregation !in RequiredKeys;
  }

  /**
   * Only presence is checked: an empty file id and a path to a file that does not exist
   * are accepted as long as the keys are there.
   */
  lemma ValuesAreNotInspected(params: JobParams, path: string)
    requires RequiredKeys <= params.Keys
    ensures Validate(params[InputVcfId := ""][InputVcf := path]) == Pass
  {
  }
}
