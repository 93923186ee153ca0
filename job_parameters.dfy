/**
 * Job parameters, the names the pipeline reads them by, and the presence check that every
 * parameter validator inherits from Spring Batch's `DefaultJobParametersValidator`.
 */
module JobParameters {
  import opened Wrappers
  import opened Exceptions

  /** The parameters of one run: a parameter is present exactly when its name is a key. */
  type JobParams = map<string, string>

  const InputVcf := "input.vcf"
  const InputVcfId := "input.vcf.id"
  const InputVcfAggregation := "input.vcf.aggregation"
  const InputStudyType := "input.study.type"
  const InputStudyName := "input.study.name"
  const InputStudyId := "input.study.id"
  const OutputDir := "output.dir"
  const AppOpencgaPath := "app.opencga.path"
  const DbHosts := "config.db.hosts"
  const DbAuthenticationDb := "config.db.authentication-db"
  const DbUser := "config.db.user"
  const DbPassword := "config.db.password"
  const DbName := "db.name"
  const DbReadPreference := "config.db.read-preference"

  /** `jobParameters['key']`: the value, or null when the parameter is absent. */
  function Get(params: JobParams, key: string): (r: Option<string>)
    ensures r.Some? <==> key in params
    ensures r.Some? ==> r.value == params[key]
  {
    if key in params then Some(params[key]) else None
  }

  /**
   * `DefaultJobParametersValidator.validate`: when optional keys are declared, every key
   * must be required or optional; then every required key must be present.
   */
  function ValidateKeys(required: set<string>, optional: set<string>, params: JobParams): (r: Outcome<Error>)
    ensures r.Pass? <==>
              (optional == {} || params.Keys <= required + optional) && required <= params.Keys
    ensures optional != {} && !(params.Keys <= required + optional) ==>
              r == Fail(UnexpectedKeys(params.Keys - (required + optional)))
    ensures (optional == {} || params.Keys <= required + optional) && !(required <= params.Keys) ==>
              r == Fail(MissingKeys(required - params.Keys))
    ensures r.Fail? ==> r.error.keys != {}
  {
    if optional != {} && !(params.Keys <= required + optional) then
      NotSubsetLeavesSome(params.Keys, required + optional);
      Fail(UnexpectedKeys(params.Keys - (required + optional)))
    else if !(required <= params.Keys) then
      NotSubsetLeavesSome(required, params.Keys);
      Fail(MissingKeys(required - params.Keys))
    else
      Pass
  }

  /** A set that is not contained in another keeps an element outside it. */
  lemma NotSubsetLeavesSome(a: set<string>, b: set<string>)
    requires !(a <= b)
    ensures a - b != {}
  {
    var x :| x in a && x !in b;
    assert x in a - b;
  }
}
