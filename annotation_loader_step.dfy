/**
 * The connection settings and the step configuration of the annotation-load step: the
 * read preference is parsed from its name, an empty authentication database selects the
 * name-only connection, and the step reads in chunks of 10, skipping up to 50 flat-file
 * parse errors.
 */
module AnnotationLoad {
  import opened Wrappers
  import opened Exceptions

  datatype ReadPreference = Primary | Secondary

  /** The name each read preference is written as in the job parameters. */
  function ReadPreferenceName(rp: ReadPreference): string
  {
    match rp
    case Primary => "primary"
    case Secondary => "secondary"
  }

  /** `getMongoTemplateReadPreferences`: a switch on the name; a null name throws. */
  function ParseReadPreference(name: Option<string>): (r: Result<ReadPreference, Error>)
    ensures r.Ok? <==> name.Some? && name.value in {"primary", "secondary"}
    ensures r.Ok? ==> ReadPreferenceName(r.value) == name.value
    ensures name.None? ==> r == Err(NullPointer)
    ensures name.Some? && r.Err? ==> r.error.IllegalArgument? && name.value <= r.error.message
  {
    match name
    case None => Err(NullPointer)
    case Some(s) =>
      if s == "primary" then Ok(Primary)
      else if s == "secondary" then Ok(Secondary)
      else Err(IllegalArgument(s + " is not a valid ReadPreference type, please use \"primary\" or \"secondary\""))
  }

  /** Every read preference is recovered from its own name, and only from it. */
  lemma ReadPreferenceRoundTrip(rp: ReadPreference, name: string)
    ensures ParseReadPreference(Some(ReadPreferenceName(rp))) == Ok(rp)
    ensures ParseReadPreference(Some(name)) == Ok(rp) <==> name == ReadPreferenceName(rp)
  {
  }

  /** The connection the helper is asked for; the helper itself is not part of this model. */
  datatype Connection =
    | NameOnly(dbName: Option<string>)
    | Credentialed(dbName: Option<string>, hosts: Option<string>, authenticationDb: string,
                   user: Option<string>, password: string)

  /**
   * The authentication branch of `getMongoTemplate`: an empty authentication database picks the
   * name-only connection; otherwise the credentialed one, for which the password must not be null.
   */
  function ChooseConnection(hosts: Option<string>, dbName: Option<string>, authenticationDb: Option<string>,
                            user: Option<string>, password: Option<string>): (r: Result<Connection, Error>)
    ensures authenticationDb.None? ==> r == Err(NullPointer)
    ensures authenticationDb == Some("") ==> r == Ok(NameOnly(dbName))
    ensures authenticationDb.Some? && authenticationDb.value != "" ==>
              if password.None? then r == Err(NullPointer)
              else r == Ok(Credentialed(dbName, hosts, authenticationDb.value, user, password.value))
  {
    match authenticationDb
    case None => Err(NullPointer)
    case Some(auth) =>
      if auth == "" then Ok(NameOnly(dbName))
      else if password.None? then Err(NullPointer)
      else Ok(Credentialed(dbName, hosts, auth, user, password.value))
  }

  /** The settings `getMongoTemplate` leaves on the template it returns, or what it throws. */
  function TemplateSettings(hosts: Option<string>, dbName: Option<string>, authenticationDb: Option<string>,
                            user: Option<string>, password: Option<string>, readPreference: Option<string>,
                            unknownHost: Connection -> bool): Result<(Connection, ReadPreference), Error>
  {
    match ChooseConnection(hosts, dbName, authenticationDb, user, password)
    case Err(e) => Err(e)
    case Ok(c) =>
      if unknownHost(c) then Err(UnknownHost)
      else
        match ParseReadPreference(readPreference)
        case Err(e) => Err(e)
        case Ok(rp) => Ok((c, rp))
  }

  /** With an empty authentication database, hosts, user and password play no part. */
  lemma NameOnlyIgnoresCredentials(hosts: Option<string>, hosts': Option<string>, dbName: Option<string>,
                                   user: Option<string>, user': Option<string>,
                                   password: Option<string>, password': Option<string>,
                                   readPreference: Option<string>, unknownHost: Connection -> bool)
    ensures TemplateSettings(hosts, dbName, Some(""), user, password, readPreference, unknownHost)
         == TemplateSettings(hosts', dbName, Some(""), user', password', readPreference, unknownHost)
    ensures !unknownHost(NameOnly(dbName)) && ParseReadPreference(readPreference).Ok? ==>
              TemplateSettings(hosts, dbName, Some(""), user, password, readPreference, unknownHost)
              == Ok((NameOnly(dbName), ParseReadPreference(readPreference).value))
  {
  }

  /** A template is only ever returned with a valid read preference, whichever branch was taken. */
  lemma InvalidReadPreferenceAlwaysFails(hosts: Option<string>, dbName: Option<string>,
                                         authenticationDb: Option<string>, user: Option<string>,
                                         password: Option<string>, readPreference: Option<string>,
                                         unknownHost: Connection -> bool)
    requires ParseReadPreference(readPreference).Err?
    ensures TemplateSettings(hosts, dbName, authenticationDb, user, password, readPreference, unknownHost).Err?
  {
  }

  /** The template handed back by the connection helper, whose read preference is then set. */
  class MongoTemplate {
    const connection: Connection
    var readPreference: Option<ReadPreference>

    constructor (connection: Connection)
      ensures this.connection == connection && readPreference.None?
    {
      this.connection := connection;
      readPreference := None;
    }

    method SetReadPreference(rp: ReadPreference)
      modifies this
      ensures readPreference == Some(rp)
    {
      readPreference := Some(rp);
    }
  }

  /** `getMongoTemplate`: builds a template for the chosen connection, then sets its read preference. */
  method GetMongoTemplate(hosts: Option<string>, dbName: Option<string>, authenticationDb: Option<string>,
                          user: Option<string>, password: Option<string>, readPreference: Option<string>,
                          unknownHost: Connection -> bool)
    returns (r: Result<MongoTemplate, Error>)
    ensures var s := TemplateSettings(hosts, dbName, authenticationDb, user, password, readPreference, unknownHost);
      (r.Ok? <==> s.Ok?) &&
      (r.Ok? ==> fresh(r.value) && r.value.connection == s.value.0 && r.value.readPreference == Some(s.value.1)) &&
      (r.Err? ==> r.error == s.error)
  {
    var connection := ChooseConnection(hosts, dbName, authenticationDb, user, password);
    if connection.Err? {
      return Err(connection.error);
    }
    if unknownHost(connection.value) {
      return Err(UnknownHost);
    }
    var template := new MongoTemplate(connection.value);
    var rp := ParseReadPreference(readPreference);
    if rp.Err? {
      return Err(rp.error);
    }
    template.SetReadPreference(rp.value);
    r := Ok(template);
  }

  const TemplateFailureMessage := "Unable to initialize mongo template"

  /**
   * `getMongoOperationsFromPipelineOptions`: an unknown host is rethrown wrapped in a runtime
   * exception; every other outcome passes through unchanged.
   */
  method GetMongoOperations(dbName: Option<string>, hosts: Option<string>, authenticationDb: Option<string>,
                            user: Option<string>, password: Option<string>, readPreference: Option<string>,
                            unknownHost: Connection -> bool)
    returns (r: Result<MongoTemplate, Error>)
    ensures var s := TemplateSettings(hosts, dbName, authenticationDb, user, password, readPreference, unknownHost);
      (r.Ok? <==> s.Ok?) &&
      (r.Ok? ==> fresh(r.value) && r.value.connection == s.value.0 && r.value.readPreference == Some(s.value.1)) &&
      (s == Err(UnknownHost) ==> r == Err(Runtime(TemplateFailureMessage, UnknownHost))) &&
      (s.Err? && s.error != UnknownHost ==> r == Err(s.error))
  {
    r := GetMongoTemplate(hosts, dbName, authenticationDb, user, password, readPreference, unknownHost);
    if r == Err(UnknownHost) {
      r := Err(Runtime(TemplateFailureMessage, UnknownHost));
    }
  }

  /** The failures a chunk step can meet while reading. */
  datatype Fault = FlatFileParse | OtherFault(className: string)

  /** A chunk-oriented step as the step builder configures it; the engine that runs it is not modelled. */
  datatype ChunkStep = ChunkStep(name: string, input: string, chunkSize: nat, skipLimit: nat, skippable: set<Fault>)

  const LoadVepAnnotation := "Load VEP annotation"

  /** `annotationLoadBatchStep`, reading the VEP output file named by the pipeline options. */
  function AnnotationLoadBatchStep(vepOutput: string): (step: ChunkStep)
    ensures step.name == LoadVepAnnotation && step.input == vepOutput
    ensures step.chunkSize == 10 && step.skipLimit == 50
    ensures forall f :: f in step.skippable <==> f == FlatFileParse
  {
    ChunkStep(LoadVepAnnotation, vepOutput, 10, 50, {FlatFileParse})
  }
}
