/**
 * `OpencgaJobOptions`: resolves the database connection settings by precedence (an explicit
 * job parameter, else the storage properties file, else "" for the optional ones), insists on a
 * host and a database name, and then fills the options map handed to the storage manager.
 */
module OpencgaOptions {
  import opened Wrappers
  import opened Exceptions
  import opened Paths
  import opened JobParameters

  const DefaultAppHome := "/opt/opencga"
  const PropertiesFileName := "storage-mongodb.properties"
  const ConfDirectory := "conf"

  const HostsProperty := "OPENCGA.STORAGE.MONGODB.VARIANT.DB.HOSTS"
  const AuthenticationDbProperty := "OPENCGA.STORAGE.MONGODB.VARIANT.DB.AUTHENTICATION.DB"
  const UserProperty := "OPENCGA.STORAGE.MONGODB.VARIANT.DB.USER"
  const PasswordProperty := "OPENCGA.STORAGE.MONGODB.VARIANT.DB.PASS"
  const NameProperty := "OPENCGA.STORAGE.MONGODB.VARIANT.DB.NAME"

  const MissingHostMessage := "Please provide a database hostname"
  const MissingNameMessage := "Please provide a database name"

  /** The contents of a properties file. */
  type Properties = map<string, string>

  /** The properties files that can be opened, by path. */
  type PropertyFiles = map<string, Properties>

  /** The compiled-in constants of `JobOptions`, which is not part of this model. */
  datatype JobDefaults = JobDefaults(aggregation: string, studyType: string,
                                     includeSourceLine: bool, compressExtension: string, annotate: bool)

  /** A Java enum: its canonical class name and the names of its constants. */
  datatype EnumType = EnumType(className: string, constants: set<string>)

  /** The two enums of the variant-source record, which live outside this model. */
  datatype SourceEnums = SourceEnums(studyType: EnumType, aggregation: EnumType)

  /** `Enum.valueOf`: the constant with exactly that name, or an IllegalArgumentException. */
  function ValueOf(e: EnumType, name: string): (r: Result<string, Error>)
    ensures r.Ok? <==> name in e.constants
    ensures r.Ok? ==> r.value == name
    ensures r.Err? ==> r.error.IllegalArgument? && |name| <= |r.error.message|
                       && r.error.message[|r.error.message| - |name|..] == name
  {
    if name in e.constants then Ok(name)
    else Err(IllegalArgument("No enum constant " + e.className + "." + name))
  }

  /** The record describing the input file, as the storage manager receives it. */
  datatype VariantSource = VariantSource(fileName: string, fileId: Option<string>, studyId: Option<string>,
                                         studyName: Option<string>, studyType: string, aggregation: string)

  /** The keys of the options map; their string values are defined by the storage manager. */
  datatype OptionKey =
    | VariantSourceKey | OverwriteStatsKey | IncludeSrcKey | CompressExtensionKey | AnnotateKey
    | DbNameKey | MongoDbNameKey | MongoHostsKey | MongoAuthenticationDbKey | MongoUserKey | MongoPasswordKey

  datatype OptionValue = Null | Text(text: string) | Flag(flag: bool) | Source(source: VariantSource)

  /** A string setting as stored in the options map. */
  function Entry(s: Option<string>): OptionValue
  {
    match s
    case None => Null
    case Some(v) => Text(v)
  }

  /** The five connection settings; null is `None`. */
  datatype DbSettings = DbSettings(hosts: Option<string>, authenticationDb: Option<string>,
                                   user: Option<string>, password: Option<string>, name: Option<string>)

  /** The properties file relative to the home: `conf/storage-mongodb.properties`. */
  function ConfFile(): string
  {
    ConfDirectory + [Separator] + PropertiesFileName
  }

  /**
   * `Config.getOpenCGAHome() + "/"` resolved against "conf/" and then the file name: the
   * properties file inside the `conf` directory of the home.
   */
  function PropertiesPath(home: string): (path: string)
    ensures Nul !in home ==>
              Parse(path).Ok? && (Parse(path).value.absolute <==> home == [] || home[0] == Separator)
              && Parse(path).value.names == Names(home) + [ConfDirectory, PropertiesFileName]
              && FileName(Parse(path).value) == Some(PropertiesFileName)
  {
    ConfFileNames(home);
    home + [Separator] + ConfFile()
  }

  /** The name elements of the properties path are those of the home, then `conf` and the file. */
  lemma ConfFileNames(home: string)
    ensures Names(home + [Separator] + ConfFile()) == Names(home) + [ConfDirectory, PropertiesFileName]
    ensures Nul !in ConfFile()
  {
    NamesAround(home, ConfFile());
    ConfAndFileAreNames();
    NamesAround(ConfDirectory, PropertiesFileName);
    NamesOfName(ConfDirectory);
    NamesOfName(PropertiesFileName);
  }

  lemma ConfAndFileAreNames()
    ensures IsName(ConfDirectory) && IsName(PropertiesFileName)
  {
  }

  /** The application home chosen by the constructor from the field's current value and `OPENCGA_HOME`. */
  function AppHome(current: Option<string>, env: Option<string>): (home: string)
    ensures current.Some? && current.value != "" ==> home == current.value
    ensures (current.None? || current.value == "") ==> home == if env.Some? then env.value else DefaultAppHome
  {
    if current.None? || current.value == "" then
      (if env.Some? then env.value else DefaultAppHome)
    else current.value
  }

  /** One setting: a non-null explicit value wins, otherwise the property (which may be absent). */
  function Fallback(explicit: Option<string>, props: Properties, key: string): Option<string>
  {
    if explicit.Some? then explicit else Get(props, key)
  }

  /** One optional setting: as `Fallback`, with "" when the property is absent too. */
  function FallbackOrEmpty(explicit: Option<string>, props: Properties, key: string): Option<string>
  {
    if explicit.Some? then explicit else Some(GetProperty(props, key, ""))
  }

  /** `Properties.getProperty(key, default)`: the property's value, or the default when it is absent. */
  function GetProperty(props: Properties, key: string, default: string): (value: string)
    ensures key in props ==> value == props[key]
    ensures key !in props ==> value == default
    ensures Get(props, key).Some? ==> value == Get(props, key).value
  {
    if key in props then props[key] else default
  }

  /** The first phase of `loadDbConnectionOptions`: every null setting is replaced from the properties. */
  function WithFallbacks(explicit: DbSettings, props: Properties): (s: DbSettings)
    ensures s.authenticationDb.Some? && s.user.Some? && s.password.Some?
  {
    DbSettings(
      Fallback(explicit.hosts, props, HostsProperty),
      FallbackOrEmpty(explicit.authenticationDb, props, AuthenticationDbProperty),
      FallbackOrEmpty(explicit.user, props, UserProperty),
      FallbackOrEmpty(explicit.password, props, PasswordProperty),
      Fallback(explicit.name, props, NameProperty))
  }

  /** The second phase: the host, then the database name, must be non-null and non-empty. */
  function CheckMandatory(s: DbSettings): (r: Outcome<Error>)
    ensures r.Pass? <==> s.hosts.Some? && s.hosts.value != "" && s.name.Some? && s.name.value != ""
    ensures (s.hosts.None? || s.hosts.value == "") ==> r == Fail(IllegalArgument(MissingHostMessage))
    ensures s.hosts.Some? && s.hosts.value != "" && (s.name.None? || s.name.value == "") ==>
              r == Fail(IllegalArgument(MissingNameMessage))
  {
    if s.hosts.None? || s.hosts.value == "" then Fail(IllegalArgument(MissingHostMessage))
    else if s.name.None? || s.name.value == "" then Fail(IllegalArgument(MissingNameMessage))
    else Pass
  }

  /** The variant-source record of `loadOpencgaOptions`, with the exceptions its construction can throw. */
  function MakeSource(inputFilePath: Option<string>, fileId: Option<string>, studyId: Option<string>,
                      studyName: Option<string>, studyType: string, aggregated: string,
                      enums: SourceEnums): (r: Result<VariantSource, Error>)
    ensures r.Ok? ==> inputFilePath.Some? && Parse(inputFilePath.value).Ok?
                      && FileName(Parse(inputFilePath.value).value) == Some(r.value.fileName)
    ensures r.Ok? ==> r.value.studyType in enums.studyType.constants
                      && r.value.aggregation in enums.aggregation.constants
    ensures r.Ok? ==> r.value.fileId == fileId && r.value.studyId == studyId && r.value.studyName == studyName
    ensures r.Ok? <==> inputFilePath.Some? && Parse(inputFilePath.value).Ok?
                       && FileName(Parse(inputFilePath.value).value).Some?
                       && studyType in enums.studyType.constants && aggregated in enums.aggregation.constants
    ensures inputFilePath.None? ==> r == Err(NullPointer)
    ensures inputFilePath.Some? && Parse(inputFilePath.value).Err? ==> r == Err(Parse(inputFilePath.value).error)
    ensures (inputFilePath.Some? && Parse(inputFilePath.value).Ok? && FileName(Parse(inputFilePath.value).value).None?)
              ==> r == Err(NullPointer)
  {
    if inputFilePath.None? then Err(NullPointer)
    else match Parse(inputFilePath.value)
      case Err(e) => Err(e)
      case Ok(path) =>
        match FileName(path)
        case None => Err(NullPointer)
        case Some(fileName) =>
          match ValueOf(enums.studyType, studyType)
          case Err(e) => Err(e)
          case Ok(st) =>
            match ValueOf(enums.aggregation, aggregated)
            case Err(e) => Err(e)
            case Ok(agg) => Ok(VariantSource(fileName, fileId, studyId, studyName, st, agg))
  }

  /** The entries `loadOpencgaOptions` puts into the options map. */
  function OptionEntries(source: VariantSource, overwriteStats: bool, defaults: JobDefaults,
                         settings: DbSettings): map<OptionKey, OptionValue>
  {
    map[VariantSourceKey := Source(source),
        OverwriteStatsKey := Flag(overwriteStats),
        IncludeSrcKey := Flag(defaults.includeSourceLine),
        CompressExtensionKey := Text(defaults.compressExtension),
        AnnotateKey := Flag(defaults.annotate),
        DbNameKey := Entry(settings.name),
        MongoDbNameKey := Entry(settings.name),
        MongoHostsKey := Entry(settings.hosts),
        MongoAuthenticationDbKey := Entry(settings.authenticationDb),
        MongoUserKey := Entry(settings.user),
        MongoPasswordKey := Entry(settings.password)]
  }

  /** A nullable field after injection: a present parameter overwrites it, an absent one leaves it. */
  function Injected(params: JobParams, key: string, current: Option<string>): Option<string>
  {
    if key in params then Some(params[key]) else current
  }

  /** A field with a non-null initial value after injection. */
  function InjectedOr(params: JobParams, key: string, initial: string): string
  {
    if key in params then params[key] else initial
  }

  /** Explicit parameter over property file over the compiled-in "", for every setting. */
  lemma Precedence(explicit: DbSettings, props: Properties)
    ensures var s := WithFallbacks(explicit, props);
      (explicit.hosts.Some? ==> s.hosts == explicit.hosts) &&
      (explicit.hosts.None? ==> s.hosts == Get(props, HostsProperty)) &&
      (explicit.name.Some? ==> s.name == explicit.name) &&
      (explicit.name.None? ==> s.name == Get(props, NameProperty)) &&
      (explicit.authenticationDb.Some? ==> s.authenticationDb == explicit.authenticationDb) &&
      (explicit.authenticationDb.None? && AuthenticationDbProperty in props ==>
         s.authenticationDb == Some(props[AuthenticationDbProperty])) &&
      (explicit.authenticationDb.None? && AuthenticationDbProperty !in props ==> s.authenticationDb == Some("")) &&
      (explicit.user.Some? ==> s.user == explicit.user) &&
      (explicit.user.None? ==> s.user == Some(GetProperty(props, UserProperty, ""))) &&
      (explicit.password.Some? ==> s.password == explicit.password) &&
      (explicit.password.None? ==> s.password == Some(GetProperty(props, PasswordProperty, "")))
  {
  }

  /**
   * Only null falls back: an explicitly empty host (or, with a host, an explicitly empty name)
   * is kept and refused, whatever the properties file says.
   */
  lemma ExplicitEmptyIsRefused(explicit: DbSettings, props: Properties)
    ensures explicit.hosts == Some("") ==>
              CheckMandatory(WithFallbacks(explicit, props)) == Fail(IllegalArgument(MissingHostMessage))
    ensures explicit.hosts.Some? && explicit.hosts.value != "" && explicit.name == Some("") ==>
              CheckMandatory(WithFallbacks(explicit, props)) == Fail(IllegalArgument(MissingNameMessage))
  {
  }

  /** The host is checked first: with neither a host nor a name, the host is what is reported. */
  lemma HostReportedBeforeName(s: DbSettings)
    requires s.hosts.None? || s.hosts == Some("")
    ensures CheckMandatory(s) == Fail(IllegalArgument(MissingHostMessage))
  {
  }

  /** Without an explicit host and without the property, loading fails for want of a host. */
  lemma NoHostAnywhere(explicit: DbSettings, props: Properties)
    requires explicit.hosts.None? && HostsProperty !in props
    ensures CheckMandatory(WithFallbacks(explicit, props)) == Fail(IllegalArgument(MissingHostMessage))
  {
  }

  /**
   * After a successful resolution both database-name entries carry the resolved name, the
   * connection entries carry the resolved values, and none of the five is null.
   */
  lemma ResolvedEntries(source: VariantSource, overwriteStats: bool, defaults: JobDefaults,
                        explicit: DbSettings, props: Properties)
    requires CheckMandatory(WithFallbacks(explicit, props)).Pass?
    ensures var s := WithFallbacks(explicit, props);
      var m := OptionEntries(source, overwriteStats, defaults, s);
      m[DbNameKey] == m[MongoDbNameKey] == Text(s.name.value) && s.name.value != "" &&
      m[MongoHostsKey] == Text(s.hosts.value) && s.hosts.value != "" &&
      m[MongoAuthenticationDbKey] == Text(s.authenticationDb.value) &&
      m[MongoUserKey] == Text(s.user.value) &&
      m[MongoPasswordKey] == Text(s.password.value) &&
      m[VariantSourceKey] == Source(source) && m[OverwriteStatsKey] == Flag(overwriteStats)
  {
  }

  /**
   * The variant source is named after the last component of the input path: for `name`,
   * `dir/name`, and either with trailing separators, the name is `name`.
   */
  lemma SourceFileName(dir: Option<string>, name: string, trail: string, fileId: Option<string>,
                       studyId: Option<string>, studyName: Option<string>, studyType: string,
                       aggregated: string, enums: SourceEnums)
    requires dir.Some? ==> Nul !in dir.value
    requires IsName(name)
    requires forall i :: 0 <= i < |trail| ==> trail[i] == Separator
    requires studyType in enums.studyType.constants && aggregated in enums.aggregation.constants
    ensures MakeSource(Some(ChildPath(dir, name, trail)), fileId, studyId, studyName, studyType, aggregated, enums)
            == Ok(VariantSource(name, fileId, studyId, studyName, studyType, aggregated))
  {
    FileNameOfChild(dir, name, trail);
  }

  /** An unknown study type or aggregation mode is refused by the enum lookup, study type first. */
  lemma UnknownEnumRefused(path: string, fileId: Option<string>, studyId: Option<string>,
                           studyName: Option<string>, studyType: string, aggregated: string, enums: SourceEnums)
    requires Parse(path).Ok? && FileName(Parse(path).value).Some?
    ensures studyType !in enums.studyType.constants ==>
              MakeSource(Some(path), fileId, studyId, studyName, studyType, aggregated, enums)
              == Err(IllegalArgument("No enum constant " + enums.studyType.className + "." + studyType))
    ensures studyType in enums.studyType.constants && aggregated !in enums.aggregation.constants ==>
              MakeSource(Some(path), fileId, studyId, studyName, studyType, aggregated, enums)
              == Err(IllegalArgument("No enum constant " + enums.aggregation.className + "." + aggregated))
  {
  }

  /**
   * The root directory, however many separators spell it, has no file name, so a source
   * cannot be built for it.
   */
  lemma RootInputRefused(root: string, fileId: Option<string>, studyId: Option<string>, studyName: Option<string>,
                         studyType: string, aggregated: string, enums: SourceEnums)
    requires root != [] && forall i :: 0 <= i < |root| ==> root[i] == Separator
    ensures MakeSource(Some(root), fileId, studyId, studyName, studyType, aggregated, enums) == Err(NullPointer)
  {
    NamesOfSeparators(root);
    assert Nul !in root by {
      forall i | 0 <= i < |root| ensures root[i] != Nul { }
    }
  }

  /**
   * The empty input string is accepted: it is the empty path, whose file name is itself, so
   * the source is named "".
   */
  lemma EmptyInputAccepted(fileId: Option<string>, studyId: Option<string>, studyName: Option<string>,
                           studyType: string, aggregated: string, enums: SourceEnums)
    requires studyType in enums.studyType.constants && aggregated in enums.aggregation.constants
    ensures MakeSource(Some(""), fileId, studyId, studyName, studyType, aggregated, enums)
            == Ok(VariantSource("", fileId, studyId, studyName, studyType, aggregated))
  {
  }

  /**
   * Two option objects built from the same environment read the same properties file, even
   * when one of them receives an `app.opencga.path` job parameter: the parameter is injected
   * into the field only after the constructor has fixed the home.
   */
  method PropertiesPathIgnoresAppPath(params: JobParams, elsewhere: string, overwriteStats: Option<bool>,
                                      env: Option<string>, defaults: JobDefaults)
    returns (path: string, pathElsewhere: string)
    ensures path == pathElsewhere
    ensures path == PropertiesPath(if env.Some? then env.value else DefaultAppHome)
  {
    var plain := new OpencgaJobOptions(params, overwriteStats, env, defaults);
    var redirected := new OpencgaJobOptions(params[AppOpencgaPath := elsewhere], overwriteStats, env, defaults);
    assert redirected.opencgaAppHome == Some(elsewhere);
    path := PropertiesPath(plain.configHome);
    pathElsewhere := PropertiesPath(redirected.configHome);
  }

  class OpencgaJobOptions {
    var opencgaAppHome: Option<string>
    /** The home handed to the global `Config`, which the properties path is derived from. */
    var configHome: string
    var inputFilePath: Option<string>
    var fileId: Option<string>
    var aggregated: string
    var studyType: string
    var studyName: Option<string>
    var studyId: Option<string>
    var dbHosts: Option<string>
    var dbAuthenticationDb: Option<string>
    var dbUser: Option<string>
    var dbPassword: Option<string>
    var dbName: Option<string>
    var overwriteStats: bool
    var defaults: JobDefaults
    var options: map<OptionKey, OptionValue>

    function Settings(): DbSettings
      reads this
    {
      DbSettings(dbHosts, dbAuthenticationDb, dbUser, dbPassword, dbName)
    }

    /**
     * Field initialisers, then the constructor body, then injection of the job parameters.
     * Injection happens after the constructor, so the body always sees a null application
     * home, and a present parameter overwrites its field while an absent one keeps the
     * initial value. `overwriteStatsParameter` is `statistics.overwrite` already converted.
     */
    constructor (params: JobParams, overwriteStatsParameter: Option<bool>, env: Option<string>, defaults: JobDefaults)
      ensures configHome == AppHome(None, env)
      ensures opencgaAppHome == Injected(params, AppOpencgaPath, Some(configHome))
      ensures inputFilePath == Injected(params, InputVcf, None) && fileId == Injected(params, InputVcfId, None)
      ensures aggregated == InjectedOr(params, InputVcfAggregation, defaults.aggregation)
      ensures studyType == InjectedOr(params, InputStudyType, defaults.studyType)
      ensures studyName == Injected(params, InputStudyName, None) && studyId == Injected(params, InputStudyId, None)
      ensures Settings() == DbSettings(Injected(params, DbHosts, None), Injected(params, DbAuthenticationDb, None),
                                       Injected(params, DbUser, None), Injected(params, DbPassword, None),
                                       Injected(params, DbName, None))
      ensures overwriteStats == (overwriteStatsParameter == Some(true))
      ensures this.defaults == defaults && options == map[]
    {
      // The fields are injected only after this body has run, so it sees the field's
      // initial value: null.
      var initialAppHome: Option<string> := None;
      var home := AppHome(initialAppHome, env);
      configHome := home;
      this.defaults := defaults;
      options := map[];
      // injection: a present parameter overwrites the field's initial value
      opencgaAppHome := Injected(params, AppOpencgaPath, Some(home));
      inputFilePath := Injected(params, InputVcf, None);
      fileId := Injected(params, InputVcfId, None);
      aggregated := InjectedOr(params, InputVcfAggregation, defaults.aggregation);
      studyType := InjectedOr(params, InputStudyType, defaults.studyType);
      studyName := Injected(params, InputStudyName, None);
      studyId := Injected(params, InputStudyId, None);
      dbHosts := Injected(params, DbHosts, None);
      dbAuthenticationDb := Injected(params, DbAuthenticationDb, None);
      dbUser := Injected(params, DbUser, None);
      dbPassword := Injected(params, DbPassword, None);
      dbName := Injected(params, DbName, None);
      overwriteStats := if overwriteStatsParameter.Some? then overwriteStatsParameter.value else false;
    }

    /**
     * `loadDbConnectionOptions`: open the properties file under the configured home, replace
     * every null setting from it, then check the host and the database name.
     */
    method LoadDbConnectionOptions(files: PropertyFiles) returns (outcome: Outcome<Error>)
      modifies this`dbHosts, this`dbAuthenticationDb, this`dbUser, this`dbPassword, this`dbName
      ensures PropertiesPath(configHome) !in files ==>
                outcome == Fail(FileNotFound(PropertiesPath(configHome))) && Settings() == old(Settings())
      ensures PropertiesPath(configHome) in files ==>
                Settings() == WithFallbacks(old(Settings()), files[PropertiesPath(configHome)])
                && outcome == CheckMandatory(Settings())
    {
      var path := PropertiesPath(configHome);
      if path !in files {
        return Fail(FileNotFound(path));
      }
      var properties := files[path];
      if dbHosts.None? {
        dbHosts := Get(properties, HostsProperty);
      }
      if dbAuthenticationDb.None? {
        dbAuthenticationDb := Some(GetProperty(properties, AuthenticationDbProperty, ""));
      }
      if dbUser.None? {
        dbUser := Some(GetProperty(properties, UserProperty, ""));
      }
      if dbPassword.None? {
        dbPassword := Some(GetProperty(properties, PasswordProperty, ""));
      }
      if dbName.None? {
        dbName := Get(properties, NameProperty);
      }
      if dbHosts.None? || dbHosts.value == "" {
        return Fail(IllegalArgument(MissingHostMessage));
      }
      if dbName.None? || dbName.value == "" {
        return Fail(IllegalArgument(MissingNameMessage));
      }
      outcome := Pass;
    }

    /** `loadOpencgaOptions`: build the variant source, then put the eleven entries. */
    method LoadOpencgaOptions(enums: SourceEnums) returns (outcome: Outcome<Error>)
      modifies this`options
      ensures var source := MakeSource(inputFilePath, fileId, studyId, studyName, studyType, aggregated, enums);
        (source.Err? ==> outcome == Fail(source.error) && options == old(options)) &&
        (source.Ok? ==> (outcome == Pass &&
           options == old(options) + OptionEntries(source.value, overwriteStats, defaults, Settings())))
    {
      var source := MakeSource(inputFilePath, fileId, studyId, studyName, studyType, aggregated, enums);
      if source.Err? {
        return Fail(source.error);
      }
      var settings := Settings();
      var entries := OptionEntries(source.value, overwriteStats, defaults, settings);
      var m := options;
      m := m[VariantSourceKey := Source(source.value)];
      m := m[OverwriteStatsKey := Flag(overwriteStats)];
      m := m[IncludeSrcKey := Flag(defaults.includeSourceLine)];
      m := m[CompressExtensionKey := Text(defaults.compressExtension)];
      m := m[AnnotateKey := Flag(defaults.annotate)];
      m := m[DbNameKey := Entry(settings.name)];
      m := m[MongoDbNameKey := Entry(settings.name)];
      m := m[MongoHostsKey := Entry(settings.hosts)];
      m := m[MongoAuthenticationDbKey := Entry(settings.authenticationDb)];
      m := m[MongoUserKey := Entry(settings.user)];
      m := m[MongoPasswordKey := Entry(settings.password)];
      assert m == options + entries;
      options := m;
      outcome := Pass;
    }

    /** `loadArgs`: the connection settings are resolved first; if that fails the map is not touched. */
    method LoadArgs(files: PropertyFiles, enums: SourceEnums) returns (outcome: Outcome<Error>)
      modifies this`dbHosts, this`dbAuthenticationDb, this`dbUser, this`dbPassword, this`dbName, this`options
      ensures PropertiesPath(configHome) !in files ==>
                outcome == Fail(FileNotFound(PropertiesPath(configHome)))
                && Settings() == old(Settings()) && options == old(options)
      ensures PropertiesPath(configHome) in files ==>
                Settings() == WithFallbacks(old(Settings()), files[PropertiesPath(configHome)])
      ensures PropertiesPath(configHome) in files && CheckMandatory(Settings()).Fail? ==>
                outcome == CheckMandatory(Settings()) && options == old(options)
      ensures PropertiesPath(configHome) in files && CheckMandatory(Settings()).Pass? ==>
                var source := MakeSource(inputFilePath, fileId, studyId, studyName, studyType, aggregated, enums);
                (source.Err? ==> outcome == Fail(source.error) && options == old(options)) &&
                (source.Ok? ==> (outcome == Pass &&
                   options == old(options) + OptionEntries(source.value, overwriteStats, defaults, Settings())))
    {
      outcome := LoadDbConnectionOptions(files);
      if outcome.Fail? {
        return;
      }
      outcome := LoadOpencgaOptions(enums);
    }

    /** `getOptions`. */
    method GetOptions() returns (r: map<OptionKey, OptionValue>)
      ensures r == options
    {
      r := options;
    }
  }
}
