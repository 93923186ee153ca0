# eva-pipeline configuration and validation layer, in Dafny

This project models the part of the EVA variant pipeline that the repository itself
implements around its Spring Batch steps: how the storage options of a job are resolved,
how job parameters are validated before a step runs, how the annotation-load step picks
its MongoDB connection and read preference, and the `VariantAnnotation` record that
accumulates annotation data.

- `OpencgaOptions` (opencga_job_options.dfy): the class `OpencgaJobOptions`. Its
  constructor picks the OpenCGA home from `OPENCGA_HOME` or `/opt/opencga`, then takes
  the job parameters. `LoadArgs` opens `<home>/conf/storage-mongodb.properties`, fills
  every null connection setting from it (an explicit parameter wins; user, password and
  authentication database fall back to `""`), refuses a missing or empty host, then a
  missing or empty database name, and only then fills the options map with eleven entries:
  the variant source record, three flags (overwrite statistics, include source line,
  annotate), the compression extension, and six connection entries (hosts, authentication
  database, user, password, and the resolved database name under two keys).
- `NormalizerValidation` and `GenotypedVcfValidation`: the two parameter validators. Both
  check that their required keys are present. The normalizer's validator then checks that
  the input VCF path parses, exists and is readable, and that the file id is non-empty, in
  that order.
- `GenotypedVcfOptions`: the read-only options holder, with its "NONE" aggregation default
  and the two getters that parse paths.
- `AnnotationLoad`: read-preference parsing, the authentication branch of
  `getMongoTemplate`, the wrapping of an unknown-host error, and the constants of the
  annotation-load step (chunks of 10, skip limit 50, only flat-file parse errors skippable).
- `AnnotationModel`: the class `VariantAnnotation`. It has two versions that must contain
  text, and four sets that the add methods only grow, each method touching one set.
- Shared modules: `Wrappers` (Option/Result/Outcome), `Exceptions` (the Java exceptions
  as values), `JobParameters` (parameter names and the presence check that both validators
  inherit from Spring Batch's `DefaultJobParametersValidator`), and `Paths` (`Paths.get`
  and `getFileName` as the Unix file-system provider implements them under a UTF-8 path
  encoding, with a proved parse/render round trip; the file system itself is an oracle).

Modelling decisions that follow the code rather than a general description of it:

- Spring injects `@Value` fields after the Java constructor has run. So the constructor of
  `OpencgaJobOptions` always finds `opencgaAppHome` null. The home it hands to `Config`,
  which is where the properties file is read from, therefore depends only on
  `OPENCGA_HOME`. A job parameter `app.opencga.path` overwrites the field afterwards but
  has no effect on that path.
- Spring sets an injected field only when the value is non-null. An absent parameter
  therefore keeps the field's initial value: the aggregation and study-type defaults, and
  `overwriteStats = false`.
- Only null falls back to the properties file. An explicitly empty host or database name
  is kept and then refused.
- `GenotypedVcfJobParametersValidator` does not add domain checks. It accepts an empty file
  id or a missing file as long as the keys are present, and the model keeps it that way.
  The fuller checks live only in the normalizer's validator.

## Model

| member | source | states |
|---|---|---|
| `OpencgaOptions.OpencgaJobOptions.constructor` | src/main/java/uk/ac/ebi/eva/pipeline/configuration/OpencgaJobOptions.java:30-80 | the configured home is `OPENCGA_HOME` or `/opt/opencga`; each field holds its job parameter when present, otherwise its initial value (null, the defaults, `false`); the options map is empty |
| `OpencgaOptions.AppHome` | src/main/java/uk/ac/ebi/eva/pipeline/configuration/OpencgaJobOptions.java:75-77 | a non-empty current home is kept; a null or empty one is replaced by the environment value, else by `/opt/opencga` |
| `OpencgaOptions.PropertiesPathIgnoresAppPath` | src/main/java/uk/ac/ebi/eva/pipeline/configuration/OpencgaJobOptions.java:74-91 | two option objects built from the same environment read the same properties file even when one receives an `app.opencga.path` parameter, whatever the other job parameters say; that file is `storage-mongodb.properties` under `conf` of `OPENCGA_HOME`, or of `/opt/opencga` when it is unset |
| `OpencgaOptions.PropertiesPath` | src/main/java/uk/ac/ebi/eva/pipeline/configuration/OpencgaJobOptions.java:89 | for a NUL-free home the properties path parses to the home's name elements followed by `conf` and `storage-mongodb.properties`, whose file name is `storage-mongodb.properties` |
| `OpencgaOptions.OpencgaJobOptions.LoadDbConnectionOptions` | src/main/java/uk/ac/ebi/eva/pipeline/configuration/OpencgaJobOptions.java:88-115 | a missing properties file throws before any field changes; otherwise the five settings become their fallbacks and the outcome is the mandatory check on them |
| `OpencgaOptions.WithFallbacks` | src/main/java/uk/ac/ebi/eva/pipeline/configuration/OpencgaJobOptions.java:93-107 | after the fallbacks the authentication database, user and password are never null |
| `OpencgaOptions.GetProperty` | src/main/java/uk/ac/ebi/eva/pipeline/configuration/OpencgaJobOptions.java:97-103 | `getProperty(key, default)` is the property's value when present and the default otherwise |
| `OpencgaOptions.Precedence` | src/main/java/uk/ac/ebi/eva/pipeline/configuration/OpencgaJobOptions.java:93-107 | for every setting a non-null explicit value wins, else the property; the three optional settings end at `""` when the property is absent too |
| `OpencgaOptions.CheckMandatory` | src/main/java/uk/ac/ebi/eva/pipeline/configuration/OpencgaJobOptions.java:109-114 | passes exactly when host and database name are both non-null and non-empty; a null or empty host fails with "Please provide a database hostname"; with a host, a null or empty name fails with "Please provide a database name" |
| `OpencgaOptions.HostReportedBeforeName` | src/main/java/uk/ac/ebi/eva/pipeline/configuration/OpencgaJobOptions.java:109-111 | a null or empty host is reported as "Please provide a database hostname", whatever the name |
| `OpencgaOptions.NoHostAnywhere` | src/main/java/uk/ac/ebi/eva/pipeline/configuration/OpencgaJobOptions.java:93-95 | with no host parameter and no host property, loading fails for want of a host |
| `OpencgaOptions.ExplicitEmptyIsRefused` | src/main/java/uk/ac/ebi/eva/pipeline/configuration/OpencgaJobOptions.java:93-114 | an explicitly empty host, or with a host an explicitly empty name, is not replaced from the properties and is refused |
| `OpencgaOptions.ValueOf` | src/main/java/uk/ac/ebi/eva/pipeline/configuration/OpencgaJobOptions.java:123-124 | an enum lookup succeeds exactly for a constant's name and otherwise throws IllegalArgumentException naming the value |
| `OpencgaOptions.MakeSource` | src/main/java/uk/ac/ebi/eva/pipeline/configuration/OpencgaJobOptions.java:118-124 | a source is built exactly when the input is non-null, parses, has a file name and both enum names are constants; a null input or a root throws NullPointerException and an unparsable path the parser's error; a built source is named by the path's file name, carries the enum names and the id/study fields unchanged |
| `OpencgaOptions.SourceFileName` | src/main/java/uk/ac/ebi/eva/pipeline/configuration/OpencgaJobOptions.java:118-119 | for an input `name`, `dir/name`, or either followed by trailing separators, with known enum names, the source is built and named `name` |
| `OpencgaOptions.UnknownEnumRefused` | src/main/java/uk/ac/ebi/eva/pipeline/configuration/OpencgaJobOptions.java:123-124 | an unknown study type is refused first, then an unknown aggregation mode |
| `OpencgaOptions.RootInputRefused` | src/main/java/uk/ac/ebi/eva/pipeline/configuration/OpencgaJobOptions.java:119 | the root directory, spelled with one or more separators, has no file name, so building the source throws NullPointerException |
| `OpencgaOptions.EmptyInputAccepted` | src/main/java/uk/ac/ebi/eva/pipeline/configuration/OpencgaJobOptions.java:118-124 | an empty `input.vcf` is the empty path, whose file name is itself, so a source named `""` is built |
| `OpencgaOptions.OpencgaJobOptions.LoadOpencgaOptions` | src/main/java/uk/ac/ebi/eva/pipeline/configuration/OpencgaJobOptions.java:117-141 | a source that cannot be built leaves the map untouched; otherwise the map gains exactly the eleven entries |
| `OpencgaOptions.ResolvedEntries` | src/main/java/uk/ac/ebi/eva/pipeline/configuration/OpencgaJobOptions.java:126-137 | after a successful resolution both database-name entries equal the resolved name and the connection entries equal the resolved, non-null values |
| `OpencgaOptions.OpencgaJobOptions.LoadArgs` | src/main/java/uk/ac/ebi/eva/pipeline/configuration/OpencgaJobOptions.java:82-86 | connection settings are resolved first; on any failure there the options map is unchanged, otherwise it is filled as above |
| `OpencgaOptions.OpencgaJobOptions.GetOptions` | src/main/java/uk/ac/ebi/eva/pipeline/configuration/OpencgaJobOptions.java:143-145 | returns the current options map |
| `JobParameters.ValidateKeys` | src/main/java/uk/ac/ebi/eva/pipeline/configuration/validation/VariantNormalizerStepParametersValidator.java:47-48 | the inherited check passes exactly when no key is unexpected (if optional keys are declared) and every required key is present, and names the offending keys otherwise |
| `GenotypedVcfValidation.Validate` | src/main/java/uk/ac/ebi/eva/pipeline/configuration/GenotypedVcfJobParametersValidator.java:7-15 | accepts exactly the parameters holding the six required keys; otherwise reports the non-empty set of missing ones |
| `GenotypedVcfValidation.AggregationNotRequired` | src/main/java/uk/ac/ebi/eva/pipeline/configuration/GenotypedVcfJobParametersValidator.java:8-14 | the aggregation key is not required, and no extra key is ever refused |
| `GenotypedVcfValidation.ValuesAreNotInspected` | src/main/java/uk/ac/ebi/eva/pipeline/configuration/GenotypedVcfJobParametersValidator.java:5-17 | an empty file id and any path are accepted once the keys are present |
| `NormalizerValidation.ValidateInputVcf` | src/main/java/uk/ac/ebi/eva/pipeline/configuration/validation/VariantNormalizerStepParametersValidator.java:61-76 | passes exactly for a parsable path to a readable file; otherwise reports the parser's message, then "does not exist", then "is not readable" |
| `NormalizerValidation.ValidateInputVcfId` | src/main/java/uk/ac/ebi/eva/pipeline/configuration/validation/VariantNormalizerStepParametersValidator.java:84-88 | rejects exactly the empty identifier |
| `NormalizerValidation.Validate` | src/main/java/uk/ac/ebi/eva/pipeline/configuration/validation/VariantNormalizerStepParametersValidator.java:38-53 | passes exactly when the seven keys are present, the input VCF check passes and the id is non-empty; the first failing check is the one reported |
| `NormalizerValidation.KeysCheckedFirst` | src/main/java/uk/ac/ebi/eva/pipeline/configuration/validation/VariantNormalizerStepParametersValidator.java:47-51 | a missing required key is reported before any file-system check |
| `NormalizerValidation.StricterThanPresenceCheck` | src/main/java/uk/ac/ebi/eva/pipeline/configuration/validation/VariantNormalizerStepParametersValidator.java:38-44 | whatever the normalizer accepts, the genotyped presence-only validator accepts too; accepted parameters include the aggregation key and a non-empty id |
| `NormalizerValidation.StrictlyStricter` | src/main/java/uk/ac/ebi/eva/pipeline/configuration/validation/VariantNormalizerStepParametersValidator.java:38-44 | the inclusion is strict: parameters with the six genotyped keys but without the aggregation mode pass the genotyped validator and are refused by the normalizer for the missing aggregation key |
| `NormalizerValidation.IdentifierExamples` | src/test/java/uk/ac/ebi/eva/pipeline/configuration/validation/VariantNormalizerStepParametersValidatorTest.java:56-67 | "id", "id12345", "id-12345" and "12345.id" are accepted and "" is refused |
| `NormalizerValidation.InputVcfExamples` | src/test/java/uk/ac/ebi/eva/pipeline/configuration/validation/VariantNormalizerStepParametersValidatorTest.java:37-54 | a readable file is accepted, a missing one refused as not existing, an unreadable one as not readable |
| `NormalizerValidation.UnparsablePathRefused` | src/main/java/uk/ac/ebi/eva/pipeline/configuration/validation/VariantNormalizerStepParametersValidator.java:62-67 | a path the parser refuses is reported with the parser's message |
| `Paths.Parse` | src/main/java/uk/ac/ebi/eva/pipeline/configuration/validation/VariantNormalizerStepParametersValidator.java:64 | a string parses exactly when it has no NUL; the result is well formed and absolute exactly when the string starts with '/' |
| `Paths.ParseRender` | src/main/java/uk/ac/ebi/eva/pipeline/configuration/GenotypedVcfGenericJobOptions.java:37-39 | parsing the string form of a well-formed path gives the same path |
| `Paths.ParseIdempotent` | src/main/java/uk/ac/ebi/eva/pipeline/configuration/GenotypedVcfGenericJobOptions.java:37-39 | re-parsing a parsed path's string form changes nothing |
| `Paths.FileName` | src/main/java/uk/ac/ebi/eva/pipeline/configuration/OpencgaJobOptions.java:119 | only the root has no file name; a path with name elements has its last element as file name; the empty relative path has the empty name |
| `Paths.FileNameOfChild` | src/main/java/uk/ac/ebi/eva/pipeline/configuration/OpencgaJobOptions.java:119 | the file name of `name`, of `dir/name`, and of either with trailing separators is `name`, for any NUL-free directory |
| `GenotypedVcfOptions.Inject` | src/main/java/uk/ac/ebi/eva/pipeline/configuration/GenotypedVcfGenericJobOptions.java:14-34 | each field holds its parameter when present; aggregation is otherwise "NONE" and the rest null |
| `GenotypedVcfOptions.AggregationDefaultsToNone` | src/main/java/uk/ac/ebi/eva/pipeline/configuration/GenotypedVcfGenericJobOptions.java:21-22 | without the aggregation parameter the mode is "NONE" |
| `GenotypedVcfOptions.GenotypedVcfGenericJobOptions.FilePath` | src/main/java/uk/ac/ebi/eva/pipeline/configuration/GenotypedVcfGenericJobOptions.java:37-39 | the input path is the parse of the `input.vcf` string; null throws |
| `GenotypedVcfOptions.GenotypedVcfGenericJobOptions.OutputDirectory` | src/main/java/uk/ac/ebi/eva/pipeline/configuration/GenotypedVcfGenericJobOptions.java:61-63 | the output directory is the parse of the `output.dir` string; null throws |
| `GenotypedVcfOptions.FilePathRoundTrip` | src/main/java/uk/ac/ebi/eva/pipeline/configuration/GenotypedVcfGenericJobOptions.java:37-63 | a well-formed path passed as a parameter comes back unchanged from both getters |
| `GenotypedVcfOptions.ValidatedParametersAreUsable` | src/main/java/uk/ac/ebi/eva/pipeline/configuration/GenotypedVcfGenericJobOptions.java:37-45 | after the normalizer's validation the input path parses to a readable file, the id is non-empty and the aggregation is the parameter |
| `AnnotationLoad.ParseReadPreference` | src/main/java/uk/ac/ebi/eva/pipeline/jobs/steps/AnnotationLoaderStep.java:131-143 | succeeds exactly for "primary" and "secondary", with the matching preference; any other name throws IllegalArgumentException whose message starts with that name; null throws |
| `AnnotationLoad.ReadPreferenceRoundTrip` | src/main/java/uk/ac/ebi/eva/pipeline/jobs/steps/AnnotationLoaderStep.java:131-136 | each preference is parsed back from its own name and from no other |
| `AnnotationLoad.ChooseConnection` | src/main/java/uk/ac/ebi/eva/pipeline/jobs/steps/AnnotationLoaderStep.java:121-125 | an empty authentication database selects the name-only connection; a non-empty one the credentialed connection with hosts, user and password; a null authentication database throws, and so does a null password when the authentication database is non-empty; null hosts, user and database name are passed on |
| `AnnotationLoad.NameOnlyIgnoresCredentials` | src/main/java/uk/ac/ebi/eva/pipeline/jobs/steps/AnnotationLoaderStep.java:121-122 | with an empty authentication database the result does not depend on hosts, user or password |
| `AnnotationLoad.InvalidReadPreferenceAlwaysFails` | src/main/java/uk/ac/ebi/eva/pipeline/jobs/steps/AnnotationLoaderStep.java:127-128 | an invalid read preference makes template creation fail in both branches |
| `AnnotationLoad.MongoTemplate.constructor` | src/main/java/uk/ac/ebi/eva/pipeline/jobs/steps/AnnotationLoaderStep.java:122-124 | a new template holds the chosen connection and has no read preference yet |
| `AnnotationLoad.MongoTemplate.SetReadPreference` | src/main/java/uk/ac/ebi/eva/pipeline/jobs/steps/AnnotationLoaderStep.java:127 | the template's read preference becomes the given one |
| `AnnotationLoad.GetMongoTemplate` | src/main/java/uk/ac/ebi/eva/pipeline/jobs/steps/AnnotationLoaderStep.java:118-129 | returns a fresh template on the chosen connection with the parsed read preference, or the first exception met |
| `AnnotationLoad.GetMongoOperations` | src/main/java/uk/ac/ebi/eva/pipeline/jobs/steps/AnnotationLoaderStep.java:100-116 | an unknown host becomes RuntimeException "Unable to initialize mongo template"; every other outcome passes through |
| `AnnotationLoad.AnnotationLoadBatchStep` | src/main/java/uk/ac/ebi/eva/pipeline/jobs/steps/AnnotationLoaderStep.java:83-92 | the step reads the VEP output in chunks of 10, skips at most 50 items, and only flat-file parse errors are skippable |
| `AnnotationModel.IsWhitespace` | src/main/java/uk/ac/ebi/eva/commons/models/data/VariantAnnotation.java:69-70 | a character is whitespace exactly when it is a space, line or paragraph separator other than the non-breaking spaces, or one of the ASCII controls U+0009-U+000D and U+001C-U+001F |
| `AnnotationModel.HasText` | src/main/java/uk/ac/ebi/eva/commons/models/data/VariantAnnotation.java:69-70 | a version has text exactly when it is non-empty and not made only of whitespace |
| `AnnotationModel.HasTextExamples` | src/main/java/uk/ac/ebi/eva/commons/models/data/VariantAnnotation.java:62-70 | empty and all-whitespace strings have no text; a no-break space counts as text |
| `AnnotationModel.VariantAnnotation.constructor` | src/main/java/uk/ac/ebi/eva/commons/models/data/VariantAnnotation.java:68-73 | the versions are the arguments, both carrying text (the class invariant), and the four sets are empty |
| `AnnotationModel.VariantAnnotation.New` | src/main/java/uk/ac/ebi/eva/commons/models/data/VariantAnnotation.java:62-73 | succeeds exactly when both versions have text; the VEP version is checked first; a new annotation is empty and both its versions carry text |
| `AnnotationModel.VariantAnnotation.AddSift` | src/main/java/uk/ac/ebi/eva/commons/models/data/VariantAnnotation.java:75-77 | sifts become old sifts plus the score; nothing else changes |
| `AnnotationModel.VariantAnnotation.AddSifts` | src/main/java/uk/ac/ebi/eva/commons/models/data/VariantAnnotation.java:79-81 | sifts become old sifts united with the collection's elements; nothing else changes |
| `AnnotationModel.VariantAnnotation.AddPolyphen` | src/main/java/uk/ac/ebi/eva/commons/models/data/VariantAnnotation.java:83-85 | polyphens become old polyphens plus the score; nothing else changes |
| `AnnotationModel.VariantAnnotation.AddPolyphens` | src/main/java/uk/ac/ebi/eva/commons/models/data/VariantAnnotation.java:87-89 | polyphens become old polyphens united with the collection's elements; nothing else changes |
| `AnnotationModel.VariantAnnotation.AddXrefIds` | src/main/java/uk/ac/ebi/eva/commons/models/data/VariantAnnotation.java:91-93 | xref ids become old ids united with the argument; nothing else changes |
| `AnnotationModel.VariantAnnotation.AddSoAccessions` | src/main/java/uk/ac/ebi/eva/commons/models/data/VariantAnnotation.java:95-97 | SO accessions become old accessions united with the argument; nothing else changes |
| `AnnotationModel.AddSiftTwice` | src/main/java/uk/ac/ebi/eva/commons/models/data/VariantAnnotation.java:75-77 | adding the same score twice gives the same set as adding it once, and removes nothing |
| `AnnotationModel.VariantAnnotation.GetSifts` | src/main/java/uk/ac/ebi/eva/commons/models/data/VariantAnnotation.java:99-101 | returns the current sifts |
| `AnnotationModel.VariantAnnotation.GetPolyphens` | src/main/java/uk/ac/ebi/eva/commons/models/data/VariantAnnotation.java:103-105 | returns the current polyphens |
| `AnnotationModel.VariantAnnotation.GetSoAccessions` | src/main/java/uk/ac/ebi/eva/commons/models/data/VariantAnnotation.java:107-109 | returns the current SO accessions |
| `AnnotationModel.VariantAnnotation.GetXrefIds` | src/main/java/uk/ac/ebi/eva/commons/models/data/VariantAnnotation.java:111-113 | returns the current xref ids |
| `AnnotationModel.VariantAnnotation.GetVepVersion` | src/main/java/uk/ac/ebi/eva/commons/models/data/VariantAnnotation.java:115-117 | returns the VEP version, which no add method changes and which carries text on every object built through the constructor |
| `AnnotationModel.VariantAnnotation.GetVepCacheVersion` | src/main/java/uk/ac/ebi/eva/commons/models/data/VariantAnnotation.java:119-121 | returns the cache version, which no add method changes and which carries text on every object built through the constructor |

## Left out

- The Spring Batch engine: chunk reading, skip counting, retry, listeners, job and flow
  transitions. This is library code. Only the constants the annotation-load step
  configures are recorded, as a value.
- Spring dependency injection. Job parameters arrive as a map of strings. Injection
  (present parameter overwrites, absent keeps the initial value) is written out in the
  `OpencgaJobOptions` constructor and in the function `GenotypedVcfOptions.Inject`. `statistics.overwrite` arrives already converted to a nullable boolean;
  Spring's string-to-boolean conversion is not modelled.
- File and environment I/O. The properties files that can be opened are passed in as a map
  from path to contents; parsing the `.properties` format is not modelled. `OPENCGA_HOME`
  is a parameter. `Files.notExists` and `Files.isReadable` are an oracle over parsed paths.
- `URI.create(...).resolve(...)`: the properties path is `home + "/conf/storage-mongodb.properties"`.
  URI syntax errors and URI normalisation are not modelled.
- `Config.setOpenCGAHome` is global static state. It is modelled as a field of the options
  object, so sharing between instances is not captured.
- `JobOptions`, `JobParametersNames`, `VariantStorageManager` and
  `MongoDBVariantStorageManager` are not part of this model. Their constants are inputs: a
  `JobDefaults` record, the parameter names as spelled in the `@Value` annotations, and
  an `OptionKey` datatype whose keys are assumed to be distinct.
- The enum constants of `VariantStudy.StudyType` and `VariantSource.Aggregation` come from
  the biodata library and are inputs. `VariantSource` is a record of its six arguments.
- `ConnectionHelper`, `MongoTemplate` and `ReadPreference` belong to MongoDB and Spring Data.
  Connections are tagged values. Whether a connection meets an unknown host is an oracle.
  The template is a small class holding its connection and read preference.
- `VariantNormalizerStep` is a thin tasklet that hands the options to the storage manager's
  `transform`. It has no logic of its own.
- `AnnotationModel.VariantAnnotation`: SIFT and PolyPhen scores are doubles in Java. Here
  they have an abstract element type, so floating-point equality (NaN, signed zero) is not
  modelled. Null elements of the Java sets are not modelled either, nor is a null collection
  passed to `addSifts`, `addPolyphens`, `addXrefIds` or `addsoAccessions`: Java's `addAll(null)`
  throws NullPointerException there, while the model's arguments are never null.
- `OpencgaOptions.OpencgaJobOptions.GetOptions`: the Java method returns the live `ObjectMap`,
  which the normalizer step hands to the storage manager's `transform`. The model returns the
  map's value, so changes made later through the returned map (or by the storage manager) are
  not reflected in the options object.
- `AnnotationModel.VariantAnnotation.GetSifts`: the Java getters return the live mutable
  sets. The model returns their values, so later changes made through a returned set are
  not captured.
- `AnnotationModel.IsWhitespace` follows `Character.isWhitespace` as defined on Java 9 and
  later runtimes (Unicode 6.3 onwards). On a Java 8 runtime (Unicode 6.2) U+180E is also
  whitespace, so a version made only of U+180E is refused there but accepted here. The Java
  method works on UTF-16 code units; Dafny characters are Unicode scalar values, so surrogate
  pairs are not modelled.
- `Paths.Parse` assumes a path encoding (`sun.jnu.encoding`) that maps every character, as
  UTF-8 does, so the only invalid paths are those containing NUL. Under a narrower encoding,
  such as the ASCII of a C/POSIX locale, the Unix provider also throws InvalidPathException
  ("Malformed input or input contains unmappable characters") for unmappable characters. The
  model does not capture that failure of the input-VCF check, of `getFilePath` and
  `getOutputDirectory`, or of building the variant source.
- Logging calls.
