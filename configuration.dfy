/**
 * The demo's configuration constructor, `DellPyStarburstDemoConfiguration(config, tempdir)`.
 *
 * The constructor is modelled as the function Load, which returns either the
 * configuration record or the exception that construction raises. The
 * filesystem is an input: the set of paths that exist and the parsed document
 * (None when the file cannot be read or parsed). Load checks the paths, reads
 * the sections and keys it needs (a missing one is a KeyError at the read),
 * upper-cases the raw logging level (an AttributeError unless it is a string),
 * and then runs the fixed chain of guards in Checks, raising at the first that
 * fails.
 */
module Configuration {
  import opened Wrappers
  import opened Json
  import opened Strings

  /** One section of the document: key to scalar value. */
  type Section = map<string, Value>

  /** The parsed document: section name to section. */
  type Document = map<string, Section>

  const BaseConfig: string := "BASE"
  const DellS3Connection: string := "DELL_S3_CONNECTION"
  const DdaeSession: string := "DDAE_SESSION"
  const DdaeDataConfig: string := "DDAE_DATA_CONFIG"
  const LoggingLevelKey: string := "logging_level"

  /** The six keys read from DDAE_DATA_CONFIG, in the order they are read. */
  const DataKeys: seq<string> := ["ddae_catalog", "ddae_schema", "ddae_table_location",
                                  "ddae_table_name_customer", "ddae_table_schema_customer",
                                  "dell_lakehouse_s3_bucket"]

  /** The accepted raw logging levels (compared exactly, so case matters). */
  const LevelNames: seq<string> := ["debug", "info", "warning", "error"]

  /** The accepted protocols (a value is accepted when it equals one of these). */
  const Protocols: seq<Value> := [Str("http"), Str("https")]

  const NoPathMessage: string := "No file path to the DELL PyStarburst Demo Module configuration provided"
  const PathMissingMessage: string := "The DELL PyStarburst Demo configuration file path does not exist: "
  const NoTempDirMessage: string := "No path for temporary file storage provided"
  const LevelMessage: string := "Logging level can be only one of ['debug', 'info', 'warning', 'error']"
  const S3ProtocolChoiceMessage: string := "The Dell S3 Protocol can only be one of ['http', 'https']"
  const SessionProtocolChoiceMessage: string := "The DDAE Session Protocol can only be one of ['http', 'https']"

  /** The message of a failed truthiness guard; `subject` names the field ("Dell S3 Host"). */
  function NotConfiguredMessage(subject: string): string
  {
    "The " + subject + " is not configured in the module configuration"
  }

  /** What construction raises. */
  datatype ConfigError =
    | InvalidConfiguration(message: string)   // InvalidConfigurationException
    | ParseFailure                            // the file could not be opened or parsed
    | KeyMissing(key: string)                 // KeyError at a dictionary lookup
    | LevelNotText                            // AttributeError: the raw level has no upper()

  /** The attributes the constructor assigns on success. */
  datatype Configuration = Configuration(
    tempFilePath: string,
    dellS3Connection: Section,
    ddaeSession: Section,
    ddaeCatalog: Value,
    ddaeSchema: Value,
    ddaeTableLocation: Value,
    ddaeTableNameCustomer: Value,
    ddaeTableSchemaCustomer: Value,
    dellLakehouseS3Bucket: Value,
    loggingLevel: int)

  /** What the read phase collects: the two connection sections, the data section and the raw level. */
  datatype Raw = Raw(s3: Section, session: Section, data: Section, level: string)

  /** Which collected section a guard looks at. */
  datatype Sec = S3 | Session | Data

  /** One guard of the chain. */
  datatype Check =
    | LevelIsKnown                                          // raw level among LevelNames
    | Present(sec: Sec, key: string, subject: string)       // `if not section[key]: raise`
    | Whitelisted(sec: Sec, key: string, message: string)   // `if section[key] not in [...]: raise`

  /** The Dell S3 connection guards, in order. */
  const S3Checks: seq<Check> := [
    Present(S3, "protocol", "Dell S3 Protocol"),
    Whitelisted(S3, "protocol", S3ProtocolChoiceMessage),
    Present(S3, "host", "Dell S3 Host"),
    Present(S3, "port", "Dell S3 port"),
    Present(S3, "s3AccessKey", "Dell S3 Access Key"),
    Present(S3, "s3SecretKey", "Dell S3 Secrete Key"),
    Present(S3, "connectTimeout", "Dell S3 connection timeout"),
    Present(S3, "readTimeout", "Dell S3 read timeout")
  ]

  /** The DDAE session guards, in order; the protocol has no separate emptiness guard. */
  const SessionChecks: seq<Check> := [
    Whitelisted(Session, "protocol", SessionProtocolChoiceMessage),
    Present(Session, "host", "DDAE Session Host"),
    Present(Session, "port", "DDAE Session port"),
    Present(Session, "user", "DDAE Session User"),
    Present(Session, "password", "DDAE Session Password"),
    Present(Session, "catalog", "DDAE Session Catalog"),
    Present(Session, "schema", "DDAE Session Schema"),
    Present(Session, "connectTimeout", "DDAE Session connection timeout"),
    Present(Session, "readTimeout", "DDAE Session read timeout")
  ]

  /** The data-configuration guards, in order, over the values read earlier. */
  const DataChecks: seq<Check> := [
    Present(Data, "ddae_catalog", "Iceberg Catalog"),
    Present(Data, "ddae_schema", "Iceberg Schema"),
    Present(Data, "ddae_table_location", "Iceberg table location"),
    Present(Data, "ddae_table_name_customer", "Iceberg table name for customer"),
    Present(Data, "ddae_table_schema_customer", "Iceberg table schema for customer data"),
    Present(Data, "dell_lakehouse_s3_bucket", "Dell Lakehouse S3 Bucket")
  ]

  /** The guards, in the order the constructor runs them. */
  const Checks: seq<Check> := [LevelIsKnown] + S3Checks + SessionChecks + DataChecks

  function SectionOf(raw: Raw, sec: Sec): Section
  {
    match sec
    case S3 => raw.s3
    case Session => raw.session
    case Data => raw.data
  }

  /** The exception one guard raises, if any; a guard's own lookup raises KeyError when its key is absent. */
  function Eval(c: Check, raw: Raw): Option<ConfigError>
  {
    match c
    case LevelIsKnown =>
      if raw.level in LevelNames then None else Some(InvalidConfiguration(LevelMessage))
    case Present(sec, key, subject) =>
      var m := SectionOf(raw, sec);
      if key !in m then Some(KeyMissing(key))
      else if Truthy(m[key]) then None
      else Some(InvalidConfiguration(NotConfiguredMessage(subject)))
    case Whitelisted(sec, key, message) =>
      var m := SectionOf(raw, sec);
      if key !in m then Some(KeyMissing(key))
      else if m[key] in Protocols then None
      else Some(InvalidConfiguration(message))
  }

  /** Runs the guards in order and returns what the first failing one raises. */
  function FirstFailure(cs: seq<Check>, raw: Raw): Option<ConfigError>
  {
    if cs == [] then None
    else if Eval(cs[0], raw).Some? then Eval(cs[0], raw)
    else FirstFailure(cs[1..], raw)
  }

  /** The first key of `keys` absent from `m`. */
  function FirstMissing(keys: seq<string>, m: Section): (r: Option<string>)
    ensures r.None? <==> forall i :: 0 <= i < |keys| ==> keys[i] in m
    ensures r.Some? ==> r.value in keys && r.value !in m
    ensures r.Some? ==> exists i :: 0 <= i < |keys| && keys[i] == r.value && forall j :: 0 <= j < i ==> keys[j] in m
  {
    if keys == [] then None
    else if keys[0] !in m then Some(keys[0])
    else FirstMissing(keys[1..], m)
  }

  /** The key reported is the one at the first absent position. */
  lemma {:induction false} FirstMissingIsFirstAbsent(keys: seq<string>, m: Section, i: int)
    requires 0 <= i < |keys| && keys[i] !in m
    requires forall j :: 0 <= j < i ==> keys[j] in m
    ensures FirstMissing(keys, m) == Some(keys[i])
    decreases i
  {
    if i > 0 {
      FirstMissingIsFirstAbsent(keys[1..], m, i - 1);
    }
  }

  /** The read phase: every section and key lookup before the first guard. */
  function Read(doc: Document): (r: Result<Raw, ConfigError>)
    ensures r.Success? <==>
      && DellS3Connection in doc && DdaeSession in doc && DdaeDataConfig in doc
      && (forall i :: 0 <= i < |DataKeys| ==> DataKeys[i] in doc[DdaeDataConfig])
      && BaseConfig in doc && LoggingLevelKey in doc[BaseConfig]
      && doc[BaseConfig][LoggingLevelKey].Str?
    ensures r.Success? ==>
      r.value == Raw(doc[DellS3Connection], doc[DdaeSession], doc[DdaeDataConfig], doc[BaseConfig][LoggingLevelKey].s)
    ensures r.Success? ==> forall i :: 0 <= i < |DataKeys| ==> DataKeys[i] in r.value.data
    ensures r.Failure? ==> r.error.KeyMissing? || r.error.LevelNotText?
  {
    if DellS3Connection !in doc then Failure(KeyMissing(DellS3Connection))
    else if DdaeSession !in doc then Failure(KeyMissing(DdaeSession))
    else if DdaeDataConfig !in doc then Failure(KeyMissing(DdaeDataConfig))
    else if FirstMissing(DataKeys, doc[DdaeDataConfig]).Some? then
      Failure(KeyMissing(FirstMissing(DataKeys, doc[DdaeDataConfig]).value))
    else if BaseConfig !in doc then Failure(KeyMissing(BaseConfig))
    else if LoggingLevelKey !in doc[BaseConfig] then Failure(KeyMissing(LoggingLevelKey))
    else match doc[BaseConfig][LoggingLevelKey]
      case Str(level) => Success(Raw(doc[DellS3Connection], doc[DdaeSession], doc[DdaeDataConfig], level))
      case _ => Failure(LevelNotText)
  }

  /** `logging.getLevelName` on the upper-cased name of an accepted level. */
  function LevelNumber(name: string): int
    requires name in ["DEBUG", "INFO", "WARNING", "ERROR"]
  {
    if name == "DEBUG" then 10
    else if name == "INFO" then 20
    else if name == "WARNING" then 30
    else 40
  }

  lemma UpperDebug() ensures Upper("debug") == "DEBUG" {}
  lemma UpperInfo() ensures Upper("info") == "INFO" {}
  lemma UpperWarning() ensures Upper("warning") == "WARNING" {}
  lemma UpperError() ensures Upper("error") == "ERROR" {}

  /** Upper-casing sends each accepted level to a standard level name. */
  lemma UpperOfLevelNames(level: string)
    requires level in LevelNames
    ensures Upper(level) in ["DEBUG", "INFO", "WARNING", "ERROR"]
  {
    assert level == "debug" || level == "info" || level == "warning" || level == "error";
    if level == "debug" {
      UpperDebug();
    } else if level == "info" {
      UpperInfo();
    } else if level == "warning" {
      UpperWarning();
    } else {
      UpperError();
    }
  }

  /** The record assigned when every guard passes. */
  function Assemble(tempdir: string, raw: Raw): Configuration
    requires forall i :: 0 <= i < |DataKeys| ==> DataKeys[i] in raw.data
    requires raw.level in LevelNames
  {
    UpperOfLevelNames(raw.level);
    Configuration(tempdir, raw.s3, raw.session,
                  raw.data[DataKeys[0]], raw.data[DataKeys[1]], raw.data[DataKeys[2]],
                  raw.data[DataKeys[3]], raw.data[DataKeys[4]], raw.data[DataKeys[5]],
                  LevelNumber(Upper(raw.level)))
  }

  /**
   * The constructor. `config` and `tempdir` are None when the caller passes
   * None; `existing` is the set of paths that exist; `parsed` is the document,
   * or None when the file cannot be opened or parsed.
   */
  function Load(config: Option<string>, tempdir: Option<string>, existing: set<string>,
                parsed: Option<Document>): Result<Configuration, ConfigError>
  {
    if config.None? then Failure(InvalidConfiguration(NoPathMessage))
    else if config.value !in existing then Failure(InvalidConfiguration(PathMissingMessage + config.value))
    else if tempdir.None? then Failure(InvalidConfiguration(NoTempDirMessage))
    else if parsed.None? then Failure(ParseFailure)
    else match Read(parsed.value)
      case Failure(e) => Failure(e)
      case Success(raw) =>
        match FirstFailure(Checks, raw)
        case Some(e) => Failure(e)
        case None =>
          FirstPassesLevel(raw);
          Success(Assemble(tempdir.value, raw))
  }

  /** The raw level is checked first, so a configuration that passes every guard has an accepted level. */
  lemma FirstPassesLevel(raw: Raw)
    requires FirstFailure(Checks, raw).None?
    ensures raw.level in LevelNames
  {
    assert Checks[0] == LevelIsKnown;
  }

  /** No failure is reported exactly when every guard passes. */
  lemma {:induction false} FirstFailureNone(cs: seq<Check>, raw: Raw)
    ensures FirstFailure(cs, raw).None? <==> forall i :: 0 <= i < |cs| ==> Eval(cs[i], raw).None?
  {
    if cs != [] {
      FirstFailureNone(cs[1..], raw);
      assert forall i :: 1 <= i < |cs| ==> cs[i] == cs[1..][i - 1];
    }
  }

  /** The failure reported is the one raised by the first guard that fails, and only that one. */
  lemma {:induction false} FirstFailureIsFirst(cs: seq<Check>, raw: Raw, i: nat)
    requires i < |cs| && Eval(cs[i], raw).Some?
    requires forall j :: 0 <= j < i ==> Eval(cs[j], raw).None?
    ensures FirstFailure(cs, raw) == Eval(cs[i], raw)
  {
    if i > 0 {
      assert Eval(cs[0], raw).None?;
      assert forall j :: 0 <= j < i - 1 ==> cs[1..][j] == cs[j + 1];
      FirstFailureIsFirst(cs[1..], raw, i - 1);
    }
  }

  const S3Keys: set<string> := {"protocol", "host", "port", "s3AccessKey", "s3SecretKey",
                                "connectTimeout", "readTimeout"}
  const SessionKeys: set<string> := {"protocol", "host", "port", "user", "password", "catalog",
                                     "schema", "connectTimeout", "readTimeout"}

  /** Every key of `keys` is in `m` with a truthy value. */
  predicate AllTruthy(m: Section, keys: set<string>)
  {
    forall k :: k in keys ==> k in m && Truthy(m[k])
  }

  /**
   * The requirements the guards enforce, stated field by field: an accepted
   * level, every connection and session field present and truthy, both
   * protocols whitelisted, and every data field truthy.
   */
  predicate WellFormed(raw: Raw)
  {
    && raw.level in LevelNames
    && AllTruthy(raw.s3, S3Keys)
    && "protocol" in raw.s3 && raw.s3["protocol"] in Protocols
    && AllTruthy(raw.session, SessionKeys)
    && "protocol" in raw.session && raw.session["protocol"] in Protocols
    && AllTruthy(raw.data, set k | k in DataKeys)
  }

  /** Running two lists of guards one after the other. */
  lemma {:induction false} FirstFailureAppend(a: seq<Check>, b: seq<Check>, raw: Raw)
    ensures FirstFailure(a + b, raw) == if FirstFailure(a, raw).Some? then FirstFailure(a, raw) else FirstFailure(b, raw)
  {
    if a == [] {
      assert a + b == b;
    } else {
      assert (a + b)[0] == a[0];
      assert (a + b)[1..] == a[1..] + b;
      FirstFailureAppend(a[1..], b, raw);
    }
  }

  /** The Dell S3 guards accept exactly a section whose fields are all truthy and whose protocol is whitelisted. */
  lemma S3GuardsAccept(raw: Raw)
    ensures FirstFailure(S3Checks, raw).None? <==>
            AllTruthy(raw.s3, S3Keys) && "protocol" in raw.s3 && raw.s3["protocol"] in Protocols
  {
    FirstFailureNone(S3Checks, raw);
    if FirstFailure(S3Checks, raw).None? {
      assert "protocol" in raw.s3 && Truthy(raw.s3["protocol"]) by { assert Eval(S3Checks[0], raw).None?; }
      assert "host" in raw.s3 && Truthy(raw.s3["host"]) by { assert Eval(S3Checks[2], raw).None?; }
      assert "port" in raw.s3 && Truthy(raw.s3["port"]) by { assert Eval(S3Checks[3], raw).None?; }
      assert "s3AccessKey" in raw.s3 && Truthy(raw.s3["s3AccessKey"]) by { assert Eval(S3Checks[4], raw).None?; }
      assert "s3SecretKey" in raw.s3 && Truthy(raw.s3["s3SecretKey"]) by { assert Eval(S3Checks[5], raw).None?; }
      assert "connectTimeout" in raw.s3 && Truthy(raw.s3["connectTimeout"]) by { assert Eval(S3Checks[6], raw).None?; }
      assert "readTimeout" in raw.s3 && Truthy(raw.s3["readTimeout"]) by { assert Eval(S3Checks[7], raw).None?; }
      assert raw.s3["protocol"] in Protocols by { assert Eval(S3Checks[1], raw).None?; }
    }
  }

  /** The DDAE session guards accept exactly a section whose fields are all truthy and whose protocol is whitelisted. */
  lemma SessionGuardsAccept(raw: Raw)
    ensures FirstFailure(SessionChecks, raw).None? <==>
            AllTruthy(raw.session, SessionKeys) && "protocol" in raw.session && raw.session["protocol"] in Protocols
  {
    FirstFailureNone(SessionChecks, raw);
    if FirstFailure(SessionChecks, raw).None? {
      assert "protocol" in raw.session && Truthy(raw.session["protocol"]) by { assert Eval(SessionChecks[0], raw).None?; }
      assert "host" in raw.session && Truthy(raw.session["host"]) by { assert Eval(SessionChecks[1], raw).None?; }
      assert "port" in raw.session && Truthy(raw.session["port"]) by { assert Eval(SessionChecks[2], raw).None?; }
      assert "user" in raw.session && Truthy(raw.session["user"]) by { assert Eval(SessionChecks[3], raw).None?; }
      assert "password" in raw.session && Truthy(raw.session["password"]) by { assert Eval(SessionChecks[4], raw).None?; }
      assert "catalog" in raw.session && Truthy(raw.session["catalog"]) by { assert Eval(SessionChecks[5], raw).None?; }
      assert "schema" in raw.session && Truthy(raw.session["schema"]) by { assert Eval(SessionChecks[6], raw).None?; }
      assert "connectTimeout" in raw.session && Truthy(raw.session["connectTimeout"]) by { assert Eval(SessionChecks[7], raw).None?; }
      assert "readTimeout" in raw.session && Truthy(raw.session["readTimeout"]) by { assert Eval(SessionChecks[8], raw).None?; }
      assert raw.session["protocol"] in Protocols by { assert Eval(SessionChecks[0], raw).None?; }
    }
  }

  /** The data guards accept exactly when every data field is truthy. */
  lemma DataGuardsAccept(raw: Raw)
    ensures FirstFailure(DataChecks, raw).None? <==> AllTruthy(raw.data, set k | k in DataKeys)
  {
    FirstFailureNone(DataChecks, raw);
    if FirstFailure(DataChecks, raw).None? {
      assert "ddae_catalog" in raw.data && Truthy(raw.data["ddae_catalog"]) by { assert Eval(DataChecks[0], raw).None?; }
      assert "ddae_schema" in raw.data && Truthy(raw.data["ddae_schema"]) by { assert Eval(DataChecks[1], raw).None?; }
      assert "ddae_table_location" in raw.data && Truthy(raw.data["ddae_table_location"]) by { assert Eval(DataChecks[2], raw).None?; }
      assert "ddae_table_name_customer" in raw.data && Truthy(raw.data["ddae_table_name_customer"]) by { assert Eval(DataChecks[3], raw).None?; }
      assert "ddae_table_schema_customer" in raw.data && Truthy(raw.data["ddae_table_schema_customer"]) by { assert Eval(DataChecks[4], raw).None?; }
      assert "dell_lakehouse_s3_bucket" in raw.data && Truthy(raw.data["dell_lakehouse_s3_bucket"]) by { assert Eval(DataChecks[5], raw).None?; }
    }
  }

  /** The guard chain accepts exactly the well-formed configurations. */
  lemma ChecksAcceptExactlyWellFormed(raw: Raw)
    ensures FirstFailure(Checks, raw).None? <==> WellFormed(raw)
  {
    FirstFailureAppend([LevelIsKnown] + S3Checks + SessionChecks, DataChecks, raw);
    FirstFailureAppend([LevelIsKnown] + S3Checks, SessionChecks, raw);
    FirstFailureAppend([LevelIsKnown], S3Checks, raw);
    S3GuardsAccept(raw);
    SessionGuardsAccept(raw);
    DataGuardsAccept(raw);
  }

  /** What a constructed configuration satisfies: the guarantees the rest of the demo relies on. */
  predicate Validated(c: Configuration)
  {
    && AllTruthy(c.dellS3Connection, S3Keys)
    && "protocol" in c.dellS3Connection && c.dellS3Connection["protocol"] in Protocols
    && AllTruthy(c.ddaeSession, SessionKeys)
    && "protocol" in c.ddaeSession && c.ddaeSession["protocol"] in Protocols
    && Truthy(c.ddaeCatalog) && Truthy(c.ddaeSchema) && Truthy(c.ddaeTableLocation)
    && Truthy(c.ddaeTableNameCustomer) && Truthy(c.ddaeTableSchemaCustomer) && Truthy(c.dellLakehouseS3Bucket)
    && c.loggingLevel in {10, 20, 30, 40}
  }

  /**
   * Construction succeeds exactly when both paths are given, the file exists
   * and parses, every read succeeds and the values read are well-formed.
   */
  lemma LoadSucceedsIff(config: Option<string>, tempdir: Option<string>, existing: set<string>,
                        parsed: Option<Document>)
    ensures Load(config, tempdir, existing, parsed).Success? <==>
            && config.Some? && config.value in existing && tempdir.Some? && parsed.Some?
            && Read(parsed.value).Success? && WellFormed(Read(parsed.value).value)
  {
    if config.Some? && config.value in existing && tempdir.Some? && parsed.Some? && Read(parsed.value).Success? {
      ChecksAcceptExactlyWellFormed(Read(parsed.value).value);
    }
  }

  /**
   * A document that reads but fails a guard is rejected with what the first
   * failing guard raises: its InvalidConfiguration message, or the KeyError of
   * the key it looks up.
   */
  lemma GuardFailureReported(config: string, tempdir: string, existing: set<string>, doc: Document, i: nat)
    requires config in existing && Read(doc).Success?
    requires i < |Checks| && Eval(Checks[i], Read(doc).value).Some?
    requires forall j :: 0 <= j < i ==> Eval(Checks[j], Read(doc).value).None?
    ensures Load(Some(config), Some(tempdir), existing, Some(doc)) == Failure(Eval(Checks[i], Read(doc).value).value)
    ensures Eval(Checks[i], Read(doc).value).value.InvalidConfiguration?
         || Eval(Checks[i], Read(doc).value).value.KeyMissing?
  {
    FirstFailureIsFirst(Checks, Read(doc).value, i);
  }

  /**
   * Round trip: a constructed configuration holds the supplied temp directory,
   * the two connection sections and the six data fields exactly as the
   * document has them, and the level number of the upper-cased raw level.
   */
  lemma LoadRoundTrip(config: Option<string>, tempdir: Option<string>, existing: set<string>,
                      parsed: Option<Document>, c: Configuration)
    requires Load(config, tempdir, existing, parsed) == Success(c)
    ensures tempdir == Some(c.tempFilePath) && parsed.Some?
    ensures var doc := parsed.value;
      && DellS3Connection in doc && c.dellS3Connection == doc[DellS3Connection]
      && DdaeSession in doc && c.ddaeSession == doc[DdaeSession]
      && DdaeDataConfig in doc
      && (forall k :: k in DataKeys ==> k in doc[DdaeDataConfig])
      && c.ddaeCatalog == doc[DdaeDataConfig]["ddae_catalog"]
      && c.ddaeSchema == doc[DdaeDataConfig]["ddae_schema"]
      && c.ddaeTableLocation == doc[DdaeDataConfig]["ddae_table_location"]
      && c.ddaeTableNameCustomer == doc[DdaeDataConfig]["ddae_table_name_customer"]
      && c.ddaeTableSchemaCustomer == doc[DdaeDataConfig]["ddae_table_schema_customer"]
      && c.dellLakehouseS3Bucket == doc[DdaeDataConfig]["dell_lakehouse_s3_bucket"]
      && BaseConfig in doc && LoggingLevelKey in doc[BaseConfig]
      && doc[BaseConfig][LoggingLevelKey].Str?
      && doc[BaseConfig][LoggingLevelKey].s in LevelNames
      && Upper(doc[BaseConfig][LoggingLevelKey].s) in ["DEBUG", "INFO", "WARNING", "ERROR"]
      && c.loggingLevel == LevelNumber(Upper(doc[BaseConfig][LoggingLevelKey].s))
  {
    var raw := Read(parsed.value).value;
    FirstPassesLevel(raw);
    UpperOfLevelNames(raw.level);
    forall k | k in DataKeys ensures k in parsed.value[DdaeDataConfig] {
      var j :| 0 <= j < |DataKeys| && DataKeys[j] == k;
    }
  }

  /** A constructed configuration satisfies every guarantee of Validated. */
  lemma LoadedIsValidated(config: Option<string>, tempdir: Option<string>, existing: set<string>,
                          parsed: Option<Document>, c: Configuration)
    requires Load(config, tempdir, existing, parsed) == Success(c)
    ensures Validated(c)
  {
    var raw := Read(parsed.value).value;
    ChecksAcceptExactlyWellFormed(raw);
    UpperOfLevelNames(raw.level);
    assert DataKeys[0] in set k | k in DataKeys;
    assert DataKeys[1] in set k | k in DataKeys;
    assert DataKeys[2] in set k | k in DataKeys;
    assert DataKeys[3] in set k | k in DataKeys;
    assert DataKeys[4] in set k | k in DataKeys;
    assert DataKeys[5] in set k | k in DataKeys;
  }

  /**
   * The path checks come first and in this order: a missing config path, a
   * path that does not exist, a missing temp directory, then an unreadable file.
   */
  lemma PathChecksComeFirst(config: Option<string>, tempdir: Option<string>, existing: set<string>,
                            parsed: Option<Document>)
    ensures config.None? ==>
      Load(config, tempdir, existing, parsed) == Failure(InvalidConfiguration(NoPathMessage))
    ensures config.Some? && config.value !in existing ==>
      Load(config, tempdir, existing, parsed) == Failure(InvalidConfiguration(PathMissingMessage + config.value))
    ensures config.Some? && config.value in existing && tempdir.None? ==>
      Load(config, tempdir, existing, parsed) == Failure(InvalidConfiguration(NoTempDirMessage))
    ensures config.Some? && config.value in existing && tempdir.Some? && parsed.None? ==>
      Load(config, tempdir, existing, parsed) == Failure(ParseFailure)
  {
  }

  /**
   * A missing section or key fails at its read, before any guard runs, with a
   * lookup error (or the AttributeError of a non-string level), never with
   * InvalidConfiguration.
   */
  lemma ReadFailsBeforeGuards(config: string, tempdir: string, existing: set<string>, doc: Document)
    requires config in existing && Read(doc).Failure?
    ensures Load(Some(config), Some(tempdir), existing, Some(doc)) == Failure(Read(doc).error)
    ensures !Read(doc).error.InvalidConfiguration?
    ensures DellS3Connection !in doc ==> Read(doc).error == KeyMissing(DellS3Connection)
    ensures DellS3Connection in doc && DdaeSession !in doc ==> Read(doc).error == KeyMissing(DdaeSession)
  {
  }

  /**
   * Each missing section or key makes the read fail with KeyError, naming the
   * first absent one in the order the constructor looks them up.
   */
  lemma MissingKeyFailsRead(doc: Document)
    ensures DellS3Connection !in doc ==> Read(doc) == Failure(KeyMissing(DellS3Connection))
    ensures DellS3Connection in doc && DdaeSession !in doc ==> Read(doc) == Failure(KeyMissing(DdaeSession))
    ensures DellS3Connection in doc && DdaeSession in doc && DdaeDataConfig !in doc ==>
      Read(doc) == Failure(KeyMissing(DdaeDataConfig))
    ensures DellS3Connection in doc && DdaeSession in doc && DdaeDataConfig in doc ==>
      forall i :: 0 <= i < |DataKeys| && DataKeys[i] !in doc[DdaeDataConfig]
                  && (forall j :: 0 <= j < i ==> DataKeys[j] in doc[DdaeDataConfig]) ==>
        Read(doc) == Failure(KeyMissing(DataKeys[i]))
    ensures (&& DellS3Connection in doc && DdaeSession in doc && DdaeDataConfig in doc
             && (forall i :: 0 <= i < |DataKeys| ==> DataKeys[i] in doc[DdaeDataConfig])) ==>
      && (BaseConfig !in doc ==> Read(doc) == Failure(KeyMissing(BaseConfig)))
      && (BaseConfig in doc && LoggingLevelKey !in doc[BaseConfig] ==>
            Read(doc) == Failure(KeyMissing(LoggingLevelKey)))
  {
    if DellS3Connection in doc && DdaeSession in doc && DdaeDataConfig in doc {
      var m := doc[DdaeDataConfig];
      forall i | 0 <= i < |DataKeys| && DataKeys[i] !in m && (forall j :: 0 <= j < i ==> DataKeys[j] in m)
        ensures Read(doc) == Failure(KeyMissing(DataKeys[i]))
      {
        FirstMissingIsFirstAbsent(DataKeys, m, i);
      }
    }
  }

  /**
   * The level guard runs first and compares the raw value exactly: a string
   * outside ["debug", "info", "warning", "error"] is rejected with the level
   * message whatever else the document holds.
   */
  lemma LevelCheckedFirst(raw: Raw)
    requires raw.level !in LevelNames
    ensures FirstFailure(Checks, raw) == Some(InvalidConfiguration(LevelMessage))
  {
    assert Checks[0] == LevelIsKnown;
  }

  /** The check is case-sensitive: "INFO" is rejected although upper-casing "info" yields it. */
  lemma UpperCaseLevelRejected(raw: Raw)
    requires raw.level == "INFO"
    ensures FirstFailure(Checks, raw) == Some(InvalidConfiguration(LevelMessage))
    ensures Upper("info") == raw.level && "info" in LevelNames
  {
    UpperInfo();
    LevelCheckedFirst(raw);
  }

  /**
   * The Dell S3 protocol is rejected in two ways: a falsy value raises the
   * "not configured" error; a truthy value other than "http" or "https"
   * raises the "can only be one of" error.
   */
  lemma S3ProtocolErrors(raw: Raw)
    requires raw.level in LevelNames && "protocol" in raw.s3
    ensures !Truthy(raw.s3["protocol"]) ==>
      FirstFailure(Checks, raw) == Some(InvalidConfiguration(NotConfiguredMessage("Dell S3 Protocol")))
    ensures Truthy(raw.s3["protocol"]) && raw.s3["protocol"] !in Protocols ==>
      FirstFailure(Checks, raw) == Some(InvalidConfiguration(S3ProtocolChoiceMessage))
  {
    assert Checks[0] == LevelIsKnown && Checks[1] == S3Checks[0] && Checks[2] == S3Checks[1];
    if !Truthy(raw.s3["protocol"]) {
      FirstFailureIsFirst(Checks, raw, 1);
    } else if raw.s3["protocol"] !in Protocols {
      FirstFailureIsFirst(Checks, raw, 2);
    }
  }

  /**
   * Once the level and the Dell S3 section pass, a DDAE session protocol other
   * than "http" or "https" (including "" and null) raises the DDAE protocol
   * error; there is no separate emptiness guard for it.
   */
  lemma SessionProtocolError(raw: Raw)
    requires raw.level in LevelNames
    requires AllTruthy(raw.s3, S3Keys) && "protocol" in raw.s3 && raw.s3["protocol"] in Protocols
    requires "protocol" in raw.session && raw.session["protocol"] !in Protocols
    ensures FirstFailure(Checks, raw) == Some(InvalidConfiguration(SessionProtocolChoiceMessage))
  {
    S3GuardsAccept(raw);
    FirstFailureAppend([LevelIsKnown] + S3Checks + SessionChecks, DataChecks, raw);
    FirstFailureAppend([LevelIsKnown] + S3Checks, SessionChecks, raw);
    FirstFailureAppend([LevelIsKnown], S3Checks, raw);
    assert SessionChecks[0] == Whitelisted(Session, "protocol", SessionProtocolChoiceMessage);
    FirstFailureIsFirst(SessionChecks, raw, 0);
  }
}
