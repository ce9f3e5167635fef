# dell-pystarburst-demo in Dafny

A model of the Dell Data Lakehouse / DDAE demo, with proofs about it. The demo
loads and validates a JSON configuration. It then opens a Starburst (DDAE)
session and runs a fixed object-lock scenario against an S3 store:

- create a versioned, object-locked bucket with a governance retention rule;
- create a hive schema and table;
- upload a parquet file and query it;
- delete it and query again;
- restore it by deleting the delete marker's version, and query once more;
- delete every object version and delete marker;
- delete the bucket, drop the table and the schema, and close the session.

The model has seven modules:

- `Wrappers`, `Json` and `Strings` are value vocabulary:
  - `Option` and `Result`;
  - the scalar JSON values of the configuration file, how Python tests them for truth and how `str()` renders them;
  - splitting, ASCII upper-casing, and `str.format` with positional placeholders.
- `Configuration`: the constructor `DellPyStarburstDemoConfiguration(config, tempdir)`.
  It is the function `Load`, which returns the configuration record or the exception the constructor raises.
  - The filesystem is an input: the set of existing paths and the parsed document.
  - The validation is a fixed table of guards, `Checks`, evaluated first-failure-wins.
- `Collaborators`: the boto3, trino and pystarburst calls.
  - Each call is an abstract `Request` appended to the trace kept by the class `Services`.
  - A `World` says, per trace position, whether the call raised and what it returned.
  - `Progress` is the trace plus the exception currently unwinding, if any. `Call`, `Check`, `Caught` and `CaughtClientError` give Python's try/except behaviour.
- `Ddae`: `DDAEAuthentication` and `DDAEDataProcessor`.
  - Pure functions cover the URL, the connection parameters and every SQL statement.
  - A loop accumulates the catalog list.
  - Classes hold the session slot `sep_session` (`Blank` for `''`, `NoSession` for None, or `Live(handle)`).
  - Methods issue the queries and are proved equal to specification functions.
- `Demo`: `dell-pystarburst-demo.py`.
  - The `kill_now` flag.
  - The S3 endpoint.
  - One specification function per stage of `__main__`, and the class `DemoProgram`, which holds the module globals. Its methods run the same steps imperatively and are proved equal to the stage functions.

Behaviour of the code worth noting:

- The logging level is compared case-sensitively against `['debug', 'info', 'warning', 'error']`, so `"INFO"` is rejected (`Configuration.UpperCaseLevelRejected`).
- The S3 calls in `__main__` are not wrapped individually. The first one that raises ends the whole run in the outer `except`. Only `upload_file` catches `ClientError`, and the processor methods catch everything inside their `try`.
- A configuration that fails to load does not reach the wait loop of `dell_ddae_session`. The handler in `dell_pystarburst_demo_config` calls `_logger.error` while `_logger` is still None. The resulting AttributeError ends the run (`Demo.ConfigFailureIssuesNothing`).
- When the session builder raises, `sep_session` stays `''` rather than None. `dell_ddae_session` therefore still returns True and the scenario runs against a slot with no session (`Demo.FailedCreateStillConnected`).
- The first `get_object_lock_configuration` names the literal bucket `dell-pystarburst-demo`, not the configured one. The model keeps the literal (`Demo.LiteralBucket`).

## Model

| member | source | states |
|---|---|---|
| Strings.Upper | configuration/dell_pystarburst_demo_configuration.py:58 | upper-casing keeps the length and maps every character through the ASCII upper-case map |
| Configuration.FirstMissing | configuration/dell_pystarburst_demo_configuration.py:49-54 | no key is reported exactly when all six data keys are present; a reported key is absent and every key before it in read order is present, so it is the key the KeyError names |
| Configuration.FirstMissingIsFirstAbsent | configuration/dell_pystarburst_demo_configuration.py:49-54 | the key at the first absent position of the data keys is the one reported |
| Configuration.Read | configuration/dell_pystarburst_demo_configuration.py:45-57 | the read succeeds exactly when the three connection and data sections, all six data keys, BASE and a string logging_level are present; it then returns the document's own sections and level; a failed read is a lookup error or the AttributeError of a non-string level, never a validation error |
| Configuration.UpperOfLevelNames | configuration/dell_pystarburst_demo_configuration.py:57-58 | each accepted raw level upper-cases to one of DEBUG, INFO, WARNING, ERROR |
| Configuration.FirstPassesLevel | configuration/dell_pystarburst_demo_configuration.py:61-63 | a raw level that passes the guard chain is one of the four accepted names |
| Configuration.FirstFailureNone | configuration/dell_pystarburst_demo_configuration.py:61-135 | the guard chain reports nothing exactly when every guard passes |
| Configuration.FirstFailureIsFirst | configuration/dell_pystarburst_demo_configuration.py:61-135 | the error reported is the one raised by the first failing guard, whatever the later guards say |
| Configuration.FirstFailureAppend | configuration/dell_pystarburst_demo_configuration.py:61-135 | running two guard lists in sequence reports the first list's error if it has one, else the second's |
| Configuration.S3GuardsAccept | configuration/dell_pystarburst_demo_configuration.py:66-91 | the Dell S3 guards accept exactly a section whose seven fields are present and truthy and whose protocol is http or https |
| Configuration.SessionGuardsAccept | configuration/dell_pystarburst_demo_configuration.py:94-121 | the DDAE session guards accept exactly a section whose nine fields are present and truthy and whose protocol is http or https |
| Configuration.DataGuardsAccept | configuration/dell_pystarburst_demo_configuration.py:124-135 | the data guards accept exactly when the six data fields are truthy |
| Configuration.ChecksAcceptExactlyWellFormed | configuration/dell_pystarburst_demo_configuration.py:61-135 | the whole chain accepts exactly the well-formed configurations (level, S3 section, session section, data fields) |
| Configuration.LoadSucceedsIff | configuration/dell_pystarburst_demo_configuration.py:20-135 | construction succeeds iff both paths are given, the file exists and parses, every read succeeds and the values read are well-formed |
| Configuration.LoadRoundTrip | configuration/dell_pystarburst_demo_configuration.py:33-58 | on success the temp path is the one supplied, the two connection maps and six data fields are the document's own values, and the level is the number of the upper-cased raw name |
| Configuration.LoadedIsValidated | configuration/dell_pystarburst_demo_configuration.py:20-135 | a constructed configuration has every field truthy, both protocols whitelisted and a level in {10, 20, 30, 40} |
| Configuration.GuardFailureReported | configuration/dell_pystarburst_demo_configuration.py:61-135 | a document that reads but fails a guard is rejected with exactly what the first failing guard raises, an InvalidConfiguration message or the KeyError of its key |
| Configuration.PathChecksComeFirst | configuration/dell_pystarburst_demo_configuration.py:22-42 | a None config path, then a missing file, then a None temp dir, then an unparsable file are rejected in that order before anything is read |
| Configuration.ReadFailsBeforeGuards | configuration/dell_pystarburst_demo_configuration.py:45-57 | a failed read is what construction raises, never InvalidConfiguration, and a missing DELL_S3_CONNECTION is reported before a missing DDAE_SESSION |
| Configuration.MissingKeyFailsRead | configuration/dell_pystarburst_demo_configuration.py:45-57 | a missing DELL_S3_CONNECTION, DDAE_SESSION, DDAE_DATA_CONFIG, data key, BASE or logging_level makes the read fail with the KeyError of the first absent one in lookup order |
| Configuration.LevelCheckedFirst | configuration/dell_pystarburst_demo_configuration.py:57-63 | a raw level outside the four names is rejected with the level message whatever else the document holds |
| Configuration.UpperCaseLevelRejected | configuration/dell_pystarburst_demo_configuration.py:57-63 | "INFO" is rejected although it is the upper-case form of the accepted "info" |
| Configuration.S3ProtocolErrors | configuration/dell_pystarburst_demo_configuration.py:66-71 | a falsy S3 protocol raises the "not configured" error; a truthy one other than http/https raises the "can only be one of" error |
| Configuration.SessionProtocolError | configuration/dell_pystarburst_demo_configuration.py:94-96 | once the level and S3 section pass, any DDAE protocol other than http/https, empty included, raises the DDAE protocol error |
| Ddae.UrlText | ddae/ddae.py:43 | the URL is protocol, "://", host, ":" and port as `str()` renders them |
| Ddae.UrlSplit | ddae/ddae.py:43 | with no ':' in the parts, splitting the URL at ':' gives back protocol, "//" + host and port |
| Ddae.DdaeAuthentication.constructor | ddae/ddae.py:33-44 | the settings are stored as given and the session slot starts as '' |
| Ddae.DdaeAuthentication.GetUrl | ddae/ddae.py:49-53 | returns protocol + "://" + host + ":" + port |
| Ddae.DbParametersByProtocol | ddae/ddae.py:65-81 | over https the parameters have keys host, port, http_scheme, verify (False), roles, auth and no user; otherwise host, port, http_scheme, roles and user; always the given host, port, scheme and the sysadmin role |
| Ddae.SlotAfterCreateCases | ddae/ddae.py:88-100 | after the builder the slot is None when it returned None, the session when it returned one, and unchanged when it raised |
| Ddae.DdaeAuthentication.Connect | ddae/ddae.py:61-100 | raises TypeError, issuing nothing, exactly when user, catalog or schema is not a string; otherwise issues one CreateSession with the protocol's parameters and sets the slot as the builder answered |
| Ddae.DdaeAuthentication.Disconnect | ddae/ddae.py:102-118 | raises TypeError exactly when the log line cannot be built; otherwise closes the session when there is one, and a failing close is swallowed |
| Ddae.QualifiedNameSplit | ddae/ddae.py:229 | with no '.' in the parts, the qualified name splits back into catalog, schema and table |
| Ddae.SchemaStatementText | ddae/ddae.py:139 | the schema statement is `CREATE SCHEMA IF NOT EXISTS c.s WITH (location = 'l')` |
| Ddae.HiveTableStatementText | ddae/ddae.py:143-144 | the hive statement creates `c.s.t (cols)` with `external_location = '` + location + table name + `'` and `format = 'PARQUET'` |
| Ddae.IcebergTableStatementText | ddae/ddae.py:192-193 | the iceberg statement is the hive one with the key `location` |
| Ddae.DropTableStatementText | ddae/ddae.py:159 | the statement is `DROP TABLE IF EXISTS c.s.t` |
| Ddae.DropSchemaStatementText | ddae/ddae.py:174 | the statement is `DROP SCHEMA IF EXISTS c.s` |
| Ddae.CatalogsStatementText | ddae/ddae.py:207 | the catalog query is `select * from system.metadata.catalogs` |
| Ddae.CustomerQueryText | ddae/ddae.py:248 | the customer query is `SELECT * FROM c.s.t LIMIT 10` |
| Ddae.OffsetIsLength | ddae/ddae.py:211-213 | the list built from the first k names is as long as the sum of (name length + 2) over them |
| Ddae.CatalogListLength | ddae/ddae.py:211-213 | the catalog list's length is the sum of (name length + 2) over all names |
| Ddae.CatalogListPrefix | ddae/ddae.py:211-213 | the list of the first k names is a prefix of the whole list |
| Ddae.CatalogListEntry | ddae/ddae.py:211-213 | at the offset of entry k the list holds names[k] followed by ", " |
| Ddae.CatalogNames | ddae/ddae.py:212-213 | on success there is one name per row, in row order, each the row's string `catalog_name`; a failure is KeyError or TypeError and some row lacks a string `catalog_name` |
| Ddae.CatalogNamesFailurePersists | ddae/ddae.py:212-213 | once a prefix of the rows fails, the loop over all rows fails in the same way |
| Ddae.JoinCatalogNames | ddae/ddae.py:211-213 | the loop returns the catalog list of the rows, or the exception of the first bad row |
| Ddae.DdaeDataProcessor.constructor | ddae/ddae.py:126-130 | the configuration and the authentication object are stored as given |
| Ddae.DdaeDataProcessor.Query | ddae/ddae.py:140 | issues one query exactly when the slot holds a session; succeeds exactly when it did and the query did not raise |
| Ddae.DdaeDataProcessor.QueryBoth | ddae/ddae.py:137-149 | the two statements are issued as `Queries` says: the second only after the first succeeded |
| Ddae.QueriesOne | ddae/ddae.py:156-164 | one statement on a session is exactly one query, whatever it answers |
| Ddae.QueriesTwo | ddae/ddae.py:137-149 | two statements on a session: the second is issued exactly when the first did not raise |
| Ddae.QueriesPrefix | ddae/ddae.py:137-149 | the queries issued are the first k statements in order, and all of them when none raises |
| Ddae.HiveTableRequests | ddae/ddae.py:132-149 | on a session with string names: the schema statement, then the hive table statement unless the first raised; returns normally |
| Ddae.IcebergTableRequests | ddae/ddae.py:181-198 | the same as the hive table, with the iceberg statement |
| Ddae.DropRequests | ddae/ddae.py:151-179 | each drop issues exactly its one statement and returns normally even when it raises |
| Ddae.NoSessionNoRequests | ddae/ddae.py:132-265 | with '' or None in the slot no processor method issues anything |
| Ddae.ProcessorRaises | ddae/ddae.py:132-265 | the table and drop methods raise exactly when a logged name is not a string, and then the outcome is TypeError with nothing issued; listing, details and customer data never raise |
| Ddae.ListCatalogsLogged | ddae/ddae.py:200-220 | issues the catalog query once; logs a list exactly when the query returned and every row has a string name, and that list is the names each followed by ", " |
| Ddae.CustomerReportIff | ddae/ddae.py:241-265 | issues the customer query once; reports rows (with their count) exactly when at least one came back, and "no data" exactly when none did |
| Ddae.DdaeDataProcessor.CreateHiveTable | ddae/ddae.py:132-149 | issues and raises exactly as HiveTableSpec says |
| Ddae.DdaeDataProcessor.CreateIcebergTable | ddae/ddae.py:181-198 | issues and raises exactly as IcebergTableSpec says |
| Ddae.DdaeDataProcessor.DropTable | ddae/ddae.py:151-164 | issues and raises exactly as DropTableSpec says |
| Ddae.DdaeDataProcessor.DropSchema | ddae/ddae.py:166-179 | issues and raises exactly as DropSchemaSpec says |
| Ddae.DdaeDataProcessor.GetListOfCatalogs | ddae/ddae.py:200-220 | issues and logs exactly as ListCatalogsSpec says |
| Ddae.DdaeDataProcessor.GetTableDetails | ddae/ddae.py:222-239 | issues one table lookup on a session with string names, else nothing, and never raises |
| Ddae.DdaeDataProcessor.GetCustomerData | ddae/ddae.py:241-265 | issues and reports exactly as CustomerDataSpec says |
| Collaborators.CaughtClientError | dell-pystarburst-demo.py:200-208 | after `except ClientError` the trace is the block's own, the run continues exactly when the block did not raise or raised ClientError, and any other exception propagates unchanged |
| Demo.DemoShutdown.constructor | dell-pystarburst-demo.py:34-39 | the flag starts lowered |
| Demo.DemoShutdown.ControlledShutdown | dell-pystarburst-demo.py:41-42 | the handler raises the flag, and calling it again keeps it raised |
| Demo.ValidatedHasConnectionKeys | dell-pystarburst-demo.py:77-82 | a constructed configuration has every key that `__main__` and `dell_ddae_session` look up |
| Demo.S3EndpointIsUrl | dell-pystarburst-demo.py:142-143 | the endpoint exists exactly when protocol, host and port are strings, and then it is protocol + "://" + host + ":" + port, the same as the DDAE URL |
| Demo.S3EndpointSplit | dell-pystarburst-demo.py:142-143 | with no ':' in the parts, the endpoint splits back into protocol, "//" + host and port |
| Demo.ConfigFailureIssuesNothing | dell-pystarburst-demo.py:45-61 | a configuration that does not load issues no request and ends the run with AttributeError |
| Demo.NotConnectedIssuesAtMostCreate | dell-pystarburst-demo.py:64-111 | the session step is False exactly when connect raised or the builder returned None, and then at most the builder was called: no query, no S3 request |
| Demo.FailedCreateStillConnected | dell-pystarburst-demo.py:84-105 | when the builder raises, the slot stays '' and the step still returns True, having issued only the builder call |
| Demo.RunSpecLoaded | dell-pystarburst-demo.py:117-138 | once the configuration loads, the run is the session step followed, when connected, by the scenario |
| Demo.StepsStopped | dell-pystarburst-demo.py:119-284 | once an exception is unwinding, no stage issues anything more |
| Demo.CustomerAppendsAtMostQuery | dell-pystarburst-demo.py:212-213 | each customer-data step adds at most its one query and leaves the status as it was |
| Demo.RestoreReusesVersionId | dell-pystarburst-demo.py:216-239 | after the plain delete and the customer query that follows it, the very next request deletes the same key with the VersionId that delete returned, bypassing governance; a response without VersionId raises KeyError and deletes nothing more |
| Demo.DeletesPointwise | dell-pystarburst-demo.py:250-265 | one delete per entry, in order, with the entry's key and version and bypass set |
| Demo.CleanupRequests | dell-pystarburst-demo.py:249-265 | when nothing raises: the listing, then one delete per version, then one per delete marker; 1 + \|Versions\| + \|DeleteMarkers\| requests, none for an absent key |
| Demo.CleanupPrefix | dell-pystarburst-demo.py:249-265 | whatever raises, the requests are the listing followed by a prefix of the versions-then-markers deletes |
| Demo.CloseWithoutSession | dell-pystarburst-demo.py:280 | closing a slot with no session raises AttributeError and issues nothing |
| Demo.TeardownOrder | dell-pystarburst-demo.py:266-280 | on a session, with nothing raising, the bucket is deleted, then the table dropped, then the schema, then the session closed |
| Demo.CleanupThenTeardown | dell-pystarburst-demo.py:249-280 | on a session, with nothing raising, the bucket delete comes right after the last cleanup delete: listing, version deletes, marker deletes, bucket delete, drop table, drop schema, close |
| Demo.DemoProgram.constructor | dell-pystarburst-demo.py:27-31 | the globals start as None |
| Demo.DemoProgram.DemoConfig | dell-pystarburst-demo.py:45-61 | keeps the configuration exactly when it loads (and it is then validated), else raises AttributeError and keeps the old value |
| Demo.DemoProgram.DdaeSession | dell-pystarburst-demo.py:64-111 | returns and issues what SessionSpec says; when connected the stored session carries the DDAE_SESSION protocol, host, user, password, port, catalog and schema and a processor on it is stored, and when not connected both globals keep their old values |
| Demo.DemoProgram.ConnectS3 | dell-pystarburst-demo.py:142-146 | issues and raises exactly as S3ClientSpec says |
| Demo.DemoProgram.PrepareBucket | dell-pystarburst-demo.py:150-187 | issues and raises exactly as BucketSpec says |
| Demo.DemoProgram.CreateTableAndLoad | dell-pystarburst-demo.py:190-213 | issues and raises exactly as TableAndDataSpec says |
| Demo.DemoProgram.DeleteAndRestore | dell-pystarburst-demo.py:216-245 | issues and raises exactly as DeleteAndRestoreSpec says |
| Demo.DemoProgram.DeleteEntries | dell-pystarburst-demo.py:251-256 | issues the deletes one by one and stops at the first that raises, as CallAll over Deletes says |
| Demo.DemoProgram.Cleanup | dell-pystarburst-demo.py:249-265 | issues and raises exactly as CleanupSpec says |
| Demo.DemoProgram.Teardown | dell-pystarburst-demo.py:266-280 | issues and raises exactly as TeardownSpec says |
| Demo.DemoProgram.Scenario | dell-pystarburst-demo.py:142-280 | issues and raises exactly as ScenarioSpec says, stopping at the first exception |
| Demo.DemoProgram.Connected | dell-pystarburst-demo.py:138-280 | issues and raises exactly as ConnectedSpec says |
| Demo.DemoProgram.Run | dell-pystarburst-demo.py:117-284 | the whole run issues and raises exactly as RunSpec says |

## Left out

- The body of s3/GetConnection.py (the `boto3.client` call) is not modelled. Creating the S3 client is the single request `CreateS3Client(endpoint, useSsl, accessKey, secretKey)`, where `useSsl` is the `secure` argument (False) that becomes boto3's `use_ssl`.
- All real behaviour of boto3, trino and pystarburst (buckets, versioning, object lock, delete markers, SQL execution) is left out. The `World` stands in for their answers.
- File I/O is left out. `os.path.exists`, opening and parsing the JSON file, `os.getcwd` and the path joins are inputs: the set of existing paths, the parsed document and the data file path.
- The message of the parse-failure exception is not modelled, because it uses `e.message`. The failure is the bare `ParseFailure`.
- Logging, `print`, `tabulate`, `print_table_data` and traceback formatting are left out. Only their effect on control flow is kept: a log or print line that concatenates a non-string raises TypeError.
- Signal registration is left out, and so is the `time.sleep` wait loop in `dell_ddae_session`. The loop cannot spin, because a failed configuration ends the run before it.
- JSON floats, arrays and objects are not modelled as configuration values. `Value` is null, bool, integer or string.
- A configuration file whose top-level value is not a JSON object is not modelled. `Document` is a map of sections, so the TypeError the source raises at its first subscript (line 45) is not modelled.
- A section that is not a JSON object (say `"DELL_S3_CONNECTION": 5`) is not modelled. `Document` maps each section name to a map, so the TypeError the source raises at its first subscript of such a section is not modelled.
- The `module_name` parameter of `get_customer_data` is left out. It only feeds prints.
- The `response_xml_file` attribute and the constant `INTERVAL` are never read, so they are not modelled. `MODULE_NAME` and `CONFIG_FILE` only feed prints and the path joins, so they are not modelled either.
- The `Key` and `VersionId` of listing entries are assumed present. The `VersionId` returned by the plain delete is assumed to be a string when present. A missing entry key raising KeyError is not modelled.
- Strings.Upper: maps only ASCII letters, not Python's full Unicode `str.upper`.
- Ddae.DdaeAuthentication.GetToken: returns the slot unchanged and has no contract of its own.
- Ddae.QueriesPrefix: states the two directions separately and not as an iff. A trace holding every statement does not say whether the last one raised, because the processor catches the exception.
- Demo.DemoProgram.PrepareBucket: nothing is proved about what the store does with the literal bucket name. The print at line 183 concatenates the bucket a second time and is not checked again, because the print at line 159 has already checked it.
- Demo.DemoProgram.Run: the exception handler's print in `__main__` is not modelled. The run ends with the fault as its result.
