/**
 * The demo program `dell-pystarburst-demo.py`: load the configuration,
 * open a DDAE (Starburst) session, then run the object-lock scenario against
 * the S3 store and the DDAE, one step after the other, and clean up.
 *
 * Each step appends its requests to the trace of the Services. The stage
 * functions below say what each part of `__main__` issues from a given
 * progress, and DemoProgram runs the same steps imperatively; its methods are
 * proved equal to the stage functions. Only `upload_file` (ClientError) and
 * the DDAE processor methods catch exceptions; everything else that raises
 * ends `__main__` in its outer `except`.
 */
module Demo {
  import opened Wrappers
  import opened Json
  import opened Collaborators
  import opened Configuration
  import opened Ddae
  import Strings

  /** The object key of the test parquet file, both when uploading and when deleting it. */
  const ParquetKey: string := "hive/customer/20240716_195545_07788_nxv46_b7038b63-56dc-4c8e-8b2d-595a2e2a4a84"

  /** The bucket the first object-lock query names literally, whatever the configured bucket. */
  const LiteralBucket: Value := Str("dell-pystarburst-demo")

  const RetentionMode: string := "GOVERNANCE"
  const RetentionDays: nat := 1

  // ------------------------------------------------------------------
  // Controlled shutdown

  /** The flag the SIGINT and SIGTERM handler raises; the program never lowers it. */
  class DemoShutdown {
    var killNow: bool

    constructor ()
      ensures !killNow
    {
      killNow := false;
    }

    /** The signal handler; calling it again keeps the flag raised. */
    method ControlledShutdown()
      modifies this
      ensures killNow
    {
      killNow := true;
    }
  }

  // ------------------------------------------------------------------
  // The S3 endpoint

  /** The keys `__main__` and `dell_ddae_session` look up; a constructed configuration has them all. */
  predicate HasConnectionKeys(c: Configuration)
  {
    S3Keys <= c.dellS3Connection.Keys && SessionKeys <= c.ddaeSession.Keys
  }

  lemma ValidatedHasConnectionKeys(c: Configuration)
    requires Validated(c)
    ensures HasConnectionKeys(c)
  {
    forall k | k in S3Keys ensures k in c.dellS3Connection {
    }
    forall k | k in SessionKeys ensures k in c.ddaeSession {
    }
  }

  /**
   * `protocol + "://" + host + ":" + port` over the S3 connection map; the
   * concatenation raises TypeError (None here) unless all three are strings.
   */
  function S3Endpoint(connection: Section): Option<string>
    requires "protocol" in connection && "host" in connection && "port" in connection
  {
    var protocol, host, port := connection["protocol"], connection["host"], connection["port"];
    if protocol.Str? && host.Str? && port.Str? then Some(protocol.s + "://" + host.s + ":" + port.s) else None
  }

  /**
   * The endpoint exists exactly when protocol, host and port are strings (a
   * numeric port from the JSON file makes `__main__` raise), and then it is
   * the same text as the DDAE URL built from those values.
   */
  lemma S3EndpointIsUrl(connection: Section)
    requires "protocol" in connection && "host" in connection && "port" in connection
    ensures var protocol, host, port := connection["protocol"], connection["host"], connection["port"];
      && (S3Endpoint(connection).Some? <==> protocol.Str? && host.Str? && port.Str?)
      && (S3Endpoint(connection).Some? ==> S3Endpoint(connection).value == Url(protocol, host, port))
  {
    UrlText(connection["protocol"], connection["host"], connection["port"]);
  }

  /** With no ':' in the parts, the endpoint splits back into protocol, "//" + host and port. */
  lemma S3EndpointSplit(connection: Section)
    requires "protocol" in connection && "host" in connection && "port" in connection
    requires connection["protocol"].Str? && connection["host"].Str? && connection["port"].Str?
    requires ':' !in connection["protocol"].s && ':' !in connection["host"].s && ':' !in connection["port"].s
    ensures Strings.Split(S3Endpoint(connection).value, ':') ==
      [connection["protocol"].s, "//" + connection["host"].s, connection["port"].s]
  {
    S3EndpointIsUrl(connection);
    UrlSplit(connection["protocol"].s, connection["host"].s, connection["port"].s);
  }

  // ------------------------------------------------------------------
  // The steps of __main__, as functions of the progress so far

  /** What the scenario steps read: the configuration, the session slot and the test data file path. */
  datatype Context = Context(config: Configuration, slot: Slot, dataFile: string)

  /** The print statements at lines 191 and 271 concatenate catalog, schema and table name. */
  predicate TableNamesPrintable(c: Configuration)
  {
    c.ddaeCatalog.Str? && c.ddaeSchema.Str? && c.ddaeTableNameCustomer.Str?
  }

  /** `ServiceFault` of the call fault, if any. */
  function RaisedBy(fault: Option<CallFault>): (r: Option<Fault>)
    ensures r.None? <==> fault.None?
  {
    match fault
    case None => None
    case Some(f) => Some(ServiceFault(f))
  }

  /** Lines 142-146: the endpoint, then the S3 client (with `secure`, boto3's `use_ssl`, False). */
  function S3ClientSpec(w: World, p: Progress, c: Configuration): Progress
    requires HasConnectionKeys(c)
  {
    var connection := c.dellS3Connection;
    var endpoint := S3Endpoint(connection);
    var p1 := Collaborators.Check(p, endpoint.Some?, TypeError);
    if !p1.status.Running? then p1
    else Call(w, p1, CreateS3Client(endpoint.value, false, connection["s3AccessKey"], connection["s3SecretKey"]))
  }

  /**
   * Steps 1 and 2 (lines 150-187): create the bucket with object lock,
   * enable versioning, read the lock configuration, add the governance rule
   * and read it again. The print at line 159 concatenates the bucket name.
   */
  function BucketSpec(w: World, p: Progress, bucket: Value): Progress
  {
    var p1 := Call(w, p, CreateBucket(bucket, true));
    var p2 := Call(w, p1, PutBucketVersioning(bucket, "Enabled"));
    var p3 := Call(w, p2, GetObjectLockConfiguration(LiteralBucket));
    var p4 := Collaborators.Check(p3, bucket.Str?, TypeError);
    var p5 := Call(w, p4, PutObjectLockConfiguration(bucket, RetentionMode, RetentionDays));
    Call(w, p5, GetObjectLockConfiguration(bucket))
  }

  /** get_customer_data on the configured table, for its effect on the progress. */
  function CustomerSpec(w: World, p: Progress, ctx: Context): Progress
  {
    CustomerDataSpec(w, p, ctx.slot, ctx.config.ddaeCatalog, ctx.config.ddaeSchema, ctx.config.ddaeTableNameCustomer).progress
  }

  /**
   * Steps 3 to 5 (lines 190-213): the hive schema and table, the upload of
   * the parquet file (a ClientError is logged and the demo goes on), and the
   * customer query.
   */
  function TableAndDataSpec(w: World, p: Progress, ctx: Context): Progress
  {
    var c := ctx.config;
    var p1 := Collaborators.Check(p, TableNamesPrintable(c), TypeError);
    var p2 := HiveTableSpec(w, p1, ctx.slot, c.ddaeCatalog, c.ddaeSchema, c.ddaeTableNameCustomer,
                            c.ddaeTableLocation, c.ddaeTableSchemaCustomer);
    var p3 := CaughtClientError(p2, Call(w, p2, UploadFile(ctx.dataFile, c.dellLakehouseS3Bucket, ParquetKey)));
    CustomerSpec(w, p3, ctx)
  }

  /**
   * Steps 6 to 9 (lines 216-245): a plain delete of the parquet file, the
   * customer query, then the delete of the version the plain delete returned
   * (bypassing governance), and the customer query once more. Reading
   * `VersionId` from a response without it raises KeyError.
   */
  function DeleteAndRestoreSpec(w: World, p: Progress, ctx: Context): Progress
  {
    var bucket := ctx.config.dellLakehouseS3Bucket;
    var p1 := Call(w, p, DeleteObject(bucket, ParquetKey, None, false));
    var versionId := w.versionId(|p.trace|);
    var p2 := CustomerSpec(w, p1, ctx);
    var p3 := Collaborators.Check(p2, versionId.Some?, KeyError);
    var p4 := Call(w, p3, DeleteObject(bucket, ParquetKey, versionId, true));
    CustomerSpec(w, p4, ctx)
  }

  /** The entries of a listing key; an absent key gives none. */
  function Entries(entries: Option<seq<ObjectVersion>>): seq<ObjectVersion>
  {
    if entries.Some? then entries.value else []
  }

  /** One delete per entry, in listing order, with the entry's key and version, bypassing governance. */
  function Deletes(bucket: Value, entries: seq<ObjectVersion>): seq<Request>
  {
    seq(|entries|, i requires 0 <= i < |entries| => DeleteObject(bucket, entries[i].key, Some(entries[i].versionId), true))
  }

  /** Step 10 (lines 249-265): list the versions, delete every version, then every delete marker. */
  function CleanupSpec(w: World, p: Progress, bucket: Value): Progress
  {
    var listing := w.listing(|p.trace|);
    var p1 := Call(w, p, ListObjectVersions(bucket));
    var p2 := CallAll(w, p1, Deletes(bucket, Entries(listing.versions)));
    CallAll(w, p2, Deletes(bucket, Entries(listing.deleteMarkers)))
  }

  /** Step 13 (line 280): `_ddaeSession.sep_session.close()`; '' has no `close` (AttributeError). */
  function CloseSpec(w: World, p: Progress, slot: Slot): Progress
  {
    if slot.Live? then Call(w, p, CloseSession(slot.handle)) else Collaborators.Check(p, false, AttributeError)
  }

  /** Steps 11 to 13 (lines 267-280): delete the bucket, drop the table, drop the schema, close the session. */
  function TeardownSpec(w: World, p: Progress, ctx: Context): Progress
  {
    var c := ctx.config;
    var p1 := Call(w, p, DeleteBucket(c.dellLakehouseS3Bucket));
    var p2 := Collaborators.Check(p1, TableNamesPrintable(c), TypeError);
    var p3 := DropTableSpec(w, p2, ctx.slot, c.ddaeCatalog, c.ddaeSchema, c.ddaeTableNameCustomer);
    var p4 := Collaborators.Check(p3, c.ddaeCatalog.Str? && c.ddaeSchema.Str?, TypeError);
    var p5 := DropSchemaSpec(w, p4, ctx.slot, c.ddaeCatalog, c.ddaeSchema);
    CloseSpec(w, p5, ctx.slot)
  }

  /** Everything `__main__` does once `dell_ddae_session` returned True. */
  function ScenarioSpec(w: World, p: Progress, ctx: Context): Progress
    requires HasConnectionKeys(ctx.config)
  {
    var p1 := S3ClientSpec(w, p, ctx.config);
    var p2 := BucketSpec(w, p1, ctx.config.dellLakehouseS3Bucket);
    var p3 := TableAndDataSpec(w, p2, ctx);
    var p4 := DeleteAndRestoreSpec(w, p3, ctx);
    var p5 := CleanupSpec(w, p4, ctx.config.dellLakehouseS3Bucket);
    TeardownSpec(w, p5, ctx)
  }

  /** What `dell_ddae_session` leaves: the requests, its return value, and the session slot. */
  datatype SessionOutcome = SessionOutcome(progress: Progress, connected: bool, slot: Slot)

  /**
   * `dell_ddae_session`: connect (its TypeError is caught and gives False);
   * False when the slot holds None; otherwise the session is kept, the
   * catalogs are listed, and True. The `if not _ddaeSession` branch cannot
   * be taken, since the object is always truthy.
   */
  function SessionSpec(w: World, trace: seq<Request>, c: Configuration): SessionOutcome
    requires HasConnectionKeys(c)
  {
    var m := c.ddaeSession;
    if !Loggable(m["user"], m["catalog"], m["schema"]) then SessionOutcome(Progress(trace, Running), false, Blank)
    else
      var p := Progress(trace + [CreateSession(DbParametersFor(m["protocol"], m["host"], m["user"], m["password"], m["port"]))], Running);
      var slot := SlotAfterCreate(w, |trace|, Blank);
      if slot == NoSession then SessionOutcome(p, false, slot)
      else SessionOutcome(ListCatalogsSpec(w, p, slot).progress, true, slot)
  }

  /**
   * The whole of `__main__`, from an empty trace: a configuration that fails
   * to load makes the handler call `_logger.error` on None (AttributeError),
   * which ends the program; when the session is not connected nothing more
   * happens.
   */
  function RunSpec(w: World, config: string, tempDir: string, existing: set<string>, parsed: Option<Document>,
                   dataFile: string): Progress
  {
    match Load(Some(config), Some(tempDir), existing, parsed)
    case Failure(_) => Progress([], Raising(AttributeError))
    case Success(c) =>
      LoadedIsValidated(Some(config), Some(tempDir), existing, parsed, c);
      ValidatedHasConnectionKeys(c);
      ConnectedSpec(w, c, dataFile)
  }

  /** After the configuration loaded: `dell_ddae_session`, and the scenario when it returned True. */
  function ConnectedSpec(w: World, c: Configuration, dataFile: string): Progress
    requires HasConnectionKeys(c)
  {
    var s := SessionSpec(w, [], c);
    if !s.connected then s.progress else ScenarioSpec(w, s.progress, Context(c, s.slot, dataFile))
  }

  // ------------------------------------------------------------------
  // Properties of the steps

  /** Once the configuration loads, `__main__` is the session step followed, if connected, by the scenario. */
  lemma RunSpecLoaded(w: World, config: string, tempDir: string, existing: set<string>, parsed: Option<Document>,
                      dataFile: string, c: Configuration)
    requires Load(Some(config), Some(tempDir), existing, parsed) == Success(c)
    ensures HasConnectionKeys(c)
    ensures RunSpec(w, config, tempDir, existing, parsed, dataFile) == ConnectedSpec(w, c, dataFile)
  {
    LoadedIsValidated(Some(config), Some(tempDir), existing, parsed, c);
    ValidatedHasConnectionKeys(c);
  }

  /** Once an exception is unwinding, no step issues anything more. */
  lemma StepsStopped(w: World, p: Progress, ctx: Context)
    requires !p.status.Running? && HasConnectionKeys(ctx.config)
    ensures S3ClientSpec(w, p, ctx.config) == p
    ensures BucketSpec(w, p, ctx.config.dellLakehouseS3Bucket) == p
    ensures TableAndDataSpec(w, p, ctx) == p
    ensures DeleteAndRestoreSpec(w, p, ctx) == p
    ensures CleanupSpec(w, p, ctx.config.dellLakehouseS3Bucket) == p
    ensures TeardownSpec(w, p, ctx) == p
    ensures ScenarioSpec(w, p, ctx) == p
  {
    var b := ctx.config.dellLakehouseS3Bucket;
    var listing := w.listing(|p.trace|);
    CallAllStopped(w, p, Deletes(b, Entries(listing.versions)));
    CallAllStopped(w, p, Deletes(b, Entries(listing.deleteMarkers)));
  }

  /** A configuration that does not load issues no request and ends the program. */
  lemma ConfigFailureIssuesNothing(w: World, config: string, tempDir: string, existing: set<string>,
                                   parsed: Option<Document>, dataFile: string)
    requires Load(Some(config), Some(tempDir), existing, parsed).Failure?
    ensures RunSpec(w, config, tempDir, existing, parsed, dataFile) == Progress([], Raising(AttributeError))
  {
  }

  /**
   * `dell_ddae_session` is False exactly when connect raised (a user,
   * catalog or schema that is not a string) or the builder returned None,
   * and then at most the session builder was called: no S3 request, no query.
   */
  lemma NotConnectedIssuesAtMostCreate(w: World, trace: seq<Request>, c: Configuration)
    requires HasConnectionKeys(c)
    ensures var s := SessionSpec(w, trace, c);
      var m := c.ddaeSession;
      && (!s.connected <==> !Loggable(m["user"], m["catalog"], m["schema"]) || SlotAfterCreate(w, |trace|, Blank) == NoSession)
      && (!s.connected ==>
            && s.progress.status.Running? && |trace| <= |s.progress.trace| <= |trace| + 1
            && s.progress.trace[..|trace|] == trace
            && forall i :: |trace| <= i < |s.progress.trace| ==> s.progress.trace[i].CreateSession?)
  {
  }

  /**
   * When the session builder raises, the slot stays '' and the demo still
   * counts as connected; the catalog query is skipped.
   */
  lemma FailedCreateStillConnected(w: World, trace: seq<Request>, c: Configuration)
    requires HasConnectionKeys(c)
    requires Loggable(c.ddaeSession["user"], c.ddaeSession["catalog"], c.ddaeSession["schema"])
    requires w.fails(|trace|).Some?
    ensures var s := SessionSpec(w, trace, c);
      && s.connected && s.slot == Blank
      && s.progress.trace == trace + [CreateSession(DbParametersFor(c.ddaeSession["protocol"], c.ddaeSession["host"],
                                         c.ddaeSession["user"], c.ddaeSession["password"], c.ddaeSession["port"]))]
  {
  }

  /** Closing without a session raises AttributeError and issues nothing. */
  lemma CloseWithoutSession(w: World, p: Progress, slot: Slot)
    requires p.status.Running? && !slot.Live?
    ensures CloseSpec(w, p, slot) == Progress(p.trace, Raising(AttributeError))
  {
  }

  /**
   * The restore deletes the same key with the VersionId of the plain delete,
   * bypassing governance: delete, then the customer query (at most one
   * request), then the restore delete right after it.
   */
  lemma RestoreReusesVersionId(w: World, p: Progress, ctx: Context)
    requires p.status.Running? && w.fails(|p.trace|).None?
    ensures var q := DeleteAndRestoreSpec(w, p, ctx);
      var b := ctx.config.dellLakehouseS3Bucket;
      var v := w.versionId(|p.trace|);
      && |p.trace| < |q.trace| && q.trace[..|p.trace| + 1] == p.trace + [DeleteObject(b, ParquetKey, None, false)]
      && (v.None? ==> q.status == Raising(KeyError) && forall j :: |p.trace| < j < |q.trace| ==> !q.trace[j].DeleteObject?)
      && (v.Some? ==> exists j :: |p.trace| < j < |q.trace| && q.trace[j] == DeleteObject(b, ParquetKey, v, true))
    ensures var q := DeleteAndRestoreSpec(w, p, ctx);
      var b := ctx.config.dellLakehouseS3Bucket;
      var v := w.versionId(|p.trace|);
      var queried := CustomerSpec(w, Call(w, p, DeleteObject(b, ParquetKey, None, false)), ctx).trace;
      v.Some? ==>
        && |p.trace| + 1 <= |queried| <= |p.trace| + 2 && |queried| < |q.trace|
        && (forall j :: |p.trace| < j < |queried| ==> queried[j].Sql?)
        && q.trace[..|queried| + 1] == queried + [DeleteObject(b, ParquetKey, v, true)]
  {
    var b := ctx.config.dellLakehouseS3Bucket;
    var p1 := Call(w, p, DeleteObject(b, ParquetKey, None, false));
    var p2 := CustomerSpec(w, p1, ctx);
    CustomerAppendsAtMostQuery(w, p1, ctx);
    var v := w.versionId(|p.trace|);
    var p3 := Collaborators.Check(p2, v.Some?, KeyError);
    var p4 := Call(w, p3, DeleteObject(b, ParquetKey, v, true));
    CustomerAppendsAtMostQuery(w, p4, ctx);
    assert p2.trace[..|p.trace| + 1] == p1.trace;
    if v.Some? {
      assert p4.trace[|p2.trace|] == DeleteObject(b, ParquetKey, v, true);
      assert p4.trace == p2.trace + [DeleteObject(b, ParquetKey, v, true)];
      var q := DeleteAndRestoreSpec(w, p, ctx);
      assert q.trace[..|p4.trace|] == p4.trace;
      assert q.trace[..|p2.trace| + 1] == p4.trace;
    }
  }

  /** get_customer_data appends at most its one query. */
  lemma CustomerAppendsAtMostQuery(w: World, p: Progress, ctx: Context)
    ensures var q := CustomerSpec(w, p, ctx);
      && q.status == p.status
      && |p.trace| <= |q.trace| <= |p.trace| + 1 && q.trace[..|p.trace|] == p.trace
      && forall j :: |p.trace| <= j < |q.trace| ==> q.trace[j].Sql?
  {
  }

  /** The deletes are one per entry, in order, with the entry's key and version and bypass. */
  lemma DeletesPointwise(bucket: Value, entries: seq<ObjectVersion>)
    ensures |Deletes(bucket, entries)| == |entries|
    ensures forall i :: 0 <= i < |entries| ==>
      Deletes(bucket, entries)[i] == DeleteObject(bucket, entries[i].key, Some(entries[i].versionId), true)
  {
  }

  /** The deletes of two lists of entries, one after the other, are the deletes of their concatenation. */
  lemma DeletesConcat(bucket: Value, a: seq<ObjectVersion>, b: seq<ObjectVersion>)
    ensures Deletes(bucket, a + b) == Deletes(bucket, a) + Deletes(bucket, b)
  {
    var l, r := Deletes(bucket, a + b), Deletes(bucket, a) + Deletes(bucket, b);
    assert |l| == |r|;
    forall i | 0 <= i < |l| ensures l[i] == r[i] {
      if i < |a| {
        assert (a + b)[i] == a[i];
      } else {
        assert (a + b)[i] == b[i - |a|];
      }
    }
  }

  /**
   * When none of its calls raises, the cleanup lists the versions and then
   * deletes every version followed by every delete marker: 1 + |Versions| +
   * |DeleteMarkers| requests, and none for an absent key.
   */
  lemma CleanupRequests(w: World, p: Progress, bucket: Value)
    requires p.status.Running?
    requires var l := w.listing(|p.trace|);
      forall k :: |p.trace| <= k <= |p.trace| + |Entries(l.versions)| + |Entries(l.deleteMarkers)| ==> w.fails(k).None?
    ensures var l := w.listing(|p.trace|);
      var q := CleanupSpec(w, p, bucket);
      && q.status.Running?
      && q.trace == p.trace + [ListObjectVersions(bucket)] + Deletes(bucket, Entries(l.versions)) + Deletes(bucket, Entries(l.deleteMarkers))
      && |q.trace| == |p.trace| + 1 + |Entries(l.versions)| + |Entries(l.deleteMarkers)|
  {
    var l := w.listing(|p.trace|);
    var vs, ms := Deletes(bucket, Entries(l.versions)), Deletes(bucket, Entries(l.deleteMarkers));
    var p1 := Call(w, p, ListObjectVersions(bucket));
    CallAllPrefix(w, p1, vs);
    var p2 := CallAll(w, p1, vs);
    var k :| 0 <= k <= |vs| && p2.trace == p1.trace + vs[..k] && (p2.status.Running? ==> k == |vs|);
    assert vs[..k] == vs;
    CallAllPrefix(w, p2, ms);
    var q := CallAll(w, p2, ms);
    var k2 :| 0 <= k2 <= |ms| && q.trace == p2.trace + ms[..k2] && (q.status.Running? ==> k2 == |ms|);
    assert ms[..k2] == ms;
  }

  /** Whatever raises, the cleanup's requests are the listing followed by a prefix of the versions-then-markers deletes. */
  lemma CleanupPrefix(w: World, p: Progress, bucket: Value)
    requires p.status.Running?
    ensures var l := w.listing(|p.trace|);
      var all := [ListObjectVersions(bucket)] + Deletes(bucket, Entries(l.versions)) + Deletes(bucket, Entries(l.deleteMarkers));
      var q := CleanupSpec(w, p, bucket);
      exists k :: 1 <= k <= |all| && q.trace == p.trace + all[..k]
  {
    var l := w.listing(|p.trace|);
    var vs, ms := Deletes(bucket, Entries(l.versions)), Deletes(bucket, Entries(l.deleteMarkers));
    var r := ListObjectVersions(bucket);
    var rest := vs + ms;
    var p1 := Call(w, p, r);
    var q := CleanupSpec(w, p, bucket);
    assert q == CallAll(w, p1, rest) by {
      CallAllConcat(w, p1, vs, ms);
    }
    if p1.status.Running? {
      CallAllPrefix(w, p1, rest);
      var k :| 0 <= k <= |rest| && q.trace == p1.trace + rest[..k] && (q.status.Running? ==> k == |rest|);
      PrefixAfterFirst(p.trace, r, vs, ms, k);
    } else {
      CallAllStopped(w, p1, rest);
      PrefixAfterFirst(p.trace, r, vs, ms, 0);
    }
  }

  /** Sequence bookkeeping for CleanupPrefix. */
  lemma PrefixAfterFirst(t: seq<Request>, r: Request, vs: seq<Request>, ms: seq<Request>, k: nat)
    requires k <= |vs + ms|
    ensures t + [r] + (vs + ms)[..k] == t + ([r] + vs + ms)[..k + 1]
  {
    assert ([r] + vs + ms)[..k + 1] == [r] + (vs + ms)[..k];
  }

  /**
   * On a live session with string names, and when neither the bucket
   * delete nor the close raises, the teardown deletes the bucket, drops the
   * table, drops the schema and closes the session, in that order.
   */
  lemma TeardownOrder(w: World, p: Progress, ctx: Context, h: SessionHandle)
    requires p.status.Running? && ctx.slot == Live(h) && TableNamesPrintable(ctx.config)
    requires w.fails(|p.trace|).None? && w.fails(|p.trace| + 3).None?
    ensures var c := ctx.config;
      TeardownSpec(w, p, ctx) == Progress(p.trace + [DeleteBucket(c.dellLakehouseS3Bucket),
        Sql(h, DropTableStatement(c.ddaeCatalog, c.ddaeSchema, c.ddaeTableNameCustomer)),
        Sql(h, DropSchemaStatement(c.ddaeCatalog, c.ddaeSchema)), CloseSession(h)], Running)
  {
    var c := ctx.config;
    var p1 := Call(w, p, DeleteBucket(c.dellLakehouseS3Bucket));
    DropRequests(w, p1, h, c.ddaeCatalog.s, c.ddaeSchema.s, c.ddaeTableNameCustomer.s);
    var p3 := DropTableSpec(w, p1, ctx.slot, c.ddaeCatalog, c.ddaeSchema, c.ddaeTableNameCustomer);
    DropRequests(w, p3, h, c.ddaeCatalog.s, c.ddaeSchema.s, c.ddaeTableNameCustomer.s);
  }

  /**
   * On a live session with string names, and when none of the cleanup
   * calls, the bucket delete or the close raises, the bucket is deleted
   * right after the last cleanup delete, and the teardown follows in order.
   */
  lemma CleanupThenTeardown(w: World, p: Progress, ctx: Context, h: SessionHandle)
    requires p.status.Running? && ctx.slot == Live(h) && TableNamesPrintable(ctx.config)
    requires var l := w.listing(|p.trace|);
      var n := |p.trace| + 1 + |Entries(l.versions)| + |Entries(l.deleteMarkers)|;
      (forall k :: |p.trace| <= k <= n ==> w.fails(k).None?) && w.fails(n + 3).None?
    ensures var c := ctx.config;
      var b := c.dellLakehouseS3Bucket;
      var l := w.listing(|p.trace|);
      TeardownSpec(w, CleanupSpec(w, p, b), ctx) ==
        Progress(p.trace + [ListObjectVersions(b)] + Deletes(b, Entries(l.versions)) + Deletes(b, Entries(l.deleteMarkers))
                 + [DeleteBucket(b),
                    Sql(h, DropTableStatement(c.ddaeCatalog, c.ddaeSchema, c.ddaeTableNameCustomer)),
                    Sql(h, DropSchemaStatement(c.ddaeCatalog, c.ddaeSchema)), CloseSession(h)], Running)
  {
    var b := ctx.config.dellLakehouseS3Bucket;
    CleanupRequests(w, p, b);
    var q := CleanupSpec(w, p, b);
    TeardownOrder(w, q, ctx, h);
  }

  // ------------------------------------------------------------------
  // The program

  /** The module globals of the demo and the services it talks to. */
  class DemoProgram {
    const services: Services
    var configuration: Option<Configuration>
    var ddaeSession: DdaeAuthentication?
    var ddaeDataProcessor: DdaeDataProcessor?

    constructor (services: Services)
      ensures this.services == services
      ensures configuration == None && ddaeSession == null && ddaeDataProcessor == null
    {
      this.services := services;
      configuration := None;
      ddaeSession := null;
      ddaeDataProcessor := null;
    }

    /** The state after a successful `dell_ddae_session`: a usable configuration, the session and the processor on it. */
    predicate Ready()
      reads this, ddaeDataProcessor
    {
      && configuration.Some? && HasConnectionKeys(configuration.value)
      && ddaeSession != null && ddaeDataProcessor != null
      && ddaeDataProcessor.sepsession == ddaeSession && ddaeDataProcessor.configuration == configuration.value
    }

    /** The context the scenario steps read. */
    function Ctx(dataFile: string): Context
      reads this, ddaeSession
      requires configuration.Some? && ddaeSession != null
    {
      Context(configuration.value, ddaeSession.sepSession, dataFile)
    }

    /**
     * `dell_pystarburst_demo_config`: the configuration is kept when it
     * loads; otherwise the handler's `_logger.error` on None raises
     * AttributeError.
     */
    method DemoConfig(config: string, tempDir: string, existing: set<string>, parsed: Option<Document>)
      returns (raised: Option<Fault>)
      modifies this
      ensures var loaded := Load(Some(config), Some(tempDir), existing, parsed);
        && (raised.None? <==> loaded.Success?)
        && (raised.Some? ==> raised.value == AttributeError && configuration == old(configuration))
        && (raised.None? ==> configuration == Some(loaded.value) && Validated(loaded.value))
      ensures ddaeSession == old(ddaeSession) && ddaeDataProcessor == old(ddaeDataProcessor)
    {
      var loaded := Load(Some(config), Some(tempDir), existing, parsed);
      if loaded.Failure? {
        return Some(AttributeError);
      }
      LoadedIsValidated(Some(config), Some(tempDir), existing, parsed, loaded.value);
      configuration := Some(loaded.value);
      return None;
    }

    /** `dell_ddae_session`, from a loaded configuration. */
    method DdaeSession() returns (connected: bool)
      requires configuration.Some? && HasConnectionKeys(configuration.value)
      modifies this, services
      ensures configuration == old(configuration)
      ensures var s := SessionSpec(services.world, old(services.trace), configuration.value);
        && connected == s.connected && services.trace == s.progress.trace
        && (connected ==> Ready() && ddaeSession.sepSession == s.slot)
      ensures var m := configuration.value.ddaeSession;
        connected ==>
          && ddaeSession.protocol == m["protocol"] && ddaeSession.host == m["host"]
          && ddaeSession.username == m["user"] && ddaeSession.password == m["password"]
          && ddaeSession.port == m["port"] && ddaeSession.catalog == m["catalog"]
          && ddaeSession.schema == m["schema"]
      ensures !connected ==> ddaeSession == old(ddaeSession) && ddaeDataProcessor == old(ddaeDataProcessor)
    {
      var c := configuration.value;
      var m := c.ddaeSession;
      var sep := new DdaeAuthentication(m["protocol"], m["host"], m["user"], m["password"], m["port"],
                                        m["catalog"], m["schema"]);
      var raised := sep.Connect(services);
      if raised.Some? {
        return false;
      }
      if sep.sepSession == NoSession {
        return false;
      }
      ddaeSession := sep;
      ddaeDataProcessor := new DdaeDataProcessor(c, sep);
      var _ := ddaeDataProcessor.GetListOfCatalogs(services);
      return true;
    }

    /** Lines 142-146. */
    method ConnectS3() returns (raised: Option<Fault>)
      requires Ready()
      modifies services
      ensures Outcome(services.trace, raised) ==
        S3ClientSpec(services.world, Progress(old(services.trace), Running), configuration.value)
    {
      var connection := configuration.value.dellS3Connection;
      var endpoint := S3Endpoint(connection);
      if endpoint.None? {
        return Some(TypeError);
      }
      var fault := services.Issue(CreateS3Client(endpoint.value, false, connection["s3AccessKey"], connection["s3SecretKey"]));
      return RaisedBy(fault);
    }

    /** Steps 1 and 2. */
    method PrepareBucket() returns (raised: Option<Fault>)
      requires Ready()
      modifies services
      ensures Outcome(services.trace, raised) ==
        BucketSpec(services.world, Progress(old(services.trace), Running), configuration.value.dellLakehouseS3Bucket)
    {
      var bucket := configuration.value.dellLakehouseS3Bucket;
      var fault := services.Issue(CreateBucket(bucket, true));
      if fault.Some? {
        return RaisedBy(fault);
      }
      fault := services.Issue(PutBucketVersioning(bucket, "Enabled"));
      if fault.Some? {
        return RaisedBy(fault);
      }
      fault := services.Issue(GetObjectLockConfiguration(LiteralBucket));
      if fault.Some? {
        return RaisedBy(fault);
      }
      if !bucket.Str? {
        return Some(TypeError);
      }
      fault := services.Issue(PutObjectLockConfiguration(bucket, RetentionMode, RetentionDays));
      if fault.Some? {
        return RaisedBy(fault);
      }
      fault := services.Issue(GetObjectLockConfiguration(bucket));
      return RaisedBy(fault);
    }

    /** Steps 3 to 5. */
    method CreateTableAndLoad(dataFile: string) returns (raised: Option<Fault>)
      requires Ready()
      modifies services
      ensures Outcome(services.trace, raised) ==
        TableAndDataSpec(services.world, Progress(old(services.trace), Running), Ctx(dataFile))
    {
      var c := configuration.value;
      if !TableNamesPrintable(c) {
        return Some(TypeError);
      }
      raised := ddaeDataProcessor.CreateHiveTable(services, c.ddaeCatalog, c.ddaeSchema, c.ddaeTableNameCustomer,
                                                  c.ddaeTableLocation, c.ddaeTableSchemaCustomer);
      var fault := services.Issue(UploadFile(dataFile, c.dellLakehouseS3Bucket, ParquetKey));
      if fault.Some? && fault.value.OtherError? {
        return Some(ServiceFault(OtherError));
      }
      var _ := ddaeDataProcessor.GetCustomerData(services, c.ddaeCatalog, c.ddaeSchema, c.ddaeTableNameCustomer);
      return None;
    }

    /** Steps 6 to 9. */
    method DeleteAndRestore(dataFile: string) returns (raised: Option<Fault>)
      requires Ready()
      modifies services
      ensures Outcome(services.trace, raised) ==
        DeleteAndRestoreSpec(services.world, Progress(old(services.trace), Running), Ctx(dataFile))
    {
      var c := configuration.value;
      var bucket := c.dellLakehouseS3Bucket;
      var position := |services.trace|;
      var fault := services.Issue(DeleteObject(bucket, ParquetKey, None, false));
      if fault.Some? {
        return RaisedBy(fault);
      }
      var versionId := services.world.versionId(position);
      var _ := ddaeDataProcessor.GetCustomerData(services, c.ddaeCatalog, c.ddaeSchema, c.ddaeTableNameCustomer);
      if versionId.None? {
        return Some(KeyError);
      }
      fault := services.Issue(DeleteObject(bucket, ParquetKey, versionId, true));
      if fault.Some? {
        return RaisedBy(fault);
      }
      var _ := ddaeDataProcessor.GetCustomerData(services, c.ddaeCatalog, c.ddaeSchema, c.ddaeTableNameCustomer);
      return None;
    }

    /** One of the two cleanup loops: delete each entry, stopping at the first delete that raises. */
    method DeleteEntries(bucket: Value, entries: seq<ObjectVersion>) returns (raised: Option<Fault>)
      modifies services
      ensures Outcome(services.trace, raised) ==
        CallAll(services.world, Progress(old(services.trace), Running), Deletes(bucket, entries))
    {
      ghost var start := Progress(services.trace, Running);
      for i := 0 to |entries|
        invariant CallAll(services.world, start, Deletes(bucket, entries[..i])) == Progress(services.trace, Running)
      {
        var entry := entries[i];
        ghost var before := services.trace;
        var fault := services.Issue(DeleteObject(bucket, entry.key, Some(entry.versionId), true));
        assert Deletes(bucket, entries[..i + 1]) == Deletes(bucket, entries[..i]) + [DeleteObject(bucket, entry.key, Some(entry.versionId), true)] by {
          assert entries[..i + 1] == entries[..i] + [entry];
          DeletesConcat(bucket, entries[..i], [entry]);
        }
        CallAllAppend(services.world, start, Deletes(bucket, entries[..i]), DeleteObject(bucket, entry.key, Some(entry.versionId), true));
        if fault.Some? {
          assert Deletes(bucket, entries) == Deletes(bucket, entries[..i + 1]) + Deletes(bucket, entries[i + 1..]) by {
            assert entries == entries[..i + 1] + entries[i + 1..];
            DeletesConcat(bucket, entries[..i + 1], entries[i + 1..]);
          }
          CallAllConcat(services.world, start, Deletes(bucket, entries[..i + 1]), Deletes(bucket, entries[i + 1..]));
          CallAllStopped(services.world, Outcome(services.trace, RaisedBy(fault)), Deletes(bucket, entries[i + 1..]));
          return RaisedBy(fault);
        }
      }
      assert entries[..|entries|] == entries;
      return None;
    }

    /** Step 10. */
    method Cleanup() returns (raised: Option<Fault>)
      requires Ready()
      modifies services
      ensures Outcome(services.trace, raised) ==
        CleanupSpec(services.world, Progress(old(services.trace), Running), configuration.value.dellLakehouseS3Bucket)
    {
      var bucket := configuration.value.dellLakehouseS3Bucket;
      var position := |services.trace|;
      var fault := services.Issue(ListObjectVersions(bucket));
      if fault.Some? {
        CallAllStopped(services.world, Outcome(services.trace, RaisedBy(fault)), Deletes(bucket, Entries(services.world.listing(position).versions)));
        CallAllStopped(services.world, Outcome(services.trace, RaisedBy(fault)), Deletes(bucket, Entries(services.world.listing(position).deleteMarkers)));
        return RaisedBy(fault);
      }
      var listing := services.world.listing(position);
      raised := DeleteEntries(bucket, Entries(listing.versions));
      if raised.Some? {
        CallAllStopped(services.world, Outcome(services.trace, raised), Deletes(bucket, Entries(listing.deleteMarkers)));
        return;
      }
      raised := DeleteEntries(bucket, Entries(listing.deleteMarkers));
    }

    /** Steps 11 to 13. */
    method Teardown(dataFile: string) returns (raised: Option<Fault>)
      requires Ready()
      modifies services
      ensures Outcome(services.trace, raised) ==
        TeardownSpec(services.world, Progress(old(services.trace), Running), Ctx(dataFile))
    {
      var c := configuration.value;
      var fault := services.Issue(DeleteBucket(c.dellLakehouseS3Bucket));
      if fault.Some? {
        return RaisedBy(fault);
      }
      if !TableNamesPrintable(c) {
        return Some(TypeError);
      }
      raised := ddaeDataProcessor.DropTable(services, c.ddaeCatalog, c.ddaeSchema, c.ddaeTableNameCustomer);
      raised := ddaeDataProcessor.DropSchema(services, c.ddaeCatalog, c.ddaeSchema);
      var slot := ddaeSession.sepSession;
      if !slot.Live? {
        return Some(AttributeError);
      }
      fault := services.Issue(CloseSession(slot.handle));
      return RaisedBy(fault);
    }

    /** The scenario, from step 1 to step 13; the first exception ends it. */
    method Scenario(dataFile: string) returns (raised: Option<Fault>)
      requires Ready()
      modifies services
      ensures Outcome(services.trace, raised) ==
        ScenarioSpec(services.world, Progress(old(services.trace), Running), Ctx(dataFile))
    {
      ghost var w, ctx := services.world, Ctx(dataFile);
      ghost var p0 := Progress(services.trace, Running);
      raised := ConnectS3();
      ghost var p1 := Outcome(services.trace, raised);
      if raised.Some? {
        StepsStopped(w, p1, ctx);
        return;
      }
      raised := PrepareBucket();
      ghost var p2 := Outcome(services.trace, raised);
      if raised.Some? {
        StepsStopped(w, p2, ctx);
        return;
      }
      raised := CreateTableAndLoad(dataFile);
      ghost var p3 := Outcome(services.trace, raised);
      if raised.Some? {
        StepsStopped(w, p3, ctx);
        return;
      }
      raised := DeleteAndRestore(dataFile);
      ghost var p4 := Outcome(services.trace, raised);
      if raised.Some? {
        StepsStopped(w, p4, ctx);
        return;
      }
      raised := Cleanup();
      ghost var p5 := Outcome(services.trace, raised);
      if raised.Some? {
        StepsStopped(w, p5, ctx);
        return;
      }
      raised := Teardown(dataFile);
    }

    /** `__main__`, from a fresh program and an empty trace. */
    method Run(config: string, tempDir: string, existing: set<string>, parsed: Option<Document>, dataFile: string)
      returns (raised: Option<Fault>)
      requires configuration == None && ddaeSession == null && ddaeDataProcessor == null && services.trace == []
      modifies this, services
      ensures Outcome(services.trace, raised) == RunSpec(services.world, config, tempDir, existing, parsed, dataFile)
    {
      var controlledShutdown := new DemoShutdown();
      raised := DemoConfig(config, tempDir, existing, parsed);
      if raised.Some? {
        return;
      }
      RunSpecLoaded(services.world, config, tempDir, existing, parsed, dataFile, configuration.value);
      raised := Connected(dataFile);
    }

    /** The rest of `__main__` once the configuration is loaded. */
    method Connected(dataFile: string) returns (raised: Option<Fault>)
      requires configuration.Some? && HasConnectionKeys(configuration.value) && services.trace == []
      modifies this, services
      ensures configuration == old(configuration)
      ensures Outcome(services.trace, raised) == ConnectedSpec(services.world, configuration.value, dataFile)
    {
      ghost var s := SessionSpec(services.world, [], configuration.value);
      var connected := DdaeSession();
      if !connected {
        return None;
      }
      assert Ctx(dataFile) == Context(configuration.value, s.slot, dataFile);
      raised := Scenario(dataFile);
    }
  }
}
