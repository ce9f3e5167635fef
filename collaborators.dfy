/**
 * The external services the demo talks to (the Starburst session builder, a
 * Starburst session, and the S3 client), seen only as the requests sent to
 * them and the answers they give back.
 *
 * A request is an abstract record of the library call and its arguments.
 * Services keeps the trace of requests in the order they were issued; the
 * World says, for the call at each position of the trace, whether it raised
 * and what it returned. Nothing about what the services do with a request is
 * modelled.
 */
module Collaborators {
  import opened Wrappers
  import opened Json

  /** An open Starburst session, as returned by `Session.builder...create()`. */
  datatype SessionHandle = SessionHandle(id: nat)

  /** `trino.auth.BasicAuthentication(username, password)`. */
  datatype BasicAuthentication = BasicAuthentication(username: Value, password: Value)

  /**
   * The `db_parameters` dictionary handed to the session builder. The keys
   * "verify", "auth" and "user" are present exactly when the matching field
   * is Some.
   */
  datatype DbParameters = DbParameters(
    host: Value,
    port: Value,
    httpScheme: Value,
    roles: map<string, string>,
    verify: Option<bool>,
    auth: Option<BasicAuthentication>,
    user: Option<Value>)

  /** The keys of the `db_parameters` dictionary. */
  function ParameterKeys(p: DbParameters): set<string>
  {
    {"host", "port", "http_scheme", "roles"}
    + (if p.verify.Some? then {"verify"} else {})
    + (if p.auth.Some? then {"auth"} else {})
    + (if p.user.Some? then {"user"} else {})
  }

  /** One entry of the `Versions` or `DeleteMarkers` list of `list_object_versions`. */
  datatype ObjectVersion = ObjectVersion(key: string, versionId: string)

  /** The two lists of a `list_object_versions` response; None when the key is absent. */
  datatype Listing = Listing(versions: Option<seq<ObjectVersion>>, deleteMarkers: Option<seq<ObjectVersion>>)

  /** A row of a collected Starburst result. */
  type Row = map<string, Value>

  /** A call into one of the external libraries, with the arguments the demo passes. */
  datatype Request =
    | CreateSession(parameters: DbParameters)                   // Session.builder.configs(p).create()
    | Sql(session: SessionHandle, statement: string)            // session.sql(statement).collect()
    | LookupTable(session: SessionHandle, name: string)         // session.table(name)
    | CloseSession(session: SessionHandle)                      // session.close()
    | CreateS3Client(endpoint: string, useSsl: bool, accessKey: Value, secretKey: Value)  // getConnection(endpoint, secure, ...)
    | CreateBucket(bucket: Value, objectLockEnabled: bool)
    | PutBucketVersioning(bucket: Value, status: string)
    | GetObjectLockConfiguration(bucket: Value)
    | PutObjectLockConfiguration(bucket: Value, mode: string, days: nat)
    | UploadFile(path: string, bucket: Value, key: string)
    | DeleteObject(bucket: Value, key: string, versionId: Option<string>, bypassGovernance: bool)
    | ListObjectVersions(bucket: Value)
    | DeleteBucket(bucket: Value)

  /** How an external call can raise: botocore's ClientError, or any other exception. */
  datatype CallFault = ClientError | OtherError

  /**
   * The answers of the services, indexed by the position of the call in the
   * trace: whether it raised, the session the builder returned, the rows a
   * query collected, the VersionId a delete returned (None when the response
   * has no such key) and a version listing.
   */
  datatype World = World(
    fails: nat -> Option<CallFault>,
    session: nat -> Option<SessionHandle>,
    rows: nat -> seq<Row>,
    versionId: nat -> Option<string>,
    listing: nat -> Listing)

  /** The exception unwinding the program, if any. */
  datatype Fault = ServiceFault(cause: CallFault) | TypeError | KeyError | AttributeError

  datatype Status = Running | Raising(fault: Fault)

  /** The requests issued so far and whether an exception is unwinding. */
  datatype Progress = Progress(trace: seq<Request>, status: Status)

  /**
   * Issue `r` unless an exception is already unwinding; the call raises when
   * the world says the call at this position fails.
   */
  function Call(w: World, p: Progress, r: Request): (q: Progress)
    ensures p.status.Running? ==> q.trace == p.trace + [r]
    ensures p.status.Running? ==> (q.status.Running? <==> w.fails(|p.trace|).None?)
    ensures p.status.Running? && w.fails(|p.trace|).Some? ==> q.status == Raising(ServiceFault(w.fails(|p.trace|).value))
    ensures !p.status.Running? ==> q == p
  {
    if !p.status.Running? then p
    else
      match w.fails(|p.trace|)
      case None => Progress(p.trace + [r], Running)
      case Some(f) => Progress(p.trace + [r], Raising(ServiceFault(f)))
  }

  /** A statement that raises `f` unless `ok` (a dictionary lookup, a string concatenation). */
  function Check(p: Progress, ok: bool, f: Fault): (q: Progress)
    ensures q.trace == p.trace
    ensures q.status.Running? <==> p.status.Running? && ok
    ensures !p.status.Running? ==> q == p
  {
    if p.status.Running? && !ok then Progress(p.trace, Raising(f)) else p
  }

  /** `try: ... except Exception:` around a block that started while running: the block's exception is logged. */
  function Caught(q: Progress): (r: Progress)
    ensures r.trace == q.trace && r.status.Running?
  {
    Progress(q.trace, Running)
  }

  /** `try: ... except ClientError:` around a block that started from `p`. */
  function CaughtClientError(p: Progress, q: Progress): (r: Progress)
    ensures r.trace == q.trace
    ensures r.status.Running? <==> q.status.Running? || (p.status.Running? && q.status == Raising(ServiceFault(ClientError)))
    ensures !r.status.Running? ==> r.status == q.status
  {
    if p.status.Running? && q.status == Raising(ServiceFault(ClientError)) then Progress(q.trace, Running) else q
  }

  /** Issue the requests one after the other, stopping at the first that raises. */
  function CallAll(w: World, p: Progress, rs: seq<Request>): Progress
    decreases |rs|
  {
    if rs == [] then p else CallAll(w, Call(w, p, rs[0]), rs[1..])
  }

  /** Once an exception is unwinding, no more requests are issued. */
  lemma {:induction false} CallAllStopped(w: World, p: Progress, rs: seq<Request>)
    requires !p.status.Running?
    ensures CallAll(w, p, rs) == p
    decreases |rs|
  {
    if rs != [] {
      CallAllStopped(w, Call(w, p, rs[0]), rs[1..]);
    }
  }

  /** Issuing a list and then one more request is issuing the extended list. */
  lemma {:induction false} CallAllAppend(w: World, p: Progress, rs: seq<Request>, r: Request)
    ensures CallAll(w, p, rs + [r]) == Call(w, CallAll(w, p, rs), r)
    decreases |rs|
  {
    if rs == [] {
      assert rs + [r] == [r];
    } else {
      assert (rs + [r])[0] == rs[0];
      assert (rs + [r])[1..] == rs[1..] + [r];
      CallAllAppend(w, Call(w, p, rs[0]), rs[1..], r);
    }
  }

  /** Issuing two lists one after the other is issuing their concatenation. */
  lemma {:induction false} CallAllConcat(w: World, p: Progress, rs: seq<Request>, more: seq<Request>)
    ensures CallAll(w, p, rs + more) == CallAll(w, CallAll(w, p, rs), more)
    decreases |rs|
  {
    if rs == [] {
      assert rs + more == more;
    } else {
      assert (rs + more)[0] == rs[0];
      assert (rs + more)[1..] == rs[1..] + more;
      CallAllConcat(w, Call(w, p, rs[0]), rs[1..], more);
    }
  }

  /**
   * The requests issued are always a prefix of the list, and the whole list
   * is issued without an exception exactly when no call along the way raises.
   */
  lemma {:induction false} CallAllPrefix(w: World, p: Progress, rs: seq<Request>)
    requires p.status.Running?
    ensures var q := CallAll(w, p, rs);
      exists k :: 0 <= k <= |rs| && q.trace == p.trace + rs[..k] && (q.status.Running? ==> k == |rs|)
    ensures CallAll(w, p, rs).status.Running? <==>
      forall k :: |p.trace| <= k < |p.trace| + |rs| ==> w.fails(k).None?
    decreases |rs|
  {
    if rs == [] {
      assert p.trace + rs[..0] == p.trace;
    } else {
      var p1 := Call(w, p, rs[0]);
      if p1.status.Running? {
        CallAllPrefix(w, p1, rs[1..]);
        var q := CallAll(w, p1, rs[1..]);
        var k :| 0 <= k <= |rs[1..]| && q.trace == p1.trace + rs[1..][..k] && (q.status.Running? ==> k == |rs[1..]|);
        assert p.trace + rs[..k + 1] == p1.trace + rs[1..][..k];
      } else {
        CallAllStopped(w, p1, rs[1..]);
        assert p1.trace == p.trace + rs[..1];
      }
    }
  }

  /** The services and the trace of the requests sent to them. */
  class Services {
    const world: World
    var trace: seq<Request>

    constructor (world: World)
      ensures this.world == world && trace == []
    {
      this.world := world;
      trace := [];
    }

    /** Send one request: it is appended to the trace, and raises as the world says. */
    method Issue(r: Request) returns (fault: Option<CallFault>)
      modifies this
      ensures trace == old(trace) + [r]
      ensures fault == world.fails(|old(trace)|)
    {
      fault := world.fails(|trace|);
      trace := trace + [r];
    }
  }

  /** The progress after a method that returned normally (None) or let `raised` propagate. */
  function Outcome(trace: seq<Request>, raised: Option<Fault>): Progress
  {
    Progress(trace, if raised.Some? then Raising(raised.value) else Running)
  }
}
