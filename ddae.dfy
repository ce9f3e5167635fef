/**
 * The DDAE (Dell Data Analytics Engine, a Starburst deployment) client:
 * DDAEAuthentication, which holds the session settings, builds the URL and
 * the connection parameters and keeps the session slot `sep_session`; and
 * DDAEDataProcessor, which builds the SQL statements and issues them on that
 * session.
 *
 * The SQL and URL texts are built with `str.format`, so each template below is
 * written as its literal pieces; the lemmas after each builder state the
 * resulting text in plain concatenation.
 */
module Ddae {
  import opened Wrappers
  import opened Json
  import opened Strings
  import opened Collaborators
  import opened Configuration

  // ------------------------------------------------------------------
  // URL and connection parameters

  /** `"{0}://{1}:{2}".format(protocol, host, port)` (the empty pieces open and close the template). */
  function Url(protocol: Value, host: Value, port: Value): string
  {
    Format("" + ("{0}" + ("://" + ("{1}" + (":" + ("{2}" + ""))))), [Render(protocol), Render(host), Render(port)])
  }

  /** The URL is protocol, "://", host, ":" and port, each as Python's str() renders it. */
  lemma UrlText(protocol: Value, host: Value, port: Value)
    ensures Url(protocol, host, port) == Render(protocol) + "://" + Render(host) + ":" + Render(port)
  {
    FormatThree("", "://", ":", "", [Render(protocol), Render(host), Render(port)]);
    Join7("", Render(protocol), "://", Render(host), ":", Render(port), "");
    assert "" + Render(protocol) == Render(protocol);
    assert Render(protocol) + "://" + Render(host) + ":" + Render(port) + "" ==
           Render(protocol) + "://" + Render(host) + ":" + Render(port);
  }

  /** Reading the URL back: with no ':' in the parts, splitting at ':' recovers them. */
  lemma UrlSplit(protocol: string, host: string, port: string)
    requires ':' !in protocol && ':' !in host && ':' !in port
    ensures Split(Url(Str(protocol), Str(host), Str(port)), ':') == [protocol, "//" + host, port]
  {
    UrlText(Str(protocol), Str(host), Str(port));
    assert protocol + "://" + host + ":" + port == protocol + [':'] + (("//" + host) + [':'] + port);
    assert ':' !in "//" + host;
    SplitAfterPart(protocol, ':', ("//" + host) + [':'] + port);
    SplitAfterPart("//" + host, ':', port);
    SplitWithoutSeparator(port, ':');
  }

  const SysadminRoles: map<string, string> := map["system" := "ROLE{sysadmin}"]

  /** The `db_parameters` that `connect` hands to the session builder. */
  function DbParametersFor(protocol: Value, host: Value, username: Value, password: Value, port: Value): DbParameters
  {
    if protocol == Str("https") then
      DbParameters(host, port, protocol, SysadminRoles, Some(false), Some(BasicAuthentication(username, password)), None)
    else
      DbParameters(host, port, protocol, SysadminRoles, None, None, Some(username))
  }

  /**
   * Over https the parameters carry `verify = False` and basic authentication
   * and no user; otherwise they carry the user and neither of the other two.
   * Both always carry host, port, the protocol as scheme, and the sysadmin role.
   */
  lemma DbParametersByProtocol(protocol: Value, host: Value, username: Value, password: Value, port: Value)
    ensures var p := DbParametersFor(protocol, host, username, password, port);
      && p.host == host && p.port == port && p.httpScheme == protocol && p.roles == SysadminRoles
      && (protocol == Str("https") ==>
            && ParameterKeys(p) == {"host", "port", "http_scheme", "verify", "roles", "auth"}
            && p.verify == Some(false) && p.auth == Some(BasicAuthentication(username, password)))
      && (protocol != Str("https") ==>
            ParameterKeys(p) == {"host", "port", "http_scheme", "roles", "user"} && p.user == Some(username))
  {
  }

  // ------------------------------------------------------------------
  // SQL statements

  /** `catalog + "." + schema + "." + table_name` (the operands must be strings). */
  function QualifiedName(catalog: string, schema: string, table: string): string
  {
    catalog + "." + schema + "." + table
  }

  /** With no '.' in the parts, splitting the qualified name at '.' recovers them. */
  lemma QualifiedNameSplit(catalog: string, schema: string, table: string)
    requires '.' !in catalog && '.' !in schema && '.' !in table
    ensures Split(QualifiedName(catalog, schema, table), '.') == [catalog, schema, table]
  {
    assert QualifiedName(catalog, schema, table) == catalog + ['.'] + (schema + ['.'] + table);
    SplitAfterPart(catalog, '.', schema + ['.'] + table);
    SplitAfterPart(schema, '.', table);
    SplitWithoutSeparator(table, '.');
  }

  /** "CREATE SCHEMA IF NOT EXISTS {0}.{1} WITH (location = '{2}')" */
  function SchemaStatement(catalog: Value, schema: Value, location: Value): string
  {
    Format("CREATE SCHEMA IF NOT EXISTS " + ("{0}" + ("." + ("{1}" + (" WITH (location = '" + ("{2}" + "')"))))), [Render(catalog), Render(schema), Render(location)])
  }

  /** The schema statement creates `catalog.schema` at `location` (the same text for hive and iceberg). */
  lemma SchemaStatementText(catalog: Value, schema: Value, location: Value)
    ensures SchemaStatement(catalog, schema, location) ==
      "CREATE SCHEMA IF NOT EXISTS " + Render(catalog) + "." + Render(schema)
      + " WITH (location = '" + Render(location) + "')"
  {
    FormatThree("CREATE SCHEMA IF NOT EXISTS ", ".", " WITH (location = '", "')",
                [Render(catalog), Render(schema), Render(location)]);
    Join7("CREATE SCHEMA IF NOT EXISTS ", Render(catalog), ".", Render(schema), " WITH (location = '",
          Render(location), "')");
  }

  /** The arguments of both table templates, in the order the source passes them: the table name twice. */
  function TableArguments(catalog: Value, schema: Value, table: Value, columns: Value, location: Value): seq<string>
  {
    [Render(catalog), Render(schema), Render(table), Render(columns), Render(location), Render(table)]
  }

  /**
   * "CREATE TABLE IF NOT EXISTS {0}.{1}.{2} ({3}) WITH (external_location = '{4}{5}', format = 'PARQUET')"
   * (the empty piece separates the adjacent {4}{5}).
   */
  function HiveTableStatement(catalog: Value, schema: Value, table: Value, columns: Value, location: Value): string
  {
    Format("CREATE TABLE IF NOT EXISTS " + ("{0}" + ("." + ("{1}" + ("." + ("{2}" + (" (" + ("{3}" + (") WITH (external_location = '" + ("{4}" + ("" + ("{5}" + "', format = 'PARQUET')"))))))))))), TableArguments(catalog, schema, table, columns, location))
  }

  /** "CREATE TABLE IF NOT EXISTS {0}.{1}.{2} ({3}) WITH (location = '{4}{5}', format = 'PARQUET')" */
  function IcebergTableStatement(catalog: Value, schema: Value, table: Value, columns: Value, location: Value): string
  {
    Format("CREATE TABLE IF NOT EXISTS " + ("{0}" + ("." + ("{1}" + ("." + ("{2}" + (" (" + ("{3}" + (") WITH (location = '" + ("{4}" + ("" + ("{5}" + "', format = 'PARQUET')"))))))))))), TableArguments(catalog, schema, table, columns, location))
  }

  /**
   * The hive statement creates `catalog.schema.table (columns)` stored as
   * PARQUET with `external_location` the table location followed by the table name.
   */
  lemma HiveTableStatementText(catalog: Value, schema: Value, table: Value, columns: Value, location: Value)
    ensures HiveTableStatement(catalog, schema, table, columns, location) ==
      "CREATE TABLE IF NOT EXISTS " + Render(catalog) + "." + Render(schema) + "." + Render(table)
      + " (" + Render(columns) + ") WITH (external_location = '" + Render(location) + Render(table)
      + "', format = 'PARQUET')"
  {
    var c, s, t, k, l := Render(catalog), Render(schema), Render(table), Render(columns), Render(location);
    var head := "CREATE TABLE IF NOT EXISTS ";
    var with := ") WITH (external_location = '";
    var tail := "', format = 'PARQUET')";
    calc {
      HiveTableStatement(catalog, schema, table, columns, location);
    ==  { FormatSix(head, ".", ".", " (", with, "", tail, TableArguments(catalog, schema, table, columns, location)); }
      head + (c + ("." + (s + ("." + (t + (" (" + (k + (with + (l + ("" + (t + tail)))))))))));
    ==  { Join13(head, c, ".", s, ".", t, " (", k, with, l, "", t, tail); }
      head + c + "." + s + "." + t + " (" + k + with + l + "" + t + tail;
    ==  { AppendEmpty(head + c + "." + s + "." + t + " (" + k + with + l); }
      head + c + "." + s + "." + t + " (" + k + with + l + t + tail;
    }
  }

  /** The iceberg statement is the hive one with the key `location` in place of `external_location`. */
  lemma IcebergTableStatementText(catalog: Value, schema: Value, table: Value, columns: Value, location: Value)
    ensures IcebergTableStatement(catalog, schema, table, columns, location) ==
      "CREATE TABLE IF NOT EXISTS " + Render(catalog) + "." + Render(schema) + "." + Render(table)
      + " (" + Render(columns) + ") WITH (location = '" + Render(location) + Render(table)
      + "', format = 'PARQUET')"
  {
    var c, s, t, k, l := Render(catalog), Render(schema), Render(table), Render(columns), Render(location);
    var head := "CREATE TABLE IF NOT EXISTS ";
    var with := ") WITH (location = '";
    var tail := "', format = 'PARQUET')";
    calc {
      IcebergTableStatement(catalog, schema, table, columns, location);
    ==  { FormatSix(head, ".", ".", " (", with, "", tail, TableArguments(catalog, schema, table, columns, location)); }
      head + (c + ("." + (s + ("." + (t + (" (" + (k + (with + (l + ("" + (t + tail)))))))))));
    ==  { Join13(head, c, ".", s, ".", t, " (", k, with, l, "", t, tail); }
      head + c + "." + s + "." + t + " (" + k + with + l + "" + t + tail;
    ==  { AppendEmpty(head + c + "." + s + "." + t + " (" + k + with + l); }
      head + c + "." + s + "." + t + " (" + k + with + l + t + tail;
    }
  }

  /** "DROP TABLE IF EXISTS {0}.{1}.{2}" (the empty piece closes the template). */
  function DropTableStatement(catalog: Value, schema: Value, table: Value): string
  {
    Format("DROP TABLE IF EXISTS " + ("{0}" + ("." + ("{1}" + ("." + ("{2}" + ""))))), [Render(catalog), Render(schema), Render(table)])
  }

  /** The drop statement names exactly `catalog.schema.table`. */
  lemma DropTableStatementText(catalog: Value, schema: Value, table: Value)
    ensures DropTableStatement(catalog, schema, table) ==
      "DROP TABLE IF EXISTS " + Render(catalog) + "." + Render(schema) + "." + Render(table)
  {
    FormatThree("DROP TABLE IF EXISTS ", ".", ".", "", [Render(catalog), Render(schema), Render(table)]);
    Join7("DROP TABLE IF EXISTS ", Render(catalog), ".", Render(schema), ".", Render(table), "");
    AppendEmpty("DROP TABLE IF EXISTS " + Render(catalog) + "." + Render(schema) + "." + Render(table));
  }

  /** "DROP SCHEMA IF EXISTS {0}.{1}" (the empty piece closes the template). */
  function DropSchemaStatement(catalog: Value, schema: Value): string
  {
    Format("DROP SCHEMA IF EXISTS " + ("{0}" + ("." + ("{1}" + ""))), [Render(catalog), Render(schema)])
  }

  /** The drop statement names exactly `catalog.schema`. */
  lemma DropSchemaStatementText(catalog: Value, schema: Value)
    ensures DropSchemaStatement(catalog, schema) == "DROP SCHEMA IF EXISTS " + Render(catalog) + "." + Render(schema)
  {
    FormatTwo("DROP SCHEMA IF EXISTS ", ".", "", [Render(catalog), Render(schema)]);
  }

  /** "select * from {0}.{1}.catalogs", formatted with "system" and "metadata". */
  function CatalogsStatement(): string
  {
    Format("select * from " + ("{0}" + ("." + ("{1}" + ".catalogs"))), ["system", "metadata"])
  }

  /** The catalog query reads the system metadata catalogs table. */
  lemma CatalogsStatementText()
    ensures CatalogsStatement() == "select * from system.metadata.catalogs"
  {
    FormatTwo("select * from ", ".", ".catalogs", ["system", "metadata"]);
  }

  /** "SELECT * FROM {0} LIMIT 10" */
  function CustomerQuery(catalog: string, schema: string, table: string): string
  {
    Format("SELECT * FROM " + ("{0}" + " LIMIT 10"), [QualifiedName(catalog, schema, table)])
  }

  /** The customer query selects at most ten rows of the qualified table. */
  lemma CustomerQueryText(catalog: string, schema: string, table: string)
    ensures CustomerQuery(catalog, schema, table) == "SELECT * FROM " + QualifiedName(catalog, schema, table) + " LIMIT 10"
  {
    FormatOne("SELECT * FROM ", " LIMIT 10", [QualifiedName(catalog, schema, table)]);
  }

  // ------------------------------------------------------------------
  // The catalog list of get_list_of_catalogs

  /** The accumulated text: each catalog name followed by ", ", in row order. */
  function CatalogList(names: seq<string>): string
  {
    if names == [] then "" else CatalogList(names[..|names| - 1]) + names[|names| - 1] + ", "
  }

  /** Where the entry for `names[k]` starts in the list: the sum of (name length + 2) before it. */
  function Offset(names: seq<string>, k: nat): nat
    requires k <= |names|
  {
    if k == 0 then 0 else Offset(names, k - 1) + |names[k - 1]| + 2
  }

  /** The list built from the first k names is as long as the offset of entry k. */
  lemma {:induction false} OffsetIsLength(names: seq<string>, k: nat)
    requires k <= |names|
    ensures |CatalogList(names[..k])| == Offset(names, k)
  {
    if k > 0 {
      OffsetIsLength(names, k - 1);
      assert names[..k][..k - 1] == names[..k - 1];
    }
  }

  /** The length of the list is the sum of (name length + 2) over the names. */
  lemma CatalogListLength(names: seq<string>)
    ensures |CatalogList(names)| == Offset(names, |names|)
  {
    OffsetIsLength(names, |names|);
    assert names[..|names|] == names;
  }

  /** The list of the first k names is a prefix of the whole list. */
  lemma {:induction false} CatalogListPrefix(names: seq<string>, k: nat)
    requires k <= |names|
    ensures CatalogList(names[..k]) <= CatalogList(names)
    decreases |names|
  {
    if k == |names| {
      assert names[..k] == names;
    } else {
      var init := names[..|names| - 1];
      CatalogListPrefix(init, k);
      assert init[..k] == names[..k];
    }
  }

  /** A slice that lies inside a prefix is the same in the prefix and in the whole. */
  lemma SliceOfPrefix(a: string, b: string, i: nat, j: nat)
    requires a <= b && i <= j <= |a|
    ensures b[i..j] == a[i..j]
  {
  }

  /** Offsets only depend on the names before them. */
  lemma {:induction false} OffsetsAgree(names: seq<string>, other: seq<string>, k: nat)
    requires k <= |names| && k <= |other| && names[..k] == other[..k]
    ensures Offset(names, k) == Offset(other, k)
  {
    if k > 0 {
      assert names[..k - 1] == other[..k - 1] by {
        assert names[..k][..k - 1] == names[..k - 1];
        assert other[..k][..k - 1] == other[..k - 1];
      }
      assert names[k - 1] == names[..k][k - 1] == other[..k][k - 1] == other[k - 1];
      OffsetsAgree(names, other, k - 1);
    }
  }

  /** Where a string `head + name + ", "` begins another, `name` and ", " sit right after `head`. */
  lemma EntryOfPrefix(head: string, name: string, list: string)
    requires head + name + ", " <= list
    ensures |head| + |name| + 2 <= |list|
    ensures list[|head|..|head| + |name|] == name
    ensures list[|head| + |name|..|head| + |name| + 2] == ", "
  {
    var e := head + name + ", ";
    assert e[|head|..|head| + |name|] == name;
    assert e[|head| + |name|..|head| + |name| + 2] == ", ";
  }

  /** Entry k of the list is `names[k]` followed by ", ", at its offset. */
  lemma {:induction false} CatalogListEntry(names: seq<string>, k: nat)
    requires k < |names|
    ensures Offset(names, k) + |names[k]| + 2 <= |CatalogList(names)|
    ensures CatalogList(names)[Offset(names, k)..Offset(names, k) + |names[k]|] == names[k]
    ensures CatalogList(names)[Offset(names, k) + |names[k]|..Offset(names, k) + |names[k]| + 2] == ", "
    decreases |names|
  {
    var init := names[..|names| - 1];
    var head, list := CatalogList(init), CatalogList(names);
    assert list == head + names[|names| - 1] + ", ";
    if k == |names| - 1 {
      assert Offset(names, k) == |head| by {
        OffsetIsLength(names, k);
        assert names[..k] == init;
      }
      EntryOfPrefix(head, names[k], list);
    } else {
      assert Offset(names, k) == Offset(init, k) by { OffsetsAgree(names, init, k); }
      CatalogListEntry(init, k);
      SliceOfPrefix(head, list, Offset(init, k), Offset(init, k) + |names[k]|);
      SliceOfPrefix(head, list, Offset(init, k) + |names[k]|, Offset(init, k) + |names[k]| + 2);
    }
  }

  /**
   * The catalog names of the collected rows, in order. The loop raises at the
   * first row whose `catalog_name` is absent (KeyError) or not a string
   * (TypeError, from `+ ', '`).
   */
  function CatalogNames(rows: seq<Row>): (r: Result<seq<string>, Fault>)
    ensures r.Success? ==> |r.value| == |rows|
    ensures r.Success? ==> forall i :: 0 <= i < |rows| ==> "catalog_name" in rows[i] && rows[i]["catalog_name"] == Str(r.value[i])
    ensures r.Failure? ==> (r.error == KeyError || r.error == TypeError)
    ensures r.Failure? ==> exists i :: 0 <= i < |rows| && !("catalog_name" in rows[i] && rows[i]["catalog_name"].Str?)
  {
    if rows == [] then Success([])
    else
      match CatalogNames(rows[..|rows| - 1])
      case Failure(f) => Failure(f)
      case Success(ns) =>
        var row := rows[|rows| - 1];
        if "catalog_name" !in row then Failure(KeyError)
        else if !row["catalog_name"].Str? then Failure(TypeError)
        else Success(ns + [row["catalog_name"].s])
  }

  /** Once a prefix of the rows fails, the whole loop fails the same way. */
  lemma {:induction false} CatalogNamesFailurePersists(rows: seq<Row>, k: nat)
    requires k <= |rows| && CatalogNames(rows[..k]).Failure?
    ensures CatalogNames(rows) == CatalogNames(rows[..k])
    decreases |rows|
  {
    if k < |rows| {
      var init := rows[..|rows| - 1];
      assert init[..k] == rows[..k];
      CatalogNamesFailurePersists(init, k);
    } else {
      assert rows[..k] == rows;
    }
  }

  /** What the loop of get_list_of_catalogs computes from the collected rows. */
  function JoinedCatalogs(rows: seq<Row>): Result<string, Fault>
  {
    match CatalogNames(rows)
    case Success(ns) => Success(CatalogList(ns))
    case Failure(f) => Failure(f)
  }

  /** The accumulation loop: `s_list_of_catalogs += row['catalog_name'] + ', '` for each row. */
  method JoinCatalogNames(rows: seq<Row>) returns (r: Result<string, Fault>)
    ensures r == JoinedCatalogs(rows)
  {
    var s := "";
    var i := 0;
    while i < |rows|
      invariant 0 <= i <= |rows|
      invariant CatalogNames(rows[..i]).Success?
      invariant s == CatalogList(CatalogNames(rows[..i]).value)
    {
      var row := rows[i];
      assert rows[..i + 1][..i] == rows[..i];
      assert rows[..i + 1][i] == row;
      if "catalog_name" !in row {
        CatalogNamesFailurePersists(rows, i + 1);
        return Failure(KeyError);
      }
      if !row["catalog_name"].Str? {
        CatalogNamesFailurePersists(rows, i + 1);
        return Failure(TypeError);
      }
      ghost var ns := CatalogNames(rows[..i]).value;
      assert CatalogNames(rows[..i + 1]) == Success(ns + [row["catalog_name"].s]);
      assert (ns + [row["catalog_name"].s])[..|ns|] == ns;
      s := s + row["catalog_name"].s + ", ";
      i := i + 1;
    }
    assert rows[..i] == rows;
    r := Success(s);
  }

  // ------------------------------------------------------------------
  // DDAEAuthentication

  /** The `sep_session` attribute: '' until a session is built, then None or the session. */
  datatype Slot = Blank | NoSession | Live(handle: SessionHandle)

  /** The connect and disconnect log lines concatenate these three; anything but a string raises TypeError. */
  predicate Loggable(username: Value, catalog: Value, schema: Value)
  {
    username.Str? && catalog.Str? && schema.Str?
  }

  /** The slot after the session builder was called at trace position i: unchanged when the call raised. */
  function SlotAfterCreate(w: World, i: nat, before: Slot): Slot
  {
    if w.fails(i).Some? then before
    else match w.session(i)
      case None => NoSession
      case Some(h) => Live(h)
  }

  /** The session slot: '' at first; None when the builder returns None; the returned session otherwise; unchanged when building raises. */
  lemma SlotAfterCreateCases(w: World, i: nat, before: Slot)
    ensures w.fails(i).Some? ==> SlotAfterCreate(w, i, before) == before
    ensures w.fails(i).None? && w.session(i).None? ==> SlotAfterCreate(w, i, before) == NoSession
    ensures w.fails(i).None? && w.session(i).Some? ==> SlotAfterCreate(w, i, before) == Live(w.session(i).value)
    ensures SlotAfterCreate(w, i, before).Live? ==> w.fails(i).None? || before.Live?
  {
  }

  /** The session settings and the session slot. */
  class DdaeAuthentication {
    const protocol: Value
    const host: Value
    const username: Value
    const password: Value
    const port: Value
    const catalog: Value
    const schema: Value
    const url: string := Url(protocol, host, port)
    var sepSession: Slot

    constructor (protocol: Value, host: Value, username: Value, password: Value, port: Value,
                 catalog: Value, schema: Value)
      ensures this.protocol == protocol && this.host == host && this.username == username
      ensures this.password == password && this.port == port && this.catalog == catalog && this.schema == schema
      ensures sepSession == Blank
    {
      this.protocol := protocol;
      this.host := host;
      this.username := username;
      this.password := password;
      this.port := port;
      this.catalog := catalog;
      this.schema := schema;
      sepSession := Blank;
    }

    /** The URL built at construction, returned unchanged: protocol, "://", host, ":", port. */
    function GetUrl(): (u: string)
      ensures u == Render(protocol) + "://" + Render(host) + ":" + Render(port)
    {
      UrlText(protocol, host, port);
      url
    }

    function GetToken(): Slot
      reads this
    {
      sepSession
    }

    /**
     * Builds a session from the protocol-dependent parameters. The log line
     * before the `try` raises TypeError unless user, catalog and schema are
     * strings; inside the `try` a raising builder leaves the slot as it was.
     */
    method Connect(services: Services) returns (raised: Option<Fault>)
      modifies this, services
      ensures raised.None? <==> Loggable(username, catalog, schema)
      ensures raised.Some? ==> raised == Some(TypeError) && services.trace == old(services.trace) && sepSession == old(sepSession)
      ensures raised.None? ==>
        && services.trace == old(services.trace) + [CreateSession(DbParametersFor(protocol, host, username, password, port))]
        && sepSession == SlotAfterCreate(services.world, |old(services.trace)|, old(sepSession))
    {
      var parameters := DbParametersFor(protocol, host, username, password, port);
      if !Loggable(username, catalog, schema) {
        return Some(TypeError);
      }
      var i := |services.trace|;
      var fault := services.Issue(CreateSession(parameters));
      if fault.None? {
        match services.world.session(i)
        case None => sepSession := NoSession;
        case Some(h) => sepSession := Live(h);
      }
      return None;
    }

    /** Closes the session; the close raising, or a slot holding no session, is caught and logged. */
    method Disconnect(services: Services) returns (raised: Option<Fault>)
      modifies services
      ensures raised.None? <==> Loggable(username, catalog, schema)
      ensures raised.Some? ==> raised == Some(TypeError)
      ensures services.trace == old(services.trace) +
        (if Loggable(username, catalog, schema) && sepSession.Live? then [CloseSession(sepSession.handle)] else [])
    {
      if !Loggable(username, catalog, schema) {
        return Some(TypeError);
      }
      if sepSession.Live? {
        var _ := services.Issue(CloseSession(sepSession.handle));
      }
      return None;
    }
  }

  // ------------------------------------------------------------------
  // DDAEDataProcessor

  /** One `sql(statement).collect()` per statement, on session h, in order. */
  function SqlRequests(h: SessionHandle, statements: seq<string>): seq<Request>
  {
    seq(|statements|, i requires 0 <= i < |statements| => Sql(h, statements[i]))
  }

  /**
   * Statements run one after the other on `sep_session` inside one `try ...
   * except Exception`: '' and None have no `sql` attribute, so nothing is
   * issued; a statement that raises skips the rest. Either way the exception
   * is logged and the caller goes on.
   */
  function Queries(w: World, trace: seq<Request>, slot: Slot, statements: seq<string>): seq<Request>
  {
    if slot.Live? then CallAll(w, Progress(trace, Running), SqlRequests(slot.handle, statements)).trace
    else trace
  }

  /**
   * A processor method whose log line, written before its `try`, concatenates
   * its name arguments: TypeError propagates unless they are strings;
   * otherwise the statements run inside the `try`.
   */
  function LoggedQueries(w: World, p: Progress, slot: Slot, loggable: bool, statements: seq<string>): Progress
  {
    if !p.status.Running? then p
    else if !loggable then Progress(p.trace, Raising(TypeError))
    else Progress(Queries(w, p.trace, slot, statements), Running)
  }

  /** create_ddae_hive_table: the schema statement, then the hive table statement. */
  function HiveTableSpec(w: World, p: Progress, slot: Slot, catalog: Value, schema: Value, table: Value,
                         location: Value, columns: Value): Progress
  {
    LoggedQueries(w, p, slot, catalog.Str? && schema.Str? && table.Str?,
                  [SchemaStatement(catalog, schema, location), HiveTableStatement(catalog, schema, table, columns, location)])
  }

  /** create_ddae_iceberg_table: the schema statement, then the iceberg table statement. */
  function IcebergTableSpec(w: World, p: Progress, slot: Slot, catalog: Value, schema: Value, table: Value,
                            location: Value, columns: Value): Progress
  {
    LoggedQueries(w, p, slot, catalog.Str? && schema.Str? && table.Str?,
                  [SchemaStatement(catalog, schema, location), IcebergTableStatement(catalog, schema, table, columns, location)])
  }

  /** drop_ddae_table */
  function DropTableSpec(w: World, p: Progress, slot: Slot, catalog: Value, schema: Value, table: Value): Progress
  {
    LoggedQueries(w, p, slot, catalog.Str? && schema.Str? && table.Str?, [DropTableStatement(catalog, schema, table)])
  }

  /** drop_ddae_schema: its log line concatenates only catalog and schema. */
  function DropSchemaSpec(w: World, p: Progress, slot: Slot, catalog: Value, schema: Value): Progress
  {
    LoggedQueries(w, p, slot, catalog.Str? && schema.Str?, [DropSchemaStatement(catalog, schema)])
  }

  /** What get_list_of_catalogs leaves: the requests, and the catalog list it logs (None when its `try` raised). */
  datatype Listed = Listed(progress: Progress, logged: Option<string>)

  /** get_list_of_catalogs: everything, the log lines included, sits inside the `try`. */
  function ListCatalogsSpec(w: World, p: Progress, slot: Slot): Listed
  {
    if !p.status.Running? || !slot.Live? then Listed(p, None)
    else
      var q := Caught(Call(w, p, Sql(slot.handle, CatalogsStatement())));
      if w.fails(|p.trace|).Some? then Listed(q, None)
      else
        match JoinedCatalogs(w.rows(|p.trace|))
        case Success(list) => Listed(q, Some(list))
        case Failure(_) => Listed(q, None)
  }

  /** get_table_details: the log line (TypeError), the missing session and `table` raising are all caught. */
  function TableDetailsSpec(w: World, p: Progress, slot: Slot, catalog: Value, schema: Value, table: Value): Progress
  {
    if !p.status.Running? || !(catalog.Str? && schema.Str? && table.Str?) || !slot.Live? then p
    else Caught(Call(w, p, LookupTable(slot.handle, QualifiedName(catalog.s, schema.s, table.s))))
  }

  /** Which branch get_customer_data takes: rows retrieved, no data, or the `try` raised. */
  datatype Report = Retrieved(count: nat) | NoData | Failed

  datatype Reported = Reported(progress: Progress, report: Report)

  /** get_customer_data: everything sits inside the `try`; the branch depends on the number of rows collected. */
  function CustomerDataSpec(w: World, p: Progress, slot: Slot, catalog: Value, schema: Value, table: Value): Reported
  {
    if !p.status.Running? || !(catalog.Str? && schema.Str? && table.Str?) || !slot.Live? then Reported(p, Failed)
    else
      var q := Caught(Call(w, p, Sql(slot.handle, CustomerQuery(catalog.s, schema.s, table.s))));
      var rows := w.rows(|p.trace|);
      if w.fails(|p.trace|).Some? then Reported(q, Failed)
      else if |rows| > 0 then Reported(q, Retrieved(|rows|))
      else Reported(q, NoData)
  }

  /** A single statement on a live session is one query, whatever it does. */
  lemma QueriesOne(w: World, trace: seq<Request>, h: SessionHandle, a: string)
    ensures Queries(w, trace, Live(h), [a]) == trace + [Sql(h, a)]
  {
    var rs := SqlRequests(h, [a]);
    assert rs == [Sql(h, a)];
    assert rs[1..] == [];
    var p := Progress(trace, Running);
    assert CallAll(w, p, rs) == CallAll(w, Call(w, p, rs[0]), rs[1..]);
  }

  /** Two statements on a live session: the second is issued exactly when the first did not raise. */
  lemma QueriesTwo(w: World, trace: seq<Request>, h: SessionHandle, a: string, b: string)
    ensures Queries(w, trace, Live(h), [a, b]) ==
      trace + [Sql(h, a)] + (if w.fails(|trace|).None? then [Sql(h, b)] else [])
  {
    var rs := SqlRequests(h, [a, b]);
    assert rs == [Sql(h, a), Sql(h, b)];
    assert rs[1..] == [Sql(h, b)];
    assert rs[1..][1..] == [];
    var p := Progress(trace, Running);
    var p1 := Call(w, p, Sql(h, a));
    assert CallAll(w, p, rs) == CallAll(w, p1, rs[1..]);
    if w.fails(|trace|).Some? {
      CallAllStopped(w, p1, rs[1..]);
    } else {
      assert CallAll(w, p1, rs[1..]) == CallAll(w, Call(w, p1, Sql(h, b)), rs[1..][1..]);
    }
  }

  /**
   * Statements on a live session: the queries issued are the first k of them,
   * in order, and all of them are issued exactly when none raises.
   */
  lemma QueriesPrefix(w: World, trace: seq<Request>, h: SessionHandle, statements: seq<string>)
    ensures exists k :: 0 <= k <= |statements| && Queries(w, trace, Live(h), statements) == trace + SqlRequests(h, statements)[..k]
    ensures (forall k :: |trace| <= k < |trace| + |statements| ==> w.fails(k).None?) ==>
      Queries(w, trace, Live(h), statements) == trace + SqlRequests(h, statements)
  {
    var rs := SqlRequests(h, statements);
    var p := Progress(trace, Running);
    CallAllPrefix(w, p, rs);
    var q := CallAll(w, p, rs);
    var k :| 0 <= k <= |rs| && q.trace == p.trace + rs[..k] && (q.status.Running? ==> k == |rs|);
    if k == |rs| {
      assert rs[..k] == rs;
    }
  }

  /**
   * create_ddae_hive_table on a session and string names: the schema
   * statement, then the table statement only when the schema statement did
   * not raise; the method returns normally either way.
   */
  lemma HiveTableRequests(w: World, p: Progress, h: SessionHandle, catalog: string, schema: string, table: string,
                          location: Value, columns: Value)
    requires p.status.Running?
    ensures var q := HiveTableSpec(w, p, Live(h), Str(catalog), Str(schema), Str(table), location, columns);
      && q.status.Running?
      && q.trace == p.trace + [Sql(h, SchemaStatement(Str(catalog), Str(schema), location))]
           + (if w.fails(|p.trace|).None?
              then [Sql(h, HiveTableStatement(Str(catalog), Str(schema), Str(table), columns, location))] else [])
  {
    QueriesTwo(w, p.trace, h, SchemaStatement(Str(catalog), Str(schema), location),
               HiveTableStatement(Str(catalog), Str(schema), Str(table), columns, location));
  }

  /** create_ddae_iceberg_table issues the same sequence with the iceberg table statement. */
  lemma IcebergTableRequests(w: World, p: Progress, h: SessionHandle, catalog: string, schema: string, table: string,
                             location: Value, columns: Value)
    requires p.status.Running?
    ensures var q := IcebergTableSpec(w, p, Live(h), Str(catalog), Str(schema), Str(table), location, columns);
      && q.status.Running?
      && q.trace == p.trace + [Sql(h, SchemaStatement(Str(catalog), Str(schema), location))]
           + (if w.fails(|p.trace|).None?
              then [Sql(h, IcebergTableStatement(Str(catalog), Str(schema), Str(table), columns, location))] else [])
  {
    QueriesTwo(w, p.trace, h, SchemaStatement(Str(catalog), Str(schema), location),
               IcebergTableStatement(Str(catalog), Str(schema), Str(table), columns, location));
  }

  /** The drops issue exactly their one statement and return normally, even when it raises. */
  lemma DropRequests(w: World, p: Progress, h: SessionHandle, catalog: string, schema: string, table: string)
    requires p.status.Running?
    ensures DropTableSpec(w, p, Live(h), Str(catalog), Str(schema), Str(table)) ==
      Progress(p.trace + [Sql(h, DropTableStatement(Str(catalog), Str(schema), Str(table)))], Running)
    ensures DropSchemaSpec(w, p, Live(h), Str(catalog), Str(schema)) ==
      Progress(p.trace + [Sql(h, DropSchemaStatement(Str(catalog), Str(schema)))], Running)
  {
    QueriesOne(w, p.trace, h, DropTableStatement(Str(catalog), Str(schema), Str(table)));
    QueriesOne(w, p.trace, h, DropSchemaStatement(Str(catalog), Str(schema)));
  }

  /** Without a session ('' or None) no processor method issues anything. */
  lemma NoSessionNoRequests(w: World, p: Progress, slot: Slot, catalog: Value, schema: Value, table: Value,
                            location: Value, columns: Value)
    requires !slot.Live?
    ensures HiveTableSpec(w, p, slot, catalog, schema, table, location, columns).trace == p.trace
    ensures IcebergTableSpec(w, p, slot, catalog, schema, table, location, columns).trace == p.trace
    ensures DropTableSpec(w, p, slot, catalog, schema, table).trace == p.trace
    ensures DropSchemaSpec(w, p, slot, catalog, schema).trace == p.trace
    ensures ListCatalogsSpec(w, p, slot) == Listed(p, None)
    ensures TableDetailsSpec(w, p, slot, catalog, schema, table) == p
    ensures CustomerDataSpec(w, p, slot, catalog, schema, table) == Reported(p, Failed)
  {
  }

  /**
   * Only the log lines outside the `try` let an exception out: the table
   * methods raise TypeError exactly when a name is not a string, and the
   * others never raise.
   */
  lemma ProcessorRaises(w: World, p: Progress, slot: Slot, catalog: Value, schema: Value, table: Value,
                        location: Value, columns: Value)
    requires p.status.Running?
    ensures var q := HiveTableSpec(w, p, slot, catalog, schema, table, location, columns);
      q.status.Running? <==> catalog.Str? && schema.Str? && table.Str?
    ensures var q := IcebergTableSpec(w, p, slot, catalog, schema, table, location, columns);
      q.status.Running? <==> catalog.Str? && schema.Str? && table.Str?
    ensures var q := DropTableSpec(w, p, slot, catalog, schema, table);
      q.status.Running? <==> catalog.Str? && schema.Str? && table.Str?
    ensures DropSchemaSpec(w, p, slot, catalog, schema).status.Running? <==> catalog.Str? && schema.Str?
    ensures !HiveTableSpec(w, p, slot, catalog, schema, table, location, columns).status.Running? ==>
      HiveTableSpec(w, p, slot, catalog, schema, table, location, columns) == Progress(p.trace, Raising(TypeError))
    ensures !IcebergTableSpec(w, p, slot, catalog, schema, table, location, columns).status.Running? ==>
      IcebergTableSpec(w, p, slot, catalog, schema, table, location, columns) == Progress(p.trace, Raising(TypeError))
    ensures !DropTableSpec(w, p, slot, catalog, schema, table).status.Running? ==>
      DropTableSpec(w, p, slot, catalog, schema, table) == Progress(p.trace, Raising(TypeError))
    ensures !DropSchemaSpec(w, p, slot, catalog, schema).status.Running? ==>
      DropSchemaSpec(w, p, slot, catalog, schema) == Progress(p.trace, Raising(TypeError))
    ensures ListCatalogsSpec(w, p, slot).progress.status.Running?
    ensures TableDetailsSpec(w, p, slot, catalog, schema, table).status.Running?
    ensures CustomerDataSpec(w, p, slot, catalog, schema, table).progress.status.Running?
  {
  }

  /**
   * get_list_of_catalogs on a session issues the catalog query, and logs the
   * list exactly when the query returned and every row has a string
   * `catalog_name`; the list logged is those names, each followed by ", ".
   */
  lemma ListCatalogsLogged(w: World, p: Progress, h: SessionHandle)
    requires p.status.Running?
    ensures var l := ListCatalogsSpec(w, p, Live(h));
      && l.progress == Progress(p.trace + [Sql(h, CatalogsStatement())], Running)
      && (l.logged.Some? <==> w.fails(|p.trace|).None? && CatalogNames(w.rows(|p.trace|)).Success?)
      && (l.logged.Some? ==> l.logged.value == CatalogList(CatalogNames(w.rows(|p.trace|)).value))
  {
  }

  /**
   * get_customer_data on a session and string names issues the customer
   * query; it reports rows exactly when the query returned at least one
   * row, with their number, and "no data" exactly when it returned none.
   */
  lemma CustomerReportIff(w: World, p: Progress, h: SessionHandle, catalog: string, schema: string, table: string)
    requires p.status.Running?
    ensures var r := CustomerDataSpec(w, p, Live(h), Str(catalog), Str(schema), Str(table));
      && r.progress == Progress(p.trace + [Sql(h, CustomerQuery(catalog, schema, table))], Running)
      && (r.report.Retrieved? <==> w.fails(|p.trace|).None? && |w.rows(|p.trace|)| > 0)
      && (r.report.Retrieved? ==> r.report.count == |w.rows(|p.trace|)|)
      && (r.report == NoData <==> w.fails(|p.trace|).None? && |w.rows(|p.trace|)| == 0)
  {
  }

  /** The processor: the configuration and the DDAEAuthentication whose `sep_session` it queries. */
  class DdaeDataProcessor {
    const configuration: Configuration
    const sepsession: DdaeAuthentication

    constructor (configuration: Configuration, sepsession: DdaeAuthentication)
      ensures this.configuration == configuration && this.sepsession == sepsession
    {
      this.configuration := configuration;
      this.sepsession := sepsession;
    }

    /** One `self.sepsession.sep_session.sql(statement).collect()`; false when it raised or there is no session. */
    method Query(services: Services, statement: string) returns (ok: bool)
      modifies services
      ensures var slot := sepsession.sepSession;
        && services.trace == old(services.trace) + (if slot.Live? then [Sql(slot.handle, statement)] else [])
        && (ok <==> slot.Live? && services.world.fails(|old(services.trace)|).None?)
    {
      var slot := sepsession.sepSession;
      if !slot.Live? {
        return false;
      }
      var fault := services.Issue(Sql(slot.handle, statement));
      ok := fault.None?;
    }

    /** Two statements in one `try`: the second only when the first succeeded. */
    method QueryBoth(services: Services, first: string, second: string)
      modifies services
      ensures services.trace == Queries(services.world, old(services.trace), sepsession.sepSession, [first, second])
    {
      if sepsession.sepSession.Live? {
        QueriesTwo(services.world, services.trace, sepsession.sepSession.handle, first, second);
      }
      var ok := Query(services, first);
      if ok {
        ok := Query(services, second);
      }
    }

    method CreateHiveTable(services: Services, catalog: Value, schema: Value, tableName: Value,
                           tableLocation: Value, tableColumns: Value) returns (raised: Option<Fault>)
      modifies services
      ensures Outcome(services.trace, raised) ==
        HiveTableSpec(services.world, Progress(old(services.trace), Running), sepsession.sepSession,
                      catalog, schema, tableName, tableLocation, tableColumns)
    {
      if !(catalog.Str? && schema.Str? && tableName.Str?) {
        return Some(TypeError);
      }
      ghost var before := services.trace;
      var statements := [SchemaStatement(catalog, schema, tableLocation),
                         HiveTableStatement(catalog, schema, tableName, tableColumns, tableLocation)];
      QueryBoth(services, statements[0], statements[1]);
      assert [statements[0], statements[1]] == statements;
      assert HiveTableSpec(services.world, Progress(before, Running), sepsession.sepSession,
                           catalog, schema, tableName, tableLocation, tableColumns)
        == LoggedQueries(services.world, Progress(before, Running), sepsession.sepSession, true, statements);
      return None;
    }

    method CreateIcebergTable(services: Services, catalog: Value, schema: Value, tableName: Value,
                              tableLocation: Value, tableColumns: Value) returns (raised: Option<Fault>)
      modifies services
      ensures Outcome(services.trace, raised) ==
        IcebergTableSpec(services.world, Progress(old(services.trace), Running), sepsession.sepSession,
                         catalog, schema, tableName, tableLocation, tableColumns)
    {
      if !(catalog.Str? && schema.Str? && tableName.Str?) {
        return Some(TypeError);
      }
      ghost var before := services.trace;
      var statements := [SchemaStatement(catalog, schema, tableLocation),
                         IcebergTableStatement(catalog, schema, tableName, tableColumns, tableLocation)];
      QueryBoth(services, statements[0], statements[1]);
      assert [statements[0], statements[1]] == statements;
      assert IcebergTableSpec(services.world, Progress(before, Running), sepsession.sepSession,
                           catalog, schema, tableName, tableLocation, tableColumns)
        == LoggedQueries(services.world, Progress(before, Running), sepsession.sepSession, true, statements);
      return None;
    }

    method DropTable(services: Services, catalog: Value, schema: Value, tableName: Value) returns (raised: Option<Fault>)
      modifies services
      ensures Outcome(services.trace, raised) ==
        DropTableSpec(services.world, Progress(old(services.trace), Running), sepsession.sepSession, catalog, schema, tableName)
    {
      if !(catalog.Str? && schema.Str? && tableName.Str?) {
        return Some(TypeError);
      }
      if sepsession.sepSession.Live? {
        QueriesOne(services.world, services.trace, sepsession.sepSession.handle, DropTableStatement(catalog, schema, tableName));
      }
      var _ := Query(services, DropTableStatement(catalog, schema, tableName));
      return None;
    }

    method DropSchema(services: Services, catalog: Value, schema: Value) returns (raised: Option<Fault>)
      modifies services
      ensures Outcome(services.trace, raised) ==
        DropSchemaSpec(services.world, Progress(old(services.trace), Running), sepsession.sepSession, catalog, schema)
    {
      if !(catalog.Str? && schema.Str?) {
        return Some(TypeError);
      }
      if sepsession.sepSession.Live? {
        QueriesOne(services.world, services.trace, sepsession.sepSession.handle, DropSchemaStatement(catalog, schema));
      }
      var _ := Query(services, DropSchemaStatement(catalog, schema));
      return None;
    }

    /** Returns the catalog list it logs, or None when its `try` caught an exception. */
    method GetListOfCatalogs(services: Services) returns (logged: Option<string>)
      modifies services
      ensures Listed(Progress(services.trace, Running), logged) ==
        ListCatalogsSpec(services.world, Progress(old(services.trace), Running), sepsession.sepSession)
    {
      var slot := sepsession.sepSession;
      if !slot.Live? {
        return None;
      }
      var i := |services.trace|;
      var fault := services.Issue(Sql(slot.handle, CatalogsStatement()));
      if fault.Some? {
        return None;
      }
      var joined := JoinCatalogNames(services.world.rows(i));
      if joined.Failure? {
        return None;
      }
      return Some(joined.value);
    }

    method GetTableDetails(services: Services, catalog: Value, schema: Value, tableName: Value)
      modifies services
      ensures Progress(services.trace, Running) ==
        TableDetailsSpec(services.world, Progress(old(services.trace), Running), sepsession.sepSession, catalog, schema, tableName)
    {
      var slot := sepsession.sepSession;
      if !(catalog.Str? && schema.Str? && tableName.Str?) || !slot.Live? {
        return;
      }
      var _ := services.Issue(LookupTable(slot.handle, QualifiedName(catalog.s, schema.s, tableName.s)));
    }

    /** Returns which branch was taken: rows retrieved (how many), no data, or an exception caught. */
    method GetCustomerData(services: Services, catalog: Value, schema: Value, tableName: Value) returns (report: Report)
      modifies services
      ensures Reported(Progress(services.trace, Running), report) ==
        CustomerDataSpec(services.world, Progress(old(services.trace), Running), sepsession.sepSession, catalog, schema, tableName)
    {
      var slot := sepsession.sepSession;
      if !(catalog.Str? && schema.Str? && tableName.Str?) || !slot.Live? {
        return Failed;
      }
      var i := |services.trace|;
      var fault := services.Issue(Sql(slot.handle, CustomerQuery(catalog.s, schema.s, tableName.s)));
      if fault.Some? {
        return Failed;
      }
      var rows := services.world.rows(i);
      if |rows| > 0 {
        report := Retrieved(|rows|);
      } else {
        report := NoData;
      }
    }
  }
}
