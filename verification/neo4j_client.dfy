/** The graph-database client: database selection, connectivity probing,
    session-scoped query and transaction execution, record mapping, and the
    node/relationship convenience calls built on them. The driver is
    abstract: what `session.run`, `session.executeWrite`, `session.close` and
    `getServerInfo` do is given to each call as a parameter, so every
    possible driver behaviour is covered by the contracts. */
module Neo4jClient {
  import opened Wrappers
  import opened GraphTypes
  import opened Normalize
  import opened CypherText

  /** Connection settings; `database` may be left out. */
  datatype Config = Config(url: string, username: string, password: string, database: Option<string>)

  /** A client: its settings and the database it uses when a call names none. */
  datatype Client = Client(config: Config, defaultDatabase: string)

  /** An error thrown by the driver. */
  datatype DriverError = DriverError(code: string, message: string)

  /** What `getServerInfo` resolves to; the driver may also resolve to nothing. */
  datatype ServerInfo = ServerInfo(address: string, agent: string, protocolVersion: real)

  /** Options of a write transaction, handed to the driver uninterpreted;
      both fields are optional. */
  datatype TransactionConfig = TransactionConfig(timeout: Option<real>, metadata: Option<map<string, RawValue>>)

  /** One driver record: its column keys in order, each with its value. */
  datatype DriverRecord = DriverRecord(entries: seq<(string, RawValue)>)

  /** What `session.run` resolves to. */
  datatype DriverResult = DriverResult(
    records: seq<DriverRecord>,
    queryText: string,
    queryParameters: map<string, RawValue>,
    resultAvailableAfter: RawValue,
    resultConsumedAfter: RawValue)

  /** The summary the client returns with the records. */
  datatype Summary = Summary(
    queryText: string,
    queryParameters: map<string, RawValue>,
    resultAvailableAfter: PlainValue,
    resultConsumedAfter: PlainValue)

  /** What `executeQuery` returns: one plain object per record, and a summary. */
  datatype QueryResult = QueryResult(records: seq<map<string, PlainValue>>, summary: Summary)

  /** What a call does with the driver, in order. */
  datatype SessionEvent =
    | Opened(database: string)
    | Ran(query: string, parameters: map<string, RawValue>)
    | ExecutedWrite(txConfig: Option<TransactionConfig>)
    | Closed

  /** JavaScript truthiness of an optional string: present and non-empty. */
  predicate Truthy(value: Option<string>) {
    value.Some? && value.value != ""
  }

  /** JavaScript's `value || fallback` on an optional string: an absent or
      empty string falls through to the fallback. */
  function OrElse(value: Option<string>, fallback: string): (r: string)
    ensures Truthy(value) ==> r == value.value
    ensures value == None || value == Some("") ==> r == fallback
  {
    if Truthy(value) then value.value else fallback
  }

  /** The constructor: the default database is the configured one when it is
      a non-empty string, and "neo4j" otherwise. */
  function NewClient(config: Config): (c: Client)
    ensures c.config == config
    ensures c.defaultDatabase != ""
    ensures Truthy(config.database) ==> c.defaultDatabase == config.database.value
    ensures !Truthy(config.database) ==> c.defaultDatabase == "neo4j"
  {
    Client(config, OrElse(config.database, "neo4j"))
  }

  /** The database `getSession(database)` opens its session on. */
  function SessionDatabase(client: Client, database: Option<string>): string {
    OrElse(database, client.defaultDatabase)
  }

  /** A session of a freshly built client goes to the named database if one
      is given, else to the configured database, else to "neo4j"; it is never
      the empty name. */
  lemma SessionDatabaseChoice(config: Config, database: Option<string>)
    ensures SessionDatabase(NewClient(config), database) != ""
    ensures Truthy(database) ==> SessionDatabase(NewClient(config), database) == database.value
    ensures !Truthy(database) && Truthy(config.database) ==>
      SessionDatabase(NewClient(config), database) == config.database.value
    ensures !Truthy(database) && !Truthy(config.database) ==>
      SessionDatabase(NewClient(config), database) == "neo4j"
  {
  }

  /** `verifyConnectivity`: never throws; true exactly when `getServerInfo`
      resolved to some server information. */
  function VerifyConnectivity(probe: Result<Option<ServerInfo>, DriverError>): (connected: bool)
    ensures probe.Failure? ==> !connected
    ensures connected <==> exists info :: probe == Success(Some(info))
  {
    probe.Success? && probe.value.Some?
  }

  /** The record's column keys, in order. */
  function RecordKeys(rec: DriverRecord): (keys: seq<string>)
    ensures |keys| == |rec.entries|
    ensures forall i :: 0 <= i < |keys| ==> keys[i] == rec.entries[i].0
  {
    seq(|rec.entries|, i requires 0 <= i < |rec.entries| => rec.entries[i].0)
  }

  /** `record.get(key)`: the value stored under `key`. Column names in a
      driver record are distinct (Cypher rejects a query that returns two
      columns of the same name), so which match is taken does not matter. */
  function Get(rec: DriverRecord, key: string): (v: RawValue)
    requires key in RecordKeys(rec)
    ensures exists i :: 0 <= i < |rec.entries| && rec.entries[i] == (key, v)
    decreases |rec.entries|
  {
    if rec.entries[0].0 == key then rec.entries[0].1
    else
      assert key in RecordKeys(DriverRecord(rec.entries[1..])) by {
        var i :| 0 <= i < |rec.entries| && rec.entries[i].0 == key;
        assert RecordKeys(DriverRecord(rec.entries[1..]))[i - 1] == key;
      }
      var v := Get(DriverRecord(rec.entries[1..]), key);
      assert exists i :: 0 <= i < |rec.entries| && rec.entries[i] == (key, v) by {
        var j :| 0 <= j < |rec.entries[1..]| && rec.entries[1..][j] == (key, v);
        assert rec.entries[j + 1] == (key, v);
      }
      v
  }

  /** The object a record maps to: exactly the record's keys, each with its
      value normalised. */
  ghost predicate IsRecordObject(cv: Conversions, rec: DriverRecord, obj: map<string, PlainValue>) {
    && (forall k :: k in obj <==> k in RecordKeys(rec))
    && (forall k :: k in obj ==> k in RecordKeys(rec) && obj[k] == TransformValue(cv, Get(rec, k)))
  }

  /** Maps one record to an object by visiting its columns in order and
      storing the normalised value of each key; the resulting map does not
      record an order of its keys. */
  method MapRecord(cv: Conversions, rec: DriverRecord) returns (mapped: map<string, PlainValue>)
    ensures IsRecordObject(cv, rec, mapped)
  {
    var keys := RecordKeys(rec);
    mapped := map[];
    var i := 0;
    while i < |keys|
      invariant 0 <= i <= |keys|
      invariant forall k :: k in mapped <==> k in keys[..i]
      invariant forall k :: k in mapped ==> k in keys && mapped[k] == TransformValue(cv, Get(rec, k))
    {
      var key := keys[i];
      mapped := mapped[key := TransformValue(cv, Get(rec, key))];
      assert keys[..i + 1] == keys[..i] + [key];
      i := i + 1;
    }
    assert keys[..i] == keys;
  }

  /** Maps every record of a result: one object per record, in order. */
  method MapRecords(cv: Conversions, recs: seq<DriverRecord>) returns (objs: seq<map<string, PlainValue>>)
    ensures |objs| == |recs|
    ensures forall i :: 0 <= i < |recs| ==> IsRecordObject(cv, recs[i], objs[i])
  {
    objs := [];
    var i := 0;
    while i < |recs|
      invariant 0 <= i <= |recs|
      invariant |objs| == i
      invariant forall j :: 0 <= j < i ==> IsRecordObject(cv, recs[j], objs[j])
    {
      var obj := MapRecord(cv, recs[i]);
      objs := objs + [obj];
      i := i + 1;
    }
  }

  /** How many times a trace closes its session. */
  function CloseCount(events: seq<SessionEvent>): (n: nat)
    ensures n <= |events|
    ensures n == 0 <==> Closed !in events
  {
    if events == [] then 0
    else (if events[0] == Closed then 1 else 0) + CloseCount(events[1..])
  }

  /** How many sessions a trace opens. */
  function OpenCount(events: seq<SessionEvent>): (n: nat)
    ensures n <= |events|
    ensures n == 0 <==> forall i :: 0 <= i < |events| ==> !events[i].Opened?
  {
    if events == [] then 0
    else (if events[0].Opened? then 1 else 0) + OpenCount(events[1..])
  }

  /** A trace of one session-scoped call: it opens one session on `db`
      first, closes it last, and neither opens nor closes in between. */
  predicate SessionScoped(events: seq<SessionEvent>, db: string) {
    && |events| >= 2
    && events[0] == Opened(db)
    && events[|events| - 1] == Closed
    && forall i :: 0 < i < |events| - 1 ==> !events[i].Opened? && events[i] != Closed
  }

  /** A session-scoped trace opens exactly once and closes exactly once. */
  lemma {:induction false} ScopedOpensAndClosesOnce(events: seq<SessionEvent>, db: string)
    requires SessionScoped(events, db)
    ensures OpenCount(events) == 1 && CloseCount(events) == 1
  {
    var middle := events[1..|events| - 1];
    assert events == [events[0]] + middle + [Closed];
    MiddleCounts(middle);
    CountsAppend(middle, [Closed]);
    assert events[1..] == middle + [Closed];
  }

  /** A stretch of trace that neither opens nor closes counts zero of both. */
  lemma {:induction false} MiddleCounts(middle: seq<SessionEvent>)
    requires forall i :: 0 <= i < |middle| ==> !middle[i].Opened? && middle[i] != Closed
    ensures OpenCount(middle) == 0 && CloseCount(middle) == 0
  {
    assert forall i :: 0 <= i < |middle| ==> middle[i] != Closed;
  }

  /** Counts add up over a concatenation of traces. */
  lemma {:induction false} CountsAppend(a: seq<SessionEvent>, b: seq<SessionEvent>)
    ensures OpenCount(a + b) == OpenCount(a) + OpenCount(b)
    ensures CloseCount(a + b) == CloseCount(a) + CloseCount(b)
  {
    if a == [] {
      assert a + b == b;
    } else {
      assert (a + b)[1..] == a[1..] + b;
      CountsAppend(a[1..], b);
    }
  }

  /** The outcome `executeQuery` settles on: an error thrown by the close
      replaces any other outcome (JavaScript's `finally`); otherwise an error
      thrown by the run propagates; otherwise the result holds one mapped
      object per driver record, in order, and the summary with its timings
      normalised. */
  ghost predicate QueryOutcome(cv: Conversions, run: Result<DriverResult, DriverError>,
                               closeError: Option<DriverError>,
                               outcome: Result<QueryResult, DriverError>) {
    match closeError
    case Some(e) => outcome == Failure(e)
    case None =>
      match run
      case Failure(e) => outcome == Failure(e)
      case Success(result) =>
        && outcome.Success?
        && |outcome.value.records| == |result.records|
        && (forall i :: 0 <= i < |result.records| ==>
              IsRecordObject(cv, result.records[i], outcome.value.records[i]))
        && outcome.value.summary == Summary(result.queryText, result.queryParameters,
                                           TransformValue(cv, result.resultAvailableAfter),
                                           TransformValue(cv, result.resultConsumedAfter))
  }

  /** `executeQuery`: opens a session, runs the query, maps every record and
      the timings, and closes the session in a `finally`. `openError` is what
      `driver.session` throws, if anything: that happens before the `try`, so
      the error propagates and there is no session to close. `run` is what
      `session.run` resolves or throws; `closeError` is what `session.close`
      throws, if anything — an error thrown by the close replaces any other
      outcome, as in JavaScript's `finally`. */
  method ExecuteQuery(client: Client, cv: Conversions, query: string, params: map<string, RawValue>,
                      database: Option<string>, openError: Option<DriverError>,
                      run: Result<DriverResult, DriverError>, closeError: Option<DriverError>)
    returns (outcome: Result<QueryResult, DriverError>, events: seq<SessionEvent>)
    ensures openError.Some? <==> events == []
    ensures openError.Some? ==> outcome == Failure(openError.value)
    ensures openError.None? ==> SessionScoped(events, SessionDatabase(client, database))
    ensures openError.None? ==>
              events == [Opened(SessionDatabase(client, database)), Ran(query, params), Closed]
    ensures openError.None? ==> QueryOutcome(cv, run, closeError, outcome)
  {
    if openError.Some? {
      return Failure(openError.value), [];
    }
    var session := SessionDatabase(client, database);
    events := [Opened(session)];
    var body: Result<QueryResult, DriverError>;
    // try
    events := events + [Ran(query, params)];
    match run {
      case Failure(e) =>
        body := Failure(e);
      case Success(result) =>
        var records := MapRecords(cv, result.records);
        body := Success(QueryResult(records, Summary(
          result.queryText, result.queryParameters,
          TransformValue(cv, result.resultAvailableAfter),
          TransformValue(cv, result.resultConsumedAfter))));
    }
    // finally
    events := events + [Closed];
    if closeError.Some? {
      outcome := Failure(closeError.value);
    } else {
      outcome := body;
    }
  }

  /** `executeTransaction`: opens a session, hands the transaction function
      to `session.executeWrite` and returns what that resolves to unchanged,
      closing the session in a `finally`. An error thrown by `driver.session`
      comes before the `try` and propagates with no session to close.
      `written` is what `executeWrite` resolves or throws (the driver runs, and
      may retry, the function). */
  method ExecuteTransaction<T>(client: Client, txConfig: Option<TransactionConfig>,
                               database: Option<string>, openError: Option<DriverError>,
                               written: Result<T, DriverError>, closeError: Option<DriverError>)
    returns (outcome: Result<T, DriverError>, events: seq<SessionEvent>)
    ensures openError.Some? <==> events == []
    ensures openError.Some? ==> outcome == Failure(openError.value)
    ensures openError.None? ==> SessionScoped(events, SessionDatabase(client, database))
    ensures openError.None? ==>
              events == [Opened(SessionDatabase(client, database)), ExecutedWrite(txConfig), Closed]
    ensures openError.None? && closeError.Some? ==> outcome == Failure(closeError.value)
    ensures openError.None? && closeError.None? ==> outcome == written
  {
    if openError.Some? {
      return Failure(openError.value), [];
    }
    var session := SessionDatabase(client, database);
    events := [Opened(session)];
    var body: Result<T, DriverError>;
    // try
    events := events + [ExecutedWrite(txConfig)];
    body := written;
    // finally
    events := events + [Closed];
    if closeError.Some? {
      outcome := Failure(closeError.value);
    } else {
      outcome := body;
    }
  }

  /** `createNode`: the labels are written into the query text, the
      properties are passed only as the `$properties` parameter. */
  method CreateNode(client: Client, cv: Conversions, labels: seq<string>,
                    properties: map<string, RawValue>, database: Option<string>,
                    openError: Option<DriverError>, run: Result<DriverResult, DriverError>,
                    closeError: Option<DriverError>)
    returns (outcome: Result<QueryResult, DriverError>, events: seq<SessionEvent>)
    ensures openError.Some? <==> events == []
    ensures openError.Some? ==> outcome == Failure(openError.value)
    ensures openError.None? ==> SessionScoped(events, SessionDatabase(client, database))
    ensures openError.None? ==> events[1] == Ran(CreateNodeQuery(labels), map["properties" := RObject(properties)])
    ensures openError.None? ==> QueryOutcome(cv, run, closeError, outcome)
  {
    outcome, events := ExecuteQuery(client, cv, CreateNodeQuery(labels),
                                    map["properties" := RObject(properties)],
                                    database, openError, run, closeError);
  }

  /** `findNodes`: the labels go into the query text, the property filter is
      the `$properties` parameter. */
  method FindNodes(client: Client, cv: Conversions, labels: seq<string>,
                   properties: map<string, RawValue>, database: Option<string>,
                   openError: Option<DriverError>, run: Result<DriverResult, DriverError>,
                   closeError: Option<DriverError>)
    returns (outcome: Result<QueryResult, DriverError>, events: seq<SessionEvent>)
    ensures openError.Some? <==> events == []
    ensures openError.Some? ==> outcome == Failure(openError.value)
    ensures openError.None? ==> SessionScoped(events, SessionDatabase(client, database))
    ensures openError.None? ==> events[1] == Ran(FindNodesQuery(labels), map["properties" := RObject(properties)])
    ensures openError.None? ==> QueryOutcome(cv, run, closeError, outcome)
  {
    outcome, events := ExecuteQuery(client, cv, FindNodesQuery(labels),
                                    map["properties" := RObject(properties)],
                                    database, openError, run, closeError);
  }

  /** `createRelationship`: the type goes into the query text; both node ids
      and the properties are parameters. */
  method CreateRelationship(client: Client, cv: Conversions, startNodeId: string, endNodeId: string,
                            relType: string, properties: map<string, RawValue>,
                            database: Option<string>,
                            openError: Option<DriverError>, run: Result<DriverResult, DriverError>,
                            closeError: Option<DriverError>)
    returns (outcome: Result<QueryResult, DriverError>, events: seq<SessionEvent>)
    ensures openError.Some? <==> events == []
    ensures openError.Some? ==> outcome == Failure(openError.value)
    ensures openError.None? ==> SessionScoped(events, SessionDatabase(client, database))
    ensures openError.None? ==> events[1] == Ran(CreateRelationshipQuery(relType),
                             map["startNodeId" := RString(startNodeId),
                                 "endNodeId" := RString(endNodeId),
                                 "properties" := RObject(properties)])
    ensures openError.None? ==> QueryOutcome(cv, run, closeError, outcome)
  {
    outcome, events := ExecuteQuery(client, cv, CreateRelationshipQuery(relType),
                                    map["startNodeId" := RString(startNodeId),
                                        "endNodeId" := RString(endNodeId),
                                        "properties" := RObject(properties)],
                                    database, openError, run, closeError);
  }
}
