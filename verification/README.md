# Graph client normalisation, todo list and sign-up validators in Dafny

This project models the three pieces of logic in the starter-template repository that carry behaviour of their own:

- **The graph-database client** (`Neo4jClient`). It normalises values. Driver integers become numbers. Temporal values become strings. Nodes and relationships become plain objects. Arrays and objects are normalised recursively, and everything else passes through. The client also picks the session database, probes connectivity without throwing, and maps driver records to objects. It builds the query texts of `createNode`, `findNodes` and `createRelationship`, and it runs every query and write transaction in a session that it closes in a `finally`.
- **The todo widget** (`Todo`). Add, toggle and delete are modelled as pure functions over the list.
- **The sign-up form** (`signUp`). It has five field validators, its default values, and an e-mail regular expression, restated as a predicate over strings.

Modules:

| file | module | models |
|---|---|---|
| `wrappers.dfy` | `Wrappers` | `Option` (JavaScript `undefined`) and `Result` (a value or a thrown error) |
| `js_text.dfy` | `JsText` | JavaScript white space (the set `trim` removes and `\s` matches) and `trim` |
| `graph_types.dfy` | `GraphTypes` | raw driver values, plain values, and the `Node`/`Relationship` shapes |
| `normalize.dfy` | `Normalize` | `transformValue`, `transformProperties`, and idempotence of normalisation |
| `cypher_text.dfy` | `CypherText` | the label string and the three query templates |
| `neo4j_client.dfy` | `Neo4jClient` | the client: database choice, connectivity, record mapping, sessions, convenience calls |
| `todo_list.dfy` | `TodoList` | `handleAddTodo`, `handleToggleTodo`, `handleDeleteTodo` |
| `sign_up.dfy` | `SignUp` | the five `onChange` validators and the default values |

The driver is abstract. `ExecuteQuery`, `ExecuteTransaction` and the convenience methods each take as parameters what `driver.session` throws, what `session.run` or `session.executeWrite` resolves to or throws, and what `session.close` throws. Their contracts therefore hold for every driver behaviour. Each call returns the trace of what it did with the session (`Opened`, `Ran`/`ExecutedWrite`, `Closed`). Close-exactly-once is stated about that trace.

Three driver-defined conversions are fields of a `Conversions` value:

- `Integer.toNumber`, which loses precision above 2^53;
- `Integer.toString`;
- the temporal `toString`.

Normalisation is proved for every choice of these conversions.

Points of the client's behaviour that the model states exactly:

- The configuration's server address field is `url`.
- A node's `labels` are an ordered array: order and repetitions are kept.
- The summary holds `query.text`, `query.parameters`, `resultAvailableAfter` and `resultConsumedAfter`.
- An empty-string database name counts as absent, because of JavaScript's `||`. It falls back to the default: `config.database` when that is non-empty, else `"neo4j"`.
- An error thrown by `session.close()` in the `finally` replaces whatever the call would have returned or thrown, as JavaScript's `finally` does.
- An error thrown by `driver.session()` happens before the `try`: it propagates, and no session is opened or closed.

## Model

| member | source | states |
|---|---|---|
| JsText.Trim | app/components/Todo.tsx:14 | `trim` returns a contiguous part of its input preceded and followed only by white space, with no white space at either of its own ends, and it is empty exactly when the input is all white space |
| GraphTypes.ReadNode | packages/graph-db/src/neo4j/types.ts:41-48 | a plain value read as a node is exactly the `{id, labels, properties}` object of that node |
| GraphTypes.ReadRelationship | packages/graph-db/src/neo4j/types.ts:53-64 | a plain value read as a relationship is exactly the five-key object of that relationship |
| GraphTypes.NodeRoundTrip | packages/graph-db/src/neo4j/types.ts:41-48 | a node written as a plain object reads back as the same node |
| GraphTypes.RelationshipRoundTrip | packages/graph-db/src/neo4j/types.ts:53-64 | a relationship written as a plain object reads back as the same relationship |
| Normalize.TransformValue | packages/graph-db/src/neo4j/Neo4jClient.ts:208-241 | integers become numbers and temporal values strings; nodes and relationships become objects readable as `Node`/`Relationship`; arrays map element-wise with the same length and order; objects map over exactly their own keys; other scalars pass through unchanged |
| Normalize.TransformProperties | packages/graph-db/src/neo4j/Neo4jClient.ts:249-261 | the result has exactly the input's keys, each with its value normalised; it is what `transformValue` makes of the same object, and properties that are already plain come back unchanged |
| Normalize.TransformFixesPlain | packages/graph-db/src/neo4j/Neo4jClient.ts:234-240 | normalising an already normalised value gives back that value |
| Normalize.NormalizeIdempotent | packages/graph-db/src/neo4j/Neo4jClient.ts:208-241 | normalising twice equals normalising once |
| Normalize.TransformUnchangedIffPlain | packages/graph-db/src/neo4j/Neo4jClient.ts:209-240 | for values made of arrays, plain objects and scalars, normalisation leaves a value unchanged exactly when no driver wrapper (integer, temporal, node, relationship) occurs anywhere in it |
| Normalize.NodeNormalized | packages/graph-db/src/neo4j/Neo4jClient.ts:220-225 | a node normalises to `{id, labels, properties}`: the identity as a string, the labels unchanged, the properties normalised |
| Normalize.RelationshipNormalized | packages/graph-db/src/neo4j/Neo4jClient.ts:226-233 | a relationship normalises to `{id, type, properties, startNodeId, endNodeId}`: identities as strings, the type unchanged, the properties normalised |
| CypherText.LabelsString | packages/graph-db/src/neo4j/Neo4jClient.ts:140 | the label string is empty exactly for no labels, and otherwise starts with `:` |
| CypherText.LabelsStringAppend | packages/graph-db/src/neo4j/Neo4jClient.ts:140 | the label string of `a + b` is that of `a` followed by that of `b`, so labels appear in input order |
| CypherText.ParseLabelsString | packages/graph-db/src/neo4j/Neo4jClient.ts:140 | labels that contain no `:` are recovered exactly from their label string |
| CypherText.LabelsStringAmbiguous | packages/graph-db/src/neo4j/Neo4jClient.ts:140 | labels are not escaped: `["Person:Admin"]` and `["Person", "Admin"]` give the same label string |
| CypherText.CreateNodeQueryEmbedsLabels | packages/graph-db/src/neo4j/Neo4jClient.ts:141-144 | the `createNode` query is the label string between the fixed text `CREATE (n` and the fixed text ` $properties)` / `RETURN n`; the property values are not part of the text |
| CypherText.FindNodesQueryEmbedsLabels | packages/graph-db/src/neo4j/Neo4jClient.ts:192-196 | the `findNodes` query is the label string between the fixed text `MATCH (n` and the fixed `WHERE ALL(...)` / `RETURN n` text; the property filter values are not part of the text |
| Neo4jClient.OrElse | packages/graph-db/src/neo4j/Neo4jClient.ts:59 | the JavaScript "or" default gives the value when it is a non-empty string, and otherwise the fallback |
| Neo4jClient.NewClient | packages/graph-db/src/neo4j/Neo4jClient.ts:21-28 | the default database is `config.database` when non-empty, else `"neo4j"`, and it is never empty |
| Neo4jClient.SessionDatabaseChoice | packages/graph-db/src/neo4j/Neo4jClient.ts:57-61 | the session database is the argument if given and non-empty, else the configured database if non-empty, else `"neo4j"` |
| Neo4jClient.VerifyConnectivity | packages/graph-db/src/neo4j/Neo4jClient.ts:34-42 | never throws; it is false when `getServerInfo` throws, and true exactly when it resolved to some server information |
| Neo4jClient.Get | packages/graph-db/src/neo4j/Neo4jClient.ts:84 | `record.get(key)` returns a value stored under that key in the record |
| Neo4jClient.MapRecord | packages/graph-db/src/neo4j/Neo4jClient.ts:81-87 | the mapped object has exactly the record's keys, each with its value normalised |
| Neo4jClient.MapRecords | packages/graph-db/src/neo4j/Neo4jClient.ts:81 | one mapped object per driver record, in order |
| Neo4jClient.ScopedOpensAndClosesOnce | packages/graph-db/src/neo4j/Neo4jClient.ts:75-103 | a session-scoped trace opens exactly one session and closes it exactly once |
| Neo4jClient.ExecuteQuery | packages/graph-db/src/neo4j/Neo4jClient.ts:70-104 | if opening the session throws, that error propagates and nothing is opened or closed. Otherwise it opens one session on the chosen database, runs the query once, and closes the session exactly once on every path. A run error propagates after the close, and a close error replaces any other outcome. On success the records are mapped one-to-one and the timings normalised |
| Neo4jClient.ExecuteTransaction | packages/graph-db/src/neo4j/Neo4jClient.ts:113-126 | if opening the session throws, that error propagates and nothing is opened or closed. Otherwise it returns what `executeWrite` resolves to, unchanged, or propagates its error, and the session is closed exactly once on every path; a close error replaces the outcome |
| Neo4jClient.CreateNode | packages/graph-db/src/neo4j/Neo4jClient.ts:135-147 | if opening the session throws, that error propagates with no session. Otherwise it runs the `createNode` query in one closed-once session, with the properties only as the `$properties` parameter. Its outcome is that of `executeQuery` |
| Neo4jClient.FindNodes | packages/graph-db/src/neo4j/Neo4jClient.ts:186-199 | if opening the session throws, that error propagates with no session. Otherwise it runs the `findNodes` query in one closed-once session, with the property filter only as the `$properties` parameter. Its outcome is that of `executeQuery` |
| Neo4jClient.CreateRelationship | packages/graph-db/src/neo4j/Neo4jClient.ts:158-177 | if opening the session throws, that error propagates with no session. Otherwise it runs the relationship query in one closed-once session, with both node ids and the properties as parameters. Its outcome is that of `executeQuery` |
| TodoList.AddTodo | app/components/Todo.tsx:13-24 | all-white-space input changes nothing. Otherwise exactly one open todo with the untrimmed text is appended, earlier todos are unchanged, and the input resets to `""` |
| TodoList.Toggle | app/components/Todo.tsx:26-32 | keeps length, order, ids and texts, and flips `completed` exactly on the todos carrying the id |
| TodoList.ToggleTwice | app/components/Todo.tsx:28-29 | toggling the same id twice restores the list |
| TodoList.ToggleAbsent | app/components/Todo.tsx:28-29 | toggling an id no todo carries leaves the list unchanged |
| TodoList.Delete | app/components/Todo.tsx:34-36 | no todo with the id is left, and the list never grows |
| TodoList.DeleteMembers | app/components/Todo.tsx:35 | a todo is in the result exactly when it was in the list and does not carry the id |
| TodoList.DeleteKeepsCounts | app/components/Todo.tsx:35 | every todo with another id is kept as many times as it occurred |
| TodoList.DeleteAppend | app/components/Todo.tsx:35 | deleting from `a + b` is deleting from `a` followed by deleting from `b` |
| TodoList.DeleteKeepsOrder | app/components/Todo.tsx:35 | the result is a subsequence of the list, so relative order is kept |
| TodoList.DeleteAbsent | app/components/Todo.tsx:35 | deleting an id no todo carries leaves the list unchanged |
| TodoList.DeleteIdempotent | app/components/Todo.tsx:35 | deleting the same id twice equals deleting it once |
| SignUp.ValidateFullName | apps/web/src/routes/signUp.tsx:75-80 | empty gives "Full name is required", one character gives "Full name must be at least 2 characters", and there is no error exactly when the length is at least 2 |
| SignUp.LooksLikeEmailMatchesPattern | apps/web/src/routes/signUp.tsx:123-124 | the shape test accepts exactly what `^[^\s@]+@[^\s@]+\.[^\s@]+$` matches. That means one `@`, no white space, and a `.` inside the domain that is neither its first nor its last character |
| SignUp.ValidateEmail | apps/web/src/routes/signUp.tsx:121-127 | empty gives "Email is required", and there is no error exactly when the value matches the pattern; otherwise the error is "Please enter a valid email address" |
| SignUp.ValidatePassword | apps/web/src/routes/signUp.tsx:170-175 | empty gives "Password is required", 1 to 7 characters give "Password must be at least 8 characters", and there is no error exactly when the length is at least 8 |
| SignUp.ValidateConfirmPassword | apps/web/src/routes/signUp.tsx:222-231 | "Passwords do not match" exactly when the value differs from the password; two empty strings match |
| SignUp.ValidateTermsAccepted | apps/web/src/routes/signUp.tsx:273-276 | an error exactly when the terms are not accepted |
| SignUp.DefaultValuesErrors | apps/web/src/routes/signUp.tsx:21-27 | with the default values, every field reports its error except confirm-password |
| SignUp.AcceptedForms | apps/web/src/routes/signUp.tsx:74-276 | a form passes all five validators exactly when the name has at least 2 characters, the e-mail matches the pattern, the password has at least 8 characters and is repeated exactly, and the terms are accepted |

## Left out

- The neo4j driver: building it (`neo4j.driver(config.url, …)` runs in the constructor, Neo4jClient.ts:24-27, and throws on a malformed URL, so the constructor can throw; `NewClient` is total), its network sessions, authentication and connection pool. `driver.session`, `session.run`, `session.executeWrite`, `session.close` and `getServerInfo` are parameters (their outcomes), not behaviour.
- `close()` (Neo4jClient.ts:48-50) only awaits `driver.close()`, which belongs to the driver.
- Cypher semantics: what `CREATE`, `MATCH` and the property filter do in the database is executed by the server.
- Escaping of labels and relationship types: the source interpolates them unescaped. The model does the same and shows the ambiguity in `LabelsStringAmbiguous`.
- Driver conversions: the precision loss of `Integer.toNumber` above 2^53, and the formats of `Integer.toString` and temporal `toString`. These are left as arbitrary functions in `Conversions`.
- JavaScript numbers are modelled as reals. NaN, the infinities and -0 are not represented.
- Normalize.TransformValue: an own key named `__proto__` is modelled as kept like any other key. In JavaScript, `result[key] = …` with that key sets the new object's prototype (or is ignored) instead of creating an own property, so the real object lacks it. Modelling prototypes is out of scope.
- Normalize.TransformProperties: the same `__proto__` key, for the same reason (Neo4jClient.ts:256).
- Neo4jClient.MapRecord: the same `__proto__` key, when a record column carries that name (Neo4jClient.ts:84).
- Values of JavaScript kinds the source does not distinguish. Functions, symbols and `bigint` would fall through as "other values". Objects are modelled only by their own enumerable keys, as `for…in` with `hasOwnProperty` sees them.
- Normalize.TransformUnchangedIffPlain: typed arrays and other class instances (`Date`, `Map`, `Set`) are seen only through their own keys. The source turns a driver byte array (`Int8Array`, which fails `Array.isArray` at Neo4jClient.ts:234 but is an object at line 236) into an index-keyed plain object such as `{"0": 5, "1": 6}`. The model can only represent that value as such an object, so it cannot tell the byte array from one and calls it unchanged.
- Key order of objects: mapped records and normalised objects are `map`s. JavaScript keeps insertion (column) order for non-integer-like keys, visible through `Object.keys`; the model does not record it.
- Asynchrony: each call is one sequential request/response. The driver's retries inside `executeWrite` are folded into the outcome it resolves to.
- Console logging in `verifyConnectivity` and in the form's submit handler.
- `Date.now()` ids of new todos: the id is a parameter. Their uniqueness is not guaranteed by the source and is not assumed.
- The simulated `setTimeout` submit, React rendering and state, routing, and the form library's `canSubmit`/`isSubmitting` and `onChangeListenTo` re-validation.
- String lengths: JavaScript counts UTF-16 code units, and the model counts characters of `seq<char>`.
- Default parameter values (`params = {}`, `properties = {}`): callers pass the map explicitly.
