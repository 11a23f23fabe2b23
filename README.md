# Link shortener request handlers, modelled in Dafny

This project models the request-handling logic of a URL-shortening service over an
abstract link store. The service has two backends with the same shape:

- `api.js` stores links in a relational `urls` table. A unique constraint on `hash`
  (`urls_hash_uniq`) makes every insert an insert-if-absent.
- `api-dynamo.js` stores links in a document table. Its `put` carries the condition
  `attribute_not_exists(hashId)`.

Each backend has three handlers:

- **create** (`POST /links`): validate the URL, pick a hash, insert if absent, classify
  the failure;
- **resolve** (`GET /links/{id}`): a point lookup;
- **list** (`GET /links`): the newest 30 rows, or a full scan.

The relational backend routes every store interaction through `tx`. `tx` lets the
handlers' own `ApiError`s through unchanged. Every other error becomes
`Internal Error: ` followed by its string form.

Layout:

- `common.dfy` (`Common`) holds the shared values:
  - `Option` and `Result` (a settled promise);
  - `Outcome`, which is `Ok(value)` or `Err(message)` and carries the exact message
    the caller sees;
  - JavaScript errors and `Error.prototype.toString`;
  - the truthiness and `undefined` string coercions the handlers rely on.
- `js_text.dfy` (`JsText`) holds `String.prototype.indexOf`, used by the conflict test.
- `link_store.dfy` (`LinkStore`) holds the store as a class `Table`. The class has a
  map from hash to record and the stored hashes in insertion order. Insertion order
  stands for the serial `id` column the listing sorts on. The class's methods are:
  - `InsertIfAbsent`, which adds exactly one record or reports the conflict and
    changes nothing;
  - `Get`;
  - `Newest`, which lists in descending insertion order with a limit;
  - `Scan`.
- `pg_api.dfy` (`PgApi`) models `api.js`.
- `dynamo_api.dfy` (`DynamoApi`) models `api-dynamo.js`.

Each handler is a method on a `Table`. It is proved equal to a pure specification
function of the table's contents (`CreateOutcome`, `CreateEffect`, `ResolveOutcome`,
`ListOutcome`). The lemmas state what the source promises about those functions.

The following are parameters:

- the URL validator `validUrl.isWebUri`, as a function `string -> bool`;
- the generated hash (`hashid.generate(4)`, `shortid.generate()`);
- the timestamp;
- an optional store failure `fault`. When it is present the store is not touched and
  the driver's reply is that error.

A request field that may be missing is an `Option<string>`. For the create body, `id:
Some("")` stands for a key `id` that is present with an empty value.

On a uniqueness violation, the relational driver rejects with a message made of:

- the formatted insert statement;
- ` - `;
- the database's text `duplicate key value violates unique constraint
  "urls_hash_uniq"`.

That is how the driver reports the violation. The model writes the statement text
approximately. All its proofs use is that the text is non-empty and starts with `i`.

Where the service's documented design and the code differ, the model follows the code. A
collision of a system-generated hash is described as a "service unavailable" outcome.
In `api.js` it throws a plain `Error`, so `tx` reports it as
`Internal Error: Error: Service temporarily unavailable, please try again.`.
`PgApi.TakenGeneratedHashIsInternal` states this. Likewise `hasCustomHash` tests whether
the key `id` is present, not whether it is truthy (`PgApi.EmptyIdCollisionNamesEmptyId`).

## Model

| member | source | states |
|---|---|---|
| `JsText.IndexOf` | api.js:89 | `indexOf` gives -1 exactly when the pattern never occurs; otherwise it gives an occurrence with none before it |
| `LinkStore.Table.InsertIfAbsent` | api.js:78-81 | when the hash is free, exactly one record is added under it and appended to the insertion order; otherwise the table is unchanged and the conflict is reported |
| `LinkStore.Table.Get` | api.js:51-54 | the point lookup finds a record exactly when the hash is stored, and then it finds that record |
| `LinkStore.Table.Newest` | api.js:35-40 | the listing has min(limit, size) records; the i-th is the record inserted i-th from last (`ORDER BY id DESC OFFSET 0 LIMIT n`) |
| `LinkStore.Table.Scan` | api-dynamo.js:20-21 | the scan returns as many items as the table holds; every stored item is among them, and nothing else is |
| `PgApi.Tx` | api.js:13-27 | the wrapper succeeds exactly when the work does, with the same value; an `ApiError` keeps its message; any other error becomes `Internal Error: ` followed by its `toString()` |
| `PgApi.TxIdempotent` | api.js:20-24 | what leaves `tx` is already an `ApiError`, so passing it through `tx` again changes nothing |
| `PgApi.PrefixesExclusive` | api.js:160-165 | no message carries two of the prefixes `Bad Request: `, `Not Found: ` and `Internal Error: ` that the status mapping keys on |
| `PgApi.UniqueViolationRecognised` | api.js:89 | the driver's uniqueness-violation message passes the conflict test, because the constraint text occurs at an index greater than 0 |
| `PgApi.ConstraintAtStartIsNoConflict` | api.js:89 | a message that begins with the constraint text is not a conflict, because `indexOf` gives 0 and the test is `> 0` |
| `PgApi.OnInsertReply` | api.js:82-102 | outcomes of the insert: success exactly when the insert returned a row, and then it is the first row; an `ApiError` exactly when the conflict test holds and the key `id` was present; any other failure passes through untouched |
| `PgApi.UnavailableReport` | api.js:85 | the plain `Error('Service temporarily unavailable, please try again.')` leaves `tx` as `Internal Error: Error: Service temporarily unavailable, please try again.` |
| `PgApi.EmptyReturningIsInternal` | api.js:82-86 | an insert that returns no row yields the `Internal Error: ` report of the unavailable error |
| `PgApi.CreateLink` | api.js:65-105 | create answers `CreateOutcome` of the old table; the new table is `CreateEffect`; the hash order grows by the stored hash exactly when a row is written; the table stays well keyed |
| `PgApi.InvalidUrlRefused` | api.js:66-68 | an invalid or missing URL gives `Bad Request: Validation error: not a valid URL: ` followed by the URL (`undefined` when missing), and nothing is written |
| `PgApi.HashChoice` | api.js:70-75 | the stored hash is a truthy `id`; otherwise, including an empty `id`, it is the generated hash |
| `PgApi.FreeHashCreated` | api.js:77-87 | a free hash yields `Ok({id: hash, url, created_at})` with the input URL; exactly one key is added and every other row is untouched |
| `PgApi.TakenCustomHashRefused` | api.js:89-93 | a taken hash with the key `id` present gives `Bad Request: Validation error: ID already used: ` followed by the id, and the table is unchanged |
| `PgApi.EmptyIdCollisionNamesEmptyId` | api.js:70-73 | an empty `id` gets the generated hash, yet a collision of that hash is reported as the (empty) `id` already being used |
| `PgApi.TakenGeneratedHashIsInternal` | api.js:95-98 | a taken generated hash with no `id` key gives `Internal Error: Error: Service temporarily unavailable, please try again.`, and the table is unchanged |
| `PgApi.FaultIsInternal` | api.js:101 | a store failure that fails the conflict test gives `Internal Error: ` followed by the driver error's string form, and nothing is written |
| `PgApi.CreateNeverOverwrites` | api.js:78-81 | every row already in the table survives every create with its value unchanged |
| `PgApi.CreateOkIffInserted` | api.js:77-102 | create succeeds exactly when a row is written; the answer is that row under a previously free hash; on failure the table is unchanged |
| `PgApi.CreateErrorTaxonomy` | api.js:66-101 | every create error has exactly one of `Bad Request: ` and `Internal Error: `; a bad request answers only an invalid URL or a body with the key `id` |
| `PgApi.OnLookupReply` | api.js:55-61 | outcomes of the lookup: the first selected row; `Not Found: Link not found with short ID: ` followed by the hash when no row matches; a driver failure passes through |
| `PgApi.ResolveLink` | api.js:44-63 | resolve answers `ResolveOutcome` of the table, and cannot write |
| `PgApi.ResolveCases` | api.js:45-61 | a missing or empty id gives `Bad Request: Invalid ID passed`; an unknown hash gives the not-found message with the hash; a known hash gives its row, whose `id` is the hash; a store failure is internal |
| `PgApi.ResolveAfterCreate` | api.js:44-87 | a link just created with a 4-character generated hash or a custom id resolves to exactly the row create answered |
| `PgApi.ListLinks` | api.js:33-42 | list answers `ListOutcome` of the table, and cannot write |
| `PgApi.ListIsNewestPage` | api.js:35-40 | the listing holds min(30, size) rows, newest first: the i-th is the row inserted i-th from last |
| `PgApi.SameCustomIdTwice` | api.js:65-105 | on a fresh table, two creates with the same non-empty custom id: the first stores and returns the link, the second gets `ID already used`, and resolving the id returns the first |
| `DynamoApi.CreateLink` | api-dynamo.js:46-64 | create answers `CreateOutcome` of the old table; the new table is `CreateEffect`; the order grows by the generated hash exactly on success; the table stays well keyed |
| `DynamoApi.InvalidUrlRefused` | api-dynamo.js:47-49 | an invalid or missing URL gives `Invalid URL`, and nothing is written |
| `DynamoApi.CreatedItemIsStored` | api-dynamo.js:51-62 | on success the answer is exactly the item now stored: the generated `hashId`, the timestamp and the input URL; the table grows by that one item |
| `DynamoApi.TakenHashNotOverwritten` | api-dynamo.js:57-62 | a put whose key exists fails with the conditional-check message, and the table is unchanged |
| `DynamoApi.CreateKeepsExisting` | api-dynamo.js:57-62 | existing items are never overwritten, and the table changes exactly when create succeeds |
| `DynamoApi.ResolveLink` | api-dynamo.js:25-44 | resolve answers `ResolveOutcome` of the table, and cannot write |
| `DynamoApi.ResolveCases` | api-dynamo.js:26-42 | a missing or empty id gives `Invalid ID`; an absent key gives `Not Found`; a present key gives exactly the stored item, whose `hashId` is the key |
| `DynamoApi.ResolveAfterCreate` | api-dynamo.js:25-62 | an item just created resolves to exactly the item create answered |
| `DynamoApi.ListLinks` | api-dynamo.js:15-23 | list returns the scanned items: as many as the table holds, each stored item among them and nothing else; a store failure surfaces its message; it cannot write |
| `DynamoApi.CreateThenResolve` | api-dynamo.js:25-64 | on a fresh table, a create returns the new item; looking up its `hashId` returns the same item; a second create drawing the same hash is refused by the condition |

## Left out

- The `ping` handlers (api.js:29-31, api-dynamo.js:11-13) return a fixed literal. There is no logic to model.
- The post-deploy API Gateway setup (api.js:107-177) is AWS SDK calls, a delay and a
  deployment. Only the fact that its status mapping keys on message prefixes is
  reflected, in `PgApi.PrefixesExclusive`.
- Client construction, the connection string, the acquisition timeout and releasing
  the connection in `tx` (api.js:14-18, api.js:26) are connection plumbing.
- The document client and the table name are connection plumbing too.
- SQL query building and the document client are foreign libraries. Only their
  contracts are modelled: insert-if-absent, point get, ordered listing, full scan.
- The randomness and format of `hashid.generate` and `shortid.generate`: the hash is
  an input. `hashid.js` is not part of this model.
- The internals of `validUrl.isWebUri`: the validator is an opaque predicate.
- Timestamps from the database and from `new Date().toISOString()` are opaque strings.
- Concurrency between requests is not modelled. The conditional write is taken as one
  atomic step, so concurrent creates are modelled as sequential calls on the table.
- DynamoDB scan pagination is left out.
- The `claudia-api-builder` routing, the `success`/`error` status options and the
  response body are left out. A handler's error is modelled by its message alone.
- Synchronous throws and rejected promises are not told apart. The validation errors
  that `api.js` throws before calling `tx` give the same `Err(message)` as a rejection.
- Request fields that are not strings (a numeric or `null` `id`, for instance) are not
  modelled. A field is absent or a string.
- Store failures are modelled only before the store changes (`fault`). A failure
  reported after a committed write, such as a lost response, is not modelled.
- `PgApi.UniqueViolationRecognised`: the driver's message writes the insert statement
  approximately, not byte for byte.
- `DynamoApi.ListLinks`: it does not state the order of the items, because a scan
  promises none.
- `LinkStore.Table.Scan`: it does not state the order of the items either, for the
  same reason.
