/** The request handlers of the document backend (`api-dynamo.js`): a full
    scan, a point `get` by `hashId`, and a conditional `put` that only
    writes when no item has the generated `hashId` yet. Its errors are
    plain `Error`s; the caller sees their message. */
module DynamoApi {
  import opened Common
  import opened LinkStore

  /** An item of the table: key `hashId`, `createdAt`, `url`. */
  datatype Item = Item(hashId: string, createdAt: Timestamp, url: string)

  const INVALID_URL := "Invalid URL"
  const INVALID_ID := "Invalid ID"
  const NOT_FOUND := "Not Found"
  /** The document client's rejection of a `put` whose condition fails. */
  const CONDITION_FAILED := JsError("ConditionalCheckFailedException", "The conditional request failed")

  /** Every `hashId` keys the item that carries it. */
  predicate WellKeyed(records: map<string, Item>) {
    forall h :: h in records ==> records[h].hashId == h
  }

  // ---------------------------------------------------------------------
  // POST /links

  /** The item `POST /links` builds for a valid URL. */
  function NewItem(url: string, generated: string, now: Timestamp): Item {
    Item(generated, now, url)
  }

  /** The client's reply to the conditional `put`: a write only when the
      key is free, the condition failure otherwise, or `fault`. */
  function PutReply(records: map<string, Item>, item: Item, fault: Option<JsError>): Result<(), JsError> {
    if fault.Some? then Failure(fault.value)
    else if item.hashId in records then Failure(CONDITION_FAILED)
    else Success(())
  }

  /** What `POST /links` answers against the table `records`. */
  function CreateOutcome(records: map<string, Item>, isWebUri: string -> bool, url: Option<string>,
                         generated: string, now: Timestamp, fault: Option<JsError>): Outcome<Item> {
    if !IsWebUri(isWebUri, url) then Err(INVALID_URL)
    else
      var item := NewItem(url.value, generated, now);
      match PutReply(records, item, fault)
      case Success(_) => Ok(item)
      case Failure(err) => Err(err.message)
  }

  /** The table after `POST /links`. */
  function CreateEffect(records: map<string, Item>, isWebUri: string -> bool, url: Option<string>,
                        generated: string, now: Timestamp, fault: Option<JsError>): map<string, Item> {
    if IsWebUri(isWebUri, url) && fault.None? && generated !in records
    then records[generated := NewItem(url.value, generated, now)]
    else records
  }

  /** `POST /links` on the table. */
  method CreateLink(table: Table<Item>, isWebUri: string -> bool, url: Option<string>,
                    generated: string, now: Timestamp, fault: Option<JsError>)
    returns (r: Outcome<Item>)
    requires table.Valid() && WellKeyed(table.records)
    modifies table
    ensures table.Valid() && WellKeyed(table.records)
    ensures r == CreateOutcome(old(table.records), isWebUri, url, generated, now, fault)
    ensures table.records == CreateEffect(old(table.records), isWebUri, url, generated, now, fault)
    ensures table.order == if r.Ok? then old(table.order) + [generated] else old(table.order)
  {
    if !IsWebUri(isWebUri, url) {
      return Err(INVALID_URL);
    }
    var item := NewItem(url.value, generated, now);
    if fault.Some? {
      return Err(fault.value.message);
    }
    var written := table.InsertIfAbsent(item.hashId, item);
    r := if written then Ok(item) else Err(CONDITION_FAILED.message);
  }

  /** An invalid URL is refused and nothing is written. */
  lemma InvalidUrlRefused(records: map<string, Item>, isWebUri: string -> bool, url: Option<string>,
                          generated: string, now: Timestamp, fault: Option<JsError>)
    requires !IsWebUri(isWebUri, url)
    ensures CreateOutcome(records, isWebUri, url, generated, now, fault) == Err(INVALID_URL)
    ensures CreateEffect(records, isWebUri, url, generated, now, fault) == records
  {
  }

  /** A success answers exactly the item now stored under its `hashId`: the
      input URL, the generated hash and the timestamp; the table grows by that
      one item. */
  lemma CreatedItemIsStored(records: map<string, Item>, isWebUri: string -> bool, url: Option<string>,
                            generated: string, now: Timestamp, fault: Option<JsError>)
    requires CreateOutcome(records, isWebUri, url, generated, now, fault).Ok?
    ensures var item := CreateOutcome(records, isWebUri, url, generated, now, fault).value;
      var after := CreateEffect(records, isWebUri, url, generated, now, fault);
      && item == Item(generated, now, url.value)
      && item.hashId !in records
      && after == records[item.hashId := item]
      && |after| == |records| + 1
  {
  }

  /** The conditional `put` never overwrites: an existing `hashId` makes the
      create fail with the condition failure, and the table is unchanged. */
  lemma TakenHashNotOverwritten(records: map<string, Item>, isWebUri: string -> bool, url: Option<string>,
                                generated: string, now: Timestamp)
    requires IsWebUri(isWebUri, url) && generated in records
    ensures CreateOutcome(records, isWebUri, url, generated, now, None) == Err(CONDITION_FAILED.message)
    ensures CreateEffect(records, isWebUri, url, generated, now, None) == records
  {
  }

  /** Whatever happens, every item already in the table keeps its value, and
      the table changes exactly when the create succeeds. */
  lemma CreateKeepsExisting(records: map<string, Item>, isWebUri: string -> bool, url: Option<string>,
                            generated: string, now: Timestamp, fault: Option<JsError>)
    ensures var after := CreateEffect(records, isWebUri, url, generated, now, fault);
      && (forall h :: h in records ==> h in after && after[h] == records[h])
      && (CreateOutcome(records, isWebUri, url, generated, now, fault).Ok? <==> after != records)
  {
  }

  // ---------------------------------------------------------------------
  // GET /links/{id}

  /** What `GET /links/{id}` answers against the table `records`. */
  function ResolveOutcome(records: map<string, Item>, pathId: Option<string>, fault: Option<JsError>): Outcome<Item> {
    if !Truthy(pathId) then Err(INVALID_ID)
    else if fault.Some? then Err(fault.value.message)
    else if pathId.value !in records then Err(NOT_FOUND)
    else Ok(records[pathId.value])
  }

  /** `GET /links/{id}` on the table; it never writes. */
  method ResolveLink(table: Table<Item>, pathId: Option<string>, fault: Option<JsError>)
    returns (r: Outcome<Item>)
    requires table.Valid()
    ensures r == ResolveOutcome(table.records, pathId, fault)
  {
    if !Truthy(pathId) {
      return Err(INVALID_ID);
    }
    if fault.Some? {
      return Err(fault.value.message);
    }
    var found := table.Get(pathId.value);
    if found.None? {
      return Err(NOT_FOUND);
    }
    r := Ok(found.value);
  }

  /** Resolving: a missing or empty id is refused, an absent key is not found,
      and a present key yields exactly the stored item, whose `hashId` is the
      requested one. */
  lemma ResolveCases(records: map<string, Item>, pathId: Option<string>, fault: Option<JsError>)
    requires WellKeyed(records)
    ensures !Truthy(pathId) ==> ResolveOutcome(records, pathId, fault) == Err(INVALID_ID)
    ensures Truthy(pathId) && fault.None? && pathId.value !in records ==>
      ResolveOutcome(records, pathId, fault) == Err(NOT_FOUND)
    ensures Truthy(pathId) && fault.None? && pathId.value in records ==>
      ResolveOutcome(records, pathId, fault) == Ok(records[pathId.value]) &&
      ResolveOutcome(records, pathId, fault).value.hashId == pathId.value
  {
  }

  /** An item just created resolves to exactly what the create answered. */
  lemma ResolveAfterCreate(records: map<string, Item>, isWebUri: string -> bool, url: Option<string>,
                           generated: string, now: Timestamp)
    requires generated != ""
    requires CreateOutcome(records, isWebUri, url, generated, now, None).Ok?
    ensures var created := CreateOutcome(records, isWebUri, url, generated, now, None).value;
      ResolveOutcome(CreateEffect(records, isWebUri, url, generated, now, None), Some(created.hashId), None) == Ok(created)
  {
  }

  // ---------------------------------------------------------------------
  // GET /links

  /** `GET /links` on the table: the scanned items; it never writes. */
  method ListLinks(table: Table<Item>, fault: Option<JsError>) returns (r: Outcome<seq<Item>>)
    requires table.Valid()
    ensures fault.Some? ==> r == Err(fault.value.message)
    ensures fault.None? ==> r.Ok? && |r.value| == |table.records|
    ensures r.Ok? ==> forall h :: h in table.records ==> table.records[h] in r.value
    ensures r.Ok? ==> forall item :: item in r.value ==> item in table.records.Values
  {
    if fault.Some? {
      return Err(fault.value.message);
    }
    var items := table.Scan();
    r := Ok(items);
  }

  // ---------------------------------------------------------------------
  // A client of the handlers

  /** A create followed by a lookup of the answered `hashId` returns the same
      item; a second create that draws the same hash is refused. */
  method CreateThenResolve(isWebUri: string -> bool, url: string, generated: string,
                           now: Timestamp, later: Timestamp)
    returns (created: Outcome<Item>, resolved: Outcome<Item>, again: Outcome<Item>)
    requires isWebUri(url) && generated != ""
    ensures created == Ok(Item(generated, now, url))
    ensures resolved == created
    ensures again == Err(CONDITION_FAILED.message)
  {
    var table := new Table<Item>();
    created := CreateLink(table, isWebUri, Some(url), generated, now, None);
    resolved := ResolveLink(table, Some(generated), None);
    again := CreateLink(table, isWebUri, Some(url), generated, later, None);
  }
}
