/** The request handlers of the relational backend (`api.js`): the `tx`
    wrapper that turns every unexpected failure into an `Internal Error: `
    message, the listing of the newest links, the lookup of one link and
    the creation of a link with insert-if-absent on the `urls` table. */
module PgApi {
  import opened Common
  import opened JsText
  import opened LinkStore

  /** A row of `urls` as the handlers select it: `hash as id, url, created_at`. */
  datatype Link = Link(id: string, url: string, createdAt: Timestamp)

  /** The body of `POST /links`: `url`, and `id` when the key is present. */
  datatype CreateBody = CreateBody(url: Option<string>, id: Option<string>)

  /** What a handler throws: its own `ApiError`, or any other error. */
  datatype Thrown = ApiError(message: string) | Plain(err: JsError)

  const BAD_REQUEST := "Bad Request: "
  const NOT_FOUND := "Not Found: "
  const INTERNAL_ERROR := "Internal Error: "
  const INVALID_URL := "Bad Request: Validation error: not a valid URL: "
  const ID_USED := "Bad Request: Validation error: ID already used: "
  const INVALID_ID := "Bad Request: Invalid ID passed"
  const LINK_NOT_FOUND := "Not Found: Link not found with short ID: "
  const UNAVAILABLE := "Service temporarily unavailable, please try again."
  const CONSTRAINT := "violates unique constraint \"urls_hash_uniq\""
  const UNAVAILABLE_REPORT := INTERNAL_ERROR + (PLAIN_ERROR_NAME + ": " + UNAVAILABLE)
  const INSERT_HEAD := "insert into \"urls\" (\"hash\", \"url\") values ('"
  const PAGE_SIZE := 30
  const GENERATED_LENGTH := 4

  /** Every hash keys the row whose `id` it is. */
  predicate WellKeyed(records: map<string, Link>) {
    forall h :: h in records ==> records[h].id == h
  }

  // ---------------------------------------------------------------------
  // The tx wrapper

  /** `tx`: what the work settled to, with every error that is not an
      `ApiError` replaced by an `ApiError` carrying its string form after
      the `Internal Error: ` prefix. */
  function Tx<T>(work: Result<T, Thrown>): (r: Outcome<T>)
    ensures r.Ok? <==> work.Success?
    ensures r.Ok? ==> r.value == work.value
    ensures work.Failure? && work.error.ApiError? ==> r.message == work.error.message
    ensures work.Failure? && work.error.Plain? ==>
      INTERNAL_ERROR <= r.message && r.message[|INTERNAL_ERROR|..] == ErrorToString(work.error.err)
  {
    match work
    case Success(v) => Ok(v)
    case Failure(ApiError(m)) => Err(m)
    case Failure(Plain(e)) => Err(INTERNAL_ERROR + ErrorToString(e))
  }

  /** An outcome thrown again as an `ApiError`. */
  function Rethrow<T>(o: Outcome<T>): Result<T, Thrown> {
    match o
    case Ok(v) => Success(v)
    case Err(m) => Failure(ApiError(m))
  }

  /** Whatever leaves `tx` is already an `ApiError`: wrapping it again changes nothing. */
  lemma TxIdempotent<T>(work: Result<T, Thrown>)
    ensures Tx(Rethrow(Tx(work))) == Tx(work)
  {
  }

  /** The three prefixes differ in their first letter, so no message carries two. */
  lemma PrefixesExclusive(m: string)
    ensures !(BAD_REQUEST <= m && INTERNAL_ERROR <= m)
    ensures !(BAD_REQUEST <= m && NOT_FOUND <= m)
    ensures !(NOT_FOUND <= m && INTERNAL_ERROR <= m)
  {
    DistinctHeads(BAD_REQUEST, INTERNAL_ERROR, m);
    DistinctHeads(BAD_REQUEST, NOT_FOUND, m);
    DistinctHeads(NOT_FOUND, INTERNAL_ERROR, m);
  }

  // ---------------------------------------------------------------------
  // The driver's reply to the insert

  /** The insert statement as the driver formats it into its error messages. */
  function InsertStatement(hash: string, url: string): string {
    INSERT_HEAD + hash + "', '" + url + "') returning \"hash\" as \"id\", \"url\", \"created_at\""
  }

  /** The driver's rejection when `hash` is already in `urls`: the formatted
      statement, then the database's message. */
  function UniqueViolation(hash: string, url: string): JsError {
    JsError("error", InsertStatement(hash, url) + " - duplicate key value " + CONSTRAINT)
  }

  /** The conflict test: the constraint text occurs in the message at an
      index strictly greater than 0. */
  predicate IsUniqueViolation(err: JsError) {
    err.message != "" && IndexOf(err.message, CONSTRAINT) > 0
  }

  /** The driver's own conflict report is recognised as a conflict. */
  lemma UniqueViolationRecognised(hash: string, url: string)
    ensures IsUniqueViolation(UniqueViolation(hash, url))
  {
    var m := UniqueViolation(hash, url).message;
    var lead := InsertStatement(hash, url) + " - duplicate key value ";
    assert m == lead + CONSTRAINT;
    assert m[|lead|..|lead| + |CONSTRAINT|] == CONSTRAINT;
    assert OccursAt(m, CONSTRAINT, |lead|);
    assert !OccursAt(m, CONSTRAINT, 0) by {
      assert INSERT_HEAD <= m;
      assert INSERT_HEAD[0] == 'i' && CONSTRAINT[0] == 'v';
    }
    PositiveIndex(m, CONSTRAINT, |lead|);
  }

  /** A message that starts with the constraint text is not taken for a
      conflict, because its index is 0. */
  lemma ConstraintAtStartIsNoConflict(name: string, rest: string)
    ensures !IsUniqueViolation(JsError(name, CONSTRAINT + rest))
  {
  }

  /** The insert's fulfilment handler and rejection handler: the first
      returned row, a conflict classified by `hasCustomHash`, any other
      error passed on untouched. */
  function OnInsertReply(reply: Result<seq<Link>, JsError>, body: CreateBody): (r: Result<Link, Thrown>)
    ensures r.Success? <==> reply.Success? && |reply.value| > 0
    ensures r.Success? ==> r.value == reply.value[0]
    ensures (r.Failure? && r.error.ApiError?) <==>
      (reply.Failure? && IsUniqueViolation(reply.error) && body.id.Some?)
    ensures reply.Failure? && !IsUniqueViolation(reply.error) ==> r == Failure(Plain(reply.error))
  {
    match reply
    case Success(results) =>
      if |results| == 0 then Failure(Plain(JsError(PLAIN_ERROR_NAME, UNAVAILABLE)))
      else Success(results[0])
    case Failure(err) =>
      if IsUniqueViolation(err) then
        if body.id.Some? then Failure(ApiError(ID_USED + body.id.value))
        else Failure(Plain(JsError(PLAIN_ERROR_NAME, UNAVAILABLE)))
      else Failure(Plain(err))
  }

  /** The plain "temporarily unavailable" `Error`, once through `tx`. */
  lemma UnavailableReport(body: CreateBody)
    ensures Tx<Link>(Failure(Plain(JsError(PLAIN_ERROR_NAME, UNAVAILABLE)))) == Err(UNAVAILABLE_REPORT)
  {
  }

  /** An insert that returns no row surfaces as an internal error. */
  lemma EmptyReturningIsInternal(body: CreateBody)
    ensures Tx(OnInsertReply(Success([]), body)) == Err(UNAVAILABLE_REPORT)
  {
  }

  // ---------------------------------------------------------------------
  // POST /links

  /** The hash to store: `req.body.id || hashid.generate(4)`. */
  function StoredHash(body: CreateBody, generated: string): string {
    if Truthy(body.id) then body.id.value else generated
  }

  /** The driver's reply to the insert against the table `records`, or the
      failure `fault` when the database cannot be reached. */
  function InsertReply(records: map<string, Link>, hash: string, url: string,
                       createdAt: Timestamp, fault: Option<JsError>): Result<seq<Link>, JsError> {
    if fault.Some? then Failure(fault.value)
    else if hash in records then Failure(UniqueViolation(hash, url))
    else Success([Link(hash, url, createdAt)])
  }

  /** The create handler writes a row exactly when this holds. */
  predicate Inserts(records: map<string, Link>, isWebUri: string -> bool, body: CreateBody,
                    generated: string, fault: Option<JsError>) {
    IsWebUri(isWebUri, body.url) && fault.None? && StoredHash(body, generated) !in records
  }

  /** What `POST /links` answers against the table `records`. */
  function CreateOutcome(records: map<string, Link>, isWebUri: string -> bool, body: CreateBody,
                         generated: string, createdAt: Timestamp, fault: Option<JsError>): Outcome<Link> {
    if !IsWebUri(isWebUri, body.url) then Err(INVALID_URL + Concatenable(body.url))
    else
      var hash := StoredHash(body, generated);
      Tx(OnInsertReply(InsertReply(records, hash, body.url.value, createdAt, fault), body))
  }

  /** The table after `POST /links`. */
  function CreateEffect(records: map<string, Link>, isWebUri: string -> bool, body: CreateBody,
                        generated: string, createdAt: Timestamp, fault: Option<JsError>): map<string, Link> {
    if Inserts(records, isWebUri, body, generated, fault) then
      var hash := StoredHash(body, generated);
      records[hash := Link(hash, body.url.value, createdAt)]
    else records
  }

  /** `POST /links` on the table. */
  method CreateLink(table: Table<Link>, isWebUri: string -> bool, body: CreateBody,
                    generated: string, createdAt: Timestamp, fault: Option<JsError>)
    returns (r: Outcome<Link>)
    requires table.Valid() && WellKeyed(table.records)
    modifies table
    ensures table.Valid() && WellKeyed(table.records)
    ensures r == CreateOutcome(old(table.records), isWebUri, body, generated, createdAt, fault)
    ensures table.records == CreateEffect(old(table.records), isWebUri, body, generated, createdAt, fault)
    ensures table.order == if Inserts(old(table.records), isWebUri, body, generated, fault)
                           then old(table.order) + [StoredHash(body, generated)]
                           else old(table.order)
  {
    if !IsWebUri(isWebUri, body.url) {
      return Err(INVALID_URL + Concatenable(body.url));
    }
    var hash := StoredHash(body, generated);
    var url := body.url.value;
    var reply: Result<seq<Link>, JsError>;
    if fault.Some? {
      reply := Failure(fault.value);
    } else {
      var inserted := table.InsertIfAbsent(hash, Link(hash, url, createdAt));
      reply := if inserted then Success([Link(hash, url, createdAt)]) else Failure(UniqueViolation(hash, url));
    }
    r := Tx(OnInsertReply(reply, body));
  }

  /** An invalid URL is refused with the URL in the message, and nothing is written. */
  lemma InvalidUrlRefused(records: map<string, Link>, isWebUri: string -> bool, body: CreateBody,
                          generated: string, createdAt: Timestamp, fault: Option<JsError>)
    requires !IsWebUri(isWebUri, body.url)
    ensures CreateOutcome(records, isWebUri, body, generated, createdAt, fault) ==
      Err(INVALID_URL + Concatenable(body.url))
    ensures CreateEffect(records, isWebUri, body, generated, createdAt, fault) == records
  {
  }

  /** The stored hash is the caller's `id` when it is truthy and the generated
      one otherwise, while the hash counts as custom whenever the key `id` is
      present, even with an empty value. */
  lemma HashChoice(body: CreateBody, generated: string)
    ensures Truthy(body.id) ==> StoredHash(body, generated) == body.id.value
    ensures !Truthy(body.id) ==> StoredHash(body, generated) == generated
    ensures body.id == Some("") ==> StoredHash(body, generated) == generated
  {
  }

  /** A free hash is inserted: exactly one row `{hash, url}` is added, the
      others are kept, and the answer is that row. */
  lemma FreeHashCreated(records: map<string, Link>, isWebUri: string -> bool, body: CreateBody,
                        generated: string, createdAt: Timestamp)
    requires IsWebUri(isWebUri, body.url)
    requires StoredHash(body, generated) !in records
    ensures var hash := StoredHash(body, generated);
      && CreateOutcome(records, isWebUri, body, generated, createdAt, None) == Ok(Link(hash, body.url.value, createdAt))
      && CreateEffect(records, isWebUri, body, generated, createdAt, None).Keys == records.Keys + {hash}
      && |CreateEffect(records, isWebUri, body, generated, createdAt, None)| == |records| + 1
      && forall h :: h in records ==> CreateEffect(records, isWebUri, body, generated, createdAt, None)[h] == records[h]
  {
  }

  /** A taken custom hash is refused as a bad request naming the `id`. */
  lemma TakenCustomHashRefused(records: map<string, Link>, isWebUri: string -> bool, body: CreateBody,
                               generated: string, createdAt: Timestamp)
    requires IsWebUri(isWebUri, body.url) && body.id.Some?
    requires StoredHash(body, generated) in records
    ensures CreateOutcome(records, isWebUri, body, generated, createdAt, None) == Err(ID_USED + body.id.value)
    ensures CreateEffect(records, isWebUri, body, generated, createdAt, None) == records
  {
    UniqueViolationRecognised(StoredHash(body, generated), body.url.value);
  }

  /** An empty `id` gets a generated hash, yet a collision of that hash is
      still reported as the caller's `id` being used. */
  lemma EmptyIdCollisionNamesEmptyId(records: map<string, Link>, isWebUri: string -> bool, url: string,
                                     generated: string, createdAt: Timestamp)
    requires isWebUri(url) && generated in records
    ensures CreateOutcome(records, isWebUri, CreateBody(Some(url), Some("")), generated, createdAt, None) == Err(ID_USED)
  {
    var body := CreateBody(Some(url), Some(""));
    UniqueViolationRecognised(StoredHash(body, generated), url);
    assert ID_USED + "" == ID_USED;
  }

  /** A taken generated hash surfaces as an internal error of the plain
      "temporarily unavailable" `Error`. */
  lemma TakenGeneratedHashIsInternal(records: map<string, Link>, isWebUri: string -> bool, url: string,
                                     generated: string, createdAt: Timestamp)
    requires isWebUri(url) && generated in records
    ensures CreateOutcome(records, isWebUri, CreateBody(Some(url), None), generated, createdAt, None) ==
      Err(UNAVAILABLE_REPORT)
    ensures CreateEffect(records, isWebUri, CreateBody(Some(url), None), generated, createdAt, None) == records
  {
    var body := CreateBody(Some(url), None);
    UniqueViolationRecognised(generated, url);
    assert InsertReply(records, generated, url, createdAt, None) == Failure(UniqueViolation(generated, url));
    assert OnInsertReply(Failure(UniqueViolation(generated, url)), body) ==
      Failure(Plain(JsError(PLAIN_ERROR_NAME, UNAVAILABLE)));
    UnavailableReport(body);
  }

  /** A database failure that does not look like the conflict carries the
      `Internal Error: ` prefix and the driver's error text. */
  lemma FaultIsInternal(records: map<string, Link>, isWebUri: string -> bool, body: CreateBody,
                        generated: string, createdAt: Timestamp, err: JsError)
    requires IsWebUri(isWebUri, body.url) && !IsUniqueViolation(err)
    ensures CreateOutcome(records, isWebUri, body, generated, createdAt, Some(err)) ==
      Err(INTERNAL_ERROR + ErrorToString(err))
    ensures CreateEffect(records, isWebUri, body, generated, createdAt, Some(err)) == records
  {
  }

  /** Nothing already in the table is ever replaced or removed. */
  lemma CreateNeverOverwrites(records: map<string, Link>, isWebUri: string -> bool, body: CreateBody,
                              generated: string, createdAt: Timestamp, fault: Option<JsError>)
    ensures var after := CreateEffect(records, isWebUri, body, generated, createdAt, fault);
      forall h :: h in records ==> h in after && after[h] == records[h]
  {
  }

  /** The answer is a success exactly when a row is written, and then it is that row. */
  lemma CreateOkIffInserted(records: map<string, Link>, isWebUri: string -> bool, body: CreateBody,
                            generated: string, createdAt: Timestamp, fault: Option<JsError>)
    ensures var r := CreateOutcome(records, isWebUri, body, generated, createdAt, fault);
      var after := CreateEffect(records, isWebUri, body, generated, createdAt, fault);
      && (r.Ok? <==> Inserts(records, isWebUri, body, generated, fault))
      && (r.Ok? ==> r.value.id !in records && after == records[r.value.id := r.value])
      && (r.Err? ==> after == records)
  {
  }

  /** Every refusal carries exactly one of the prefixes `Bad Request: ` and
      `Internal Error: `; a bad request only ever answers an invalid URL or
      a request that named its own `id`. */
  lemma CreateErrorTaxonomy(records: map<string, Link>, isWebUri: string -> bool, body: CreateBody,
                            generated: string, createdAt: Timestamp, fault: Option<JsError>)
    ensures var r := CreateOutcome(records, isWebUri, body, generated, createdAt, fault);
      r.Err? ==> (BAD_REQUEST <= r.message <==> !(INTERNAL_ERROR <= r.message))
    ensures var r := CreateOutcome(records, isWebUri, body, generated, createdAt, fault);
      r.Err? && BAD_REQUEST <= r.message ==> !IsWebUri(isWebUri, body.url) || body.id.Some?
  {
    var r := CreateOutcome(records, isWebUri, body, generated, createdAt, fault);
    if r.Err? {
      PrefixesExclusive(r.message);
      if !IsWebUri(isWebUri, body.url) {
        assert r.message == INVALID_URL + Concatenable(body.url);
        assert BAD_REQUEST <= INVALID_URL;
      } else {
        var hash := StoredHash(body, generated);
        var work := OnInsertReply(InsertReply(records, hash, body.url.value, createdAt, fault), body);
        if work.error.ApiError? {
          assert r.message == ID_USED + body.id.value;
          assert BAD_REQUEST <= ID_USED;
        } else {
          assert INTERNAL_ERROR <= r.message;
        }
      }
    }
  }

  // ---------------------------------------------------------------------
  // GET /links/{id}

  /** The rows `where({hash})` selects: the one row with that hash, or none. */
  function RowsFor(records: map<string, Link>, hash: string): seq<Link> {
    if hash in records then [records[hash]] else []
  }

  /** The lookup's fulfilment handler: the first row, or `Not Found`. */
  function OnLookupReply(reply: Result<seq<Link>, JsError>, hash: string): (r: Result<Link, Thrown>)
    ensures r.Success? <==> reply.Success? && |reply.value| > 0
    ensures r.Success? ==> r.value == reply.value[0]
    ensures reply.Success? && reply.value == [] ==> r == Failure(ApiError(LINK_NOT_FOUND + hash))
    ensures reply.Failure? ==> r == Failure(Plain(reply.error))
  {
    match reply
    case Success(results) =>
      if |results| == 0 then Failure(ApiError(LINK_NOT_FOUND + hash)) else Success(results[0])
    case Failure(err) => Failure(Plain(err))
  }

  /** What `GET /links/{id}` answers against the table `records`. */
  function ResolveOutcome(records: map<string, Link>, pathId: Option<string>, fault: Option<JsError>): Outcome<Link> {
    if !Truthy(pathId) then Err(INVALID_ID)
    else
      var reply := if fault.Some? then Failure(fault.value) else Success(RowsFor(records, pathId.value));
      Tx(OnLookupReply(reply, pathId.value))
  }

  /** `GET /links/{id}` on the table; it never writes. */
  method ResolveLink(table: Table<Link>, pathId: Option<string>, fault: Option<JsError>)
    returns (r: Outcome<Link>)
    requires table.Valid()
    ensures r == ResolveOutcome(table.records, pathId, fault)
  {
    if !Truthy(pathId) {
      return Err(INVALID_ID);
    }
    var hash := pathId.value;
    var reply: Result<seq<Link>, JsError>;
    if fault.Some? {
      reply := Failure(fault.value);
    } else {
      var found := table.Get(hash);
      reply := Success(if found.Some? then [found.value] else []);
    }
    r := Tx(OnLookupReply(reply, hash));
  }

  /** Resolving: a missing or empty id is a bad request, an unknown hash is
      not found with the hash in the message, a known hash yields its row
      whose `id` is the requested hash, and a database failure is internal. */
  lemma ResolveCases(records: map<string, Link>, pathId: Option<string>, fault: Option<JsError>)
    requires WellKeyed(records)
    ensures !Truthy(pathId) ==> ResolveOutcome(records, pathId, fault) == Err(INVALID_ID)
    ensures Truthy(pathId) && fault.None? && pathId.value !in records ==>
      ResolveOutcome(records, pathId, fault) == Err(LINK_NOT_FOUND + pathId.value)
    ensures Truthy(pathId) && fault.None? && pathId.value in records ==>
      ResolveOutcome(records, pathId, fault) == Ok(records[pathId.value]) &&
      ResolveOutcome(records, pathId, fault).value.id == pathId.value
    ensures Truthy(pathId) && fault.Some? ==>
      ResolveOutcome(records, pathId, fault) == Err(INTERNAL_ERROR + ErrorToString(fault.value))
  {
  }

  /** A link just created resolves to exactly what the create answered. */
  lemma ResolveAfterCreate(records: map<string, Link>, isWebUri: string -> bool, body: CreateBody,
                           generated: string, createdAt: Timestamp)
    requires |generated| == GENERATED_LENGTH
    requires CreateOutcome(records, isWebUri, body, generated, createdAt, None).Ok?
    ensures var created := CreateOutcome(records, isWebUri, body, generated, createdAt, None).value;
      var after := CreateEffect(records, isWebUri, body, generated, createdAt, None);
      ResolveOutcome(after, Some(created.id), None) == Ok(created)
  {
  }

  // ---------------------------------------------------------------------
  // GET /links

  /** What `GET /links` answers against the table. */
  function ListOutcome(order: seq<string>, records: map<string, Link>, fault: Option<JsError>): Outcome<seq<Link>>
    requires forall k :: k in order ==> k in records
  {
    if fault.Some? then Err(INTERNAL_ERROR + ErrorToString(fault.value))
    else Ok(NewestFirst(order, records, PAGE_SIZE))
  }

  /** `GET /links` on the table; it never writes. */
  method ListLinks(table: Table<Link>, fault: Option<JsError>) returns (r: Outcome<seq<Link>>)
    requires table.Valid()
    ensures r == ListOutcome(table.order, table.records, fault)
  {
    if fault.Some? {
      return Err(INTERNAL_ERROR + ErrorToString(fault.value));
    }
    var page := table.Newest(PAGE_SIZE);
    r := Ok(page);
  }

  /** The listing holds the 30 newest rows (all of them when there are fewer),
      the most recently inserted first. */
  lemma ListIsNewestPage(order: seq<string>, records: map<string, Link>)
    requires forall k :: k in order ==> k in records
    ensures var page := ListOutcome(order, records, None).value;
      && |page| == Min(PAGE_SIZE, |order|)
      && forall i :: 0 <= i < |page| ==> page[i] == records[order[|order| - 1 - i]]
  {
    NewestFirstAt(order, records, PAGE_SIZE);
  }

  // ---------------------------------------------------------------------
  // A client of the handlers

  /** Two creates that name the same free `id`: the first succeeds, the
      second is refused as a bad request, and the `id` resolves to the first. */
  method SameCustomIdTwice(isWebUri: string -> bool, url: string, otherUrl: string, id: string,
                           generated: string, firstAt: Timestamp, secondAt: Timestamp)
    returns (first: Outcome<Link>, second: Outcome<Link>, resolved: Outcome<Link>)
    requires isWebUri(url) && isWebUri(otherUrl) && id != ""
    ensures first == Ok(Link(id, url, firstAt))
    ensures second == Err(ID_USED + id)
    ensures resolved == first
  {
    var table := new Table<Link>();
    first := CreateLink(table, isWebUri, CreateBody(Some(url), Some(id)), generated, firstAt, None);
    second := CreateLink(table, isWebUri, CreateBody(Some(otherUrl), Some(id)), generated, secondAt, None);
    TakenCustomHashRefused(map[id := Link(id, url, firstAt)], isWebUri, CreateBody(Some(otherUrl), Some(id)),
                           generated, secondAt);
    resolved := ResolveLink(table, Some(id), None);
  }
}
