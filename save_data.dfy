/**
 * The `POST /save_data` handler of app.py: reject a request that is not JSON,
 * otherwise reshape the submitted key/value payload into the fixed document
 * layout (three ordered lists and four scalars), insert it and report its id.
 */
module SaveData {

  /** A JSON value of the payload. */
  datatype Json =
    | Null
    | Bool(b: bool)
    | Number(n: real)
    | Str(s: string)
    | Array(items: seq<Json>)
    | Object(fields: map<string, Json>)

  /** The incoming request: not JSON, or a JSON object. */
  datatype Request = NotJson | JsonBody(payload: map<string, Json>)

  /** The document handed to the store, its fields in the source's order. */
  datatype Document = Document(
    specs: seq<Json>,
    location: seq<Json>,
    pickupDetails: seq<Json>,
    isRunning: Json,
    acceptedOffer: Json,
    scrapValue: Json,
    notes: Json)

  /** The reply: a 400 error, or the stored document with status 200 and the id the store gave it. */
  datatype SaveReply =
    | Rejected(status: int, error: string)
    | Stored(document: Document, status: int, id: string)

  const NotJsonError := "Request must be in JSON format"

  // The key layout of each list of the document, in order.
  const SpecKeys: seq<string> := ["year", "make", "model", "specific_model"]
  const LocationKeys: seq<string> := ["province", "city", "street_number", "street_name", "unit_info", "postal_code"]
  const PickupKeys: seq<string> := ["pickup_date", "pickup_time", "pickup_name", "phone_number"]
  const ScalarKeys: seq<string> := ["is_running", "accepted_offer", "scrap_value", "notes"]

  /** Every key the document reads. */
  const FieldKeys: seq<string> := SpecKeys + LocationKeys + PickupKeys + ScalarKeys

  /** `data.get(key)`: the value, or null when the key is missing. */
  function Get(data: map<string, Json>, key: string): Json {
    if key in data then data[key] else Null
  }

  /** The document's values in key order: the three lists, then the four scalars. */
  function Flatten(doc: Document): seq<Json> {
    doc.specs + doc.location + doc.pickupDetails + [doc.isRunning, doc.acceptedOffer, doc.scrapValue, doc.notes]
  }

  /**
   * The cleaned document built from the payload: list lengths 4, 6 and 4, and
   * position i of the flattened document holds the value of key i of the layout.
   */
  function CleanDocument(data: map<string, Json>): (doc: Document)
    ensures |doc.specs| == |SpecKeys| && |doc.location| == |LocationKeys| && |doc.pickupDetails| == |PickupKeys|
    ensures |Flatten(doc)| == |FieldKeys|
    ensures forall i :: 0 <= i < |FieldKeys| ==> Flatten(doc)[i] == Get(data, FieldKeys[i])
  {
    Document(
      [Get(data, "year"), Get(data, "make"), Get(data, "model"), Get(data, "specific_model")],
      [Get(data, "province"), Get(data, "city"), Get(data, "street_number"),
       Get(data, "street_name"), Get(data, "unit_info"), Get(data, "postal_code")],
      [Get(data, "pickup_date"), Get(data, "pickup_time"), Get(data, "pickup_name"), Get(data, "phone_number")],
      Get(data, "is_running"),
      Get(data, "accepted_offer"),
      Get(data, "scrap_value"),
      Get(data, "notes"))
  }

  /** The handler; `insert` stands for the store's insert and returns the new document's id. */
  function SaveData(req: Request, insert: Document -> string): (r: SaveReply)
    ensures req.NotJson? ==> r == Rejected(400, NotJsonError)
    ensures req.JsonBody? ==> r.Stored? && r.status == 200 && r.document == CleanDocument(req.payload)
                              && r.id == insert(r.document)
  {
    match req
    case NotJson => Rejected(400, NotJsonError)
    case JsonBody(data) =>
      var doc := CleanDocument(data);
      Stored(doc, 200, insert(doc))
  }

  /** Documents with lists of the layout's lengths are equal exactly when their flattenings are. */
  lemma FlattenInjective(a: Document, b: Document)
    requires |a.specs| == |b.specs| == 4 && |a.location| == |b.location| == 6
    requires |a.pickupDetails| == |b.pickupDetails| == 4
    requires Flatten(a) == Flatten(b)
    ensures a == b
  {
    var fa, fb := Flatten(a), Flatten(b);
    assert a.specs == fa[..4] && b.specs == fb[..4];
    assert a.location == fa[4..10] && b.location == fb[4..10];
    assert a.pickupDetails == fa[10..14] && b.pickupDetails == fb[10..14];
    assert a.isRunning == fa[14] && b.isRunning == fb[14];
    assert a.acceptedOffer == fa[15] && b.acceptedOffer == fb[15];
    assert a.scrapValue == fa[16] && b.scrapValue == fb[16];
    assert a.notes == fa[17] && b.notes == fb[17];
  }

  /** Two payloads give the same document exactly when they agree on the eighteen keys of the layout. */
  lemma SameDocumentIffSameFields(d1: map<string, Json>, d2: map<string, Json>)
    ensures CleanDocument(d1) == CleanDocument(d2) <==> forall i :: 0 <= i < |FieldKeys| ==> Get(d1, FieldKeys[i]) == Get(d2, FieldKeys[i])
  {
    var a, b := CleanDocument(d1), CleanDocument(d2);
    if forall i :: 0 <= i < |FieldKeys| ==> Get(d1, FieldKeys[i]) == Get(d2, FieldKeys[i]) {
      assert Flatten(a) == Flatten(b);
      FlattenInjective(a, b);
    } else {
      var i :| 0 <= i < |FieldKeys| && Get(d1, FieldKeys[i]) != Get(d2, FieldKeys[i]);
      assert Flatten(a)[i] != Flatten(b)[i];
    }
  }

  /** Keys outside the layout never reach the document. */
  lemma OtherKeysIgnored(data: map<string, Json>, key: string, v: Json)
    requires key !in FieldKeys
    ensures CleanDocument(data[key := v]) == CleanDocument(data)
  {
    forall i | 0 <= i < |FieldKeys| ensures Get(data[key := v], FieldKeys[i]) == Get(data, FieldKeys[i]) {
      assert FieldKeys[i] != key;
    }
    SameDocumentIffSameFields(data[key := v], data);
  }
}
