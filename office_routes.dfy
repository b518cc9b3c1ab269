/**
 * The `/offices` router: four handlers over the `OfficeInventory`
 * collection, each scoped to the authenticated caller's user id.
 *
 * The collection is an object holding a map from `_id` to record. The
 * caller's user id comes from the token middleware and is trusted; a failure
 * of the store (a rejected query, a lost connection) is the flag
 * `storeFails`.
 */
module OfficeRoutes {

  import opened Wrappers
  import opened OfficeInventory

  /** The four fields of a POST or PUT body; `None` is a field left out or null. */
  datatype Submission = Submission(
    name: Option<string>,
    description: Option<string>,
    quantity: Option<int>,
    dateAdded: Option<string>)

  /** JavaScript truthiness of an optional string: set and not "". */
  predicate TruthyText(v: Option<string>) {
    v.Some? && v.value != ""
  }

  /** JavaScript truthiness of an optional number: set and not 0. */
  predicate TruthyNumber(v: Option<int>) {
    v.Some? && v.value != 0
  }

  /** The handlers' required-field check: no field of the body is falsy. */
  predicate AllFieldsGiven(b: Submission) {
    TruthyText(b.name) && TruthyText(b.description) &&
    TruthyNumber(b.quantity) && TruthyText(b.dateAdded)
  }

  /**
   * What the check counts as missing: an unset field, "", or quantity 0.
   * Any other quantity passes, a negative one included.
   */
  lemma FalsyFieldsAreMissing(b: Submission)
    ensures AllFieldsGiven(b) <==>
      && b.name !in {None, Some("")} && b.description !in {None, Some("")}
      && b.quantity !in {None, Some(0)} && b.dateAdded !in {None, Some("")}
    ensures (TruthyText(b.name) && TruthyText(b.description) && TruthyText(b.dateAdded)
             && b.quantity.Some? && b.quantity.value < 0) ==> AllFieldsGiven(b)
  {
    assert TruthyText(b.name) <==> b.name !in {None, Some("")};
    assert TruthyText(b.description) <==> b.description !in {None, Some("")};
    assert TruthyNumber(b.quantity) <==> b.quantity !in {None, Some(0)};
    assert TruthyText(b.dateAdded) <==> b.dateAdded !in {None, Some("")};
  }

  datatype Status = OK | Created | NoContent | BadRequest | NotFound | ServerError {
    /** The HTTP status code sent for this outcome. */
    function Code(): int {
      match this
      case OK => 200
      case Created => 201
      case NoContent => 204
      case BadRequest => 400
      case NotFound => 404
      case ServerError => 500
    }
  }

  /** A stored record together with its `_id`, as sent in a JSON body. */
  datatype Doc = Doc(id: ObjectId, record: Record)

  /** A JSON array of records (order unspecified), one record, an error object, or nothing. */
  datatype Body = Docs(docs: set<Doc>) | One(doc: Doc) | Error(message: string) | Empty

  datatype Response = Response(status: Status, body: Body)

  const FieldsRequired := Response(BadRequest, Error("All fields are required"))
  const NotFoundOrUnauthorized := Response(NotFound, Error("Record not found or unauthorized"))
  const StoreError := Response(ServerError, Error("Server error"))

  /** The records of `m` whose owner is `u`: what a query filtered by `userId: u` sees. */
  function OwnedBy(m: map<ObjectId, Record>, u: ObjectId): map<ObjectId, Record> {
    map id | id in m && m[id].userId == u :: m[id]
  }

  /** The document built from a POST body and the caller's user id, before `save`. */
  function Draft(b: Submission, caller: ObjectId): Document {
    Document(b.name, b.description, b.quantity, b.dateAdded, Some(caller))
  }

  /**
   * A body that passed the required-field check builds a document that the
   * schema's required validators accept. Casting values to the schema types
   * is not modelled: the source's cast failures are covered by `storeFails`.
   */
  lemma CheckedDraftIsValid(b: Submission, caller: ObjectId)
    requires AllFieldsGiven(b)
    ensures Validate(Draft(b, caller)).Some?
    ensures Validate(Draft(b, caller)).value.userId == caller
  {
  }

  /**
   * Quantity 0 is a legal value for the schema's required Number path, yet
   * the handlers' truthiness check turns such a body away.
   */
  lemma ZeroQuantityRejectedOnlyByHandler(b: Submission, caller: ObjectId)
    requires TruthyText(b.name) && TruthyText(b.description) && TruthyText(b.dateAdded)
    requires b.quantity == Some(0)
    ensures !AllFieldsGiven(b)
    ensures Validate(Draft(b, caller)).Some? && Validate(Draft(b, caller)).value.quantity == 0
  {
  }

  /**
   * The record after `findOneAndUpdate` replaced its four fields with those of
   * a checked body: the owner is kept and the result still conforms.
   */
  function Replaced(r: Record, b: Submission): (r': Record)
    requires AllFieldsGiven(b)
    ensures r'.userId == r.userId && Conforms(r')
    ensures Some(r'.name) == b.name && Some(r'.description) == b.description
    ensures Some(r'.quantity) == b.quantity && Some(r'.dateAdded) == b.dateAdded
  {
    r.(name := b.name.value, description := b.description.value,
       quantity := b.quantity.value, dateAdded := b.dateAdded.value)
  }

  /**
   * The answer to PUT `/:id`, as a function of the caller's own records only:
   * validation first, then the store, then the owner-scoped match.
   */
  function UpdateAnswer(view: map<ObjectId, Record>, id: ObjectId, b: Submission, storeFails: bool): Response {
    if !AllFieldsGiven(b) then FieldsRequired
    else if storeFails then StoreError
    else if id !in view then NotFoundOrUnauthorized
    else Response(OK, One(Doc(id, Replaced(view[id], b))))
  }

  /** The answer to DELETE `/:id`, as a function of the caller's own records only. */
  function DeleteAnswer(view: map<ObjectId, Record>, id: ObjectId, storeFails: bool): Response {
    if storeFails then StoreError
    else if id !in view then NotFoundOrUnauthorized
    else Response(NoContent, Empty)
  }

  /** Some ObjectId is larger than every id already in use. */
  lemma {:induction false} UpperBound(ids: set<ObjectId>) returns (n: ObjectId)
    ensures forall id :: id in ids ==> id < n
    decreases |ids|
  {
    if ids == {} {
      n := 0;
    } else {
      var x :| x in ids;
      var m := UpperBound(ids - {x});
      n := if m <= x then x + 1 else m;
      forall id | id in ids ensures id < n {
        if id != x { assert id in ids - {x}; }
      }
    }
  }

  /** The query `{ _id: id, userId: u }` matches a record of `m`. */
  predicate Owns(m: map<ObjectId, Record>, id: ObjectId, u: ObjectId) {
    id in m && m[id].userId == u
  }

  /** The owner-scoped query and the caller's view agree on which ids match. */
  lemma OwnsIffInView(m: map<ObjectId, Record>, id: ObjectId, u: ObjectId)
    ensures Owns(m, id, u) <==> id in OwnedBy(m, u)
    ensures Owns(m, id, u) ==> OwnedBy(m, u)[id] == m[id]
  {
  }

  /** `u` sees the same records, with the same contents, in `m1` and in `m2`. */
  ghost predicate SameView(m1: map<ObjectId, Record>, m2: map<ObjectId, Record>, u: ObjectId) {
    && (forall id :: Owns(m1, id, u) <==> Owns(m2, id, u))
    && (forall id :: Owns(m1, id, u) ==> m1[id] == m2[id])
  }

  /**
   * Between `before` and `after` no record owned by anyone but `u` appeared,
   * disappeared or changed.
   */
  predicate OthersUnchanged(before: map<ObjectId, Record>, after: map<ObjectId, Record>, u: ObjectId) {
    && (forall id :: id in before && before[id].userId != u ==> id in after && after[id] == before[id])
    && (forall id :: id in after && after[id].userId != u ==> id in before && before[id] == after[id])
  }

  /** A change confined to `u`'s records leaves every other user's view as it was. */
  lemma OthersSeeNoChange(before: map<ObjectId, Record>, after: map<ObjectId, Record>, u: ObjectId, v: ObjectId)
    requires OthersUnchanged(before, after, u) && v != u
    ensures SameView(before, after, v)
  {
  }

  /**
   * Non-disclosure: the answers to PUT and DELETE depend on the caller's own
   * records only, so two stores the caller sees alike get the same answers.
   */
  lemma AnswersDependOnlyOnView(m1: map<ObjectId, Record>, m2: map<ObjectId, Record>, u: ObjectId,
                                id: ObjectId, b: Submission, storeFails: bool)
    requires SameView(m1, m2, u)
    ensures UpdateAnswer(OwnedBy(m1, u), id, b, storeFails) == UpdateAnswer(OwnedBy(m2, u), id, b, storeFails)
    ensures DeleteAnswer(OwnedBy(m1, u), id, storeFails) == DeleteAnswer(OwnedBy(m2, u), id, storeFails)
  {
    OwnsIffInView(m1, id, u);
    OwnsIffInView(m2, id, u);
  }

  /**
   * PUT on another user's record gets exactly the answer PUT on an absent id
   * gets, and never a 200.
   */
  lemma ForeignUpdateLooksAbsent(m: map<ObjectId, Record>, id: ObjectId, u: ObjectId, b: Submission, storeFails: bool)
    requires id in m && m[id].userId != u
    ensures UpdateAnswer(OwnedBy(m, u), id, b, storeFails) == UpdateAnswer(OwnedBy(m - {id}, u), id, b, storeFails)
    ensures UpdateAnswer(OwnedBy(m, u), id, b, storeFails).status != OK
  {
    AnswersDependOnlyOnView(m, m - {id}, u, id, b, storeFails);
  }

  /**
   * DELETE on another user's record gets exactly the answer DELETE on an
   * absent id gets, and never a 204.
   */
  lemma ForeignDeleteLooksAbsent(m: map<ObjectId, Record>, id: ObjectId, u: ObjectId, storeFails: bool)
    requires id in m && m[id].userId != u
    ensures DeleteAnswer(OwnedBy(m, u), id, storeFails) == DeleteAnswer(OwnedBy(m - {id}, u), id, storeFails)
    ensures DeleteAnswer(OwnedBy(m, u), id, storeFails).status != NoContent
  {
    AnswersDependOnlyOnView(m, m - {id}, u, id, Submission(None, None, None, None), storeFails);
  }

  /** The inventory collection: every document, keyed by `_id`. */
  class OfficeCollection {
    var records: map<ObjectId, Record>

    /** Every stored record conforms to the schema. */
    ghost predicate Valid()
      reads this
    {
      forall id :: id in records ==> Conforms(records[id])
    }

    constructor ()
      ensures Valid() && records == map[]
    {
      records := map[];
    }

    /** GET `/`: the caller's records and no others. */
    method List(caller: ObjectId, storeFails: bool) returns (resp: Response)
      requires Valid()
      ensures storeFails ==> resp == StoreError
      ensures !storeFails ==> resp.status == OK && resp.body.Docs?
      ensures !storeFails ==> forall d :: d in resp.body.docs <==>
        d.id in records && records[d.id] == d.record && d.record.userId == caller
      ensures !storeFails ==> forall d :: d in resp.body.docs ==> Conforms(d.record)
    {
      if storeFails {
        return StoreError;
      }
      var view := OwnedBy(records, caller);
      var docs := set id | id in view :: Doc(id, view[id]);
      forall d: Doc | d.id in records && records[d.id] == d.record && d.record.userId == caller
        ensures d in docs
      {
        assert d == Doc(d.id, view[d.id]);
      }
      resp := Response(OK, Docs(docs));
    }

    /** POST `/`: check the body, then insert one record owned by the caller under a fresh id. */
    method Create(caller: ObjectId, body: Submission, storeFails: bool) returns (resp: Response)
      requires Valid()
      modifies this
      ensures Valid()
      ensures !AllFieldsGiven(body) ==> resp == FieldsRequired && records == old(records)
      ensures AllFieldsGiven(body) && storeFails ==> resp == StoreError && records == old(records)
      ensures AllFieldsGiven(body) && !storeFails ==>
        && resp.status == Created && resp.body.One?
        && resp.body.doc.id !in old(records)
        && Validate(Draft(body, caller)) == Some(resp.body.doc.record)
        && records == old(records)[resp.body.doc.id := resp.body.doc.record]
      ensures OthersUnchanged(old(records), records, caller)
    {
      if !AllFieldsGiven(body) {
        return FieldsRequired;
      }
      CheckedDraftIsValid(body, caller);
      var record := Validate(Draft(body, caller)).value;
      var bound := UpperBound(records.Keys);
      assert bound !in records;
      var id :| id !in records;
      if storeFails {
        return StoreError;
      }
      records := records[id := record];
      resp := Response(Created, One(Doc(id, record)));
    }

    /** PUT `/:id`: check the body, then replace the four fields of the record matching both `id` and the caller. */
    method Update(caller: ObjectId, id: ObjectId, body: Submission, storeFails: bool) returns (resp: Response)
      requires Valid()
      modifies this
      ensures Valid()
      ensures resp == UpdateAnswer(OwnedBy(old(records), caller), id, body, storeFails)
      ensures records == if resp.status == OK then old(records)[id := resp.body.doc.record] else old(records)
      ensures OthersUnchanged(old(records), records, caller)
    {
      if !AllFieldsGiven(body) {
        return FieldsRequired;
      }
      if storeFails {
        return StoreError;
      }
      if !Owns(records, id, caller) {
        return NotFoundOrUnauthorized;
      }
      var updated := Replaced(records[id], body);
      records := records[id := updated];
      resp := Response(OK, One(Doc(id, updated)));
    }

    /** DELETE `/:id`: remove the record matching both `id` and the caller. */
    method Delete(caller: ObjectId, id: ObjectId, storeFails: bool) returns (resp: Response)
      requires Valid()
      modifies this
      ensures Valid()
      ensures resp == DeleteAnswer(OwnedBy(old(records), caller), id, storeFails)
      ensures records == if resp.status == NoContent then old(records) - {id} else old(records)
      ensures OthersUnchanged(old(records), records, caller)
    {
      if storeFails {
        return StoreError;
      }
      if !Owns(records, id, caller) {
        return NotFoundOrUnauthorized;
      }
      records := records - {id};
      resp := Response(NoContent, Empty);
    }
  }
}
