/**
 * The `OfficeInventory` schema: the shape of one stored inventory document
 * and the `required: true` validators that a document must pass before it is
 * saved.
 */
module OfficeInventory {

  import opened Wrappers

  /** A MongoDB ObjectId. Only equality and freshness matter to the model. */
  type ObjectId = nat

  /**
   * A stored inventory document, without its `_id` (the collection's key).
   * `dateAdded` is kept as the text the client submitted; casting it to a
   * Date is not part of this model.
   */
  datatype Record = Record(
    name: string,
    description: string,
    quantity: int,
    dateAdded: string,
    userId: ObjectId)

  /**
   * A document as it is built from its inputs, before validation: every path
   * may be unset.
   */
  datatype Document = Document(
    name: Option<string>,
    description: Option<string>,
    quantity: Option<int>,
    dateAdded: Option<string>,
    userId: Option<ObjectId>)

  /** A required String path is set and is not the empty string. */
  predicate RequiredText(v: Option<string>) {
    v.Some? && v.value != ""
  }

  /** What every stored record satisfies: both required String paths are non-empty. */
  predicate Conforms(r: Record) {
    r.name != "" && r.description != ""
  }

  /** The unvalidated document whose paths are exactly those of `r`. */
  function Unvalidated(r: Record): Document {
    Document(Some(r.name), Some(r.description), Some(r.quantity), Some(r.dateAdded), Some(r.userId))
  }

  /**
   * Schema validation. A required String path rejects an unset value and "";
   * the required Number, Date and ObjectId paths reject only an unset value.
   * A document that passes becomes the record it describes.
   */
  function Validate(d: Document): (r: Option<Record>)
    ensures r.Some? <==>
      RequiredText(d.name) && RequiredText(d.description) &&
      d.quantity.Some? && d.dateAdded.Some? && d.userId.Some?
    ensures r.Some? ==> Conforms(r.value) && Unvalidated(r.value) == d
  {
    if RequiredText(d.name) && RequiredText(d.description)
       && d.quantity.Some? && d.dateAdded.Some? && d.userId.Some?
    then Some(Record(d.name.value, d.description.value, d.quantity.value, d.dateAdded.value, d.userId.value))
    else None
  }

  /** Every conforming record is accepted by validation, unchanged. */
  lemma ValidateAcceptsConforming(r: Record)
    requires Conforms(r)
    ensures Validate(Unvalidated(r)) == Some(r)
  {
  }
}
