/**
 * The Transaction document of models/Transaction.js: its fields, the schema's
 * validity rules (the `type` enum and the required fields) and the default
 * applied to `date` when a document is built.
 */
module TransactionSchema {
  import opened Wrappers

  /** The owner's ObjectId and the document's `_id`, as abstract numbers. */
  type UserId = nat
  type TxId = nat
  /** A JavaScript time value: milliseconds since 1970-01-01T00:00:00Z. */
  type Millis = int

  /**
   * A stored document. `type`, `category` and `amount` are optional here because an
   * update writes whatever the request carries without re-running the schema's
   * validators, so a stored document need not satisfy `IsValid`.
   */
  datatype Transaction = Transaction(
    id: TxId,
    txType: Option<string>,
    category: Option<string>,
    amount: Option<int>,
    date: Millis,
    description: Option<string>,
    user: UserId)

  /** The fields handed to `new Transaction({...})`, before defaults and validation. */
  datatype Draft = Draft(
    txType: Option<string>,
    category: Option<string>,
    amount: Option<int>,
    date: Option<Millis>,
    description: Option<string>,
    user: Option<UserId>)

  datatype ValidationError = ValidationError

  /** The `type` enum: exactly "income" or "expense". */
  predicate KnownType(t: Option<string>) {
    t == Some("income") || t == Some("expense")
  }

  /** Mongoose's `required` check on a String path: present and not the empty string. */
  predicate PresentString(s: Option<string>) {
    s.Some? && s.value != ""
  }

  /** A draft the schema accepts; `date` and `description` may be absent. */
  predicate DraftValid(d: Draft) {
    KnownType(d.txType) && PresentString(d.category) && d.amount.Some? && d.user.Some?
  }

  /** A stored document that satisfies the schema (its `user` and `date` are always present). */
  predicate IsValid(t: Transaction) {
    KnownType(t.txType) && PresentString(t.category) && t.amount.Some?
  }

  /** The fields of a stored document, read back as a draft. */
  function DraftOf(t: Transaction): Draft {
    Draft(t.txType, t.category, t.amount, Some(t.date), t.description, Some(t.user))
  }

  /**
   * Builds and validates a document, as `new Transaction(...)` followed by `save()`:
   * a missing `date` defaults to `now` (the schema's `Date.now`), the id is the one
   * the store assigns, and a draft that breaks the schema is refused.
   */
  function Instantiate(d: Draft, id: TxId, now: Millis): (r: Result<Transaction, ValidationError>)
    ensures r.Ok? <==> DraftValid(d)
    ensures r.Ok? ==> IsValid(r.value) && r.value.id == id
    ensures r.Ok? ==> DraftOf(r.value) == d.(date := Some(r.value.date))
    ensures r.Ok? ==> r.value.date == (if d.date.Some? then d.date.value else now)
  {
    if !DraftValid(d) then Err(ValidationError)
    else
      var date := match d.date case Some(t) => t case None => now;
      Ok(Transaction(id, d.txType, d.category, d.amount, date, d.description, d.user.value))
  }

  /** Reading a valid document back as a draft and building it again yields the same document. */
  lemma InstantiateRoundTrip(t: Transaction, now: Millis)
    requires IsValid(t)
    ensures Instantiate(DraftOf(t), t.id, now) == Ok(t)
  {
  }
}
