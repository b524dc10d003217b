/**
 * The transaction handlers of controllers/transactionController.js over an
 * in-memory collection: every read and write is scoped to the caller's user id.
 */
module TransactionStore {
  import opened Wrappers
  import opened TransactionSchema
  import opened Responses
  import opened Pagination
  import opened ReportDates
  import opened Report

  /**
   * One field the handlers read from a JSON body: left out (`undefined` after
   * destructuring), sent as an explicit `null`, or sent with a value.
   */
  datatype Field<T> = Omitted | Null | Given(value: T)

  /** The value a field carries into a document: `null` and `undefined` both store nothing. */
  function Sent<T>(f: Field<T>): (r: Option<T>)
    ensures r.Some? <==> f.Given?
    ensures r.Some? ==> r.value == f.value
  {
    match f
    case Given(v) => Some(v)
    case _ => None
  }

  /**
   * A request body. The handlers read `type`, `category`, `amount` and
   * `description`; `user` and `date` stand for whatever else a client may send,
   * which the handlers never look at.
   */
  datatype RequestBody = RequestBody(
    txType: Field<string>,
    category: Field<string>,
    amount: Field<int>,
    description: Field<string>,
    user: Option<UserId>,
    date: Option<Millis>)

  /**
   * What an update does with a field the body leaves `undefined`: some Mongoose
   * versions drop it from the update (the stored value stays), others store it
   * as `null`.
   */
  datatype OmittedFields = KeepOmitted | ClearOmitted

  /** The documents of user `u`, in storage order: `Transaction.find({ user: u })`. */
  function Owned(records: seq<Transaction>, u: UserId): seq<Transaction> {
    if records == [] then []
    else (if records[0].user == u then [records[0]] else []) + Owned(records[1..], u)
  }

  /** Exactly `u`'s documents are listed. */
  lemma {:induction false} OwnedMembers(records: seq<Transaction>, u: UserId)
    ensures forall t :: t in Owned(records, u) <==> t in records && t.user == u
  {
    if records != [] {
      OwnedMembers(records[1..], u);
      assert forall t :: t in records <==> t == records[0] || t in records[1..];
    }
  }

  lemma {:induction false} OwnedAppend(a: seq<Transaction>, b: seq<Transaction>, u: UserId)
    ensures Owned(a + b, u) == Owned(a, u) + Owned(b, u)
  {
    if a == [] {
      assert a + b == b;
    } else {
      OwnedAppend(a[1..], b, u);
      var head := if a[0].user == u then [a[0]] else [];
      assert (a + b)[0] == a[0] && (a + b)[1..] == a[1..] + b;
      assert Owned(a + b, u) == head + Owned(a[1..] + b, u);
      assert head + (Owned(a[1..], u) + Owned(b, u)) == (head + Owned(a[1..], u)) + Owned(b, u);
    }
  }

  /** Replacing or removing a document of another user leaves `u`'s documents as they were. */
  lemma OwnedOthersUnchanged(s: seq<Transaction>, i: nat, x: Transaction, u: UserId)
    requires i < |s| && s[i].user != u && x.user != u
    ensures Owned(s[i := x], u) == Owned(s, u)
    ensures Owned(s[..i] + s[i + 1..], u) == Owned(s, u)
  {
    assert s == s[..i] + ([s[i]] + s[i + 1..]);
    assert s[i := x] == s[..i] + ([x] + s[i + 1..]);
    OwnedAppend(s[..i], [s[i]] + s[i + 1..], u);
    OwnedAppend(s[..i], [x] + s[i + 1..], u);
    OwnedAppend([s[i]], s[i + 1..], u);
    OwnedAppend([x], s[i + 1..], u);
    OwnedAppend(s[..i], s[i + 1..], u);
    assert [s[i]][1..] == [] && [x][1..] == [];
  }

  /**
   * The filter `{ _id: id, user: u }`: the position of the first document that
   * has this id and belongs to `u`, or `|records|` when there is none.
   */
  function FindIndex(records: seq<Transaction>, id: TxId, u: UserId): (i: nat)
    ensures i <= |records|
    ensures i < |records| ==> records[i].id == id && records[i].user == u
    ensures forall j :: 0 <= j < i ==> !(records[j].id == id && records[j].user == u)
  {
    if records == [] then 0
    else if records[0].id == id && records[0].user == u then 0
    else 1 + FindIndex(records[1..], id, u)
  }

  /**
   * One field of `findOneAndUpdate`'s update document: a value or an explicit
   * `null` is written; an `undefined` one follows the version's policy.
   */
  function Overwrite<A>(given: Field<A>, current: Option<A>, omitted: OmittedFields): Option<A> {
    match given
    case Given(v) => Some(v)
    case Null => None
    case Omitted => if omitted == KeepOmitted then current else None
  }

  /**
   * The update `{ type, category, amount, description }`: it changes those four
   * fields and nothing else. No schema validator runs on it.
   */
  function Rewrite(t: Transaction, body: RequestBody, omitted: OmittedFields): (r: Transaction)
    ensures r.id == t.id && r.user == t.user && r.date == t.date
    ensures body.txType != Omitted ==> r.txType == Sent(body.txType)
    ensures body.category != Omitted ==> r.category == Sent(body.category)
    ensures body.amount != Omitted ==> r.amount == Sent(body.amount)
    ensures body.description != Omitted ==> r.description == Sent(body.description)
    ensures omitted == KeepOmitted ==>
              (body.txType == Omitted ==> r.txType == t.txType)
              && (body.category == Omitted ==> r.category == t.category)
              && (body.amount == Omitted ==> r.amount == t.amount)
              && (body.description == Omitted ==> r.description == t.description)
    ensures omitted == ClearOmitted ==>
              r.txType == Sent(body.txType) && r.category == Sent(body.category)
              && r.amount == Sent(body.amount) && r.description == Sent(body.description)
  {
    t.(txType := Overwrite(body.txType, t.txType, omitted),
       category := Overwrite(body.category, t.category, omitted),
       amount := Overwrite(body.amount, t.amount, omitted),
       description := Overwrite(body.description, t.description, omitted))
  }

  /** A body that meets the schema keeps the document valid, whatever happens to omitted fields. */
  lemma RewriteKeepsValid(t: Transaction, body: RequestBody, omitted: OmittedFields)
    requires KnownType(Sent(body.txType)) && PresentString(Sent(body.category)) && body.amount.Given?
    ensures IsValid(Rewrite(t, body, omitted))
  {
  }

  /** Applying the same update a second time changes nothing more. */
  lemma RewriteIdempotent(t: Transaction, body: RequestBody, omitted: OmittedFields)
    ensures Rewrite(Rewrite(t, body, omitted), body, omitted) == Rewrite(t, body, omitted)
  {
  }

  /** An update is not validated: a `type` outside the enum is stored as it is. */
  lemma RewriteSkipsValidation(t: Transaction, body: RequestBody, omitted: OmittedFields)
    requires body.txType == Given("refund")
    ensures !IsValid(Rewrite(t, body, omitted))
  {
  }

  /** An explicit `null` amount is written as it is, leaving a document without the required amount. */
  lemma RewriteNullAmount(t: Transaction, body: RequestBody, omitted: OmittedFields)
    requires body.amount == Null
    ensures !IsValid(Rewrite(t, body, omitted))
  {
  }

  /** A document just added is the one the id lookup finds for its owner. */
  lemma AddedIsFound(records: seq<Transaction>, t: Transaction)
    requires forall x :: x in records ==> x.id != t.id
    ensures FindIndex(records + [t], t.id, t.user) == |records|
  {
    var s := records + [t];
    assert s[|records|] == t;
  }

  /**
   * A range whose start day lies after its end day is not an error: the report is
   * empty, with a grand total of 0, and echoes the normalised bounds.
   */
  lemma InvertedRangeReport(records: seq<Transaction>, caller: UserId, startArg: DateArg, endArg: DateArg)
    requires NormaliseRange(startArg, endArg).Ok?
    requires DayOf(startArg.ms) > DayOf(endArg.ms)
    ensures var (start, end) := NormaliseRange(startArg, endArg).value;
            ReportOf(Fetch(records, caller, start, end), start, end) == Summary(0, [], DateRange(start, end))
  {
    InvertedRangeIsEmpty(startArg, endArg);
    var (start, end) := NormaliseRange(startArg, endArg).value;
    InvertedRangeFetchesNothing(records, caller, start, end);
  }

  /** The collection, with the next id to hand out standing for MongoDB's id generation. */
  class Store {
    var records: seq<Transaction>
    var nextId: TxId

    /** Ids are unique and all below `nextId`. */
    ghost predicate Valid()
      reads this
    {
      && (forall i, j :: 0 <= i < j < |records| ==> records[i].id != records[j].id)
      && (forall i :: 0 <= i < |records| ==> records[i].id < nextId)
    }

    constructor ()
      ensures Valid() && records == []
    {
      records := [];
      nextId := 0;
    }

    /**
     * `addTransaction`: builds a document from the four body fields, owned by the
     * caller and dated now, and inserts it if the schema accepts it (201); if not,
     * nothing is stored and the validation error surfaces as 500.
     */
    method Add(caller: UserId, body: RequestBody, now: Millis) returns (r: Result<Transaction, ApiError>)
      requires Valid()
      modifies this
      ensures Valid()
      ensures r.Ok? <==> KnownType(Sent(body.txType)) && PresentString(Sent(body.category)) && body.amount.Given?
      ensures r.Err? ==> r.error == ValidationFailed && Status(r.error) == 500 && records == old(records)
      ensures r.Ok? ==> records == old(records) + [r.value] && IsValid(r.value)
      ensures r.Ok? ==> r.value.user == caller && r.value.date == now
      ensures r.Ok? ==> r.value.txType == Sent(body.txType) && r.value.category == Sent(body.category)
                        && r.value.amount == Sent(body.amount) && r.value.description == Sent(body.description)
      ensures r.Ok? ==> forall t :: t in old(records) ==> t.id != r.value.id
    {
      var draft := Draft(Sent(body.txType), Sent(body.category), Sent(body.amount), None, Sent(body.description), Some(caller));
      match Instantiate(draft, nextId, now)
      case Err(_) =>
        r := Err(ValidationFailed);
      case Ok(t) =>
        records := records + [t];
        nextId := nextId + 1;
        r := Ok(t);
    }

    /**
     * `getTransactions`: the requested page of the caller's documents, the page
     * number used and the page count; no other user's document is ever listed.
     */
    method List(caller: UserId, pageNumber: Option<nat>) returns (page: Page<Transaction>)
      ensures page == ListPage(Owned(records, caller), pageNumber)
      ensures forall t :: t in page.transactions ==> t in records && t.user == caller
    {
      var mine := Owned(records, caller);
      page := ListPage(mine, pageNumber);
      OwnedMembers(records, caller);
      forall t | t in page.transactions
        ensures t in mine
      {
        var i :| 0 <= i < |page.transactions| && page.transactions[i] == t;
      }
    }

    /** `getTransactionById`: the caller's document with that id (200), else 404. */
    method GetById(caller: UserId, id: TxId) returns (r: Result<Transaction, ApiError>)
      ensures r.Ok? <==> exists t :: t in records && t.id == id && t.user == caller
      ensures r.Ok? ==> r.value in records && r.value.id == id && r.value.user == caller
      ensures r.Err? ==> r.error == NotFound && Status(r.error) == 404 && Message(r.error) == "Transaction not found"
    {
      var i := FindIndex(records, id, caller);
      if i < |records| {
        r := Ok(records[i]);
      } else {
        r := Err(NotFound);
      }
    }

    /**
     * `updateTransaction`: rewrites the four fields of the caller's document with
     * that id and returns the new version (200); without such a document, 404 and
     * nothing changes. No other document, and no other user's, is touched.
     */
    method Update(caller: UserId, id: TxId, body: RequestBody, omitted: OmittedFields) returns (r: Result<Transaction, ApiError>)
      requires Valid()
      modifies this
      ensures Valid() && nextId == old(nextId)
      ensures r.Ok? <==> exists t :: t in old(records) && t.id == id && t.user == caller
      ensures r.Err? ==> r.error == NotFound && Status(r.error) == 404 && records == old(records)
      ensures r.Ok? ==> var i := FindIndex(old(records), id, caller);
                        i < |old(records)| && r.value == Rewrite(old(records)[i], body, omitted)
                        && records == old(records)[i := r.value]
      ensures forall u :: u != caller ==> Owned(records, u) == Owned(old(records), u)
    {
      var i := FindIndex(records, id, caller);
      if i < |records| {
        ghost var before := records;
        var t := Rewrite(records[i], body, omitted);
        records := records[i := t];
        r := Ok(t);
        forall u | u != caller
          ensures Owned(records, u) == Owned(before, u)
        {
          OwnedOthersUnchanged(before, i, t, u);
        }
      } else {
        r := Err(NotFound);
      }
    }

    /**
     * `deleteTransaction`: removes the caller's document with that id (200), after
     * which no document has that id; without such a document, 404 and nothing
     * changes. No other user's documents are touched.
     */
    method Delete(caller: UserId, id: TxId) returns (r: Result<Transaction, ApiError>)
      requires Valid()
      modifies this
      ensures Valid() && nextId == old(nextId)
      ensures r.Ok? <==> exists t :: t in old(records) && t.id == id && t.user == caller
      ensures r.Err? ==> r.error == NotFound && Status(r.error) == 404 && records == old(records)
      ensures r.Ok? ==> var i := FindIndex(old(records), id, caller);
                        i < |old(records)| && r.value == old(records)[i]
                        && records == old(records)[..i] + old(records)[i + 1..]
      ensures r.Ok? ==> forall t :: t in records ==> t.id != id
      ensures forall u :: u != caller ==> Owned(records, u) == Owned(old(records), u)
    {
      var i := FindIndex(records, id, caller);
      if i < |records| {
        ghost var before := records;
        r := Ok(records[i]);
        records := records[..i] + records[i + 1..];
        forall u | u != caller
          ensures Owned(records, u) == Owned(before, u)
        {
          OwnedOthersUnchanged(before, i, before[i], u);
        }
        forall t | t in records
          ensures t.id != id
        {
          var j :| 0 <= j < |records| && records[j] == t;
          if j < i {
            assert t == before[j];
          } else {
            assert t == before[j + 1];
          }
        }
      } else {
        r := Err(NotFound);
      }
    }

    /**
     * `generateReport`: 400 when a date is missing or invalid; otherwise the
     * summary of the caller's documents in the normalised range.
     */
    method GenerateReport(caller: UserId, startArg: DateArg, endArg: DateArg) returns (r: Result<Summary, ApiError>)
      ensures r.Err? <==> NormaliseRange(startArg, endArg).Err?
      ensures r.Err? ==> r.error == NormaliseRange(startArg, endArg).error && Status(r.error) == 400
      ensures r.Err? ==> Message(r.error) == (if startArg.Absent? || endArg.Absent?
                                              then "Start date and end date are required"
                                              else "Invalid date format")
      ensures r.Ok? ==> var (start, end) := NormaliseRange(startArg, endArg).value;
                        r.value == ReportOf(Fetch(records, caller, start, end), start, end)
    {
      match NormaliseRange(startArg, endArg)
      case Err(e) =>
        r := Err(e);
      case Ok((start, end)) =>
        var fetched := Fetch(records, caller, start, end);
        var summary := BuildSummary(fetched, start, end);
        r := Ok(summary);
    }
  }
}
