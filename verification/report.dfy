/**
 * The report of `generateReport`: the query for the caller's documents in the
 * normalised range in ascending date order, the `forEach` that folds them into
 * per-category buckets and a grand total, and the re-ordering of the buckets by
 * total, descending.
 */
module Report {
  import opened Wrappers
  import opened Sorting
  import opened TransactionSchema

  /** One element of a bucket's `transactions` list. */
  datatype LineItem = LineItem(id: TxId, amount: Option<int>, description: Option<string>, date: Millis)

  /** `{ total, count, transactions }` of one category. */
  datatype Bucket = Bucket(total: int, count: nat, items: seq<LineItem>)

  /** One `[category, bucket]` pair of `byCategory`, in its order. */
  datatype Entry = Entry(category: string, bucket: Bucket)

  datatype DateRange = DateRange(start: Millis, end: Millis)

  /** The response body `{ totalExpenses, byCategory, dateRange }`. */
  datatype Summary = Summary(totalExpenses: int, byCategory: seq<Entry>, dateRange: DateRange)

  // ---------------------------------------------------------------------------
  // The query (lines 129-135)

  function DateKey(t: Transaction): int {
    t.date
  }

  /** The documents of `caller` dated within `[start, end]`, in storage order. */
  function InRange(records: seq<Transaction>, caller: UserId, start: int, end: int): (r: seq<Transaction>)
    ensures forall t :: t in r <==> t in records && t.user == caller && start <= t.date <= end
  {
    if records == [] then []
    else
      assert forall t :: t in records <==> t == records[0] || t in records[1..];
      (if records[0].user == caller && start <= records[0].date <= end then [records[0]] else [])
      + InRange(records[1..], caller, start, end)
  }

  /**
   * `Transaction.find({ user, date: { $gte: start, $lte: end } }).sort({ date: 1 })`:
   * exactly the caller's documents in the range, in ascending date order. MongoDB
   * leaves the order of equal dates open; the model keeps their storage order.
   */
  function Fetch(records: seq<Transaction>, caller: UserId, start: int, end: int): (r: seq<Transaction>)
    ensures forall t :: t in r <==> t in records && t.user == caller && start <= t.date <= end
    ensures multiset(r) == multiset(InRange(records, caller, start, end))
    ensures forall i, j :: 0 <= i < j < |r| ==> r[i].date <= r[j].date
  {
    var r := SortBy(InRange(records, caller, start, end), DateKey);
    assert forall t :: t in r <==> t in multiset(r);
    r
  }

  /** A range whose start lies after its end selects nothing. */
  lemma {:induction false} InvertedRangeFetchesNothing(records: seq<Transaction>, caller: UserId, start: int, end: int)
    requires start > end
    ensures InRange(records, caller, start, end) == []
    ensures Fetch(records, caller, start, end) == []
  {
    if records != [] {
      InvertedRangeFetchesNothing(records[1..], caller, start, end);
    }
    assert |Fetch(records, caller, start, end)| == |multiset(Fetch(records, caller, start, end))|;
  }

  // ---------------------------------------------------------------------------
  // The fold (lines 140-171), described by reference functions over the fetched
  // sequence. They are defined on the last element so that they follow the
  // left-to-right order of the loop.

  /** The property name `summary.byCategory[transaction.category]` uses: an absent category reads as `null`. */
  function CategoryKey(t: Transaction): string {
    match t.category
    case Some(c) => c
    case None => "null"
  }

  /** What `+= transaction.amount` adds: an absent amount reads as `null`, which adds 0. */
  function AmountValue(t: Transaction): int {
    match t.amount
    case Some(a) => a
    case None => 0
  }

  function LineOf(t: Transaction): LineItem {
    LineItem(t.id, t.amount, t.description, t.date)
  }

  /** The sum of the amounts of `s`. */
  function Total(s: seq<Transaction>): int {
    if s == [] then 0 else Total(s[..|s| - 1]) + AmountValue(s[|s| - 1])
  }

  /** The transactions of `s` in category `c`, in the order of `s`. */
  function InCategory(s: seq<Transaction>, c: string): seq<Transaction> {
    if s == [] then []
    else InCategory(s[..|s| - 1], c) + (if CategoryKey(s[|s| - 1]) == c then [s[|s| - 1]] else [])
  }

  lemma {:induction false} InCategoryMembers(s: seq<Transaction>, c: string)
    ensures forall t :: t in InCategory(s, c) <==> t in s && CategoryKey(t) == c
  {
    if s != [] {
      var init, last := s[..|s| - 1], s[|s| - 1];
      assert s == init + [last];
      InCategoryMembers(init, c);
    }
  }

  /** The line items of `s`, one per transaction, in the same order. */
  function Lines(s: seq<Transaction>): (r: seq<LineItem>)
    ensures |r| == |s|
    ensures forall k :: 0 <= k < |s| ==> r[k] == LineOf(s[k])
  {
    if s == [] then [] else Lines(s[..|s| - 1]) + [LineOf(s[|s| - 1])]
  }

  /** The categories of `s`, each once, in the order of their first transaction. */
  function Categories(s: seq<Transaction>): seq<string> {
    if s == [] then []
    else
      var cs := Categories(s[..|s| - 1]);
      if CategoryKey(s[|s| - 1]) in cs then cs else cs + [CategoryKey(s[|s| - 1])]
  }

  /** The bucket category `c` should have: the total, number and line items of its transactions. */
  function BucketOf(s: seq<Transaction>, c: string): Bucket {
    var mine := InCategory(s, c);
    Bucket(Total(mine), |mine|, Lines(mine))
  }

  /** The running state of the loop: `totalExpenses`, the key order of `byCategory` and its buckets. */
  datatype Tally = Tally(totalExpenses: int, order: seq<string>, buckets: map<string, Bucket>)

  /** One iteration of the loop body: create the bucket if the category is new, then grow it and the grand total. */
  function Record(tally: Tally, t: Transaction): Tally {
    var k := CategoryKey(t);
    var b := if k in tally.buckets then tally.buckets[k] else Bucket(0, 0, []);
    Tally(tally.totalExpenses + AmountValue(t),
          if k in tally.buckets then tally.order else tally.order + [k],
          tally.buckets[k := Bucket(b.total + AmountValue(t), b.count + 1, b.items + [LineOf(t)])])
  }

  /** The state of the loop after the transactions `s`. */
  function Tallied(s: seq<Transaction>): Tally {
    if s == [] then Tally(0, [], map[]) else Record(Tallied(s[..|s| - 1]), s[|s| - 1])
  }

  lemma {:induction false} CategoriesListed(s: seq<Transaction>, c: string)
    ensures c in Categories(s) <==> InCategory(s, c) != []
  {
    if s != [] {
      CategoriesListed(s[..|s| - 1], c);
    }
  }

  /** Every category is listed once. */
  lemma {:induction false} CategoriesDistinct(s: seq<Transaction>)
    ensures forall i, j :: 0 <= i < j < |Categories(s)| ==> Categories(s)[i] != Categories(s)[j]
  {
    if s != [] {
      CategoriesDistinct(s[..|s| - 1]);
    }
  }

  /** Adding a transaction to `s` extends its category's bucket and leaves the others alone. */
  lemma BucketStep(s: seq<Transaction>, t: Transaction, c: string)
    ensures var b := BucketOf(s, c);
            BucketOf(s + [t], c) ==
              if c == CategoryKey(t) then Bucket(b.total + AmountValue(t), b.count + 1, b.items + [LineOf(t)]) else b
  {
    var s' := s + [t];
    assert s'[..|s'| - 1] == s;
    var mine := InCategory(s, c);
    if c == CategoryKey(t) {
      var mine' := mine + [t];
      assert InCategory(s', c) == mine';
      assert mine'[..|mine'| - 1] == mine;
    } else {
      assert InCategory(s', c) == mine;
    }
  }

  /**
   * The fold computes the reference values: the grand total is the sum of all
   * amounts, the keys are the categories in order of first appearance, and each
   * bucket is its category's total, count and line items.
   */
  lemma {:induction false} TalliedMeaning(s: seq<Transaction>)
    ensures Tallied(s).totalExpenses == Total(s)
    ensures Tallied(s).order == Categories(s)
    ensures forall c :: c in Tallied(s).buckets <==> c in Categories(s)
    ensures forall c :: c in Tallied(s).buckets ==> Tallied(s).buckets[c] == BucketOf(s, c)
  {
    if s != [] {
      var init, t := s[..|s| - 1], s[|s| - 1];
      assert s == init + [t];
      TalliedMeaning(init);
      var k := CategoryKey(t);
      CategoriesListed(init, k);
      if k !in Tallied(init).buckets {
        assert BucketOf(init, k) == Bucket(0, 0, []);
      }
      forall c | c in Tallied(s).buckets
        ensures Tallied(s).buckets[c] == BucketOf(s, c)
      {
        BucketStep(init, t, c);
      }
    }
  }

  lemma OverwriteTwice(m: map<string, Bucket>, k: string, v: Bucket, w: Bucket)
    ensures m[k := v][k := w] == m[k := w]
  {
  }

  /**
   * The `forEach` of lines 149-171: a bucket is created the first time a category
   * is seen, then its total, count and line items grow, and so does the grand
   * total. Afterwards the grand total is the sum of every fetched amount, the
   * categories are those of the fetched transactions in order of first
   * appearance, and each bucket holds exactly its category's transactions.
   */
  method Summarise(fetched: seq<Transaction>) returns (totalExpenses: int, order: seq<string>, buckets: map<string, Bucket>)
    ensures totalExpenses == Total(fetched)
    ensures order == Categories(fetched)
    ensures forall c :: c in buckets <==> c in order
    ensures forall c :: c in buckets ==> buckets[c] == BucketOf(fetched, c)
  {
    totalExpenses, order, buckets := 0, [], map[];
    for i := 0 to |fetched|
      invariant Tally(totalExpenses, order, buckets) == Tallied(fetched[..i])
    {
      var t := fetched[i];
      assert fetched[..i + 1][..i] == fetched[..i];
      ghost var before := Tally(totalExpenses, order, buckets);
      var key := CategoryKey(t);
      if key !in buckets {
        buckets := buckets[key := Bucket(0, 0, [])];
        order := order + [key];
      }
      var b := buckets[key];
      var grown := Bucket(b.total + AmountValue(t), b.count + 1, b.items + [LineOf(t)]);
      OverwriteTwice(before.buckets, key, b, grown);
      buckets := buckets[key := grown];
      totalExpenses := totalExpenses + AmountValue(t);
      assert Tally(totalExpenses, order, buckets) == Record(before, t);
    }
    assert fetched[..|fetched|] == fetched;
    TalliedMeaning(fetched);
  }

  // ---------------------------------------------------------------------------
  // The re-ordering (lines 174-184)

  /** The sort key of `(a, b) => b.total - a.total`: larger totals first. */
  function DescendingTotal(e: Entry): int {
    -e.bucket.total
  }

  /** `Object.entries(summary.byCategory)`: the buckets in key order. */
  function ObjectEntries(order: seq<string>, buckets: map<string, Bucket>): seq<Entry>
    requires forall c :: c in order ==> c in buckets
  {
    seq(|order|, i requires 0 <= i < |order| => Entry(order[i], buckets[order[i]]))
  }

  /** The entries for the categories `keys` of `s`. */
  function EntriesFor(keys: seq<string>, s: seq<Transaction>): (r: seq<Entry>)
    ensures |r| == |keys|
    ensures forall i :: 0 <= i < |keys| ==> r[i] == Entry(keys[i], BucketOf(s, keys[i]))
  {
    if keys == [] then [] else [Entry(keys[0], BucketOf(s, keys[0]))] + EntriesFor(keys[1..], s)
  }

  /** The buckets of the fetched transactions, in order of first appearance. */
  function CategoryEntries(s: seq<Transaction>): seq<Entry> {
    EntriesFor(Categories(s), s)
  }

  /** The summary the handler answers with for the fetched transactions and the normalised range. */
  function ReportOf(fetched: seq<Transaction>, start: Millis, end: Millis): Summary {
    Summary(Total(fetched), SortBy(CategoryEntries(fetched), DescendingTotal), DateRange(start, end))
  }

  /**
   * The loop followed by the sort and the rebuild of `byCategory`: the pure
   * reference `ReportOf` is what the handler computes.
   */
  method BuildSummary(fetched: seq<Transaction>, start: Millis, end: Millis) returns (summary: Summary)
    ensures summary == ReportOf(fetched, start, end)
  {
    var totalExpenses, order, buckets := Summarise(fetched);
    var entries := ObjectEntries(order, buckets);
    assert entries == CategoryEntries(fetched);
    summary := Summary(totalExpenses, SortBy(entries, DescendingTotal), DateRange(start, end));
  }

  // ---------------------------------------------------------------------------
  // Properties of the report

  function SumTotals(es: seq<Entry>): int {
    if es == [] then 0 else es[0].bucket.total + SumTotals(es[1..])
  }

  function SumCounts(es: seq<Entry>): int {
    if es == [] then 0 else es[0].bucket.count + SumCounts(es[1..])
  }

  lemma {:induction false} SumsAppend(a: seq<Entry>, b: seq<Entry>)
    ensures SumTotals(a + b) == SumTotals(a) + SumTotals(b)
    ensures SumCounts(a + b) == SumCounts(a) + SumCounts(b)
  {
    if a == [] {
      assert a + b == b;
    } else {
      SumsAppend(a[1..], b);
      assert (a + b)[1..] == a[1..] + b;
    }
  }

  /** Adding one transaction raises the sums over distinct `keys` by its amount (and by one) iff its category is among them. */
  lemma {:induction false} SumsStep(keys: seq<string>, s: seq<Transaction>, t: Transaction)
    requires forall i, j :: 0 <= i < j < |keys| ==> keys[i] != keys[j]
    ensures SumTotals(EntriesFor(keys, s + [t])) ==
            SumTotals(EntriesFor(keys, s)) + (if CategoryKey(t) in keys then AmountValue(t) else 0)
    ensures SumCounts(EntriesFor(keys, s + [t])) ==
            SumCounts(EntriesFor(keys, s)) + (if CategoryKey(t) in keys then 1 else 0)
  {
    if keys != [] {
      var s' := s + [t];
      var rest := keys[1..];
      assert forall i, j :: 0 <= i < j < |rest| ==> rest[i] != rest[j] by {
        forall i, j | 0 <= i < j < |rest| ensures rest[i] != rest[j] {
          assert rest[i] == keys[i + 1] && rest[j] == keys[j + 1];
        }
      }
      SumsStep(rest, s, t);
      BucketStep(s, t, keys[0]);
      assert EntriesFor(keys, s')[1..] == EntriesFor(rest, s');
      assert EntriesFor(keys, s)[1..] == EntriesFor(rest, s);
      assert CategoryKey(t) in keys <==> CategoryKey(t) == keys[0] || CategoryKey(t) in rest;
      assert CategoryKey(t) == keys[0] ==> CategoryKey(t) !in rest;
    }
  }

  lemma EntriesForAppend(keys: seq<string>, k: string, s: seq<Transaction>)
    ensures EntriesFor(keys + [k], s) == EntriesFor(keys, s) + [Entry(k, BucketOf(s, k))]
  {
    var l, r := EntriesFor(keys + [k], s), EntriesFor(keys, s) + [Entry(k, BucketOf(s, k))];
    assert |l| == |r|;
    forall i | 0 <= i < |l|
      ensures l[i] == r[i]
    {
      if i < |keys| {
        assert (keys + [k])[i] == keys[i];
      }
    }
  }

  /** A transaction with a category not seen before adds one entry, at the end, holding just that transaction. */
  lemma NewCategoryEntry(init: seq<Transaction>, t: Transaction)
    requires CategoryKey(t) !in Categories(init)
    ensures CategoryEntries(init + [t]) ==
            EntriesFor(Categories(init), init + [t]) + [Entry(CategoryKey(t), Bucket(AmountValue(t), 1, [LineOf(t)]))]
  {
    var s, k := init + [t], CategoryKey(t);
    assert s[..|s| - 1] == init;
    assert Categories(s) == Categories(init) + [k];
    EntriesForAppend(Categories(init), k, s);
    CategoriesListed(init, k);
    assert InCategory(init, k) == [];
    assert BucketOf(init, k) == Bucket(0, 0, []);
    BucketStep(init, t, k);
    assert BucketOf(s, k) == Bucket(AmountValue(t), 1, [LineOf(t)]);
  }

  /** The bucket totals add up to the grand total, and the bucket counts to the number of transactions. */
  lemma {:induction false} BucketsPartition(s: seq<Transaction>)
    ensures SumTotals(CategoryEntries(s)) == Total(s)
    ensures SumCounts(CategoryEntries(s)) == |s|
  {
    if s != [] {
      var init, t := s[..|s| - 1], s[|s| - 1];
      assert s == init + [t];
      BucketsPartition(init);
      var cs := Categories(init);
      CategoriesDistinct(init);
      SumsStep(cs, init, t);
      if CategoryKey(t) !in cs {
        var e := Entry(CategoryKey(t), Bucket(AmountValue(t), 1, [LineOf(t)]));
        NewCategoryEntry(init, t);
        SumsAppend(EntriesFor(cs, s), [e]);
        assert [e][1..] == [];
      }
    }
  }

  lemma {:induction false} SumsInsert(e: Entry, es: seq<Entry>)
    ensures SumTotals(InsertBy(e, es, DescendingTotal)) == e.bucket.total + SumTotals(es)
    ensures SumCounts(InsertBy(e, es, DescendingTotal)) == e.bucket.count + SumCounts(es)
  {
    if es != [] && DescendingTotal(e) > DescendingTotal(es[0]) {
      SumsInsert(e, es[1..]);
      assert ([es[0]] + InsertBy(e, es[1..], DescendingTotal))[1..] == InsertBy(e, es[1..], DescendingTotal);
    } else {
      assert ([e] + es)[1..] == es;
    }
  }

  lemma {:induction false} SumsSorted(es: seq<Entry>)
    ensures SumTotals(SortBy(es, DescendingTotal)) == SumTotals(es)
    ensures SumCounts(SortBy(es, DescendingTotal)) == SumCounts(es)
  {
    if es != [] {
      SumsSorted(es[1..]);
      SumsInsert(es[0], SortBy(es[1..], DescendingTotal));
    }
  }

  /**
   * `totalExpenses` is the sum of every fetched amount, whatever the `type`
   * (income is not left out), and equals the sum of the totals in `byCategory`,
   * whose counts add up to the number of fetched transactions.
   */
  lemma ReportTotals(fetched: seq<Transaction>, start: Millis, end: Millis)
    ensures ReportOf(fetched, start, end).totalExpenses == Total(fetched)
    ensures SumTotals(ReportOf(fetched, start, end).byCategory) == Total(fetched)
    ensures SumCounts(ReportOf(fetched, start, end).byCategory) == |fetched|
  {
    BucketsPartition(fetched);
    SumsSorted(CategoryEntries(fetched));
  }

  /**
   * `byCategory` is a permutation of the buckets the loop built, ordered by
   * non-increasing total, and buckets with equal totals keep their order of first
   * appearance (the sort is stable).
   */
  lemma ByCategoryOrder(fetched: seq<Transaction>, start: Millis, end: Millis)
    ensures var sorted := ReportOf(fetched, start, end).byCategory;
            && multiset(sorted) == multiset(CategoryEntries(fetched))
            && (forall i, j :: 0 <= i < j < |sorted| ==> sorted[i].bucket.total >= sorted[j].bucket.total)
            && (forall v :: FilterKey(sorted, DescendingTotal, v) == FilterKey(CategoryEntries(fetched), DescendingTotal, v))
  {
    var sorted := ReportOf(fetched, start, end).byCategory;
    forall i, j | 0 <= i < j < |sorted|
      ensures sorted[i].bucket.total >= sorted[j].bucket.total
    {
      assert DescendingTotal(sorted[i]) <= DescendingTotal(sorted[j]);
    }
    forall v
      ensures FilterKey(sorted, DescendingTotal, v) == FilterKey(CategoryEntries(fetched), DescendingTotal, v)
    {
      SortByStable(CategoryEntries(fetched), DescendingTotal, v);
    }
  }

  /**
   * The report has a bucket for a category exactly when some fetched transaction
   * carries it, and each bucket's total, count and line items are those of its
   * category's transactions, with as many line items as the count.
   */
  lemma BucketsMatchCategories(fetched: seq<Transaction>, c: string)
    ensures c in Categories(fetched) <==> exists t :: t in fetched && CategoryKey(t) == c
    ensures forall e :: e in CategoryEntries(fetched) ==>
              e.category in Categories(fetched) && e.bucket == BucketOf(fetched, e.category)
              && |e.bucket.items| == e.bucket.count
  {
    CategoriesListed(fetched, c);
    InCategoryMembers(fetched, c);
    var mine := InCategory(fetched, c);
    if mine != [] {
      assert mine[0] in mine;
    }
    if exists t :: t in fetched && CategoryKey(t) == c {
      var t :| t in fetched && CategoryKey(t) == c;
      assert t in mine;
    }
    var es := CategoryEntries(fetched);
    forall e | e in es
      ensures e.category in Categories(fetched) && e.bucket == BucketOf(fetched, e.category)
    {
      var i :| 0 <= i < |es| && es[i] == e;
    }
  }

  lemma {:induction false} InCategoryKeepsOrder(s: seq<Transaction>, c: string)
    requires forall i, j :: 0 <= i < j < |s| ==> s[i].date <= s[j].date
    ensures forall i, j :: 0 <= i < j < |InCategory(s, c)| ==> InCategory(s, c)[i].date <= InCategory(s, c)[j].date
  {
    if s != [] {
      var init, last := s[..|s| - 1], s[|s| - 1];
      assert forall i, j :: 0 <= i < j < |init| ==> init[i].date <= init[j].date by {
        forall i, j | 0 <= i < j < |init| ensures init[i].date <= init[j].date {
          assert init[i] == s[i] && init[j] == s[j];
        }
      }
      InCategoryKeepsOrder(init, c);
      InCategoryMembers(init, c);
      var before := InCategory(init, c);
      forall i | 0 <= i < |before|
        ensures before[i].date <= last.date
      {
        assert before[i] in init;
        var k :| 0 <= k < |init| && init[k] == before[i];
        assert s[k] == init[k];
      }
      var mine := InCategory(s, c);
      assert mine == before + (if CategoryKey(last) == c then [last] else []);
      forall i, j | 0 <= i < j < |mine|
        ensures mine[i].date <= mine[j].date
      {
        if j < |before| {
          assert mine[i] == before[i] && mine[j] == before[j];
        } else {
          assert mine[i] == before[i] && mine[j] == last;
        }
      }
    }
  }

  /** A bucket's line items follow the ascending date order of the fetch. */
  lemma LineItemsInDateOrder(records: seq<Transaction>, caller: UserId, start: int, end: int, c: string)
    ensures forall i, j :: 0 <= i < j < |BucketOf(Fetch(records, caller, start, end), c).items| ==>
              BucketOf(Fetch(records, caller, start, end), c).items[i].date <= BucketOf(Fetch(records, caller, start, end), c).items[j].date
  {
    var fetched := Fetch(records, caller, start, end);
    InCategoryKeepsOrder(fetched, c);
    var mine := InCategory(fetched, c);
    var items := BucketOf(fetched, c).items;
    forall i, j | 0 <= i < j < |items|
      ensures items[i].date <= items[j].date
    {
      assert |items| == |mine|;
      assert items[i] == LineOf(mine[i]) && items[j] == LineOf(mine[j]);
      assert mine[i].date <= mine[j].date;
    }
  }

  /** A single fetched transaction, of either type, gives one bucket and a grand total of its amount. */
  lemma SingleTransaction(t: Transaction, start: Millis, end: Millis)
    ensures ReportOf([t], start, end) ==
            Summary(AmountValue(t), [Entry(CategoryKey(t), Bucket(AmountValue(t), 1, [LineOf(t)]))], DateRange(start, end))
  {
    var e := Entry(CategoryKey(t), Bucket(AmountValue(t), 1, [LineOf(t)]));
    assert [] + [t] == [t];
    assert [t][..0] == [];
    NewCategoryEntry([], t);
    assert CategoryEntries([t]) == [e];
    assert [e][1..] == [];
    assert SortBy([e], DescendingTotal) == [e];
  }

  // ---------------------------------------------------------------------------
  // The loop as written, against categories named like Object.prototype members

  /**
   * The property names every object literal inherits from `Object.prototype`.
   * `summary.byCategory[name]` is truthy for each of them before any bucket exists.
   */
  const INHERITED_NAMES: set<string> := {
    "constructor", "__proto__", "hasOwnProperty", "isPrototypeOf", "propertyIsEnumerable",
    "toLocaleString", "toString", "valueOf", "__defineGetter__", "__defineSetter__",
    "__lookupGetter__", "__lookupSetter__"}

  /**
   * The loop exactly as written: for an inherited name the `!summary.byCategory[...]`
   * test is false, so no bucket is created, and `.transactions.push` is then called
   * on `undefined`, which throws; the catch block answers 500. `None` stands for
   * that failure.
   */
  function TallyAsWritten(s: seq<Transaction>): Option<Tally> {
    if s == [] then Some(Tally(0, [], map[]))
    else
      match TallyAsWritten(s[..|s| - 1])
      case None => None
      case Some(tally) =>
        if CategoryKey(s[|s| - 1]) in INHERITED_NAMES then None
        else Some(Record(tally, s[|s| - 1]))
  }

  /**
   * The loop as written fails exactly when some fetched category is an inherited
   * name, and otherwise agrees with `Summarise`.
   */
  lemma {:induction false} TallyAsWrittenFails(s: seq<Transaction>)
    ensures TallyAsWritten(s).None? <==> exists i :: 0 <= i < |s| && CategoryKey(s[i]) in INHERITED_NAMES
    ensures TallyAsWritten(s).Some? ==> TallyAsWritten(s).value == Tallied(s)
  {
    if s != [] {
      var init, t := s[..|s| - 1], s[|s| - 1];
      assert s == init + [t];
      TallyAsWrittenFails(init);
      if exists i :: 0 <= i < |init| && CategoryKey(init[i]) in INHERITED_NAMES {
        var i :| 0 <= i < |init| && CategoryKey(init[i]) in INHERITED_NAMES;
        assert s[i] == init[i];
      }
      if exists i :: 0 <= i < |s| && CategoryKey(s[i]) in INHERITED_NAMES {
        var i :| 0 <= i < |s| && CategoryKey(s[i]) in INHERITED_NAMES;
        if i < |init| {
          assert init[i] == s[i];
        }
      }
    }
  }

  /** A single expense filed under "toString" makes the report as written fail, where `Summarise` gives it a bucket. */
  lemma ToStringCategoryFails(t: Transaction)
    requires t.category == Some("toString")
    ensures TallyAsWritten([t]).None?
    ensures CategoryEntries([t]) == [Entry("toString", Bucket(AmountValue(t), 1, [LineOf(t)]))]
  {
    SingleTransaction(t, 0, 0);
  }
}
