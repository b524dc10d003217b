# Personal expense tracker: transaction handlers and report, in Dafny

This project models the transaction core of a personal finance tracker backend. Authenticated users record
`income` and `expense` transactions, page through them, read, update and delete their own, and request a
spending report over a date range. The MongoDB collection is replaced by an in-memory sequence of documents
held by a `Store` class. Every handler is a method on that class, and every read and write is scoped to the
caller's user id.

Modules, one per concern:

- `TransactionSchema` (transaction.dfy): the Transaction document. It gives the schema's validity rules (the
  `type` enum and the required `category`, `amount` and `user`) and builds a document with `date` defaulting
  to the creation time.
- `Pagination` (pagination.dfy): `Number(pageNumber) || 1`, `skip`/`limit` with a page size of 10, and
  `Math.ceil(count / 10)`.
- `ReportDates` (report_dates.dfy): the two date query parameters, their normalisation to the first and last
  millisecond of their UTC days, and the 400 answers.
- `Report` (report.dfy): the range query in ascending date order, then the `forEach` fold into per-category
  buckets and a grand total, then the stable re-ordering by total, descending.
- `Sorting` (sorting.dfy): the stable sort by an integer key. Both the date sort and the bucket sort use it.
- `TransactionStore` (store.dfy): the `Store` class and the six handlers.
- `Responses`, `Wrappers`: error kinds with their HTTP status codes; `Option` and `Result`.

Modelling choices:

- Amounts are integers. Dates are integer milliseconds since the epoch. Ids are natural numbers; the store
  hands out the next unused one.
- A date query parameter arrives already parsed. It is `Absent` (missing or empty), `Unparsable` or
  `At(ms)`. A time value is bounded by ±8.64·10^15, as in ECMAScript's TimeClip.
- The page query parameter arrives as `None` (missing or `NaN`) or as a natural number.
- The current time for the schema's `Date.now` default is a parameter.
- Stored `type`, `category` and `amount` are optional. An update writes the body without running the
  schema's validators, so a stored document may be invalid.
- The report reads an absent category as the key `"null"` and an absent amount as adding 0. This is what
  JavaScript does with `obj[null]` and `x += null`.
- What an update does with a field left `undefined` depends on the Mongoose version: the field is either
  kept or stored as `null`. `Update` therefore takes this as a parameter (`OmittedFields`) and asserts
  neither. The code only passes `undefined` through, and the
  library version decides whether the field is kept or set to `null`.
- A body field the handlers read is one of three things: omitted, an explicit `null`, or a value. Creating a
  document stores nothing for either of the first two. An update writes an explicit `null` as it is.
- The report filter is an integer comparison on dates. The source compares ISO strings that Mongoose casts
  to dates.

## Model

| member | source | states |
|---|---|---|
| `TransactionSchema.Instantiate` | models/Transaction.js:3-10 | A draft is accepted exactly when `type` is "income" or "expense", `category` is present and non-empty, and `amount` and `user` are present. `description` and `date` are optional. The document is valid and keeps the draft's fields. A missing `date` becomes `now`. |
| `TransactionSchema.InstantiateRoundTrip` | models/Transaction.js:3-10 | Reading a valid document back as a draft and building it again gives the same document. |
| `Pagination.PageNumber` | controllers/transactionController.js:25 | The page number is at least 1. A given page of 1 or more is used as is; a missing, `NaN` or 0 page becomes 1. |
| `Pagination.PageCount` | controllers/transactionController.js:35 | `pages` is the ceiling of count/10: the fewest pages of 10 that hold `count` documents. |
| `Pagination.Slice` | controllers/transactionController.js:27-29 | A page is the run of at most 10 documents that starts after the `10·(page−1)` skipped ones. It is empty past the end. |
| `Pagination.ListPage` | controllers/transactionController.js:24-35 | The response holds page ≥ 1, at most 10 documents starting at offset `10·(page−1)`, and `pages` as the ceiling of count/10. |
| `Pagination.PagesCoverAll` | controllers/transactionController.js:27-35 | Reading pages 1 to `pages` in turn returns every one of the caller's documents once, in order. |
| `Pagination.PageNonEmptyIff` | controllers/transactionController.js:27-35 | A page holds documents exactly when its number is at most `pages`. |
| `Pagination.FifteenDocuments` | controllers/transactionController.js:24-35 | With 15 documents, page 2 holds the last 5 and `pages` is 2. |
| `ReportDates.StartOfDay` | controllers/transactionController.js:112-113 | The start is midnight UTC of its day: a multiple of 86400000 within one day before or at the given instant. |
| `ReportDates.EndOfDay` | controllers/transactionController.js:116-117 | The end is the last millisecond of its UTC day. It is invalid (NaN) exactly for the largest time value, whose day ends past the limit. |
| `ReportDates.NormaliseRange` | controllers/transactionController.js:105-122 | A missing date gives 400 "required". Otherwise an unparsable date, or an end that normalises to NaN, gives 400 "Invalid date format". Otherwise the result is the normalised bounds. |
| `ReportDates.RangeCoversWholeDays` | controllers/transactionController.js:112-117 | An instant lies in the normalised range exactly when its UTC day lies between the two given days. |
| `ReportDates.InvertedRangeIsEmpty` | controllers/transactionController.js:112-117 | A start day after the end day gives a start after the end. |
| `Sorting.SortBy` | controllers/transactionController.js:174-175 | The sort's output is a permutation of its input, ordered by the key. |
| `Sorting.SortByStable` | controllers/transactionController.js:175 | Elements with equal keys come out in their input order. |
| `Report.Fetch` | controllers/transactionController.js:129-135 | The query returns exactly the caller's documents with `start ≤ date ≤ end`, each as often as stored, in ascending date order. |
| `Report.InvertedRangeFetchesNothing` | controllers/transactionController.js:129-135 | A range whose start lies after its end selects no document. |
| `Report.InCategoryMembers` | controllers/transactionController.js:151-162 | A category's transactions are exactly the fetched ones with that category key. |
| `Report.Lines` | controllers/transactionController.js:162-167 | There is one line item `{id, amount, description, date}` per transaction, in the same order. |
| `Report.CategoriesListed` | controllers/transactionController.js:151-157 | A category gets a bucket exactly when it has at least one fetched transaction. |
| `Report.CategoriesDistinct` | controllers/transactionController.js:151-157 | Each category has one bucket. |
| `Report.BucketStep` | controllers/transactionController.js:159-167 | One transaction adds its amount to its own category's total, adds 1 to its count and appends its line item. Other buckets are unchanged. |
| `Report.TalliedMeaning` | controllers/transactionController.js:149-171 | After the fold, `totalExpenses` is the sum of all fetched amounts. The keys are the categories in order of first appearance. Each bucket holds the total, count and line items of exactly its category's transactions. |
| `Report.Summarise` | controllers/transactionController.js:140-171 | The loop ends with the grand total, key order and buckets of `TalliedMeaning`. |
| `Report.BuildSummary` | controllers/transactionController.js:139-184 | The loop, the sort and the rebuild of `byCategory` together give the summary `ReportOf`. |
| `Report.BucketsPartition` | controllers/transactionController.js:149-171 | The bucket totals add up to the grand total. The bucket counts add up to the number of fetched transactions. |
| `Report.ReportTotals` | controllers/transactionController.js:149-184 | `totalExpenses` is the sum of every fetched amount, income included. It equals the sum of the totals in `byCategory`, whose counts add up to the number fetched. |
| `Report.ByCategoryOrder` | controllers/transactionController.js:174-184 | `byCategory` is a permutation of the loop's buckets, ordered by non-increasing total. Equal totals keep their order of first appearance. |
| `Report.BucketsMatchCategories` | controllers/transactionController.js:151-167 | A bucket exists exactly for the categories of fetched transactions. Each bucket is its category's total, count and line items, with as many line items as its count. |
| `Report.LineItemsInDateOrder` | controllers/transactionController.js:135 | A bucket's line items are in ascending date order. |
| `Report.SingleTransaction` | controllers/transactionController.js:140-184 | One fetched transaction, income or expense, gives one bucket `{total: amount, count: 1, [its line item]}` and `totalExpenses` equal to its amount. |
| `Report.TallyAsWrittenFails` | controllers/transactionController.js:149-171 | As written, the loop fails (500) exactly when a fetched category is named after an `Object.prototype` member. Otherwise it agrees with the fold. |
| `Report.ToStringCategoryFails` | controllers/transactionController.js:151-162 | A single transaction filed under "toString" makes the loop as written fail, where the corrected fold gives it a bucket. |
| `TransactionStore.OwnedMembers` | controllers/transactionController.js:27 | `find({ user })` lists exactly the user's documents. |
| `TransactionStore.OwnedOthersUnchanged` | controllers/transactionController.js:64-90 | Replacing or removing one user's document leaves every other user's documents as they were. |
| `TransactionStore.FindIndex` | controllers/transactionController.js:44-47 | The lookup finds the first document with both that id and that owner, or reports that none exists. |
| `TransactionStore.Rewrite` | controllers/transactionController.js:64-67 | An update changes only `type`, `category`, `amount` and `description`. It writes each value or explicit `null` it is sent. An omitted field is kept or cleared, as the version decides. Id, owner and date are kept. |
| `TransactionStore.RewriteKeepsValid` | controllers/transactionController.js:62-67 | A body that meets the schema leaves the document valid, whatever happens to omitted fields. |
| `TransactionStore.RewriteIdempotent` | controllers/transactionController.js:64-67 | Applying the same update a second time changes nothing more. |
| `TransactionStore.RewriteSkipsValidation` | controllers/transactionController.js:64-67 | An update is not validated: a `type` outside the enum is stored. |
| `TransactionStore.RewriteNullAmount` | controllers/transactionController.js:62-67 | An explicit `null` amount in an update is stored, and the document no longer meets the schema. |
| `TransactionStore.AddedIsFound` | controllers/transactionController.js:7-14 | A newly added document, with a fresh id, is the one the lookup finds for its owner. |
| `TransactionStore.InvertedRangeReport` | controllers/transactionController.js:112-135 | A start day after the end day is not an error. The report is empty, with total 0, and echoes the bounds. |
| `TransactionStore.Store.Add` | controllers/transactionController.js:4-19 | A valid body appends one document (201). Its owner is the caller, never taken from the body. Its date is now and its id is fresh. An omitted or `null` field stores nothing. An invalid body stores nothing and answers 500. |
| `TransactionStore.Store.List` | controllers/transactionController.js:22-39 | The response is the page of the caller's documents, with page number and page count. It lists no other user's document. |
| `TransactionStore.Store.GetById` | controllers/transactionController.js:42-57 | Returns the caller's document with that id if one exists, else 404 "Transaction not found". |
| `TransactionStore.Store.Update` | controllers/transactionController.js:60-78 | A matching owned document is replaced by its rewrite, which is returned. With no match: 404 and no change. Other documents and other users' documents are untouched. |
| `TransactionStore.Store.Delete` | controllers/transactionController.js:81-96 | The matching owned document is removed alone and no document keeps that id. With no match: 404 and no change. Other users' documents are untouched. |
| `TransactionStore.Store.GenerateReport` | controllers/transactionController.js:100-194 | Date errors answer 400 and run no query. A missing date gives "Start date and end date are required"; any other date error gives "Invalid date format". Otherwise the answer is the summary of the caller's documents in the normalised range. |

## Left out

- Express route wiring, the `protect` authentication middleware, dotenv, the database connection and
  `app.listen` (routes/transactionRoutes.js, server.js). The caller's user id is a parameter.
- The catch blocks that turn storage or runtime exceptions into 500 (controllers/transactionController.js:16-18,
  36-38, 54-56, 75-77, 93-95, 187-193). The one exception path kept is the schema's validation error on
  insert, because validity is part of the model.
- An `:id` that is not a well-formed ObjectId makes Mongoose throw a cast error (500). Ids here are already
  well-formed numbers.
- Parsing date strings with `new Date(...)`, local-time forms and time zones. Dates arrive as parsed
  values or as `Unparsable`.
- Negative and fractional page numbers. MongoDB rejects a negative skip, and fractional values are not
  considered.
- Floating-point amounts, `NaN` amounts and rounding. Amounts are integers.
- JavaScript enumerates integer-like property names first whatever the sort did. Here `byCategory` is a
  sequence of (category, bucket) pairs in sorted order.
- The order of documents with equal dates. MongoDB leaves it open; the model keeps their storage order.
- `console.log` and `console.error` output.
- Concurrent requests, and the race between an update and a delete of the same document.
- Store.GenerateReport: the handler uses the corrected fold `Report.Summarise`. In the source, a fetched
  category named after an `Object.prototype` member makes the report answer 500. That failure is modelled
  only by `Report.TallyAsWritten` (see Findings), not by the handler.
- The message of a validation error is modelled only by its fixed start, "Transaction validation failed".
  Mongoose goes on to name the failing paths.

## Findings

| source | as written | input that shows it | evidently intended | confidence | as-written member | corrected member |
|---|---|---|---|---|---|---|
| controllers/transactionController.js:151-162 | `if (!summary.byCategory[transaction.category])` reads a property of a plain object literal, so an inherited name such as `toString`, `constructor` or `__proto__` is already truthy. No bucket is created, and `.transactions.push` on `undefined` throws: the report answers 500, after writing `total` and `count` onto the inherited object. | one transaction in range with category "toString" | every category, whatever its name, gets its own bucket | high (not executed) | `Report.TallyAsWrittenFails` | `Report.Summarise` |
