# OrderAler scheduled worker, modelled in Dafny

OrderAler is a Cloudflare scheduled worker. It runs on two cron triggers.

- `0 4 * * *` runs the **processing** profile. It fetches yesterday's orders with status
  `processing` from a Magento REST API. It keeps those created inside yesterday's window whose
  grand total is above $500 and posts their order numbers to a Zoho Cliq webhook.
- `0 5 * * *` runs the **holded** profile. It fetches the orders with status `holded` from the
  last 30 days and posts all their order numbers.

Both profiles run the same pipeline:

1. Pagination. Pages of 100 are fetched and appended. The loop stops at the first short page
   or the first non-ok response, and keeps what was fetched before.
2. Selection. The processing profile filters the orders; the holded profile does not. Each
   profile then projects every order to its `increment_id`.
3. Chunking. The numbers are split into chunks of ten. Each chunk becomes one message:
   `<heading> (<first>-<last> of <N>):\n<numbers joined by ", ">`.
4. Posting. The messages are posted one at a time. A non-ok webhook response throws, which ends
   the run.

The model replaces the HTTP layer with data:

- The orders API is a finite sequence of page responses. Each response is either non-ok, or ok
  with an `items` field that may be missing.
- The webhook is a function from the index of a POST to its response.

Modules, one per stage:

- `Seqs`: concatenation of pages, `filter`, and the subsequence relation.
- `Orders`: the order record and the two projections.
- `Pagination`: the page loop (`FetchAll`), proved against `FetchCount` and `Accumulated`.
- `Chunking`: chunks, decimal rendering, `join`, and the message list.
- `Notify`: `sendToCliq` and the chunk loop (`NotifyAll`), proved against `Notification`.
- `Scheduled`: cron dispatch and the whole handler.
- `Wrappers`: `Option`.

Notes on the code that the model follows:

- The client-side re-check of the creation time is inclusive at both ends (`>=` and `<=`,
  src/index.js:105-108).
- A page of 100 or more items continues the loop; only `items.length < 100` stops it
  (src/index.js:93-95).
- The holded profile's query covers 30 days, but the comment above it says 7 days. The query
  window is part of the request URL and is not modelled.
- Both profiles report one order number per selected order, so an `increment_id` that appears
  on two fetched orders is reported, and counted in the "of N" total, twice.

## Model

| member | source | states |
|---|---|---|
| `Seqs.Filter` | src/index.js:105-111 | `filter` keeps every occurrence of each element satisfying the predicate and no occurrence of any other (multiset counts), in their original relative order (a subsequence), and never more than the input |
| `Orders.IncrementIds` | src/index.js:112 | the projection has one `increment_id` per order, at the same position; the holded profile applies it to every fetched order (src/index.js:170) |
| `Orders.HighValueOrders` | src/index.js:102-111 | the window re-check followed by the total filter equals one filter by "created in `[start, end]` (inclusive) and total above $500"; it keeps exactly the qualifying orders, as a subsequence of the input |
| `Orders.ProcessingOrderNumbers` | src/index.js:105-112 | the reported ids are the `increment_id`s of the qualifying orders (`Filter` by created in `[start, end]` and total above $500), one per order in fetch order; hence an id is reported iff some qualifying fetched order has it, and never more ids than orders |
| `Orders.ProcessingOrderNumbersAppend` | src/index.js:105-112 | the report over orders fetched in two parts is the report over the first part followed by the report over the second |
| `Pagination.Contribution` | src/index.js:82-89 | a response adds orders only when it is ok and carries `items`, and then it adds exactly those items; a non-ok response or a missing `items` adds nothing |
| `Pagination.Continues` | src/index.js:82-96 | the loop goes on to the next page only after an ok response whose `items` are present and number at least 100 |
| `Pagination.FetchCount` | src/index.js:60-97 | pages 1..n are requested: every page before the n-th continued (ok and at least 100 items), the n-th stops the loop unless the responses ran out, and a continuing page is always followed by a request for the next page |
| `Pagination.FetchAll` | src/index.js:57-97 | the loop requests exactly `FetchCount(pages)` pages, and its accumulated orders are the concatenation, in fetch order, of what each requested page contributed |
| `Pagination.StopsAt` | src/index.js:89-95 | if page k+1 is the first page that does not continue, exactly k+1 pages are requested, and the result is the full pages before it followed by that page's items |
| `Pagination.AllContinue` | src/index.js:93-96 | when every available response is a full page, every one of them is requested |
| `Pagination.FailedOrEmptyPageEnds` | src/index.js:82-88 | a non-ok response, or an ok one without `items`, ends pagination at that request, and the orders accumulated before it are kept unchanged |
| `Pagination.AccumulatedAtLeastFullPages` | src/index.js:89-96 | each requested page before the last adds at least 100 orders |
| `Chunking.Chunks` | src/index.js:115-117 | there are ceil(N/10) chunks, each non-empty with at most ten ids, all but the last with exactly ten, and their concatenation is the id list |
| `Chunking.ChunkAt` | src/index.js:116-117 | the k-th chunk is `ids.slice(10k, 10k + 10)`, cut at the end of the list |
| `Chunking.MessageAt` | src/index.js:116-120 | the k-th message has the range `10k+1` to `10k + chunk.length`, the total N and the k-th slice |
| `Chunking.MessagesCount` | src/index.js:116 | there are ceil(N/10) messages, and none exactly when the list is empty |
| `Chunking.MessageRange` | src/index.js:117-120 | the k-th message lists exactly the ids at positions `first`..`last` (1-based, inclusive), with `first = 10k+1`, one to ten of them, and names the total N |
| `Chunking.MessagesContiguous` | src/index.js:116-120 | ranges start at 1, each starts right after the previous one ends, and the last ends at N |
| `Chunking.MessagesCover` | src/index.js:115-120 | the facts above together: count, positions, sizes, contiguity and coverage of the whole list |
| `Chunking.TwentyFiveNumbers` | src/index.js:116-120 | 25 ids give exactly three messages, for 1-10, 11-20 and 21-25, each of 25 |
| `Chunking.TwentyFiveHeader` | src/index.js:118-120 | the third of those messages reads `<heading> (21-25 of 25):\n` followed by ids 21..25 joined by `", "` |
| `Chunking.Decimal` | src/index.js:118-119 | `${n}` renders a number as a non-empty string; `DecimalRoundTrip` characterizes it |
| `Chunking.Join` | src/index.js:120 | `join` of no ids is empty, and a joined list starts with its first id; `SplitJoin` is its inverse |
| `Chunking.Text` | src/index.js:118-120 | a message text starts with the heading and `" ("`, and ends with the chunk joined by `", "`; `TwentyFiveHeader` gives a full instance |
| `Chunking.Messages` | src/index.js:116-120 | every message carries the profile's heading and the total N; `MessageAt`, `MessageRange` and `MessagesCover` characterize ranges and slices |
| `Chunking.DecimalRoundTrip` | src/index.js:118-119 | the rendering of a range bound is a non-empty digit string without leading zero that reads back as the same number |
| `Chunking.SplitJoin` | src/index.js:120 | a message body, the chunk joined by `", "`, cuts back into that chunk when no id contains a comma |
| `Notify.SendToCliq` | src/index.js:41-44 | a post fails iff the webhook response is not ok, and the error names the status text and the response body |
| `Notify.FirstFailure` | src/index.js:116-122 | the first rejected post among the first `count` posts, if any: every post before it succeeded; no value means every post succeeded |
| `Notify.Notification` | src/index.js:115-123 | at most one post per message; with no error every message was posted; an error follows a post that the webhook rejected, which is the last post made |
| `Notify.NotifyAll` | src/index.js:115-123 | the chunk loop posts exactly the texts of `Notification`: every message in order up to and including the first rejected post, and ends with that post's error |
| `Notify.NothingToReport` | src/index.js:116 | an empty id list makes no post and no error |
| `Notify.FailedPostStops` | src/index.js:116-122 | if post j is the first to be rejected, exactly j+1 posts were made, the last carried message j, and the run ends with that post's error |
| `Notify.AllPostsSucceed` | src/index.js:116-122 | if every post succeeds, every message is posted, in order, with no error |
| `Scheduled.ProfileFor` | src/index.js:51-124 | `0 4 * * *` selects only the processing profile, `0 5 * * *` only the holded profile, and any other string selects none |
| `Scheduled.ProfileRun` | src/index.js:51-181 | a profile's run requests `FetchCount` pages and fetches `Accumulated`; it selects at most one number per fetched order; with no error it posts ceil(N/10) messages |
| `Scheduled.HandleScheduled` | src/index.js:17-183 | an unknown cron string requests no page and posts nothing; a known one runs its profile's fetch, selection and posting |
| `Scheduled.ProcessingRunReports` | src/index.js:99-123 | the processing run requests `FetchCount` pages and reports the `increment_id` of every qualifying fetched order, once per order and in fetch order; with no failed post it posts ceil(N/10) messages, and with no numbers it posts nothing |
| `Scheduled.HoldedRunReports` | src/index.js:168-181 | for any processing window passed to the handler, the holded run reports every fetched order's id in order; with no failed post it posts ceil(N/10) messages, and with no numbers it posts nothing |

## Left out

- HTTP and JSON: the `fetch` calls, headers, `resp.json()` and `response.text()`
  (src/index.js:35-40, 75-80, 87, 144-149, 156). Pages and webhook responses are inputs. Network
  exceptions and malformed JSON, which make `fetch`/`json` throw, are not modelled.
- The query URL and webhook URL strings and the environment reads (src/index.js:18-22, 49, 61-73,
  130-142). They are templates over opaque configuration. The status and date filters those URLs
  ask the API for are therefore not modelled: the page responses are taken as the API returns them.
- The `fetch(req)` probe handler (src/index.js:10-15). It only echoes a usage string.
- The 1000 ms `setTimeout` between posts (src/index.js:122, 180), and all `console.log` output.
- Clock and date arithmetic (src/index.js:28-30, 53-55, 102-103). Timestamps are integers, and
  the processing window `[startOfDay, endOfDay]` is a pair of parameters. The comment at line 52
  says UTC, but `setHours` works in local time; that depends on the host and is not modelled.
  `sevenDaysAgo` (line 29) is computed and never used.
- `parseFloat(order.grand_total)` (src/index.js:111). The total is an integer number of cents,
  compared with 50000. Totals with more than two decimals and non-numeric strings (whose `NaN`
  compares false) are not modelled.
- Pagination.FetchAll: the source loops while the API keeps returning full pages. The model's
  responses are finite, and when they run out without a short page the model stops after
  requesting them all.
- Pagination.AccumulatedAtLeastFullPages: states a lower bound, because a page with more than 100
  items also continues the loop.
- The emoji at the start of each heading are modelled as the Unicode code points U+1F4B0 and
  U+1F4E6.
