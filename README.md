# NBN order placement, modelled in Dafny

This project models the order-placement pipeline of a Laravel application. The pipeline places NBN (National Broadband Network) service orders for customer applications. It has two pieces:

- **The `process:nbn-orders` console command** (`ProcessNbnOrders::handle`). It selects every application whose plan type is `nbn` and whose status is `Order` (the `readyForNbnOrdering` scope). It queues one `ProcessNbnOrdersJob` per selected application and prints a summary. With nothing selected it prints `No NBN applications to process.` instead. It returns `SUCCESS` on every path.
- **The queued job** (`ProcessNbnOrdersJob::handle`). It posts a six-key body (`address_1`, `address_2`, `city`, `state`, `postcode`, `plan name`) to the wholesale ordering endpoint. It then writes the application once:
  - `status = Complete` and `order_id` = the response's `id`, when the response is 2xx and its `status` is `"Successful"`;
  - otherwise `status = OrderFailed`, leaving `order_id` alone.
  An exception from the HTTP client is caught, logged with the application id, and leads to `OrderFailed`.

Modules:

- `Records` (Records.dfy): the Application model as a class. Its address columns and plan are `const`. `status` and `orderId` are the only `var` fields, and `Update` writes them the way Eloquent's `update([...])` writes an attribute array. The file also holds the `ApplicationStatus` enumeration `Prelim | Order | Complete | OrderFailed` and the `readyForNbnOrdering` scope, as a predicate on one row and a filter over the table.
- `Jobs` (Jobs.dfy):
  - the request body `PayloadOf`;
  - the endpoint outcome `Outcome = Threw(message) | Responded(code, statusField, idField)`;
  - the classification `UpdateFor`;
  - the error log;
  - the job class, whose `Handle` mutates the application it carries.
- `Commands` (Commands.dfy): the console command as a method. Its `each` loop is `DispatchEach`, a `for` loop that builds the jobs it pushes, one per selected application. Each `$this->info()` call is a `Line` value (`NoWork`, `Processing(count)` or `Dispatched(count)`). `Text` gives its exact console text, and `Render` gives the text of a whole run.
- `Decimal` (Decimal.dfy): PHP's `"{$count}"` interpolation of a non-negative integer, with its inverse.
- `Scenarios` (Scenarios.dfy): the repository's test cases, stated as clients of the contracts above. These are the payload test, the three endpoint responses (success, a 200 "Failed" body and a 503), the scope test, the three-application summary and the no-work run. `Scenarios.FailsAndLogsOnException` is an added scenario, not a repository test: it exercises the `catch` block with a client exception, which no repository test throws.

The endpoint is a parameter, `endpoint: Payload -> Outcome`. `Handle` applies it exactly once, to `PayloadOf(application)`. Every behaviour of the real endpoint on that one call is some such function, so the contracts cover all responses. The queue and the console are the command's out-parameters: `pushed` holds the jobs this run enqueues, in order, and `output` holds the lines it prints, whose text is `Render(output)`. `Commands.Handle` has no `modifies` clause, so Dafny itself guarantees that the command writes no Application record.

Behaviour of the code worth knowing:

- `order_id` is not guaranteed to be non-null exactly when the status is `Complete`. The code stores `json('id')` as it is, so a 2xx response with `status` `"Successful"` but no `id` gives `Complete` with a null `order_id` (`Jobs.SuccessWithoutIdCompletesWithNullOrderId`). The invariant holds when the endpoint keeps its promise of an id on success (`Jobs.OrderIdExactlyWhenComplete`).
- The failure update writes `status` only. It does not clear an existing `order_id`. The job does not check the record's status, so a job run on a record that already holds an id keeps that id when it fails.
- A 503 response does not throw (Laravel's client throws only when asked to). It takes the `else` branch, so nothing is logged for it. Only client exceptions reach the `catch` block.

## Model

| member | source | states |
|---|---|---|
| Records.Application.constructor | app/Jobs/ProcessNbnOrdersJob.php:28-33 | an application row carries the address columns, its plan, a status and a nullable order id; the address columns and the plan never change afterwards |
| Records.Application.Update | app/Jobs/ProcessNbnOrdersJob.php:37-44 | one `update()` writes the given status, and writes the order id only when the attribute array holds `order_id`; no other modelled column changes |
| Records.ReadyForNbnOrderingExact | app/Console/Commands/ProcessNbnOrders.php:18-20 | the selection holds only rows of the table; a row is selected if and only if its plan type is `nbn` and its status is `Order`; a selected row appears as often as it does in the table |
| Records.NonOrderStatusExcluded | tests/Feature/Console/ProcessNbnOrdersTest.php:79-105 | a row whose status is Prelim, Complete or OrderFailed is never selected, whatever its plan |
| Records.NonNbnPlanExcluded | tests/Feature/Console/ProcessNbnOrdersTest.php:61-76 | a row whose plan type is not `nbn` is never selected, whatever its status |
| Records.AllReadySelectedWhole | tests/Feature/Console/ProcessNbnOrdersTest.php:38-58 | when every row is ready, the selection is the whole table, in order |
| Records.NoneReadySelectsNothing | app/Console/Commands/ProcessNbnOrders.php:22-27 | when no row is ready, the selection is empty, so the count is zero |
| Decimal.FromNat | app/Console/Commands/ProcessNbnOrders.php:29 | the interpolated count is a non-empty string of decimal digits with no leading zero |
| Decimal.ValueOfFromNat | app/Console/Commands/ProcessNbnOrders.php:29 | reading the interpolated digits back as a number gives the count that was interpolated |
| Decimal.FromNatInjective | app/Console/Commands/ProcessNbnOrders.php:35 | two different counts never interpolate to the same text |
| Jobs.ToJson | app/Jobs/ProcessNbnOrdersJob.php:29 | a null `address_2` is sent as JSON null; a present one is sent as that string |
| Jobs.PayloadOf | app/Jobs/ProcessNbnOrdersJob.php:27-34 | the body has exactly the keys `address_1`, `address_2`, `city`, `state`, `postcode` and `plan name` (with a space); each value is the application's column or its plan's name, unchanged |
| Jobs.UpdateFor | app/Jobs/ProcessNbnOrdersJob.php:36-54 | the new status is always Complete or OrderFailed; it is Complete if and only if the response is 2xx and its status is exactly `"Successful"`; the order id is written if and only if the status is Complete, and then it is the response's `id` |
| Jobs.ErrorLog.constructor | app/Jobs/ProcessNbnOrdersJob.php:47-50 | the error log starts empty |
| Jobs.ErrorLog.Error | app/Jobs/ProcessNbnOrdersJob.php:47-50 | `Log::error` appends exactly one entry and keeps the earlier ones |
| Jobs.ProcessNbnOrdersJob.constructor | app/Jobs/ProcessNbnOrdersJob.php:19-22 | a job carries the application it was built for |
| Jobs.ProcessNbnOrdersJob.Handle | app/Jobs/ProcessNbnOrdersJob.php:24-56 | the endpoint is called on the application's payload; the record's status and order id follow `UpdateFor` of that outcome and the order id it held before, and not its prior status; the status ends Complete or OrderFailed, so the record is no longer ready for ordering; a thrown exception appends one log entry with the application id and the message, and a response logs nothing; nothing escapes the method |
| Jobs.SuccessfulResponseCompletes | tests/Unit/Jobs/ProcessNbnOrdersJobTest.php:55-75 | the successful stub response gives Complete with order id `ORD000000000000`, whatever id the record held |
| Jobs.OtherStatusFails | app/Jobs/ProcessNbnOrdersJob.php:41-45 | a 2xx response with any other status writes OrderFailed and leaves the order id as it was (null stays null) |
| Jobs.UnsuccessfulCodeFails | tests/Unit/Jobs/ProcessNbnOrdersJobTest.php:100-118 | a response outside 2xx, such as 503, writes OrderFailed, whatever its body says |
| Jobs.OrderIdExactlyWhenComplete | app/Jobs/ProcessNbnOrdersJob.php:36-45 | starting from no order id, and with an id on every accepted response, the record afterwards holds an order id if and only if it is Complete |
| Jobs.SuccessWithoutIdCompletesWithNullOrderId | app/Jobs/ProcessNbnOrdersJob.php:37-40 | a 2xx `"Successful"` response without an `id` gives Complete with a null order id, because `json('id')` is stored as it is |
| Commands.QueuedApplications | tests/Feature/Console/ProcessNbnOrdersTest.php:32-34 | the applications carried by queued jobs, one per job, in queue order |
| Commands.Render | app/Console/Commands/ProcessNbnOrders.php:25-35 | the console text of a run has one string per line written, in order, each the text of that line |
| Commands.FramedCountDetermined | app/Console/Commands/ProcessNbnOrders.php:29 | two lines that share a prefix and a suffix around an interpolated count carry the same count |
| Commands.TextInjective | app/Console/Commands/ProcessNbnOrders.php:25-35 | two console lines with the same text are the same line: the no-work message, "Processing N NBN applications..." and "Dispatched N jobs to queue." never coincide, and each names its count unambiguously |
| Commands.DispatchEach | app/Console/Commands/ProcessNbnOrders.php:31-33 | the loop pushes exactly one job per application, carrying that application, in the order of the collection |
| Commands.Handle | app/Console/Commands/ProcessNbnOrders.php:16-38 | the command returns SUCCESS on every path; the applications of the pushed jobs are the selection exactly, one job each, in order; when nothing is pushed (an empty selection) the only line is the no-work message; otherwise the lines are "Processing N" then "Dispatched N" with N the number of jobs pushed, which is the number selected; it writes no Application record |
| Scenarios.PayloadForTestRecord | tests/Unit/Jobs/ProcessNbnOrdersJobTest.php:43-51 | the test record's body is exactly the six literal key/value pairs, and it has no `plan_name` key |
| Scenarios.CompletesOnSuccessfulResponse | tests/Unit/Jobs/ProcessNbnOrdersJobTest.php:55-75 | a job on an awaiting record, answered with the successful stub body, leaves it Complete with order id `ORD000000000000` and logs nothing |
| Scenarios.FailsOnFailedResponse | tests/Unit/Jobs/ProcessNbnOrdersJobTest.php:78-97 | a job answered 200 with status `"Failed"` leaves the record OrderFailed with a null order id |
| Scenarios.FailsOnServiceUnavailable | tests/Unit/Jobs/ProcessNbnOrdersJobTest.php:100-118 | a job answered 503 leaves the record OrderFailed with a null order id and logs nothing |
| Scenarios.FailsAndLogsOnException | app/Jobs/ProcessNbnOrdersJob.php:46-55 | a job whose HTTP call throws leaves the record OrderFailed with a null order id and logs one entry with the application's id and the error message |
| Scenarios.ScopeSelectsOnlyReadyRow | tests/Feature/Console/ProcessNbnOrdersTest.php:124-148 | of an nbn/Order row, an nbn/Complete row and a mobile/Order row, only the first is selected |
| Scenarios.ThreeRendersAsDigit | tests/Feature/Console/ProcessNbnOrdersTest.php:118 | the count 3 is interpolated as "3" |
| Scenarios.ProcessingLineForThree | tests/Feature/Console/ProcessNbnOrdersTest.php:118 | the first summary line for three applications is literally "Processing 3 NBN applications..." |
| Scenarios.DispatchedLineForThree | tests/Feature/Console/ProcessNbnOrdersTest.php:119 | the second summary line for three applications is literally "Dispatched 3 jobs to queue." |
| Scenarios.SummaryForThreeApplications | tests/Feature/Console/ProcessNbnOrdersTest.php:108-121 | three ready applications give three jobs, one per application in order, and the console text is literally "Processing 3 NBN applications..." then "Dispatched 3 jobs to queue." |
| Scenarios.NothingQueuedWhenNothingReady | tests/Feature/Console/ProcessNbnOrdersTest.php:61-105 | a table with no ready row: nothing is pushed, the console text is only "No NBN applications to process.", and the exit code is SUCCESS |

## Left out

- HTTP transport, the endpoint URL from `config('services.nbn.b2b_endpoint')`, timeouts and JSON decoding: the endpoint is the `endpoint` parameter. Its response is reduced to the status code and the body's `status` and `id` strings. A body that is not JSON, or lacks those keys, is `None` there.
- Jobs.Outcome: an `id` that is a JSON number rather than a string is not told apart from its text.
- Jobs.PayloadOf: the body is a map. The key order of PHP's array is not modelled, because a JSON object's key order does not matter to its reader.
- Records.Application.Update: Eloquent's `update()` is `fill()->save()`, and `save()` on this timestamped model also writes `updated_at`. Timestamps are not modelled, so the "no other column changes" of `Update` covers only the modelled columns.
- An exception thrown by `update()` itself (a database fault inside the `try`) is not modelled. Persistence is outside the model, so `Update` always succeeds.
- PHP `Error`s, such as a TypeError, are not `Exception`s and would escape the `catch`. No such path arises from the modelled data, and it is not modelled.
- `Log::error` is an append-only `ErrorLog` object. Log levels, formatting and channels are not modelled.
- The queue infrastructure is a plain sequence of pushed jobs: serialisation of the model, asynchronous delivery, retries, worker concurrency and overlapping command runs. Duplicate submission from overlapping runs is therefore not modelled.
- Eager loading (`with('plan')`) and the database query itself: the plan is a value held by each application, and the table is a sequence.
- The body of the `readyForNbnOrdering` scope (in the Application model) is not part of this model. Its meaning is taken from the command's tests.
- The `ApplicationStatus` enumeration file is not part of this model. Its four cases are those the tests use.
- The application listing endpoint (`ApplicationController`), its resource formatting, validation, pagination and authentication are outside the order pipeline.
