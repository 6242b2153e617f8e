# promotion-service, modelled in Dafny

This project models the core of a Go promotion service. The service is a store of
promotions `(id, price, expiration date)` and has five parts:

* **Bounded retry** (`retry.Do`). It calls an operation until the operation succeeds
  or the attempt budget runs out, and it sleeps between attempts.
* **Replica store** (`ReadRepository`). It holds a live table `promotions`, a shadow
  table `promotions_temp`, and a Redis cache in front of the live table. It supports
  clearing and bulk-loading the shadow table, a three-way rename that puts the shadow
  rows live, and a cache-aside point lookup.
* **Primary store** (`WriteRepository`). It can clear the table, insert one row, count
  rows, and read a LIMIT/OFFSET window.
* **CSV loader** (`parsePromotion`, `ProcessPromotionsFromCSV`). It parses records in
  a fixed check order and hands each promotion to a processor.
* **Service** (`PromotionService`). It runs a transactional insert-and-publish in two
  variants: `CreatePromotion`, and `processPromotion`, which the CSV import uses. It
  also delegates lookups to the replica store.

Each external call becomes a parameter of the modelled operation that says whether the
call succeeds. This covers SQL statements, Redis, Kafka, opening the file and reading
it, `strconv.ParseFloat`, `time.Parse` and `Promotion.Validate`. The model can then
state every error path exactly.

Stateful objects are Dafny classes:

* **`ReadRepository`** has `live`, `temp` and `cache` fields. Each method is proved
  equal to a transition function on a `Replica` value, and the lemmas about the
  operations are stated on those functions.
* **`WriteRepository`** has a `rows` field.
* **`PromotionService`** adds two fields: the Kafka topic it has published to, and a
  ghost log of transaction events.

Each service operation is proved to extend the log, the table and the topic by the
trace of a specification function (`CreateSteps`, `ProcessSteps`). The ordering
properties are lemmas about those traces.

The model records these behaviours of the code as written:

* `retry.Do` always calls the operation at least once. Its message names the
  `attempts` argument, not the number of calls, so it can say "after 0 attempts".
  Go's `int` is 64 bits wide, and at `attempts == math.MinInt64` the exit test's
  `attempts - 1` wraps to `math.MaxInt64`, so the operation may be called 2^63 times.
* `SwapTables` never touches the cache, so a lookup after a swap can return the
  pre-swap row.
* `processPromotion` returns `nil` when its deferred commit fails. The deferred
  function assigns the commit error to a local variable, because the function's result
  is unnamed. As a result, a CSV import can succeed while committing no rows at all
  (`Service.CsvImportDropsCommitErrors`).

The code publishes no "dataset updated" event after a load, and it contains no rebuild
coordinator.

## Model

| member | source | states |
|---|---|---|
| Retry.Limit | internal/retry/retry.go:16 | the exit test's `attempts - 1` is computed modulo 2^64 within the 64-bit `int` range |
| Retry.Budget | internal/retry/retry.go:10-18 | at least one call; exactly `attempts` calls for a positive budget, one for `math.MinInt64 < attempts <= 0`, and 2^63 for `math.MinInt64`, where `attempts - 1` wraps |
| Retry.RetryFrom | internal/retry/retry.go:10-22 | calls in range; one sleep fewer than calls; every call before the last failed; success iff the last call succeeded; on failure the whole budget was used and the error is `after <attempts> attempts, last error: <last>` |
| Retry.Do | internal/retry/retry.go:8-23 | the loop's result, call count and sleep count equal the specification `Outcome`, and every sleep has the given duration |
| Retry.CalledAtLeastOnce | internal/retry/retry.go:10-17 | the operation runs at least once for any `attempts`, including `attempts <= 0` |
| Retry.AlwaysFailing | internal/retry/retry.go:10-22 | an operation that always fails is called exactly `Budget(attempts)` times (`max(attempts, 1)` except at `math.MinInt64`), with one sleep fewer, and its last error is reported |
| Retry.FailThenSucceed | internal/retry/retry.go:10-20 | `k < attempts` failures then a success: `nil` after exactly `k + 1` calls and `k` sleeps |
| Retry.StopsAtFirstSuccess | internal/retry/retry.go:11-13 | on success, every call but the last failed, so no call follows the first success |
| Retry.MinAttemptsWraps | internal/retry/retry.go:16 | with `attempts == math.MinInt64`, an operation that always fails is called 2^63 times |
| Retry.ZeroAttemptsMessage | internal/retry/retry.go:22 | with `attempts == 0`, one call is made and the error still reads "after 0 attempts" |
| Retry.ThreeAttemptsTwoFailures | internal/retry/retry.go:10-20 | a concrete run: two failures, then success, gives three calls and two sleeps |
| Retry.ThreeAttemptsAllFail | internal/retry/retry.go:10-22 | a concrete run: three failures give "after 3 attempts, last error: down" |
| Decimal.NatToString | internal/retry/retry.go:22 | the `%d` rendering of a count is a non-empty string of decimal digits |
| Decimal.NatToStringRoundTrip | internal/retry/retry.go:22 | the digits read back as the number rendered |
| Decimal.IntToStringRoundTrip | internal/retry/retry.go:22 | `%d` of any integer, negative ones included, reads back as that integer, so the message determines `attempts` |
| WriteRepo.Window | internal/repository/write_repo.go:40 | `LIMIT limit OFFSET offset` has at most `limit` rows; it is empty when the offset is past the end; otherwise it has `min(limit, n - offset)` rows, row `k` being table row `offset + k` |
| WriteRepo.PagesCoverTable | internal/repository/write_repo.go:33-40 | windows at offsets `0, B, 2B, ...` while the offset is below the count concatenate to exactly the table, each row once and in order |
| WriteRepo.WriteRepository.constructor | internal/repository/write_repo.go:13-15 | the repository starts over the given table |
| WriteRepo.WriteRepository.ClearAllPromotions | internal/repository/write_repo.go:17-20 | the statement's error is returned; on success the table is empty, otherwise unchanged |
| WriteRepo.WriteRepository.CreatePromotion | internal/repository/write_repo.go:22-31 | on success exactly one row `p` is appended; on error the table is unchanged and the error is wrapped as "failed to insert promotion" |
| WriteRepo.WriteRepository.GetTotalPromotionsCount | internal/repository/write_repo.go:33-37 | returns `|rows|` on success and 0 with the error otherwise; changes nothing |
| WriteRepo.WriteRepository.GetPromotionsBatch | internal/repository/write_repo.go:39-57 | a query error gives no rows; a scan error at a row inside the window gives no rows and that error; a `rows.Err()` at position `k` gives the first `k` rows and that error; otherwise the batch is exactly the window; changes nothing |
| ReadRepo.BindSuffix | internal/repository/read_repo.go:46-55 | with the generated numbering, any suffix of the VALUES groups binds exactly the matching suffix of the promotions |
| ReadRepo.BindNumbered | internal/repository/read_repo.go:46-55 | groups `($3i+1, $3i+2, $3i+3)` over the flat argument list insert exactly the given promotions, in order |
| ReadRepo.BuildInsert | internal/repository/read_repo.go:44-49 | the loop builds one placeholder group per promotion, numbered `3i+1 .. 3i+3`, and the statement binds exactly the given promotions |
| ReadRepo.FindById | internal/repository/read_repo.go:101-109 | a found row is in the table and has the requested id; nothing is found iff no row has that id |
| ReadRepo.ReadRepository.constructor | internal/repository/read_repo.go:22-24 | the repository starts over the given tables and cache |
| ReadRepo.ReadRepository.ClearTempTable | internal/repository/read_repo.go:26-29 | equals `ClearTemp`: on success `temp` is empty; `live` and the cache are unchanged |
| ReadRepo.ReadRepository.BulkInsertPromotions | internal/repository/read_repo.go:31-66 | equals `BulkInsert`: `temp` gains exactly the given promotions on success and is unchanged otherwise; `live` and the cache are unchanged |
| ReadRepo.ReadRepository.SwapTables | internal/repository/read_repo.go:68-76 | equals `Swap`: on success `live` is the old `temp` and `temp` is empty; on failure nothing changes; the cache is never touched |
| ReadRepo.ReadRepository.GetPromotion | internal/repository/read_repo.go:79-123 | equals `Get`, the cache-aside lookup; the tables are unchanged |
| ReadRepo.ClearTempOnlyEmptiesTemp | internal/repository/read_repo.go:26-29 | clearing the shadow table leaves `live` and the cache unchanged and, on success, `temp` empty |
| ReadRepo.BulkInsertAllOrNothing | internal/repository/read_repo.go:31-66 | the result is `nil` iff the slice is empty or begin, insert and commit all succeed; `temp` gains every promotion then and none otherwise; `live` and cache unchanged |
| ReadRepo.SwapPromotesTemp | internal/repository/read_repo.go:68-76 | after a successful swap the old shadow rows are live, the shadow table is empty and the old live rows are gone |
| ReadRepo.DoubleSwapEmptiesLive | internal/repository/read_repo.go:69-74 | two swaps with no load in between leave the live table empty |
| ReadRepo.GetCacheHit | internal/repository/read_repo.go:83-91 | a decodable cache entry is returned, nothing changes, and the answer does not depend on the live table |
| ReadRepo.GetFromLive | internal/repository/read_repo.go:98-122 | without a cache answer: an id absent from `live` gives "promotion not found" and changes nothing; a found row has that id, is returned whatever the cache write does, and is cached iff the cache is on and the write succeeds |
| ReadRepo.SwapKeepsCachedEntry | internal/repository/read_repo.go:83-91 | a promotion cached before a swap is still returned after it |
| ReadRepo.StaleReadAfterSwap | internal/repository/read_repo.go:68-91 | a concrete stale read: after the swap the live row has price 2, but the lookup returns the cached row with price 1 |
| ReadRepo.GetTwiceAgrees | internal/repository/read_repo.go:79-123 | two successful lookups of one id with a healthy cache read and nothing in between give the same promotion |
| Csv.ParsePromotion | internal/csv/reader.go:91-117 | a record without exactly 3 fields is rejected as "invalid record format" before any other check; an accepted promotion's id is `record[0]` verbatim |
| Csv.FirstFailingCheckDecides | internal/csv/reader.go:92-114 | with the checks ordered field count, price, date, validation, the first failing check decides the error kind |
| Csv.AcceptedIffAllChecksPass | internal/csv/reader.go:91-117 | a record is accepted iff it passes all four checks, and the promotion is `(record[0], parsed price, parsed date)` |
| Csv.LoadFrom | internal/csv/reader.go:43-88 | the processed promotions are the parses of consecutive items; every processed record before the last succeeded; on success every remaining record parsed and was processed |
| Csv.LoadFromAccepted | internal/csv/reader.go:44-54 | a parsed record stops the load with "error processing promotion" when the processor fails, and the load continues with the next record otherwise |
| Csv.LoadFromNilIff | internal/csv/reader.go:43-88 | loading from item `i` succeeds iff every item from `i` on parses and is processed |
| Csv.LoadNilIff | internal/csv/reader.go:21-89 | a load returns `nil` iff the file opens, no read fails, and every record parses and is processed; any single failure makes it fail |
| Csv.LoadProcessesEachRecordOnce | internal/csv/reader.go:22-73 | a failed open processes nothing; on success the processor saw each record's promotion exactly once |
| Csv.ResumesAtStart | internal/csv/reader.go:62-64 | before the first record, nothing has been processed and the whole load lies ahead |
| Csv.ResumesStops | internal/csv/reader.go:44-47 | a read error or a rejected record ends the load with "error reading CSV record" or "error parsing promotion", keeping what was processed before |
| Csv.ResumesAccepted | internal/csv/reader.go:50-54 | an accepted record is processed; a processor error ends the load with "error processing promotion", otherwise the load moves to the next record |
| Csv.ResumesAtEnd | internal/csv/reader.go:66-67 | at end of file the load succeeds with everything processed so far |
| Csv.ProcessPromotionsFromCSV | internal/csv/reader.go:21-89 | the sequential loop returns the error and processed promotions of the specification `Load` |
| Service.StepRows | internal/service/promotion_service.go:35-96 | in both operations a message is published iff begin, insert and publish succeed, and a row is committed iff the commit succeeds as well |
| Service.PromotionService.constructor | internal/service/promotion_service.go:20-27 | the service holds the given repositories, with an empty topic and log |
| Service.PromotionService.CreatePromotion | internal/service/promotion_service.go:29-56 | returns the error of `CreateSteps`; the log, table and topic grow by exactly that trace's events, rows and messages |
| Service.PromotionService.ProcessPromotion | internal/service/promotion_service.go:66-98 | returns the result of `ProcessSteps`, which is `nil` even after a failed commit; the log, table and topic grow by that trace |
| Service.PromotionService.GetPromotion | internal/service/promotion_service.go:58-60 | delegates unchanged: the same result and replica transition as `ReadRepository.GetPromotion` |
| Service.PromotionService.ProcessCSVFile | internal/service/promotion_service.go:62-64 | returns `Load`'s error with `processPromotion` as processor; the state grows by the traces of the promotions processed, in order |
| Service.PromotionService.ImportRecord | internal/csv/reader.go:43-73 | one turn of the import: the state grows by the record's `processPromotion` trace, and the import either stops with the loader's result or moves to the next record |
| Service.CreateCommitsOnlyAfterPublish | internal/service/promotion_service.go:35-52 | every commit in the trace follows the publish of the same promotion; the result is `nil` iff the row was committed |
| Service.CreatePublishWithoutCommit | internal/service/promotion_service.go:44-52 | a failed commit after a successful publish leaves a published message, no committed row, and an error |
| Service.CreateCountsAfterCommit | internal/service/promotion_service.go:50-54 | the published-messages counter is incremented only after a successful commit |
| Service.ProcessFailuresRollBack | internal/service/promotion_service.go:73-94 | every commit follows the publish; an insert or publish failure is returned, rolls back, and commits nothing |
| Service.ProcessDropsCommitError | internal/service/promotion_service.go:79-97 | a failed commit still returns `nil`, with no row committed |
| Service.ProcessCountsBeforeCommit | internal/service/promotion_service.go:80-96 | the counter is incremented before the deferred commit runs, whether that commit succeeds or fails |
| Service.FailedCommitsTraces | internal/service/promotion_service.go:66-98 | a run of `processPromotion` calls whose commits all fail publishes every promotion and commits none |
| Service.CsvImportDropsCommitErrors | internal/service/promotion_service.go:62-98 | an import of well-formed records whose commits all fail returns `nil`, having processed every record, published all of them and committed none |

## Left out

- Concurrency of the CSV worker pool. The loader runs sequentially, one record at a time, in file order. Whether the load succeeds does not depend on the interleaving. Goroutine scheduling and channel back-pressure are not modelled.
- Csv.LoadFrom: a failed load stops at the first failing item in file order and reports that item's error. In the program only the worker that failed stops. The other workers keep taking records, and the reader keeps reading until end of file or a read error (internal/csv/reader.go:43-73). Records after the failing one can therefore still be processed, and the error returned is whichever reached `errChan` first.
- Csv.ProcessPromotionsFromCSV: on failure, `processed` holds only the records up to the first failure in file order, for the reason given under `Csv.LoadFrom`.
- Csv.ProcessPromotionsFromCSV: requires `numWorkers >= 1`; the only call site passes 5. With `numWorkers == 0` no worker starts, `wg.Wait()` returns at once and the function returns `nil` without processing any record. The reader goroutine then blocks on its first send, or panics by sending on the closed `errChan` after an early read error. A negative count makes `make` panic.
- Service.PromotionService.ProcessCSVFile: on a failed import, the model's log, table and topic hold only the transactions of the records before the failure. In the program the other workers go on committing and publishing later records.
- Service.PromotionService.ProcessCSVFile: the worker count 5 only shapes the concurrency, which the model leaves out, so no contract mentions it.
- Service.PromotionService.ProcessCSVFile: repeats the loader's loop instead of calling `Csv.ProcessPromotionsFromCSV`. Its processor changes the service's state, and the loader's processor parameter is a pure function. The contract still ties the result to the same `Csv.Load`.
- `strconv.ParseFloat`, `time.Parse` and `Promotion.Validate` are uninterpreted parameters. This covers float parsing and the time layout's semantics. `Validate` is not defined in `internal/models/promotion.go`.
- `encoding/csv`'s own per-record field-count rule, and reader errors other than as injected failures.
- Metrics counters and zap logging. Only the published-messages counter appears, as a trace event.
- Redis TTL expiry and JSON encoding fidelity. A cache entry is either decodable to a promotion or garbage.
- SQL text. The bulk INSERT is modelled by its placeholder groups and argument list. Table renames and TRUNCATE become transitions on sequences.
- WriteRepo.WriteRepository.GetPromotionsBatch: the database's refusal of a negative LIMIT or OFFSET is one fixed error text, not the driver's message.
- WriteRepo.Window: the query has no ORDER BY. The model fixes the table sequence as the order the database returns rows in.
- ReadRepo.ReadRepository.SwapTables: a failed statement batch is modelled as changing nothing. The three renames and the TRUNCATE happen all together or not at all.
- `BeginTx` and `CreatePromotionTx` are called by the service but do not exist in `internal/repository/write_repo.go`. The transaction is modelled abstractly: a pending row, appended to the primary table on commit.
- The service's `cache *redis.Client` field is never used by the service's methods, so the constructor omits it. The Kafka producer is modelled as the topic sequence, with its publish outcome as a parameter.
- Retry.Do: `time.Sleep` is modelled as the list of durations slept, and `fn` as the outcome of each successive call.
- The panic path of `processPromotion`'s deferred function (`recover`, rollback, re-panic).
- `cmd/server/main.go` is not part of this model; `connectWithRetry` there has the same retry shape. Also outside the model:
  - `internal/api/handlers.go`, `internal/config/config.go`, `internal/database/migrate.go`;
  - `internal/kafka/producer.go` and `internal/kafka/consumer.go`;
  - `internal/metrics/metrics.go` and `internal/logging/logger.go`.
- Argument counts at the call sites in `cmd/server/main.go` differ from the constructors they call. Each file's own text is modelled.
- The rebuild coordinator, its batch striping and the "dataset updated" event do not appear in the code and are not modelled.
