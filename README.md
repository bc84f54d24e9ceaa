# go-tushare client core, modelled in Dafny

This project models the core of `go-tushare`, a Go client for the Tushare
financial-data HTTP API, and proves properties of it. The model covers:

- **The client** (`client.go`). The `Client` object holds its configuration and
  HTTP client. `NewClient` starts from the package defaults;
  `NewClientWithConf` replaces an empty endpoint and non-positive numbers with
  them; both then apply the functional options in order. `postWithRetry` sends one request and retries it on
  transport errors and on the rate-limit code 40203. `Query` pages through a
  result set with `limit`/`offset`, merges every page's rows and stops on the
  first error. The `RetryConfig` presets, `isRetryableError`, `PermanentError`
  and `IsPermanentError` are covered too.
- **Responses and data frames** (`types.go`). `IsSuccess`, `ToRecords` (rows
  zipped with the field names), `NewDataFrame` and the frame's
  `Len`/`Get`/`GetString`/`GetFloat64`/`GetInt`.
- **Two endpoints** (`stock/basic/stock_basic.go`, `stock/basic/trade_cal.go`).
  `StockBasic` and `TradeCal` build their parameter maps, join the requested
  fields with commas, call `Query` and pass its errors on.

Modules, one per file:

- `Wrappers`: Option and Result.
- `GoInt`: Go's 64-bit `int` wrap-around and the `uint64` conversion.
- `Types`: `types.go`.
- `Config`: configuration records and options.
- `Retrying`: one fetch with retries.
- `Paging`: `Query`'s pagination as a specification.
- `Tushare`: the `Client` class, whose methods are proved against `Retrying`
  and `Paging`.
- `Basic`: the two endpoints.

The network and the caller's `context.Context` are an oracle, `Retrying.Env`:

- the reply to the a-th attempt at sending a request;
- whether the context is done when a retry is due;
- whether it is done before page k is dispatched.

The replies, and whether the context is done when a retry is due, are keyed on
the request and the attempt number. Pages differ in their `offset` parameter,
so each page can get its own replies. Two pages can still send the same
request:

- with a page size of 0, which `WithLimit(0)` sets (both constructors apply
  the options after their defaults, client.go:128-130 and 164-166), every page
  has offset 0;
- the offset is advanced with Go's wrapping addition, so offsets can repeat:
  under `WithLimit(math.MinInt64)` pages 0 and 2 both have offset 0
  (`Paging.PageOffsetsRepeat`).

The oracle then gives those pages the same replies and the same cancellation
answers, and the model cannot express a server or a context that answers
identical requests differently from page to page.

Go's `for {}` in `Query` may never end, so the model gives `Query` a page
budget. An outcome with neither a response nor an error means the budget ran
out. `PaginateFuelIrrelevant` shows that a larger budget changes nothing once
the walk has ended.

Behaviours of the code that the model keeps as written:

- The merged response carries the field list of the **last** page that had
  data (client.go:243).
- Rows gathered before a failing page are discarded: the result is all or
  nothing.
- `isRetryableError` is true for every error. So the `backoff.Permanent` branch
  of the operation closure (client.go:326-328) is unreachable
  (`Retrying.Operation`).
- The endpoints' own `APIError` branch is unreachable too
  (`Basic.EndpointPassesQueryThrough`).
- `ClientConfWithRetry(token, NoRetryConfig())` passed to `NewClientWithConf`
  still retries 3 times, with a constant 1 s wait: `UseBackoff` stays false, so
  the constant policy applies and the 30 s MaxInterval is unused
  (`Config.NoRetryConfigStillRetries`).
- A negative `Retries` set through `WithRetries` becomes `uint64(Retries)`
  (`GoInt.ToUint64`), a retry bound near 2^64. With the constant policy
  (`UseBackoff` false, client.go:351-353) nothing else stops the retries. The
  exponential policy (client.go:344-349) also has the backoff library's
  elapsed-time cap, which is not modelled (see "## Left out").

## Model

| member | source | states |
|---|---|---|
| GoInt.Wrap | client.go:256 | Go's int addition: the result is in the int64 range, congruent to the exact value modulo 2^64, and equal to it when it fits |
| GoInt.ToUint64 | client.go:349 | uint64(n): the unique value below 2^64 congruent to n, so a negative retry count becomes a huge one |
| GoInt.WrapAdd | client.go:256 | wrapping after each addition equals wrapping once at the end |
| Types.Response.IsSuccess | types.go:33-35 | a response is a success exactly when its code is 0 |
| Types.RecordPrefix | types.go:44-52 | the reference definition of the inner loop: the record after the first n fields, each covered position storing its value under its field name |
| Types.RowRecord | types.go:44-52 | the reference definition of one row zipped with the field list (its contents are RecordPrefixKeys and RecordPrefixValues) |
| Types.Records | types.go:43-52 | the reference definition of the outer loop: one record per row, in row order |
| Types.Response.ToRecords | types.go:38-53 | nil exactly when Data is nil; otherwise one record per row, in row order, each the row zipped with the field list |
| Types.RecordPrefixKeys | types.go:44-50 | a record's keys are exactly the fields at positions the row covers: short rows omit trailing fields, extra values are dropped |
| Types.RecordPrefixValues | types.go:46-50 | each covered field maps to the row value at its last covered position, so a repeated name keeps the later value |
| Types.RowRecordDistinct | types.go:46-50 | with distinct field names, field j maps to row value j for every position the row covers |
| Types.NewDataFrame | types.go:73-84 | empty columns and rows without data; otherwise the columns are the fields and row i is record i of the response, so Len is the number of rows |
| Types.DataFrame.Len | types.go:87-89 | the number of records in the frame; equal to the response's row count by NewDataFrame |
| Types.DataFrame.Get | types.go:92-98 | never fails: (nil, false) for a row out of range; ok exactly when the record has the column, and then the stored value; nil whenever not ok |
| Types.DataFrame.GetString | types.go:101-112 | "" when the cell is missing or nil; a string cell is returned unchanged |
| Types.DataFrame.GetFloat64 | types.go:115-136 | 0 when the cell is missing or nil; float64, float32, int and int64 cells unchanged; a string cell through the scanner; 0 for a bool or a composite cell |
| Types.Numeric | types.go:120-135 | the reference definition of the type switch: the number a value stands for, 0 for other types |
| Types.Truncate | types.go:140 | the reference definition of Go's float-to-int conversion, which truncates toward zero (stated in GetInt's contract) |
| Types.DataFrame.GetInt | types.go:139-141 | GetFloat64 truncated toward zero: within 1 of it, on the side of zero |
| Types.DataFrameReadsBack | types.go:73-141 | for a covered cell named nowhere later in its row, Get returns (value, true), and a string, a float64 or an int cell reads back unchanged through GetString, GetFloat64 and GetInt |
| Types.DataFrameMissingColumn | types.go:92-141 | a column no field names reads as (nil, false), "", 0 and 0 in every row |
| Config.DefaultConf | client.go:110-119 | NewClient's starting configuration: default endpoint, limit 5000, retries 3, 1 s interval, 30 s max interval and timeout, backoff on |
| Config.ConfWith | client.go:52-106 | the reference definition of what each option closure does to the configuration: exactly its own field |
| Config.HttpWith | client.go:52-106 | the reference definition of what each option does to the HTTP client: WithTimeout sets its timeout, WithHTTPClient replaces it, the rest keep it |
| Config.ConfWithAll | client.go:128-130 | the reference definition of the option loops (also client.go:164-166) on the configuration: the options applied in order |
| Config.HttpWithAll | client.go:164-166 | the reference definition of the option loops (also client.go:128-130) on the HTTP client: the options applied in order |
| Config.ConfWithAllAppend | client.go:128-130 | applying a list of options is applying its prefix, then the rest |
| Config.OptionsKeepToken | client.go:52-106 | no option changes the token |
| Config.NoLimitKeeps | client.go:74-78 | options without a WithLimit leave the limit unchanged |
| Config.LastLimitAt | client.go:74-78 | a WithLimit with no later WithLimit sets the limit in force |
| Config.LastLimitWins | client.go:74-78 | after a list of options, the limit is the last WithLimit's value, or unchanged when there is none |
| Config.NoRetriesKeeps | client.go:81-85 | options without a WithRetries leave the retry count unchanged |
| Config.LastRetriesAt | client.go:81-85 | a WithRetries with no later WithRetries sets the retry count in force |
| Config.LastRetriesWins | client.go:81-85 | after a list of options, the retry count is the last WithRetries's value, or unchanged when there is none |
| Config.WithDefaults | client.go:137-155 | an empty endpoint and each non-positive number take the package default; positive numbers, the token and UseBackoff are kept |
| Config.WithDefaultsIdempotent | client.go:137-155 | defaulting an already defaulted configuration changes nothing |
| Config.DefaultRetryConfig | client.go:432-439 | 3 retries, 1 s initial delay, 30 s max delay, backoff on |
| Config.NoRetryConfig | client.go:442-446 | zero retries, with every other field at Go's zero value |
| Config.AggressiveRetryConfig | client.go:449-456 | 10 retries, 100 ms initial delay, 60 s max delay, backoff on |
| Config.ClientConfWithRetry | client.go:459-470 | package defaults for endpoint, limit and timeout; the retry fields copied from the preset |
| Config.NoRetryConfigStillRetries | client.go:144-146 | the no-retry preset through NewClientWithConf's defaulting ends with 3 retries and the default delays |
| Retrying.IsRetryableError | client.go:282-294 | true for any error; without an error, true exactly for a response with code 40203 |
| Retrying.Operation | client.go:314-338 | the attempt stops the loop exactly when a response arrives with a code other than 40203; a transport failure is retried with its own error, the rate limit with an "api error"; a permanent error is never produced |
| Retrying.IsPermanentError | client.go:520-523 | an error is permanent exactly when it is the Permanent wrapper (Go's errors.As has no other wrapping to look through in this model) |
| Retrying.PermanentErrorsAreWrapped | client.go:515-523 | the errors IsPermanentError recognises are exactly those PermanentError builds |
| Retrying.PermanentError | client.go:515-523 | a wrapped error is recognised as permanent and unwraps to the original |
| Retrying.RetryFrom | client.go:341-363 | between 1 and maxRetries+1 exchanges; a success is the last reply and never carries code 40203; a failure is a transport, context or rate-limit error, and the last reply was retryable |
| Retrying.RetriesUntilSuccess | client.go:341-363 | retryable failures on the first R attempts, with R at most maxRetries, then code 0: success with that response after exactly R+1 exchanges |
| Retrying.RetriesExhausted | client.go:341-363 | when every attempt is retryable, the fetch fails with the last attempt's own error after exactly maxRetries+1 exchanges |
| Retrying.BusinessErrorStops | client.go:324-332 | a code other than 0 and 40203 ends the fetch at once, returning the response with no error |
| Retrying.CancelledDuringRetry | client.go:357-360 | a context that is done when a retry is due ends the fetch with the context's error, with no further exchange |
| Paging.MaxRetries | client.go:349-353 | the retry bound both policies get: uint64(conf.Retries), so a negative count becomes a bound near 2^64 |
| Paging.PageOffset | client.go:216 | page 0 starts at offset 0, and page k at k times the limit whenever that fits in an int |
| Paging.PageOffsetStep | client.go:255-256 | each page's offset is the previous one plus the limit, with Go's int addition |
| Paging.PageOffsetsRepeat | client.go:255-256 | with page size math.MinInt64, page 1 has offset math.MinInt64 and page 2 wraps back to page 0's offset 0 |
| Paging.PageParams | client.go:209-216 | the reference definition of page k's parameters: the copied caller parameters with limit set to the page size and offset to the page's offset (advanced as at client.go:255-256, PageRequestsAdvance) |
| Paging.PageRequest | client.go:208-216 | the request for page k: the caller's parameters with limit set to the page size and offset to the page's offset (its contents are PageRequestContents) |
| Paging.PageRequestContents | client.go:208-216 | every page request carries the caller's API name, token, fields and parameters, plus limit = conf.Limit and the page's offset; no other parameter changes |
| Paging.PageRequestsAdvance | client.go:255-256 | the next page's parameters are this page's with the offset read back and increased by the limit in Go's int arithmetic; nothing else changes |
| Paging.Merged | client.go:260-268 | the envelope Query returns at the end: code 0, an empty message, the given fields and rows, HasMore false |
| Paging.Step | client.go:220-252 | the reference definition of one page of Query's loop: a done context, a failed fetch or a non-zero code stops with that outcome; a page without data or with HasMore false ends with the merged envelope; otherwise the page's request and exchanges go on with its rows appended and its fields in place of the old ones |
| Paging.Paginate | client.go:221-268 | the reference definition of Query's loop from page k: each page's Step either ends the walk with its outcome or comes before the walk from the next page |
| Paging.QuerySpec | client.go:201-269 | Query as the walk from page 0 with no rows and no fields, each page fetched through postWithRetry |
| Paging.PaginateOutcome | client.go:221-268 | at most the budget of pages, all of it unless the walk ended; a response without an error is the merged success (code 0, empty message, HasMore false); a response with an error carries an APIError with the same code and message |
| Paging.PaginatePages | client.go:221-257 | page j of the walk is the request for page k+j |
| Paging.QueryExchangesAndErrors | client.go:230-240 | every page costs 1 to maxRetries+1 exchanges; an error comes with a response exactly when it is an APIError; a rejected response never carries 40203 |
| Paging.PaginatePrefix | client.go:242-257 | after n pages that ask for more, the outcome is those n requests and exchanges followed by the walk from page n, with their rows in order and the last page's fields |
| Paging.QueryCancelledBeforePage | client.go:224-228 | a context that is done before page k ends Query with the context error and no further request |
| Paging.QueryPageErrorDiscardsRows | client.go:230-233 | a failed fetch of page k ends Query with no response and exactly that error; earlier rows are discarded |
| Paging.QueryRejectedByServer | client.go:235-240 | a page with a non-zero code ends Query with that response and an APIError with the same code and message |
| Paging.QueryMergesAllPages | client.go:242-268 | the first successful page without data or with HasMore false ends Query with code 0, an empty message, HasMore false, every page's rows in page order and the last data page's fields |
| Paging.PaginateFuelIrrelevant | client.go:221-257 | once the walk has ended within a budget, any larger budget gives the same outcome |
| Tushare.Client.constructor | client.go:109-133 | NewClient: the defaults, an HTTP client with the default timeout, then the options in order |
| Tushare.Client.WithConf | client.go:136-169 | NewClientWithConf: the imperative defaulting equals WithDefaults; the HTTP client gets the defaulted timeout; then the options apply in order |
| Tushare.Client.Apply | client.go:52-106 | one option changes exactly its own field (WithTimeout changes both timeouts, WithHTTPClient replaces the HTTP client) |
| Tushare.Client.Configure | client.go:128-130 | the option loop leaves the client as the options applied in order |
| Tushare.Client.PostWithRetry | client.go:303-366 | the attempt loop returns exactly the retry specification's result for the request built from the configuration, and makes exactly the specification's number of exchanges (calls of the reply oracle), so at most uint64(Retries)+1 |
| Tushare.Client.Page | client.go:220-252 | one turn of the paging loop (context check, postWithRetry, then the error, rejection, last-page or next-page branch) does exactly what Step specifies for that page |
| Tushare.Client.Query | client.go:201-269 | the paging loop, with its in-place offset update and row appends, returns exactly the pagination specification's response and error, sends exactly its page requests in order and makes exactly its number of exchanges |
| Basic.Join | stock/basic/stock_basic.go:139-142 | the reference definition of strings.Join: the parts with the separator between consecutive ones |
| Basic.FieldsArg | stock/basic/trade_cal.go:88-91 | the fields argument: "" for no fields, else the comma-join |
| Basic.MapOf | stock/basic/stock_basic.go:117-137 | the reference definition of the key-by-key map building: the table's pairs in order, each stored as a string when its value is non-empty (its contents are MapOfLookup and MapOfKeys) |
| Basic.StockBasicPairs | stock/basic/stock_basic.go:117-137 | the stock_basic table: ts_code, name, exchange, market, is_hs, and list_status defaulting to "L" |
| Basic.TradeCalPairs | stock/basic/trade_cal.go:72-86 | the trade_cal table: exchange defaulting to "SSE", then start_date, end_date and is_open |
| Basic.SplitJoin | stock/basic/stock_basic.go:139-142 | splitting the comma-join of a non-empty list of comma-free names on ',' gives the list back |
| Basic.FieldsArgSplits | stock/basic/trade_cal.go:88-91 | the fields argument splits back into the requested fields |
| Basic.MapOfLookup | stock/basic/stock_basic.go:117-137 | with distinct keys, a key is in the built map exactly when its value is non-empty, and then maps to that value |
| Basic.MapOfKeys | stock/basic/stock_basic.go:117-137 | the built map holds no key outside the endpoint's table |
| Basic.StockBasicParamMapContents | stock/basic/stock_basic.go:117-137 | ts_code, name, exchange, market and is_hs are present exactly when non-empty, with the caller's value; list_status is always present, with the caller's value or "L"; there are no other keys |
| Basic.TradeCalParamMapContents | stock/basic/trade_cal.go:72-86 | exchange is always present, with the caller's value or "SSE"; start_date, end_date and is_open are present exactly when non-empty; there are no other keys |
| Basic.EndpointResult | stock/basic/stock_basic.go:144-154 | the tail both endpoints share after Query: Query's error unchanged, a response that is not a success as an APIError with its code and message, a success to the decode |
| Basic.StockBasicArgs | stock/basic/stock_basic.go:117-142 | the map built key by key is the endpoint's table (present exactly when non-empty, list_status defaulting to "L"), and the fields argument is the comma-join, empty for no fields |
| Basic.StockBasic | stock/basic/stock_basic.go:116-162 | builds the stock_basic map and the fields argument, then returns Query's outcome passed through the endpoint's error handling |
| Basic.TradeCalArgs | stock/basic/trade_cal.go:72-91 | the map built key by key is the endpoint's table (exchange defaulting to "SSE", the rest present exactly when non-empty), and the fields argument is the comma-join, empty for no fields |
| Basic.TradeCal | stock/basic/trade_cal.go:71-111 | builds the trade_cal map and the fields argument, then returns Query's outcome passed through the endpoint's error handling |
| Basic.EndpointPassesQueryThrough | stock/basic/stock_basic.go:144-154 | Query's error is returned unchanged; otherwise the merged success goes to the decode; the endpoint's own APIError branch is never taken |

## Left out

- `doRequest` (client.go:369-403): the HTTP POST and the JSON encode and decode are I/O. Each exchange's outcome is the oracle `Env.reply`, either a decoded envelope or a failure.
- Backoff wait durations (exponential with multiplier 2 and randomization 0.1, or constant), the exponential policy's elapsed-time cap and timers: the model keeps only the attempt count and the stop/retry decision.
- Retrying.RetryFrom: stops retrying only when the context is done or maxRetries retries are spent. With `UseBackoff` true, the exponential policy's elapsed-time cap (15 minutes by default in the backoff library, never overridden at client.go:344-349) can end retrying earlier with the last attempt's error. The model leaves that cap out because it depends on wall-clock time, so its exchange counts are upper bounds for that policy.
- `context.Context` deadlines and timeouts: cancellation is an oracle question asked before each page and when a retry is due.
- `Tushare.Client.Query`: takes a page budget; the Go loop has none and can run forever against a server that always says HasMore.
- `QueryOne`, `QueryAsDataFrame`, `QueryWithContext`, `ExecuteWithRetry`, `ExecuteWithRetryNotify` and `notifyRetry`: thin wrappers over the modelled members or over the backoff library, or an empty hook.
- `Response.ToStruct` (types.go:57-64): a JSON reflection decode; the endpoints hand back the response it would decode.
- `fmt.Sprintf("%v")` in `GetString` and `fmt.Sscanf` in `GetFloat64` are parameters (`format`, `scan`). Floating point is exact real arithmetic, so float32 rounding and the range of Go's float-to-int conversion are not modelled.
- `WithHTTPClient` shares the caller's `*http.Client`: a later `WithTimeout` changes that shared client in place. The model copies the client and does not capture the aliasing.
- The `Error()` texts of the errors: errors are a datatype of kinds with their code and message.
- api.go and the stock/market and stock/financial endpoints follow the pattern of the two modelled endpoints; they are not part of this model.
