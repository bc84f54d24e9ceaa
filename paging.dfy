/**
 * The pagination of Client.Query (client.go:201-269) as a specification: the
 * request of each page, the outcome of walking the pages against an Env, and
 * what that outcome is in each way the walk can end.
 */
module Paging {
  import opened Wrappers
  import opened GoInt
  import opened Types
  import opened Config
  import opened Retrying

  /** The arguments of one Query call: API name, the caller's parameters, the fields string. */
  datatype Call = Call(apiName: string, params: map<string, Value>, fields: string)

  /**
   * What Query hands back, plus what it put on the wire: the request of every
   * page it dispatched, in order, and the number of HTTP exchanges in all.
   * Go never returns (nil, nil); here that pair means the walk had not ended
   * after the page budget given to the model.
   */
  datatype QueryOutcome = QueryOutcome(resp: Option<Response>, err: Option<Error>, pages: seq<RequestParams>, exchanges: nat)

  predicate Finished(o: QueryOutcome)
  {
    o.resp.Some? || o.err.Some?
  }

  /** Go's int offset of page k: k times the page size, wrapped to 64 bits. */
  function PageOffset(limit: Int64, k: nat): (off: Int64)
    ensures k == 0 ==> off == 0
    ensures -TwoTo63 <= k * limit < TwoTo63 ==> off == k * limit
  {
    Wrap(k * limit)
  }

  /**
   * Between consecutive pages the offset grows by exactly the page size, with
   * Go's int addition (client.go:255-256).
   */
  lemma PageOffsetStep(limit: Int64, k: nat)
    ensures PageOffset(limit, k + 1) == Wrap(PageOffset(limit, k) + limit)
  {
    WrapAdd(k * limit, limit);
    assert k * limit + limit == (k + 1) * limit;
  }

  /**
   * Offsets can repeat: with the page size math.MinInt64, page 1 starts at
   * that offset and page 2 wraps back to the offset of page 0.
   */
  lemma PageOffsetsRepeat()
    ensures PageOffset(-TwoTo63, 1) == -TwoTo63
    ensures PageOffset(-TwoTo63, 2) == PageOffset(-TwoTo63, 0) == 0
  {
    var r := PageOffset(-TwoTo63, 2);
    assert (-TwoTo64 - r) % TwoTo64 == 0;
  }

  /** The maximum number of retries the policy grants: uint64(conf.Retries) (client.go:349, 353). */
  function MaxRetries(conf: ClientConf): nat
  {
    ToUint64(conf.retries)
  }

  /** The parameters of page k: the caller's, with limit set to the page size and offset to the page's offset. */
  function PageParams(conf: ClientConf, call: Call, k: nat): map<string, Value>
  {
    call.params["limit" := Int(conf.limit)]["offset" := Int(PageOffset(conf.limit, k))]
  }

  /** The request for page k: the caller's API, token and fields, with the parameters of page k. */
  function PageRequest(conf: ClientConf, call: Call, k: nat): RequestParams
  {
    RequestParams(call.apiName, conf.token, PageParams(conf, call, k), call.fields)
  }

  /**
   * Each page asks for the caller's API, token and fields, with the caller's
   * parameters plus limit (the page size) and offset (the page's offset);
   * every other parameter is passed through unchanged (client.go:208-216).
   */
  lemma PageRequestContents(conf: ClientConf, call: Call, k: nat)
    ensures var req := PageRequest(conf, call, k);
      && req.apiName == call.apiName && req.token == conf.token && req.fields == call.fields
      && req.params.Keys == call.params.Keys + {"limit", "offset"}
      && req.params["limit"] == Int(conf.limit)
      && req.params["offset"] == Int(PageOffset(conf.limit, k))
      && (forall key :: key in call.params && key != "limit" && key != "offset" ==>
            req.params[key] == call.params[key])
  {
  }

  /**
   * Consecutive pages differ only in their offset: the next page's parameters
   * are this page's with the offset read back and the page size added in Go's
   * int arithmetic.
   */
  lemma PageRequestsAdvance(conf: ClientConf, call: Call, k: nat)
    ensures var p := PageParams(conf, call, k);
      && "offset" in p && p["offset"].Int?
      && PageParams(conf, call, k + 1) == p["offset" := Int(Wrap(p["offset"].i + conf.limit))]
  {
    PageOffsetStep(conf.limit, k);
  }

  /** postWithRetry as a page fetcher: the retry loop run on one request. */
  function RetryFetch(conf: ClientConf, env: Env): RequestParams -> Fetched
  {
    req => RetryFrom(env, req, MaxRetries(conf), 0)
  }

  /** The fetch of page k. */
  function FetchPage(conf: ClientConf, call: Call, fetch: RequestParams -> Fetched, k: nat): Fetched
  {
    fetch(PageRequest(conf, call, k))
  }

  /** The envelope Query builds from the merged pages (client.go:260-268). */
  function Merged(fields: seq<string>, items: seq<Row>): Response
  {
    Response(CodeOK, "", Some(ResponseData(fields, items, false)))
  }

  /** The outcome `o` preceded by pages already walked. */
  function Prepend(pages: seq<RequestParams>, exchanges: nat, o: QueryOutcome): QueryOutcome
  {
    o.(pages := pages + o.pages, exchanges := exchanges + o.exchanges)
  }

  /**
   * What one page of Query's loop does: end the walk with an outcome, or hand
   * on to the next page its request, its exchanges, the rows gathered so far
   * and the field list of the last data page.
   */
  datatype PageStep =
    | Stop(outcome: QueryOutcome)
    | Next(req: RequestParams, exchanges: nat, items: seq<Row>, fields: seq<string>)

  /**
   * Page k of the loop, with the rows gathered so far and the last data page's
   * field list (client.go:220-252): a done context stops with its error; a
   * failed fetch stops with that error and no response; a non-zero code stops
   * with the response and an APIError; a page without data, or one saying
   * there is no more, ends the walk with the merged envelope; otherwise its
   * rows are appended, its fields replace the field list and the next page
   * follows.
   */
  function Step(conf: ClientConf, call: Call, env: Env, fetch: RequestParams -> Fetched, k: nat,
                items: seq<Row>, fields: seq<string>): PageStep
  {
    if env.cancelledBeforePage(k) then Stop(QueryOutcome(None, Some(ContextError), [], 0))
    else
      var req := PageRequest(conf, call, k);
      var f := FetchPage(conf, call, fetch, k);
      if f.result.Failure? then Stop(QueryOutcome(None, Some(f.result.error), [req], f.exchanges))
      else
        var resp := f.result.value;
        if !resp.IsSuccess() then
          Stop(QueryOutcome(Some(resp), Some(APIError(resp.code, resp.msg)), [req], f.exchanges))
        else if resp.data.None? then
          Stop(QueryOutcome(Some(Merged(fields, items)), None, [req], f.exchanges))
        else if !resp.data.value.hasMore then
          Stop(QueryOutcome(Some(Merged(resp.data.value.fields, items + resp.data.value.items)), None, [req], f.exchanges))
        else
          Next(req, f.exchanges, items + resp.data.value.items, resp.data.value.fields)
  }

  /** The loop of Query from page k on, with at most `fuel` more pages. */
  function Paginate(conf: ClientConf, call: Call, env: Env, fetch: RequestParams -> Fetched, k: nat, fuel: nat,
                    items: seq<Row>, fields: seq<string>): QueryOutcome
    decreases fuel
  {
    if fuel == 0 then QueryOutcome(None, None, [], 0)
    else
      var s := Step(conf, call, env, fetch, k, items, fields);
      if s.Stop? then s.outcome
      else Prepend([s.req], s.exchanges, Paginate(conf, call, env, fetch, k + 1, fuel - 1, s.items, s.fields))
  }

  /** The walk from page 0 with nothing gathered, within `maxPages` pages. */
  function Walk(conf: ClientConf, call: Call, env: Env, fetch: RequestParams -> Fetched, maxPages: nat): QueryOutcome
  {
    Paginate(conf, call, env, fetch, 0, maxPages, [], [])
  }

  /** Query with a budget of `maxPages` pages, each page fetched through postWithRetry. */
  function QuerySpec(conf: ClientConf, call: Call, env: Env, maxPages: nat): QueryOutcome
  {
    Walk(conf, call, env, RetryFetch(conf, env), maxPages)
  }

  /** Page k is fetched and asks for the next: live context, code 0, data present, HasMore. */
  predicate Continues(conf: ClientConf, call: Call, env: Env, fetch: RequestParams -> Fetched, k: nat)
  {
    && !env.cancelledBeforePage(k)
    && var f := FetchPage(conf, call, fetch, k);
    && f.result.Success?
    && f.result.value.code == CodeOK
    && f.result.value.data.Some?
    && f.result.value.data.value.hasMore
  }

  /** The rows page k delivered, if it was fetched with data. */
  function PageItems(conf: ClientConf, call: Call, env: Env, fetch: RequestParams -> Fetched, k: nat): seq<Row>
  {
    var f := FetchPage(conf, call, fetch, k);
    if f.result.Success? && f.result.value.data.Some? then f.result.value.data.value.items else []
  }

  /** The rows of pages 0 .. n-1, concatenated in page order. */
  function ItemsBefore(conf: ClientConf, call: Call, env: Env, fetch: RequestParams -> Fetched, n: nat): seq<Row>
  {
    if n == 0 then [] else ItemsBefore(conf, call, env, fetch, n - 1) + PageItems(conf, call, env, fetch, n - 1)
  }

  /** The field list of the last page among 0 .. n-1 that carried data ([] if none did). */
  function FieldsBefore(conf: ClientConf, call: Call, env: Env, fetch: RequestParams -> Fetched, n: nat): seq<string>
  {
    if n == 0 then []
    else
      var f := FetchPage(conf, call, fetch, n - 1);
      if f.result.Success? && f.result.value.data.Some? then f.result.value.data.value.fields
      else FieldsBefore(conf, call, env, fetch, n - 1)
  }

  /** The requests of pages 0 .. n-1. */
  function PagesBefore(conf: ClientConf, call: Call, n: nat): seq<RequestParams>
  {
    if n == 0 then [] else PagesBefore(conf, call, n - 1) + [PageRequest(conf, call, n - 1)]
  }

  /** The exchanges spent on pages 0 .. n-1. */
  function ExchangesBefore(conf: ClientConf, call: Call, env: Env, fetch: RequestParams -> Fetched, n: nat): nat
  {
    if n == 0 then 0 else ExchangesBefore(conf, call, env, fetch, n - 1) + FetchPage(conf, call, fetch, n - 1).exchanges
  }

  /** One page that asks for more: its request and exchanges, then the walk from the next page. */
  lemma PaginateStep(conf: ClientConf, call: Call, env: Env, fetch: RequestParams -> Fetched, k: nat, fuel: nat, items: seq<Row>, fields: seq<string>)
    requires fuel > 0 && Continues(conf, call, env, fetch, k)
    ensures var d := FetchPage(conf, call, fetch, k).result.value.data.value;
      Paginate(conf, call, env, fetch, k, fuel, items, fields) ==
      Prepend([PageRequest(conf, call, k)], FetchPage(conf, call, fetch, k).exchanges,
              Paginate(conf, call, env, fetch, k + 1, fuel - 1, items + d.items, d.fields))
  {
  }

  /** The last page of a walk: its outcome does not depend on the budget beyond one page. */
  lemma PaginateLast(conf: ClientConf, call: Call, env: Env, fetch: RequestParams -> Fetched, k: nat, fuel: nat, items: seq<Row>, fields: seq<string>)
    requires fuel > 0 && !Continues(conf, call, env, fetch, k)
    ensures var f := FetchPage(conf, call, fetch, k);
      Paginate(conf, call, env, fetch, k, fuel, items, fields) ==
      if env.cancelledBeforePage(k) then QueryOutcome(None, Some(ContextError), [], 0)
      else if f.result.Failure? then QueryOutcome(None, Some(f.result.error), [PageRequest(conf, call, k)], f.exchanges)
      else if f.result.value.code != CodeOK then
        QueryOutcome(Some(f.result.value), Some(APIError(f.result.value.code, f.result.value.msg)),
                     [PageRequest(conf, call, k)], f.exchanges)
      else if f.result.value.data.None? then
        QueryOutcome(Some(Merged(fields, items)), None, [PageRequest(conf, call, k)], f.exchanges)
      else
        QueryOutcome(Some(Merged(f.result.value.data.value.fields, items + f.result.value.data.value.items)), None,
                     [PageRequest(conf, call, k)], f.exchanges)
  {
  }

  /**
   * Whatever the fetcher: the walk dispatches at most `fuel` pages and all of
   * them unless it ended; a response without an error is the merged success
   * envelope (code 0, empty message, data, HasMore false); a response with an
   * error is the server's rejection, an APIError with the same code and message.
   */
  lemma {:induction false} PaginateOutcome(conf: ClientConf, call: Call, env: Env, fetch: RequestParams -> Fetched, k: nat, fuel: nat,
                                           items: seq<Row>, fields: seq<string>)
    ensures var o := Paginate(conf, call, env, fetch, k, fuel, items, fields);
      && |o.pages| <= fuel
      && (!Finished(o) ==> |o.pages| == fuel)
      && (o.resp.Some? && o.err.None? ==>
            o.resp.value.code == CodeOK && o.resp.value.msg == "" &&
            o.resp.value.data.Some? && !o.resp.value.data.value.hasMore)
      && (o.resp.Some? && o.err.Some? ==>
            o.resp.value.code != CodeOK && o.err.value == APIError(o.resp.value.code, o.resp.value.msg))
    decreases fuel
  {
    if fuel > 0 && Continues(conf, call, env, fetch, k) {
      var d := FetchPage(conf, call, fetch, k).result.value.data.value;
      PaginateOutcome(conf, call, env, fetch, k + 1, fuel - 1, items + d.items, d.fields);
    }
  }

  /** The walk from page k dispatches the requests of pages k, k+1, ... in order. */
  lemma {:induction false} PaginatePages(conf: ClientConf, call: Call, env: Env, fetch: RequestParams -> Fetched, k: nat, fuel: nat,
                                         items: seq<Row>, fields: seq<string>, j: nat)
    requires j < |Paginate(conf, call, env, fetch, k, fuel, items, fields).pages|
    ensures Paginate(conf, call, env, fetch, k, fuel, items, fields).pages[j] == PageRequest(conf, call, k + j)
    decreases fuel
  {
    if j > 0 {
      var d := FetchPage(conf, call, fetch, k).result.value.data.value;
      PaginatePages(conf, call, env, fetch, k + 1, fuel - 1, items + d.items, d.fields, j - 1);
    }
  }

  /**
   * With postWithRetry as the fetcher: every dispatched page costs between one
   * exchange and the retry budget plus one; an error comes with a response
   * exactly when it is an APIError; and no response carries the rate-limit code.
   */
  lemma {:induction false} QueryExchangesAndErrors(conf: ClientConf, call: Call, env: Env, k: nat, fuel: nat,
                                                   items: seq<Row>, fields: seq<string>)
    ensures var o := Paginate(conf, call, env, RetryFetch(conf, env), k, fuel, items, fields);
      && |o.pages| <= o.exchanges <= |o.pages| * (MaxRetries(conf) + 1)
      && (o.err.Some? ==> (o.resp.Some? <==> o.err.value.APIError?))
      && (o.resp.Some? && o.err.Some? ==> o.resp.value.code != CodeRateLimitExceeded)
    decreases fuel
  {
    var fetch := RetryFetch(conf, env);
    if fuel > 0 && !env.cancelledBeforePage(k) {
      var f := FetchPage(conf, call, fetch, k);
      assert f == RetryFrom(env, PageRequest(conf, call, k), MaxRetries(conf), 0);
      if Continues(conf, call, env, fetch, k) {
        var d := f.result.value.data.value;
        QueryExchangesAndErrors(conf, call, env, k + 1, fuel - 1, items + d.items, d.fields);
        var rest := Paginate(conf, call, env, fetch, k + 1, fuel - 1, items + d.items, d.fields);
        assert (1 + |rest.pages|) * (MaxRetries(conf) + 1) ==
          (MaxRetries(conf) + 1) + |rest.pages| * (MaxRetries(conf) + 1);
      }
    }
  }

  /** One more page that asked for more: its rows, fields, request and exchanges join the ones before it. */
  lemma BeforeStep(conf: ClientConf, call: Call, env: Env, fetch: RequestParams -> Fetched, m: nat)
    requires Continues(conf, call, env, fetch, m)
    ensures var f := FetchPage(conf, call, fetch, m);
      && ItemsBefore(conf, call, env, fetch, m + 1) == ItemsBefore(conf, call, env, fetch, m) + f.result.value.data.value.items
      && FieldsBefore(conf, call, env, fetch, m + 1) == f.result.value.data.value.fields
      && PagesBefore(conf, call, m + 1) == PagesBefore(conf, call, m) + [PageRequest(conf, call, m)]
      && ExchangesBefore(conf, call, env, fetch, m + 1) == ExchangesBefore(conf, call, env, fetch, m) + f.exchanges
  {
  }

  /**
   * After n pages that each asked for more, Query's outcome is those n page
   * requests and their exchanges followed by the walk from page n with the
   * rows of all n pages, in order, and the fields of page n-1.
   */
  lemma {:induction false} PaginatePrefix(conf: ClientConf, call: Call, env: Env, fetch: RequestParams -> Fetched, fuel: nat, n: nat)
    requires n <= fuel
    requires forall j :: 0 <= j < n ==> Continues(conf, call, env, fetch, j)
    ensures Walk(conf, call, env, fetch, fuel) ==
      Prepend(PagesBefore(conf, call, n), ExchangesBefore(conf, call, env, fetch, n),
              Paginate(conf, call, env, fetch, n, fuel - n, ItemsBefore(conf, call, env, fetch, n), FieldsBefore(conf, call, env, fetch, n)))
    decreases n
  {
    if n == 0 {
      PrefixEmpty(conf, call, env, fetch, fuel);
    } else {
      PaginatePrefix(conf, call, env, fetch, fuel, n - 1);
      PrefixStep(conf, call, env, fetch, fuel, n);
    }
  }

  /** The base case of PaginatePrefix: no pages walked yet. */
  lemma PrefixEmpty(conf: ClientConf, call: Call, env: Env, fetch: RequestParams -> Fetched, fuel: nat)
    ensures Walk(conf, call, env, fetch, fuel) ==
      Prepend(PagesBefore(conf, call, 0), ExchangesBefore(conf, call, env, fetch, 0),
              Paginate(conf, call, env, fetch, 0, fuel - 0, ItemsBefore(conf, call, env, fetch, 0), FieldsBefore(conf, call, env, fetch, 0)))
  {
    var o := Walk(conf, call, env, fetch, fuel);
    assert [] + o.pages == o.pages;
  }

  /** The induction step of PaginatePrefix: page n-1, which asked for more, moves into the prefix. */
  lemma PrefixStep(conf: ClientConf, call: Call, env: Env, fetch: RequestParams -> Fetched, fuel: nat, n: nat)
    requires 0 < n <= fuel && Continues(conf, call, env, fetch, n - 1)
    ensures Prepend(PagesBefore(conf, call, n - 1), ExchangesBefore(conf, call, env, fetch, n - 1),
                    Paginate(conf, call, env, fetch, n - 1, fuel - (n - 1), ItemsBefore(conf, call, env, fetch, n - 1), FieldsBefore(conf, call, env, fetch, n - 1)))
         == Prepend(PagesBefore(conf, call, n), ExchangesBefore(conf, call, env, fetch, n),
                    Paginate(conf, call, env, fetch, n, fuel - n, ItemsBefore(conf, call, env, fetch, n), FieldsBefore(conf, call, env, fetch, n)))
  {
    var m := n - 1;
    var f := FetchPage(conf, call, fetch, m);
    var d := f.result.value.data.value;
    var items, fields := ItemsBefore(conf, call, env, fetch, m), FieldsBefore(conf, call, env, fetch, m);
    var rest := Paginate(conf, call, env, fetch, n, fuel - n, items + d.items, d.fields);
    BeforeStep(conf, call, env, fetch, m);
    PaginateStep(conf, call, env, fetch, m, fuel - m, items, fields);
    PrependPrepend(PagesBefore(conf, call, m), ExchangesBefore(conf, call, env, fetch, m),
                   [PageRequest(conf, call, m)], f.exchanges, rest);
  }

  lemma PrependPrepend(a: seq<RequestParams>, x: nat, b: seq<RequestParams>, y: nat, o: QueryOutcome)
    ensures Prepend(a, x, Prepend(b, y, o)) == Prepend(a + b, x + y, o)
  {
    assert a + (b + o.pages) == (a + b) + o.pages;
  }

  /**
   * A context that is done before page k is dispatched, after k pages that
   * asked for more: Query returns the context's error, no response, and makes
   * no request for page k or after.
   */
  lemma QueryCancelledBeforePage(conf: ClientConf, call: Call, env: Env, fetch: RequestParams -> Fetched, maxPages: nat, k: nat)
    requires k < maxPages
    requires forall j :: 0 <= j < k ==> Continues(conf, call, env, fetch, j)
    requires env.cancelledBeforePage(k)
    ensures Walk(conf, call, env, fetch, maxPages) ==
      QueryOutcome(None, Some(ContextError), PagesBefore(conf, call, k), ExchangesBefore(conf, call, env, fetch, k))
  {
    PaginatePrefix(conf, call, env, fetch, maxPages, k);
  }

  /**
   * All or nothing: when the fetch of page k fails after k pages that asked for
   * more, Query returns no response and exactly that error; the rows of the
   * earlier pages are discarded (client.go:230-233).
   */
  lemma QueryPageErrorDiscardsRows(conf: ClientConf, call: Call, env: Env, fetch: RequestParams -> Fetched, maxPages: nat, k: nat)
    requires k < maxPages
    requires forall j :: 0 <= j < k ==> Continues(conf, call, env, fetch, j)
    requires !env.cancelledBeforePage(k)
    requires FetchPage(conf, call, fetch, k).result.Failure?
    ensures Walk(conf, call, env, fetch, maxPages) ==
      QueryOutcome(None, Some(FetchPage(conf, call, fetch, k).result.error),
                   PagesBefore(conf, call, k + 1), ExchangesBefore(conf, call, env, fetch, k + 1))
  {
    PaginatePrefix(conf, call, env, fetch, maxPages, k);
    assert PagesBefore(conf, call, k + 1) == PagesBefore(conf, call, k) + [PageRequest(conf, call, k)];
  }

  /**
   * A page that comes back with a non-zero code ends the walk with that response and an APIError carrying the same
   * code and message (client.go:235-240).
   */
  lemma QueryRejectedByServer(conf: ClientConf, call: Call, env: Env, fetch: RequestParams -> Fetched, maxPages: nat, k: nat)
    requires k < maxPages
    requires forall j :: 0 <= j < k ==> Continues(conf, call, env, fetch, j)
    requires !env.cancelledBeforePage(k)
    requires FetchPage(conf, call, fetch, k).result.Success?
    requires FetchPage(conf, call, fetch, k).result.value.code != CodeOK
    ensures var resp := FetchPage(conf, call, fetch, k).result.value;
      Walk(conf, call, env, fetch, maxPages) ==
      QueryOutcome(Some(resp), Some(APIError(resp.code, resp.msg)),
                   PagesBefore(conf, call, k + 1), ExchangesBefore(conf, call, env, fetch, k + 1))
  {
    PaginatePrefix(conf, call, env, fetch, maxPages, k);
    assert PagesBefore(conf, call, k + 1) == PagesBefore(conf, call, k) + [PageRequest(conf, call, k)];
  }

  /**
   * The walk ends at the first successful page with no data or HasMore false:
   * Query returns code 0, an empty message, HasMore false, the rows of every
   * page in page order, and the field list of the last page that had data
   * (client.go:242-268).
   */
  lemma QueryMergesAllPages(conf: ClientConf, call: Call, env: Env, fetch: RequestParams -> Fetched, maxPages: nat, k: nat)
    requires k < maxPages
    requires forall j :: 0 <= j < k ==> Continues(conf, call, env, fetch, j)
    requires !env.cancelledBeforePage(k)
    requires FetchPage(conf, call, fetch, k).result.Success?
    requires FetchPage(conf, call, fetch, k).result.value.code == CodeOK
    requires !Continues(conf, call, env, fetch, k)
    ensures Walk(conf, call, env, fetch, maxPages) ==
      QueryOutcome(Some(Merged(FieldsBefore(conf, call, env, fetch, k + 1), ItemsBefore(conf, call, env, fetch, k + 1))), None,
                   PagesBefore(conf, call, k + 1), ExchangesBefore(conf, call, env, fetch, k + 1))
  {
    PaginatePrefix(conf, call, env, fetch, maxPages, k);
    var items := ItemsBefore(conf, call, env, fetch, k);
    var fields := FieldsBefore(conf, call, env, fetch, k);
    PaginateLast(conf, call, env, fetch, k, maxPages - k, items, fields);
    var resp := FetchPage(conf, call, fetch, k).result.value;
    if resp.data.None? {
      assert PageItems(conf, call, env, fetch, k) == [];
      assert ItemsBefore(conf, call, env, fetch, k + 1) == items + [] == items;
      assert FieldsBefore(conf, call, env, fetch, k + 1) == fields;
    } else {
      assert ItemsBefore(conf, call, env, fetch, k + 1) == items + resp.data.value.items;
      assert FieldsBefore(conf, call, env, fetch, k + 1) == resp.data.value.fields;
    }
    assert PagesBefore(conf, call, k + 1) == PagesBefore(conf, call, k) + [PageRequest(conf, call, k)];
  }

  /**
   * The page budget is only a bound: once the walk has ended within a budget,
   * any larger budget gives the same outcome.
   */
  lemma {:induction false} PaginateFuelIrrelevant(conf: ClientConf, call: Call, env: Env, fetch: RequestParams -> Fetched, k: nat,
                                                  fuel: nat, more: nat, items: seq<Row>, fields: seq<string>)
    requires fuel <= more
    requires Finished(Paginate(conf, call, env, fetch, k, fuel, items, fields))
    ensures Paginate(conf, call, env, fetch, k, more, items, fields) == Paginate(conf, call, env, fetch, k, fuel, items, fields)
    decreases fuel
  {
    var f := FetchPage(conf, call, fetch, k);
    if !env.cancelledBeforePage(k) && f.result.Success? && f.result.value.IsSuccess()
       && f.result.value.data.Some? && f.result.value.data.value.hasMore {
      var d := f.result.value.data.value;
      PaginateFuelIrrelevant(conf, call, env, fetch, k + 1, fuel - 1, more - 1, items + d.items, d.fields);
    }
  }
}
