/**
 * The Tushare client (client.go:43-46, 109-169, 201-269, 303-366): a Client
 * object holding its configuration and HTTP client, the constructors that
 * build it, the retrying POST of one request and the paginating Query.
 */
module Tushare {
  import opened Wrappers
  import opened GoInt
  import opened Types
  import opened Config
  import opened Retrying
  import opened Paging

  class Client {
    var conf: ClientConf
    var http: HttpClient

    /**
     * NewClient (client.go:109-133): the package defaults, an HTTP client with
     * the default timeout, then the options in order.
     */
    constructor (token: string, opts: seq<ClientOption>)
      ensures conf == ConfWithAll(DefaultConf(token), opts)
      ensures http == HttpWithAll(HttpClient(DefaultTimeout), opts)
    {
      conf := ClientConf(token, DefaultHTTPURL, DefaultLimit, DefaultRetries,
                         DefaultRetryInterval, DefaultMaxInterval, DefaultTimeout, true);
      http := HttpClient(DefaultTimeout);
      new;
      Configure(opts);
    }

    /**
     * NewClientWithConf (client.go:136-169): an empty endpoint and each
     * non-positive number take the package default, the HTTP client gets the
     * resulting timeout, then the options apply in order.
     */
    constructor WithConf(c: ClientConf, opts: seq<ClientOption>)
      ensures conf == ConfWithAll(WithDefaults(c), opts)
      ensures http == HttpWithAll(HttpClient(WithDefaults(c).timeout), opts)
    {
      var d := c;
      if d.endpoint == "" {
        d := d.(endpoint := DefaultHTTPURL);
      }
      if d.limit <= 0 {
        d := d.(limit := DefaultLimit);
      }
      if d.retries <= 0 {
        d := d.(retries := DefaultRetries);
      }
      if d.interval <= 0 {
        d := d.(interval := DefaultRetryInterval);
      }
      if d.maxInterval <= 0 {
        d := d.(maxInterval := DefaultMaxInterval);
      }
      if d.timeout <= 0 {
        d := d.(timeout := DefaultTimeout);
      }
      conf := d;
      http := HttpClient(d.timeout);
      new;
      Configure(opts);
    }

    /** One functional option applied to the client (client.go:52-106). */
    method Apply(opt: ClientOption)
      modifies this
      ensures conf == ConfWith(old(conf), opt) && http == HttpWith(old(http), opt)
    {
      match opt
      case WithHTTPURL(url) =>
        conf := conf.(endpoint := url);
      case WithTimeout(t) =>
        conf := conf.(timeout := t);
        http := http.(timeout := t);
      case WithHTTPClient(other) =>
        http := other;
      case WithLimit(n) =>
        conf := conf.(limit := n);
      case WithRetries(n) =>
        conf := conf.(retries := n);
      case WithRetryInterval(d) =>
        conf := conf.(interval := d);
      case WithMaxInterval(d) =>
        conf := conf.(maxInterval := d);
      case WithBackoff(b) =>
        conf := conf.(useBackoff := b);
    }

    /** The options loop of both constructors: each option in order. */
    method Configure(opts: seq<ClientOption>)
      modifies this
      ensures conf == ConfWithAll(old(conf), opts) && http == HttpWithAll(old(http), opts)
    {
      for i := 0 to |opts|
        invariant ConfWithAll(conf, opts[i..]) == ConfWithAll(old(conf), opts)
        invariant HttpWithAll(http, opts[i..]) == HttpWithAll(old(http), opts)
      {
        assert opts[i..][1..] == opts[i + 1..];
        Apply(opts[i]);
      }
      assert opts[|opts|..] == [];
    }

    /**
     * postWithRetry (client.go:303-366): attempt after attempt until the
     * operation stops the loop, the context is done or the retries granted by
     * uint64(Retries) are spent. The result is the retry specification's
     * (`RetryFetch` runs `RetryFrom` on the request from attempt 0), and so is
     * the number of exchanges (calls of `env.reply`) the loop makes.
     * Go's postWithRetry returns only the response and the error: the
     * `exchanges` counter is instrumentation of the model, not part of the
     * source's interface.
     */
    method PostWithRetry(apiName: string, params: map<string, Value>, fields: string, env: Env)
      returns (r: Result<Response, Error>, exchanges: nat)
      ensures Fetched(r, exchanges) == RetryFetch(conf, env)(RequestParams(apiName, conf.token, params, fields))
    {
      var req := RequestParams(apiName, conf.token, params, fields);
      var maxRetries := MaxRetries(conf);
      assert RetryFetch(conf, env)(req) == RetryFrom(env, req, maxRetries, 0);
      var attempt := 0;
      exchanges := 0;
      while true
        invariant attempt <= maxRetries && exchanges == attempt
        invariant RetryFrom(env, req, maxRetries, attempt) == RetryFrom(env, req, maxRetries, 0)
        decreases maxRetries - attempt
      {
        var reply := env.reply(req, attempt);
        exchanges := exchanges + 1;
        var err := Operation(reply);
        match err {
          case None =>
            return Success(reply.resp), exchanges;
          case Some(e) =>
            if IsPermanentError(e) {
              return Failure(Unwrap(e)), exchanges;
            }
            if env.cancelledBeforeRetry(req, attempt) {
              return Failure(ContextError), exchanges;
            }
            if attempt == maxRetries {
              return Failure(e), exchanges;
            }
        }
        attempt := attempt + 1;
      }
    }

    /**
     * One turn of Query's loop (client.go:220-252): check the context, post
     * the page's request with retries, then stop on an error, a rejection or
     * the last page, or append the page's rows and carry on. What it does is
     * the pagination specification's `Step` for that page.
     */
    method Page(apiName: string, reqParams: map<string, Value>, fields: string, env: Env,
                ghost call: Call, page: nat, allItems: seq<Row>, respFields: seq<string>)
      returns (step: PageStep)
      requires RequestParams(apiName, conf.token, reqParams, fields) == PageRequest(conf, call, page)
      ensures step == Step(conf, call, env, RetryFetch(conf, env), page, allItems, respFields)
    {
      if env.cancelledBeforePage(page) {
        return Stop(QueryOutcome(None, Some(ContextError), [], 0));
      }
      var req := RequestParams(apiName, conf.token, reqParams, fields);
      var r, n := PostWithRetry(apiName, reqParams, fields, env);
      if r.Failure? {
        return Stop(QueryOutcome(None, Some(r.error), [req], n));
      }
      var rsp := r.value;
      if !rsp.IsSuccess() {
        return Stop(QueryOutcome(Some(rsp), Some(APIError(rsp.code, rsp.msg)), [req], n));
      }
      if rsp.data.None? {
        return Stop(QueryOutcome(Some(Merged(respFields, allItems)), None, [req], n));
      }
      var items := allItems + rsp.data.value.items;
      if !rsp.data.value.hasMore {
        return Stop(QueryOutcome(Some(Merged(rsp.data.value.fields, items)), None, [req], n));
      }
      step := Next(req, n, items, rsp.data.value.fields);
    }

    /**
     * Query (client.go:201-269) within a budget of `maxPages` pages: a copy of
     * the parameters with limit and offset set, one turn of the loop per page,
     * the offset advanced by the page size between pages. Its outcome is the
     * pagination specification's, down to the requests it sends (`sent`) and
     * the HTTP exchanges it makes.
     */
    method Query(apiName: string, params: map<string, Value>, fields: string, env: Env, maxPages: nat)
      returns (resp: Option<Response>, err: Option<Error>, ghost sent: seq<RequestParams>, ghost exchanges: nat)
      ensures QueryOutcome(resp, err, sent, exchanges) == QuerySpec(conf, Call(apiName, params, fields), env, maxPages)
    {
      ghost var call := Call(apiName, params, fields);
      ghost var fetch := RetryFetch(conf, env);
      var newParams := params["limit" := Int(conf.limit)]["offset" := Int(0)];
      var allItems: seq<Row> := [];
      var respFields: seq<string> := [];
      var page: nat := 0;
      sent, exchanges := [], 0;
      ghost var left: nat := maxPages;
      while page < maxPages
        invariant page + left == maxPages
        invariant newParams == PageParams(conf, call, page)
        invariant QuerySpec(conf, call, env, maxPages) ==
          Prepend(sent, exchanges, Paginate(conf, call, env, fetch, page, left, allItems, respFields))
        decreases left
      {
        var step := Page(apiName, newParams, fields, env, call, page, allItems, respFields);
        if step.Stop? {
          resp, err := step.outcome.resp, step.outcome.err;
          sent, exchanges := sent + step.outcome.pages, exchanges + step.outcome.exchanges;
          return;
        }
        PrependPrepend(sent, exchanges, [step.req], step.exchanges,
                       Paginate(conf, call, env, fetch, page + 1, left - 1, step.items, step.fields));
        sent, exchanges := sent + [step.req], exchanges + step.exchanges;
        allItems, respFields := step.items, step.fields;
        PageRequestsAdvance(conf, call, page);
        var offset := newParams["offset"].i;
        newParams := newParams["offset" := Int(Wrap(offset + conf.limit))];
        page, left := page + 1, left - 1;
      }
      assert sent + [] == sent;
      resp, err := None, None;
    }
  }
}
