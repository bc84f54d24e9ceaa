/**
 * Client configuration (client.go:16-169, 423-470): the package defaults, the
 * functional options, the defaulting rule of NewClientWithConf and the
 * RetryConfig presets. Durations are Go `time.Duration` values in nanoseconds.
 */
module Config {
  import opened GoInt

  const DefaultHTTPURL: string := "https://api.tushare.pro"
  const Millisecond: Int64 := 1_000_000
  const Second: Int64 := 1_000_000_000
  const DefaultTimeout: Int64 := 30 * Second
  const DefaultLimit: Int64 := 5000
  const DefaultRetries: Int64 := 3
  const DefaultRetryInterval: Int64 := Second
  const DefaultMaxInterval: Int64 := 30 * Second

  datatype ClientConf = ClientConf(
    token: string,
    endpoint: string,
    limit: Int64,        // page size
    retries: Int64,      // retries after the first attempt
    interval: Int64,     // initial wait between attempts
    maxInterval: Int64,  // largest wait between attempts
    timeout: Int64,      // HTTP timeout
    useBackoff: bool)    // exponential (true) or constant (false) waits

  /** The part of Go's *http.Client the client configures: its timeout. */
  datatype HttpClient = HttpClient(timeout: Int64)

  /** The functional options of client.go:52-106, one constructor each. */
  datatype ClientOption =
    | WithHTTPURL(url: string)
    | WithTimeout(timeout: Int64)
    | WithHTTPClient(client: HttpClient)
    | WithLimit(limit: Int64)
    | WithRetries(retries: Int64)
    | WithRetryInterval(interval: Int64)
    | WithMaxInterval(maxInterval: Int64)
    | WithBackoff(useBackoff: bool)

  /** The configuration NewClient starts from (client.go:110-119). */
  function DefaultConf(token: string): (c: ClientConf)
    ensures c.token == token && c.endpoint == DefaultHTTPURL
    ensures c.limit == 5000 && c.retries == 3 && c.useBackoff
    ensures c.interval == 1_000_000_000 && c.maxInterval == c.timeout == 30_000_000_000
  {
    ClientConf(token, DefaultHTTPURL, DefaultLimit, DefaultRetries,
               DefaultRetryInterval, DefaultMaxInterval, DefaultTimeout, true)
  }

  /** What one option does to the configuration. */
  function ConfWith(c: ClientConf, opt: ClientOption): ClientConf
  {
    match opt
    case WithHTTPURL(url) => c.(endpoint := url)
    case WithTimeout(t) => c.(timeout := t)
    case WithHTTPClient(_) => c
    case WithLimit(n) => c.(limit := n)
    case WithRetries(n) => c.(retries := n)
    case WithRetryInterval(d) => c.(interval := d)
    case WithMaxInterval(d) => c.(maxInterval := d)
    case WithBackoff(b) => c.(useBackoff := b)
  }

  /** What one option does to the HTTP client: only WithTimeout and WithHTTPClient touch it. */
  function HttpWith(h: HttpClient, opt: ClientOption): HttpClient
  {
    match opt
    case WithTimeout(t) => h.(timeout := t)
    case WithHTTPClient(other) => other
    case _ => h
  }

  /** The options applied in order. */
  function ConfWithAll(c: ClientConf, opts: seq<ClientOption>): ClientConf
    decreases |opts|
  {
    if opts == [] then c else ConfWithAll(ConfWith(c, opts[0]), opts[1..])
  }

  function HttpWithAll(h: HttpClient, opts: seq<ClientOption>): HttpClient
    decreases |opts|
  {
    if opts == [] then h else HttpWithAll(HttpWith(h, opts[0]), opts[1..])
  }

  /** Applying a + b is applying a, then b. */
  lemma {:induction false} ConfWithAllAppend(c: ClientConf, a: seq<ClientOption>, b: seq<ClientOption>)
    ensures ConfWithAll(c, a + b) == ConfWithAll(ConfWithAll(c, a), b)
    decreases |a|
  {
    if a == [] {
      assert a + b == b;
    } else {
      assert (a + b)[1..] == a[1..] + b;
      ConfWithAllAppend(ConfWith(c, a[0]), a[1..], b);
    }
  }

  /** No option changes the token. */
  lemma {:induction false} OptionsKeepToken(c: ClientConf, opts: seq<ClientOption>)
    ensures ConfWithAll(c, opts).token == c.token
    decreases |opts|
  {
    if opts != [] {
      OptionsKeepToken(ConfWith(c, opts[0]), opts[1..]);
    }
  }

  /** Options without a WithLimit leave the page size as it was. */
  lemma {:induction false} NoLimitKeeps(c: ClientConf, opts: seq<ClientOption>)
    requires forall i :: 0 <= i < |opts| ==> !opts[i].WithLimit?
    ensures ConfWithAll(c, opts).limit == c.limit
    decreases |opts|
  {
    if opts != [] {
      assert forall i :: 0 <= i < |opts| - 1 ==> opts[1..][i] == opts[i + 1];
      NoLimitKeeps(ConfWith(c, opts[0]), opts[1..]);
    }
  }

  /** A WithLimit at index i with none after it sets the page size in force. */
  lemma {:induction false} LastLimitAt(c: ClientConf, opts: seq<ClientOption>, i: nat)
    requires i < |opts| && opts[i].WithLimit?
    requires forall k :: i < k < |opts| ==> !opts[k].WithLimit?
    ensures ConfWithAll(c, opts).limit == opts[i].limit
    decreases |opts|
  {
    assert forall k :: 0 <= k < |opts| - 1 ==> opts[1..][k] == opts[k + 1];
    if i > 0 {
      LastLimitAt(ConfWith(c, opts[0]), opts[1..], i - 1);
    } else {
      NoLimitKeeps(ConfWith(c, opts[0]), opts[1..]);
    }
  }

  /**
   * Later options win: the page size in force is the one of the last
   * WithLimit, and the starting one when there is none.
   */
  lemma LastLimitWins(c: ClientConf, opts: seq<ClientOption>)
    ensures (forall i :: 0 <= i < |opts| ==> !opts[i].WithLimit?) ==> ConfWithAll(c, opts).limit == c.limit
    ensures forall i :: (0 <= i < |opts| && opts[i].WithLimit? &&
      (forall k :: i < k < |opts| ==> !opts[k].WithLimit?)) ==> ConfWithAll(c, opts).limit == opts[i].limit
  {
    if forall i :: 0 <= i < |opts| ==> !opts[i].WithLimit? {
      NoLimitKeeps(c, opts);
    }
    forall i | 0 <= i < |opts| && opts[i].WithLimit? && (forall k :: i < k < |opts| ==> !opts[k].WithLimit?)
      ensures ConfWithAll(c, opts).limit == opts[i].limit
    {
      LastLimitAt(c, opts, i);
    }
  }

  /** Options without a WithRetries leave the retry count as it was. */
  lemma {:induction false} NoRetriesKeeps(c: ClientConf, opts: seq<ClientOption>)
    requires forall i :: 0 <= i < |opts| ==> !opts[i].WithRetries?
    ensures ConfWithAll(c, opts).retries == c.retries
    decreases |opts|
  {
    if opts != [] {
      assert forall i :: 0 <= i < |opts| - 1 ==> opts[1..][i] == opts[i + 1];
      NoRetriesKeeps(ConfWith(c, opts[0]), opts[1..]);
    }
  }

  /** A WithRetries at index i with none after it sets the retry count in force. */
  lemma {:induction false} LastRetriesAt(c: ClientConf, opts: seq<ClientOption>, i: nat)
    requires i < |opts| && opts[i].WithRetries?
    requires forall k :: i < k < |opts| ==> !opts[k].WithRetries?
    ensures ConfWithAll(c, opts).retries == opts[i].retries
    decreases |opts|
  {
    assert forall k :: 0 <= k < |opts| - 1 ==> opts[1..][k] == opts[k + 1];
    if i > 0 {
      LastRetriesAt(ConfWith(c, opts[0]), opts[1..], i - 1);
    } else {
      NoRetriesKeeps(ConfWith(c, opts[0]), opts[1..]);
    }
  }

  /** Likewise for the retry count: the last WithRetries wins. */
  lemma LastRetriesWins(c: ClientConf, opts: seq<ClientOption>)
    ensures (forall i :: 0 <= i < |opts| ==> !opts[i].WithRetries?) ==> ConfWithAll(c, opts).retries == c.retries
    ensures forall i :: (0 <= i < |opts| && opts[i].WithRetries? &&
      (forall k :: i < k < |opts| ==> !opts[k].WithRetries?)) ==> ConfWithAll(c, opts).retries == opts[i].retries
  {
    if forall i :: 0 <= i < |opts| ==> !opts[i].WithRetries? {
      NoRetriesKeeps(c, opts);
    }
    forall i | 0 <= i < |opts| && opts[i].WithRetries? && (forall k :: i < k < |opts| ==> !opts[k].WithRetries?)
      ensures ConfWithAll(c, opts).retries == opts[i].retries
    {
      LastRetriesAt(c, opts, i);
    }
  }

  /** `d` unless it is zero or negative, then the default. */
  function Positive(d: Int64, default: Int64): Int64
  {
    if d <= 0 then default else d
  }

  /**
   * The defaulting of NewClientWithConf (client.go:137-155): an empty endpoint
   * and every non-positive number are replaced by the package default; the
   * token, UseBackoff and every positive number are kept.
   */
  function WithDefaults(c: ClientConf): (r: ClientConf)
    ensures r.token == c.token && r.useBackoff == c.useBackoff
    ensures r.endpoint == (if c.endpoint == "" then DefaultHTTPURL else c.endpoint)
    ensures r.limit > 0 && (c.limit > 0 ==> r.limit == c.limit) && (c.limit <= 0 ==> r.limit == DefaultLimit)
    ensures r.retries > 0 && (c.retries > 0 ==> r.retries == c.retries) && (c.retries <= 0 ==> r.retries == DefaultRetries)
    ensures r.interval > 0 && (c.interval > 0 ==> r.interval == c.interval) && (c.interval <= 0 ==> r.interval == DefaultRetryInterval)
    ensures r.maxInterval > 0 && (c.maxInterval > 0 ==> r.maxInterval == c.maxInterval) && (c.maxInterval <= 0 ==> r.maxInterval == DefaultMaxInterval)
    ensures r.timeout > 0 && (c.timeout > 0 ==> r.timeout == c.timeout) && (c.timeout <= 0 ==> r.timeout == DefaultTimeout)
    ensures r.endpoint != ""
  {
    ClientConf(
      c.token,
      if c.endpoint == "" then DefaultHTTPURL else c.endpoint,
      Positive(c.limit, DefaultLimit),
      Positive(c.retries, DefaultRetries),
      Positive(c.interval, DefaultRetryInterval),
      Positive(c.maxInterval, DefaultMaxInterval),
      Positive(c.timeout, DefaultTimeout),
      c.useBackoff)
  }

  /** Defaulting twice changes nothing more. */
  lemma WithDefaultsIdempotent(c: ClientConf)
    ensures WithDefaults(WithDefaults(c)) == WithDefaults(c)
  {
  }

  /** The retry presets of client.go:423-456. */
  datatype RetryConfig = RetryConfig(maxRetries: Int64, initialDelay: Int64, maxDelay: Int64, useBackoff: bool)

  function DefaultRetryConfig(): (r: RetryConfig)
    ensures r == RetryConfig(3, 1_000_000_000, 30_000_000_000, true)
  {
    RetryConfig(DefaultRetries, DefaultRetryInterval, DefaultMaxInterval, true)
  }

  /** Only MaxRetries is set; every other field is Go's zero value. */
  function NoRetryConfig(): (r: RetryConfig)
    ensures r.maxRetries == 0 && r.initialDelay == 0 && r.maxDelay == 0 && !r.useBackoff
  {
    RetryConfig(0, 0, 0, false)
  }

  function AggressiveRetryConfig(): (r: RetryConfig)
    ensures r == RetryConfig(10, 100_000_000, 60_000_000_000, true)
  {
    RetryConfig(10, 100 * Millisecond, 60 * Second, true)
  }

  /** A configuration with the package defaults and the retry fields of `retry` (client.go:459-470). */
  function ClientConfWithRetry(token: string, retry: RetryConfig): (c: ClientConf)
    ensures c.token == token && c.endpoint == DefaultHTTPURL
    ensures c.limit == DefaultLimit && c.timeout == DefaultTimeout
    ensures c.retries == retry.maxRetries && c.interval == retry.initialDelay
    ensures c.maxInterval == retry.maxDelay && c.useBackoff == retry.useBackoff
  {
    ClientConf(token, DefaultHTTPURL, DefaultLimit, retry.maxRetries, retry.initialDelay,
               retry.maxDelay, DefaultTimeout, retry.useBackoff)
  }

  /**
   * NoRetryConfig does not disable retries once it goes through
   * NewClientWithConf: its zero MaxRetries becomes the default 3, and its zero
   * delays become the default 1s and 30s.
   */
  lemma NoRetryConfigStillRetries(token: string)
    ensures var c := WithDefaults(ClientConfWithRetry(token, NoRetryConfig()));
      c.retries == 3 && c.interval == Second && c.maxInterval == DefaultMaxInterval && !c.useBackoff
  {
  }
}
