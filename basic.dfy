/**
 * The stock/basic endpoints StockBasic (stock/basic/stock_basic.go:116-162)
 * and TradeCal (stock/basic/trade_cal.go:71-111): each builds a parameter map
 * from the caller's struct, joins the requested fields with commas, runs
 * Client.Query and passes its error on. The JSON decode into item structs
 * (Response.ToStruct) is not part of this model: a success hands back the
 * merged response that decode would read.
 */
module Basic {
  import opened Wrappers
  import opened Types
  import opened Retrying
  import opened Paging
  import opened Config
  import opened Tushare

  const ListStatusListed: string := "L"
  const TradeCalExchangeSSE: string := "SSE"

  /** StockBasicParams (stock/basic/stock_basic.go:85-93); the typed strings are plain strings. */
  datatype StockBasicParams = StockBasicParams(
    tsCode: string, name: string, exchange: string, market: string,
    isHS: string, listStatus: string, fields: seq<string>)

  /** TradeCalParams (stock/basic/trade_cal.go:53-59). */
  datatype TradeCalParams = TradeCalParams(
    exchange: string, startDate: string, endDate: string, isOpen: string, fields: seq<string>)

  /**
   * What an endpoint hands back: the response its decode would read, an
   * error, or nothing yet because the page budget of the model ran out.
   */
  datatype EndpointOutcome = Decoded(resp: Response) | Failed(error: Error) | Unfinished

  /** strings.Join: the parts with `sep` between consecutive ones. */
  function Join(parts: seq<string>, sep: string): string
    decreases |parts|
  {
    if |parts| == 0 then ""
    else if |parts| == 1 then parts[0]
    else parts[0] + sep + Join(parts[1..], sep)
  }

  /** strings.Split on one separator character: the pieces between separators, at least one. */
  function Split(s: string, sep: char): (parts: seq<string>)
    ensures |parts| >= 1
    decreases |s|
  {
    if |s| == 0 then [""]
    else
      var rest := Split(s[1..], sep);
      if s[0] == sep then [""] + rest
      else [[s[0]] + rest[0]] + rest[1..]
  }

  /** A piece free of the separator glues onto the first piece of what follows. */
  lemma {:induction false} SplitGlue(a: string, t: string, sep: char)
    requires sep !in a
    ensures Split(a + t, sep) == [a + Split(t, sep)[0]] + Split(t, sep)[1..]
    decreases |a|
  {
    if |a| > 0 {
      assert (a + t)[1..] == a[1..] + t;
      SplitGlue(a[1..], t, sep);
      assert [a[0]] + (a[1..] + Split(t, sep)[0]) == a + Split(t, sep)[0];
    } else {
      assert a + t == t;
      assert a + Split(t, sep)[0] == Split(t, sep)[0];
      assert [Split(t, sep)[0]] + Split(t, sep)[1..] == Split(t, sep);
    }
  }

  /**
   * Joining with "," can be undone by splitting on ',' when no field name
   * contains a comma and the list is not empty ([] and [""] both join to "").
   */
  lemma {:induction false} SplitJoin(parts: seq<string>)
    requires |parts| >= 1
    requires forall i :: 0 <= i < |parts| ==> ',' !in parts[i]
    ensures Split(Join(parts, ","), ',') == parts
    decreases |parts|
  {
    if |parts| == 1 {
      SplitGlue(parts[0], "", ',');
      assert parts[0] + "" == parts[0];
    } else {
      var tail := Join(parts[1..], ",");
      SplitJoin(parts[1..]);
      assert Join(parts, ",") == parts[0] + ("," + tail);
      SplitGlue(parts[0], "," + tail, ',');
      assert ("," + tail)[1..] == tail;
      assert Split("," + tail, ',') == [""] + parts[1..];
      assert parts[0] + "" == parts[0];
      assert parts == [parts[0]] + parts[1..];
    }
  }

  /** The fields argument both endpoints pass: "" for no fields, else the comma-join. */
  function FieldsArg(fields: seq<string>): (s: string)
    ensures |fields| == 0 ==> s == ""
  {
    if |fields| > 0 then Join(fields, ",") else ""
  }

  /**
   * The map an endpoint builds from its table of (key, value) pairs: the pairs
   * taken in order, each stored as a string when its value is non-empty.
   */
  function MapOf(pairs: seq<(string, string)>): map<string, Value>
    decreases |pairs|
  {
    if |pairs| == 0 then map[]
    else
      var m := MapOf(pairs[..|pairs| - 1]);
      var last := pairs[|pairs| - 1];
      if last.1 != "" then m[last.0 := String(last.1)] else m
  }

  /** The map of the first n pairs is that of the first n-1, then pair n-1. */
  lemma MapOfPrefix(pairs: seq<(string, string)>, n: nat)
    requires 0 < n <= |pairs|
    ensures var m := MapOf(pairs[..n - 1]);
      MapOf(pairs[..n]) == if pairs[n - 1].1 != "" then m[pairs[n - 1].0 := String(pairs[n - 1].1)] else m
  {
    assert pairs[..n][..n - 1] == pairs[..n - 1];
  }

  /** No key appears twice in the table. */
  predicate DistinctKeys(pairs: seq<(string, string)>)
  {
    forall i, j :: 0 <= i < j < |pairs| ==> pairs[i].0 != pairs[j].0
  }

  /**
   * With distinct keys, the map holds the key of pair i exactly when that
   * pair's value is non-empty, and then maps it to that value.
   */
  lemma {:induction false} MapOfLookup(pairs: seq<(string, string)>, i: nat)
    requires DistinctKeys(pairs) && i < |pairs|
    ensures pairs[i].0 in MapOf(pairs) <==> pairs[i].1 != ""
    ensures pairs[i].0 in MapOf(pairs) ==> MapOf(pairs)[pairs[i].0] == String(pairs[i].1)
    decreases |pairs|
  {
    var init := pairs[..|pairs| - 1];
    if i < |pairs| - 1 {
      assert DistinctKeys(init) by {
        forall a, b | 0 <= a < b < |init|
          ensures init[a].0 != init[b].0
        {
          assert init[a] == pairs[a] && init[b] == pairs[b];
        }
      }
      assert init[i] == pairs[i];
      MapOfLookup(init, i);
      assert pairs[i].0 != pairs[|pairs| - 1].0;
    } else {
      assert i == |pairs| - 1;
      if pairs[i].1 == "" {
        MapOfKeys(init);
        forall j | 0 <= j < |init|
          ensures init[j].0 != pairs[i].0
        {
          assert init[j] == pairs[j];
        }
      }
    }
  }

  /** The map holds no key beyond the table's. */
  lemma {:induction false} MapOfKeys(pairs: seq<(string, string)>)
    ensures forall key :: key in MapOf(pairs) ==> exists j :: 0 <= j < |pairs| && pairs[j].0 == key
    decreases |pairs|
  {
    if |pairs| > 0 {
      var init := pairs[..|pairs| - 1];
      MapOfKeys(init);
      forall key | key in MapOf(pairs)
        ensures exists j :: 0 <= j < |pairs| && pairs[j].0 == key
      {
        if key in MapOf(init) {
          var j :| 0 <= j < |init| && init[j].0 == key;
          assert pairs[j] == init[j];
        } else {
          assert pairs[|pairs| - 1].0 == key;
        }
      }
    }
  }

  /** The stock_basic table (stock/basic/stock_basic.go:117-137): list_status defaults to "L". */
  function StockBasicPairs(p: StockBasicParams): seq<(string, string)>
  {
    [("ts_code", p.tsCode), ("name", p.name), ("exchange", p.exchange), ("market", p.market),
     ("is_hs", p.isHS), ("list_status", if p.listStatus != "" then p.listStatus else ListStatusListed)]
  }

  /** The trade_cal table (stock/basic/trade_cal.go:72-86): exchange defaults to "SSE". */
  function TradeCalPairs(p: TradeCalParams): seq<(string, string)>
  {
    [("exchange", if p.exchange != "" then p.exchange else TradeCalExchangeSSE),
     ("start_date", p.startDate), ("end_date", p.endDate), ("is_open", p.isOpen)]
  }

  /**
   * The stock_basic map holds ts_code, name, exchange, market and is_hs exactly
   * when the caller gave a non-empty value, and then that value; list_status
   * always, holding the caller's value or "L"; and no other key.
   */
  lemma StockBasicParamMapContents(p: StockBasicParams)
    ensures var m := MapOf(StockBasicPairs(p));
      && ("ts_code" in m <==> p.tsCode != "") && ("ts_code" in m ==> m["ts_code"] == String(p.tsCode))
      && ("name" in m <==> p.name != "") && ("name" in m ==> m["name"] == String(p.name))
      && ("exchange" in m <==> p.exchange != "") && ("exchange" in m ==> m["exchange"] == String(p.exchange))
      && ("market" in m <==> p.market != "") && ("market" in m ==> m["market"] == String(p.market))
      && ("is_hs" in m <==> p.isHS != "") && ("is_hs" in m ==> m["is_hs"] == String(p.isHS))
      && "list_status" in m
      && m["list_status"] == String(if p.listStatus != "" then p.listStatus else "L")
      && m.Keys <= {"ts_code", "name", "exchange", "market", "is_hs", "list_status"}
  {
    var pairs := StockBasicPairs(p);
    assert DistinctKeys(pairs);
    MapOfLookup(pairs, 0);
    MapOfLookup(pairs, 1);
    MapOfLookup(pairs, 2);
    MapOfLookup(pairs, 3);
    MapOfLookup(pairs, 4);
    MapOfLookup(pairs, 5);
    MapOfKeys(pairs);
  }

  /**
   * The trade_cal map always holds exchange, with the caller's value or "SSE";
   * start_date, end_date and is_open exactly when the caller gave a non-empty
   * value, and then that value; and no other key.
   */
  lemma TradeCalParamMapContents(p: TradeCalParams)
    ensures var m := MapOf(TradeCalPairs(p));
      && "exchange" in m
      && m["exchange"] == String(if p.exchange != "" then p.exchange else "SSE")
      && ("start_date" in m <==> p.startDate != "") && ("start_date" in m ==> m["start_date"] == String(p.startDate))
      && ("end_date" in m <==> p.endDate != "") && ("end_date" in m ==> m["end_date"] == String(p.endDate))
      && ("is_open" in m <==> p.isOpen != "") && ("is_open" in m ==> m["is_open"] == String(p.isOpen))
      && m.Keys <= {"exchange", "start_date", "end_date", "is_open"}
  {
    var pairs := TradeCalPairs(p);
    assert DistinctKeys(pairs);
    MapOfLookup(pairs, 0);
    MapOfLookup(pairs, 1);
    MapOfLookup(pairs, 2);
    MapOfLookup(pairs, 3);
    MapOfKeys(pairs);
  }

  /**
   * The requested fields come back out of the fields argument by splitting on
   * ',' when there is at least one and none contains a comma.
   */
  lemma FieldsArgSplits(fields: seq<string>)
    requires |fields| >= 1
    requires forall i :: 0 <= i < |fields| ==> ',' !in fields[i]
    ensures Split(FieldsArg(fields), ',') == fields
  {
    SplitJoin(fields);
  }

  /**
   * The tail both endpoints share after Query: an error goes back unchanged;
   * a response that is not a success becomes an APIError with its code and
   * message; a success goes on to the decode.
   */
  function EndpointResult(resp: Option<Response>, err: Option<Error>): EndpointOutcome
  {
    if err.Some? then Failed(err.value)
    else match resp
      case None => Unfinished
      case Some(r) => if !r.IsSuccess() then Failed(APIError(r.code, r.msg)) else Decoded(r)
  }

  /**
   * The arguments StockBasic hands to Query: the parameter map built key by
   * key (ts_code, name, exchange, market and is_hs when non-empty,
   * list_status with "L" as default) and the requested fields joined by commas.
   */
  method StockBasicArgs(p: StockBasicParams) returns (reqParams: map<string, Value>, fields: string)
    ensures reqParams == MapOf(StockBasicPairs(p)) && fields == FieldsArg(p.fields)
  {
    ghost var table := StockBasicPairs(p);
    reqParams := map[];
    assert reqParams == MapOf(table[..0]);
    if p.tsCode != "" {
      reqParams := reqParams["ts_code" := String(p.tsCode)];
    }
    MapOfPrefix(table, 1);
    if p.name != "" {
      reqParams := reqParams["name" := String(p.name)];
    }
    MapOfPrefix(table, 2);
    if p.exchange != "" {
      reqParams := reqParams["exchange" := String(p.exchange)];
    }
    MapOfPrefix(table, 3);
    if p.market != "" {
      reqParams := reqParams["market" := String(p.market)];
    }
    MapOfPrefix(table, 4);
    if p.isHS != "" {
      reqParams := reqParams["is_hs" := String(p.isHS)];
    }
    MapOfPrefix(table, 5);
    if p.listStatus != "" {
      reqParams := reqParams["list_status" := String(p.listStatus)];
    } else {
      reqParams := reqParams["list_status" := String(ListStatusListed)];
    }
    MapOfPrefix(table, 6);
    assert table[..6] == table;

    fields := "";
    if |p.fields| > 0 {
      fields := Join(p.fields, ",");
    }
  }

  /** StockBasic against a budget of `maxPages` pages. */
  method StockBasic(c: Client, p: StockBasicParams, env: Env, maxPages: nat) returns (out: EndpointOutcome)
    ensures var o := QuerySpec(c.conf, Call("stock_basic", MapOf(StockBasicPairs(p)), FieldsArg(p.fields)), env, maxPages);
      out == EndpointResult(o.resp, o.err)
  {
    var reqParams, fields := StockBasicArgs(p);
    var resp, err, sent, exchanges := c.Query("stock_basic", reqParams, fields, env, maxPages);
    out := EndpointResult(resp, err);
  }

  /**
   * The arguments TradeCal hands to Query: the parameter map built key by key
   * (exchange with "SSE" as default, start_date, end_date and is_open when
   * non-empty) and the requested fields joined by commas.
   */
  method TradeCalArgs(p: TradeCalParams) returns (reqParams: map<string, Value>, fields: string)
    ensures reqParams == MapOf(TradeCalPairs(p)) && fields == FieldsArg(p.fields)
  {
    ghost var table := TradeCalPairs(p);
    reqParams := map[];
    assert reqParams == MapOf(table[..0]);
    if p.exchange != "" {
      reqParams := reqParams["exchange" := String(p.exchange)];
    } else {
      reqParams := reqParams["exchange" := String(TradeCalExchangeSSE)];
    }
    MapOfPrefix(table, 1);
    if p.startDate != "" {
      reqParams := reqParams["start_date" := String(p.startDate)];
    }
    MapOfPrefix(table, 2);
    if p.endDate != "" {
      reqParams := reqParams["end_date" := String(p.endDate)];
    }
    MapOfPrefix(table, 3);
    if p.isOpen != "" {
      reqParams := reqParams["is_open" := String(p.isOpen)];
    }
    MapOfPrefix(table, 4);
    assert table[..4] == table;

    fields := "";
    if |p.fields| > 0 {
      fields := Join(p.fields, ",");
    }
  }

  /** TradeCal against a budget of `maxPages` pages. */
  method TradeCal(c: Client, p: TradeCalParams, env: Env, maxPages: nat) returns (out: EndpointOutcome)
    ensures var o := QuerySpec(c.conf, Call("trade_cal", MapOf(TradeCalPairs(p)), FieldsArg(p.fields)), env, maxPages);
      out == EndpointResult(o.resp, o.err)
  {
    var reqParams, fields := TradeCalArgs(p);
    var resp, err, sent, exchanges := c.Query("trade_cal", reqParams, fields, env, maxPages);
    out := EndpointResult(resp, err);
  }

  /**
   * What both endpoints return, given Query's outcome: Query's error unchanged;
   * otherwise the merged success (code 0, HasMore false) for the decode. The
   * endpoints' own APIError branch (stock/basic/stock_basic.go:149-154,
   * stock/basic/trade_cal.go:98-103) is never taken, because Query returns a
   * response that is not a success only together with an error.
   */
  lemma {:induction false} EndpointPassesQueryThrough(conf: ClientConf, call: Call, env: Env, maxPages: nat)
    ensures var o := QuerySpec(conf, call, env, maxPages);
      && (o.err.Some? ==> EndpointResult(o.resp, o.err) == Failed(o.err.value))
      && (o.err.None? && o.resp.None? ==> EndpointResult(o.resp, o.err) == Unfinished)
      && (o.err.None? && o.resp.Some? ==> EndpointResult(o.resp, o.err) == Decoded(o.resp.value))
      && (EndpointResult(o.resp, o.err).Decoded? ==>
            var r := EndpointResult(o.resp, o.err).resp;
            r.code == CodeOK && r.data.Some? && !r.data.value.hasMore)
  {
    PaginateOutcome(conf, call, env, RetryFetch(conf, env), 0, maxPages, [], []);
  }
}
