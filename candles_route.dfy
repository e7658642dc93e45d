/** The candles API route: kline pagination over three exchange endpoints, each
    request wrapped in a retry loop, and the POST handler around it. The network is
    an oracle: the outcome of the n-th fetch made during one pagination. */
module CandlesRoute {
  import opened Common
  import opened TradingTypes

  const Endpoints: seq<string> := ["https://fapi.binance.com", "https://fapi1.binance.com", "https://fapi2.binance.com"]
  /** Candles asked for per request. */
  const Limit := 1500
  /** Pagination stops once this many candles are collected. */
  const MaxCandles := 20000
  /** Attempts per endpoint and page. */
  const Retries := 2
  const AllRetriesFailed := "All retry attempts failed"
  const AllEndpointsFailed := "Failed to fetch from all endpoints"
  const MissingParameters := "Missing required parameters"
  const FetchFailed := "Failed to fetch candles"

  /** One kline array as the exchange sends it, position by position (0 open time,
      1-5 open, high, low, close, volume, 6 close time, 7 quote volume, 8 trade count,
      9-10 taker buy base and quote volume); the decimal strings are taken as parsed. */
  datatype Kline = Kline(
    openTime: int, open: real, high: real, low: real, close: real, volume: real,
    closeTime: int, quoteVolume: real, trades: int, takerBuyBaseVolume: real, takerBuyQuoteVolume: real)

  /** The parsed JSON body: `null`, an array of klines, or anything on which the
      conversion throws (invalid JSON, an object). */
  datatype Body = Null | Klines(klines: seq<Kline>) | Malformed

  datatype Response = Response(status: int, body: Body)

  /** `response.ok`: a 2xx status. */
  predicate Ok(r: Response) {
    200 <= r.status <= 299
  }

  /** What one `fetch` does: answer with a response of any status, or throw. */
  datatype Attempt = Responded(resp: Response) | Threw(error: string)

  /** The query one kline URL encodes. */
  datatype Request = Request(baseUrl: string, symbol: string, interval: string, startTime: int, endTime: int, limit: int)

  /** The network: the outcome of the n-th fetch of a pagination, by request. */
  type Network = (Request, nat) -> Attempt

  // ---------------------------------------------------------------------------
  // Klines to candles

  /** The candle made from a kline: every position lands in its field. */
  function ToCandle(k: Kline): (c: Candle)
    ensures c.quoteVolume.Some? && c.trades.Some? && c.takerBuyBaseVolume.Some? && c.takerBuyQuoteVolume.Some?
  {
    Candle(k.openTime, k.open, k.high, k.low, k.close, k.volume, k.closeTime,
           Some(k.quoteVolume), Some(k.trades), Some(k.takerBuyBaseVolume), Some(k.takerBuyQuoteVolume))
  }

  /** The kline a fully populated candle came from: the conversion loses nothing. */
  function KlineOf(c: Candle): (k: Kline)
    requires c.quoteVolume.Some? && c.trades.Some? && c.takerBuyBaseVolume.Some? && c.takerBuyQuoteVolume.Some?
    ensures ToCandle(k) == c
  {
    Kline(c.openTime, c.open, c.high, c.low, c.close, c.volume, c.closeTime,
          c.quoteVolume.value, c.trades.value, c.takerBuyBaseVolume.value, c.takerBuyQuoteVolume.value)
  }

  /** `data.map(...)`: one candle per kline, in order. */
  function ToCandles(ks: seq<Kline>): (cs: seq<Candle>)
    ensures |cs| == |ks|
    ensures forall j :: 0 <= j < |ks| ==> cs[j] == ToCandle(ks[j]) && KlineOf(cs[j]) == ks[j]
  {
    seq(|ks|, j requires 0 <= j < |ks| => ToCandle(ks[j]))
  }

  // ---------------------------------------------------------------------------
  // fetchWithRetry

  /** The result of `fetchWithRetry`, with the number of fetches it made. */
  datatype Fetched = Got(resp: Response, attempts: nat) | Failed(error: string, attempts: nat)

  /** `fetchWithRetry` from attempt `i` on: any response, whatever its status, is
      returned at once, a throw on the last allowed attempt is rethrown, and every
      other throw leads to the next attempt. */
  function RetryFrom(net: Network, req: Request, calls: nat, retries: int, i: nat): (r: Fetched)
    decreases retries - i
    ensures retries > i ==> i < r.attempts <= retries
  {
    if retries <= i then Failed(AllRetriesFailed, i)
    else match net(req, calls + i)
      case Responded(resp) => Got(resp, i + 1)
      case Threw(e) => if i == retries - 1 then Failed(e, i + 1) else RetryFrom(net, req, calls, retries, i + 1)
  }

  /** From attempt `i` on, the retry loop returns the first response among the
      remaining attempts, after throws only; when every remaining attempt throws, it
      rethrows the error of the last one; and only when no attempt is left does it
      end with 'All retry attempts failed'. */
  lemma {:induction false} RetryFromMeaning(net: Network, req: Request, calls: nat, retries: int, i: nat)
    ensures var r := RetryFrom(net, req, calls, retries, i);
      (r.Got? <==> exists n: nat :: calls + i <= n < calls + retries && net(req, n).Responded?) &&
      (r.Got? ==> net(req, calls + r.attempts - 1) == Responded(r.resp) &&
                  forall n: nat :: calls + i <= n < calls + r.attempts - 1 ==> net(req, n).Threw?) &&
      (r.Failed? && retries > i ==>
         r.attempts == retries && (forall n: nat :: calls + i <= n < calls + retries ==> net(req, n).Threw?) &&
         net(req, calls + retries - 1) == Threw(r.error)) &&
      (retries <= i ==> r == Failed(AllRetriesFailed, i))
    decreases retries - i
  {
    if retries > i && net(req, calls + i).Threw? && i != retries - 1 {
      RetryFromMeaning(net, req, calls, retries, i + 1);
    }
  }

  function Retry(net: Network, req: Request, calls: nat, retries: int): Fetched {
    RetryFrom(net, req, calls, retries, 0)
  }

  /** `fetchWithRetry(url, retries)`, starting at fetch number `calls`; `delays` are the
      waits in milliseconds between attempts. */
  method FetchWithRetry(net: Network, req: Request, calls: nat, retries: int) returns (r: Fetched, delays: seq<int>)
    ensures r == Retry(net, req, calls, retries)
    ensures |delays| == if r.attempts == 0 then 0 else r.attempts - 1
    ensures forall j :: 0 <= j < |delays| ==> delays[j] == 1000 * (j + 1)
  {
    delays := [];
    var i: nat := 0;
    while i < retries
      invariant i == 0 || i < retries
      invariant RetryFrom(net, req, calls, retries, i) == Retry(net, req, calls, retries)
      invariant |delays| == i && forall j :: 0 <= j < i ==> delays[j] == 1000 * (j + 1)
    {
      match net(req, calls + i)
      case Responded(resp) =>
        return Got(resp, i + 1), delays;
      case Threw(e) =>
        if i == retries - 1 {
          return Failed(e, i + 1), delays;
        }
        delays := delays + [1000 * (i + 1)];
        i := i + 1;
    }
    r := Failed(AllRetriesFailed, 0);
  }

  // ---------------------------------------------------------------------------
  // One page: the endpoint loop

  /** What one pass of the endpoint loop got: every endpoint failed; an empty or
      null list; a short (partial) page; or a complete page and the cursor after it. */
  datatype Page = PageFailed | Empty | Partial(candles: seq<Candle>) | Complete(candles: seq<Candle>, next: int)

  datatype PageResult = PageResult(page: Page, calls: nat)

  /** The request sent to endpoint `e` for the page starting at `start`. */
  function RequestAt(e: nat, symbol: string, interval: string, start: int, endTime: int): Request
    requires e < |Endpoints|
  {
    Request(Endpoints[e], symbol, interval, start, endTime, Limit)
  }

  /** Fetch `n` answered `req` with a 2xx list of klines that converts to `candles`. */
  predicate ServedAs(net: Network, req: Request, n: nat, candles: seq<Candle>) {
    var a := net(req, n);
    a.Responded? && Ok(a.resp) && a.resp.body.Klines? && ToCandles(a.resp.body.klines) == candles
  }

  /** One endpoint's turn in the endpoint loop: its retried fetch, then the page it
      gives. A thrown error, a non-2xx status or an unreadable body is `PageFailed`
      here, which moves the loop on to the next endpoint. */
  function TryEndpoint(net: Network, symbol: string, interval: string, start: int, endTime: int, calls: nat, e: nat): (r: PageResult)
    requires e < |Endpoints|
    ensures r.calls > calls
    ensures r.page.Partial? ==> 0 < |r.page.candles| < Limit
    ensures r.page.Complete? ==> |r.page.candles| >= Limit && r.page.next == r.page.candles[|r.page.candles| - 1].closeTime + 1
  {
    var f := Retry(net, RequestAt(e, symbol, interval, start, endTime), calls, Retries);
    var after := calls + f.attempts;
    if f.Failed? || !Ok(f.resp) || f.resp.body.Malformed? then PageResult(PageFailed, after)
    else if f.resp.body.Null? || |f.resp.body.klines| == 0 then PageResult(Empty, after)
    else
      var candles := ToCandles(f.resp.body.klines);
      if |candles| < Limit then PageResult(Partial(candles), after)
      else PageResult(Complete(candles, candles[|candles| - 1].closeTime + 1), after)
  }

  /** The endpoint loop from endpoint `e` on, with `calls` fetches made so far: the
      endpoints are asked in their fixed order until one gives a page. A page fails
      only after every remaining endpoint was asked. */
  function PageFrom(net: Network, symbol: string, interval: string, start: int, endTime: int, calls: nat, e: nat): (r: PageResult)
    requires e <= |Endpoints|
    decreases |Endpoints| - e
    ensures r.calls >= calls
    ensures r.page.PageFailed? ==> r.calls >= calls + (|Endpoints| - e)
    ensures r.page.Partial? ==> 0 < |r.page.candles| < Limit
    ensures r.page.Complete? ==> |r.page.candles| >= Limit && r.page.next == r.page.candles[|r.page.candles| - 1].closeTime + 1
  {
    if e == |Endpoints| then PageResult(PageFailed, calls)
    else
      var t := TryEndpoint(net, symbol, interval, start, endTime, calls, e);
      if t.page.PageFailed? then PageFrom(net, symbol, interval, start, endTime, t.calls, e + 1) else t
  }

  /** One endpoint's turn of the endpoint loop of `fetchBinanceCandles`. */
  method AskEndpoint(net: Network, symbol: string, interval: string, start: int, endTime: int, calls0: nat, e: nat)
    returns (page: Page, calls: nat)
    requires e < |Endpoints|
    ensures PageResult(page, calls) == TryEndpoint(net, symbol, interval, start, endTime, calls0, e)
  {
    var req := RequestAt(e, symbol, interval, start, endTime);
    var fetched, _ := FetchWithRetry(net, req, calls0, Retries);
    calls := calls0 + fetched.attempts;
    if fetched.Failed? || !Ok(fetched.resp) || fetched.resp.body.Malformed? {
      return PageFailed, calls;
    }
    var body := fetched.resp.body;
    if body.Null? || |body.klines| == 0 {
      return Empty, calls;
    }
    var candles := ToCandles(body.klines);
    if |candles| < Limit {
      return Partial(candles), calls;
    }
    page := Complete(candles, candles[|candles| - 1].closeTime + 1);
  }

  /** One pass of the endpoint loop of `fetchBinanceCandles` for the cursor `start`. */
  method FetchPage(net: Network, symbol: string, interval: string, start: int, endTime: int, calls0: nat)
    returns (page: Page, calls: nat)
    ensures PageResult(page, calls) == PageFrom(net, symbol, interval, start, endTime, calls0, 0)
  {
    calls := calls0;
    var e := 0;
    while e < |Endpoints|
      invariant e <= |Endpoints|
      invariant PageFrom(net, symbol, interval, start, endTime, calls, e) == PageFrom(net, symbol, interval, start, endTime, calls0, 0)
    {
      page, calls := AskEndpoint(net, symbol, interval, start, endTime, calls, e);
      if !page.PageFailed? {
        return;
      }
      e := e + 1;
    }
    page := PageFailed;
  }

  /** Every page the endpoint loop hands back is what one of the endpoints sent, during
      this pass, for the current cursor and a limit of 1500. */
  lemma {:induction false} PageServed(net: Network, symbol: string, interval: string, start: int, endTime: int, calls: nat, e: nat)
    requires e <= |Endpoints|
    ensures var r := PageFrom(net, symbol, interval, start, endTime, calls, e);
      r.page.Partial? || r.page.Complete? ==>
        exists k, n :: e <= k < |Endpoints| && calls <= n < r.calls &&
          ServedAs(net, RequestAt(k, symbol, interval, start, endTime), n, r.page.candles)
    decreases |Endpoints| - e
  {
    if e < |Endpoints| {
      var t := TryEndpoint(net, symbol, interval, start, endTime, calls, e);
      if t.page.PageFailed? {
        PageServed(net, symbol, interval, start, endTime, t.calls, e + 1);
      } else if t.page.Partial? || t.page.Complete? {
        var req := RequestAt(e, symbol, interval, start, endTime);
        RetryFromMeaning(net, req, calls, Retries, 0);
        assert ServedAs(net, req, t.calls - 1, t.page.candles);
      }
    }
  }

  /** Every endpoint is down: each fetch throws or answers with a non-2xx status. */
  ghost predicate AllDown(net: Network) {
    forall req, n :: net(req, n).Threw? || !Ok(net(req, n).resp)
  }

  /** With every endpoint down the page fails. */
  lemma {:induction false} AllDownFailsPage(net: Network, symbol: string, interval: string, start: int, endTime: int, calls: nat, e: nat)
    requires e <= |Endpoints| && AllDown(net)
    ensures PageFrom(net, symbol, interval, start, endTime, calls, e).page == PageFailed
    decreases |Endpoints| - e
  {
    if e < |Endpoints| {
      var t := TryEndpoint(net, symbol, interval, start, endTime, calls, e);
      assert t.page.PageFailed?;
      AllDownFailsPage(net, symbol, interval, start, endTime, t.calls, e + 1);
    }
  }

  // ---------------------------------------------------------------------------
  // fetchBinanceCandles: the cursor loop

  /** How a pagination ends: the collected candles, the all-endpoints error, or (the
      loop can run forever) still running after `fuel` pages. */
  datatype Outcome = Done(candles: seq<Candle>) | FetchError(message: string) | OutOfFuel(collected: seq<Candle>)

  /** The candles collected once `page` is appended to `all`. */
  function Collected(all: seq<Candle>, page: Page): (r: seq<Candle>)
    ensures page.Partial? || page.Complete? ==> r == all + page.candles
    ensures page.Empty? ==> r == all
  {
    if page.Partial? || page.Complete? then all + page.candles else all
  }

  /** The cursor after `page`: only a complete page moves it. */
  function CursorAfter(start: int, page: Page): (r: int)
    ensures page.Complete? ==> r == page.next
    ensures !page.Complete? ==> r == start
  {
    if page.Complete? then page.next else start
  }

  /** Where the cursor loop gets its pages: the page for a cursor, given the number
      of fetches made so far, together with the fetch count after it. */
  type PageSource = (int, nat) -> PageResult

  /** The pages the endpoint loop fetches from `net`. */
  function PagesOf(net: Network, symbol: string, interval: string, endTime: int): PageSource {
    (start: int, calls: nat) => PageFrom(net, symbol, interval, start, endTime, calls, 0)
  }

  /** `pages` are the pages the endpoint loop fetches from `net`. */
  ghost predicate Serves(pages: PageSource, net: Network, symbol: string, interval: string, endTime: int) {
    forall start: int, calls: nat {:trigger PageFrom(net, symbol, interval, start, endTime, calls, 0)} ::
      pages(start, calls) == PageFrom(net, symbol, interval, start, endTime, calls, 0)
  }

  /** The cursor loop from cursor `start` with `all` collected. An empty page leaves
      the cursor where it is; a short page is appended and also leaves it there. */
  function Paginate(pages: PageSource, endTime: int, start: int, all: seq<Candle>, calls: nat, fuel: nat): (r: Outcome)
    decreases fuel
    ensures r.FetchError? ==> r.message == AllEndpointsFailed
  {
    if !(start < endTime && |all| < MaxCandles) then Done(all)
    else if fuel == 0 then OutOfFuel(all)
    else
      var p := pages(start, calls);
      if p.page.PageFailed? then FetchError(AllEndpointsFailed)
      else Paginate(pages, endTime, CursorAfter(start, p.page), Collected(all, p.page), p.calls, fuel - 1)
  }

  /** `fetchBinanceCandles(symbol, interval, startTime, endTime)`, cut off after `fuel`
      pages; `pages` names, for the proof, the pages its endpoint loop fetches. */
  method FetchBinanceCandles(net: Network, ghost pages: PageSource, symbol: string, interval: string,
                             startTime: int, endTime: int, fuel: nat)
    returns (r: Outcome)
    requires Serves(pages, net, symbol, interval, endTime)
    ensures r == Paginate(pages, endTime, startTime, [], 0, fuel)
  {
    var all: seq<Candle> := [];
    var currentStart := startTime;
    var calls: nat := 0;
    var remaining := fuel;
    while currentStart < endTime && |all| < MaxCandles
      invariant Paginate(pages, endTime, currentStart, all, calls, remaining) == Paginate(pages, endTime, startTime, [], 0, fuel)
      decreases remaining
    {
      if remaining == 0 {
        return OutOfFuel(all);
      }
      ghost var cursor, collected, before := currentStart, all, calls;
      var page;
      page, calls := FetchPage(net, symbol, interval, currentStart, endTime, calls);
      assert pages(cursor, before) == PageResult(page, calls);
      match page {
        case PageFailed =>
          return FetchError(AllEndpointsFailed);
        case Empty =>
        case Partial(candles) =>
          all := all + candles;
        case Complete(candles, next) =>
          all := all + candles;
          currentStart := next;
      }
      assert currentStart == CursorAfter(cursor, page) && all == Collected(collected, page);
      remaining := remaining - 1;
    }
    r := Done(all);
  }

  /** The exchange never sends more klines than a request asks for. */
  ghost predicate PagesWithinLimit(net: Network) {
    forall req, n :: net(req, n).Responded? && net(req, n).resp.body.Klines? ==>
      |net(req, n).resp.body.klines| <= req.limit
  }

  /** No page holds more than 1500 candles. */
  ghost predicate PagesWithin(pages: PageSource) {
    forall start, calls :: pages(start, calls).page.Partial? || pages(start, calls).page.Complete? ==>
      |pages(start, calls).page.candles| <= Limit
  }

  /** With pages of at most 1500 candles, the collected candles only grow, and a
      finished pagination holds fewer than 20000 + 1500 of them. */
  lemma {:induction false} PaginateBound(pages: PageSource, endTime: int, start: int, all: seq<Candle>, calls: nat, fuel: nat)
    requires PagesWithin(pages) && |all| < MaxCandles + Limit
    ensures Paginate(pages, endTime, start, all, calls, fuel).Done? ==>
      all <= Paginate(pages, endTime, start, all, calls, fuel).candles
    ensures Paginate(pages, endTime, start, all, calls, fuel).Done? ==>
      |Paginate(pages, endTime, start, all, calls, fuel).candles| < MaxCandles + Limit
    decreases fuel
  {
    if start < endTime && |all| < MaxCandles && fuel > 0 {
      var p := pages(start, calls);
      if !p.page.PageFailed? {
        var more := Collected(all, p.page);
        assert all <= more && |more| < MaxCandles + Limit;
        PaginateBound(pages, endTime, CursorAfter(start, p.page), more, p.calls, fuel - 1);
      }
    }
  }

  /** A page of the endpoint loop is one the exchange sent for a request with limit
      1500, so an exchange that keeps to the limit gives pages of at most 1500. */
  lemma NetworkPagesWithin(net: Network, symbol: string, interval: string, endTime: int)
    requires PagesWithinLimit(net)
    ensures PagesWithin(PagesOf(net, symbol, interval, endTime))
  {
    forall start, calls: nat | PagesOf(net, symbol, interval, endTime)(start, calls).page.Partial? ||
                                PagesOf(net, symbol, interval, endTime)(start, calls).page.Complete?
      ensures |PagesOf(net, symbol, interval, endTime)(start, calls).page.candles| <= Limit
    {
      var p := PageFrom(net, symbol, interval, start, endTime, calls, 0);
      PageServed(net, symbol, interval, start, endTime, calls, 0);
      var k, n :| 0 <= k < |Endpoints| && calls <= n < p.calls &&
        ServedAs(net, RequestAt(k, symbol, interval, start, endTime), n, p.page.candles);
      var req := RequestAt(k, symbol, interval, start, endTime);
      assert |net(req, n).resp.body.klines| <= req.limit;
    }
  }

  /** While the window is open, pages that are always empty never end the loop: the
      cursor stays put, nothing is collected, and the same page is asked for again,
      for as many pages as one cares to allow. */
  lemma {:induction false} EmptyPagesNeverEnd(pages: PageSource, endTime: int, start: int, all: seq<Candle>, calls: nat, fuel: nat)
    requires forall s, c :: pages(s, c).page == Empty
    requires start < endTime && |all| < MaxCandles
    ensures Paginate(pages, endTime, start, all, calls, fuel) == OutOfFuel(all)
    decreases fuel
  {
    if fuel > 0 {
      assert pages(start, calls).page == Empty;
      EmptyPagesNeverEnd(pages, endTime, start, all, pages(start, calls).calls, fuel - 1);
    }
  }

  /** An exchange that always answers 200 with the same klines. */
  ghost predicate AlwaysAnswers(net: Network, ks: seq<Kline>) {
    forall req, n :: net(req, n) == Responded(Response(200, Klines(ks)))
  }

  /** Such an exchange answers the first endpoint's first attempt, and the endpoint
      loop makes a page of those klines. */
  lemma AnsweredPage(net: Network, ks: seq<Kline>, symbol: string, interval: string, start: int, endTime: int, calls: nat)
    requires AlwaysAnswers(net, ks)
    ensures var p := PageFrom(net, symbol, interval, start, endTime, calls, 0).page;
      (|ks| == 0 ==> p == Empty) && (0 < |ks| < Limit ==> p == Partial(ToCandles(ks)))
  {
    var req := RequestAt(0, symbol, interval, start, endTime);
    assert Retry(net, req, calls, Retries) == Got(Response(200, Klines(ks)), 1);
  }

  /** An exchange that keeps answering with an empty list keeps the loop running. */
  lemma EmptyAnswersNeverEnd(net: Network, symbol: string, interval: string, startTime: int, endTime: int, fuel: nat)
    requires AlwaysAnswers(net, []) && startTime < endTime
    ensures Paginate(PagesOf(net, symbol, interval, endTime), endTime, startTime, [], 0, fuel) == OutOfFuel([])
  {
    var pages := PagesOf(net, symbol, interval, endTime);
    forall s, c: nat ensures pages(s, c).page == Empty {
      AnsweredPage(net, [], symbol, interval, s, endTime, c);
    }
    EmptyPagesNeverEnd(pages, endTime, startTime, [], 0, fuel);
  }

  /** `k` copies of `xs` one after another. */
  function Repeat(xs: seq<Candle>, k: nat): (r: seq<Candle>)
    ensures |r| == k * |xs|
  {
    if k == 0 then [] else xs + Repeat(xs, k - 1)
  }

  /** A short page is collected again and again from the unchanged cursor until the
      20000 cap is passed: the result is that page repeated, at least twice when
      there was room for a second copy. */
  lemma {:induction false} ShortPagesRepeat(pages: PageSource, page: seq<Candle>, endTime: int, start: int,
                                            all: seq<Candle>, calls: nat, fuel: nat)
    requires forall s, c :: pages(s, c).page == Partial(page)
    requires 0 < |page| && start < endTime && |all| < MaxCandles && |all| + fuel >= MaxCandles
    ensures exists k: nat :: (k >= 1 && (|all| + |page| < MaxCandles ==> k >= 2) &&
      Paginate(pages, endTime, start, all, calls, fuel) == Done(all + Repeat(page, k)))
    decreases fuel
  {
    var p := pages(start, calls);
    assert p.page == Partial(page);
    var next := Paginate(pages, endTime, start, all + page, p.calls, fuel - 1);
    assert Paginate(pages, endTime, start, all, calls, fuel) == next;
    if |all + page| >= MaxCandles {
      assert Repeat(page, 1) == page;
    } else {
      ShortPagesRepeat(pages, page, endTime, start, all + page, p.calls, fuel - 1);
      var k: nat :| k >= 1 && next == Done(all + page + Repeat(page, k));
      assert all + page + Repeat(page, k) == all + Repeat(page, k + 1);
    }
  }

  /** An exchange that keeps answering with the same short list makes the route return
      that list over and over: at least twice, as 1500 < 20000. */
  lemma ShortAnswersRepeat(net: Network, ks: seq<Kline>, symbol: string, interval: string, startTime: int, endTime: int, fuel: nat)
    requires AlwaysAnswers(net, ks) && 0 < |ks| < Limit && startTime < endTime && fuel >= MaxCandles
    ensures exists k: nat :: (k >= 2 &&
      Paginate(PagesOf(net, symbol, interval, endTime), endTime, startTime, [], 0, fuel) == Done(Repeat(ToCandles(ks), k)))
  {
    var pages := PagesOf(net, symbol, interval, endTime);
    forall s, c: nat ensures pages(s, c).page == Partial(ToCandles(ks)) {
      AnsweredPage(net, ks, symbol, interval, s, endTime, c);
    }
    ShortPagesRepeat(pages, ToCandles(ks), endTime, startTime, [], 0, fuel);
    var k: nat :| k >= 2 && Paginate(pages, endTime, startTime, [], 0, fuel) == Done([] + Repeat(ToCandles(ks), k));
    assert [] + Repeat(ToCandles(ks), k) == Repeat(ToCandles(ks), k);
  }

  // ---------------------------------------------------------------------------
  // POST /api/trading/candles

  /** The request body's four parameters; a missing key is `None`. */
  datatype Params = Params(symbol: Option<string>, interval: Option<string>, startDate: Option<int>, endDate: Option<int>)

  /** A parameter is missing when it is absent or falsy (the empty string, zero). */
  predicate Missing(p: Params) {
    p.symbol.None? || p.symbol.value == "" || p.interval.None? || p.interval.value == "" ||
    p.startDate.None? || p.startDate.value == 0 || p.endDate.None? || p.endDate.value == 0
  }

  /** What `request.json()` yields: the parsed parameters, or the message of the error
      it throws for a body that is not JSON. */
  datatype RequestBody = Json(params: Params) | NotJson(message: string)

  /** The furthest a JavaScript `Date` reaches from the epoch, in milliseconds; beyond
      it the date is invalid and `toISOString` throws. */
  const MaxTime := 8_640_000_000_000_000
  const InvalidTimeValue := "Invalid time value"

  predicate ValidTime(ms: int) {
    -MaxTime <= ms <= MaxTime
  }

  /** The JSON reply: 200 with the candles and their count, an error status with a
      message, or no reply while the pagination still runs. */
  datatype Reply = CandlesReply(candles: seq<Candle>, count: int) | ErrorReply(status: int, error: string) | NoReply

  /** The handler: parse the body, check the parameters, log the window (which throws
      for an invalid date), paginate; anything thrown is answered with a 500 carrying
      its message, or 'Failed to fetch candles' when the message is empty. */
  method Post(body: RequestBody, net: Network, fuel: nat) returns (reply: Reply)
    ensures body.NotJson? ==> reply == ErrorReply(500, if body.message == "" then FetchFailed else body.message)
    ensures (reply.ErrorReply? && reply.status == 400) <==> body.Json? && Missing(body.params)
    ensures body.Json? && Missing(body.params) ==> reply == ErrorReply(400, MissingParameters)
    ensures body.Json? && !Missing(body.params) ==>
      var p := body.params;
      !(ValidTime(p.startDate.value) && ValidTime(p.endDate.value)) ==> reply == ErrorReply(500, InvalidTimeValue)
    ensures body.Json? && !Missing(body.params) ==>
      var p := body.params;
      ValidTime(p.startDate.value) && ValidTime(p.endDate.value) ==>
      var outcome := Paginate(PagesOf(net, p.symbol.value, p.interval.value, p.endDate.value), p.endDate.value, p.startDate.value, [], 0, fuel);
      (outcome.Done? ==> reply == CandlesReply(outcome.candles, |outcome.candles|)) &&
      (outcome.FetchError? ==> reply == ErrorReply(500, AllEndpointsFailed)) &&
      (outcome.OutOfFuel? ==> reply == NoReply)
  {
    if body.NotJson? {
      return ErrorReply(500, if body.message == "" then FetchFailed else body.message);
    }
    var p := body.params;
    if Missing(p) {
      return ErrorReply(400, MissingParameters);
    }
    if !(ValidTime(p.startDate.value) && ValidTime(p.endDate.value)) {
      return ErrorReply(500, InvalidTimeValue);
    }
    ghost var pages := PagesOf(net, p.symbol.value, p.interval.value, p.endDate.value);
    assert Serves(pages, net, p.symbol.value, p.interval.value, p.endDate.value);
    var outcome := FetchBinanceCandles(net, pages, p.symbol.value, p.interval.value, p.startDate.value, p.endDate.value, fuel);
    match outcome
    case Done(candles) =>
      reply := CandlesReply(candles, |candles|);
    case FetchError(message) =>
      reply := ErrorReply(500, if message == "" then FetchFailed else message);
    case OutOfFuel(_) =>
      reply := NoReply;
  }
}
