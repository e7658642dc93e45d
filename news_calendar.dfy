/** The forex news calendar of the Python trading system: it keeps the high-impact
    events of the weekly feed and tells a strategy to close a position shortly
    before news that concerns the symbol.

    The HTTP request, the XML parsing and the clock are not part of this model: the
    calendar is given a `CalendarFeed` (the response the feed returns at a given
    time, and the `"%m-%d-%Y %I:%M%p"` date parser), and every method that reads the
    clock takes its reading `now` as a parameter. Times are naive datetimes counted
    in whole seconds. */
module News {
  import opened Common

  /** An event as the feed lists it; a missing XML element is `None`. */
  datatype RawEvent = RawEvent(
    title: Option<string>,
    country: Option<string>,
    date: Option<string>,
    time: Option<string>,
    impact: Option<string>)

  /** What a request for the feed yields: a failure (network error or malformed XML),
      or an HTTP status with the parsed list of events. */
  datatype FeedResponse = RequestFailed | Response(statusCode: int, events: seq<RawEvent>)

  datatype CalendarFeed = CalendarFeed(
    responseAt: int -> FeedResponse,
    parseDateTime: string -> Option<int>)

  datatype NewsEvent = NewsEvent(title: string, country: string, datetime: int, impact: string)

  /** The kept form of a raw event: the date and time parse and the impact is "High". */
  predicate Keeps(feed: CalendarFeed, e: RawEvent) {
    feed.parseDateTime(e.date.GetOr("") + " " + e.time.GetOr("")).Some? && e.impact.GetOr("") == "High"
  }

  function ToEvent(feed: CalendarFeed, e: RawEvent): (r: NewsEvent)
    requires Keeps(feed, e)
    ensures r.impact == "High"
    ensures feed.parseDateTime(e.date.GetOr("") + " " + e.time.GetOr("")) == Some(r.datetime)
  {
    NewsEvent(e.title.GetOr(""), e.country.GetOr(""),
              feed.parseDateTime(e.date.GetOr("") + " " + e.time.GetOr("")).value, "High")
  }

  /** The high-impact events of a feed whose date and time parse, in feed order. */
  function HighImpactEvents(feed: CalendarFeed, raw: seq<RawEvent>): (r: seq<NewsEvent>)
    ensures |r| <= |raw|
    ensures forall k :: 0 <= k < |r| ==> r[k].impact == "High"
    ensures forall e :: e in raw && Keeps(feed, e) ==> ToEvent(feed, e) in r
  {
    if |raw| == 0 then []
    else
      var rest := HighImpactEvents(feed, raw[1..]);
      assert forall e :: e in raw ==> e == raw[0] || e in raw[1..];
      if Keeps(feed, raw[0]) then [ToEvent(feed, raw[0])] + rest else rest
  }

  /** A raw event that fails to parse or is not high-impact is dropped. */
  lemma {:induction false} DroppedEventsAbsent(feed: CalendarFeed, raw: seq<RawEvent>, n: NewsEvent)
    requires n in HighImpactEvents(feed, raw)
    ensures exists e :: e in raw && Keeps(feed, e) && n == ToEvent(feed, e)
  {
    if |raw| > 0 {
      if Keeps(feed, raw[0]) && n == ToEvent(feed, raw[0]) {
        assert raw[0] in raw;
      } else {
        DroppedEventsAbsent(feed, raw[1..], n);
        var e :| e in raw[1..] && Keeps(feed, e) && n == ToEvent(feed, e);
        assert e in raw;
      }
    }
  }

  /** The currencies and countries whose news moves a symbol; unknown symbols watch the dollar. */
  function WatchedCurrencies(symbol: string): (r: seq<string>)
    ensures "USD" in r && "United States" in r
    ensures symbol !in {"EURUSD", "GBPUSD", "USDJPY", "AUDUSD", "USDCAD", "XAUUSD", "XAGUSD"} ==> r == ["USD", "United States"]
  {
    if symbol == "EURUSD" then ["EUR", "USD", "Germany", "United States"]
    else if symbol == "GBPUSD" then ["GBP", "USD", "United Kingdom", "United States"]
    else if symbol == "USDJPY" then ["USD", "JPY", "United States", "Japan"]
    else if symbol == "AUDUSD" then ["AUD", "USD", "Australia", "United States"]
    else if symbol == "USDCAD" then ["USD", "CAD", "United States", "Canada"]
    else if symbol == "XAUUSD" then ["USD", "United States"]
    else if symbol == "XAGUSD" then ["USD", "United States"]
    else ["USD", "United States"]
  }

  /** Minutes from `now` until `at`. */
  function MinutesUntil(at: int, now: int): real {
    (at - now) as real / 60.0
  }

  predicate Imminent(e: NewsEvent, currentTime: int, symbol: string, minutesBefore: int) {
    0.0 <= MinutesUntil(e.datetime, currentTime) <= minutesBefore as real &&
    e.country in WatchedCurrencies(symbol)
  }

  /** The scan of `should_close_position` over the loaded events, with its early return. */
  function ScanForNews(events: seq<NewsEvent>, currentTime: int, symbol: string, minutesBefore: int): (r: bool)
    ensures r <==> exists k :: 0 <= k < |events| && Imminent(events[k], currentTime, symbol, minutesBefore)
  {
    if |events| == 0 then false
    else if Imminent(events[0], currentTime, symbol, minutesBefore) then true
    else
      var r := ScanForNews(events[1..], currentTime, symbol, minutesBefore);
      assert forall k :: 1 <= k < |events| ==> events[k] == events[1..][k - 1];
      assert r ==> exists k :: 0 <= k < |events[1..]| && Imminent(events[1..][k], currentTime, symbol, minutesBefore);
      r
  }

  /** Python's `sorted(.., key=datetime)`, as a stable insertion sort. */
  function SortByTime(s: seq<NewsEvent>): (r: seq<NewsEvent>)
    ensures multiset(r) == multiset(s)
    ensures |r| == |s|
    ensures Sorted(r)
  {
    if |s| == 0 then []
    else
      assert s == [s[0]] + s[1..];
      Insert(s[0], SortByTime(s[1..]))
  }

  ghost predicate Sorted(s: seq<NewsEvent>) {
    forall i, j :: 0 <= i < j < |s| ==> s[i].datetime <= s[j].datetime
  }

  /** Inserts before the first event that is not earlier, so that ties keep their order. */
  function Insert(e: NewsEvent, s: seq<NewsEvent>): (r: seq<NewsEvent>)
    requires Sorted(s)
    ensures multiset(r) == multiset(s) + multiset{e}
    ensures |r| == |s| + 1
    ensures Sorted(r)
    ensures |s| > 0 ==> r[0] == e || r[0] == s[0]
  {
    if |s| == 0 then [e]
    else if e.datetime <= s[0].datetime then [e] + s
    else
      var rest := Insert(e, s[1..]);
      assert s == [s[0]] + s[1..];
      assert forall k :: 0 <= k < |rest| ==> rest[k] in multiset(s[1..]) + multiset{e};
      [s[0]] + rest
  }

  predicate WithinHours(e: NewsEvent, now: int, hoursAhead: int) {
    0.0 <= (e.datetime - now) as real / 3600.0 <= hoursAhead as real
  }

  function FilterWithinHours(events: seq<NewsEvent>, now: int, hoursAhead: int): (r: seq<NewsEvent>)
    ensures forall k :: 0 <= k < |r| ==> WithinHours(r[k], now, hoursAhead)
    ensures forall e :: e in events && WithinHours(e, now, hoursAhead) ==> e in r
    ensures forall e :: e in r ==> e in events
  {
    if |events| == 0 then []
    else
      var rest := FilterWithinHours(events[1..], now, hoursAhead);
      assert forall e :: e in events ==> e == events[0] || e in events[1..];
      if WithinHours(events[0], now, hoursAhead) then [events[0]] + rest else rest
  }

  /** The events in the next `hoursAhead` hours, earliest first. */
  function UpcomingNews(events: seq<NewsEvent>, now: int, hoursAhead: int): (r: seq<NewsEvent>)
    ensures Sorted(r)
    ensures forall e :: e in r <==> e in events && WithinHours(e, now, hoursAhead)
  {
    var within := FilterWithinHours(events, now, hoursAhead);
    var r := SortByTime(within);
    assert forall e :: e in r <==> e in multiset(r);
    assert forall e :: e in within <==> e in multiset(within);
    r
  }

  class NewsCalendar {
    const feed: CalendarFeed
    const enableForBacktest: bool
    /** Historical runs have no news feed, so a disabled calendar stands for a backtest. */
    const backtestMode: bool
    var newsEvents: seq<NewsEvent>
    var lastFetch: Option<int>

    constructor(feed: CalendarFeed, enableForBacktest: bool)
      ensures this.feed == feed && this.enableForBacktest == enableForBacktest
      ensures backtestMode == !enableForBacktest
      ensures newsEvents == [] && lastFetch.None?
    {
      this.feed := feed;
      this.enableForBacktest := enableForBacktest;
      backtestMode := !enableForBacktest;
      newsEvents := [];
      lastFetch := None;
    }

    /** Replaces the loaded events with the feed's high-impact events when the request
        succeeds with status 200; otherwise keeps everything as it was. */
    method FetchCalendar(now: int) returns (ok: bool)
      modifies this
      ensures ok <==> Answers(now)
      ensures ok ==> newsEvents == HighImpactEvents(feed, feed.responseAt(now).events) && lastFetch == Some(now)
      ensures !ok ==> newsEvents == old(newsEvents) && lastFetch == old(lastFetch)
    {
      var resp := feed.responseAt(now);
      if resp.Response? && resp.statusCode == 200 {
        newsEvents := HighImpactEvents(feed, resp.events);
        lastFetch := Some(now);
        return true;
      }
      return false;
    }

    /** Whether the feed answers a request made at `now` with status 200. */
    predicate Answers(now: int) {
      var resp := feed.responseAt(now);
      resp.Response? && resp.statusCode == 200
    }

    /** Whether the loaded events are missing or at least seven whole days old at `now`. */
    predicate NeedsRefresh(now: int)
      reads this
    {
      lastFetch.None? || (now - lastFetch.value) / SecondsPerDay >= 7
    }

    /** Whether a position in `symbol` should be closed at `currentTime` because
        watched news is due within `minutesBefore` minutes. Outside backtest mode the
        calendar is refreshed first when it is stale. */
    method ShouldClosePosition(currentTime: int, symbol: string, minutesBefore: int, now: int) returns (close: bool)
      modifies this
      ensures backtestMode ==> !close && newsEvents == old(newsEvents) && lastFetch == old(lastFetch)
      ensures !backtestMode && !old(NeedsRefresh(now)) ==> newsEvents == old(newsEvents) && lastFetch == old(lastFetch)
      ensures !backtestMode && old(NeedsRefresh(now)) && Answers(now) ==>
        newsEvents == HighImpactEvents(feed, feed.responseAt(now).events) && lastFetch == Some(now)
      ensures !backtestMode && old(NeedsRefresh(now)) && !Answers(now) ==>
        newsEvents == old(newsEvents) && lastFetch == old(lastFetch)
      ensures close <==> !backtestMode && ScanForNews(newsEvents, currentTime, symbol, minutesBefore)
      ensures |newsEvents| == 0 ==> !close
    {
      if backtestMode {
        return false;
      }
      if NeedsRefresh(now) {
        var _ := FetchCalendar(now);
      }
      if |newsEvents| == 0 {
        return false;
      }
      var k := 0;
      while k < |newsEvents|
        invariant 0 <= k <= |newsEvents|
        invariant forall j :: 0 <= j < k ==> !Imminent(newsEvents[j], currentTime, symbol, minutesBefore)
      {
        var e := newsEvents[k];
        if 0.0 <= MinutesUntil(e.datetime, currentTime) <= minutesBefore as real {
          if e.country in WatchedCurrencies(symbol) {
            return true;
          }
        }
        k := k + 1;
      }
      return false;
    }

    /** The high-impact events of the next `hoursAhead` hours, earliest first; an empty
        calendar is fetched first. */
    method GetUpcomingNews(hoursAhead: int, now: int) returns (upcoming: seq<NewsEvent>)
      modifies this
      ensures old(newsEvents) != [] ==> newsEvents == old(newsEvents) && lastFetch == old(lastFetch)
      ensures old(newsEvents) == [] && Answers(now) ==>
        newsEvents == HighImpactEvents(feed, feed.responseAt(now).events) && lastFetch == Some(now)
      ensures old(newsEvents) == [] && !Answers(now) ==> newsEvents == [] && lastFetch == old(lastFetch)
      ensures upcoming == UpcomingNews(newsEvents, now, hoursAhead)
    {
      if |newsEvents| == 0 {
        var _ := FetchCalendar(now);
      }
      upcoming := UpcomingNews(newsEvents, now, hoursAhead);
    }
  }
}
