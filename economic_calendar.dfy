/** The economic-calendar endpoint: it reads the week's events from the public feed,
    drops the holidays and normalises each remaining event for the calendar page. */
module EconomicCalendar {
  import opened Common

  /** An event as the feed publishes it. */
  datatype RawEvent = RawEvent(title: string, country: string, date: string, impact: string, forecast: string, previous: string)

  datatype Importance = High | Medium | Low

  /** An event as the page receives it. */
  datatype EconomicEvent = EconomicEvent(
    id: string,
    event: string,
    country: string,
    countryCode: string,
    currency: string,
    date: string,
    time: string,
    importance: Importance,
    forecast: Option<string>,
    previous: Option<string>,
    actual: Option<string>)

  // ---------------------------------------------------------------------------
  // mapCountryCode and mapImpact

  /** The country names of the nine currencies the page knows. */
  const CountryNames: map<string, string> := map[
    "USD" := "United States",
    "EUR" := "Eurozone",
    "GBP" := "United Kingdom",
    "JPY" := "Japan",
    "CHF" := "Switzerland",
    "CAD" := "Canada",
    "AUD" := "Australia",
    "NZD" := "New Zealand",
    "CNY" := "China"]

  /** `mapCountryCode`: the country of a known currency code, any other code unchanged
      (every name in the table is non-empty, so the `||` fallback only serves unknown
      codes). */
  function MapCountryCode(code: string): (name: string)
    ensures code in CountryNames ==> name == CountryNames[code]
    ensures code !in CountryNames ==> name == code
  {
    if code in CountryNames && CountryNames[code] != "" then CountryNames[code] else code
  }

  /** Distinct known codes are shown as distinct countries. */
  lemma KnownCountriesDistinct(a: string, b: string)
    requires a in CountryNames && b in CountryNames && a != b
    ensures MapCountryCode(a) != MapCountryCode(b)
  {
  }

  /** ASCII lower case. Only ASCII capitals lower-case to the letters of "high" and
      "medium", so this agrees with `toLowerCase` for the comparisons below. */
  function Lower(s: string): (r: string)
    ensures |r| == |s|
  {
    seq(|s|, k requires 0 <= k < |s| => if 'A' <= s[k] <= 'Z' then (s[k] as int + 32) as char else s[k])
  }

  /** `mapImpact`: case-insensitive "high" and "medium"; everything else is low. */
  function MapImpact(impact: string): (r: Importance)
    ensures r == High <==> Lower(impact) == "high"
    ensures r == Medium <==> Lower(impact) == "medium"
  {
    var normalized := Lower(impact);
    if normalized == "high" then High
    else if normalized == "medium" then Medium
    else Low
  }

  function ImportanceName(i: Importance): string {
    match i
    case High => "high"
    case Medium => "medium"
    case Low => "low"
  }

  /** The mapping ignores case, and it reads every importance back from its own name. */
  lemma MapImpactIgnoresCase(a: string, b: string, i: Importance)
    requires Lower(a) == Lower(b)
    ensures MapImpact(a) == MapImpact(b)
    ensures MapImpact(ImportanceName(i)) == i
  {
    var name := ImportanceName(i);
    assert Lower(name) == name;
  }

  // ---------------------------------------------------------------------------
  // The transform in GET

  /** `new Date(date)` read back as the UTC day (`toISOString().split('T')[0]`) and the
      local "HH:MM" time; `None` when the date does not parse, where `toISOString`
      throws. Calendar arithmetic is outside this model, so it is a parameter. */
  type DateReader = string -> Option<(string, string)>

  predicate NotHoliday(e: RawEvent) { e.impact != "Holiday" }

  /** The `filter` step: the events that are not holidays, in feed order. */
  function Kept(data: seq<RawEvent>): (kept: seq<RawEvent>)
    ensures forall e :: e in kept <==> e in data && e.impact != "Holiday"
  {
    Filter(data, NotHoliday)
  }

  /** `s || null` for a string field. */
  function OrNull(s: string): (r: Option<string>)
    ensures r.None? <==> s == ""
  {
    if s == "" then None else Some(s)
  }

  /** The `map` callback for the event at position `index` of the filtered list. */
  function Normalize(e: RawEvent, index: nat, day: string, time: string): (n: EconomicEvent)
    ensures n.id == "event-" + NatToString(index)
  {
    EconomicEvent(
      "event-" + NatToString(index), e.title, MapCountryCode(e.country), e.country, e.country,
      day, time, MapImpact(e.impact), OrNull(e.forecast), OrNull(e.previous), None)
  }

  /** The `filter`/`map` chain: `None` when some kept event's date does not parse, which
      aborts the whole response. */
  function Transform(data: seq<RawEvent>, dates: DateReader): (r: Option<seq<EconomicEvent>>)
    ensures r.Some? <==> forall k :: 0 <= k < |Kept(data)| ==> dates(Kept(data)[k].date).Some?
    ensures r.Some? ==> |r.value| == |Kept(data)|
  {
    var kept := Kept(data);
    if forall k :: 0 <= k < |kept| ==> dates(kept[k].date).Some? then
      Some(seq(|kept|, k requires 0 <= k < |kept| =>
        Normalize(kept[k], k, dates(kept[k].date).value.0, dates(kept[k].date).value.1)))
    else None
  }

  /** What each output event says about its raw event: the k-th output is the k-th
      non-holiday event, under id `event-k`, with the raw country code as code and
      currency, empty forecast and previous as null, and no actual value. */
  lemma TransformMeaning(data: seq<RawEvent>, dates: DateReader, k: nat)
    requires Transform(data, dates).Some? && k < |Transform(data, dates).value|
    ensures var kept := Kept(data); var n := Transform(data, dates).value[k];
      kept[k] in data && kept[k].impact != "Holiday" &&
      n.id == "event-" + NatToString(k) &&
      n.event == kept[k].title &&
      n.country == MapCountryCode(kept[k].country) &&
      n.countryCode == kept[k].country && n.currency == kept[k].country &&
      n.importance == MapImpact(kept[k].impact) &&
      (n.forecast.None? <==> kept[k].forecast == "") &&
      (n.previous.None? <==> kept[k].previous == "") &&
      n.actual.None?
  {
    var kept := Kept(data);
    assert kept[k] in kept;
  }

  /** No two output events share an id. */
  lemma IdsAreUnique(data: seq<RawEvent>, dates: DateReader, i: nat, j: nat)
    requires Transform(data, dates).Some?
    requires i < j < |Transform(data, dates).value|
    ensures Transform(data, dates).value[i].id != Transform(data, dates).value[j].id
  {
    var events := Transform(data, dates).value;
    if events[i].id == events[j].id {
      var prefix := "event-";
      assert events[i].id == prefix + NatToString(i);
      assert events[j].id == prefix + NatToString(j);
      assert (prefix + NatToString(i))[|prefix|..] == NatToString(i);
      assert (prefix + NatToString(j))[|prefix|..] == NatToString(j);
      NatToStringInjective(i, j);
    }
  }

  // ---------------------------------------------------------------------------
  // GET

  /** What the fetch of the feed came to: an ok response with its events, a response
      that is not ok, or an exception (network failure or a body that is not JSON). */
  datatype Feed = FeedOk(data: seq<RawEvent>) | FeedNotOk | FeedThrew

  datatype CalendarReply = CalendarEvents(events: seq<EconomicEvent>) | CalendarError(status: int, error: string)

  const CalendarFailure := "Failed to fetch economic calendar data"

  /** `GET`: the normalised events, or a 500 reply when the feed fails or a date does not
      parse. */
  function Get(feed: Feed, dates: DateReader): (r: CalendarReply)
    ensures r.CalendarError? ==> r == CalendarError(500, CalendarFailure)
    ensures r.CalendarEvents? <==> feed.FeedOk? && Transform(feed.data, dates).Some?
    ensures r.CalendarEvents? ==> r.events == Transform(feed.data, dates).value
  {
    match feed
    case FeedOk(data) =>
      (match Transform(data, dates)
       case Some(events) => CalendarEvents(events)
       case None => CalendarError(500, CalendarFailure))
    case _ => CalendarError(500, CalendarFailure)
  }
}
