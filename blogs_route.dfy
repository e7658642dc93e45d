/** The blog API route: reads go through an in-memory cache that is kept for one
    calendar day and at most 24 hours, and every successful write drops it. */
module BlogsRoute {
  import opened Common
  import opened RouteTypes

  // ---------------------------------------------------------------------------
  // getCurrentDateString

  /** The local calendar date as `Date` reports it: the full year, the month index
      (0 for January) and the day of the month. */
  datatype LocalDate = LocalDate(year: nat, monthIndex: nat, day: nat)

  predicate IsCalendarDate(d: LocalDate) {
    d.monthIndex < 12 && 1 <= d.day <= 31
  }

  /** `String(n).padStart(2, '0')`. */
  function Pad2(n: nat): (s: string)
    ensures forall k :: 0 <= k < |s| ==> '0' <= s[k] <= '9'
    ensures n < 100 ==> |s| == 2
  {
    if n < 10 then
      assert NatToString(n) == [DigitChar(n)];
      "0" + NatToString(n)
    else
      assert n < 100 ==> |NatToString(n / 10)| == 1;
      NatToString(n)
  }

  /** A zero-padded number reads back as itself. */
  lemma ParsePad2(n: nat)
    ensures ParseNat(Pad2(n)) == n
  {
    if n < 10 {
      var s := Pad2(n);
      assert NatToString(n) == [DigitChar(n)];
      assert s == ['0', DigitChar(n)];
      assert s[..1] == ['0'];
      assert ['0'][..0] == [];
      assert ParseNat(['0']) == 10 * ParseNat([]) + DigitValue('0') == 0;
      assert DigitValue(DigitChar(n)) == n;
      assert ParseNat(s) == 10 * ParseNat(s[..1]) + DigitValue(s[1]);
    } else {
      ParseNatToString(n);
    }
  }

  /** `getCurrentDateString`: the year, the month number (index plus one) and the day,
      both zero-padded to two digits, joined by dashes. */
  function CurrentDateString(d: LocalDate): (s: string)
    requires IsCalendarDate(d)
    ensures Split(s, '-') == [NatToString(d.year), Pad2(d.monthIndex + 1), Pad2(d.day)]
  {
    var parts := [NatToString(d.year), Pad2(d.monthIndex + 1), Pad2(d.day)];
    SplitJoin(parts, '-');
    Join(parts, "-")
  }

  predicate AllDigits(s: string) {
    forall k :: 0 <= k < |s| ==> '0' <= s[k] <= '9'
  }

  /** Reading a `YYYY-MM-DD` string back into a date; `None` for any other shape. */
  function ParseDateString(s: string): Option<LocalDate> {
    var parts := Split(s, '-');
    if |parts| == 3 && |parts[0]| > 0 && |parts[1]| == 2 && |parts[2]| == 2 &&
       AllDigits(parts[0]) && AllDigits(parts[1]) && AllDigits(parts[2]) &&
       ParseNat(parts[1]) >= 1
    then Some(LocalDate(ParseNat(parts[0]), ParseNat(parts[1]) - 1, ParseNat(parts[2])))
    else None
  }

  /** The date string determines the date it was made from. */
  lemma DateStringRoundTrip(d: LocalDate)
    requires IsCalendarDate(d)
    ensures ParseDateString(CurrentDateString(d)) == Some(d)
  {
    ParseNatToString(d.year);
    ParsePad2(d.monthIndex + 1);
    ParsePad2(d.day);
  }

  /** Two days share a date string only if they are the same day, so the cache's date
      check tells every pair of days apart. */
  lemma DateStringInjective(d: LocalDate, e: LocalDate)
    requires IsCalendarDate(d) && IsCalendarDate(e)
    requires CurrentDateString(d) == CurrentDateString(e)
    ensures d == e
  {
    DateStringRoundTrip(d);
    DateStringRoundTrip(e);
  }

  // ---------------------------------------------------------------------------
  // The cache

  /** 24 hours in milliseconds. */
  const CacheDuration := 24 * 60 * 60 * 1000

  datatype BlogCache = BlogCache(data: seq<Row>, timestamp: int, date: string)

  const InternalError := "Internal server error"

  /** The condition under which `GET` answers from the cache. */
  predicate Hit(cache: Option<BlogCache>, refresh: Option<string>, today: string, now: int) {
    !ForceRefresh(refresh) && cache.Some? && cache.value.date == today &&
    now - cache.value.timestamp < CacheDuration
  }

  /** A cache written on one day is served on that day while younger than 24 hours, and
      never on another day, after it has aged, or when a refresh is forced. */
  lemma HitWindow(rows: seq<Row>, storedAt: int, stored: LocalDate, today: LocalDate, refresh: Option<string>, now: int)
    requires IsCalendarDate(stored) && IsCalendarDate(today)
    ensures Hit(Some(BlogCache(rows, storedAt, CurrentDateString(stored))), refresh, CurrentDateString(today), now) <==>
      !ForceRefresh(refresh) && stored == today && now < storedAt + CacheDuration
  {
    if CurrentDateString(stored) == CurrentDateString(today) {
      DateStringInjective(stored, today);
    }
  }

  /** Once a cache entry has expired it stays expired for the rest of the day. */
  lemma ExpiryIsFinal(cache: Option<BlogCache>, refresh: Option<string>, today: string, now: int, later: int)
    requires now <= later && Hit(cache, refresh, today, later)
    ensures Hit(cache, refresh, today, now)
  {
  }

  /** The reply to a successful write, `NextResponse.json(data[0])`, sent after the
      cache has been dropped. A `null` data throws on the index, and an empty one
      gives `undefined`, which `Response.json` refuses with a `TypeError`; the catch
      answers both with 500. */
  function WriteReply(data: Option<seq<Row>>): (reply: Reply)
    ensures data.None? ==> reply == Error(500, InternalError)
    ensures reply.OneRow? <==> data.Some? && |data.value| > 0
    ensures reply.OneRow? ==> reply.row == data.value[0]
    ensures !reply.OneRow? ==> reply == Error(500, InternalError)
  {
    match data
    case None => Error(500, InternalError)
    case Some(rows) => if |rows| > 0 then OneRow(rows[0]) else Error(500, InternalError)
  }

  /** The route's module state: the cache variable. */
  class BlogsApi {
    var cache: Option<BlogCache>

    /** Every stored entry is dated with a date string. */
    predicate Valid()
      reads this
    {
      cache.Some? ==> ParseDateString(cache.value.date).Some?
    }

    constructor()
      ensures cache.None? && Valid()
    {
      cache := None;
    }

    /** `GET`: the cached rows when `Hit` holds; otherwise the rows of the database
        (`data || []`), which are also cached with the time they arrived (`storedAt`)
        and today's date. A database error or an exception leaves the cache as it was. */
    method Get(refresh: Option<string>, date: LocalDate, now: int, query: Query<Option<seq<Row>>>, storedAt: int)
      returns (reply: Reply)
      requires IsCalendarDate(date) && Valid()
      modifies this
      ensures Valid()
      ensures var today := CurrentDateString(date);
        if Hit(old(cache), refresh, today, now) then
          reply == RowList(old(cache).value.data) && cache == old(cache)
        else match query
          case Answered(data) =>
            reply == RowList(OrEmpty(data)) && cache == Some(BlogCache(OrEmpty(data), storedAt, today))
          case Failed(message) => reply == Error(500, message) && cache == old(cache)
          case Threw(_) => reply == Error(500, InternalError) && cache == old(cache)
    {
      var today := CurrentDateString(date);
      if Hit(cache, refresh, today, now) {
        return RowList(cache.value.data);
      }
      match query {
        case Answered(data) =>
          var rows := OrEmpty(data);
          DateStringRoundTrip(date);
          cache := Some(BlogCache(rows, storedAt, today));
          reply := RowList(rows);
        case Failed(message) =>
          reply := Error(500, message);
        case Threw(_) =>
          reply := Error(500, InternalError);
      }
    }

    /** `POST`: inserts the row; success drops the cache, an error keeps it. */
    method Post(insert: Query<Option<seq<Row>>>) returns (reply: Reply)
      requires Valid()
      modifies this
      ensures Valid()
      ensures match insert
        case Answered(data) => cache.None? && reply == WriteReply(data)
        case Failed(message) => reply == Error(500, message) && cache == old(cache)
        case Threw(_) => reply == Error(500, InternalError) && cache == old(cache)
    {
      match insert {
        case Answered(data) =>
          cache := None;
          reply := WriteReply(data);
        case Failed(message) =>
          reply := Error(500, message);
        case Threw(_) =>
          reply := Error(500, InternalError);
      }
    }

    /** `PUT`: without an id it answers 400 and reaches no database (the reply and the
        cache do not depend on `update`); otherwise it behaves as `POST`. */
    method Put(id: Option<int>, update: Query<Option<seq<Row>>>) returns (reply: Reply)
      requires Valid()
      modifies this
      ensures Valid()
      ensures MissingBodyId(id) ==> reply == Error(400, IdRequired) && cache == old(cache)
      ensures !MissingBodyId(id) ==> match update
        case Answered(data) => cache.None? && reply == WriteReply(data)
        case Failed(message) => reply == Error(500, message) && cache == old(cache)
        case Threw(_) => reply == Error(500, InternalError) && cache == old(cache)
    {
      if MissingBodyId(id) {
        return Error(400, IdRequired);
      }
      match update {
        case Answered(data) =>
          cache := None;
          reply := WriteReply(data);
        case Failed(message) =>
          reply := Error(500, message);
        case Threw(_) =>
          reply := Error(500, InternalError);
      }
    }

    /** `DELETE`: the id comes from the query string; without one it answers 400. */
    method Delete(id: Option<string>, delete: Query<()>) returns (reply: Reply)
      requires Valid()
      modifies this
      ensures Valid()
      ensures MissingQueryId(id) ==> reply == Error(400, IdRequired) && cache == old(cache)
      ensures !MissingQueryId(id) ==> match delete
        case Answered(_) => cache.None? && reply == Done
        case Failed(message) => reply == Error(500, message) && cache == old(cache)
        case Threw(_) => reply == Error(500, InternalError) && cache == old(cache)
    {
      if MissingQueryId(id) {
        return Error(400, IdRequired);
      }
      match delete {
        case Answered(_) =>
          cache := None;
          reply := Done;
        case Failed(message) =>
          reply := Error(500, message);
        case Threw(_) =>
          reply := Error(500, InternalError);
      }
    }
  }
}
