/** The leaderboard API route: reads go through a five-minute in-memory cache held in
    two variables, the rows and the time they were read, which every successful write
    clears together. */
module TopTradersRoute {
  import opened Common
  import opened RouteTypes

  /** Five minutes in milliseconds. */
  const CacheDuration := 5 * 60 * 1000

  const UnknownError := "Unknown error"

  /** The message of a caught exception: its own message when it is an `Error`, and
      "Unknown error" for anything else thrown. */
  function ThrownMessage(error: Option<string>): (message: string)
    ensures error.Some? ==> message == error.value
    ensures error.None? ==> message == UnknownError
  {
    if error.Some? then error.value else UnknownError
  }

  /** The condition under which `GET` answers from the cache. The rows must be present
      (an empty list counts) and the timestamp truthy: present and not zero. */
  predicate Hit(traders: Option<seq<Row>>, stamp: Option<int>, refresh: Option<string>, now: int) {
    !ForceRefresh(refresh) && traders.Some? && stamp.Some? && stamp.value != 0 &&
    now - stamp.value < CacheDuration
  }

  /** Rows stored at a nonzero time are served until five minutes have passed and never
      when a refresh is forced; rows stored at time zero are never served, because a zero
      timestamp is falsy. */
  lemma HitWindow(rows: seq<Row>, storedAt: int, refresh: Option<string>, now: int)
    ensures storedAt != 0 ==>
      (Hit(Some(rows), Some(storedAt), refresh, now) <==> !ForceRefresh(refresh) && now < storedAt + CacheDuration)
    ensures storedAt == 0 ==> !Hit(Some(rows), Some(storedAt), refresh, now)
  {
  }

  /** The route's module state: the two cache variables. */
  class TopTradersApi {
    var cachedTraders: Option<seq<Row>>
    var cacheTimestamp: Option<int>

    /** The two variables are set together and cleared together. */
    predicate Valid()
      reads this
    {
      cachedTraders.Some? <==> cacheTimestamp.Some?
    }

    constructor()
      ensures cachedTraders.None? && cacheTimestamp.None? && Valid()
    {
      cachedTraders := None;
      cacheTimestamp := None;
    }

    /** `GET`: the cached rows when `Hit` holds; otherwise the database's rows
        (`data || []`), which are cached with the time they arrived (`storedAt`). A
        database error or an exception leaves both variables as they were. */
    method Get(refresh: Option<string>, now: int, query: Query<Option<seq<Row>>>, storedAt: int)
      returns (reply: Reply)
      requires Valid()
      modifies this
      ensures Valid()
      ensures if Hit(old(cachedTraders), old(cacheTimestamp), refresh, now) then
          reply == RowList(old(cachedTraders).value) &&
          cachedTraders == old(cachedTraders) && cacheTimestamp == old(cacheTimestamp)
        else match query
          case Answered(data) =>
            reply == RowList(OrEmpty(data)) &&
            cachedTraders == Some(OrEmpty(data)) && cacheTimestamp == Some(storedAt)
          case Failed(message) =>
            reply == Error(500, message) &&
            cachedTraders == old(cachedTraders) && cacheTimestamp == old(cacheTimestamp)
          case Threw(error) =>
            reply == Error(500, ThrownMessage(error)) &&
            cachedTraders == old(cachedTraders) && cacheTimestamp == old(cacheTimestamp)
    {
      if Hit(cachedTraders, cacheTimestamp, refresh, now) {
        return RowList(cachedTraders.value);
      }
      match query {
        case Answered(data) =>
          cachedTraders := Some(OrEmpty(data));
          cacheTimestamp := Some(storedAt);
          reply := RowList(OrEmpty(data));
        case Failed(message) =>
          reply := Error(500, message);
        case Threw(error) =>
          reply := Error(500, ThrownMessage(error));
      }
    }

    /** `POST`: inserts one row (`.single()`); success clears the cache and returns the
        row, an error keeps the cache. */
    method Post(insert: Query<Row>) returns (reply: Reply)
      requires Valid()
      modifies this
      ensures Valid()
      ensures match insert
        case Answered(row) =>
          reply == OneRow(row) && cachedTraders.None? && cacheTimestamp.None?
        case Failed(message) =>
          reply == Error(500, message) &&
          cachedTraders == old(cachedTraders) && cacheTimestamp == old(cacheTimestamp)
        case Threw(error) =>
          reply == Error(500, ThrownMessage(error)) &&
          cachedTraders == old(cachedTraders) && cacheTimestamp == old(cacheTimestamp)
    {
      match insert {
        case Answered(row) =>
          cachedTraders := None;
          cacheTimestamp := None;
          reply := OneRow(row);
        case Failed(message) =>
          reply := Error(500, message);
        case Threw(error) =>
          reply := Error(500, ThrownMessage(error));
      }
    }

    /** `PUT`: without an id in the body it answers 400 and reaches no database (the
        reply and the cache do not depend on `update`); otherwise it behaves as `POST`. */
    method Put(id: Option<int>, update: Query<Row>) returns (reply: Reply)
      requires Valid()
      modifies this
      ensures Valid()
      ensures MissingBodyId(id) ==>
        reply == Error(400, IdRequired) &&
        cachedTraders == old(cachedTraders) && cacheTimestamp == old(cacheTimestamp)
      ensures !MissingBodyId(id) ==> match update
        case Answered(row) =>
          reply == OneRow(row) && cachedTraders.None? && cacheTimestamp.None?
        case Failed(message) =>
          reply == Error(500, message) &&
          cachedTraders == old(cachedTraders) && cacheTimestamp == old(cacheTimestamp)
        case Threw(error) =>
          reply == Error(500, ThrownMessage(error)) &&
          cachedTraders == old(cachedTraders) && cacheTimestamp == old(cacheTimestamp)
    {
      if MissingBodyId(id) {
        return Error(400, IdRequired);
      }
      match update {
        case Answered(row) =>
          cachedTraders := None;
          cacheTimestamp := None;
          reply := OneRow(row);
        case Failed(message) =>
          reply := Error(500, message);
        case Threw(error) =>
          reply := Error(500, ThrownMessage(error));
      }
    }

    /** `DELETE`: the id comes from the query string; without one it answers 400. */
    method Delete(id: Option<string>, delete: Query<()>) returns (reply: Reply)
      requires Valid()
      modifies this
      ensures Valid()
      ensures MissingQueryId(id) ==>
        reply == Error(400, IdRequired) &&
        cachedTraders == old(cachedTraders) && cacheTimestamp == old(cacheTimestamp)
      ensures !MissingQueryId(id) ==> match delete
        case Answered(_) => reply == Done && cachedTraders.None? && cacheTimestamp.None?
        case Failed(message) =>
          reply == Error(500, message) &&
          cachedTraders == old(cachedTraders) && cacheTimestamp == old(cacheTimestamp)
        case Threw(error) =>
          reply == Error(500, ThrownMessage(error)) &&
          cachedTraders == old(cachedTraders) && cacheTimestamp == old(cacheTimestamp)
    {
      if MissingQueryId(id) {
        return Error(400, IdRequired);
      }
      match delete {
        case Answered(_) =>
          cachedTraders := None;
          cacheTimestamp := None;
          reply := Done;
        case Failed(message) =>
          reply := Error(500, message);
        case Threw(error) =>
          reply := Error(500, ThrownMessage(error));
      }
    }
  }
}
