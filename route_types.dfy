/** What the two cached API routes share: the rows they pass through, what a database
    call can come to, and the replies they send. */
module RouteTypes {
  import opened Common

  /** A database row as JSON: the routes pass rows through without reading them. */
  type Row = map<string, string>

  /** What a database call came to: an answer, an error object with its message, or an
      exception (a thrown `Error` carries its message). A request body that is not JSON
      throws in the same way, before any database call. */
  datatype Query<T> = Answered(data: T) | Failed(message: string) | Threw(error: Option<string>)

  /** The JSON replies: a list of rows, a single row, `{ success: true }`, or
      `{ error }` with an HTTP status. */
  datatype Reply = RowList(rows: seq<Row>) | OneRow(row: Row) | Done | Error(status: int, message: string)

  const IdRequired := "ID is required"

  /** `searchParams.get('refresh') === 'true'`. */
  predicate ForceRefresh(refresh: Option<string>) {
    refresh == Some("true")
  }

  /** `data || []`. */
  function OrEmpty(data: Option<seq<Row>>): (rows: seq<Row>)
    ensures data.Some? ==> rows == data.value
    ensures data.None? ==> rows == []
  {
    if data.Some? then data.value else []
  }

  /** `!id` for an id taken from the JSON body: missing, null or zero. */
  predicate MissingBodyId(id: Option<int>) {
    id.None? || id.value == 0
  }

  /** `!id` for an id taken from the query string: absent or empty. */
  predicate MissingQueryId(id: Option<string>) {
    id.None? || id.value == ""
  }
}
