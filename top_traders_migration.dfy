/** The move of the leaderboard's traders from the bundled mock data into the database:
    the two field renamings between the display record and the database row, and the
    upload loop. */
module TopTradersMigration {
  import opened Common

  /** A trader as the leaderboard displays it. */
  datatype Trader = Trader(
    rank: int,
    traderId: string,
    nickname: string,
    avatar: Option<string>,
    country: string,
    countryCode: string,
    monthlyReturn: real,
    totalReturn: real,
    winRate: real,
    totalTrades: int,
    profitFactor: real,
    maxDrawdown: real,
    sharpeRatio: real,
    tradingDays: int,
    accountSize: real,
    currentPosition: real,
    inMatrix: bool,
    updateTime: string)

  /** The columns of a database row that the application writes: every column but
      `id`, `created_at` and `updated_at`. */
  datatype TraderColumns = TraderColumns(
    rank: int,
    trader_id: string,
    nickname: string,
    avatar: Option<string>,
    country: string,
    country_code: string,
    monthly_return: real,
    total_return: real,
    win_rate: real,
    total_trades: int,
    profit_factor: real,
    max_drawdown: real,
    sharpe_ratio: real,
    trading_days: int,
    account_size: real,
    current_position: real,
    in_matrix: bool,
    update_time: string)

  /** A stored row: the written columns and the three the database fills in. */
  datatype DbTrader = DbTrader(id: int, created_at: string, updated_at: string, columns: TraderColumns)

  /** `convertTopTrader`: each field under its snake_case column name, unchanged. */
  function ConvertTopTrader(t: Trader): (c: TraderColumns)
    ensures c.trader_id == t.traderId && c.rank == t.rank
  {
    TraderColumns(
      t.rank, t.traderId, t.nickname, t.avatar, t.country, t.countryCode,
      t.monthlyReturn, t.totalReturn, t.winRate, t.totalTrades, t.profitFactor,
      t.maxDrawdown, t.sharpeRatio, t.tradingDays, t.accountSize, t.currentPosition,
      t.inMatrix, t.updateTime)
  }

  /** `convertDbTraderToDisplay`: the inverse renaming; the database's own columns are
      dropped. Converting the result back gives the row's written columns. */
  function ConvertDbTraderToDisplay(d: DbTrader): (t: Trader)
    ensures ConvertTopTrader(t) == d.columns
  {
    var c := d.columns;
    Trader(
      c.rank, c.trader_id, c.nickname, c.avatar, c.country, c.country_code,
      c.monthly_return, c.total_return, c.win_rate, c.total_trades, c.profit_factor,
      c.max_drawdown, c.sharpe_ratio, c.trading_days, c.account_size, c.current_position,
      c.in_matrix, c.update_time)
  }

  /** Storing a converted trader and reading it back gives the same trader, whatever id
      and timestamps the database assigns. */
  lemma DisplayRoundTrip(t: Trader, id: int, createdAt: string, updatedAt: string)
    ensures ConvertDbTraderToDisplay(DbTrader(id, createdAt, updatedAt, ConvertTopTrader(t))) == t
  {
  }

  /** Distinct traders are stored as distinct rows. */
  lemma ConvertTopTraderInjective(s: Trader, t: Trader)
    requires ConvertTopTrader(s) == ConvertTopTrader(t)
    ensures s == t
  {
    DisplayRoundTrip(s, 0, "", "");
    DisplayRoundTrip(t, 0, "", "");
  }

  // ---------------------------------------------------------------------------
  // migrateTopTraders

  /** What one POST to the traders endpoint came to: an ok response; a response that
      is not ok, with the `error` field of its JSON body if it has one; or an exception,
      with its message when it is an `Error`. */
  datatype PostAttempt = Created | Refused(errorField: Option<string>) | Threw(message: Option<string>)

  /** The endpoint as seen by the loop: the attempt for the `k`-th upload of a row. */
  type TraderEndpoint = (TraderColumns, nat) -> PostAttempt

  datatype TraderMigration = TraderMigration(success: bool, trader: Trader, error: Option<string>)

  const UnknownError := "Unknown error"

  /** `x || 'Unknown error'` for an optional string: a missing or empty text falls back. */
  function OrUnknown(text: Option<string>): (r: string)
    ensures r != ""
    ensures text.Some? && text.value != "" ==> r == text.value
  {
    if text.Some? && text.value != "" then text.value else UnknownError
  }

  /** `error instanceof Error ? error.message : 'Unknown error'`: an `Error`'s own
      message, even an empty one; anything else thrown falls back. */
  function ThrownMessage(message: Option<string>): (r: string)
    ensures message.Some? ==> r == message.value
    ensures message.None? ==> r == UnknownError
  {
    if message.Some? then message.value else UnknownError
  }

  /** The result recorded for one trader. */
  function ResultFor(t: Trader, attempt: PostAttempt): (r: TraderMigration)
    ensures r.trader == t
    ensures r.success <==> attempt.Created?
    ensures r.success <==> r.error.None?
    ensures attempt.Refused? ==> r.error.value != ""
    ensures attempt.Threw? ==> r.error == Some(ThrownMessage(attempt.message))
  {
    match attempt
    case Created => TraderMigration(true, t, None)
    case Refused(field) => TraderMigration(false, t, Some(OrUnknown(field)))
    case Threw(message) => TraderMigration(false, t, Some(ThrownMessage(message)))
  }

  /** The body of the loop for one trader. */
  method Record(t: Trader, attempt: PostAttempt) returns (result: TraderMigration)
    ensures result == ResultFor(t, attempt)
  {
    match attempt {
      case Created =>
        result := TraderMigration(true, t, None);
      case Refused(field) =>
        result := TraderMigration(false, t, Some(OrUnknown(field)));
      case Threw(message) =>
        result := TraderMigration(false, t, Some(ThrownMessage(message)));
    }
  }

  /** `migrateTopTraders`: every trader is converted and uploaded in turn; one result per
      trader, in order, successful iff the response was ok. */
  method MigrateTopTraders(traders: seq<Trader>, endpoint: TraderEndpoint) returns (results: seq<TraderMigration>)
    ensures |results| == |traders|
    ensures forall k :: 0 <= k < |traders| ==> results[k] == ResultFor(traders[k], endpoint(ConvertTopTrader(traders[k]), k))
    ensures forall k :: 0 <= k < |traders| ==> results[k].trader == traders[k]
    ensures forall k :: 0 <= k < |traders| ==>
      (results[k].success <==> endpoint(ConvertTopTrader(traders[k]), k).Created?)
  {
    results := [];
    for i := 0 to |traders|
      invariant |results| == i
      invariant forall k :: 0 <= k < i ==> results[k] == ResultFor(traders[k], endpoint(ConvertTopTrader(traders[k]), k))
    {
      var converted := ConvertTopTrader(traders[i]);
      var result := Record(traders[i], endpoint(converted, i));
      results := results + [result];
    }
  }
}
