/**
 * The signal handler: it reads the chosen ticker, asset class, period,
 * interval and signal type from the conversation state, resolves the
 * exchange symbol, fetches bars from the feed the asset class uses, builds
 * the indicator list for the signal type, runs the dynamic generator and
 * summarises the latest row as a direction, an entry price and a confidence.
 */
module Analysis {
  import opened Base
  import opened Frames
  import opened Indicators
  import opened SignalEngine
  import opened Providers
  import opened Session

  // ----- The request ------------------------------------------------------------------

  /** `ticker_map`: menu ticker keys to exchange symbols, by asset class. */
  const TickerMap: map<string, map<string, string>> := map[
    "commodities" := map["commodity_gold" := "GC=F", "commodity_silver" := "SI=F",
                         "commodity_oil" := "CL=F", "commodity_natgas" := "NG=F"],
    "crypto" := map["crypto_btc_usd" := "BTC/USDT", "crypto_eth_usd" := "ETH/USDT",
                    "crypto_sol_usd" := "SOL/USDT", "crypto_bnb_usd" := "BNB/USDT",
                    "crypto_ada_usd" := "ADA/USDT"],
    "forex" := map["forex_eur_usd" := "EURUSD=X", "forex_gbp_usd" := "GBPUSD=X",
                   "forex_usd_jpy" := "USDJPY=X", "forex_aud_usd" := "AUDUSD=X",
                   "forex_usd_chf" := "USDCHF=X"],
    "indices" := map["index_sp500" := "^GSPC", "index_nasdaq" := "^IXIC", "index_dowj" := "^DJI",
                     "index_ftse" := "^FTSE", "index_nikkei" := "^N225"],
    "stocks" := map["stock_aapl" := "AAPL", "stock_tsla" := "TSLA", "stock_goog" := "GOOG",
                    "stock_msft" := "MSFT", "stock_amzn" := "AMZN"]
  ]

  /** `ticker_map.get(asset_type, {}).get(ticker)`. */
  function SymbolFor(assetType: string, ticker: string): Option<string> {
    if assetType in TickerMap && ticker in TickerMap[assetType] then Some(TickerMap[assetType][ticker])
    else None
  }

  /** What the handler has resolved before it fetches anything. */
  datatype SignalRequest = SignalRequest(ticker: string, assetType: string, period: string,
                                         interval: string, signalType: string, symbol: string)

  /** A required entry is falsy: absent (None) or the empty string. */
  predicate Blank(fields: map<string, string>, key: string) {
    key !in fields || fields[key] == ""
  }

  predicate Incomplete(fields: map<string, string>) {
    Blank(fields, "ticker") || Blank(fields, "asset_type") ||
    Blank(fields, "period") || Blank(fields, "interval")
  }

  /**
   * The checks before the fetch: a blank required entry, then a ticker the
   * table does not list for the asset class (the symbols are all non-empty,
   * so only a missing one is falsy). The signal type defaults to "combined"
   * only when the key is absent.
   */
  function ReadRequest(fields: map<string, string>): (r: Result<SignalRequest>)
    ensures Incomplete(fields) <==> r == Err(MissingRequestData)
    ensures r.Ok? <==> !Incomplete(fields) && SymbolFor(fields["asset_type"], fields["ticker"]).Some?
    ensures r.Ok? ==> r.value.assetType in TickerMap &&
                      r.value.ticker in TickerMap[r.value.assetType] &&
                      r.value.symbol == TickerMap[r.value.assetType][r.value.ticker]
    ensures r.Ok? ==> && r.value.ticker == fields["ticker"] && r.value.assetType == fields["asset_type"]
                      && r.value.period == fields["period"] && r.value.interval == fields["interval"]
  {
    if Incomplete(fields) then Err(MissingRequestData)
    else match SymbolFor(fields["asset_type"], fields["ticker"])
      case None => Err(InvalidTicker)
      case Some(symbol) =>
        var signalType := if "signal_type" in fields then fields["signal_type"] else "combined";
        Ok(SignalRequest(fields["ticker"], fields["asset_type"], fields["period"],
                         fields["interval"], signalType, symbol))
  }

  /**
   * The signal type is the stored one when the key is present, even when it
   * is blank, and "combined" only when the key is absent.
   */
  lemma SignalTypeDefault(fields: map<string, string>)
    requires ReadRequest(fields).Ok?
    ensures "signal_type" !in fields ==> ReadRequest(fields).value.signalType == "combined"
    ensures "signal_type" in fields ==> ReadRequest(fields).value.signalType == fields["signal_type"]
  {
  }

  // ----- Configuration and indicators ---------------------------------------------------

  /** The RSI thresholds the handler puts in its one-entry config. */
  function ThresholdsFor(assetType: string): (t: Thresholds)
    ensures ValidThresholds(t) && 0.0 < t.buy < t.sell < 100.0 && t.buy + t.sell == 100.0
  {
    if assetType in {"crypto", "forex"} then Thresholds(30.0, 70.0)
    else if assetType in {"stocks", "indices"} then Thresholds(40.0, 60.0)
    else Thresholds(35.0, 65.0)
  }

  /** The thresholds by asset class: 30/70 for crypto and forex, 40/60 for stocks and indices, 35/65 otherwise. */
  lemma ThresholdTable(assetType: string)
    ensures assetType == "crypto" || assetType == "forex" ==> ThresholdsFor(assetType) == Thresholds(30.0, 70.0)
    ensures assetType == "stocks" || assetType == "indices" ==> ThresholdsFor(assetType) == Thresholds(40.0, 60.0)
    ensures assetType !in {"crypto", "forex", "stocks", "indices"} ==> ThresholdsFor(assetType) == Thresholds(35.0, 65.0)
  {
  }

  /** The config maps exactly the request's asset class, so the generator's lookup never fails. */
  function ConfigFor(assetType: string): (config: map<string, Thresholds>)
    ensures ValidConfig(config) && config.Keys == {assetType}
  {
    map[assetType := ThresholdsFor(assetType)]
  }

  /** The three indicators the handler knows, in the order it appends them. */
  function Standard(t: Thresholds): seq<Indicator> {
    [Rsi(14, t.buy, t.sell), Macd(12, 26, 9), Obv]
  }

  function NameOf(ind: Indicator): string {
    match ind
    case Rsi(_, _, _) => "rsi"
    case Macd(_, _, _) => "macd"
    case Obv => "obv"
  }

  /** A signal type selects an indicator when it names it or is "combined". */
  predicate Selects(signalType: string, ind: Indicator) {
    signalType == NameOf(ind) || signalType == "combined"
  }

  /** The elements of `inds` a signal type selects, in order. */
  function Selected(inds: seq<Indicator>, signalType: string): (r: seq<Indicator>)
    ensures |r| <= |inds|
    ensures forall ind :: ind in r <==> ind in inds && Selects(signalType, ind)
    ensures AllValid(inds) ==> AllValid(r)
  {
    if inds == [] then []
    else (if Selects(signalType, inds[0]) then [inds[0]] else []) + Selected(inds[1..], signalType)
  }

  /** The indicators the handler builds for a signal type; every one is valid for its calculator. */
  function IndicatorList(signalType: string, t: Thresholds): (inds: seq<Indicator>)
    ensures AllValid(inds)
  {
    Selected(Standard(t), signalType)
  }

  /** The handler's three conditional appends. */
  method BuildIndicators(signalType: string, t: Thresholds) returns (inds: seq<Indicator>)
    ensures inds == IndicatorList(signalType, t)
  {
    IndicatorListUnfolded(signalType, t);
    inds := [];
    if signalType == "rsi" || signalType == "combined" {
      inds := inds + [Rsi(14, t.buy, t.sell)];
    }
    if signalType == "macd" || signalType == "combined" {
      inds := inds + [Macd(12, 26, 9)];
    }
    if signalType == "obv" || signalType == "combined" {
      inds := inds + [Obv];
    }
  }

  /** The handler's list is its three appends, each kept when the signal type selects it. */
  lemma IndicatorListUnfolded(signalType: string, t: Thresholds)
    ensures IndicatorList(signalType, t) ==
              (if Selects(signalType, Rsi(14, t.buy, t.sell)) then [Rsi(14, t.buy, t.sell)] else []) +
              (if Selects(signalType, Macd(12, 26, 9)) then [Macd(12, 26, 9)] else []) +
              (if Selects(signalType, Obv) then [Obv] else [])
  {
    var s := Standard(t);
    assert Selected(s, signalType) ==
             (if Selects(signalType, s[0]) then [s[0]] else []) + Selected(s[1..], signalType);
    assert Selected(s[1..], signalType) ==
             (if Selects(signalType, s[1]) then [s[1]] else []) + Selected(s[1..][1..], signalType);
    assert Selected(s[1..][1..], signalType) ==
             (if Selects(signalType, s[2]) then [s[2]] else []) + Selected(s[1..][1..][1..], signalType);
    assert s[1..][1..][1..] == [];
  }

  /**
   * "combined" selects RSI(14), MACD(12, 26, 9) and OBV in that order, each
   * single name selects its own indicator alone, and any other type selects
   * nothing. Every selection is valid for the calculators.
   */
  lemma IndicatorSelection(signalType: string, t: Thresholds)
    ensures AllValid(IndicatorList(signalType, t))
    ensures signalType == "combined" ==> IndicatorList(signalType, t) == [Rsi(14, t.buy, t.sell), Macd(12, 26, 9), Obv]
    ensures signalType == "rsi" ==> IndicatorList(signalType, t) == [Rsi(14, t.buy, t.sell)]
    ensures signalType == "macd" ==> IndicatorList(signalType, t) == [Macd(12, 26, 9)]
    ensures signalType == "obv" ==> IndicatorList(signalType, t) == [Obv]
    ensures signalType !in {"combined", "rsi", "macd", "obv"} ==> IndicatorList(signalType, t) == []
  {
    IndicatorListUnfolded(signalType, t);
  }

  // ----- The summary ------------------------------------------------------------------

  datatype Direction = Buy | Sell | Hold

  function DirectionOf(signal: int): (d: Direction) {
    if signal == 1 then Buy else if signal == -1 then Sell else Hold
  }

  /** `min(confidence * 100, 100)`. */
  function Percent(confidence: real): (p: real)
    ensures p <= 100.0
    ensures confidence <= 1.0 ==> p == confidence * 100.0
    ensures 0.0 <= confidence ==> 0.0 <= p
  {
    if confidence * 100.0 < 100.0 then confidence * 100.0 else 100.0
  }

  /** What the report shows: direction, entry and exit (None renders as "N/A"), confidence in percent. */
  datatype Summary = Summary(direction: Direction, entry: Option<real>, exit: Option<real>, confidence: real)

  /** The summary of the latest row the reading applies. */
  function SummariseBy(reading: Reading, rows: seq<SignalRow>): Result<Summary> {
    match reading
    case AsWritten => SummariseAsWritten(rows)
    case AsIntended => Summarise(rows)
  }

  /**
   * The summary as written: the last row of an empty result is an IndexError,
   * and for a Buy or Sell row the read of the `Exit_Price` column, which the
   * generator never produces, is a KeyError. Both are caught and shown as
   * an error message.
   */
  function SummariseAsWritten(rows: seq<SignalRow>): Result<Summary> {
    if rows == [] then Err(NoRows)
    else
      var row := rows[|rows| - 1];
      if row.signal != 0 then Err(MissingColumn("Exit_Price"))
      else Ok(Summary(DirectionOf(row.signal), None, None, Percent(row.confidence)))
  }

  /** As written, no Buy or Sell is ever reported: every successful summary is a Hold without prices. */
  lemma AsWrittenOnlyHolds(rows: seq<SignalRow>)
    ensures SummariseAsWritten(rows).Ok? ==>
              rows != [] && rows[|rows| - 1].signal == 0 &&
              SummariseAsWritten(rows).value.direction == Hold &&
              SummariseAsWritten(rows).value.entry == None
    ensures rows != [] && rows[|rows| - 1].signal != 0 ==>
              SummariseAsWritten(rows) == Err(MissingColumn("Exit_Price"))
  {
  }

  /**
   * The summary as intended: the absent exit column is read as no exit price,
   * so a Buy or Sell row is reported with its Close as the entry.
   */
  function Summarise(rows: seq<SignalRow>): Result<Summary> {
    if rows == [] then Err(NoRows)
    else
      var row := rows[|rows| - 1];
      Ok(Summary(DirectionOf(row.signal), if row.signal != 0 then Some(row.close) else None,
                 None, Percent(row.confidence)))
  }

  /**
   * The intended summary of a non-empty result: Buy exactly for Signal 1,
   * Sell exactly for -1, Hold otherwise; an entry price exactly when the
   * direction is not Hold, and then it is the row's Close; no exit price;
   * and the row's confidence in percent, capped at 100.
   */
  lemma SummaryMeaning(rows: seq<SignalRow>)
    ensures rows == [] <==> Summarise(rows) == Err(NoRows)
    ensures rows != [] ==>
              var row := rows[|rows| - 1];
              var s := Summarise(rows).value;
              && Summarise(rows).Ok?
              && (s.direction == Buy <==> row.signal == 1)
              && (s.direction == Sell <==> row.signal == -1)
              && (s.direction == Hold <==> row.signal != 1 && row.signal != -1)
              && (s.entry.Some? <==> row.signal != 0)
              && (s.entry.Some? ==> s.entry.value == row.close)
              && s.exit == None
              && s.confidence <= 100.0
              && (0.0 <= row.confidence <= 1.0 ==> s.confidence == 100.0 * row.confidence)
  {
  }

  /** A Buy row shows the discrepancy: an error as written, a Buy at the Close as intended. */
  lemma ExitPriceCounterexample()
    ensures var rows := [SignalRow(1, 0.5, "AAPL", 25.0, 1.0, 0.5, 100.0, 190.0)];
            && SummariseAsWritten(rows) == Err(MissingColumn("Exit_Price"))
            && Summarise(rows) == Ok(Summary(Buy, Some(190.0), None, 50.0))
  {
  }

  // ----- The handler ------------------------------------------------------------------

  /** The columns a provider hands over: Close and Volume, and none of the indicator columns. */
  predicate Fetched(f: Frame) {
    Priced(f) && "RSI" !in f.cols && "MACD" !in f.cols && "MACD_Signal" !in f.cols && "OBV" !in f.cols
  }

  /** What the handler asks its feed for; the exchange feed also gets a start time. */
  datatype FetchRequest = FetchRequest(provider: Provider, symbol: string, period: string,
                                       interval: string, since: Option<int>)

  function FetchFor(req: SignalRequest, now: int): (q: FetchRequest)
    ensures q.provider == Binance <==> req.assetType == "crypto"
    ensures q.since.Some? <==> q.provider == Binance
    ensures q.since.Some? ==> q.since.value == now - LookbackMs(req.period) < now
  {
    var provider := ProviderFor(req.assetType);
    FetchRequest(provider, req.symbol, req.period, req.interval,
                 if provider == Binance then Some(Since(now, req.period)) else None)
  }

  /** A feed: the bars for a request, or None when it raises. */
  type Feed = FetchRequest -> Option<Frame>

  ghost predicate ValidFeed(fetch: Feed) {
    forall q :: fetch(q).Some? ==> Fetched(fetch(q).value)
  }

  /** The generator run on a fetched table with the handler's config and indicator list. */
  function Run(data: Frame, req: SignalRequest): Result<seq<SignalRow>>
    requires Fetched(data)
  {
    var t := ThresholdsFor(req.assetType);
    IndicatorSelection(req.signalType, t);
    Generate(data, IndicatorList(req.signalType, t), req.symbol, ConfigFor(req.assetType), req.assetType)
  }

  /** Everything inside the handler's `try`: fetch, configure, generate, summarise. */
  function Analyse(req: SignalRequest, fetch: Feed, now: int, reading: Reading): Result<Summary>
    requires ValidFeed(fetch)
  {
    var fetched := fetch(FetchFor(req, now));
    if fetched.None? then Err(FetchFailed)
    else match Run(fetched.value, req)
      case Err(e) => Err(e)
      case Ok(rows) => SummariseBy(reading, rows)
  }

  /** The periods the back button offers. */
  const BackPeriods: seq<string> := ["7d", "14d", "30d", "6mo", "1y"]

  /**
   * What the user sees after the callback. `KeyboardTypeError`: the period
   * keyboard is built by calling `get_period_keyboard` with the periods, but
   * that function takes no argument; the TypeError is raised outside the
   * handler's `try`, so nothing is shown.
   */
  datatype Outcome =
    | Report(request: FetchRequest, summary: Summary)
    | ErrorMessage(error: Error)
    | PeriodChoice(periods: seq<string>)
    | KeyboardTypeError
    | Ignored

  /**
   * `signal_callback`'s outcome for the old state and the callback data;
   * `reading` says which summary of the latest row it applies and whether
   * the back button's keyboard call fails as written or offers the periods.
   */
  function SignalOutcome(fields: map<string, string>, data: string, fetch: Feed, now: int, reading: Reading): Outcome
    requires ValidFeed(fetch)
  {
    if data == "generate_signal" then
      match ReadRequest(fields)
      case Err(e) => ErrorMessage(e)
      case Ok(req) =>
        match Analyse(req, fetch, now, reading)
        case Err(e) => ErrorMessage(e)
        case Ok(s) => Report(FetchFor(req, now), s)
    else if data == "back_button" then
      if reading == AsWritten then KeyboardTypeError else PeriodChoice(BackPeriods)
    else Ignored
  }

  /** `signal_callback`, with the feed and the clock as parameters. */
  method SignalCallback(u: UserData, data: string, fetch: Feed, now: int) returns (o: Outcome)
    requires ValidFeed(fetch)
    modifies u
    ensures o == SignalOutcome(old(u.fields), data, fetch, now, AsWritten)
    ensures u.fields == if data == "back_button" then old(u.fields)["state" := "select_period"] else old(u.fields)
  {
    o := Ignored;
    if data == "generate_signal" {
      var request := ReadRequest(u.fields);
      if request.Err? {
        o := ErrorMessage(request.error);
        return;
      }
      var req := request.value;
      var q := FetchFor(req, now);
      var fetched := fetch(q);
      if fetched.None? {
        o := ErrorMessage(FetchFailed);
        return;
      }
      var t := ThresholdsFor(req.assetType);
      var inds := BuildIndicators(req.signalType, t);
      IndicatorSelection(req.signalType, t);
      var rows := GenerateSignals(fetched.value, inds, req.symbol, ConfigFor(req.assetType), req.assetType);
      assert rows == Run(fetched.value, req);
      if rows.Err? {
        o := ErrorMessage(rows.error);
        return;
      }
      var summary := SummariseAsWritten(rows.value);
      o := match summary
        case Err(e) => ErrorMessage(e)
        case Ok(s) => Report(q, s);
    } else if data == "back_button" {
      u.fields := u.fields["state" := "select_period"];
      o := KeyboardTypeError;
    }
  }

  // ----- What the handler promises ------------------------------------------------------

  /**
   * The back button: as written the state becomes select_period and the
   * keyboard call then raises TypeError, so no period menu is shown; as
   * intended the five periods are offered.
   */
  lemma BackButtonOutcome(fields: map<string, string>, fetch: Feed, now: int)
    requires ValidFeed(fetch)
    ensures SignalOutcome(fields, "back_button", fetch, now, AsWritten) == KeyboardTypeError
    ensures SignalOutcome(fields, "back_button", fetch, now, AsIntended) ==
              PeriodChoice(["7d", "14d", "30d", "6mo", "1y"])
  {
  }

  /**
   * Before anything is fetched, a request with a blank ticker, asset class,
   * period or interval is refused, and then one whose ticker the table does
   * not list for the asset class.
   */
  lemma RequestChecks(fields: map<string, string>, fetch: Feed, now: int, reading: Reading)
    requires ValidFeed(fetch)
    ensures Incomplete(fields) ==> SignalOutcome(fields, "generate_signal", fetch, now, reading) == ErrorMessage(MissingRequestData)
    ensures !Incomplete(fields) && SymbolFor(fields["asset_type"], fields["ticker"]).None? ==>
              SignalOutcome(fields, "generate_signal", fetch, now, reading) == ErrorMessage(InvalidTicker)
  {
  }

  /** With "macd" alone the generator finds MACD and MACD_Signal but no OBV column. */
  lemma MacdAloneLacksObv(data: Frame, req: SignalRequest)
    requires Fetched(data) && req.signalType == "macd"
    ensures Run(data, req) == Err(MissingColumn("OBV"))
  {
    var t := ThresholdsFor(req.assetType);
    var inds := IndicatorList(req.signalType, t);
    IndicatorSelection(req.signalType, t);
    assert inds[..0] == [];
    assert AddedColumns(inds) == {"MACD", "MACD_Signal"};
    var full := ApplyAll(inds, data);
    assert full.cols.Keys == data.cols.Keys + {"MACD", "MACD_Signal"};
    assert FirstMissing(Surviving(data, inds)) == Some("OBV");
  }

  /** Any other type but "combined" selects no MACD, and the generator's first read fails. */
  lemma OthersLackMacd(data: Frame, req: SignalRequest)
    requires Fetched(data) && req.signalType != "macd" && req.signalType != "combined"
    ensures Run(data, req) == Err(MissingColumn("MACD"))
  {
    var t := ThresholdsFor(req.assetType);
    var inds := IndicatorList(req.signalType, t);
    var config := ConfigFor(req.assetType);
    IndicatorSelection(req.signalType, t);
    assert inds == [Rsi(14, t.buy, t.sell)] || inds == [Obv] || inds == [];
    assert forall k :: 0 <= k < |inds| ==> !inds[k].Macd?;
    GenerateNeedsAllIndicators(data, inds, req.symbol, config, req.assetType);
    assert Run(data, req) == Generate(data, inds, req.symbol, config, req.assetType);
  }

  /**
   * Only the combined signal type can produce a report: a single-indicator
   * type fails on a column the generator reads and no indicator of the list
   * computed (MACD for "rsi", "obv" and unknown types, OBV for "macd").
   */
  lemma SingleIndicatorTypesFail(fields: map<string, string>, fetch: Feed, now: int, reading: Reading)
    requires ValidFeed(fetch)
    requires ReadRequest(fields).Ok? && ReadRequest(fields).value.signalType != "combined"
    requires fetch(FetchFor(ReadRequest(fields).value, now)).Some?
    ensures SignalOutcome(fields, "generate_signal", fetch, now, reading) ==
              ErrorMessage(MissingColumn(if ReadRequest(fields).value.signalType == "macd" then "OBV" else "MACD"))
  {
    var req := ReadRequest(fields).value;
    var data := fetch(FetchFor(req, now)).value;
    if req.signalType == "macd" {
      MacdAloneLacksObv(data, req);
    } else {
      OthersLackMacd(data, req);
    }
  }

  /** The generator's promises for a list with all three indicators, gathered in one place. */
  lemma FullListGenerates(data: Frame, inds: seq<Indicator>, symbol: string,
                          config: map<string, Thresholds>, assetType: string)
    requires Priced(data) && AllValid(inds) && ValidConfig(config) && assetType in config
    requires |inds| == 3 && inds[0].Rsi? && inds[1].Macd? && inds[2].Obv?
    ensures var r := Generate(data, inds, symbol, config, assetType);
            var full := ApplyAll(inds, data);
            && r.Ok? && |r.value| <= 1
            && (r.value != [] ==>
                  && |Kept(full)| > 0
                  && r.value[0].close == Closes(full)[Kept(full)[|Kept(full)| - 1]]
                  && r.value[0].signal in {-1, 0, 1}
                  && 0.0 <= r.value[0].confidence <= 1.0
                  && (r.value[0].signal == 0 <==> r.value[0].confidence == 0.0)
                  && (r.value[0].signal != 0 ==> r.value[0].confidence > 1.0 / 3.0))
  {
    GenerateNeedsAllIndicators(data, inds, symbol, config, assetType);
    GenerateRowCount(data, inds, symbol, config, assetType);
    if Generate(data, inds, symbol, config, assetType).value != [] {
      GenerateReturnsLastRow(data, inds, symbol, config, assetType);
    }
  }

  /**
   * For a combined request the generator yields the latest complete bar of
   * the indicator table, or nothing when no bar survives the warm-up; a
   * Buy or Sell row carries that bar's Close.
   */
  lemma CombinedRun(data: Frame, req: SignalRequest)
    requires Fetched(data) && req.signalType == "combined"
    ensures Run(data, req).Ok? && |Run(data, req).value| <= 1
    ensures var full := ApplyAll(IndicatorList(req.signalType, ThresholdsFor(req.assetType)), data);
            var rows := Run(data, req).value;
            rows != [] ==>
              && |Kept(full)| > 0
              && rows[0].close == Closes(full)[Kept(full)[|Kept(full)| - 1]]
              && rows[0].signal in {-1, 0, 1}
              && 0.0 <= rows[0].confidence <= 1.0
              && (rows[0].signal == 0 <==> rows[0].confidence == 0.0)
              && (rows[0].signal != 0 ==> rows[0].confidence > 1.0 / 3.0)
  {
    var t := ThresholdsFor(req.assetType);
    var inds := IndicatorList(req.signalType, t);
    var config := ConfigFor(req.assetType);
    IndicatorSelection(req.signalType, t);
    assert Run(data, req) == Generate(data, inds, req.symbol, config, req.assetType);
    FullListGenerates(data, inds, req.symbol, config, req.assetType);
  }

  /**
   * As written, a complete, listed, combined request on a feed that answers
   * never reports a Buy or Sell: the outcome is a Hold report without prices
   * and with confidence 0, the empty-result error when no bar survives the
   * warm-up, or the missing `Exit_Price` error exactly when the latest
   * complete bar signals.
   */
  lemma CombinedRequestAsWritten(fields: map<string, string>, fetch: Feed, now: int)
    requires ValidFeed(fetch)
    requires ReadRequest(fields).Ok? && ReadRequest(fields).value.signalType == "combined"
    requires fetch(FetchFor(ReadRequest(fields).value, now)).Some?
    ensures var o := SignalOutcome(fields, "generate_signal", fetch, now, AsWritten);
            var req := ReadRequest(fields).value;
            var rows := Run(fetch(FetchFor(req, now)).value, req);
            && rows.Ok?
            && (o.Report? || o == ErrorMessage(NoRows) || o == ErrorMessage(MissingColumn("Exit_Price")))
            && (o == ErrorMessage(NoRows) <==> rows.value == [])
            && (o == ErrorMessage(MissingColumn("Exit_Price")) <==> rows.value != [] && rows.value[0].signal != 0)
            && (o.Report? ==> o.summary == Summary(Hold, None, None, 0.0))
  {
    var req := ReadRequest(fields).value;
    var data := fetch(FetchFor(req, now)).value;
    CombinedRun(data, req);
    AsWrittenOnlyHolds(Run(data, req).value);
  }

  /**
   * As intended, a complete, listed, combined request on a feed that answers
   * ends in a report or, when no bar survives the indicator warm-up,
   * the empty-result error. A report names the feed the asset class uses
   * (the exchange feed, with a start time one lookback before now, exactly
   * for crypto) and the listed symbol; its direction is Hold exactly when
   * its confidence is 0 and exactly when it has no entry; a Buy or Sell
   * carries the Close of the latest complete bar as its entry and a
   * confidence above 100/3 percent, at most 100.
   */
  lemma IntendedCombinedRequestReports(fields: map<string, string>, fetch: Feed, now: int)
    requires ValidFeed(fetch)
    requires ReadRequest(fields).Ok? && ReadRequest(fields).value.signalType == "combined"
    requires fetch(FetchFor(ReadRequest(fields).value, now)).Some?
    ensures var o := SignalOutcome(fields, "generate_signal", fetch, now, AsIntended);
            var req := ReadRequest(fields).value;
            var data := fetch(FetchFor(req, now)).value;
            var full := ApplyAll(IndicatorList("combined", ThresholdsFor(req.assetType)), data);
            && (o.Report? || o == ErrorMessage(NoRows))
            && (o.Report? ==>
                  && o.request.symbol == TickerMap[fields["asset_type"]][fields["ticker"]]
                  && (o.request.provider == Binance <==> fields["asset_type"] == "crypto")
                  && (o.request.since.Some? <==> o.request.provider == Binance)
                  && (o.request.since.Some? ==> o.request.since.value == now - LookbackMs(fields["period"]))
                  && 0.0 <= o.summary.confidence <= 100.0
                  && (o.summary.direction == Hold <==> o.summary.confidence == 0.0)
                  && (o.summary.direction == Hold <==> o.summary.entry.None?)
                  && (o.summary.direction != Hold ==> o.summary.confidence > 100.0 / 3.0)
                  && |Kept(full)| > 0
                  && (o.summary.entry.Some? ==>
                        o.summary.entry.value == Closes(full)[Kept(full)[|Kept(full)| - 1]]))
  {
    var req := ReadRequest(fields).value;
    var data := fetch(FetchFor(req, now)).value;
    CombinedRun(data, req);
    SummaryMeaning(Run(data, req).value);
  }
}
