/**
 * The dynamic signal generator: it threads the table through the selected
 * indicators, drops every incomplete row, marks MACD crosses and OBV rises
 * against the previous surviving row, sets the Signal column through a buy
 * mask and a sell mask, blends a confidence for the masked rows, clips it to
 * [0, 1] and returns the last row.
 */
module SignalEngine {
  import opened Base
  import opened Frames
  import opened Indicators

  /** `config[asset_type]`: the RSI buy and sell thresholds of one asset class. */
  datatype Thresholds = Thresholds(buy: real, sell: real)

  /** Thresholds for which both confidence formulas have a non-zero divisor. */
  predicate ValidThresholds(t: Thresholds) {
    0.0 < t.buy && t.sell < 100.0
  }

  predicate ValidConfig(config: map<string, Thresholds>) {
    forall a :: a in config ==> ValidThresholds(config[a])
  }

  /** The `epsilon` that keeps the MACD term's divisor positive. */
  const Epsilon: real := 0.0000000001

  /** The numeric columns the generator reads, once `dropna` has run. */
  datatype Readings = Readings(rsi: seq<real>, macd: seq<real>, macdSignal: seq<real>,
                               obv: seq<real>, close: seq<real>)

  predicate Aligned(x: Readings) {
    |x.rsi| == |x.close| && |x.macd| == |x.close| && |x.macdSignal| == |x.close| && |x.obv| == |x.close|
  }

  // ----- Row conditions ------------------------------------------------------------

  /**
   * `MACD_Cross`: MACD above its signal line now and not above it on the
   * previous row. Row 0 has no previous row (its shifted value is NaN and
   * every comparison with NaN is false).
   */
  predicate BullishCross(macd: seq<real>, sig: seq<real>, i: nat)
    requires |sig| == |macd| && i < |macd|
  {
    macd[i] > sig[i] && i > 0 && macd[i - 1] <= sig[i - 1]
  }

  /** `MACD_Cross_Sell`: the mirror condition. */
  predicate BearishCross(macd: seq<real>, sig: seq<real>, i: nat)
    requires |sig| == |macd| && i < |macd|
  {
    macd[i] < sig[i] && i > 0 && macd[i - 1] >= sig[i - 1]
  }

  /** `OBV_Trend`: `OBV.diff() > 0`, false on row 0. */
  predicate ObvRose(obv: seq<real>, i: nat)
    requires i < |obv|
  {
    i > 0 && obv[i] - obv[i - 1] > 0.0
  }

  /** A row of `buy_mask`. */
  predicate BuyAt(x: Readings, t: Thresholds, i: nat)
    requires Aligned(x) && i < |x.close|
  {
    x.rsi[i] < t.buy && BullishCross(x.macd, x.macdSignal, i) && ObvRose(x.obv, i)
  }

  /** A row of `sell_mask`. */
  predicate SellAt(x: Readings, t: Thresholds, i: nat)
    requires Aligned(x) && i < |x.close|
  {
    x.rsi[i] > t.sell && BearishCross(x.macd, x.macdSignal, i) && !ObvRose(x.obv, i)
  }

  function Abs(v: real): real {
    if v < 0.0 then -v else v
  }

  /** `bool.astype(float)`. */
  function AsFloat(b: bool): real {
    if b then 1.0 else 0.0
  }

  /** `Series.clip(lo, hi)`. */
  function Clip(v: real, lo: real, hi: real): real
    requires lo <= hi
  {
    if v < lo then lo else if v > hi then hi else v
  }

  /** The buy confidence before clipping: depth below the threshold, MACD lead and OBV trend. */
  function BuyConfidence(x: Readings, t: Thresholds, i: nat): real
    requires Aligned(x) && i < |x.close| && ValidThresholds(t)
  {
    ((t.buy - x.rsi[i]) / t.buy
     + (x.macd[i] - x.macdSignal[i]) / (Abs(x.macd[i]) + Epsilon)
     + AsFloat(ObvRose(x.obv, i))) / 3.0
  }

  /** The sell confidence before clipping. */
  function SellConfidence(x: Readings, t: Thresholds, i: nat): real
    requires Aligned(x) && i < |x.close| && ValidThresholds(t)
  {
    ((x.rsi[i] - t.sell) / (100.0 - t.sell)
     + (x.macdSignal[i] - x.macd[i]) / (Abs(x.macd[i]) + Epsilon)
     + AsFloat(!ObvRose(x.obv, i))) / 3.0
  }

  /** The Signal column: the sell mask is written after the buy mask. */
  function SignalAt(x: Readings, t: Thresholds, i: nat): int
    requires Aligned(x) && i < |x.close|
  {
    if SellAt(x, t, i) then -1 else if BuyAt(x, t, i) then 1 else 0
  }

  /** The Confidence column before `clip`. */
  function RawConfidence(x: Readings, t: Thresholds, i: nat): real
    requires Aligned(x) && i < |x.close| && ValidThresholds(t)
  {
    if SellAt(x, t, i) then SellConfidence(x, t, i)
    else if BuyAt(x, t, i) then BuyConfidence(x, t, i)
    else 0.0
  }

  function ConfidenceAt(x: Readings, t: Thresholds, i: nat): real
    requires Aligned(x) && i < |x.close| && ValidThresholds(t)
  {
    Clip(RawConfidence(x, t, i), 0.0, 1.0)
  }

  /**
   * The masks are disjoint (a bullish cross needs MACD above the signal line,
   * a bearish one below it), and Signal is 1 exactly on the buy mask, -1
   * exactly on the sell mask and 0 elsewhere.
   */
  lemma SignalFollowsMasks(x: Readings, t: Thresholds, i: nat)
    requires Aligned(x) && i < |x.close|
    ensures !(BuyAt(x, t, i) && SellAt(x, t, i))
    ensures SignalAt(x, t, i) in {-1, 0, 1}
    ensures SignalAt(x, t, i) == 1 <==> BuyAt(x, t, i)
    ensures SignalAt(x, t, i) == -1 <==> SellAt(x, t, i)
  {
  }

  lemma QuotientPositive(a: real, b: real)
    requires a > 0.0 && b > 0.0
    ensures a / b > 0.0
  {
    assert a / b * b == a;
  }

  /**
   * Confidence lies in [0, 1] on every row and is 0 where Signal is 0. Where
   * Signal is not 0, each of the three terms is positive and the OBV term is
   * exactly 1, so the confidence exceeds one third.
   */
  lemma ConfidenceBounds(x: Readings, t: Thresholds, i: nat)
    requires Aligned(x) && i < |x.close| && ValidThresholds(t)
    ensures 0.0 <= ConfidenceAt(x, t, i) <= 1.0
    ensures SignalAt(x, t, i) == 0 ==> ConfidenceAt(x, t, i) == 0.0
    ensures SignalAt(x, t, i) != 0 ==> ConfidenceAt(x, t, i) > 1.0 / 3.0
  {
    var d := Abs(x.macd[i]) + Epsilon;
    if SellAt(x, t, i) {
      QuotientPositive(x.rsi[i] - t.sell, 100.0 - t.sell);
      QuotientPositive(x.macdSignal[i] - x.macd[i], d);
    } else if BuyAt(x, t, i) {
      QuotientPositive(t.buy - x.rsi[i], t.buy);
      QuotientPositive(x.macd[i] - x.macdSignal[i], d);
    }
  }

  /** The first surviving row has no cross, no OBV rise and hence no signal. */
  lemma FirstRowHasNoSignal(x: Readings, t: Thresholds)
    requires Aligned(x) && |x.close| > 0
    ensures !BullishCross(x.macd, x.macdSignal, 0) && !BearishCross(x.macd, x.macdSignal, 0)
    ensures !ObvRose(x.obv, 0) && SignalAt(x, t, 0) == 0
  {
  }

  // ----- The generator ----------------------------------------------------------------

  /** A row of the returned table. */
  datatype SignalRow = SignalRow(signal: int, confidence: real, ticker: string, rsi: real,
                                 macd: real, macdSignal: real, obv: real, close: real)

  /** The first of the columns the generator reads that `f` lacks, in reading order. */
  function FirstMissing(f: Frame): Option<string> {
    if "MACD" !in f.cols then Some("MACD")
    else if "MACD_Signal" !in f.cols then Some("MACD_Signal")
    else if "OBV" !in f.cols then Some("OBV")
    else if "RSI" !in f.cols then Some("RSI")
    else None
  }

  /** A table with every column defined, holding all the columns the generator reads. */
  predicate Readable(f: Frame) {
    Rect(f) && "Close" in f.cols && FirstMissing(f) == None &&
    forall c :: c in f.cols ==> Defined(f.cols[c])
  }

  function ReadingsOf(f: Frame): (x: Readings)
    requires Readable(f)
    ensures Aligned(x) && |x.close| == f.len
  {
    Readings(Values(f.cols["RSI"]), Values(f.cols["MACD"]), Values(f.cols["MACD_Signal"]),
             Values(f.cols["OBV"]), Values(f.cols["Close"]))
  }

  function RowAt(x: Readings, t: Thresholds, symbol: string, i: nat): SignalRow
    requires Aligned(x) && i < |x.close| && ValidThresholds(t)
  {
    SignalRow(SignalAt(x, t, i), ConfidenceAt(x, t, i), symbol,
              x.rsi[i], x.macd[i], x.macdSignal[i], x.obv[i], x.close[i])
  }

  /** The table after the indicators have run and `dropna` has removed incomplete rows. */
  function Surviving(data: Frame, inds: seq<Indicator>): (df: Frame)
    requires Priced(data) && AllValid(inds)
    ensures Rect(df) && "Close" in df.cols && forall c :: c in df.cols ==> Defined(df.cols[c])
  {
    DropNa(ApplyAll(inds, data))
  }

  /**
   * `generate_signals` as a function of its inputs: a missing asset class or
   * column is the KeyError the code raises; otherwise the result holds the
   * last surviving row, or nothing when no row survives.
   */
  function Generate(data: Frame, inds: seq<Indicator>, symbol: string,
                    config: map<string, Thresholds>, assetType: string): Result<seq<SignalRow>>
    requires Priced(data) && AllValid(inds) && ValidConfig(config)
  {
    var df := Surviving(data, inds);
    if assetType !in config then Err(MissingKey(assetType))
    else match FirstMissing(df)
      case Some(c) => Err(MissingColumn(c))
      case None =>
        var x := ReadingsOf(df);
        if df.len == 0 then Ok([]) else Ok([RowAt(x, config[assetType], symbol, df.len - 1)])
  }

  /** The generators' indicator loop: `df = indicator.calculate(MarketData(df))`. */
  method RunIndicators(data: Frame, inds: seq<Indicator>) returns (df: Frame)
    requires Priced(data) && AllValid(inds)
    ensures df == ApplyAll(inds, data)
  {
    df := data;
    for k := 0 to |inds|
      invariant Priced(df) && df == ApplyAll(inds[..k], data)
    {
      assert inds[..k + 1][..k] == inds[..k];
      df := Calculate(inds[k], df);
    }
    assert inds[..|inds|] == inds;
  }

  /**
   * The Signal and Confidence columns: both start at 0, the buy mask writes 1
   * and the buy confidence, the sell mask then writes -1 and the sell
   * confidence, and Confidence is clipped to [0, 1].
   */
  method MarkSignals(x: Readings, t: Thresholds) returns (signal: seq<int>, confidence: seq<real>)
    requires Aligned(x) && ValidThresholds(t)
    ensures |signal| == |confidence| == |x.close|
    ensures forall j :: 0 <= j < |x.close| ==> signal[j] == SignalAt(x, t, j)
    ensures forall j :: 0 <= j < |x.close| ==> confidence[j] == ConfidenceAt(x, t, j)
  {
    var n := |x.close|;
    var sig := new int[n](_ => 0);
    var conf := new real[n](_ => 0.0);
    // the buy mask
    for i := 0 to n
      invariant forall j :: 0 <= j < i ==> sig[j] == (if BuyAt(x, t, j) then 1 else 0)
      invariant forall j :: 0 <= j < i ==>
                  conf[j] == (if BuyAt(x, t, j) then BuyConfidence(x, t, j) else 0.0)
      invariant forall j :: i <= j < n ==> sig[j] == 0 && conf[j] == 0.0
    {
      if BuyAt(x, t, i) {
        sig[i] := 1;
        conf[i] := BuyConfidence(x, t, i);
      }
    }
    // the sell mask, written after the buy mask
    for i := 0 to n
      invariant forall j :: 0 <= j < i ==> sig[j] == SignalAt(x, t, j)
      invariant forall j :: 0 <= j < i ==> conf[j] == RawConfidence(x, t, j)
      invariant forall j :: i <= j < n ==> sig[j] == (if BuyAt(x, t, j) then 1 else 0)
      invariant forall j :: i <= j < n ==>
                  conf[j] == (if BuyAt(x, t, j) then BuyConfidence(x, t, j) else 0.0)
    {
      if SellAt(x, t, i) {
        sig[i] := -1;
        conf[i] := SellConfidence(x, t, i);
      }
    }
    // Confidence.clip(0, 1)
    for i := 0 to n
      invariant forall j :: 0 <= j < n ==> sig[j] == SignalAt(x, t, j)
      invariant forall j :: 0 <= j < i ==> conf[j] == ConfidenceAt(x, t, j)
      invariant forall j :: i <= j < n ==> conf[j] == RawConfidence(x, t, j)
    {
      conf[i] := Clip(conf[i], 0.0, 1.0);
    }
    signal, confidence := sig[..], conf[..];
  }

  /**
   * `DynamicSignalGenerator.generate_signals`: the indicator loop, `dropna`,
   * the threshold lookup, the column reads, the masked writes and the
   * selection of the last row.
   */
  method GenerateSignals(data: Frame, inds: seq<Indicator>, symbol: string,
                         config: map<string, Thresholds>, assetType: string)
    returns (r: Result<seq<SignalRow>>)
    requires Priced(data) && AllValid(inds) && ValidConfig(config)
    ensures r == Generate(data, inds, symbol, config, assetType)
  {
    var full := RunIndicators(data, inds);
    var df := DropNa(full);
    assert df == Surviving(data, inds);
    if assetType !in config {
      return Err(MissingKey(assetType));
    }
    var t := config[assetType];
    var missing := FirstMissing(df);
    if missing.Some? {
      return Err(MissingColumn(missing.value));
    }
    var x := ReadingsOf(df);
    var signal, confidence := MarkSignals(x, t);
    var n := df.len;
    if n == 0 {
      r := Ok([]);
    } else {
      r := Ok([SignalRow(signal[n - 1], confidence[n - 1], symbol,
                         x.rsi[n - 1], x.macd[n - 1], x.macdSignal[n - 1], x.obv[n - 1], x.close[n - 1])]);
    }
  }

  // ----- What the generator promises --------------------------------------------------

  /** What a successful `Generate` holds, spelled out. */
  lemma GenerateOk(data: Frame, inds: seq<Indicator>, symbol: string,
                   config: map<string, Thresholds>, assetType: string)
    requires Priced(data) && AllValid(inds) && ValidConfig(config)
    requires Generate(data, inds, symbol, config, assetType).Ok?
    ensures assetType in config && Readable(Surviving(data, inds))
    ensures var df := Surviving(data, inds);
            Generate(data, inds, symbol, config, assetType).value ==
              if df.len == 0 then []
              else [RowAt(ReadingsOf(df), config[assetType], symbol, df.len - 1)]
  {
  }

  /**
   * A successful result holds at most one row, and none exactly when no row
   * of the indicator table is complete: an empty result, not an error.
   */
  lemma GenerateRowCount(data: Frame, inds: seq<Indicator>, symbol: string,
                         config: map<string, Thresholds>, assetType: string)
    requires Priced(data) && AllValid(inds) && ValidConfig(config)
    requires Generate(data, inds, symbol, config, assetType).Ok?
    ensures var rows := Generate(data, inds, symbol, config, assetType).value;
            var full := ApplyAll(inds, data);
            |rows| <= 1 && (rows == [] <==> forall j :: 0 <= j < full.len ==> !CompleteRow(full, j))
  {
    SurvivingRows(data, inds, symbol, config, assetType);
    DropNaEmptyIff(ApplyAll(inds, data));
  }

  /** A successful result has one row per surviving table that is non-empty, and none otherwise. */
  lemma SurvivingRows(data: Frame, inds: seq<Indicator>, symbol: string,
                      config: map<string, Thresholds>, assetType: string)
    requires Priced(data) && AllValid(inds) && ValidConfig(config)
    requires Generate(data, inds, symbol, config, assetType).Ok?
    ensures var rows := Generate(data, inds, symbol, config, assetType).value;
            |rows| <= 1 && (rows == [] <==> DropNa(ApplyAll(inds, data)).len == 0)
  {
    GenerateOk(data, inds, symbol, config, assetType);
  }

  /**
   * The returned row is the latest complete row of the indicator table: it
   * carries the ticker and that row's Close, a Signal in {-1, 0, 1}, and a
   * Confidence in [0, 1] that is 0 for Signal 0 and above one third otherwise.
   */
  lemma GenerateReturnsLastRow(data: Frame, inds: seq<Indicator>, symbol: string,
                               config: map<string, Thresholds>, assetType: string)
    requires Priced(data) && AllValid(inds) && ValidConfig(config)
    requires Generate(data, inds, symbol, config, assetType).Ok?
    requires Generate(data, inds, symbol, config, assetType).value != []
    ensures var row := Generate(data, inds, symbol, config, assetType).value[0];
            var full := ApplyAll(inds, data);
            var last := Kept(full)[|Kept(full)| - 1];
            && CompleteRow(full, last)
            && (forall j :: last < j < full.len ==> !CompleteRow(full, j))
            && row.ticker == symbol
            && row.close == Closes(full)[last]
            && row.signal in {-1, 0, 1}
            && 0.0 <= row.confidence <= 1.0
            && (row.signal == 0 ==> row.confidence == 0.0)
            && (row.signal != 0 ==> row.confidence > 1.0 / 3.0)
  {
    GenerateOk(data, inds, symbol, config, assetType);
    var full := ApplyAll(inds, data);
    var df := Surviving(data, inds);
    var x := ReadingsOf(df);
    var t := config[assetType];
    var n := df.len;
    LastKeptIsLatestComplete(full);
    SignalFollowsMasks(x, t, n - 1);
    ConfidenceBounds(x, t, n - 1);
    assert df.cols["Close"][n - 1] == full.cols["Close"][Kept(full)[n - 1]];
  }

  /** A column is added by a list of indicators iff some indicator in it owns the column. */
  lemma {:induction false} AddedColumnsIff(inds: seq<Indicator>, c: string)
    ensures c in AddedColumns(inds) <==> exists k :: 0 <= k < |inds| && c in OwnColumns(inds[k])
    decreases |inds|
  {
    if inds != [] {
      var p := inds[..|inds| - 1];
      AddedColumnsIff(p, c);
      if exists k :: 0 <= k < |p| && c in OwnColumns(p[k]) {
        var k :| 0 <= k < |p| && c in OwnColumns(p[k]);
        assert inds[k] == p[k];
      }
      if exists k :: 0 <= k < |inds| && c in OwnColumns(inds[k]) {
        var k :| 0 <= k < |inds| && c in OwnColumns(inds[k]);
        if k < |p| {
          assert p[k] == inds[k];
        }
      }
    }
  }

  /**
   * Only a selection that computes RSI, MACD and OBV lets the generator read
   * every column it needs: with all three present the result is never an
   * error for a configured asset class, while a list without MACD (on a table
   * that does not already carry the column) fails on the MACD read.
   */
  lemma GenerateNeedsAllIndicators(data: Frame, inds: seq<Indicator>, symbol: string,
                                   config: map<string, Thresholds>, assetType: string)
    requires Priced(data) && AllValid(inds) && ValidConfig(config) && assetType in config
    ensures (exists k :: 0 <= k < |inds| && inds[k].Rsi?) &&
            (exists k :: 0 <= k < |inds| && inds[k].Macd?) &&
            (exists k :: 0 <= k < |inds| && inds[k].Obv?)
            ==> Generate(data, inds, symbol, config, assetType).Ok?
    ensures "MACD" !in data.cols && (forall k :: 0 <= k < |inds| ==> !inds[k].Macd?)
            ==> Generate(data, inds, symbol, config, assetType) == Err(MissingColumn("MACD"))
  {
    AddedColumnsIff(inds, "MACD");
    AddedColumnsIff(inds, "MACD_Signal");
    AddedColumnsIff(inds, "OBV");
    AddedColumnsIff(inds, "RSI");
    if (exists k :: 0 <= k < |inds| && inds[k].Rsi?) &&
       (exists k :: 0 <= k < |inds| && inds[k].Macd?) &&
       (exists k :: 0 <= k < |inds| && inds[k].Obv?) {
      var a :| 0 <= a < |inds| && inds[a].Rsi?;
      var b :| 0 <= b < |inds| && inds[b].Macd?;
      var c :| 0 <= c < |inds| && inds[c].Obv?;
      assert "RSI" in OwnColumns(inds[a]);
      assert "MACD" in OwnColumns(inds[b]) && "MACD_Signal" in OwnColumns(inds[b]);
      assert "OBV" in OwnColumns(inds[c]);
    }
  }
}
