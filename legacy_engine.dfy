/**
 * The older fixed-parameter engine: RSI over 14 rows, MACD (12, 26, 9)
 * written to `MACD_12_26_9` / `MACDs_12_26_9`, OBV, and a generator with
 * fixed thresholds 40 / 60, a two-term confidence and a result that prefers
 * the most recent row carrying a signal.
 */
module LegacyEngine {
  import opened Base
  import opened Frames
  import opened Indicators
  import SignalEngine

  /** The fixed-parameter calculators. */
  datatype LegacyIndicator = Rsi14 | Macd12269 | LegacyObv

  const MacdColumn: string := "MACD_12_26_9"
  const MacdSignalColumn: string := "MACDs_12_26_9"

  function LegacyCalculate(ind: LegacyIndicator, f: Frame): (r: Frame)
    requires Priced(f)
    ensures Priced(r) && r.len == f.len
    ensures ind == Rsi14 ==> r.cols == f.cols["RSI" := RsiColumn(Closes(f), 14)]
    ensures ind == Macd12269 ==>
              r.cols == f.cols[MacdColumn := Lift(MacdLine(Closes(f), 12, 26))]
                              [MacdSignalColumn := Lift(MacdSignalLine(Closes(f), 12, 26, 9))]
    ensures ind == LegacyObv ==> r.cols == f.cols["OBV" := ObvColumn(Closes(f), Volumes(f))]
  {
    match ind
    case Rsi14 => RsiCalculate(14, f)
    case Macd12269 =>
      var close := Closes(f);
      f.(cols := f.cols[MacdColumn := Lift(MacdLine(close, 12, 26))]
                       [MacdSignalColumn := Lift(MacdSignalLine(close, 12, 26, 9))])
    case LegacyObv => ObvCalculate(f)
  }

  /** The fixed RSI has no value on rows 0..12, before its first full 14-row window. */
  lemma LegacyRsiWarmup(f: Frame, i: nat)
    requires Priced(f) && i < f.len && i <= 12
    ensures LegacyCalculate(Rsi14, f).cols["RSI"][i] == None
  {
    RsiWarmup(Closes(f), 14, i);
  }

  /** The columns a fixed calculator writes. */
  function LegacyOwnColumns(ind: LegacyIndicator): set<string> {
    match ind
    case Rsi14 => {"RSI"}
    case Macd12269 => {MacdColumn, MacdSignalColumn}
    case LegacyObv => {"OBV"}
  }

  function LegacyAddedColumns(inds: seq<LegacyIndicator>): set<string> {
    if inds == [] then {} else LegacyAddedColumns(inds[..|inds| - 1]) + LegacyOwnColumns(inds[|inds| - 1])
  }

  /**
   * The legacy loop: each calculator in list order. The rows stay as they
   * are; the columns are the input's plus every calculator's own, and a
   * column no calculator writes is passed through unchanged.
   */
  function LegacyApplyAll(inds: seq<LegacyIndicator>, f: Frame): (r: Frame)
    requires Priced(f)
    ensures Priced(r) && r.len == f.len
    ensures r.cols.Keys == f.cols.Keys + LegacyAddedColumns(inds)
    ensures forall c :: c in f.cols && c !in LegacyAddedColumns(inds) ==> r.cols[c] == f.cols[c]
    decreases |inds|
  {
    if inds == [] then f
    else LegacyCalculate(inds[|inds| - 1], LegacyApplyAll(inds[..|inds| - 1], f))
  }

  /** A column is written by the list iff some calculator in it writes that column. */
  lemma {:induction false} LegacyAddedColumnsIff(inds: seq<LegacyIndicator>, c: string)
    ensures c in LegacyAddedColumns(inds) <==> exists ind :: ind in inds && c in LegacyOwnColumns(ind)
    decreases |inds|
  {
    if inds != [] {
      var init, last := inds[..|inds| - 1], inds[|inds| - 1];
      LegacyAddedColumnsIff(init, c);
      assert inds == init + [last];
      if c in LegacyAddedColumns(inds) && c !in LegacyOwnColumns(last) {
        var ind :| ind in init && c in LegacyOwnColumns(ind);
        assert ind in inds;
      }
      if exists ind :: ind in inds && c in LegacyOwnColumns(ind) {
        var ind :| ind in inds && c in LegacyOwnColumns(ind);
        if ind != last {
          assert ind in init;
        }
      }
    }
  }

  /**
   * On fetched bars without the columns the generator reads, every read
   * succeeds iff the list holds both the fixed RSI and the fixed MACD.
   */
  lemma LegacyColumnsPresent(inds: seq<LegacyIndicator>, f: Frame)
    requires Priced(f) && "RSI" !in f.cols && MacdColumn !in f.cols && MacdSignalColumn !in f.cols
    ensures LegacyFirstMissing(LegacyApplyAll(inds, f)) == None <==> Rsi14 in inds && Macd12269 in inds
  {
    LegacyAddedColumnsIff(inds, "RSI");
    LegacyAddedColumnsIff(inds, MacdColumn);
    LegacyAddedColumnsIff(inds, MacdSignalColumn);
  }

  method LegacyRunIndicators(data: Frame, inds: seq<LegacyIndicator>) returns (df: Frame)
    requires Priced(data)
    ensures df == LegacyApplyAll(inds, data)
  {
    df := data;
    for k := 0 to |inds|
      invariant Priced(df) && df == LegacyApplyAll(inds[..k], data)
    {
      assert inds[..k + 1][..k] == inds[..k];
      df := LegacyCalculate(inds[k], df);
    }
    assert inds[..|inds|] == inds;
  }

  // ----- Row conditions -----------------------------------------------------------

  const BuyLevel: real := 40.0
  const SellLevel: real := 60.0

  /** The columns this generator reads (OBV is computed upstream but never read). */
  datatype LegacyReadings = LegacyReadings(rsi: seq<real>, macd: seq<real>, macdSignal: seq<real>)

  predicate LegacyAligned(x: LegacyReadings) {
    |x.macd| == |x.rsi| && |x.macdSignal| == |x.rsi|
  }

  predicate LegacyBuyAt(x: LegacyReadings, i: nat)
    requires LegacyAligned(x) && i < |x.rsi|
  {
    x.rsi[i] < BuyLevel && SignalEngine.BullishCross(x.macd, x.macdSignal, i)
  }

  predicate LegacySellAt(x: LegacyReadings, i: nat)
    requires LegacyAligned(x) && i < |x.rsi|
  {
    x.rsi[i] > SellLevel && SignalEngine.BearishCross(x.macd, x.macdSignal, i)
  }

  function LegacyBuyConfidence(x: LegacyReadings, i: nat): real
    requires LegacyAligned(x) && i < |x.rsi|
  {
    ((BuyLevel - x.rsi[i]) / 40.0
     + (x.macd[i] - x.macdSignal[i]) / (SignalEngine.Abs(x.macd[i]) + SignalEngine.Epsilon)) / 2.0
  }

  function LegacySellConfidence(x: LegacyReadings, i: nat): real
    requires LegacyAligned(x) && i < |x.rsi|
  {
    ((x.rsi[i] - SellLevel) / 40.0
     + (x.macdSignal[i] - x.macd[i]) / (SignalEngine.Abs(x.macd[i]) + SignalEngine.Epsilon)) / 2.0
  }

  function LegacySignalAt(x: LegacyReadings, i: nat): int
    requires LegacyAligned(x) && i < |x.rsi|
  {
    if LegacySellAt(x, i) then -1 else if LegacyBuyAt(x, i) then 1 else 0
  }

  function LegacyRawConfidence(x: LegacyReadings, i: nat): real
    requires LegacyAligned(x) && i < |x.rsi|
  {
    if LegacySellAt(x, i) then LegacySellConfidence(x, i)
    else if LegacyBuyAt(x, i) then LegacyBuyConfidence(x, i)
    else 0.0
  }

  function LegacyConfidenceAt(x: LegacyReadings, i: nat): real
    requires LegacyAligned(x) && i < |x.rsi|
  {
    SignalEngine.Clip(LegacyRawConfidence(x, i), 0.0, 1.0)
  }

  /**
   * Signal is 1 exactly when RSI < 40 with a bullish cross, -1 exactly when
   * RSI > 60 with a bearish cross, 0 otherwise; the two never coincide.
   * Confidence is in [0, 1], 0 on rows without a signal and positive on rows
   * with one.
   */
  lemma LegacyRowProperties(x: LegacyReadings, i: nat)
    requires LegacyAligned(x) && i < |x.rsi|
    ensures !(LegacyBuyAt(x, i) && LegacySellAt(x, i))
    ensures LegacySignalAt(x, i) == 1 <==> x.rsi[i] < 40.0 && SignalEngine.BullishCross(x.macd, x.macdSignal, i)
    ensures LegacySignalAt(x, i) == -1 <==> x.rsi[i] > 60.0 && SignalEngine.BearishCross(x.macd, x.macdSignal, i)
    ensures LegacySignalAt(x, i) in {-1, 0, 1}
    ensures 0.0 <= LegacyConfidenceAt(x, i) <= 1.0
    ensures LegacySignalAt(x, i) == 0 ==> LegacyConfidenceAt(x, i) == 0.0
    ensures LegacySignalAt(x, i) != 0 ==> LegacyConfidenceAt(x, i) > 0.0
  {
    var d := SignalEngine.Abs(x.macd[i]) + SignalEngine.Epsilon;
    if LegacySellAt(x, i) {
      SignalEngine.QuotientPositive(x.rsi[i] - SellLevel, 40.0);
      SignalEngine.QuotientPositive(x.macdSignal[i] - x.macd[i], d);
    } else if LegacyBuyAt(x, i) {
      SignalEngine.QuotientPositive(BuyLevel - x.rsi[i], 40.0);
      SignalEngine.QuotientPositive(x.macd[i] - x.macdSignal[i], d);
    }
  }

  // ----- The generator ------------------------------------------------------------

  /** A row of the returned table: `[['Signal', 'Confidence', 'Ticker']]`. */
  datatype BriefRow = BriefRow(signal: int, confidence: real, ticker: string)

  /** The first column this generator reads that `f` lacks, in reading order. */
  function LegacyFirstMissing(f: Frame): Option<string> {
    if MacdColumn !in f.cols then Some(MacdColumn)
    else if MacdSignalColumn !in f.cols then Some(MacdSignalColumn)
    else if "RSI" !in f.cols then Some("RSI")
    else None
  }

  predicate LegacyReadable(f: Frame) {
    Rect(f) && LegacyFirstMissing(f) == None && forall c :: c in f.cols ==> Defined(f.cols[c])
  }

  function LegacyReadingsOf(f: Frame): (x: LegacyReadings)
    requires LegacyReadable(f)
    ensures LegacyAligned(x) && |x.rsi| == f.len
  {
    LegacyReadings(Values(f.cols["RSI"]), Values(f.cols[MacdColumn]), Values(f.cols[MacdSignalColumn]))
  }

  /** The index of the latest row before `n` whose Signal is not 0, if any. */
  function LatestSignalRow(x: LegacyReadings, n: nat): (r: Option<nat>)
    requires LegacyAligned(x) && n <= |x.rsi|
    ensures r.Some? ==> r.value < n && LegacySignalAt(x, r.value) != 0
    ensures r.Some? ==> forall j :: r.value < j < n ==> LegacySignalAt(x, j) == 0
    ensures r.None? ==> forall j :: 0 <= j < n ==> LegacySignalAt(x, j) == 0
  {
    if n == 0 then None
    else if LegacySignalAt(x, n - 1) != 0 then Some(n - 1)
    else LatestSignalRow(x, n - 1)
  }

  function LegacySurviving(data: Frame, inds: seq<LegacyIndicator>): (df: Frame)
    requires Priced(data)
    ensures Rect(df) && forall c :: c in df.cols ==> Defined(df.cols[c])
  {
    DropNa(LegacyApplyAll(inds, data))
  }

  function BriefAt(x: LegacyReadings, symbol: string, i: nat): BriefRow
    requires LegacyAligned(x) && i < |x.rsi|
  {
    BriefRow(LegacySignalAt(x, i), LegacyConfidenceAt(x, i), symbol)
  }

  /**
   * `RSIMACDSignalGenerator.generate_signals` as a function: the latest row
   * with a signal if there is one, else the last row, else nothing.
   */
  function LegacyGenerate(data: Frame, inds: seq<LegacyIndicator>, symbol: string): Result<seq<BriefRow>>
    requires Priced(data)
  {
    var df := LegacySurviving(data, inds);
    match LegacyFirstMissing(df)
    case Some(c) => Err(MissingColumn(c))
    case None =>
      var x := LegacyReadingsOf(df);
      match LatestSignalRow(x, df.len)
      case Some(k) => Ok([BriefAt(x, symbol, k)])
      case None => if df.len == 0 then Ok([]) else Ok([BriefAt(x, symbol, df.len - 1)])
  }

  /** The masked writes and the clip of this generator. */
  method LegacyMarkSignals(x: LegacyReadings) returns (signal: seq<int>, confidence: seq<real>)
    requires LegacyAligned(x)
    ensures |signal| == |confidence| == |x.rsi|
    ensures forall j :: 0 <= j < |x.rsi| ==> signal[j] == LegacySignalAt(x, j)
    ensures forall j :: 0 <= j < |x.rsi| ==> confidence[j] == LegacyConfidenceAt(x, j)
  {
    var n := |x.rsi|;
    var sig := new int[n](_ => 0);
    var conf := new real[n](_ => 0.0);
    for i := 0 to n
      invariant forall j :: 0 <= j < i ==> sig[j] == (if LegacyBuyAt(x, j) then 1 else 0)
      invariant forall j :: 0 <= j < i ==>
                  conf[j] == (if LegacyBuyAt(x, j) then LegacyBuyConfidence(x, j) else 0.0)
      invariant forall j :: i <= j < n ==> sig[j] == 0 && conf[j] == 0.0
    {
      if LegacyBuyAt(x, i) {
        sig[i] := 1;
        conf[i] := LegacyBuyConfidence(x, i);
      }
    }
    for i := 0 to n
      invariant forall j :: 0 <= j < i ==> sig[j] == LegacySignalAt(x, j)
      invariant forall j :: 0 <= j < i ==> conf[j] == LegacyRawConfidence(x, j)
      invariant forall j :: i <= j < n ==> sig[j] == (if LegacyBuyAt(x, j) then 1 else 0)
      invariant forall j :: i <= j < n ==>
                  conf[j] == (if LegacyBuyAt(x, j) then LegacyBuyConfidence(x, j) else 0.0)
    {
      if LegacySellAt(x, i) {
        sig[i] := -1;
        conf[i] := LegacySellConfidence(x, i);
      }
    }
    for i := 0 to n
      invariant forall j :: 0 <= j < n ==> sig[j] == LegacySignalAt(x, j)
      invariant forall j :: 0 <= j < i ==> conf[j] == LegacyConfidenceAt(x, j)
      invariant forall j :: i <= j < n ==> conf[j] == LegacyRawConfidence(x, j)
    {
      conf[i] := SignalEngine.Clip(conf[i], 0.0, 1.0);
    }
    signal, confidence := sig[..], conf[..];
  }

  /**
   * `df[df['Signal'] != 0].iloc[-1:]`: the position of the latest row whose
   * Signal is not 0, found by scanning back from the end.
   */
  method FindLatestSignal(signal: seq<int>) returns (k: Option<nat>)
    ensures k.Some? ==> k.value < |signal| && signal[k.value] != 0
    ensures k.Some? ==> forall j :: k.value < j < |signal| ==> signal[j] == 0
    ensures k.None? ==> forall j :: 0 <= j < |signal| ==> signal[j] == 0
  {
    var i := |signal|;
    while i > 0 && signal[i - 1] == 0
      invariant 0 <= i <= |signal|
      invariant forall j :: i <= j < |signal| ==> signal[j] == 0
    {
      i := i - 1;
    }
    k := if i == 0 then None else Some(i - 1);
  }

  /** `RSIMACDSignalGenerator.generate_signals`. */
  method LegacyGenerateSignals(data: Frame, inds: seq<LegacyIndicator>, symbol: string)
    returns (r: Result<seq<BriefRow>>)
    requires Priced(data)
    ensures r == LegacyGenerate(data, inds, symbol)
  {
    var full := LegacyRunIndicators(data, inds);
    var df := DropNa(full);
    assert df == LegacySurviving(data, inds);
    var missing := LegacyFirstMissing(df);
    if missing.Some? {
      return Err(MissingColumn(missing.value));
    }
    var x := LegacyReadingsOf(df);
    var signal, confidence := LegacyMarkSignals(x);
    var k := FindLatestSignal(signal);
    assert k == LatestSignalRow(x, df.len) by {
      LatestSignalRowUnique(x, df.len, k);
    }
    var n := df.len;
    if k.Some? {
      r := Ok([BriefRow(signal[k.value], confidence[k.value], symbol)]);
    } else if n == 0 {
      r := Ok([]);
    } else {
      r := Ok([BriefRow(signal[n - 1], confidence[n - 1], symbol)]);
    }
  }

  /** The latest signalling row is determined by the Signal column alone. */
  lemma LatestSignalRowUnique(x: LegacyReadings, n: nat, k: Option<nat>)
    requires LegacyAligned(x) && n <= |x.rsi|
    requires k.Some? ==> k.value < n && LegacySignalAt(x, k.value) != 0
    requires k.Some? ==> forall j :: k.value < j < n ==> LegacySignalAt(x, j) == 0
    requires k.None? ==> forall j :: 0 <= j < n ==> LegacySignalAt(x, j) == 0
    ensures k == LatestSignalRow(x, n)
  {
    var r := LatestSignalRow(x, n);
  }

  /**
   * The result holds at most one row. When some surviving row has a signal,
   * it is the latest such row; otherwise it is the last surviving row, with
   * Signal 0 and Confidence 0; an empty table gives an empty result.
   */
  lemma LegacyResultRow(data: Frame, inds: seq<LegacyIndicator>, symbol: string)
    requires Priced(data)
    requires LegacyGenerate(data, inds, symbol).Ok?
    ensures LegacyReadable(LegacySurviving(data, inds))
    ensures var rows := LegacyGenerate(data, inds, symbol).value;
            var df := LegacySurviving(data, inds);
            var x := LegacyReadingsOf(df);
            && |rows| <= 1
            && (rows == [] <==> df.len == 0)
            && (rows != [] ==> rows[0].ticker == symbol && 0.0 <= rows[0].confidence <= 1.0)
            && (rows != [] ==>
                  (rows[0].signal == 0 <==> forall j :: 0 <= j < df.len ==> LegacySignalAt(x, j) == 0))
            && (rows != [] && rows[0].signal == 0 ==> rows[0].confidence == 0.0)
    ensures var rows := LegacyGenerate(data, inds, symbol).value;
            var df := LegacySurviving(data, inds);
            var x := LegacyReadingsOf(df);
            var k := LatestSignalRow(x, df.len);
            && (k.Some? ==> rows == [BriefAt(x, symbol, k.value)])
            && (k.None? && df.len > 0 ==> rows == [BriefAt(x, symbol, df.len - 1)])
  {
    var df := LegacySurviving(data, inds);
    var x := LegacyReadingsOf(df);
    match LatestSignalRow(x, df.len)
    case Some(k) => LegacyRowProperties(x, k);
    case None =>
      if df.len > 0 {
        LegacyRowProperties(x, df.len - 1);
      }
  }
}
