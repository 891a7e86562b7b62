/**
 * The per-instrument classifier (`analyze`): an ordered chain of filters
 * (history, liquidity, gap, volume spike), each of which may stop with a
 * reason tag, followed by the BUY/SELL direction rule. The trend, momentum
 * and strength indicators are taken as given latest values.
 */
module Classifier {

  import opened Options
  import opened Series

  const MinBars: nat := 120
  const MinTurnover: real := 5_000_000.0
  const MaxGap: real := 0.12
  const BosLook: nat := 60
  const BosExcl: nat := 1
  const SpikeWindow: nat := 30
  const SpikeRatio: real := 2.0
  const FundingThreshold: real := 0.01

  /** Latest values of EMA(20), EMA(50), RSI(14), MACD line and signal, ADX(14). */
  datatype Indicators = Indicators(ema20: real, ema50: real, rsi: real, macdLine: real, macdSignal: real, adx: real)

  datatype Side = Buy | Sell

  /** The reason tags: `short`, `lowliq`, `gap`, `novol`. */
  datatype Reason = Short | LowLiq | Gap | NoVol

  /** What the summary line shows in its break-of-structure field. */
  datatype BosMark = BrokeUp | BrokeDown | NoBreak

  /** The optional funding-rate annotation of a signal. */
  datatype FundingNote = NoFundingNote | FundingAbove(rate: real) | FundingBelow(rate: real)

  /** A signal and the values its summary line carries. */
  datatype Signal = Signal(
    sym: string, side: Side, trendUp: bool, rsi: real, volRatio: real,
    adx: real, bos: BosMark, close: real, funding: FundingNote)

  /**
   * What `analyze` has to work with for one symbol: the daily bars (None
   * when the fetch failed), the latest indicator values and the funding
   * rate (None when unavailable).
   */
  datatype Instrument = Instrument(sym: string, klines: Option<seq<Bar>>, ind: Indicators, funding: Option<real>)

  /** The pair `analyze` returns: an optional signal and an optional reason. */
  datatype Analysis = Analysis(res: Option<Signal>, flag: Option<Reason>)

  function Abs(x: real): (r: real)
    ensures 0.0 <= r && (r == x || r == -x)
  {
    if x < 0.0 then -x else x
  }

  /** The magnitude of a product is the product of the magnitudes. */
  lemma AbsOfProduct(x: real, y: real)
    ensures Abs(x * y) == Abs(x) * Abs(y)
  {
    if x < 0.0 && y < 0.0 {
      assert x * y == (-x) * (-y);
    } else if x < 0.0 {
      assert -(x * y) == (-x) * y;
    } else if y < 0.0 {
      assert -(x * y) == x * (-y);
    }
  }

  /** Scaling by a positive factor keeps the sign of a difference. */
  lemma ScalePositive(d: real, c: real)
    requires 0.0 < c
    ensures d > 0.0 <==> d * c > 0.0
  {
    if d > 0.0 {
      assert d * c > 0.0;
    } else {
      assert (-d) * c >= 0.0;
    }
  }

  /** Stage 1: at least 120 bars were fetched. */
  predicate HasHistory(x: Instrument)
  {
    x.klines.Some? && |x.klines.value| >= MinBars
  }

  /** Stage 2: the latest bar's turnover reaches 5,000,000. */
  predicate Liquid(bars: seq<Bar>)
    requires |bars| > 0
  {
    Last(bars).turnover >= MinTurnover
  }

  /** The close-to-close return `last / prev - 1`. */
  function CloseReturn(prev: real, last: real): (q: real)
    requires prev != 0.0
    ensures q * prev == last - prev
  {
    last / prev - 1.0
  }

  /**
   * Stage 3: the last close moved more than 12% from the one before,
   * written without the division: |last - prev| > 0.12 * |prev|.
   */
  predicate GapExceeded(prev: real, last: real)
  {
    Abs(last - prev) > MaxGap * Abs(prev)
  }

  /** Comparing g = a * p with k * p, for positive p, is comparing a with k. */
  lemma ScaledCompare(a: real, p: real, g: real, k: real)
    requires 0.0 < p && g == a * p
    ensures g > k * p <==> a > k
  {
    assert g - k * p == (a - k) * p;
    ScalePositive(a - k, p);
  }

  /** For a nonzero previous close the gap test is the source's return test. */
  lemma GapIsAbsoluteReturn(prev: real, last: real)
    requires prev != 0.0
    ensures GapExceeded(prev, last) <==> Abs(CloseReturn(prev, last)) > MaxGap
  {
    var q := CloseReturn(prev, last);
    AbsOfProduct(q, prev);
    ScaledCompare(Abs(q), Abs(prev), Abs(last - prev), MaxGap);
  }

  predicate GapAtEnd(bars: seq<Bar>)
    requires |bars| >= 2
  {
    GapExceeded(bars[|bars| - 2].close, Last(bars).close)
  }

  function Spiked(bars: seq<Bar>): (sp: Spike)
  {
    VolumeSpike(Volumes(bars), SpikeWindow, SpikeRatio)
  }

  /** The three filters before the volume check all pass. */
  predicate PassesFilters(x: Instrument)
  {
    HasHistory(x) && Liquid(x.klines.value) && !GapAtEnd(x.klines.value)
  }

  /** The BUY rule: uptrend, RSI above 55, MACD above signal, ADX at least 20. */
  predicate BuyRule(ind: Indicators)
  {
    ind.ema20 > ind.ema50 && ind.rsi > 55.0 && ind.macdLine > ind.macdSignal && ind.adx >= 20.0
  }

  /**
   * The direction decision. BUY is tried first; SELL needs the trend not
   * up, RSI below 45, MACD not above its signal, ADX at least 20, and a
   * downward break of structure or a down close on a volume spike.
   */
  function Direction(ind: Indicators, bosDn: bool, lastDown: bool, volOk: bool): (d: Option<Side>)
    ensures d == Some(Buy) <==> BuyRule(ind)
    ensures d == Some(Sell) <==>
      && ind.ema20 <= ind.ema50 && ind.rsi < 45.0 && ind.macdLine <= ind.macdSignal
      && ind.adx >= 20.0 && (bosDn || (lastDown && volOk))
  {
    var trendUp := ind.ema20 > ind.ema50;
    var macdUp := ind.macdLine > ind.macdSignal;
    var strong := ind.adx >= 20.0;
    if trendUp && ind.rsi > 55.0 && macdUp && strong then Some(Buy)
    else if !trendUp && ind.rsi < 45.0 && !macdUp && strong && (bosDn || (lastDown && volOk)) then Some(Sell)
    else None
  }

  /**
   * The funding annotation: shown only when the rate's magnitude exceeds
   * 1%, with its sign kept.
   */
  function FundingNoteOf(fr: Option<real>): (note: FundingNote)
    ensures note.FundingAbove? <==> fr.Some? && fr.value > FundingThreshold
    ensures note.FundingBelow? <==> fr.Some? && fr.value < -FundingThreshold
    ensures !note.NoFundingNote? ==> fr.Some? && note.rate == fr.value && Abs(note.rate) > FundingThreshold
  {
    match fr
    case None => NoFundingNote
    case Some(rate) =>
      if rate > FundingThreshold then FundingAbove(rate)
      else if rate < -FundingThreshold then FundingBelow(rate)
      else NoFundingNote
  }

  /** The break-of-structure field of the summary line: up first, then down. */
  function BosMarkOf(up: bool, down: bool): (m: BosMark)
    ensures m == BrokeUp <==> up
    ensures m == BrokeDown <==> !up && down
  {
    if up then BrokeUp else if down then BrokeDown else NoBreak
  }

  /**
   * `analyze`: the first failing filter, in the order history, liquidity,
   * gap, volume, gives the reason; past them a BUY or SELL signal is
   * produced, or nothing at all.
   */
  function Analyze(x: Instrument): (a: Analysis)
    ensures !(a.res.Some? && a.flag.Some?)
    ensures a.flag == Some(Short) <==> !HasHistory(x)
    ensures a.flag == Some(LowLiq) <==> HasHistory(x) && !Liquid(x.klines.value)
    ensures a.flag == Some(Gap) <==> HasHistory(x) && Liquid(x.klines.value) && GapAtEnd(x.klines.value)
    ensures a.flag == Some(NoVol) <==> PassesFilters(x) && !Spiked(x.klines.value).flag
    ensures a.res.Some? ==>
      && PassesFilters(x) && Spiked(x.klines.value).flag
      && a.res.value.sym == x.sym
      && a.res.value.trendUp == (x.ind.ema20 > x.ind.ema50)
      && a.res.value.rsi == x.ind.rsi && a.res.value.adx == x.ind.adx
      && a.res.value.bos == BosMarkOf(BosUp(x.klines.value, BosLook, BosExcl), BosDn(x.klines.value, BosLook, BosExcl))
      && a.res.value.close == Last(x.klines.value).close
      && a.res.value.volRatio == Spiked(x.klines.value).ratio
      && a.res.value.funding == FundingNoteOf(x.funding)
  {
    if !HasHistory(x) then Analysis(None, Some(Short))
    else
      var bars := x.klines.value;
      if !Liquid(bars) then Analysis(None, Some(LowLiq))
      else if GapAtEnd(bars) then Analysis(None, Some(Gap))
      else
        var up := BosUp(bars, BosLook, BosExcl);
        var down := BosDn(bars, BosLook, BosExcl);
        var spike := Spiked(bars);
        if !spike.flag then Analysis(None, Some(NoVol))
        else
          var lastDown := Last(bars).close < bars[|bars| - 2].close;
          match Direction(x.ind, down, lastDown, spike.flag)
          case None => Analysis(None, None)
          case Some(side) =>
            var signal := Signal(
              x.sym, side, x.ind.ema20 > x.ind.ema50, x.ind.rsi, spike.ratio,
              x.ind.adx, BosMarkOf(up, down), Last(bars).close, FundingNoteOf(x.funding));
            Analysis(Some(signal), None)
  }

  /** Too little history always gives `short`, whatever else is known. */
  lemma ShortComesFirst(x: Instrument)
    requires !HasHistory(x)
    ensures Analyze(x) == Analysis(None, Some(Short))
  {
  }

  /**
   * With enough history, low turnover gives `lowliq` whatever the
   * indicator values and the funding rate are.
   */
  lemma LowLiquidityWhateverIndicators(x: Instrument, ind: Indicators, fr: Option<real>)
    requires HasHistory(x) && !Liquid(x.klines.value)
    ensures Analyze(x.(ind := ind, funding := fr)) == Analysis(None, Some(LowLiq))
  {
  }

  /** Past the filters, BUY is signalled exactly when the BUY rule holds. */
  lemma BuyIff(x: Instrument)
    requires PassesFilters(x) && Spiked(x.klines.value).flag
    ensures Analyze(x).res.Some? && Analyze(x).res.value.side == Buy <==> BuyRule(x.ind)
  {
  }

  /**
   * Past the filters, SELL is signalled exactly when the BUY rule fails and
   * the SELL conditions hold; the volume part of the SELL rule is then just
   * the down close, since the volume filter has already passed.
   */
  lemma SellIff(x: Instrument)
    requires PassesFilters(x) && Spiked(x.klines.value).flag
    ensures Analyze(x).res.Some? && Analyze(x).res.value.side == Sell <==>
      var bars := x.klines.value;
      && !BuyRule(x.ind)
      && x.ind.ema20 <= x.ind.ema50 && x.ind.rsi < 45.0 && x.ind.macdLine <= x.ind.macdSignal
      && x.ind.adx >= 20.0
      && (BosDn(bars, BosLook, BosExcl) || Last(bars).close < bars[|bars| - 2].close)
  {
  }

  /** Past the filters, when neither rule holds nothing is reported at all. */
  lemma SilentIff(x: Instrument)
    requires PassesFilters(x) && Spiked(x.klines.value).flag
    ensures Analyze(x) == Analysis(None, None) <==> Direction(x.ind, BosDn(x.klines.value, BosLook, BosExcl), Last(x.klines.value).close < x.klines.value[|x.klines.value| - 2].close, true).None?
  {
  }
}
