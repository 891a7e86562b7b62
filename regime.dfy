/**
 * The market-regime notes of the report: the daily trend state of a
 * reference coin (`coin_state_1d`) and the market note (`market_note`) that
 * compares BTC's 24h change with the whole market's and reads the USDT
 * dominance. The fetched numbers are taken as inputs.
 */
module Regime {

  import opened Options

  datatype Trend = Strong | Weak | Neutral

  /** Latest EMA(20), EMA(50) and RSI(14) of a reference coin's daily closes. */
  datatype TrendInputs = TrendInputs(ema20: real, ema50: real, rsi: real)

  /**
   * The coin's trend state; a failed fetch (None) reads as neutral.
   */
  function CoinState(latest: Option<TrendInputs>): (t: Trend)
    ensures t == Strong <==> latest.Some? && latest.value.ema20 > latest.value.ema50 && latest.value.rsi > 50.0
    ensures t == Weak <==> latest.Some? && latest.value.ema20 < latest.value.ema50 && latest.value.rsi < 50.0
  {
    match latest
    case None => Neutral
    case Some(v) =>
      if v.ema20 > v.ema50 && v.rsi > 50.0 then Strong
      else if v.ema20 < v.ema50 && v.rsi < 50.0 then Weak
      else Neutral
  }

  datatype Arrow = Up | Down | Flat

  /** The "Total2" narrative: rotation into alts, out of them, or mixed. */
  datatype Rotation = IntoAlts | OutOfAlts | Mixed

  /** The USDT-dominance annotation. */
  datatype UsdtTag = RiskOff | RiskOn | NoTag

  /** The aggregate figures: 24h market-cap change %, BTC and USDT dominance %. */
  datatype GlobalStats = GlobalStats(totalPct: real, btcDom: real, usdtDom: real)

  datatype MarketNote =
    | Unavailable
    | Note(btcDir: Arrow, btcVsTotal: Arrow, total2: Rotation, btcDom: real, usdtDom: real, usdt: UsdtTag)

  /** Up when x is known and above y, down when known and below, otherwise flat. */
  function Compare(x: Option<real>, y: real): (a: Arrow)
    ensures a == Up <==> x.Some? && x.value > y
    ensures a == Down <==> x.Some? && x.value < y
    ensures a == Flat <==> x.None? || x.value == y
  {
    if x.Some? && x.value > y then Up
    else if x.Some? && x.value < y then Down
    else Flat
  }

  /** The rotation narrative, read off the BTC-versus-market arrow. */
  function RotationOf(btcVsTotal: Arrow, totalPct: real): (rot: Rotation)
    ensures rot == IntoAlts <==> btcVsTotal == Down && totalPct >= 0.0
    ensures rot == OutOfAlts <==> btcVsTotal == Up && totalPct <= 0.0
  {
    if btcVsTotal == Down && totalPct >= 0.0 then IntoAlts
    else if btcVsTotal == Up && totalPct <= 0.0 then OutOfAlts
    else Mixed
  }

  function UsdtTagOf(usdtDom: real): (tag: UsdtTag)
    ensures tag == RiskOff <==> usdtDom >= 7.0
    ensures tag == RiskOn <==> usdtDom <= 5.0
    ensures tag == NoTag <==> 5.0 < usdtDom < 7.0
  {
    if usdtDom >= 7.0 then RiskOff
    else if usdtDom <= 5.0 then RiskOn
    else NoTag
  }

  /**
   * The market note: unavailable without the aggregate figures; otherwise
   * the arrows and narratives chosen from them and BTC's own 24h change,
   * which may itself be missing.
   */
  function Market(global: Option<GlobalStats>, btcPct: Option<real>): (n: MarketNote)
    ensures n.Unavailable? <==> global.None?
    ensures n.Note? ==>
      var total := global.value.totalPct;
      && n.btcVsTotal == Compare(btcPct, total) && n.btcDir == Compare(btcPct, 0.0)
      && (n.total2 == IntoAlts <==> btcPct.Some? && btcPct.value < total && total >= 0.0)
      && (n.total2 == OutOfAlts <==> btcPct.Some? && btcPct.value > total && total <= 0.0)
      && (n.usdt == RiskOff <==> global.value.usdtDom >= 7.0)
      && (n.usdt == RiskOn <==> global.value.usdtDom <= 5.0)
      && n.btcDom == global.value.btcDom && n.usdtDom == global.value.usdtDom
  {
    match global
    case None => Unavailable
    case Some(g) =>
      var arrow := Compare(btcPct, g.totalPct);
      var dir := Compare(btcPct, 0.0);
      Note(dir, arrow, RotationOf(arrow, g.totalPct), g.btcDom, g.usdtDom, UsdtTagOf(g.usdtDom))
  }

  /** Without BTC's own change both arrows are flat and the rotation is mixed. */
  lemma MissingBtcChangeIsMixed(g: GlobalStats)
    ensures Market(Some(g), None) == Note(Flat, Flat, Mixed, g.btcDom, g.usdtDom, UsdtTagOf(g.usdtDom))
  {
  }

  /**
   * The market up 2% while BTC fell 1%: BTC is below the market, so the
   * arrow points down and the note reads rotation into alts.
   */
  lemma AltRotationExample(btcDom: real, usdtDom: real)
    ensures var n := Market(Some(GlobalStats(2.0, btcDom, usdtDom)), Some(-1.0));
      n.btcVsTotal == Down && n.btcDir == Down && n.total2 == IntoAlts
  {
  }

  /** Two reference coins, each with EMA(20) under EMA(50) and RSI under 50, are both weak. */
  lemma BothWeak(btc: TrendInputs, eth: TrendInputs)
    requires btc.ema20 < btc.ema50 && btc.rsi < 50.0
    requires eth.ema20 < eth.ema50 && eth.rsi < 50.0
    ensures CoinState(Some(btc)) == Weak && CoinState(Some(eth)) == Weak
  {
  }
}
