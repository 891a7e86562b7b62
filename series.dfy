/**
 * Daily bars and the window detectors computed directly from them:
 * break of structure up and down (`bos_up`, `bos_dn`) and the volume spike
 * (`volume_spike`). Prices are exact reals; a volume is never negative.
 */
module Series {

  /** A traded volume. */
  type Volume = v: real | 0.0 <= v

  /** One daily bar; `turnover` is the quote-currency value traded. */
  datatype Bar = Bar(high: real, low: real, close: real, volume: Volume, turnover: real)

  /** The guard added to the mean volume before dividing by it. */
  const Epsilon: real := 1.0e-12

  /** The latest bar. */
  function Last(bars: seq<Bar>): (b: Bar)
    requires |bars| > 0
    ensures b in bars
  {
    bars[|bars| - 1]
  }

  function Highs(bars: seq<Bar>): (hs: seq<real>)
    ensures |hs| == |bars| && forall i :: 0 <= i < |bars| ==> hs[i] == bars[i].high
  {
    seq(|bars|, i requires 0 <= i < |bars| => bars[i].high)
  }

  function Lows(bars: seq<Bar>): (ls: seq<real>)
    ensures |ls| == |bars| && forall i :: 0 <= i < |bars| ==> ls[i] == bars[i].low
  {
    seq(|bars|, i requires 0 <= i < |bars| => bars[i].low)
  }

  function Volumes(bars: seq<Bar>): (vs: seq<Volume>)
    ensures |vs| == |bars| && forall i :: 0 <= i < |bars| ==> vs[i] == bars[i].volume
  {
    seq(|bars|, i requires 0 <= i < |bars| => bars[i].volume)
  }

  /** The largest element: an upper bound that is attained. */
  function MaxOf(s: seq<real>): (m: real)
    requires |s| > 0
    ensures forall i :: 0 <= i < |s| ==> s[i] <= m
    ensures exists i :: 0 <= i < |s| && s[i] == m
  {
    if |s| == 1 then s[0]
    else
      var m0 := MaxOf(s[..|s| - 1]);
      if s[|s| - 1] > m0 then s[|s| - 1] else m0
  }

  /** The smallest element: a lower bound that is attained. */
  function MinOf(s: seq<real>): (m: real)
    requires |s| > 0
    ensures forall i :: 0 <= i < |s| ==> m <= s[i]
    ensures exists i :: 0 <= i < |s| && s[i] == m
  {
    if |s| == 1 then s[0]
    else
      var m0 := MinOf(s[..|s| - 1]);
      if s[|s| - 1] < m0 then s[|s| - 1] else m0
  }

  /**
   * First index of the window `[:-excl].tail(look)` in a series of length n:
   * the `look` bars that end `excl` bars before the end, or all of them
   * when fewer remain.
   */
  function WindowStart(n: nat, look: nat, excl: nat): (start: nat)
    requires excl <= n
    ensures start <= n - excl
    ensures n - excl - start == if n - excl < look then n - excl else look
  {
    if n - excl >= look then n - excl - look else 0
  }

  /**
   * Break of structure upwards: the latest close is strictly above the
   * highest high of the window. The window ends `excl >= 1` bars before the
   * end, so the latest bar is never compared with itself.
   */
  function BosUp(bars: seq<Bar>, look: nat, excl: nat): (r: bool)
    requires 1 <= look && 1 <= excl < |bars|
    ensures r <==> forall i :: WindowStart(|bars|, look, excl) <= i < |bars| - excl ==> bars[i].high < Last(bars).close
  {
    var window := Highs(bars)[..|bars| - excl][WindowStart(|bars|, look, excl)..];
    assert forall i :: WindowStart(|bars|, look, excl) <= i < |bars| - excl ==>
      window[i - WindowStart(|bars|, look, excl)] == bars[i].high;
    Last(bars).close > MaxOf(window)
  }

  /**
   * Break of structure downwards: the latest close is strictly below the
   * lowest low of the same window.
   */
  function BosDn(bars: seq<Bar>, look: nat, excl: nat): (r: bool)
    requires 1 <= look && 1 <= excl < |bars|
    ensures r <==> forall i :: WindowStart(|bars|, look, excl) <= i < |bars| - excl ==> Last(bars).close < bars[i].low
  {
    var window := Lows(bars)[..|bars| - excl][WindowStart(|bars|, look, excl)..];
    assert forall i :: WindowStart(|bars|, look, excl) <= i < |bars| - excl ==>
      window[i - WindowStart(|bars|, look, excl)] == bars[i].low;
    Last(bars).close < MinOf(window)
  }

  /** Sum of a sequence of volumes; never negative. */
  function Sum(s: seq<Volume>): (total: real)
    ensures 0.0 <= total
  {
    if s == [] then 0.0 else Sum(s[..|s| - 1]) + s[|s| - 1]
  }

  function Mean(s: seq<Volume>): (m: real)
    requires |s| > 0
    ensures 0.0 <= m
  {
    Sum(s) / (|s| as real)
  }

  /** The n volumes just before the latest one (`iloc[-(n+1):-1]`). */
  function Trailing(vols: seq<Volume>, n: nat): (w: seq<Volume>)
    requires n + 1 <= |vols|
    ensures |w| == n
    ensures forall i :: 0 <= i < n ==> w[i] == vols[|vols| - 1 - n + i]
  {
    vols[|vols| - (n + 1)..|vols| - 1]
  }

  /** What `volume_spike` returns: the flag and the ratio. */
  datatype Spike = Spike(flag: bool, ratio: real)

  /**
   * Latest volume against the mean of the n volumes before it. With fewer
   * than n + 2 volumes the answer is the fixed "insufficient data" pair
   * (false, 1.0); otherwise the ratio is the latest volume over the
   * epsilon-guarded mean, and the flag is raised iff the ratio reaches r.
   */
  function VolumeSpike(vols: seq<Volume>, n: nat, r: real): (sp: Spike)
    requires 1 <= n
    ensures |vols| < n + 2 ==> sp == Spike(false, 1.0)
    ensures |vols| >= n + 2 ==>
      && 0.0 <= sp.ratio
      && sp.ratio * (Mean(Trailing(vols, n)) + Epsilon) == vols[|vols| - 1]
      && (sp.flag <==> sp.ratio >= r)
      && (sp.flag <==> vols[|vols| - 1] >= r * (Mean(Trailing(vols, n)) + Epsilon))
  {
    if |vols| < n + 2 then Spike(false, 1.0)
    else
      var last := vols[|vols| - 1];
      var base := Mean(Trailing(vols, n));
      var ratio := last / (base + Epsilon);
      RatioThreshold(last, base + Epsilon, r);
      Spike(ratio >= r, ratio)
  }

  /** For a positive denominator d, x / d >= r exactly when x >= r * d. */
  lemma RatioThreshold(x: real, d: real, r: real)
    requires 0.0 <= x && 0.0 < d
    ensures 0.0 <= x / d && (x / d) * d == x
    ensures x / d >= r <==> x >= r * d
  {
  }

  /**
   * On exactly n + 1 volumes the detector still reports insufficient data,
   * whatever the volumes are.
   */
  lemma OneShortOfWindow(vols: seq<Volume>, n: nat, r: real)
    requires 1 <= n && |vols| == n + 1
    ensures VolumeSpike(vols, n, r) == Spike(false, 1.0)
  {
  }

  /**
   * With a latest volume three times the trailing mean and threshold 2 the
   * flag is raised, as long as the mean is not drowned by the epsilon
   * guard; the ratio then lies in [2, 3).
   */
  lemma TripleVolumeSpikes(vols: seq<Volume>, n: nat)
    requires 1 <= n && |vols| >= n + 2
    requires vols[|vols| - 1] == 3.0 * Mean(Trailing(vols, n))
    requires Mean(Trailing(vols, n)) >= 2.0 * Epsilon
    ensures VolumeSpike(vols, n, 2.0).flag
    ensures 2.0 <= VolumeSpike(vols, n, 2.0).ratio < 3.0
  {
  }

  /**
   * Only the latest bar's close enters the comparison: its high and low
   * may be anything without changing either break-of-structure answer.
   */
  lemma BosIgnoresLatestRange(bars: seq<Bar>, b: Bar, look: nat, excl: nat)
    requires 1 <= look && 1 <= excl < |bars|
    requires b.close == Last(bars).close
    ensures BosUp(bars[..|bars| - 1] + [b], look, excl) == BosUp(bars, look, excl)
    ensures BosDn(bars[..|bars| - 1] + [b], look, excl) == BosDn(bars, look, excl)
  {
    var bars' := bars[..|bars| - 1] + [b];
    assert forall i :: 0 <= i < |bars| - 1 ==> bars'[i] == bars[i];
  }

  /**
   * A series whose closes never rise, and whose every close lies within its
   * bar's range, never breaks out upwards.
   */
  lemma NoBreakoutWhenDeclining(bars: seq<Bar>, look: nat, excl: nat)
    requires 1 <= look && 1 <= excl < |bars|
    requires forall i :: 0 <= i < |bars| ==> bars[i].close <= bars[i].high
    requires forall i, j :: 0 <= i < j < |bars| ==> bars[j].close <= bars[i].close
    ensures !BosUp(bars, look, excl)
  {
  }
}
