/**
 * The scan of `main`: walk the symbol list, classify each symbol, count the
 * reason tags, collect BUY and SELL signals in discovery order, and build
 * the report with at most 25 lines per side.
 */
module Scan {

  import opened Options
  import opened Classifier
  import opened Regime

  /** At most this many signal lines per side appear in the report. */
  const ReportCap: nat := 25

  /** The keys of the reason counter. */
  const Reasons: set<Reason> := {Short, LowLiq, Gap, NoVol}

  /**
   * One symbol's turn in the loop: either classifying it raised (and the
   * fault was swallowed), or it ran on the data fetched for it.
   */
  datatype Attempt = Faulted | Ran(inst: Instrument)

  /** A result of `analyze` never carries both a signal and a reason. */
  predicate Exclusive(o: Analysis)
  {
    !(o.res.Some? && o.flag.Some?)
  }

  /** What one attempt yields: a fault yields neither a signal nor a reason. */
  function Outcome(a: Attempt): (o: Analysis)
    ensures Exclusive(o)
    ensures a.Faulted? ==> o.res.None? && o.flag.None?
  {
    match a
    case Faulted => Analysis(None, None)
    case Ran(x) => Analyze(x)
  }

  /** The outcome of every attempt, in scan order. */
  function Outcomes(attempts: seq<Attempt>): (outs: seq<Analysis>)
    ensures |outs| == |attempts|
    ensures forall i :: 0 <= i < |attempts| ==> outs[i] == Outcome(attempts[i])
  {
    seq(|attempts|, i requires 0 <= i < |attempts| => Outcome(attempts[i]))
  }

  /** The BUY signal one outcome contributes, if any. */
  function BuyOf(o: Analysis): (s: seq<Signal>)
    ensures forall g :: g in s ==> g.side == Buy
    ensures |s| <= 1
  {
    if o.res.Some? && o.res.value.side == Buy then [o.res.value] else []
  }

  /** The SELL signal one outcome contributes, if any: every signal that is not BUY. */
  function SellOf(o: Analysis): (s: seq<Signal>)
    ensures forall g :: g in s ==> g.side == Sell
    ensures |s| <= 1
  {
    assert o.res.Some? ==> o.res.value.side.Buy? || o.res.value.side.Sell?;
    if o.res.Some? && o.res.value.side != Buy then [o.res.value] else []
  }

  /** Whether one outcome stopped with reason r. */
  function CountOf(o: Analysis, r: Reason): (c: nat)
    ensures c <= 1 && (c == 1 <==> o.flag == Some(r))
  {
    if o.flag == Some(r) then 1 else 0
  }

  /** Whether one outcome left no trace: a fault or a silent exclusion. */
  function UntracedOf(o: Analysis): (c: nat)
    ensures c <= 1 && (c == 1 <==> o.res.None? && o.flag.None?)
  {
    if o.res.None? && o.flag.None? then 1 else 0
  }

  /** The BUY signals of a scan, in discovery order. */
  function Buys(outs: seq<Analysis>): (s: seq<Signal>)
    ensures forall g :: g in s ==> g.side == Buy
    ensures |s| <= |outs|
  {
    if outs == [] then [] else Buys(outs[..|outs| - 1]) + BuyOf(outs[|outs| - 1])
  }

  /** The SELL signals of a scan, in discovery order. */
  function Sells(outs: seq<Analysis>): (s: seq<Signal>)
    ensures forall g :: g in s ==> g.side == Sell
    ensures |s| <= |outs|
  {
    if outs == [] then [] else Sells(outs[..|outs| - 1]) + SellOf(outs[|outs| - 1])
  }

  /** How many outcomes stopped with reason r. */
  function Tally(outs: seq<Analysis>, r: Reason): (n: nat)
    ensures n <= |outs|
  {
    if outs == [] then 0 else Tally(outs[..|outs| - 1], r) + CountOf(outs[|outs| - 1], r)
  }

  /** How many outcomes left no trace. */
  function Untraced(outs: seq<Analysis>): (n: nat)
    ensures n <= |outs|
  {
    if outs == [] then 0 else Untraced(outs[..|outs| - 1]) + UntracedOf(outs[|outs| - 1])
  }

  /**
   * Every attempt lands in exactly one place: the BUY list, the SELL list,
   * one reason counter, or nowhere.
   */
  lemma {:induction false} EveryAttemptLandsOnce(outs: seq<Analysis>)
    requires forall i :: 0 <= i < |outs| ==> Exclusive(outs[i])
    ensures |Buys(outs)| + |Sells(outs)|
      + Tally(outs, Short) + Tally(outs, LowLiq) + Tally(outs, Gap) + Tally(outs, NoVol)
      + Untraced(outs) == |outs|
  {
    if outs != [] {
      var last := outs[|outs| - 1];
      EveryAttemptLandsOnce(outs[..|outs| - 1]);
      if last.res.Some? {
        assert last.flag.None?;
      } else if last.flag.Some? {
        var r := last.flag.value;
        assert r.Short? || r.LowLiq? || r.Gap? || r.NoVol?;
      }
      assert |BuyOf(last)| + |SellOf(last)| + CountOf(last, Short) + CountOf(last, LowLiq)
        + CountOf(last, Gap) + CountOf(last, NoVol) + UntracedOf(last) == 1;
    }
  }

  /**
   * Scanning two runs of symbols one after the other gives the first run's
   * BUY signals followed by the second's.
   */
  lemma {:induction false} BuysSplit(a: seq<Analysis>, b: seq<Analysis>)
    ensures Buys(a + b) == Buys(a) + Buys(b)
  {
    if b == [] {
      assert a + b == a;
    } else {
      var b', x := b[..|b| - 1], b[|b| - 1];
      assert (a + b)[..|a + b| - 1] == a + b';
      assert (a + b)[|a + b| - 1] == x;
      BuysSplit(a, b');
    }
  }

  /** The same for the SELL signals. */
  lemma {:induction false} SellsSplit(a: seq<Analysis>, b: seq<Analysis>)
    ensures Sells(a + b) == Sells(a) + Sells(b)
  {
    if b == [] {
      assert a + b == a;
    } else {
      var b', x := b[..|b| - 1], b[|b| - 1];
      assert (a + b)[..|a + b| - 1] == a + b';
      assert (a + b)[|a + b| - 1] == x;
      SellsSplit(a, b');
    }
  }

  /** The counters of two consecutive runs of a scan add up. */
  lemma {:induction false} TallySplit(a: seq<Analysis>, b: seq<Analysis>, r: Reason)
    ensures Tally(a + b, r) == Tally(a, r) + Tally(b, r)
  {
    if b == [] {
      assert a + b == a;
    } else {
      var b', x := b[..|b| - 1], b[|b| - 1];
      assert (a + b)[..|a + b| - 1] == a + b';
      assert (a + b)[|a + b| - 1] == x;
      TallySplit(a, b', r);
    }
  }

  /**
   * One more symbol: a fault or a silent exclusion changes nothing; a
   * reason adds one to its own counter only; a signal is appended to its
   * side's list only.
   */
  lemma OneMoreAttempt(attempts: seq<Attempt>, a: Attempt, r: Reason)
    ensures var o, outs, after := Outcome(a), Outcomes(attempts), Outcomes(attempts + [a]);
      && Tally(after, r) == Tally(outs, r) + (if o.flag == Some(r) then 1 else 0)
      && (o.res.None? ==> Buys(after) == Buys(outs) && Sells(after) == Sells(outs))
      && (o.res.Some? && o.res.value.side == Buy ==> Buys(after) == Buys(outs) + [o.res.value] && Sells(after) == Sells(outs))
      && (o.res.Some? && o.res.value.side == Sell ==> Sells(after) == Sells(outs) + [o.res.value] && Buys(after) == Buys(outs))
  {
    var after := Outcomes(attempts + [a]);
    assert after[..|attempts|] == Outcomes(attempts);
    assert after[|attempts|] == Outcome(a);
  }

  /** The report handed to the notification channel. */
  datatype ScanReport = ScanReport(
    btc: Trend, eth: Trend, note: MarketNote,
    buyLines: seq<Signal>, sellLines: seq<Signal>, noSignals: bool,
    buyCount: nat, sellCount: nat, lowLiq: nat, gap: nat, noVol: nat)

  /** A scan stops early when the symbol list could not be had. */
  datatype ScanResult = SymbolsUnavailable | Completed(report: ScanReport)

  /** The first k elements, or all of them when there are fewer (`s[:k]`). */
  function Cap<T>(s: seq<T>, k: nat): (r: seq<T>)
    ensures |r| == if |s| <= k then |s| else k
    ensures r <= s
  {
    if |s| <= k then s else s[..k]
  }

  /**
   * The report of a scan: at most 25 lines per side, taken in discovery
   * order, while the summary counts use the full lists. The summary shows
   * the liquidity, gap and volume counters; the `short` counter is kept
   * but not shown.
   */
  function Report(btc: Trend, eth: Trend, note: MarketNote, attempts: seq<Attempt>): (rep: ScanReport)
    ensures rep.btc == btc && rep.eth == eth && rep.note == note
    ensures |rep.buyLines| <= ReportCap && |rep.sellLines| <= ReportCap
    ensures var outs := Outcomes(attempts);
      && rep.buyLines == Cap(Buys(outs), ReportCap) && rep.sellLines == Cap(Sells(outs), ReportCap)
      && rep.buyLines <= Buys(outs) && rep.sellLines <= Sells(outs)
      && (|Buys(outs)| <= ReportCap ==> rep.buyLines == Buys(outs))
      && (|Sells(outs)| <= ReportCap ==> rep.sellLines == Sells(outs))
      && rep.buyCount == |Buys(outs)| && rep.sellCount == |Sells(outs)|
      && rep.lowLiq == Tally(outs, LowLiq) && rep.gap == Tally(outs, Gap) && rep.noVol == Tally(outs, NoVol)
    ensures forall g :: g in rep.buyLines ==> g.side == Buy
    ensures forall g :: g in rep.sellLines ==> g.side == Sell
    ensures rep.noSignals <==> rep.buyCount == 0 && rep.sellCount == 0
  {
    var outs := Outcomes(attempts);
    var buys, sells := Buys(outs), Sells(outs);
    ScanReport(
      btc, eth, note, Cap(buys, ReportCap), Cap(sells, ReportCap), buys == [] && sells == [],
      |buys|, |sells|, Tally(outs, LowLiq), Tally(outs, Gap), Tally(outs, NoVol))
  }

  /**
   * The body of the loop of `main` for one symbol: classify it, count its
   * reason if it has one, and append its signal to the BUY or SELL list.
   * A fault leaves everything as it was.
   */
  method Record(attempt: Attempt, buys: seq<Signal>, sells: seq<Signal>, skipped: map<Reason, nat>)
    returns (buys': seq<Signal>, sells': seq<Signal>, skipped': map<Reason, nat>)
    requires skipped.Keys == Reasons
    ensures buys' == buys + BuyOf(Outcome(attempt)) && sells' == sells + SellOf(Outcome(attempt))
    ensures skipped'.Keys == Reasons
    ensures forall r :: r in skipped' ==> skipped'[r] == skipped[r] + CountOf(Outcome(attempt), r)
  {
    buys', sells', skipped' := buys, sells, skipped;
    match attempt {
      case Faulted =>
      case Ran(x) =>
        var a := Analyze(x);
        if a.flag.Some? && a.flag.value in skipped' {
          skipped' := skipped'[a.flag.value := skipped'[a.flag.value] + 1];
        }
        if a.res.Some? {
          if a.res.value.side == Buy {
            buys' := buys' + [a.res.value];
          } else {
            sells' := sells' + [a.res.value];
          }
        }
    }
  }

  /** Extending a scanned prefix by one outcome extends its lists and counters by that outcome's share. */
  lemma PrefixStep(outs: seq<Analysis>, i: nat)
    requires i < |outs|
    ensures Buys(outs[..i + 1]) == Buys(outs[..i]) + BuyOf(outs[i])
    ensures Sells(outs[..i + 1]) == Sells(outs[..i]) + SellOf(outs[i])
    ensures forall r :: Tally(outs[..i + 1], r) == Tally(outs[..i], r) + CountOf(outs[i], r)
  {
    assert outs[..i + 1][..i] == outs[..i];
  }

  /**
   * The loop of `main`: every symbol in turn, leaving the BUY and SELL
   * lists and the reason counters those of the whole symbol list.
   */
  method TallyAttempts(attempts: seq<Attempt>) returns (buys: seq<Signal>, sells: seq<Signal>, skipped: map<Reason, nat>)
    ensures buys == Buys(Outcomes(attempts)) && sells == Sells(Outcomes(attempts))
    ensures skipped.Keys == Reasons
    ensures forall r :: r in skipped ==> skipped[r] == Tally(Outcomes(attempts), r)
  {
    ghost var outs := Outcomes(attempts);
    buys, sells := [], [];
    skipped := map[LowLiq := 0, Gap := 0, NoVol := 0, Short := 0];
    var i := 0;
    while i < |attempts|
      invariant 0 <= i <= |attempts|
      invariant buys == Buys(outs[..i]) && sells == Sells(outs[..i])
      invariant skipped.Keys == Reasons
      invariant forall r :: r in skipped ==> skipped[r] == Tally(outs[..i], r)
    {
      PrefixStep(outs, i);
      assert outs[i] == Outcome(attempts[i]);
      buys, sells, skipped := Record(attempts[i], buys, sells, skipped);
      i := i + 1;
    }
    assert outs[..|outs|] == outs;
  }

  /**
   * `main` without its I/O: an empty symbol list stops the scan; otherwise
   * every symbol is tallied and the report is built.
   */
  method RunScan(btc: Trend, eth: Trend, note: MarketNote, attempts: seq<Attempt>) returns (result: ScanResult)
    ensures attempts == [] <==> result == SymbolsUnavailable
    ensures attempts != [] ==> result == Completed(Report(btc, eth, note, attempts))
  {
    if attempts == [] {
      return SymbolsUnavailable;
    }
    var buys, sells, skipped := TallyAttempts(attempts);
    result := Completed(ScanReport(
      btc, eth, note, Cap(buys, ReportCap), Cap(sells, ReportCap), buys == [] && sells == [],
      |buys|, |sells|, skipped[LowLiq], skipped[Gap], skipped[NoVol]));
  }
}
