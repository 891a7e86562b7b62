# Daily signal scan: decision logic

This project models the decision logic of `strategy_scan.py`, a daily scanner of USDT-quoted perpetual contracts. Prices are exact reals. For each symbol, the scanner fetches about 400 daily bars. It then runs an ordered filter chain:

1. at least 120 bars (`short`);
2. a latest turnover of at least 5,000,000 (`lowliq`);
3. a close-to-close move of at most 12% (`gap`);
4. a volume spike, where the latest volume is at least twice the 1e-12-guarded mean of the 30 volumes before it, i.e. at least 2 × (mean + 1e-12) (`novol`).

The first filter that fails stops the symbol with its reason tag. A symbol that passes all four gets a BUY or SELL signal from a rule over its latest EMA(20)/EMA(50), RSI(14), MACD, ADX(14) and break-of-structure values, or it is excluded silently. The scan counts the reason tags and collects signals in discovery order. The report shows at most 25 lines per side. It comes with the trend state of BTC and ETH and a market note on capital rotation and USDT dominance.

Modules:
- `Options` holds the optional value.
- `Series` holds the bars and the window detectors `bos_up`, `bos_dn` and `volume_spike`.
- `Classifier` holds `analyze`.
- `Regime` holds `coin_state_1d` and `market_note`.
- `Scan` holds the loop of `main` and the report.

The EMA, RSI, MACD and ADX values, and the funding rate, are inputs to the model. The fetched data for a symbol is an `Instrument`. A symbol whose processing raised an exception is an `Attempt.Faulted`.

Notes on what the code does:
- An empty symbol list stops the scan with a single notice (`strategy_scan.py:152`). No empty report is produced.
- The SELL rule tests "trend not up" (EMA(20) <= EMA(50)) and "MACD not above its signal" (MACD <= signal) (`strategy_scan.py:136`).
- The liquidity test reads only the latest value of the turnover column (`strategy_scan.py:114`).
- With fewer than n+2 volumes, `volume_spike` returns the pair (false, 1.0) (`strategy_scan.py:56`).
- The summary line shows the liquidity, gap and volume counters; the `short` counter is kept but not shown (`strategy_scan.py:170`).
- A failed bar fetch counts as `short` (`strategy_scan.py:111`).

## Model

| member | source | states |
|---|---|---|
| `Series.MaxOf` | strategy_scan.py:50 | the window maximum is an upper bound of the window and is attained in it |
| `Series.MinOf` | strategy_scan.py:53 | the window minimum is a lower bound of the window and is attained in it |
| `Series.BosUp` | strategy_scan.py:49-51 | true iff the last close is strictly above every high in the `look` bars ending `excl` bars before the end; with `excl >= 1` the latest bar is outside that window |
| `Series.BosDn` | strategy_scan.py:52-54 | true iff the last close is strictly below every low in the same window |
| `Series.BosIgnoresLatestRange` | strategy_scan.py:49-54 | of the latest bar only its close matters; its high and low never change either answer (the bar is not compared with itself) |
| `Series.NoBreakoutWhenDeclining` | strategy_scan.py:49-51 | a series whose closes never rise and stay within their bars' ranges never breaks out upwards |
| `Series.VolumeSpike` | strategy_scan.py:55-58 | fewer than n+2 volumes give (false, 1.0); otherwise ratio × (mean of the n volumes before the last + 1e-12) is the last volume, and the flag holds iff ratio >= r, i.e. iff last >= r × (mean + 1e-12) |
| `Series.OneShortOfWindow` | strategy_scan.py:56 | exactly n+1 volumes still give the insufficient-data pair (false, 1.0) |
| `Series.TripleVolumeSpikes` | strategy_scan.py:55-58 | a last volume three times the trailing mean raises the flag at threshold 2 (when the mean is at least 2e-12), with ratio in [2, 3) |
| `Series.RatioThreshold` | strategy_scan.py:58 | for a positive denominator, comparing the ratio with r is comparing the numerator with r × denominator |
| `Classifier.CloseReturn` | strategy_scan.py:118 | the return times the previous close is the close-to-close move |
| `Classifier.GapIsAbsoluteReturn` | strategy_scan.py:118 | for a nonzero previous close, the gap test abs(last − prev) > 0.12 × abs(prev) is exactly abs(last/prev − 1) > 0.12 |
| `Classifier.Direction` | strategy_scan.py:122-138 | BUY iff e20 > e50, RSI > 55, MACD > signal and ADX >= 20; SELL iff e20 <= e50, RSI < 45, MACD <= signal, ADX >= 20 and (bos down or a down close with the volume flag); the two never overlap |
| `Classifier.FundingNoteOf` | strategy_scan.py:140-143 | an annotation appears iff the rate is known and its magnitude exceeds 0.01, and it keeps the rate and its sign |
| `Classifier.BosMarkOf` | strategy_scan.py:145 | the break-of-structure field shows up when bos up holds, otherwise down when bos down holds, otherwise none |
| `Classifier.Analyze` | strategy_scan.py:109-146 | never both a signal and a reason; `short` iff fewer than 120 bars (or none); `lowliq` iff long enough but turnover < 5,000,000; `gap` iff it passed those and the last move exceeds 12%; `novol` iff it passed those three and the volume flag fails; a signal only past all four filters, carrying the symbol, the trend arrow (e20 > e50), RSI, ADX, the break-of-structure mark of `bos_up`/`bos_dn` on a 60-bar window, the last close, the volume ratio and the funding note |
| `Classifier.ShortComesFirst` | strategy_scan.py:111 | too little history gives exactly (None, `short`) whatever else is known |
| `Classifier.LowLiquidityWhateverIndicators` | strategy_scan.py:114 | with enough history, low turnover gives (None, `lowliq`) for every indicator record and funding rate |
| `Classifier.BuyIff` | strategy_scan.py:134-135 | past the filters, a BUY signal iff the BUY rule holds |
| `Classifier.SellIff` | strategy_scan.py:131-137 | past the filters, a SELL signal iff the BUY rule fails, e20 <= e50, RSI < 45, MACD <= signal, ADX >= 20 and (bos down or last close below the previous one): the volume part reduces to the down close |
| `Classifier.SilentIff` | strategy_scan.py:133-138 | past the filters, the result is (None, None) iff the direction rule picks no side |
| `Regime.CoinState` | strategy_scan.py:61-68 | strong iff e20 > e50 and RSI > 50; weak iff e20 < e50 and RSI < 50; a failed fetch or anything else is neutral |
| `Regime.BothWeak` | strategy_scan.py:66-67 | two reference coins each with e20 < e50 and RSI < 50 are both weak |
| `Regime.Compare` | strategy_scan.py:82-83 | the arrow is up iff the BTC change is known and above the reference, down iff known and below, flat otherwise |
| `Regime.UsdtTagOf` | strategy_scan.py:85-87 | risk-off iff USDT dominance >= 7, risk-on iff <= 5, no tag strictly between |
| `Regime.RotationOf` | strategy_scan.py:84 | rotation into alts iff BTC is below the market and the market's change is >= 0; out of alts iff BTC is above and the market's change is <= 0 |
| `Regime.Market` | strategy_scan.py:72-88 | unavailable iff the aggregate figures are missing; rotation into alts iff BTC change is known, below the market's and the market's >= 0; out iff known, above and market's <= 0; otherwise mixed |
| `Regime.MissingBtcChangeIsMixed` | strategy_scan.py:79-84 | without BTC's own change both arrows are flat and the rotation is mixed |
| `Regime.AltRotationExample` | strategy_scan.py:82-84 | market +2%, BTC −1%: the comparison arrow is down, BTC's arrow is down, rotation into alts |
| `Scan.Outcome` | strategy_scan.py:157-163 | what one symbol yields never carries both a signal and a reason, and a swallowed fault yields neither |
| `Scan.BuyOf` | strategy_scan.py:160-162 | a symbol contributes at most one signal to the BUY list, and only a BUY signal |
| `Scan.SellOf` | strategy_scan.py:160-162 | a symbol contributes at most one signal to the SELL list: any signal whose side is not BUY, which is then SELL |
| `Scan.Buys` | strategy_scan.py:154-162 | the BUY list holds only BUY signals and at most one per symbol |
| `Scan.Sells` | strategy_scan.py:154-162 | the SELL list holds only SELL signals and at most one per symbol |
| `Scan.CountOf` | strategy_scan.py:159 | a symbol adds one to the counter of reason r iff its flag is r, otherwise nothing |
| `Scan.Tally` | strategy_scan.py:155-159 | a reason counter never exceeds the number of symbols |
| `Scan.EveryAttemptLandsOnce` | strategy_scan.py:156-163 | given outcomes that never carry both a signal and a reason (as `Outcome` guarantees), every symbol lands in exactly one place: the BUY list, the SELL list, one reason counter, or nowhere (fault or silent exclusion) |
| `Scan.BuysSplit` | strategy_scan.py:156-162 | scanning two runs of symbols in turn gives the first run's BUY signals followed by the second's (discovery order) |
| `Scan.SellsSplit` | strategy_scan.py:156-162 | the same for SELL signals |
| `Scan.TallySplit` | strategy_scan.py:156-159 | the reason counters of consecutive runs add up |
| `Scan.OneMoreAttempt` | strategy_scan.py:157-163 | one more symbol: a fault or silent exclusion changes nothing; a reason adds one to its own counter only; a signal is appended to its own side only |
| `Scan.Cap` | strategy_scan.py:167-168 | the capped list is a prefix of the list, of length min(k, length) |
| `Scan.Report` | strategy_scan.py:166-170 | the BTC and ETH states and the market note as given; exactly the first 25 lines of each side's list (`Cap`, all of it when 25 or fewer), only signals of that side; the "no signals" line iff both lists are empty; the summary counts are the full list lengths and the lowliq/gap/novol counters |
| `Scan.Record` | strategy_scan.py:157-163 | one symbol's turn: its BUY signal, SELL signal and reason count (none for a fault) are added to the lists and counters, and the counter keys stay the four reasons |
| `Scan.TallyAttempts` | strategy_scan.py:154-165 | the loop leaves the BUY and SELL lists and the four reason counters equal to `Buys`, `Sells` and `Tally` over the outcomes of the whole symbol list, and the counter keys are the four reasons |
| `Scan.RunScan` | strategy_scan.py:148-171 | an empty symbol list stops the scan; otherwise the result is the report over every symbol |

## Left out

- HTTP retrieval and retries are left out: `jget`, `mexc_symbols`, `klines_mexc`, the `funding_rate` fetch, the Binance and CoinGecko fetches inside `coin_state_1d` and `market_note`, and `telegram`. Their results are inputs: `Option` values, an `Instrument` per symbol, a `GlobalStats` record.
- `btc_eth_state_1d` only pairs two fetched `coin_state_1d` calls. It is covered by `Regime.CoinState` applied to each coin.
- The `ewm`-based indicators `ema`, `rsi`, `macd` and `adx` are left out. They are floating-point recurrences inside pandas. Their latest values are the `Indicators` and `TrendInputs` inputs.
- The clock (`ts`) and the pacing sleep every 15 symbols are left out. They do not affect the result.
- Text formatting is left out: the f-strings, glyphs, display precision and the Turkish wording. The model keeps which arrow, tag or annotation is chosen and the values a signal line carries. It does not keep the text.
- Which exception a symbol raises is not modelled. A raised exception is the `Attempt.Faulted` case, which changes no counter and no list.
- Floating-point behaviour is not modelled (NaN, infinities, rounding). The gap test is written without division. For a zero previous close it reports a gap exactly when the last close is nonzero, which is what the division gives under IEEE arithmetic. Volumes are non-negative reals, so the epsilon-guarded mean is always positive.
- `Series.BosUp`, `Series.BosDn`: they require `excl >= 1`, `look >= 1` and more than `excl` bars. An empty window would give a NaN maximum in pandas. `analyze` always calls them with 60 and 1 on at least 120 bars.
- `Series.VolumeSpike`: it requires `n >= 1`, because the mean of an empty window is NaN. `analyze` always uses n = 30.
- The bar's open price and timestamp are not modelled. No core logic reads them.
