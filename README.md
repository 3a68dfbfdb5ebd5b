# crypto_alert_bot core, modelled in Dafny

This project models the signal core of a crypto alert bot. The bot polls
one-minute OHLCV candles from MEXC, computes indicators over them, turns
the last bar's indicator values into a list of notes, and hands one alert
per poll to a Telegram router. The router drops repeats of a dedup key
inside a cooldown window.

The model has three modules. Each follows the form of its source file.

- `Indicators` (`indicators.dfy`) models `indicators.py`. EMA, Wilder RSI
  and ATR are functions over `seq<real>` or `seq<Candle>`. So are the
  cumulative VWAP, the deviation bands (at one bar, with sigma given) and
  the liquidity-sweep rule. `liquidity_sweep` and `detect_sweep` share one
  rule with a `lookback` parameter; their defaults are
  `LiquiditySweepLookback` (3) and `DetectSweepLookback` (20). The
  reset-aware VWAP loop is the method `VwapResetAware`. It fills two
  arrays element by element and is proved equal to the session
  specification `VwapSession`. The `1e-9` guard is a positive parameter
  `eps`. A pandas NaN is `None`.
- `MexcPoll` (`mexc_poll.dfy`) models `mexc_poll.py`.
  - `ResetIndexForVwap` is the `prev`-tracking loop that turns bar
    timestamps into VWAP reset flags. The UTC day of a bar is
    `ts_ms / 86400000`.
  - `AssembleNotes` is the chain of `note.append`s.
  - `DedupKey` is the `mexc-` key.
  - `PollOnce` is one pass of the poll loop, and `PollAndSend` adds the
    one send that follows it.
- `Router` (`alert_router.dfy`) models `alert_router.py`.
  - `Cooldown` is a class whose `lastSent: map<string, real>` field is
    updated in place by `Allow`. The clock is the parameter `now`.
  - `AlertRouter` holds a `Cooldown` object. The Telegram `send_message`
    call is an external sink. It is recorded as the sequence `sent` of
    messages handed to it. What the router prints is recorded as
    `console`.

Prices and volumes are exact `real`s.

### Behaviour of the code worth noting

- Dry mode skips cooldown accounting. When there is no bot or no chat id,
  `send` prints the message and returns before it consults the cooldown
  map (alert_router.py:25-27). `Router.AlertRouter.Send` states that the
  map is unchanged in that case.
- The poll has no trigger gate. No sweep or EMA-distance threshold decides
  whether to send: every poll with at least 50 bars sends
  (mexc_poll.py:63-64). The key is always `mexc-` followed by the symbol
  with its slashes removed; there are no separate `-sweep` and
  `-indicators` keys. The EMA-distance division by `ema20` does not exist
  in this code.
- The poll has no bounded candle cache. Every poll refetches 200 bars
  (mexc_poll.py:26).
- A reset at every bar does not give the typical price exactly. The
  reset-aware VWAP adds `1e-9` to the volume sum, so a bar that opens a
  session gets `tp·vol/(vol + 1e-9)` (`Indicators.VwapAtReset`).
- `SESSION` mode gives no resets, the same as `NONE` (mexc_poll.py:20-21).
- A high sweep and a low sweep can fire on the same bar
  (`Indicators.BothSweepsCanFire`).
- The deviation bands take a scalar VWAP. The poll passes the scalar `v`
  to `vwap_deviation_bands` (mexc_poll.py:54), so `close - v` is the close
  series shifted by a constant. Sigma is then the rolling standard
  deviation of the closes. It is an input of the model, and nothing checks
  the value the caller passes against the rule below. The code makes it `None`
  when fewer than `vwap_band_window` bars exist, because `rolling(window)`
  asks for a full window by default (a window of 100 over 60 bars passes
  the 50-bar gate and still gives no sigma). It is also always `None` when
  `vwap_band_window` is 0 or 1, because `std()` divides by n - 1.

## Model

| member | source | states |
|---|---|---|
| Indicators.Ewm | indicators.py:6-7 | the `ewm(adjust=False)` series has one entry per input, is seeded with the first value, and follows `y[i] = α·x[i] + (1-α)·y[i-1]` |
| Indicators.EwmAtLeast | indicators.py:6-7 | with 0 ≤ α ≤ 1, every smoothed value is at least any lower bound of the input |
| Indicators.EwmAtMost | indicators.py:6-7 | with 0 ≤ α ≤ 1, every smoothed value is at most any upper bound of the input |
| Indicators.SpanAlpha | indicators.py:11-12 | the span factor α lies in (0, 1] and satisfies α·(span+1) = 2 |
| Indicators.Ema | indicators.py:11-12 | `ema` keeps the length, has ema[0] = x[0], and has ema[i] = α·x[i] + (1-α)·ema[i-1] with α = 2/(span+1) |
| Indicators.EmaWithinRange | indicators.py:11-12 | every EMA value lies within the range of the input series |
| Indicators.EmaOfConstant | indicators.py:11-12 | on a constant series every EMA value equals that constant |
| Indicators.DeltasTelescope | indicators.py:5 | the deltas of `diff()` telescope: the first value plus the first k deltas is value k, so the deltas lose nothing but the starting level |
| Indicators.GainsLossesSplit | indicators.py:6-7 | the two clips split each delta: gain and loss are non-negative, at most one is non-zero, and gain - loss is the delta |
| Indicators.RsiValue | indicators.py:8-9 | with non-negative averages and ε > 0, the RSI lies in [0, 100), and it is 0 exactly when the average gain is 0 |
| Indicators.WilderAlpha | indicators.py:6-7 | the Wilder factor 1/period lies in (0, 1] for period ≥ 1 |
| Indicators.EwmNonNeg | indicators.py:6-7 | smoothing a non-negative series gives a non-negative series |
| Indicators.AvgGains | indicators.py:6 | the smoothed gains have one entry per delta and are all non-negative |
| Indicators.AvgLosses | indicators.py:7 | the smoothed losses have one entry per delta and are all non-negative |
| Indicators.Rsi | indicators.py:4-9 | one value per bar; the first is NaN (no delta) and every later value is defined and lies in [0, 100) |
| Indicators.RsiSeed | indicators.py:5-9 | the first defined RSI (bar 1) uses the first delta alone as its seed; bar 0 takes no part |
| Indicators.RsiOfNonRising | indicators.py:4-9 | a series that never rises has RSI exactly 0 at every bar after the first |
| Indicators.TrueRange | indicators.py:15-18 | the true range is at least \|h-l\|, \|h-prev close\| and \|l-prev close\| and equals one of them; bar 0 uses \|h-l\| only |
| Indicators.SumTrueRange | indicators.py:18-19 | a sum of true ranges is non-negative |
| Indicators.MeanTrueRange | indicators.py:19 | the mean true range of a window is non-negative |
| Indicators.Atr | indicators.py:14-19 | one value per bar; defined exactly from bar period-1 on (never for period 0), and non-negative where defined |
| Indicators.AtrAt | indicators.py:19 | the rolling mean at bar i is defined iff 1 ≤ period ≤ i+1, and is non-negative |
| Indicators.SumTrueRangeBounds | indicators.py:18-19 | a window sum of true ranges that each lie in [lo, hi] lies between n·lo and n·hi |
| Indicators.AtrWithinRange | indicators.py:14-19 | each defined ATR value lies within the range of the true ranges of its window |
| Indicators.SumVolNonNeg | indicators.py:60 | with non-negative volumes the accumulated volume is non-negative |
| Indicators.WindowVwap | indicators.py:47-49 | the VWAP of a window times (Σvol + ε) equals Σ(tp·vol), and the denominator is positive |
| Indicators.VwapCumulative | indicators.py:46-49 | without reset flags, entry i times (Σvol over bars 0..i + ε) equals Σ(tp·vol) over bars 0..i |
| Indicators.SessionStart | indicators.py:56-58 | the session start of bar i is at or before i, is bar 0 or a flagged bar, and has no flagged bar after it up to i |
| Indicators.SessionStartUnique | indicators.py:56-58 | those three properties determine the session start |
| Indicators.SessionSumsAt | indicators.py:57-60 | adding bar i to the running sums of its session gives the session sums through bar i |
| Indicators.VwapSession | indicators.py:54-63 | with reset flags, entry i times (Σvol + ε) over the session of bar i equals Σ(tp·vol) over that session |
| Indicators.VwapResetAware | indicators.py:52-63 | the loop that clears `pv` and `v` at each reset and writes `cum_pv` and `cum_v` returns exactly the session VWAP series |
| Indicators.Ratios | indicators.py:63 | element-wise division: each ratio times its denominator is its numerator |
| Indicators.SessionRatios | indicators.py:61-63 | every `cum_v` entry is positive, and `cum_pv / cum_v` is the session VWAP |
| Indicators.Vwap | indicators.py:43-63 | without a reset series, `vwap` returns the cumulative VWAP; with one, it returns the session VWAP |
| Indicators.VwapWithoutResets | indicators.py:46-63 | with no reset flag set, the reset-aware branch equals the non-reset branch |
| Indicators.VwapAtReset | indicators.py:57-62 | at a flagged bar the VWAP is tp·vol/(vol + ε) |
| Indicators.VwapSessionLocal | indicators.py:56-62 | the VWAP at i depends only on the bars and flags from the most recent reset through i |
| Indicators.VwapSessionBounded | indicators.py:45-63 | with non-negative volumes and typical prices in [0, hi], every session VWAP lies in [0, hi] |
| Indicators.DeviationBands | indicators.py:79-84 | plus1 and minus1 lie exactly sigma above and below the VWAP, and the 2σ bands twice as far out; they are ordered minus2 ≤ minus1 ≤ vwap ≤ plus1 ≤ plus2 iff sigma ≥ 0 |
| Indicators.SeqMax | indicators.py:36 | the rolling max is an upper bound of its window and is attained in it |
| Indicators.SeqMin | indicators.py:37 | the rolling min is a lower bound of its window and is attained in it |
| Indicators.Sweeps | indicators.py:30-40 | two flags per bar; both are false at every i < lookback; a high sweep implies close < high and a low sweep implies close > low |
| Indicators.HighSweepIff | indicators.py:70-72 | a high sweep at i holds iff the window of the previous `lookback` bars is full, all its highs are below high[i], and one of them is above close[i] |
| Indicators.LowSweepIff | indicators.py:71-73 | a low sweep at i holds iff the window is full, all its lows are above low[i], and one of them is below close[i] |
| Indicators.SweepsLocal | indicators.py:36-39 | the flags at i depend only on bars i-lookback..i |
| Indicators.BothSweepsCanFire | indicators.py:38-39 | an outside bar raises both flags at once |
| MexcPoll.DayMonotone | mexc_poll.py:12 | later timestamps never fall on an earlier UTC day |
| MexcPoll.UpperNormalizes | mexc_poll.py:8-10 | `upper()` leaves no lower-case ASCII letter, is idempotent and is the identity on strings without one, so the mode match ignores letter case |
| MexcPoll.ResetFlags | mexc_poll.py:7-21 | one reset flag per bar |
| MexcPoll.ResetIndexForVwap | mexc_poll.py:7-21 | the loop returns the reset flags of the mode; in any mode other than DAILY (any case), NONE and SESSION included, all flags are false; in DAILY mode, bar i is flagged iff it is the first bar or its day differs from bar i-1's |
| MexcPoll.DailySessionIsOneDay | mexc_poll.py:10-19 | in DAILY mode the session of bar i lies on bar i's UTC day and starts where the day changes |
| MexcPoll.DailySessionIsWholeDay | mexc_poll.py:10-19 | with ordered timestamps, every bar before the daily session of bar i lies on an earlier day |
| MexcPoll.AssembleNotes | mexc_poll.py:45-61 | the successive appends yield the notes of ranks 0..7 in order: EMA, VWAP, RSI oversold, RSI overbought, high sweep, upper band, lower band, low sweep |
| MexcPoll.AppendWhen | mexc_poll.py:50-52 | a guarded append adds the note exactly when its condition holds |
| MexcPoll.AppendBandNotes | mexc_poll.py:54-59 | the band block appends the upper-band notes and then the lower-band notes |
| MexcPoll.RankNotesWarranted | mexc_poll.py:45-61 | each rank contributes at most one note, and exactly the warranted notes of that rank |
| MexcPoll.NotesThroughComplete | mexc_poll.py:45-61 | the assembled list is in strictly increasing rank and holds a note iff that note is warranted |
| MexcPoll.NotesShape | mexc_poll.py:46-49 | every note list starts with exactly one EMA20 note and one VWAP note; ties read "close < EMA20" and "below VWAP" |
| MexcPoll.BandNotes | mexc_poll.py:55-59 | at most one note per band side (2σ before 1σ), and none unless band alerts are enabled and sigma is defined |
| MexcPoll.NotesUnique | mexc_poll.py:45-61 | the note list of an indication is unique |
| MexcPoll.RemoveChar | mexc_poll.py:64 | `replace(c, '')` leaves no `c`, never lengthens, and is the identity on strings without `c` |
| MexcPoll.RemoveCharKeeps | mexc_poll.py:64 | removing `c` keeps every other character as often as it occurred |
| MexcPoll.DedupKey | mexc_poll.py:64 | the key is `mexc-` followed by the symbol with its slashes removed, and holds no slash after the prefix |
| MexcPoll.DedupKeyKeeps | mexc_poll.py:64 | after the prefix the key holds exactly the symbol's non-slash characters |
| MexcPoll.PairKey | mexc_poll.py:64 | a pair `BASE/QUOTE` has the key `mexc-BASEQUOTE` |
| MexcPoll.LastIndication | mexc_poll.py:35-43 | the last bar's indication: its close, an RSI in [0, 100), sweep flags consistent with the last bar, and bands exactly when sigma is defined |
| MexcPoll.SessionVwapOfLast | mexc_poll.py:38-39 | the VWAP read at the last bar is the session VWAP under the mode's reset flags |
| MexcPoll.IndicateLast | mexc_poll.py:35-54 | the indicator calls of one poll produce the last bar's indication |
| MexcPoll.Join | mexc_poll.py:63 | `sep.join(parts)` is empty for no parts and the part itself for one; otherwise it starts with the first part followed by `sep` and ends with the last part |
| MexcPoll.JoinAppend | mexc_poll.py:63 | joining `a + b` is joining `a`, then `sep`, then joining `b`; with the empty and one-part cases this fixes the join of every list: all parts, in order, one `sep` between neighbours |
| MexcPoll.NotesText | mexc_poll.py:63 | no notes give the empty text, one note gives its own text, and the joined texts begin with the first note's text |
| MexcPoll.NotesTextAppend | mexc_poll.py:63 | the text of notes `a + b` is the text of `a`, `", "`, then the text of `b`, so every note's text appears in list order |
| MexcPoll.Body | mexc_poll.py:63 | the body is exactly the symbol, ` close=`, the close formatted to two decimals, the separator (space, vertical bar, space) and the joined note texts, each read back at its position |
| MexcPoll.PollOnce | mexc_poll.py:31-64 | under 50 bars nothing is evaluated; settings that make an indicator raise fail the poll; otherwise the alert is titled "MEXC Scan", carries the dedup key and the last bar's indication, and its notes are the complete list for it |
| MexcPoll.PollAndSend | mexc_poll.py:31-64 | a poll that is not evaluated leaves the router untouched; an evaluated poll makes exactly one `send` call, with the outcome stated for the dry, admitted and suppressed cases |
| Router.SuppressedThroughWindow | alert_router.py:13 | the comparison is strict: a key last sent at t is still suppressed at t + cooldown |
| Router.Cooldown.constructor | alert_router.py:6-9 | a new gate has an empty map and the given window |
| Router.Cooldown.Allow | alert_router.py:11-16 | admits iff the key is new or was last sent more than `cooldown` seconds ago; on admit it records `now` for the key, otherwise the map is unchanged; no other key's entry changes |
| Router.MessageText | alert_router.py:29 | the text is the sparkle and `<b>`, the title, `</b>` and a newline, then the body |
| Router.AlertRouter.constructor | alert_router.py:19-22 | there is no bot iff the token is empty; the chat id is kept; a fresh gate has the given window and an empty map |
| Router.AlertRouter.Send | alert_router.py:24-32 | dry mode prints and leaves the sink and the cooldown map unchanged; otherwise the sink gets the HTML message exactly when `allow` admits the key, and a suppressed key is only logged |
| Router.CooldownScenario | alert_router.py:11-16 | with a 900 s window, calls at 0, 500, 900 and 901 give true, false, false, true |
| Router.SameInstantScenario | alert_router.py:11-16 | two calls at the same instant give true, then false |
| Router.IndependentKeysScenario | alert_router.py:13-15 | a second key is admitted while the first cools down |
| Router.DispatchScenario | alert_router.py:24-32 | sends at 0, 500 and 901 s with one key reach the sink at 0 and 901 and log one skip |
| Router.DryScenario | alert_router.py:25-27 | without a bot token every send is printed and the cooldown map stays empty |

## Left out

- `exchange_ws.py`, `ws_client.py`, `main.py`, `news.py`, `whale_watch.py`
  and `config.py` are not part of this model. They hold websocket
  reconnect loops, FastAPI routes, an HTTP news fetch, a stub and
  environment parsing. Settings are the plain `MexcPoll.Settings` value,
  with the defaults of `config.py` in `DefaultSettings`.
- The first `vwap` (indicators.py:21-25) is shadowed by the second
  definition and is never called.
- `volatility_band` and the rolling standard deviation inside
  `vwap_deviation_bands` both need a square root. Sigma at the last bar is
  a parameter of the poll. It is `None` when fewer than `vwap_band_window`
  bars exist, and always when the window is 0 or 1.
- Floating point and NaN propagation. Arithmetic is exact over `real`. The
  NaNs the code produces (RSI bar 0, the ATR warm-up, a short sigma window)
  are `None`, and a NaN comparison reads as false.
- Indicators.Vwap: models the indicators on non-negative volumes only
  (`NonNegVolumes`). With negative volumes `cum_v` could be zero and the
  division would give an infinity or a NaN.
- Indicators.Atr: `period` is a `nat`. A negative window raises in pandas
  and is not modelled.
- Bars are sequences in time order. Label-based `loc` lookups on duplicate
  timestamps and time-zone handling other than UTC are not modelled.
- MexcPoll.Upper: only ASCII letters are upper-cased. Python's full
  Unicode case mapping is not modelled.
- MexcPoll.PollOnce: `Failed` covers the indicator calls that raise on bad
  settings (`rsi_period < 1`, a negative sweep lookback or band window).
  Other exceptions inside the `try` are not modelled.
- The fetch (`ccxt.fetch_ohlcv`), `asyncio.sleep`, `gather`, the
  `while True` loop and the printing of exceptions are left out: the
  fetched bars are a parameter and one call of `PollOnce` is one pass.
- The number formatting of the body (`:.2f`, `:.1f`, `str()` of a float)
  is left out. It is the parameter `NumberFormat`.
- `Bot.send_message` is recorded, not performed, and its failures are not
  modelled. The real call is asynchronous and may raise.
- Concurrency between symbols sharing the router is left out. The model
  runs one `Send` at a time.
