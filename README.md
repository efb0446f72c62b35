# Stock dashboard scoring core, in Dafny

This project models the scoring and ranking core of a small Streamlit stock
dashboard. The core covers Madrid (IBEX 35, `.MC`) and Wall Street listings:

- **Fundamental scorer** (`analisis_fundamental.py`, module `Fundamental`).
  It turns five ratios of a company snapshot (P/E, debt/equity, profit
  margin, dividend yield, revenue growth) into a 0..10 quality score and a
  five-entry breakdown of verdicts.
- **Technical traffic light** (`calculos.py`, module `Technical`).
  A cleaned close series is ERROR, ROJO, NARANJA or VERDE, judged against
  its 50-sample moving average and its recent volatility. The module also
  has the cumulative return.
- **Market data** (`datos.py`, module `MarketData`).
  This is the ticker/name table `NOMBRES` and its key list. It also covers:
  - the name search `encontrar_ticker`;
  - the Madrid/foreign split of a download, each segment's post-processing,
    and the merge of the two segments;
  - the EUR/USD fallback.
- **Market scanner** (`pages/Analizador.py`, module `Analyzer`).
  - A technical pass runs over every listed ticker.
  - A fundamental pass runs over the survivors.
  - The candidates fall into three tiers: `verdes`, `naranjas`, `rojas`.
    The first two are sorted by score.
  - The single-company report adds a badge colour and a verdict.
- **Portfolio builder** (`pages/Inversor.py`, module `Investor`).
  - A risk profile fixes three weights.
  - VERDE tickers fall into preservation, growth and speculative sleeves.
  - Each sleeve's share of the capital buys whole shares of its top three
    holdings.
  - What is left is the cash residual.
- **Analyst-target radar** (`pages/web.py`, module `Radar`).
  Each scanned ticker's price and mean analyst target give an upside. Rows
  with both figures positive are ranked, the best five are shown and the
  first is singled out.

Shared modules hold the Python idioms the core relies on:

- `Wrappers`: the `Option` type.
- `Strings`: Python's `in` on strings, plus `strip`, `upper` and `endswith`.
- `Sequences`: list comprehensions as `Filter`, slicing as `Take`, and the
  stable `sorted(..., reverse=True)` as `SortDesc`.

**Inputs.** Anything the core fetches from the market-data provider is an
input to the model: price tables, company snapshots, quotes, and whether a
call raised. The standard deviation of returns is an input function too.

**Loops.** Every loop of the source is a `method` with a `for` loop. The
accumulating loops (phase 1 of the scanner, the pool, the radar scan) are
proved equal to recursive specification functions. Phase 2 is proved equal to
a sequence comprehension (`PhaseTwo`). The name search and the buying loop
of `asignar` are proved against a characterising contract: the first match
for the search, and `LineFor` per selected holding for the buying loop. The
properties are proved about those functions and contracts.

**Rows.** Dictionary rows become datatypes. Numbers are Dafny `real`s.
pandas' NaN volatility is `Option<real>`'s `None`, and every comparison
with it is false.

## Model

| member | source | states |
|---|---|---|
| Fundamental.AnalyzeQuality | analisis_fundamental.py:11-82 | The score and breakdown are those of the specification (`Score`, `Assess`). The score lies in 0..10 and the breakdown has exactly the five indicator keys. Each block is a step method. |
| Fundamental.RateAll | analisis_fundamental.py:29-77 | The five blocks, run in order from the defaults and a score of 0, give exactly the specified breakdown. The running score is the sum of the five verdicts' weights. |
| Fundamental.RateValuation | analisis_fundamental.py:31-41 | A falsy P/E leaves score and entry unchanged. Otherwise the entry becomes the P/E verdict and the running score moves by that verdict's weight. |
| Fundamental.RateDebt | analisis_fundamental.py:43-51 | Same for debt/equity: a truthy ratio below 150 adds 2, one of 150 or more takes 2. |
| Fundamental.RateProfitability | analisis_fundamental.py:53-63 | The margin entry is always rewritten (a missing margin reads as 0), and the score moves by the verdict's weight. |
| Fundamental.RateDividend | analisis_fundamental.py:65-69 | Only a truthy yield above 2% rewrites the entry and adds 1. |
| Fundamental.RateGrowth | analisis_fundamental.py:71-77 | Growth above 5% adds 1 ("Sube"). Negative growth is marked "Baja" with no penalty. |
| Fundamental.Assess | analisis_fundamental.py:18-77 | The breakdown always has exactly the five indicator keys. |
| Fundamental.Clamp | analisis_fundamental.py:80 | `min(10, max(0, x))` lies in 0..10 and is the identity on 0..10. |
| Fundamental.Score | analisis_fundamental.py:26-80 | The published score lies in 0..10. |
| Fundamental.TotalBounds | analisis_fundamental.py:29-77 | The raw score of any snapshot lies in [-6, 8]. |
| Fundamental.OnlyLowerClampBinds | analisis_fundamental.py:80 | Because raw + 2 never exceeds 10, only the lower bound of the clamp can bind. |
| Fundamental.BlankScoresZero | analisis_fundamental.py:18-27 | A failed fetch or an empty dictionary scores 0 with the default breakdown. |
| Fundamental.MissingMarginIsLoss | analisis_fundamental.py:53-63 | A missing profit margin is read as 0, so it is marked "Pérdidas" and costs 3. |
| Fundamental.NoRatiosScoresZero | analisis_fundamental.py:26-80 | A non-empty snapshot without the five keys has raw score -3 and score 0, not 2. |
| Fundamental.ValuationRule | analisis_fundamental.py:31-41 | Each P/E verdict holds exactly when its condition does: falsy gives N/A, below 25 gives +2, above 50 gives -1, and 25..50 gives Normal with 0. |
| Fundamental.DebtRule | analisis_fundamental.py:43-51 | Each debt verdict and its weight hold exactly when the debt/equity conditions do. |
| Fundamental.ProfitRule | analisis_fundamental.py:53-63 | +2 exactly above 10%, +1 exactly in (0, 10%], and "Pérdidas" exactly at or below 0. |
| Fundamental.DividendAndGrowthRules | analisis_fundamental.py:65-77 | The dividend weight is 1 exactly above 2%. The growth weight is 1 exactly above 5%. "Baja" is given exactly for negative growth. |
| Fundamental.BreakdownShape | analisis_fundamental.py:18-77 | Scoring only rewrites the default entries, and each of the five entries holds a verdict its indicator can take. The margin entry is always rewritten for a non-empty snapshot. |
| Fundamental.StrongSnapshot | analisis_fundamental.py:29-82 | A snapshot passing every rule scores the maximum 10. |
| Technical.DropMissing | calculos.py:19 | `dropna()` keeps exactly the values of the present samples. Its result is empty exactly when every sample is missing, and a present last sample stays last. |
| Technical.DropMissingAppend | calculos.py:19 | Cleaning a concatenation cleans each part and keeps them in order, so order and repetitions survive. |
| Technical.DropOne | calculos.py:19 | A present sample is kept as its value, and a missing one is dropped. |
| Technical.DropMissingLastPresent | calculos.py:19-25 | After trailing gaps, the cleaned series still ends with the last present sample: the price the signal reports. |
| Technical.Reference | calculos.py:26-34 | On a series shorter than 50, the reference price is the last price. |
| Technical.MeanWithinWindow | calculos.py:26-34 | On 50 samples or more, the moving average lies within its window: one of the last 50 samples is at or above it, and one is at or below it. |
| Technical.Judge | calculos.py:25-48 | The signal reports the last price and the given volatility, and its state is never ERROR. |
| Technical.Classify | calculos.py:14-48 | A missing column gives ERROR "No hay datos", and an all-missing column gives ERROR "Serie vacía", both with price 0 and volatility 0. Otherwise the result is the verdict on the cleaned series. |
| Technical.JudgeCases | calculos.py:38-46 | ROJO holds exactly when price < mean. NARANJA holds exactly when price > mean and the volatility exceeds 0.015. VERDE covers all other cases. Each state comes with its message. |
| Technical.ShortHistoryIsGreen | calculos.py:26-46 | Fewer than 50 samples always gives VERDE, whatever the volatility. |
| Technical.GreenBoundary | calculos.py:41-46 | A price at the mean, or a volatility at most 0.015 or NaN, gives VERDE unless the price is below the mean. |
| Technical.TrendWitness | calculos.py:26-40 | ROJO means some sample of the last 50 is above the price. Otherwise some sample of the last 50 is at or below it. |
| Technical.SumAtMost | calculos.py:26 | A window with no sample above p sums to at most n·p. |
| Technical.SumAbove | calculos.py:26 | A non-empty window with every sample above p sums to more than n·p. |
| Technical.SumBelow | calculos.py:26 | A non-empty window with every sample below p sums to less than n·p. |
| Technical.DropBelowAverage | calculos.py:25-40 | Fifty-nine closes at 100 followed by one at 90 give ROJO. |
| Technical.CumulativeReturn | calculos.py:10-12 | An empty series gives 0. Otherwise first × (1 + r) = last; a first price of 0 gives no finite value. |
| Technical.ReturnSign | calculos.py:10-12 | With a positive first price, the return is positive (zero) exactly when the series ends above (at) its start. |
| MarketData.Tickers | datos.py:29 | The key list has the table's symbols in insertion order. |
| MarketData.Selected | datos.py:29 | `EMPRESAS_SELECCIONADAS` lists every `NOMBRES` key in order. |
| MarketData.NameIn | pages/Analizador.py:293 | `dict.get(t, t)` gives the name paired with a listed symbol, and the symbol itself otherwise. |
| MarketData.DisplayName | pages/Analizador.py:293 | Same as `NameIn`, for `NOMBRES`. |
| MarketData.NoEmptyTicker | datos.py:5-27 | No listed symbol is empty. |
| MarketData.Search | datos.py:31-37 | A text that is a symbol is returned as is. Otherwise the result is the symbol of the first entry whose upper-cased name contains the text, or the text when no name does. |
| MarketData.FindTicker | datos.py:31-37 | `encontrar_ticker`: the same search on the stripped, upper-cased query. An all-whitespace query yields the first entry, "BBVA.MC". |
| MarketData.BlankQueryIsEmpty | datos.py:33-34 | A blank query normalises to the empty text, which is not a symbol. |
| MarketData.SplitIsPartition | datos.py:45-46 | `lista_es` and `lista_us` are disjoint, and together they are a permutation of the input. Splitting a concatenation splits each part. |
| MarketData.MadridSuffix | datos.py:6-17 | Every Madrid symbol ends in ".MC". |
| MarketData.WallStreetNoDot | datos.py:19-26 | No Wall Street symbol contains a dot. |
| MarketData.ListedMarketsAgree | datos.py:45-46 | For every listed symbol, the download split (`".MC" in t`) agrees with the pages' currency test (`t.endswith(".MC")`). |
| MarketData.OnlyColumn | datos.py:68-70 | A one-column table yields that column. |
| MarketData.Process | datos.py:50-75 | An empty request or an exception gives an empty table. A single series is labelled with the one requested symbol. A one-column table for a one-symbol request is relabelled with it. |
| MarketData.Download | datos.py:77-85 | The result is the union of the Madrid and foreign results, each merged in only when it is not empty. |
| MarketData.FailedSegmentIsolated | datos.py:73-85 | A segment whose download raises or comes back empty contributes nothing. The other segment still comes through whole, in either order. |
| MarketData.MadridOnlyWhenForeignFails | datos.py:45-85 | For ["SAN.MC", "AAPL"] with a failed foreign download, the table is exactly the Madrid column. |
| MarketData.ExchangeFactor | datos.py:93-99 | The factor is the inverse of the EUR/USD quote, or 1.0 when the quote is unavailable. |
| Analyzer.PrelimRow | pages/Analizador.py:290-295 | The row has the symbol, its display name, and its signal's state and message. A foreign price is converted at the factor and a `.MC` price is kept. |
| Analyzer.PhaseOne | pages/Analizador.py:286-296 | Phase 1 holds at most one row per ticker, and no row for a ticker whose classification raised. |
| Analyzer.Preliminary | pages/Analizador.py:290-295 | One iteration of the phase 1 loop builds exactly `PrelimRow` for its ticker. |
| Analyzer.PhaseOneKeeps | pages/Analizador.py:286-296 | Phase 1 keeps exactly the tickers whose classification does not raise (ERROR included), in order, each with its `PrelimRow`. |
| Analyzer.ScanTechnical | pages/Analizador.py:283-296 | The loop builds exactly the phase 1 list. |
| Analyzer.AuditFacts | pages/Analizador.py:306-319 | A row is scored (five-key breakdown) exactly when it is not ERROR and the scorer returned. Otherwise it carries `{"Error": "N/A"}` and 0. " (Fallo datos)" is added exactly when the scorer raised. |
| Analyzer.Audit | pages/Analizador.py:306-319 | Each row keeps its phase 1 symbol, name, price, state and message, and gets a score in 0..10. |
| Analyzer.AuditRow | pages/Analizador.py:306-319 | One loop iteration calls the scorer only for a non-ERROR row and yields the audited row. |
| Analyzer.PhaseTwo | pages/Analizador.py:303-319 | Every phase 1 row is audited, in order. |
| Analyzer.AuditAll | pages/Analizador.py:303-321 | The loop builds exactly the phase 2 list. |
| Analyzer.WatchIsComplement | pages/Analizador.py:323-324 | The "not in `verdes`" test of `naranjas` is the negation of the `verdes` condition. |
| Analyzer.Tiers | pages/Analizador.py:323-328 | The ranking keeps the candidate list. Every `verdes` row is a VERDE candidate scoring 5 or more, every `naranjas` row is a candidate neither ROJO nor ERROR, and every `rojas` row is a ROJO candidate. |
| Analyzer.TierPartition | pages/Analizador.py:323-325 | The tiers are pairwise disjoint. Each non-ERROR row is in exactly one tier, and ERROR rows are in none. |
| Analyzer.TierCount | pages/Analizador.py:323-325 | The tier sizes add up to the number of non-ERROR rows. |
| Analyzer.TiersOrdered | pages/Analizador.py:327-328 | `verdes` and `naranjas` are sorted by score, highest first. Each is a permutation of its unsorted list, and equal scores keep scan order. |
| Analyzer.Rank | pages/Analizador.py:283-328 | An empty phase 1 shows no tables. Otherwise the result is the tiers of the audited phase 1 list. |
| Analyzer.RankMarket | pages/Analizador.py:278-328 | The same over `EMPRESAS_SELECCIONADAS`, with the factor from the EUR/USD quote. |
| Analyzer.MissingTickerUnranked | pages/Analizador.py:287-325 | A listed ticker with no column reaches the candidates as an unscored ERROR row that no tier shows. |
| Analyzer.BadgeCases | pages/Analizador.py:141-145 | The badge is green exactly for VERDE with a score of 8 or more. It is orange exactly for VERDE with 5..7, or NARANJA. It is red otherwise. |
| Analyzer.ConclusionCases | pages/Analizador.py:196-210 | "COMPRA" exactly for VERDE with 8 or more. "MANTENER" exactly for VERDE with 5..7, or NARANJA. "TENDENCIA BAJISTA" exactly for ROJO. "EVITAR" exactly for ERROR or VERDE below 5. |
| Analyzer.BadgeMatchesTier | pages/Analizador.py:141-145 | A VERDE row is in the scanner's green tier exactly when its report badge is not red. |
| Investor.WeightsSplitCapital | pages/Inversor.py:120-123 | The preservation share is always positive. The speculative share is 0 exactly for a profile naming "Conservador" or "Moderado". |
| Investor.Weights | pages/Inversor.py:120-123 | The three shares are non-negative and sum to 1, so together they split the whole capital. |
| Investor.ConservativeOption | pages/Inversor.py:121 | The cautious option gives (0.8, 0.2, 0). |
| Investor.ModerateOption | pages/Inversor.py:122 | The balanced option gives (0.6, 0.4, 0). |
| Investor.DynamicOption | pages/Inversor.py:123 | The dynamic option gives (0.2, 0.4, 0.4). |
| Investor.PoolMembers | pages/Inversor.py:126-133 | A ticker is in `todos` exactly when it is listed, does not raise, is VERDE and is scored. Its entry carries the converted price, the score and the volatility. |
| Investor.Pool | pages/Inversor.py:126-133 | `todos` holds at most one holding per ticker. |
| Investor.PoolTickers | pages/Inversor.py:126-133 | The symbols of `todos` are exactly the watchlist filtered by "does not raise, VERDE, scored": one holding per such ticker, in watchlist order. |
| Investor.BuildPool | pages/Inversor.py:126-133 | The loop builds exactly `todos`. |
| Investor.Consider | pages/Inversor.py:127-133 | One iteration scores only a VERDE ticker and adds its entry. |
| Investor.SleevesDisjoint | pages/Inversor.py:136-138 | No holding is in two sleeves. A NaN volatility is in none, and a score below 7 can only be speculative. |
| Investor.Trunc | pages/Inversor.py:156 | `int()` truncates toward zero. |
| Investor.TruncBounds | pages/Inversor.py:156 | With 0 < price ≤ amount, at least one share is bought, and the spend is at most the amount but within one price of it. |
| Investor.LineFacts | pages/Inversor.py:156-157 | With a positive price within the amount, a line spends at most the amount and leaves less than one share's price unspent. |
| Investor.LineFor | pages/Inversor.py:156-158 | A line buys at least one share: the whole shares the amount buys when that is more, otherwise one. Its total is quantity × price, and it carries the tag, name, price and score. |
| Investor.Fallback | pages/Inversor.py:146-149 | The fallback list takes holdings only from the pool or the safe sleeve. |
| Investor.VolatilityKey | pages/Inversor.py:147 | The fallback sort key is the holding's volatility, or 0 for a NaN volatility. |
| Investor.Ordered | pages/Inversor.py:151 | Sorting for selection is a permutation. |
| Investor.Selection | pages/Inversor.py:146-151 | At most three holdings are selected, all from the list, the pool or the safe sleeve. |
| Investor.Assign | pages/Inversor.py:142-158 | `asignar` appends exactly the allotment of its sleeve. |
| Investor.AllotmentLines | pages/Inversor.py:150-158 | A non-zero share buys one line per selected holding, each exactly `LineFor` that holding at `capital · pct / len(seleccion)`: quantity max(1, int(amount / price)) and total quantity × price, with tag, name and score. |
| Investor.Allotment | pages/Inversor.py:142-158 | One call to `asignar` appends at most three lines, each buying at least one share. |
| Investor.Buy | pages/Inversor.py:154-158 | The buying loop gives one line per selected holding, in order. |
| Investor.ZeroShareAddsNothing | pages/Inversor.py:143 | A zero weight adds no line. |
| Investor.EmptySleeveAddsNothing | pages/Inversor.py:146-149 | Under the three labels the page passes, an empty sleeve adds no line. |
| Investor.TopThreeByScore | pages/Inversor.py:151-158 | A non-empty sleeve buys min(3, n) lines: the first of its list by score, with tag, name and score. |
| Investor.PageTagSelection | pages/Inversor.py:151 | Under the page's labels, the selection is the top three by score. |
| Investor.TopThreeScoreHighest | pages/Inversor.py:151 | No holding outside the first three by score scores above one inside. |
| Investor.Proposal | pages/Inversor.py:160-162 | The portfolio has at most nine lines, three per sleeve, and an empty pool gives an empty portfolio. |
| Investor.Allocate | pages/Inversor.py:141-168 | The portfolio is the three allotments in order. Cash + spent = capital. An empty pool gives no lines and cash equal to the capital. |
| Investor.AllotmentLabelled | pages/Inversor.py:158 | Every line carries its call's tag. |
| Investor.CautiousProfilesNotSpeculative | pages/Inversor.py:121-162 | A "Conservador" or "Moderado" profile never proposes a speculative line. |
| Investor.CanOverspend | pages/Inversor.py:154-168 | One safe holding priced at 500 with a capital of 100 is still bought once, and the cash is -400. |
| Radar.PriceOf | pages/web.py:171 | The price is `currentPrice`, else `previousClose`, else 0. |
| Radar.Upside | pages/web.py:178 | Price × (1 + u/100) = target. The upside is positive (zero) exactly when the target is above (at) the price. |
| Radar.RowOf | pages/web.py:171-187 | A row exists exactly when both price and target are positive, and it carries them. |
| Radar.Opportunities | pages/web.py:161-187 | The scan keeps at most one row per ticker, each with a positive price and a positive target. |
| Radar.OpportunityTickers | pages/web.py:161-187 | The symbols of `lista_oportunidades` are exactly the scanned tickers filtered by "fetched, price and target positive": one row per such ticker, in scan order. |
| Radar.Errors | pages/web.py:161-190 | The error count is at most the number of tickers, and it is 0 exactly when no lookup raised. |
| Radar.Scan | pages/web.py:153-190 | The loop yields exactly the opportunities and the error count. |
| Radar.Inspect | pages/web.py:168-187 | One iteration on a fetched snapshot yields exactly `RowOf`: a row only when price and target are both positive. |
| Radar.ScanCounts | pages/web.py:161-190 | Rows plus errors never outnumber the tickers. |
| Radar.ScanRows | pages/web.py:161-190 | Each row comes from a fetched ticker with both figures positive, and each such ticker gives a row. The upside is positive exactly when target > price. |
| Radar.Ranked | pages/web.py:201 | The ranking is a permutation sorted by upside, highest first. |
| Radar.TopPanel | pages/web.py:207 | The panel shows min(5, n) rows. |
| Radar.Winner | pages/web.py:223 | `ganador` is one of the scanned rows. |
| Radar.WinnerIsBest | pages/web.py:201-223 | No scanned row has a higher upside than the winner. |
| Radar.TopPanelBest | pages/web.py:201-207 | No ranked row below the panel beats one in it. |
| Radar.RankedStable | pages/web.py:201 | Rows with equal upside keep scan order. |
| Sequences.Filter | datos.py:45-46 | A list comprehension keeps exactly the members satisfying its condition. |
| Sequences.FilterSplit | datos.py:45-46 | A condition and its negation split a list into a permutation of it. |
| Sequences.Take | pages/web.py:207 | A slice `[:n]` has min(n, len) elements, the first ones. |
| Sequences.SortDesc | pages/Analizador.py:327-328 | `sort(reverse=True)` gives a permutation that is sorted, highest first. |
| Sequences.SortStable | pages/Analizador.py:327-328 | Python's sort is stable: equal keys keep their order. |
| Strings.Contains | datos.py:36 | `a in b` holds exactly when `a` occurs at some position of `b`. |
| Strings.ContainsEmpty | datos.py:36 | Every name contains the empty text. |
| Strings.Strip | datos.py:33 | `strip()` removes exactly leading and trailing whitespace. |
| Strings.Upper | datos.py:33 | `upper()` maps each character to its upper case. |
| Strings.EndsWithContains | pages/Analizador.py:291 | A string ending in a suffix contains it. |

## Left out

- The user interface: Streamlit widgets, progress bars, charts (`graficos.py`), the landing pages, and the chat/LLM analysis of the radar's winner.
- The provider calls: downloads, company snapshots, the EUR/USD history. Their replies are inputs, including whether a call raised.
- Technical.Classify: the standard deviation of the last 30 returns is an input function. pandas' `pct_change`/`std` and floating-point arithmetic are not modelled, and reals are exact.
- Technical.CumulativeReturn: a zero first price gives an infinity or NaN in pandas. The model returns None.
- Analyzer.ScanTechnical: which tickers make `analizar_semaforo` or the row building raise is an input set. The `except: pass` is modelled, its causes are not.
- Analyzer.AuditRow: the formatting of "Nota" and "Precio" as text (lines 315-317) is not modelled. The price stays a number.
- Analyzer.Rank: the page's `try/except ... st.stop()` around the download and the rendering of the three tables are not modelled.
- Fundamental.Assess: a ratio is `Option<real>`, which cannot hold a NaN, so a NaN ratio is not modelled. NaN is truthy and fails every comparison. A NaN P/E gives "Normal" with 0 (lines 33-41), where the model can only show "N/A", also with 0. A NaN debt/equity gives "Alta" and costs 2 (lines 45-51), which the model cannot produce: it shows "N/A" with 0. A NaN margin, yield or growth takes the same branch as a missing one.
- Fundamental.AnalyzeQuality: a key present with a null value makes lines 55 or 73 raise. That case is folded into the callers' "scorer raised" input. The text of each verdict (its formatted number) is a constructor with the raw ratio.
- MarketData.Download: `tz_localize` on the index and the logging `print` are not modelled. Table rows are not aligned on dates: each column is its own sequence.
- MarketData.Process: a multi-column reply is taken as labelled by the provider.
- Strings.Upper: upper-casing covers ASCII and Latin-1 letters only, so full Unicode case mapping (e.g. "ß" to "SS") is not modelled. Every name in `NOMBRES` is within that range.
- Strings.Strip: whitespace is Python's `isspace` set for the characters listed in `IsSpace`.
- MarketData.ExchangeFactor: requires a non-zero quote. A zero quote gives an infinity in numpy and is not modelled.
- Investor.LineFor: requires a non-zero price. Dividing by a zero price yields an infinity whose `int()` raises, which the page does not handle.
- Investor.Allotment, Investor.Assign, Investor.Proposal, Investor.Allocate: require every holding of the pool and sleeves to have a non-zero price. The source fails only when a zero-priced holding is actually bought, so a pool with an unselected zero-priced holding is outside these contracts.
- Investor.VolatilityKey: the "Riesgo" fallback sort reads a NaN volatility as 0. That branch is dead under the page's labels, and Python's sort order with NaN keys is not modelled.
- Investor.Allocate: the page computes the cash only when the portfolio is non-empty. The model always computes it, and then it equals the capital.
- Radar.Upside: the stored upside is not rounded to two decimals (line 185). Rows whose upsides differ by less than 0.005 may therefore tie in the source but not in the model.
- Radar.Scan: a snapshot whose price or target is null or non-numeric raises in the comparison. A `recommendationKey` that is present but null also raises, at `.upper()` on line 174, before the price filter, so such a ticker counts as an error even with valid prices. Both cases are part of the "fetch raised" input, not separate branches: a present-but-null key is not distinguished from an absent one.
- In-place updates and aliasing of the row dictionaries (`item["Motivo"] += ...`, `item.update(...)`) are modelled as building new row values. The source creates each row fresh, so no alias is observable.
