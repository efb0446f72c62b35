/** The analyst-target radar of pages/web.py: each scanned ticker's price and
    analysts' mean target give an upside; the rows with both figures positive
    are sorted by upside, the best five shown and the first singled out. */
module Radar {
  import opened Wrappers
  import opened Strings
  import opened Sequences

  /** The keys of the provider's snapshot the radar reads (None: absent). */
  datatype Quote = Quote(currentPrice: Option<real>, previousClose: Option<real>, targetMeanPrice: Option<real>,
                         shortName: Option<string>, recommendationKey: Option<string>)

  /** Fetching the snapshot raised, or returned one. */
  datatype Lookup = Raises | Fetched(quote: Quote)

  /** A row of `lista_oportunidades`. */
  datatype Opportunity = Opportunity(ticker: string, company: string, price: real, target: real,
                                     upside: real, recommendation: string)

  /** `info.get('currentPrice', info.get('previousClose', 0))`. */
  function PriceOf(q: Quote): (p: real)
    ensures q.currentPrice.Some? ==> p == q.currentPrice.value
    ensures q.currentPrice.None? && q.previousClose.Some? ==> p == q.previousClose.value
    ensures q.currentPrice.None? && q.previousClose.None? ==> p == 0.0
  {
    match q.currentPrice
    case Some(p) => p
    case None => q.previousClose.GetOr(0.0)
  }

  /** `info.get('targetMeanPrice', 0)`. */
  function TargetOf(q: Quote): real {
    q.targetMeanPrice.GetOr(0.0)
  }

  /** The percentage by which the target exceeds the price. */
  function Upside(price: real, target: real): (u: real)
    requires price > 0.0
    ensures u > 0.0 <==> target > price
    ensures u == 0.0 <==> target == price
    ensures price * (1.0 + u / 100.0) == target
  {
    (target - price) / price * 100.0
  }

  /** The row a fetched snapshot yields, when both figures are positive. */
  function RowOf(ticker: string, q: Quote): (row: Option<Opportunity>)
    ensures row.Some? <==> PriceOf(q) > 0.0 && TargetOf(q) > 0.0
    ensures row.Some? ==> row.value.ticker == ticker && row.value.price == PriceOf(q) && row.value.target == TargetOf(q)
                          && row.value.price > 0.0 && row.value.target > 0.0
  {
    var price := PriceOf(q);
    var target := TargetOf(q);
    if price > 0.0 && target > 0.0 then
      Some(Opportunity(ticker, q.shortName.GetOr(ticker), price, target, Upside(price, target),
                       Upper(q.recommendationKey.GetOr("none"))))
    else None
  }

  /** `lista_oportunidades` after the loop, in scan order: at most one row
      per ticker, each with both figures positive. */
  function Opportunities(tickers: seq<string>, lookup: string -> Lookup): (found: seq<Opportunity>)
    ensures |found| <= |tickers|
    ensures forall i :: 0 <= i < |found| ==> found[i].price > 0.0 && found[i].target > 0.0
  {
    if tickers == [] then []
    else
      var t := tickers[|tickers| - 1];
      Opportunities(tickers[..|tickers| - 1], lookup)
      + match lookup(t)
        case Raises => []
        case Fetched(q) => if RowOf(t, q).Some? then [RowOf(t, q).value] else []
  }

  /** `errores` after the loop: one per ticker whose lookup raised. */
  function Errors(tickers: seq<string>, lookup: string -> Lookup): (errores: nat)
    ensures errores <= |tickers|
    ensures errores == 0 <==> forall i :: 0 <= i < |tickers| ==> lookup(tickers[i]).Fetched?
  {
    if tickers == [] then 0
    else Errors(tickers[..|tickers| - 1], lookup) + (if lookup(tickers[|tickers| - 1]).Raises? then 1 else 0)
  }

  /** The symbol of a row. */
  function TickerOf(o: Opportunity): string {
    o.ticker
  }

  /** The tickers that yield a row: fetched, with both figures positive. */
  function Listed(lookup: string -> Lookup): string -> bool {
    t => lookup(t).Fetched? && RowOf(t, lookup(t).quote).Some?
  }

  /** `lista_oportunidades` holds one row per qualifying ticker, in scan
      order: its symbols are exactly the scanned tickers filtered by the row
      condition. */
  lemma {:induction false} OpportunityTickers(tickers: seq<string>, lookup: string -> Lookup)
    ensures Map(TickerOf, Opportunities(tickers, lookup)) == Filter(Listed(lookup), tickers)
  {
    if tickers != [] {
      var init := tickers[..|tickers| - 1];
      var t := tickers[|tickers| - 1];
      OpportunityTickers(init, lookup);
      assert tickers == init + [t];
      FilterAppend(Listed(lookup), init, [t]);
      FilterSingleton(Listed(lookup), t);
      var before := Opportunities(init, lookup);
      var added := Opportunities(tickers, lookup)[|before|..];
      assert Opportunities(tickers, lookup) == before + added;
      MapAppend(TickerOf, before, added);
      assert Map(TickerOf, added) == Filter(Listed(lookup), [t]);
    }
  }

  /** The scan loop. */
  method Scan(tickers: seq<string>, lookup: string -> Lookup) returns (found: seq<Opportunity>, errores: nat)
    ensures found == Opportunities(tickers, lookup)
    ensures errores == Errors(tickers, lookup)
  {
    found := [];
    errores := 0;
    for i := 0 to |tickers|
      invariant found == Opportunities(tickers[..i], lookup)
      invariant errores == Errors(tickers[..i], lookup)
    {
      assert tickers[..i + 1][..i] == tickers[..i];
      assert tickers[..i + 1][i] == tickers[i];
      var ticker := tickers[i];
      match lookup(ticker) {
        case Raises =>
          errores := errores + 1;
        case Fetched(info) =>
          var row := Inspect(ticker, info);
          if row.Some? {
            found := found + [row.value];
          }
      }
    }
    assert tickers[..|tickers|] == tickers;
  }

  /** One iteration of the scan on a fetched snapshot: read the figures and
      keep the row only when both are positive. */
  method Inspect(ticker: string, info: Quote) returns (row: Option<Opportunity>)
    ensures row == RowOf(ticker, info)
  {
    var precioActual := PriceOf(info);
    var precioObjetivo := TargetOf(info);
    var nombre := info.shortName.GetOr(ticker);
    var recomendacion := Upper(info.recommendationKey.GetOr("none"));
    row := None;
    if precioActual > 0.0 && precioObjetivo > 0.0 {
      var potencial := (precioObjetivo - precioActual) / precioActual * 100.0;
      row := Some(Opportunity(ticker, nombre, precioActual, precioObjetivo, potencial, recomendacion));
    }
  }

  /** Each scanned ticker either raises (one error), or yields at most one
      row: rows and errors together never outnumber the tickers. */
  lemma {:induction false} ScanCounts(tickers: seq<string>, lookup: string -> Lookup)
    ensures |Opportunities(tickers, lookup)| + Errors(tickers, lookup) <= |tickers|
  {
    if tickers != [] {
      ScanCounts(tickers[..|tickers| - 1], lookup);
    }
  }

  /** A row is kept exactly for a scanned ticker whose snapshot was fetched
      with a positive price and a positive target; its upside is positive
      exactly when the target is above the price. */
  lemma {:induction false} ScanRows(tickers: seq<string>, lookup: string -> Lookup)
    ensures forall o :: o in Opportunities(tickers, lookup) ==>
              && o.ticker in tickers && lookup(o.ticker).Fetched?
              && RowOf(o.ticker, lookup(o.ticker).quote) == Some(o)
              && (o.upside > 0.0 <==> o.target > o.price)
    ensures forall t :: t in tickers && lookup(t).Fetched? && RowOf(t, lookup(t).quote).Some? ==>
              RowOf(t, lookup(t).quote).value in Opportunities(tickers, lookup)
  {
    if tickers != [] {
      var init := tickers[..|tickers| - 1];
      ScanRows(init, lookup);
      assert tickers == init + [tickers[|tickers| - 1]];
    }
  }

  // ---------------------------------------------------------------------------
  // Results

  function UpsideKey(o: Opportunity): real {
    o.upside
  }

  /** `df_resultados`: the rows by upside, highest first, ties in scan order. */
  function Ranked(found: seq<Opportunity>): (ranked: seq<Opportunity>)
    ensures multiset(ranked) == multiset(found)
    ensures SortedDesc(ranked, UpsideKey)
  {
    SortDesc(found, UpsideKey)
  }

  /** The "Top 5" panel: the first `min(5, n)` ranked rows. */
  function TopPanel(found: seq<Opportunity>): (top: seq<Opportunity>)
    ensures |top| == if |found| < 5 then |found| else 5
  {
    Take(Ranked(found), 5)
  }

  /** `ganador`: the first ranked row, shown when there is any. */
  function Winner(found: seq<Opportunity>): (w: Opportunity)
    requires found != []
    ensures w in found
  {
    assert Ranked(found)[0] in multiset(Ranked(found));
    Ranked(found)[0]
  }

  /** The winner is a scanned row with the highest upside. */
  lemma WinnerIsBest(found: seq<Opportunity>)
    requires found != []
    ensures forall o :: o in found ==> Winner(found).upside >= o.upside
  {
    var ranked := Ranked(found);
    assert ranked[0] in multiset(ranked);
    forall o | o in found
      ensures ranked[0].upside >= o.upside
    {
      assert o in multiset(ranked);
      var j :| 0 <= j < |ranked| && ranked[j] == o;
      if j > 0 {
        assert UpsideKey(ranked[0]) >= UpsideKey(ranked[j]);
      }
    }
  }

  /** The panel holds the best rows: no ranked row below the panel has a
      higher upside than one in it. */
  lemma TopPanelBest(found: seq<Opportunity>)
    ensures forall i, j :: 0 <= i < |TopPanel(found)| <= j < |Ranked(found)| ==>
              TopPanel(found)[i].upside >= Ranked(found)[j].upside
  {
    var ranked := Ranked(found);
    forall i, j | 0 <= i < |TopPanel(found)| <= j < |ranked|
      ensures TopPanel(found)[i].upside >= ranked[j].upside
    {
      assert TopPanel(found)[i] == ranked[i];
      assert UpsideKey(ranked[i]) >= UpsideKey(ranked[j]);
    }
  }

  /** Rows with the same upside keep their scan order. */
  lemma RankedStable(found: seq<Opportunity>, k: real)
    ensures Filter(KeyIs(UpsideKey, k), Ranked(found)) == Filter(KeyIs(UpsideKey, k), found)
  {
    SortStable(found, UpsideKey, k);
  }
}
