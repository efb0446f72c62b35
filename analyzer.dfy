/** The market scanner of pages/Analizador.py: a technical pass over the
    watchlist, a fundamental pass over its survivors, three tiers sorted by
    score; and the colour and verdict of the single-company report. */
module Analyzer {
  import opened Wrappers
  import opened Strings
  import opened Sequences
  import opened MarketData
  import opened Technical
  import opened Fundamental

  // ---------------------------------------------------------------------------
  // Phase 1: technical pass

  /** A row of `lista_preliminar`: Ticker, Empresa, Precio, Estado, Motivo. */
  datatype Prelim = Prelim(ticker: string, company: string, price: real, state: State, reason: Reason)

  /** The row for one ticker: its display name from `names`, its signal, and
      a foreign price converted at `factor`. */
  function PrelimRow(names: seq<(string, string)>, table: Table, volatility: seq<real> -> Option<real>, factor: real, ticker: string): (row: Prelim)
    ensures row.ticker == ticker && row.company == NameIn(names, ticker)
    ensures row.state == Classify(table, ticker, volatility).state
    ensures row.reason == Classify(table, ticker, volatility).reason
    ensures EndsWith(ticker, ".MC") ==> row.price == Classify(table, ticker, volatility).price
    ensures !EndsWith(ticker, ".MC") ==> row.price == Classify(table, ticker, volatility).price * factor
  {
    var signal := Classify(table, ticker, volatility);
    var price := if !EndsWith(ticker, ".MC") then signal.price * factor else signal.price;
    Prelim(ticker, NameIn(names, ticker), price, signal.state, signal.reason)
  }

  /** The tickers whose classification does not raise. */
  function Survives(raises: set<string>): string -> bool {
    t => t !in raises
  }

  /** `lista_preliminar` after the loop: one row per ticker whose
      classification does not raise (`raises` names the others), in watchlist order. */
  function PhaseOne(names: seq<(string, string)>, tickers: seq<string>, table: Table, volatility: seq<real> -> Option<real>,
                    raises: set<string>, factor: real): (rows: seq<Prelim>)
    ensures |rows| <= |tickers|
    ensures forall i :: 0 <= i < |rows| ==> rows[i].ticker !in raises
  {
    if tickers == [] then []
    else
      var last := tickers[|tickers| - 1];
      PhaseOne(names, tickers[..|tickers| - 1], table, volatility, raises, factor)
      + (if last in raises then [] else [PrelimRow(names, table, volatility, factor, last)])
  }

  /** The symbol of a row. */
  function TickerOf(r: Prelim): string {
    r.ticker
  }

  /** Phase 1 keeps, in order, exactly the tickers that do not raise (ERROR
      verdicts included), each with the row built from its signal. */
  lemma PhaseOneKeeps(names: seq<(string, string)>, tickers: seq<string>, table: Table, volatility: seq<real> -> Option<real>,
                      raises: set<string>, factor: real)
    ensures Map(TickerOf, PhaseOne(names, tickers, table, volatility, raises, factor)) == Filter(Survives(raises), tickers)
    ensures forall r :: r in PhaseOne(names, tickers, table, volatility, raises, factor) ==>
              r == PrelimRow(names, table, volatility, factor, r.ticker)
  {
    PhaseOneTickers(names, tickers, table, volatility, raises, factor);
    PhaseOneRows(names, tickers, table, volatility, raises, factor);
  }

  lemma {:induction false} PhaseOneTickers(names: seq<(string, string)>, tickers: seq<string>, table: Table,
                                           volatility: seq<real> -> Option<real>, raises: set<string>, factor: real)
    ensures Map(TickerOf, PhaseOne(names, tickers, table, volatility, raises, factor)) == Filter(Survives(raises), tickers)
  {
    if tickers != [] {
      var init := tickers[..|tickers| - 1];
      var last := tickers[|tickers| - 1];
      PhaseOneTickers(names, init, table, volatility, raises, factor);
      assert tickers == init + [last];
      FilterAppend(Survives(raises), init, [last]);
      FilterSingleton(Survives(raises), last);
      var before := PhaseOne(names, init, table, volatility, raises, factor);
      var added := if last in raises then [] else [PrelimRow(names, table, volatility, factor, last)];
      MapAppend(TickerOf, before, added);
      assert Map(TickerOf, added) == Filter(Survives(raises), [last]);
    }
  }

  lemma {:induction false} PhaseOneRows(names: seq<(string, string)>, tickers: seq<string>, table: Table,
                                        volatility: seq<real> -> Option<real>, raises: set<string>, factor: real)
    ensures forall r :: r in PhaseOne(names, tickers, table, volatility, raises, factor) ==>
              r == PrelimRow(names, table, volatility, factor, r.ticker)
  {
    if tickers != [] {
      PhaseOneRows(names, tickers[..|tickers| - 1], table, volatility, raises, factor);
    }
  }

  /** The phase 1 loop. */
  method ScanTechnical(names: seq<(string, string)>, tickers: seq<string>, table: Table, volatility: seq<real> -> Option<real>,
                       raises: set<string>, factor: real) returns (prelim: seq<Prelim>)
    ensures prelim == PhaseOne(names, tickers, table, volatility, raises, factor)
  {
    prelim := [];
    for i := 0 to |tickers|
      invariant prelim == PhaseOne(names, tickers[..i], table, volatility, raises, factor)
    {
      assert tickers[..i + 1][..i] == tickers[..i];
      assert tickers[..i + 1][i] == tickers[i];
      if tickers[i] !in raises {
        var row := Preliminary(names, table, volatility, factor, tickers[i]);
        prelim := prelim + [row];
      }
    }
    assert tickers[..|tickers|] == tickers;
  }

  /** One iteration of the phase 1 loop: classify, convert a foreign price,
      look up the display name. */
  method Preliminary(names: seq<(string, string)>, table: Table, volatility: seq<real> -> Option<real>, factor: real,
                     ticker: string) returns (row: Prelim)
    ensures row == PrelimRow(names, table, volatility, factor, ticker)
  {
    var signal := Classify(table, ticker, volatility);
    var precioFinal := if !EndsWith(ticker, ".MC") then signal.price * factor else signal.price;
    row := Prelim(ticker, NameIn(names, ticker), precioFinal, signal.state, signal.reason);
  }

  // ---------------------------------------------------------------------------
  // Phase 2: fundamental pass

  /** What calling the fundamental scorer did: it raised, or it returned
      the score of the snapshot it fetched (`None`: the fetch failed). */
  datatype FundamentalFetch = Raises | Returns(info: Option<Info>)

  /** A row of `candidatos_finales`: the phase 1 row, its score and the
      breakdown merged into it. `dataFailure` records the " (Fallo datos)"
      suffix appended to Motivo. */
  datatype Candidate = Candidate(ticker: string, company: string, price: real, state: State, reason: Reason,
                                 dataFailure: bool, score: int, breakdown: Breakdown)

  /** `{"Error": "N/A"}`, the breakdown of a row that was not scored. */
  const Unaudited: Breakdown := map[ErrorKey := Unscored]

  /** The phase 2 treatment of one row: it keeps its phase 1 fields and
      gets a score in 0..10. */
  function Audit(p: Prelim, fetch: FundamentalFetch): (c: Candidate)
    ensures c.ticker == p.ticker && c.company == p.company && c.price == p.price
    ensures c.state == p.state && c.reason == p.reason
    ensures 0 <= c.score <= 10
  {
    if p.state == Error then
      Candidate(p.ticker, p.company, p.price, p.state, p.reason, false, 0, Unaudited)
    else match fetch
      case Raises => Candidate(p.ticker, p.company, p.price, p.state, p.reason, true, 0, Unaudited)
      case Returns(info) => Candidate(p.ticker, p.company, p.price, p.state, p.reason, false, Score(info), Assess(info))
  }

  /** A row is scored (five-entry breakdown) exactly when it is not ERROR
      and the scorer did not raise, and otherwise carries `{"Error": "N/A"}`
      and score 0; only a raising scorer marks the data failure. */
  lemma AuditFacts(p: Prelim, fetch: FundamentalFetch)
    ensures var c := Audit(p, fetch);
            && (c.breakdown.Keys == ScoredIndicators <==> p.state != Error && fetch.Returns?)
            && (c.breakdown == Unaudited <==> p.state == Error || fetch.Raises?)
            && (c.breakdown == Unaudited ==> c.score == 0)
            && (c.dataFailure <==> p.state != Error && fetch.Raises?)
  {
    assert ErrorKey !in ScoredIndicators;
  }

  /** One iteration of the phase 2 loop: the scorer is called only for a
      non-ERROR row. */
  method AuditRow(item: Prelim, fetch: FundamentalFetch) returns (c: Candidate)
    ensures c == Audit(item, fetch)
  {
    var nota := 0;
    var desglose := Unaudited;
    var failed := false;
    if item.state != Error {
      match fetch {
        case Raises =>
          failed := true;
        case Returns(info) =>
          nota, desglose := AnalyzeQuality(info);
      }
    }
    c := Candidate(item.ticker, item.company, item.price, item.state, item.reason, failed, nota, desglose);
  }

  /** `candidatos_finales`: every phase 1 row, audited, in order. */
  function PhaseTwo(prelim: seq<Prelim>, fundamentals: string -> FundamentalFetch): (cs: seq<Candidate>)
    ensures |cs| == |prelim|
    ensures forall i :: 0 <= i < |prelim| ==> cs[i] == Audit(prelim[i], fundamentals(prelim[i].ticker))
  {
    seq(|prelim|, i requires 0 <= i < |prelim| => Audit(prelim[i], fundamentals(prelim[i].ticker)))
  }

  /** The phase 2 loop. */
  method AuditAll(prelim: seq<Prelim>, fundamentals: string -> FundamentalFetch) returns (candidates: seq<Candidate>)
    ensures candidates == PhaseTwo(prelim, fundamentals)
  {
    candidates := [];
    for i := 0 to |prelim|
      invariant |candidates| == i
      invariant forall j :: 0 <= j < i ==> candidates[j] == Audit(prelim[j], fundamentals(prelim[j].ticker))
    {
      var c := AuditRow(prelim[i], fundamentals(prelim[i].ticker));
      candidates := candidates + [c];
    }
  }

  // ---------------------------------------------------------------------------
  // Tiers

  /** `verdes`: VERDE with a score of at least 5. */
  predicate InGreen(c: Candidate) {
    c.state == Green && c.score >= 5
  }

  /** The condition of `naranjas`, as written: not a member of `verdes`,
      neither ROJO nor ERROR. */
  function OutsideOf(verdes: seq<Candidate>): Candidate -> bool {
    x => x !in verdes && x.state != Red && x.state != Error
  }

  /** `rojas`: ROJO. */
  predicate InRed(c: Candidate) {
    c.state == Red
  }

  /** The tier a live row belongs to when it is not in `verdes`. */
  predicate InWatch(c: Candidate) {
    !InGreen(c) && c.state != Red && c.state != Error
  }

  function ScoreKey(c: Candidate): real {
    c.score as real
  }

  /** The three tables shown below the scan. */
  datatype Ranking = Ranking(candidates: seq<Candidate>, green: seq<Candidate>, watch: seq<Candidate>, red: seq<Candidate>)

  /** The tiers built from `candidatos_finales`: two stable sorts by score,
      highest first, and the red rows in scan order. Every tiered row is a
      candidate meeting its tier's condition. */
  function Tiers(cs: seq<Candidate>): (r: Ranking)
    ensures r.candidates == cs
    ensures forall c :: c in r.green ==> c in cs && InGreen(c)
    ensures forall c :: c in r.watch ==> c in cs && c.state != Red && c.state != Error
    ensures forall c :: c in r.red ==> c in cs && c.state == Red
  {
    var verdes := Filter(InGreen, cs);
    var naranjas := Filter(OutsideOf(verdes), cs);
    SortMembers(verdes, ScoreKey);
    SortMembers(naranjas, ScoreKey);
    Ranking(cs, SortDesc(verdes, ScoreKey), SortDesc(naranjas, ScoreKey), Filter(InRed, cs))
  }

  /** The membership test against `verdes` is the complement of the green
      condition, because every candidate is compared with a filter of the
      same list. */
  lemma WatchIsComplement(cs: seq<Candidate>)
    ensures Filter(OutsideOf(Filter(InGreen, cs)), cs) == Filter(InWatch, cs)
  {
    FilterCongruent(OutsideOf(Filter(InGreen, cs)), InWatch, cs);
  }

  /** The tiers are pairwise disjoint, each live (non-ERROR) row is in
      exactly one of them, and ERROR rows are in none. */
  lemma TierPartition(cs: seq<Candidate>, c: Candidate)
    requires c in cs
    ensures var r := Tiers(cs);
            && (c in r.green <==> InGreen(c))
            && (c in r.watch <==> InWatch(c))
            && (c in r.red <==> c.state == Red)
            && (c.state == Error ==> c !in r.green && c !in r.watch && c !in r.red)
            && (c.state != Error ==> (c in r.green || c in r.watch || c in r.red))
            && !(c in r.green && c in r.watch) && !(c in r.green && c in r.red) && !(c in r.watch && c in r.red)
  {
    WatchIsComplement(cs);
    var r := Tiers(cs);
    assert c in r.green <==> c in multiset(r.green);
    assert c in r.watch <==> c in multiset(r.watch);
  }

  /** The tiers hold each live row exactly once between them: their sizes add
      up to the number of non-ERROR rows. */
  lemma {:induction false} TierCount(cs: seq<Candidate>)
    ensures |Filter(InGreen, cs)| + |Filter(InWatch, cs)| + |Filter(InRed, cs)|
            == |cs| - |Filter(IsUnrated, cs)|
  {
    if cs != [] {
      TierCount(cs[1..]);
      assert cs == [cs[0]] + cs[1..];
      FilterAppend(InGreen, [cs[0]], cs[1..]);
      FilterAppend(InWatch, [cs[0]], cs[1..]);
      FilterAppend(InRed, [cs[0]], cs[1..]);
      FilterAppend(IsUnrated, [cs[0]], cs[1..]);
      OneTier(cs[0]);
    }
  }

  /** A single row is counted by exactly one of the tiers or as unrated. */
  lemma OneTier(c: Candidate)
    ensures |Filter(InGreen, [c])| + |Filter(InWatch, [c])| + |Filter(InRed, [c])| + |Filter(IsUnrated, [c])| == 1
  {
    FilterSingleton(InGreen, c);
    FilterSingleton(InWatch, c);
    FilterSingleton(InRed, c);
    FilterSingleton(IsUnrated, c);
  }

  predicate IsUnrated(c: Candidate) {
    c.state == Error
  }

  /** `verdes` and `naranjas` are ordered by score, highest first, are
      permutations of their unsorted lists, and rows with equal scores keep
      their scan order. */
  lemma TiersOrdered(cs: seq<Candidate>, k: real)
    ensures var r := Tiers(cs);
            && SortedDesc(r.green, ScoreKey) && multiset(r.green) == multiset(Filter(InGreen, cs))
            && SortedDesc(r.watch, ScoreKey) && multiset(r.watch) == multiset(Filter(InWatch, cs))
            && Filter(KeyIs(ScoreKey, k), r.green) == Filter(KeyIs(ScoreKey, k), Filter(InGreen, cs))
            && Filter(KeyIs(ScoreKey, k), r.watch) == Filter(KeyIs(ScoreKey, k), Filter(InWatch, cs))
  {
    WatchIsComplement(cs);
    SortStable(Filter(InGreen, cs), ScoreKey, k);
    SortStable(Filter(InWatch, cs), ScoreKey, k);
  }

  /** Phases 1 and 2 and the tiers. `prelim` empty means the tables are not
      shown (`None`). */
  method Rank(names: seq<(string, string)>, tickers: seq<string>, table: Table, volatility: seq<real> -> Option<real>, raises: set<string>,
              factor: real, fundamentals: string -> FundamentalFetch) returns (ranking: Option<Ranking>)
    ensures var prelim := PhaseOne(names, tickers, table, volatility, raises, factor);
            && (prelim == [] <==> ranking.None?)
            && (prelim != [] ==> ranking == Some(Tiers(PhaseTwo(prelim, fundamentals))))
  {
    var prelim := ScanTechnical(names, tickers, table, volatility, raises, factor);
    if prelim == [] {
      return None;
    }
    var candidates := AuditAll(prelim, fundamentals);
    var verdes := Filter(InGreen, candidates);
    var naranjas := Filter(OutsideOf(verdes), candidates);
    var rojas := Filter(InRed, candidates);
    verdes := SortDesc(verdes, ScoreKey);
    naranjas := SortDesc(naranjas, ScoreKey);
    ranking := Some(Ranking(candidates, verdes, naranjas, rojas));
  }

  /** The scan as the page runs it: over `EMPRESAS_SELECCIONADAS`, with the
      euro factor derived from the EUR/USD quote. */
  method RankMarket(table: Table, volatility: seq<real> -> Option<real>, raises: set<string>,
                    quote: Option<real>, fundamentals: string -> FundamentalFetch) returns (ranking: Option<Ranking>)
    requires quote.Some? ==> quote.value != 0.0
    ensures var prelim := PhaseOne(Names, Selected(), table, volatility, raises, ExchangeFactor(quote));
            && (prelim == [] <==> ranking.None?)
            && (prelim != [] ==> ranking == Some(Tiers(PhaseTwo(prelim, fundamentals))))
  {
    ranking := Rank(Names, Selected(), table, volatility, raises, ExchangeFactor(quote), fundamentals);
  }

  /** A listed ticker with no column in the table and a classifier that does
      not raise still reaches the candidates, as an unscored ERROR row that no
      tier shows. */
  lemma MissingTickerUnranked(names: seq<(string, string)>, tickers: seq<string>, table: Table, volatility: seq<real> -> Option<real>,
                              raises: set<string>, factor: real, fundamentals: string -> FundamentalFetch, t: string)
    requires t in tickers && t !in raises && t !in table
    ensures var cs := PhaseTwo(PhaseOne(names, tickers, table, volatility, raises, factor), fundamentals);
            exists c :: c in cs && c.ticker == t && c.state == Error && c.score == 0 && c.breakdown == Unaudited
              && c !in Tiers(cs).green && c !in Tiers(cs).watch && c !in Tiers(cs).red
  {
    PhaseOneKeeps(names, tickers, table, volatility, raises, factor);
    var prelim := PhaseOne(names, tickers, table, volatility, raises, factor);
    var kept := Filter(Survives(raises), tickers);
    assert t in kept;
    var i :| 0 <= i < |kept| && kept[i] == t;
    assert prelim[i].ticker == t;
    assert prelim[i] in prelim;
    assert prelim[i] == PrelimRow(names, table, volatility, factor, t);
    var cs := PhaseTwo(prelim, fundamentals);
    var c := cs[i];
    assert c in cs;
    TierPartition(cs, c);
  }

  // ---------------------------------------------------------------------------
  // Single-company report

  /** The colour of the score badge. */
  datatype Badge = GreenBadge | OrangeBadge | RedBadge

  /** The verdict box. */
  datatype Verdict = Buy | Hold | Bearish | Avoid

  /** `color_nota`: red unless a VERDE trend carries a score of 5 or more, or
      the trend is NARANJA. */
  function BadgeColour(state: State, nota: int): Badge {
    if state == Green then
      if nota >= 8 then GreenBadge else if nota >= 5 then OrangeBadge else RedBadge
    else if state == Orange then OrangeBadge
    else RedBadge
  }

  /** The conclusion drawn from the badge, and from the trend on a red badge. */
  function Conclusion(badge: Badge, state: State): Verdict {
    match badge
    case GreenBadge => Buy
    case OrangeBadge => Hold
    case RedBadge => if state == Red then Bearish else Avoid
  }

  /** When each badge colour is given. */
  lemma BadgeCases(state: State, nota: int)
    ensures BadgeColour(state, nota) == GreenBadge <==> state == Green && nota >= 8
    ensures BadgeColour(state, nota) == OrangeBadge <==> (state == Green && 5 <= nota < 8) || state == Orange
    ensures BadgeColour(state, nota) == RedBadge <==>
              state == Red || state == Error || (state == Green && nota < 5)
  {
  }

  /** When each verdict is given: a buy needs a VERDE trend and a score of 8,
      "TENDENCIA BAJISTA" is exactly the ROJO trend, and "EVITAR" covers an
      ERROR trend or a weak VERDE one. */
  lemma ConclusionCases(state: State, nota: int)
    ensures Conclusion(BadgeColour(state, nota), state) == Buy <==> state == Green && nota >= 8
    ensures Conclusion(BadgeColour(state, nota), state) == Hold <==> (state == Green && 5 <= nota < 8) || state == Orange
    ensures Conclusion(BadgeColour(state, nota), state) == Bearish <==> state == Red
    ensures Conclusion(BadgeColour(state, nota), state) == Avoid <==> state == Error || (state == Green && nota < 5)
  {
  }

  /** A VERDE row is in the green tier of the scan exactly when its badge
      in the single-company report would not be red. */
  lemma BadgeMatchesTier(c: Candidate)
    requires c.state == Green
    ensures InGreen(c) <==> BadgeColour(c.state, c.score) != RedBadge
  {
  }
}
