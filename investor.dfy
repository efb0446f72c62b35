/** The portfolio builder of pages/Inversor.py: a risk profile fixes three
    weights, the VERDE tickers are split into three volatility sleeves, and
    each sleeve's share of the capital buys whole shares of its top three. */
module Investor {
  import opened Wrappers
  import opened Strings
  import opened Sequences
  import opened MarketData
  import opened Technical
  import opened Fundamental

  // ---------------------------------------------------------------------------
  // Profile weights

  /** `(p_seg, p_mod, p_risk)`: the shares of the preservation, growth and
      speculative sleeves. They are non-negative and split the whole capital. */
  function Weights(profile: string): (w: (real, real, real))
    ensures w.0 >= 0.0 && w.1 >= 0.0 && w.2 >= 0.0 && w.0 + w.1 + w.2 == 1.0
  {
    if Contains(profile, "Conservador") then (0.8, 0.2, 0.0)
    else if Contains(profile, "Moderado") then (0.6, 0.4, 0.0)
    else (0.2, 0.4, 0.4)
  }

  /** Only a profile naming neither "Conservador" nor "Moderado" gives the
      speculative sleeve a share; the preservation sleeve always gets one. */
  lemma WeightsSplitCapital(profile: string)
    ensures var w := Weights(profile);
            && w.0 > 0.0
            && (w.2 == 0.0 <==> Contains(profile, "Conservador") || Contains(profile, "Moderado"))
  {
  }

  /** The cautious option of the page's selector. */
  lemma ConservativeOption()
    ensures Weights(ConservativeProfile) == (0.8, 0.2, 0.0)
  {
    ConservativeNamesItself();
  }

  const ConservativeProfile: string := "\U{1F422} Conservador (Bajo Riesgo)"

  lemma ConservativeNamesItself()
    ensures Contains(ConservativeProfile, "Conservador")
  {
    assert ConservativeProfile == "\U{1F422} " + "Conservador" + " (Bajo Riesgo)";
    Infix("\U{1F422} ", "Conservador", " (Bajo Riesgo)");
  }

  /** The balanced option of the page's selector. */
  lemma ModerateOption()
    ensures Weights(ModerateProfile) == (0.6, 0.4, 0.0)
  {
    ModerateNotConservative();
    ModerateNamesItself();
  }

  const ModerateProfile: string := "\U{2696}\U{FE0F} Moderado (Equilibrado)"

  lemma ModerateNotConservative()
    ensures !Contains(ModerateProfile, "Conservador")
  {
    assert forall i :: 0 <= i < |ModerateProfile| ==> ModerateProfile[i] != 'C';
    LacksFirstChar(ModerateProfile, "Conservador");
  }

  lemma ModerateNamesItself()
    ensures Contains(ModerateProfile, "Moderado")
  {
    assert ModerateProfile == "\U{2696}\U{FE0F} " + "Moderado" + " (Equilibrado)";
    Infix("\U{2696}\U{FE0F} ", "Moderado", " (Equilibrado)");
  }

  /** The dynamic option of the page's selector. */
  lemma DynamicOption()
    ensures Weights(DynamicProfile) == (0.2, 0.4, 0.4)
  {
    DynamicLacks('C', "Conservador");
    DynamicLacks('M', "Moderado");
  }

  lemma DynamicLacks(c: char, word: string)
    requires word != [] && word[0] == c && (c == 'C' || c == 'M')
    ensures !Contains(DynamicProfile, word)
  {
    assert forall i :: 0 <= i < |DynamicProfile| ==> DynamicProfile[i] != 'C' && DynamicProfile[i] != 'M';
    LacksFirstChar(DynamicProfile, word);
  }

  const DynamicProfile: string := "\U{1F680} Din\U{E1}mico (Alto Rendimiento)"

  lemma Infix(a: string, b: string, c: string)
    ensures Contains(a + b + c, b)
  {
    assert (a + b + c)[|a|..|a| + |b|] == b;
    assert OccursAt(b, a + b + c, |a|);
  }

  // ---------------------------------------------------------------------------
  // Candidate pool

  /** A row of `todos`: T, E, P, N, V (None stands for a NaN volatility). */
  datatype Holding = Holding(ticker: string, company: string, price: real, score: int, volatility: Option<real>)

  /** What calling the fundamental scorer did for a ticker. */
  datatype ScoreFetch = ScoreRaises | Scored(info: Option<Info>)

  /** The holding a VERDE ticker contributes, price converted unless it is a
      Madrid listing. */
  function Entry(names: seq<(string, string)>, ticker: string, signal: Signal, factor: real, info: Option<Info>): Holding {
    Holding(ticker, NameIn(names, ticker), if !EndsWith(ticker, ".MC") then signal.price * factor else signal.price,
            Score(info), signal.volatility)
  }

  /** What one ticker adds to `todos`: nothing when its classification or
      its scorer raises or its verdict is not VERDE, otherwise its entry. */
  function PoolPart(names: seq<(string, string)>, t: string, table: Table, volatility: seq<real> -> Option<real>,
                    raises: set<string>, factor: real, fetch: ScoreFetch): seq<Holding>
  {
    var signal := Classify(table, t, volatility);
    if t in raises || signal.state != Green || fetch.ScoreRaises? then []
    else [Entry(names, t, signal, factor, fetch.info)]
  }

  /** `todos` after the loop, in watchlist order: at most one holding per
      ticker. */
  function Pool(names: seq<(string, string)>, tickers: seq<string>, table: Table, volatility: seq<real> -> Option<real>,
                raises: set<string>, factor: real, fundamentals: string -> ScoreFetch): (todos: seq<Holding>)
    ensures |todos| <= |tickers|
  {
    if tickers == [] then []
    else
      var t := tickers[|tickers| - 1];
      Pool(names, tickers[..|tickers| - 1], table, volatility, raises, factor, fundamentals)
      + PoolPart(names, t, table, volatility, raises, factor, fundamentals(t))
  }

  /** A ticker is in the pool exactly when it is listed, does not raise, is
      VERDE and is scored; its entry carries its signal's converted price, its
      score and its volatility. */
  lemma {:induction false} PoolMembers(names: seq<(string, string)>, tickers: seq<string>, table: Table,
                                       volatility: seq<real> -> Option<real>, raises: set<string>, factor: real,
                                       fundamentals: string -> ScoreFetch)
    ensures forall h :: h in Pool(names, tickers, table, volatility, raises, factor, fundamentals) ==>
              && h.ticker in tickers && h.ticker !in raises
              && Classify(table, h.ticker, volatility).state == Green
              && fundamentals(h.ticker).Scored?
              && h == Entry(names, h.ticker, Classify(table, h.ticker, volatility), factor, fundamentals(h.ticker).info)
    ensures forall t :: t in tickers && t !in raises && Classify(table, t, volatility).state == Green
                        && fundamentals(t).Scored? ==>
              Entry(names, t, Classify(table, t, volatility), factor, fundamentals(t).info)
                in Pool(names, tickers, table, volatility, raises, factor, fundamentals)
  {
    if tickers != [] {
      var init := tickers[..|tickers| - 1];
      var t := tickers[|tickers| - 1];
      PoolMembers(names, init, table, volatility, raises, factor, fundamentals);
      assert tickers == init + [t];
      var part := PoolPart(names, t, table, volatility, raises, factor, fundamentals(t));
      assert forall h :: h in part ==> h.ticker == t && h == Entry(names, t, Classify(table, t, volatility), factor, fundamentals(t).info);
    }
  }

  /** The symbol of a holding. */
  function TickerOf(h: Holding): string {
    h.ticker
  }

  /** The tickers that reach `todos`. */
  function Pooled(table: Table, volatility: seq<real> -> Option<real>, raises: set<string>,
                  fundamentals: string -> ScoreFetch): string -> bool
  {
    t => t !in raises && Classify(table, t, volatility).state == Green && fundamentals(t).Scored?
  }

  /** `todos` holds one holding per pooled ticker, in watchlist order: its
      symbols are exactly the watchlist filtered by the pool condition. */
  lemma {:induction false} PoolTickers(names: seq<(string, string)>, tickers: seq<string>, table: Table,
                                       volatility: seq<real> -> Option<real>, raises: set<string>, factor: real,
                                       fundamentals: string -> ScoreFetch)
    ensures Map(TickerOf, Pool(names, tickers, table, volatility, raises, factor, fundamentals))
            == Filter(Pooled(table, volatility, raises, fundamentals), tickers)
  {
    if tickers != [] {
      var init := tickers[..|tickers| - 1];
      var t := tickers[|tickers| - 1];
      var p := Pooled(table, volatility, raises, fundamentals);
      PoolTickers(names, init, table, volatility, raises, factor, fundamentals);
      assert tickers == init + [t];
      FilterAppend(p, init, [t]);
      var before := Pool(names, init, table, volatility, raises, factor, fundamentals);
      var added := PoolPart(names, t, table, volatility, raises, factor, fundamentals(t));
      MapAppend(TickerOf, before, added);
      PoolPartTicker(names, t, table, volatility, raises, factor, fundamentals);
    }
  }

  lemma PoolPartTicker(names: seq<(string, string)>, t: string, table: Table, volatility: seq<real> -> Option<real>,
                       raises: set<string>, factor: real, fundamentals: string -> ScoreFetch)
    ensures Map(TickerOf, PoolPart(names, t, table, volatility, raises, factor, fundamentals(t)))
            == Filter(Pooled(table, volatility, raises, fundamentals), [t])
  {
    FilterSingleton(Pooled(table, volatility, raises, fundamentals), t);
  }

  /** The pool loop. */
  method BuildPool(names: seq<(string, string)>, tickers: seq<string>, table: Table, volatility: seq<real> -> Option<real>,
                   raises: set<string>, factor: real, fundamentals: string -> ScoreFetch) returns (todos: seq<Holding>)
    ensures todos == Pool(names, tickers, table, volatility, raises, factor, fundamentals)
  {
    todos := [];
    for i := 0 to |tickers|
      invariant todos == Pool(names, tickers[..i], table, volatility, raises, factor, fundamentals)
    {
      assert tickers[..i + 1][..i] == tickers[..i];
      assert tickers[..i + 1][i] == tickers[i];
      var added := Consider(names, tickers[i], table, volatility, raises, factor, fundamentals(tickers[i]));
      todos := todos + added;
    }
    assert tickers[..|tickers|] == tickers;
  }

  /** One iteration of the pool loop: classify, and score only a VERDE ticker. */
  method Consider(names: seq<(string, string)>, t: string, table: Table, volatility: seq<real> -> Option<real>,
                  raises: set<string>, factor: real, fetch: ScoreFetch) returns (added: seq<Holding>)
    ensures added == PoolPart(names, t, table, volatility, raises, factor, fetch)
  {
    added := [];
    if t in raises {
      return;
    }
    var signal := Classify(table, t, volatility);
    if signal.state == Green {
      match fetch {
        case ScoreRaises =>
        case Scored(info) =>
          var nota, _ := AnalyzeQuality(info);
          var price := if !EndsWith(t, ".MC") then signal.price * factor else signal.price;
          added := [Holding(t, NameIn(names, t), price, nota, signal.volatility)];
          assert added[0] == Entry(names, t, signal, factor, info);
      }
    }
  }

  // ---------------------------------------------------------------------------
  // Sleeves

  /** `c_seg`: a score of 7 or more and a volatility of at most 1%. */
  predicate IsSafe(h: Holding) {
    h.score >= 7 && h.volatility.Some? && h.volatility.value <= 0.01
  }

  /** `c_mod`: a score of 7 or more and a volatility above 1% and at most 1.5%. */
  predicate IsGrowth(h: Holding) {
    h.score >= 7 && h.volatility.Some? && 0.01 < h.volatility.value <= 0.015
  }

  /** `c_rsk`: a volatility above 1.5%, whatever the score. */
  predicate IsRisky(h: Holding) {
    h.volatility.Some? && h.volatility.value > 0.015
  }

  /** No holding is in two sleeves; a holding with a NaN volatility is in none,
      and one scoring below 7 can only be speculative. */
  lemma SleevesDisjoint(h: Holding)
    ensures !(IsSafe(h) && IsGrowth(h)) && !(IsSafe(h) && IsRisky(h)) && !(IsGrowth(h) && IsRisky(h))
    ensures h.volatility.None? ==> !IsSafe(h) && !IsGrowth(h) && !IsRisky(h)
    ensures h.score < 7 ==> !IsSafe(h) && !IsGrowth(h)
  {
  }

  // ---------------------------------------------------------------------------
  // asignar

  const PreservationTag: string := "\U{1F6E1}\U{FE0F} Preservaci\U{F3}n"
  const GrowthTag: string := "\U{2696}\U{FE0F} Crecimiento"
  const SpeculativeTag: string := "\U{1F525} Especulativo"

  /** A row of `cartera`: Categoría, Activo, Precio, Cantidad, Total, Calidad. */
  datatype Line = Line(category: string, company: string, price: real, quantity: int, total: real, quality: int)

  /** Python's `int()` on a float: truncation toward zero. */
  function Trunc(x: real): (n: int)
    ensures x >= 0.0 ==> n as real <= x < n as real + 1.0
    ensures x < 0.0 ==> n as real - 1.0 < x <= n as real
  {
    if x >= 0.0 then x.Floor else -((-x).Floor)
  }

  predicate Priced(hs: seq<Holding>) {
    forall h :: h in hs ==> h.price != 0.0
  }

  function ScoreKey(h: Holding): real {
    h.score as real
  }

  /** The key of the "Riesgo" fallback's sort; a NaN volatility is read as 0. */
  function VolatilityKey(h: Holding): (k: real)
    ensures h.volatility.Some? ==> k == h.volatility.value
    ensures h.volatility.None? ==> k == 0.0
  {
    h.volatility.GetOr(0.0)
  }

  /** The list `asignar` falls back to when its own list is empty: only the
      labels "Riesgo" and "Equilibrio" have one. */
  function Fallback(tag: string, pool: seq<Holding>, safe: seq<Holding>): (chosen: seq<Holding>)
    ensures forall h :: h in chosen ==> h in pool || h in safe
  {
    if tag == "Riesgo" && pool != [] then
      SortMembers(pool, VolatilityKey);
      Take(SortDesc(pool, VolatilityKey), 3)
    else if tag == "Equilibrio" && safe != [] then safe
    else []
  }

  /** `sorted(lista, key=..., reverse=True)`: by score, or by volatility for
      the tag "Riesgo". */
  function Ordered(chosen: seq<Holding>, tag: string): (ordered: seq<Holding>)
    ensures multiset(ordered) == multiset(chosen)
    ensures forall h :: h in ordered ==> h in chosen
  {
    SortMembers(chosen, ScoreKey);
    SortMembers(chosen, VolatilityKey);
    if tag != "Riesgo" then SortDesc(chosen, ScoreKey) else SortDesc(chosen, VolatilityKey)
  }

  /** `seleccion`: the top three of the list (or its fallback) by score, or
      by volatility for the tag "Riesgo". */
  function Selection(lista: seq<Holding>, tag: string, pool: seq<Holding>, safe: seq<Holding>): (sel: seq<Holding>)
    ensures |sel| <= 3
    ensures forall h :: h in sel ==> h in lista || h in pool || h in safe
  {
    var chosen := if lista != [] then lista else Fallback(tag, pool, safe);
    var ordered := Ordered(chosen, tag);
    Take(ordered, 3)
  }

  /** The line bought for one holding with the amount `each`: at least one
      share, as many whole shares as the amount buys when that is more, at
      quantity times price, under the tag, with the holding's name and score. */
  function LineFor(h: Holding, each: real, tag: string): (l: Line)
    requires h.price != 0.0
    ensures l.quantity >= 1 && l.quantity >= Trunc(each / h.price)
    ensures l.quantity == 1 || l.quantity == Trunc(each / h.price)
    ensures l.total == l.quantity as real * h.price
    ensures l.category == tag && l.company == h.company && l.price == h.price && l.quality == h.score
  {
    var quantity := if Trunc(each / h.price) > 1 then Trunc(each / h.price) else 1;
    Line(tag, h.company, h.price, quantity, quantity as real * h.price, h.score)
  }

  /** With a positive price at or below the amount, a line spends at most
      the amount and leaves less than one share's price unspent. */
  lemma LineFacts(h: Holding, each: real, tag: string)
    requires h.price != 0.0
    ensures 0.0 < h.price <= each ==> each - h.price < LineFor(h, each, tag).total <= each
  {
    if 0.0 < h.price <= each {
      TruncBounds(each, h.price);
    }
  }

  /** Whole shares bought with `each` at price `p`: at least one, and less
      than one share's price left over. */
  lemma TruncBounds(each: real, p: real)
    requires 0.0 < p <= each
    ensures Trunc(each / p) >= 1
    ensures Trunc(each / p) as real * p <= each
    ensures each < Trunc(each / p) as real * p + p
  {
    var x := each / p;
    assert x * p == each;
    assert x >= 1.0;
    Remainder(each, p, x, Trunc(x) as real);
  }

  lemma Remainder(each: real, p: real, x: real, q: real)
    requires p > 0.0 && x * p == each && q <= x < q + 1.0
    ensures q * p <= each < q * p + p
  {
    var d := q + 1.0 - x;
    assert d * p > 0.0;
    assert d * p == q * p + p - x * p;
    assert q * p + p - each > 0.0;
    assert (x - q) * p >= 0.0;
  }

  /** The lines one call to `asignar` appends to `cartera`. */
  function Allotment(capital: real, lista: seq<Holding>, pct: real, tag: string,
                     pool: seq<Holding>, safe: seq<Holding>): (lines: seq<Line>)
    requires Priced(lista) && Priced(pool) && Priced(safe)
    ensures |lines| <= 3
    ensures forall i :: 0 <= i < |lines| ==> lines[i].quantity >= 1
  {
    if pct == 0.0 then []
    else
      var sel := Selection(lista, tag, pool, safe);
      if sel == [] then []
      else
        assert Priced(sel);
        Lines(sel, capital * pct / |sel| as real, tag)
  }

  /** One line per selected holding, each bought with the amount `each`. */
  function Lines(sel: seq<Holding>, each: real, tag: string): (lines: seq<Line>)
    requires Priced(sel)
    ensures |lines| == |sel|
    ensures forall i :: 0 <= i < |sel| ==> lines[i] == LineFor(sel[i], each, tag)
  {
    seq(|sel|, i requires 0 <= i < |sel| => LineFor(sel[i], each, tag))
  }

  /** `asignar`. */
  method Assign(capital: real, lista: seq<Holding>, pct: real, tag: string,
                pool: seq<Holding>, safe: seq<Holding>) returns (added: seq<Line>)
    requires Priced(lista) && Priced(pool) && Priced(safe)
    ensures added == Allotment(capital, lista, pct, tag, pool, safe)
  {
    added := [];
    if pct == 0.0 {
      return;
    }
    var dinero := capital * pct;
    var chosen := lista;
    if chosen == [] {
      chosen := Fallback(tag, pool, safe);
      if chosen == [] {
        return;
      }
    }
    var seleccion := Take(Ordered(chosen, tag), 3);
    assert seleccion == Selection(lista, tag, pool, safe);
    if seleccion == [] {
      return;
    }
    added := Buy(seleccion, dinero / |seleccion| as real, tag);
  }

  /** The loop of `asignar`: one line per selected holding, each bought with
      the amount `each`. */
  method Buy(seleccion: seq<Holding>, each: real, tag: string) returns (added: seq<Line>)
    requires Priced(seleccion)
    ensures |added| == |seleccion|
    ensures forall j :: 0 <= j < |seleccion| ==> added[j] == LineFor(seleccion[j], each, tag)
  {
    added := [];
    for i := 0 to |seleccion|
      invariant |added| == i
      invariant forall j :: 0 <= j < i ==> added[j] == LineFor(seleccion[j], each, tag)
    {
      var a := seleccion[i];
      var quantity := if Trunc(each / a.price) > 1 then Trunc(each / a.price) else 1;
      added := added + [Line(tag, a.company, a.price, quantity, quantity as real * a.price, a.score)];
    }
  }

  /** A zero share adds nothing. */
  lemma ZeroShareAddsNothing(capital: real, lista: seq<Holding>, tag: string, pool: seq<Holding>, safe: seq<Holding>)
    requires Priced(lista) && Priced(pool) && Priced(safe)
    ensures Allotment(capital, lista, 0.0, tag, pool, safe) == []
  {
  }

  /** An empty sleeve adds nothing under the three labels the page passes:
      none of them is "Riesgo" or "Equilibrio". */
  lemma EmptySleeveAddsNothing(capital: real, pct: real, tag: string, pool: seq<Holding>, safe: seq<Holding>)
    requires tag == PreservationTag || tag == GrowthTag || tag == SpeculativeTag
    requires Priced(pool) && Priced(safe)
    ensures Allotment(capital, [], pct, tag, pool, safe) == []
  {
    assert tag[0] != 'R' && tag[0] != 'E';
  }

  /** A sleeve under one of the page's labels buys at most three holdings,
      the first three of its list sorted by score (highest first, ties in list
      order), each line carrying the tag and the holding's name and score. */
  lemma TopThreeByScore(capital: real, lista: seq<Holding>, pct: real, tag: string, pool: seq<Holding>, safe: seq<Holding>)
    requires tag == PreservationTag || tag == GrowthTag || tag == SpeculativeTag
    requires Priced(lista) && Priced(pool) && Priced(safe)
    requires pct != 0.0 && lista != []
    ensures var lines := Allotment(capital, lista, pct, tag, pool, safe);
            var sorted := SortDesc(lista, ScoreKey);
            && |lines| == (if |lista| < 3 then |lista| else 3)
            && forall i :: 0 <= i < |lines| ==>
                 (lines[i].category == tag && lines[i].company == sorted[i].company && lines[i].quality == sorted[i].score)
  {
    var sorted := SortDesc(lista, ScoreKey);
    var sel := Selection(lista, tag, pool, safe);
    PageTagSelection(lista, tag, pool, safe);
    AllotmentLines(capital, lista, pct, tag, pool, safe);
  }

  /** A non-zero share buys one line per selected holding, with its tag, name
      and score: each line is `LineFor` that holding at an equal part of
      `capital * pct`. */
  lemma AllotmentLines(capital: real, lista: seq<Holding>, pct: real, tag: string, pool: seq<Holding>, safe: seq<Holding>)
    requires Priced(lista) && Priced(pool) && Priced(safe)
    requires pct != 0.0
    ensures var lines := Allotment(capital, lista, pct, tag, pool, safe);
            var sel := Selection(lista, tag, pool, safe);
            && |lines| == |sel|
            && (forall i :: 0 <= i < |lines| ==>
                 lines[i].category == tag && lines[i].company == sel[i].company && lines[i].quality == sel[i].score)
            && (sel != [] ==> Priced(sel) && forall i :: 0 <= i < |lines| ==>
                 lines[i] == LineFor(sel[i], capital * pct / |sel| as real, tag))
  {
  }

  /** Under the page's tags a non-empty list is cut to its first three by score. */
  lemma PageTagSelection(lista: seq<Holding>, tag: string, pool: seq<Holding>, safe: seq<Holding>)
    requires tag == PreservationTag || tag == GrowthTag || tag == SpeculativeTag
    requires lista != []
    ensures Selection(lista, tag, pool, safe) == Take(SortDesc(lista, ScoreKey), 3)
  {
    assert tag != "Riesgo" by {
      assert tag[0] != "Riesgo"[0];
    }
  }

  /** No holding left out of the first three of the score order scores above
      one of them. */
  lemma TopThreeScoreHighest(lista: seq<Holding>)
    ensures var sorted := SortDesc(lista, ScoreKey);
            forall i, j :: 0 <= i < 3 && i < j < |sorted| ==> sorted[i].score >= sorted[j].score
  {
    var sorted := SortDesc(lista, ScoreKey);
    forall i, j | 0 <= i < 3 && i < j < |sorted|
      ensures sorted[i].score >= sorted[j].score
    {
      assert ScoreKey(sorted[i]) >= ScoreKey(sorted[j]);
    }
  }

  // ---------------------------------------------------------------------------
  // The whole proposal

  function SafeSleeve(pool: seq<Holding>): seq<Holding> { Filter(IsSafe, pool) }
  function GrowthSleeve(pool: seq<Holding>): seq<Holding> { Filter(IsGrowth, pool) }
  function RiskSleeve(pool: seq<Holding>): seq<Holding> { Filter(IsRisky, pool) }

  /** `cartera`: the preservation, growth and speculative lines, in that
      order; at most three per sleeve, and none at all from an empty pool. */
  function Proposal(capital: real, profile: string, pool: seq<Holding>): (cartera: seq<Line>)
    requires Priced(pool)
    ensures |cartera| <= 9
    ensures pool == [] ==> cartera == []
  {
    var w := Weights(profile);
    var safe := SafeSleeve(pool);
    Allotment(capital, safe, w.0, PreservationTag, pool, safe)
    + Allotment(capital, GrowthSleeve(pool), w.1, GrowthTag, pool, safe)
    + Allotment(capital, RiskSleeve(pool), w.2, SpeculativeTag, pool, safe)
  }

  /** `df_c["Total"].sum()`. */
  function Spent(lines: seq<Line>): real {
    if lines == [] then 0.0 else Spent(lines[..|lines| - 1]) + lines[|lines| - 1].total
  }

  /** The three calls to `asignar` and the cash residual. */
  method Allocate(capital: real, profile: string, pool: seq<Holding>) returns (cartera: seq<Line>, cash: real)
    requires Priced(pool)
    ensures cartera == Proposal(capital, profile, pool)
    ensures cash + Spent(cartera) == capital
    ensures pool == [] ==> cartera == [] && cash == capital
  {
    var w := Weights(profile);
    var cSeg := Filter(IsSafe, pool);
    var cMod := Filter(IsGrowth, pool);
    var cRsk := Filter(IsRisky, pool);
    var seg := Assign(capital, cSeg, w.0, PreservationTag, pool, cSeg);
    var mod := Assign(capital, cMod, w.1, GrowthTag, pool, cSeg);
    var rsk := Assign(capital, cRsk, w.2, SpeculativeTag, pool, cSeg);
    cartera := seg + mod + rsk;
    cash := capital - Spent(cartera);
  }

  /** Every line of an allotment carries the tag it was called with. */
  lemma AllotmentLabelled(capital: real, lista: seq<Holding>, pct: real, tag: string, pool: seq<Holding>, safe: seq<Holding>)
    requires Priced(lista) && Priced(pool) && Priced(safe)
    ensures forall l :: l in Allotment(capital, lista, pct, tag, pool, safe) ==> l.category == tag
  {
  }

  /** A "Conservador" or "Moderado" profile never proposes a speculative line. */
  lemma CautiousProfilesNotSpeculative(capital: real, profile: string, pool: seq<Holding>)
    requires Priced(pool)
    requires Contains(profile, "Conservador") || Contains(profile, "Moderado")
    ensures forall l :: l in Proposal(capital, profile, pool) ==> l.category != SpeculativeTag
  {
    var safe := SafeSleeve(pool);
    AllotmentLabelled(capital, safe, Weights(profile).0, PreservationTag, pool, safe);
    AllotmentLabelled(capital, GrowthSleeve(pool), Weights(profile).1, GrowthTag, pool, safe);
    assert PreservationTag[0] != SpeculativeTag[0] && GrowthTag[0] != SpeculativeTag[0];
  }

  /** The proposal can spend more than the capital: one safe holding priced
      above its share is still bought once, and the cash goes negative. */
  lemma CanOverspend()
    ensures var pool := [Holding("SAN.MC", "Banco Santander", 500.0, 9, Some(0.005))];
            var lines := Proposal(100.0, "Conservador", pool);
            lines == [Line(PreservationTag, "Banco Santander", 500.0, 1, 500.0, 9)] && 100.0 - Spent(lines) == -400.0
  {
    ContainsItself("Conservador");
    var h := Holding("SAN.MC", "Banco Santander", 500.0, 9, Some(0.005));
    var pool := [h];
    assert pool[1..] == [];
    assert SafeSleeve(pool) == [h];
    assert GrowthSleeve(pool) == [];
    assert Selection([h], PreservationTag, pool, [h]) == [h];
    assert Trunc(80.0 / 500.0) == 0;
  }
}
