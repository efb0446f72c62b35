/** The fundamental scorer of analisis_fundamental.py: five ratios from the
    provider's company snapshot become a 0..10 quality score and a five-entry
    breakdown of annotated verdicts. */
module Fundamental {
  import opened Wrappers

  /** The provider's snapshot dictionary, reduced to the five keys the scorer
      reads (`None`: the key is absent). `otherKeys` records whether the
      dictionary holds any further key, which decides whether it is empty. */
  datatype Info = Info(
    trailingPE: Option<real>,
    debtToEquity: Option<real>,
    profitMargins: Option<real>,
    dividendYield: Option<real>,
    revenueGrowth: Option<real>,
    otherKeys: bool)

  /** The keys of the breakdown: the five indicators, and the single "Error"
      key that the ranking page gives to rows it never scores. */
  datatype Indicator = Valuation | Debt | Profitability | Dividends | Growth | ErrorKey

  /** The annotated verdicts; a number is the ratio the text shows. */
  datatype Mark =
    | NotAvailable              // "⚪ N/A"
    | NoDividend                // "⚪ No paga"
    | Stagnant                  // "⚪ Estancada"
    | CheapPE(pe: real)         // "✅ Buena (per)"
    | ExpensivePE(pe: real)     // "⚠️ Cara (per)"
    | FairPE(pe: real)          // "⚖️ Normal (per)"
    | LowDebt                   // "✅ Baja"
    | HighDebt                  // "⚠️ Alta"
    | HighMargin(margin: real)  // "✅ Alta (margin %)"
    | ThinMargin(margin: real)  // "⚖️ Normal (margin %)"
    | Losses                    // "❌ Pérdidas"
    | RichDividend(rate: real)  // "💰 Rico (rate %)"
    | Rising                    // "🚀 Sube"
    | Falling                   // "📉 Baja"
    | Unscored                  // "N/A" of the ranking page's "Error" entry

  type Breakdown = map<Indicator, Mark>

  const ScoredIndicators: set<Indicator> := {Valuation, Debt, Profitability, Dividends, Growth}

  /** The breakdown before any rule fires. */
  const Defaults: Breakdown :=
    map[Valuation := NotAvailable, Debt := NotAvailable, Profitability := NotAvailable,
        Dividends := NoDividend, Growth := Stagnant]

  /** Python truthiness of a looked-up number: absent and 0 are both false. */
  predicate Truthy(x: Option<real>) {
    x.Some? && x.value != 0.0
  }

  /** `not info`: the fetch failed (`None`) or returned an empty dictionary. */
  predicate IsBlank(info: Option<Info>) {
    info.None?
    || (var i := info.value;
        i.trailingPE.None? && i.debtToEquity.None? && i.profitMargins.None?
        && i.dividendYield.None? && i.revenueGrowth.None? && !i.otherKeys)
  }

  /** The signed adjustment to the raw score that each verdict stands for. */
  function Weight(m: Mark): int {
    match m
    case CheapPE(_) => 2
    case ExpensivePE(_) => -1
    case LowDebt => 2
    case HighDebt => -2
    case HighMargin(_) => 2
    case ThinMargin(_) => 1
    case Losses => -3
    case RichDividend(_) => 1
    case Rising => 1
    case _ => 0
  }

  function ValuationMark(pe: Option<real>): Mark {
    if !Truthy(pe) then NotAvailable
    else if pe.value < 25.0 then CheapPE(pe.value)
    else if pe.value > 50.0 then ExpensivePE(pe.value)
    else FairPE(pe.value)
  }

  function DebtMark(debt: Option<real>): Mark {
    if !Truthy(debt) then NotAvailable
    else if debt.value < 150.0 then LowDebt
    else HighDebt
  }

  /** A missing margin is read as 0. */
  function ProfitMark(margin: Option<real>): Mark {
    var m := margin.GetOr(0.0);
    if m > 0.10 then HighMargin(m)
    else if m > 0.0 then ThinMargin(m)
    else Losses
  }

  function DividendMark(dividend: Option<real>): Mark {
    if Truthy(dividend) && dividend.value > 0.02 then RichDividend(dividend.value) else NoDividend
  }

  /** A missing growth figure is read as 0. */
  function GrowthMark(growth: Option<real>): Mark {
    var g := growth.GetOr(0.0);
    if g > 0.05 then Rising
    else if g < 0.0 then Falling
    else Stagnant
  }

  /** The breakdown the scorer reports for a snapshot: the defaults, with each
      rule overwriting its own entry. */
  function Assess(info: Option<Info>): (b: Breakdown)
    ensures b.Keys == ScoredIndicators
  {
    if IsBlank(info) then Defaults
    else
      var i := info.value;
      Defaults[Valuation := ValuationMark(i.trailingPE)][Debt := DebtMark(i.debtToEquity)]
              [Profitability := ProfitMark(i.profitMargins)][Dividends := DividendMark(i.dividendYield)]
              [Growth := GrowthMark(i.revenueGrowth)]
  }

  /** The raw score a breakdown stands for: the sum of its verdicts' weights. */
  function Total(b: Breakdown): int
    requires ScoredIndicators <= b.Keys
  {
    Weight(b[Valuation]) + Weight(b[Debt]) + Weight(b[Profitability])
    + Weight(b[Dividends]) + Weight(b[Growth])
  }

  /** `min(10, max(0, x))`. */
  function Clamp(x: int): (r: int)
    ensures 0 <= r <= 10
    ensures 0 <= x <= 10 ==> r == x
  {
    if x < 0 then 0 else if x > 10 then 10 else x
  }

  /** The published score: 0 for a blank snapshot, otherwise the raw score
      shifted by 2 and clamped to 0..10. */
  function Score(info: Option<Info>): (s: int)
    ensures 0 <= s <= 10
  {
    if IsBlank(info) then 0 else Clamp(Total(Assess(info)) + 2)
  }

  /** `analizar_calidad_fundamental`, with the fetched snapshot as its input.
      The running total `nota` and the breakdown are updated block by block, one
      step method per block of the source. */
  method AnalyzeQuality(info: Option<Info>) returns (score: int, breakdown: Breakdown)
    ensures breakdown == Assess(info)
    ensures score == Score(info)
    ensures 0 <= score <= 10 && breakdown.Keys == ScoredIndicators
  {
    breakdown := Defaults;
    if IsBlank(info) {
      return 0, breakdown;
    }
    var nota;
    nota, breakdown := RateAll(info.value);
    TotalOfMarks(info.value);
    score := Clamp(nota + 2);
  }

  /** The five blocks run in order on a non-blank snapshot, starting from the
      defaults and a running score of 0. */
  method RateAll(i: Info) returns (nota: int, breakdown: Breakdown)
    requires !IsBlank(Some(i))
    ensures breakdown == Assess(Some(i))
    ensures nota == Weight(ValuationMark(i.trailingPE)) + Weight(DebtMark(i.debtToEquity))
                    + Weight(ProfitMark(i.profitMargins)) + Weight(DividendMark(i.dividendYield))
                    + Weight(GrowthMark(i.revenueGrowth))
  {
    var b1 := Defaults[Valuation := ValuationMark(i.trailingPE)];
    var b2 := b1[Debt := DebtMark(i.debtToEquity)];
    var b3 := b2[Profitability := ProfitMark(i.profitMargins)];
    var b4 := b3[Dividends := DividendMark(i.dividendYield)];
    nota, breakdown := RateValuation(i.trailingPE, 0, Defaults);
    KeepDefault(Defaults, Valuation, ValuationMark(i.trailingPE), NotAvailable);
    assert breakdown == b1;
    nota, breakdown := RateDebt(i.debtToEquity, nota, breakdown);
    KeepDefault(b1, Debt, DebtMark(i.debtToEquity), NotAvailable);
    assert breakdown == b2;
    nota, breakdown := RateProfitability(i.profitMargins, nota, breakdown);
    assert breakdown == b3;
    nota, breakdown := RateDividend(i.dividendYield, nota, breakdown);
    KeepDefault(b3, Dividends, DividendMark(i.dividendYield), NoDividend);
    assert breakdown == b4;
    nota, breakdown := RateGrowth(i.revenueGrowth, nota, breakdown);
    KeepDefault(b4, Growth, GrowthMark(i.revenueGrowth), Stagnant);
  }

  /** Leaving an entry that holds its default alone is the same as writing
      the default back. */
  lemma KeepDefault(b: Breakdown, k: Indicator, m: Mark, default: Mark)
    requires k in b && b[k] == default
    ensures (if m == default then b else b[k := m]) == b[k := m]
  {
    if m == default {
      assert b[k := m] == b;
    }
  }

  /** The raw score of a non-blank snapshot is the sum of its five verdicts' weights. */
  lemma TotalOfMarks(i: Info)
    requires !IsBlank(Some(i))
    ensures Total(Assess(Some(i))) == Weight(ValuationMark(i.trailingPE)) + Weight(DebtMark(i.debtToEquity))
              + Weight(ProfitMark(i.profitMargins)) + Weight(DividendMark(i.dividendYield))
              + Weight(GrowthMark(i.revenueGrowth))
  {
  }

  /** Block 1, price/earnings: only a truthy ratio touches the entry. */
  method RateValuation(per: Option<real>, nota: int, breakdown: Breakdown) returns (nota': int, breakdown': Breakdown)
    ensures nota' == nota + Weight(ValuationMark(per))
    ensures breakdown' == if ValuationMark(per) == NotAvailable then breakdown else breakdown[Valuation := ValuationMark(per)]
  {
    nota', breakdown' := nota, breakdown;
    if Truthy(per) {
      if per.value < 25.0 {
        nota' := nota' + 2;
        breakdown' := breakdown'[Valuation := CheapPE(per.value)];
      } else if per.value > 50.0 {
        nota' := nota' - 1;
        breakdown' := breakdown'[Valuation := ExpensivePE(per.value)];
      } else {
        breakdown' := breakdown'[Valuation := FairPE(per.value)];
      }
    }
  }

  /** Block 2, debt/equity: only a truthy ratio touches the entry. */
  method RateDebt(debt: Option<real>, nota: int, breakdown: Breakdown) returns (nota': int, breakdown': Breakdown)
    ensures nota' == nota + Weight(DebtMark(debt))
    ensures breakdown' == if DebtMark(debt) == NotAvailable then breakdown else breakdown[Debt := DebtMark(debt)]
  {
    nota', breakdown' := nota, breakdown;
    if Truthy(debt) {
      if debt.value < 150.0 {
        nota' := nota' + 2;
        breakdown' := breakdown'[Debt := LowDebt];
      } else {
        nota' := nota' - 2;
        breakdown' := breakdown'[Debt := HighDebt];
      }
    }
  }

  /** Block 3, profit margin: always rewrites the entry, a missing margin being 0. */
  method RateProfitability(margins: Option<real>, nota: int, breakdown: Breakdown) returns (nota': int, breakdown': Breakdown)
    ensures nota' == nota + Weight(ProfitMark(margins))
    ensures breakdown' == breakdown[Profitability := ProfitMark(margins)]
  {
    var margin := margins.GetOr(0.0);
    if margin > 0.10 {
      nota' := nota + 2;
      breakdown' := breakdown[Profitability := HighMargin(margin)];
    } else if margin > 0.0 {
      nota' := nota + 1;
      breakdown' := breakdown[Profitability := ThinMargin(margin)];
    } else {
      nota' := nota - 3;
      breakdown' := breakdown[Profitability := Losses];
    }
  }

  /** Block 4, dividend yield: only a truthy yield above 2% touches the entry. */
  method RateDividend(dividend: Option<real>, nota: int, breakdown: Breakdown) returns (nota': int, breakdown': Breakdown)
    ensures nota' == nota + Weight(DividendMark(dividend))
    ensures breakdown' == if DividendMark(dividend) == NoDividend then breakdown else breakdown[Dividends := DividendMark(dividend)]
  {
    nota', breakdown' := nota, breakdown;
    if Truthy(dividend) && dividend.value > 0.02 {
      nota' := nota' + 1;
      breakdown' := breakdown'[Dividends := RichDividend(dividend.value)];
    }
  }

  /** Block 5, revenue growth: rising adds 1, falling only changes the text. */
  method RateGrowth(revenueGrowth: Option<real>, nota: int, breakdown: Breakdown) returns (nota': int, breakdown': Breakdown)
    ensures nota' == nota + Weight(GrowthMark(revenueGrowth))
    ensures breakdown' == if GrowthMark(revenueGrowth) == Stagnant then breakdown else breakdown[Growth := GrowthMark(revenueGrowth)]
  {
    nota', breakdown' := nota, breakdown;
    var growth := revenueGrowth.GetOr(0.0);
    if growth > 0.05 {
      nota' := nota' + 1;
      breakdown' := breakdown'[Growth := Rising];
    } else if growth < 0.0 {
      breakdown' := breakdown'[Growth := Falling];
    }
  }

  // ---------------------------------------------------------------------------
  // Properties of the scorer

  /** Every verdict adds between -3 and +2, so the raw score of any snapshot
      lies in [-6, 8]. */
  lemma TotalBounds(info: Option<Info>)
    ensures -6 <= Total(Assess(info)) <= 8
  {
  }

  /** Since raw + 2 never exceeds 10, only the lower clamp can bind. */
  lemma OnlyLowerClampBinds(info: Option<Info>)
    requires !IsBlank(info)
    ensures Score(info) == if Total(Assess(info)) + 2 < 0 then 0 else Total(Assess(info)) + 2
  {
    TotalBounds(info);
  }

  /** A failed fetch or an empty dictionary scores 0 with the default breakdown. */
  lemma BlankScoresZero(info: Option<Info>)
    requires IsBlank(info)
    ensures Score(info) == 0 && Assess(info) == Defaults
  {
  }

  /** A missing profit margin counts as 0: "Pérdidas" and -3. */
  lemma MissingMarginIsLoss(i: Info)
    requires !IsBlank(Some(i)) && i.profitMargins.None?
    ensures Assess(Some(i))[Profitability] == Losses
    ensures Weight(Assess(Some(i))[Profitability]) == -3
  {
  }

  /** A non-empty dictionary lacking all five keys scores 0, not 2: the missing
      margin alone costs 3. */
  lemma NoRatiosScoresZero(i: Info)
    requires i.otherKeys
    requires i.trailingPE.None? && i.debtToEquity.None? && i.profitMargins.None?
    requires i.dividendYield.None? && i.revenueGrowth.None?
    ensures Total(Assess(Some(i))) == -3
    ensures Score(Some(i)) == 0
    ensures Assess(Some(i)) == Defaults[Profitability := Losses]
  {
  }

  /** The price/earnings rule: a falsy ratio (missing or 0) is "N/A" and adds
      nothing; below 25 (negative ratios included) adds 2; above 50 takes 1;
      from 25 to 50 inclusive is "Normal" and adds nothing. */
  lemma ValuationRule(pe: Option<real>)
    ensures ValuationMark(pe) == NotAvailable <==> !Truthy(pe)
    ensures Weight(ValuationMark(pe)) == 2 <==> Truthy(pe) && pe.value < 25.0
    ensures Weight(ValuationMark(pe)) == -1 <==> Truthy(pe) && pe.value > 50.0
    ensures ValuationMark(pe).FairPE? <==> Truthy(pe) && 25.0 <= pe.value <= 50.0
    ensures ValuationMark(pe).FairPE? ==> Weight(ValuationMark(pe)) == 0
  {
  }

  /** The debt rule: a truthy ratio below 150 adds 2 ("Baja"), one of 150 or
      more takes 2 ("Alta"); missing or 0 is "N/A". */
  lemma DebtRule(debt: Option<real>)
    ensures DebtMark(debt) == LowDebt <==> Truthy(debt) && debt.value < 150.0
    ensures DebtMark(debt) == HighDebt <==> Truthy(debt) && debt.value >= 150.0
    ensures DebtMark(debt) == NotAvailable <==> !Truthy(debt)
    ensures Weight(DebtMark(debt)) == if !Truthy(debt) then 0 else if debt.value < 150.0 then 2 else -2
  {
  }

  /** The margin rule: above 10% adds 2, above 0 adds 1, anything else
      (missing included) takes 3. */
  lemma ProfitRule(margin: Option<real>)
    ensures Weight(ProfitMark(margin)) == 2 <==> margin.GetOr(0.0) > 0.10
    ensures Weight(ProfitMark(margin)) == 1 <==> 0.0 < margin.GetOr(0.0) <= 0.10
    ensures ProfitMark(margin) == Losses <==> margin.GetOr(0.0) <= 0.0
  {
  }

  /** Dividends add 1 only above 2%; growth adds 1 only above 5%, and falling
      revenue is marked "Baja" without a penalty. */
  lemma DividendAndGrowthRules(dividend: Option<real>, growth: Option<real>)
    ensures Weight(DividendMark(dividend)) == (if dividend.Some? && dividend.value > 0.02 then 1 else 0)
    ensures Weight(GrowthMark(growth)) == (if growth.GetOr(0.0) > 0.05 then 1 else 0)
    ensures GrowthMark(growth) == Falling <==> growth.GetOr(0.0) < 0.0
  {
  }

  /** Scoring only rewrites the five default entries: every verdict it reports
      is one its indicator can take. */
  lemma BreakdownShape(info: Option<Info>)
    ensures Assess(info).Keys == Defaults.Keys
    ensures Assess(info)[Valuation] in {NotAvailable} || Assess(info)[Valuation].CheapPE?
         || Assess(info)[Valuation].ExpensivePE? || Assess(info)[Valuation].FairPE?
    ensures Assess(info)[Debt] in {NotAvailable, LowDebt, HighDebt}
    ensures Assess(info)[Profitability] in {NotAvailable, Losses} || Assess(info)[Profitability].HighMargin?
         || Assess(info)[Profitability].ThinMargin?
    ensures !IsBlank(info) ==> Assess(info)[Profitability] != NotAvailable
    ensures Assess(info)[Dividends] == NoDividend || Assess(info)[Dividends].RichDividend?
    ensures Assess(info)[Growth] in {Stagnant, Rising, Falling}
  {
  }

  /** A strong snapshot: every rule adds, the raw score is 8 and the published
      score is the maximum 10. */
  lemma StrongSnapshot()
    ensures Score(Some(Info(Some(20.0), Some(80.0), Some(0.15), Some(0.03), Some(0.08), true))) == 10
  {
  }
}
