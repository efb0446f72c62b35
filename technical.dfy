/** The technical "traffic light" of `calculos.py`: trend against the
    50-sample moving average, damped by recent volatility. */
module Technical {
  import opened Wrappers
  import opened MarketData

  /** ERROR / ROJO / NARANJA / VERDE. */
  datatype State = Error | Red | Orange | Green

  /** The message returned beside the state. */
  datatype Reason = NoData | EmptySeries | Downtrend | HighVolatility | Uptrend

  /** What `analizar_semaforo` returns: state, message, last price and
      volatility (None stands for pandas' NaN). */
  datatype Signal = Signal(state: State, reason: Reason, price: real, volatility: Option<real>)

  /** Length of the moving-average window. */
  const Window: nat := 50

  /** Volatility above this is "high". */
  const VolatilityLimit: real := 0.015

  /** `dropna()`: the samples that are present, in order. */
  function DropMissing(column: Column): (s: seq<real>)
    ensures |s| <= |column|
    ensures forall x :: x in s <==> Some(x) in column
    ensures s == [] <==> forall i :: 0 <= i < |column| ==> column[i].None?
    ensures column != [] && column[|column| - 1].Some? ==> s != [] && s[|s| - 1] == column[|column| - 1].value
  {
    if column == [] then []
    else
      var init := column[..|column| - 1];
      var s := DropMissing(init);
      assert column == init + [column[|column| - 1]];
      assert forall i :: 0 <= i < |init| ==> init[i] == column[i];
      match column[|column| - 1]
      case None => s
      case Some(x) => s + [x]
  }

  /** `dropna()` works sample by sample: cleaning a concatenation cleans
      each part and keeps them in order, so order and repetitions survive. */
  lemma {:induction false} DropMissingAppend(a: Column, b: Column)
    ensures DropMissing(a + b) == DropMissing(a) + DropMissing(b)
    decreases |b|
  {
    if b == [] {
      assert a + b == a;
    } else {
      var init, last := b[..|b| - 1], b[|b| - 1];
      var tail := if last.Some? then [last.value] else [];
      calc {
        DropMissing(a + b);
        { assert a + b == (a + init) + [last]; }
        DropMissing((a + init) + [last]);
        { DropMissingSnoc(a + init, last); }
        DropMissing(a + init) + tail;
        { DropMissingAppend(a, init); }
        DropMissing(a) + DropMissing(init) + tail;
        { DropMissingSnoc(init, last); assert b == init + [last]; }
        DropMissing(a) + DropMissing(b);
      }
    }
  }

  /** Cleaning a column with one more sample at the end. */
  lemma DropMissingSnoc(c: Column, x: Option<real>)
    ensures DropMissing(c + [x]) == DropMissing(c) + (if x.Some? then [x.value] else [])
  {
    assert (c + [x])[..|c|] == c;
  }

  /** After trailing gaps, the cleaned series still ends at the last sample
      that is present: the price `analizar_semaforo` reports. */
  lemma {:induction false} DropMissingLastPresent(column: Column, k: nat)
    requires k < |column| && column[k].Some?
    requires forall j :: k < j < |column| ==> column[j].None?
    ensures DropMissing(column) != [] && DropMissing(column)[|DropMissing(column)| - 1] == column[k].value
    decreases |column|
  {
    if k < |column| - 1 {
      var init := column[..|column| - 1];
      assert column[|column| - 1].None?;
      assert DropMissing(column) == DropMissing(init);
      assert forall j :: k < j < |init| ==> init[j] == column[j];
      DropMissingLastPresent(init, k);
    }
  }

  /** A cleaned single sample is that sample, or nothing when missing. */
  lemma DropOne(x: Option<real>)
    ensures DropMissing([x]) == if x.Some? then [x.value] else []
  {
    assert [x][..0] == [];
  }

  function Sum(s: seq<real>): real {
    if s == [] then 0.0 else Sum(s[..|s| - 1]) + s[|s| - 1]
  }

  /** The last `Window` samples. */
  function LastWindow(s: seq<real>): (w: seq<real>)
    requires |s| >= Window
    ensures |w| == Window
  {
    s[|s| - Window..]
  }

  /** `serie.rolling(window=50).mean().iloc[-1]`, with the missing mean of a
      short series replaced by the last price. */
  function Reference(s: seq<real>): (m: real)
    requires s != []
    ensures |s| < Window ==> m == s[|s| - 1]
  {
    if |s| < Window then s[|s| - 1] else Sum(LastWindow(s)) / Window as real
  }

  /** The verdict rules for a non-empty cleaned series. */
  function Judge(s: seq<real>, volatility: Option<real>): (signal: Signal)
    requires s != []
    ensures signal.price == s[|s| - 1] && signal.volatility == volatility
    ensures signal.state != Error
  {
    var price := s[|s| - 1];
    var mean := Reference(s);
    if price < mean then Signal(Red, Downtrend, price, volatility)
    else if price > mean && volatility.Some? && volatility.value > VolatilityLimit then
      Signal(Orange, HighVolatility, price, volatility)
    else Signal(Green, Uptrend, price, volatility)
  }

  /** `analizar_semaforo`. `volatility` stands for the standard deviation of
      the last 30 daily returns of the cleaned series. */
  function Classify(table: Table, ticker: string, volatility: seq<real> -> Option<real>): (signal: Signal)
    ensures ticker !in table ==> signal == Signal(Error, NoData, 0.0, Some(0.0))
    ensures ticker in table && DropMissing(table[ticker]) == [] ==> signal == Signal(Error, EmptySeries, 0.0, Some(0.0))
    ensures ticker in table && DropMissing(table[ticker]) != [] ==>
      signal == Judge(DropMissing(table[ticker]), volatility(DropMissing(table[ticker])))
  {
    if ticker !in table then Signal(Error, NoData, 0.0, Some(0.0))
    else
      var s := DropMissing(table[ticker]);
      if s == [] then Signal(Error, EmptySeries, 0.0, Some(0.0))
      else Judge(s, volatility(s))
  }

  /** Exactly when each colour is given. */
  lemma JudgeCases(s: seq<real>, volatility: Option<real>)
    requires s != []
    ensures var signal := Judge(s, volatility);
            var price := s[|s| - 1];
            && (signal.state == Red <==> price < Reference(s))
            && (signal.state == Orange <==> price > Reference(s) && volatility.Some? && volatility.value > VolatilityLimit)
            && (signal.state == Green <==> price >= Reference(s) && !(price > Reference(s) && volatility.Some? && volatility.value > VolatilityLimit))
            && (signal.state == Red ==> signal.reason == Downtrend)
            && (signal.state == Orange ==> signal.reason == HighVolatility)
            && (signal.state == Green ==> signal.reason == Uptrend)
  {
  }

  /** Fewer than 50 samples: the mean is the price itself, so the verdict is
      always green, whatever the volatility. */
  lemma ShortHistoryIsGreen(s: seq<real>, volatility: Option<real>)
    requires 0 < |s| < Window
    ensures Judge(s, volatility).state == Green && Judge(s, volatility).reason == Uptrend
  {
  }

  /** A price at the mean, or a volatility not above 0.015 (or NaN), is green
      unless the price is below the mean. */
  lemma GreenBoundary(s: seq<real>, volatility: Option<real>)
    requires s != [] && s[|s| - 1] >= Reference(s)
    requires s[|s| - 1] == Reference(s) || volatility.None? || volatility.value <= VolatilityLimit
    ensures Judge(s, volatility).state == Green
  {
  }

  /** A sum of samples none above `p` is at most `|w| * p`. */
  lemma {:induction false} SumAtMost(w: seq<real>, p: real)
    requires forall i :: 0 <= i < |w| ==> w[i] <= p
    ensures Sum(w) <= |w| as real * p
  {
    if w != [] {
      SumAtMost(w[..|w| - 1], p);
    }
  }

  /** A sum of samples all above `p` is more than `|w| * p` when `w` is not empty. */
  lemma {:induction false} SumAbove(w: seq<real>, p: real)
    requires w != []
    requires forall i :: 0 <= i < |w| ==> w[i] > p
    ensures Sum(w) > |w| as real * p
  {
    if |w| > 1 {
      SumAbove(w[..|w| - 1], p);
    }
  }

  /** A sum of samples all below `p` is less than `|w| * p` when `w` is not empty. */
  lemma {:induction false} SumBelow(w: seq<real>, p: real)
    requires w != []
    requires forall i :: 0 <= i < |w| ==> w[i] < p
    ensures Sum(w) < |w| as real * p
  {
    if |w| > 1 {
      SumBelow(w[..|w| - 1], p);
    }
  }

  /** On a history of 50 samples or more, the moving average lies between
      the samples of its window: one of the last 50 is at or above it and
      one is at or below it. */
  lemma MeanWithinWindow(s: seq<real>)
    requires |s| >= Window
    ensures exists i :: |s| - Window <= i < |s| && s[i] >= Reference(s)
    ensures exists i :: |s| - Window <= i < |s| && s[i] <= Reference(s)
  {
    var w := LastWindow(s);
    var m := Reference(s);
    assert Sum(w) == |w| as real * m;
    if forall i :: 0 <= i < |w| ==> w[i] > m {
      SumAbove(w, m);
    }
    var i :| 0 <= i < |w| && w[i] <= m;
    assert s[|s| - Window + i] == w[i];
    if forall j :: 0 <= j < |w| ==> w[j] < m {
      SumBelow(w, m);
    }
    var j :| 0 <= j < |w| && w[j] >= m;
    assert s[|s| - Window + j] == w[j];
  }

  /** A red verdict means some sample of the last 50 is above the current
      price; a green or orange one on a long history means some sample of the
      last 50 is at or below it. */
  lemma TrendWitness(s: seq<real>, volatility: Option<real>)
    requires |s| >= Window
    ensures Judge(s, volatility).state == Red ==> exists i :: |s| - Window <= i < |s| && s[i] > s[|s| - 1]
    ensures Judge(s, volatility).state != Red ==> exists i :: |s| - Window <= i < |s| && s[i] <= s[|s| - 1]
  {
    var w := LastWindow(s);
    var p := s[|s| - 1];
    if Judge(s, volatility).state == Red {
      if forall i :: 0 <= i < |w| ==> w[i] <= p {
        SumAtMost(w, p);
      }
      var i :| 0 <= i < |w| && w[i] > p;
      assert s[|s| - Window + i] == w[i];
    } else {
      if forall i :: 0 <= i < |w| ==> w[i] > p {
        SumAbove(w, p);
      }
      var i :| 0 <= i < |w| && w[i] <= p;
      assert s[|s| - Window + i] == w[i];
    }
  }

  /** Fifty-nine closes at 100 followed by one at 90 is a downtrend. */
  lemma DropBelowAverage()
    ensures Judge(seq(59, _ => 100.0) + [90.0], Some(0.0)).state == Red
  {
    var s := seq(59, _ => 100.0) + [90.0];
    var w := LastWindow(s);
    assert w[..|w| - 1] == seq(49, _ => 100.0);
    SumConstant(49, 100.0);
  }

  lemma {:induction false} SumConstant(n: nat, x: real)
    ensures Sum(seq(n, _ => x)) == n as real * x
  {
    if n > 0 {
      assert seq(n, _ => x)[..n - 1] == seq(n - 1, _ => x);
      SumConstant(n - 1, x);
    }
  }

  /** `calcular_retorno_acumulado`: 0 for an empty series, otherwise
      `(last - first) / first`; None when the first sample is 0 (pandas
      yields an infinity or NaN there). */
  function CumulativeReturn(s: seq<real>): (r: Option<real>)
    ensures s == [] ==> r == Some(0.0)
    ensures s != [] ==> (r.None? <==> s[0] == 0.0)
    ensures s != [] && r.Some? ==> s[0] * (1.0 + r.value) == s[|s| - 1]
  {
    if s == [] then Some(0.0)
    else if s[0] == 0.0 then None
    else Some((s[|s| - 1] - s[0]) / s[0])
  }

  /** For a positive first price, the return is positive exactly when the
      series ends higher than it started. */
  lemma ReturnSign(s: seq<real>)
    requires s != [] && s[0] > 0.0
    ensures CumulativeReturn(s).Some?
    ensures CumulativeReturn(s).value > 0.0 <==> s[|s| - 1] > s[0]
    ensures CumulativeReturn(s).value == 0.0 <==> s[|s| - 1] == s[0]
  {
  }
}
