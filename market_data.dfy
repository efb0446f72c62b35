/** The reference table and market-data plumbing of datos.py: the ticker/name
    table, the name search, the split of a download into the Madrid (".MC")
    and foreign segments with the merge of their results, and the
    exchange-rate fallback. Provider replies are inputs. */
module MarketData {
  import opened Wrappers
  import opened Strings
  import opened Sequences

  /** One ticker's daily closes on the table's date index; `None` where the
      outer join on dates left no value. */
  type Column = seq<Option<real>>

  /** A price table: one column per ticker symbol. */
  type Table = map<string, Column>

  /** `NOMBRES`, first part: the Madrid (IBEX 35) listings, in insertion order. */
  const Madrid: seq<(string, string)> := [
      ("BBVA.MC", "BBVA"), ("SAN.MC", "Banco Santander"), ("ITX.MC", "Inditex (Zara)"),
      ("TEF.MC", "Telefónica"), ("IBE.MC", "Iberdrola"), ("REP.MC", "Repsol"),
      ("AENA.MC", "Aena"), ("AMS.MC", "Amadeus"), ("FER.MC", "Ferrovial"),
      ("ACS.MC", "ACS"), ("GRF.MC", "Grifols"), ("CLNX.MC", "Cellnex"),
      ("ENG.MC", "Enagás"), ("ELE.MC", "Endesa"), ("MAP.MC", "Mapfre"),
      ("SAB.MC", "Banco Sabadell"), ("BKT.MC", "Bankinter"), ("ACX.MC", "Acerinox"),
      ("MTS.MC", "ArcelorMittal"), ("IAG.MC", "IAG (Iberia)"), ("NTGY.MC", "Naturgy"),
      ("RED.MC", "Red Eléctrica"), ("COL.MC", "Colonial"), ("MER.MC", "Merlin Properties"),
      ("ANA.MC", "Acciona"), ("ANE.MC", "Acciona Energía"), ("LOG.MC", "Logista"),
      ("ROVI.MC", "Rovi"), ("SCYR.MC", "Sacyr"), ("SLR.MC", "Solaria"),
      ("UNI.MC", "Unicaja"), ("FDR.MC", "Fluidra"), ("MEL.MC", "Meliá Hoteles")
    ]

  /** `NOMBRES`, second part: the Wall Street listings, in insertion order. */
  const WallStreet: seq<(string, string)> := [
      ("AAPL", "Apple"), ("MSFT", "Microsoft"), ("GOOGL", "Google (Alphabet)"),
      ("AMZN", "Amazon"), ("TSLA", "Tesla"), ("META", "Meta (Facebook)"),
      ("NVDA", "Nvidia"), ("NFLX", "Netflix"), ("AMD", "AMD"),
      ("INTC", "Intel"), ("KO", "Coca-Cola"), ("PEP", "PepsiCo"),
      ("MCD", "McDonald's"), ("DIS", "Disney"), ("NKE", "Nike"),
      ("SBUX", "Starbucks"), ("WMT", "Walmart"), ("JPM", "JP Morgan"),
      ("V", "Visa"), ("MA", "Mastercard"), ("BRK-B", "Berkshire Hathaway"),
      ("CRM", "Salesforce"), ("ADBE", "Adobe"), ("PYPL", "PayPal")
    ]

  /** `NOMBRES`: ticker symbol and display name, in insertion order. */
  const Names: seq<(string, string)> := Madrid + WallStreet

  /** The symbols of a name table, in table order. */
  function Tickers(table: seq<(string, string)>): (tickers: seq<string>)
    ensures |tickers| == |table|
    ensures forall i :: 0 <= i < |table| ==> tickers[i] == table[i].0
  {
    seq(|table|, i requires 0 <= i < |table| => table[i].0)
  }

  /** `EMPRESAS_SELECCIONADAS`: the table's tickers in insertion order. */
  function Selected(): (tickers: seq<string>)
    ensures |tickers| == |Names|
    ensures forall i :: 0 <= i < |Names| ==> tickers[i] == Names[i].0
  {
    Tickers(Names)
  }

  /** `NOMBRES.get(ticker, ticker)`. */
  function DisplayName(ticker: string): (name: string)
    ensures (exists i :: 0 <= i < |Names| && Names[i].0 == ticker) ==> exists i :: 0 <= i < |Names| && Names[i] == (ticker, name)
    ensures (forall i :: 0 <= i < |Names| ==> Names[i].0 != ticker) ==> name == ticker
  {
    NameIn(Names, ticker)
  }

  function NameIn(table: seq<(string, string)>, ticker: string): (name: string)
    ensures (exists i :: 0 <= i < |table| && table[i].0 == ticker) ==> exists i :: 0 <= i < |table| && table[i] == (ticker, name)
    ensures (forall i :: 0 <= i < |table| ==> table[i].0 != ticker) ==> name == ticker
  {
    if table == [] then ticker
    else if table[0].0 == ticker then table[0].1
    else
      var name := NameIn(table[1..], ticker);
      assert forall i :: 1 <= i < |table| ==> table[i] == table[1..][i - 1];
      name
  }

  // ---------------------------------------------------------------------------
  // encontrar_ticker

  /** The search text: the query stripped and upper-cased. */
  function Normalize(query: string): string {
    Upper(Strip(query))
  }

  /** The upper-cased display name of entry `i` of `table` contains `text`. */
  predicate NameMatches(table: seq<(string, string)>, i: nat, text: string)
    requires i < |table|
  {
    Contains(Upper(table[i].1), text)
  }

  /** The search of `encontrar_ticker` over a name table: a text that is one
      of the table's symbols is returned as is; otherwise the symbol of the
      first entry, in table order, whose upper-cased name contains the text;
      otherwise the text itself. */
  method Search(table: seq<(string, string)>, text: string) returns (ticker: string)
    ensures text in Tickers(table) ==> ticker == text
    ensures text !in Tickers(table) ==>
      (exists i :: 0 <= i < |table| && ticker == table[i].0 && NameMatches(table, i, text)
                   && forall j :: 0 <= j < i ==> !NameMatches(table, j, text))
      || (ticker == text && forall j :: 0 <= j < |table| ==> !NameMatches(table, j, text))
    ensures ticker in Tickers(table) || ticker == text
  {
    if text in Tickers(table) {
      return text;
    }
    for i := 0 to |table|
      invariant forall j :: 0 <= j < i ==> !NameMatches(table, j, text)
    {
      if Contains(Upper(table[i].1), text) {
        return table[i].0;
      }
    }
    return text;
  }

  /** `encontrar_ticker`: the query is stripped and upper-cased, then looked
      up in `NOMBRES`. A blank query normalises to the empty text, which every
      name contains, so it yields the first entry. */
  method FindTicker(query: string) returns (ticker: string)
    ensures Normalize(query) in Selected() ==> ticker == Normalize(query)
    ensures Normalize(query) !in Selected() ==>
      (exists i :: 0 <= i < |Names| && ticker == Names[i].0 && NameMatches(Names, i, Normalize(query))
                   && forall j :: 0 <= j < i ==> !NameMatches(Names, j, Normalize(query)))
      || (ticker == Normalize(query) && forall j :: 0 <= j < |Names| ==> !NameMatches(Names, j, Normalize(query)))
    ensures ticker in Selected() || ticker == Normalize(query)
    ensures AllSpace(query) ==> ticker == "BBVA.MC"
  {
    ticker := Search(Names, Normalize(query));
    if AllSpace(query) {
      BlankQueryIsEmpty(query);
      ContainsEmpty(Upper(Names[0].1));
      assert NameMatches(Names, 0, "");
      assert ticker == Names[0].0;
    }
  }

  /** A query made only of whitespace normalises to the empty text, which is
      not a ticker. */
  lemma BlankQueryIsEmpty(query: string)
    requires AllSpace(query)
    ensures Normalize(query) == "" && "" !in Selected()
  {
    NoEmptyTicker();
    NotATicker(Names, "");
  }

  lemma NotATicker(table: seq<(string, string)>, t: string)
    requires forall i :: 0 <= i < |table| ==> table[i].0 != t
    ensures t !in Tickers(table)
  {
  }

  /** Every symbol of the table is non-empty. */
  lemma NoEmptyTicker()
    ensures forall i :: 0 <= i < |Names| ==> Names[i].0 != ""
  {
    assert forall i :: 0 <= i < |Madrid| ==> |Madrid[i].0| > 0;
    assert forall i :: 0 <= i < |WallStreet| ==> |WallStreet[i].0| > 0;
  }

  // ---------------------------------------------------------------------------
  // descargar_datos

  /** Madrid listings: the symbol contains ".MC". */
  predicate IsSpanish(ticker: string) {
    Contains(ticker, ".MC")
  }

  predicate IsForeign(ticker: string) {
    !Contains(ticker, ".MC")
  }

  /** `lista_es` and `lista_us`. */
  function SpanishTickers(tickers: seq<string>): seq<string> {
    Filter(IsSpanish, tickers)
  }

  function ForeignTickers(tickers: seq<string>): seq<string> {
    Filter(IsForeign, tickers)
  }

  /** The split is a partition: the two lists are disjoint, together hold the
      input exactly, and each keeps the input's order (splitting a
      concatenation splits each part). */
  lemma SplitIsPartition(tickers: seq<string>, more: seq<string>)
    ensures forall t :: !(t in SpanishTickers(tickers) && t in ForeignTickers(tickers))
    ensures multiset(SpanishTickers(tickers)) + multiset(ForeignTickers(tickers)) == multiset(tickers)
    ensures SpanishTickers(tickers + more) == SpanishTickers(tickers) + SpanishTickers(more)
    ensures ForeignTickers(tickers + more) == ForeignTickers(tickers) + ForeignTickers(more)
  {
    FilterSplit(IsSpanish, IsForeign, tickers);
    FilterAppend(IsSpanish, tickers, more);
    FilterAppend(IsForeign, tickers, more);
  }

  /** Every Madrid symbol ends in ".MC". */
  lemma MadridSuffix()
    ensures forall i :: 0 <= i < |Madrid| ==> EndsWith(Madrid[i].0, ".MC")
  {
  }

  /** No Wall Street symbol contains a dot. */
  lemma WallStreetNoDot()
    ensures forall i, j :: 0 <= i < |WallStreet| && 0 <= j < |WallStreet[i].0| ==> WallStreet[i].0[j] != '.'
  {
  }

  /** For every listed symbol, the substring test that splits downloads
      (`".MC" in t`) and the suffix test that the pages use to decide on
      currency conversion (`t.endswith(".MC")`) agree. */
  lemma ListedMarketsAgree()
    ensures forall i :: 0 <= i < |Names| ==> (IsSpanish(Names[i].0) <==> EndsWith(Names[i].0, ".MC"))
  {
    MadridSuffix();
    WallStreetNoDot();
    forall i | 0 <= i < |Names|
      ensures IsSpanish(Names[i].0) <==> EndsWith(Names[i].0, ".MC")
    {
      if i < |Madrid| {
        assert Names[i] == Madrid[i];
        EndsWithContains(Madrid[i].0, ".MC");
      } else {
        var t := WallStreet[i - |Madrid|].0;
        assert Names[i].0 == t;
        LacksFirstChar(t, ".MC");
      }
    }
  }

  /** What a provider download returned once reduced to its closes: an
      unlabelled single series, a table of labelled columns, or an exception. */
  datatype Reply = Raised | Series(values: Column) | Frame(columns: Table)

  /** `df.empty`: no columns, or no rows. */
  predicate IsEmpty(table: Table) {
    forall k :: k in table ==> table[k] == []
  }

  /** The one column of a one-column table. */
  function OnlyColumn(columns: Table): (c: Column)
    requires |columns| == 1
    ensures forall k :: k in columns ==> columns[k] == c
  {
    var k :| k in columns;
    SingleKey(columns, k);
    columns[k]
  }

  lemma SingleKey(columns: Table, k: string)
    requires |columns| == 1 && k in columns
    ensures columns.Keys == {k}
  {
    assert |columns.Keys - {k}| == 0;
  }

  /** `procesar_descarga`: an empty request or an exception gives an empty
      table; a single series is labelled with the requested symbols (which
      raises, and so gives an empty table, unless exactly one was requested);
      a one-column table for a one-ticker request is relabelled with it. */
  function Process(requested: seq<string>, reply: Reply): (table: Table)
    ensures requested == [] || reply.Raised? ==> table == map[]
    ensures |requested| == 1 && reply.Series? ==> table == map[requested[0] := reply.values]
    ensures |requested| == 1 && reply.Frame? && |reply.columns| == 1 ==>
      table.Keys == {requested[0]} && exists k :: k in reply.columns && table[requested[0]] == reply.columns[k]
  {
    if requested == [] then map[]
    else match reply
      case Raised => map[]
      case Series(values) => if |requested| == 1 then map[requested[0] := values] else map[]
      case Frame(columns) =>
        if |columns| == 1 && |requested| == 1 then map[requested[0] := OnlyColumn(columns)] else columns
  }

  /** The `pd.concat` of the two segments: each is merged in only when it
      is not empty. */
  function Merge(es: Table, us: Table): Table {
    (if IsEmpty(es) then map[] else es) + (if IsEmpty(us) then map[] else us)
  }

  /** `descargar_datos`, with the two provider replies as inputs: each segment
      is processed on its own and merged in only when it is not empty. */
  method Download(tickers: seq<string>, spanishReply: Reply, foreignReply: Reply) returns (table: Table)
    ensures table == Merge(Process(SpanishTickers(tickers), spanishReply), Process(ForeignTickers(tickers), foreignReply))
  {
    var es := Process(SpanishTickers(tickers), spanishReply);
    var us := Process(ForeignTickers(tickers), foreignReply);
    table := map[];
    if !IsEmpty(es) {
      table := table + es;
    }
    if !IsEmpty(us) {
      table := table + us;
    }
  }

  /** A segment whose download raises or comes back empty contributes
      nothing, and the other segment still comes through whole (or the
      table is empty when that one is empty too). */
  lemma FailedSegmentIsolated(tickers: seq<string>, spanishReply: Reply, foreignReply: Reply)
    ensures var es := Process(SpanishTickers(tickers), spanishReply);
            var us := Process(ForeignTickers(tickers), foreignReply);
            && (spanishReply.Raised? || IsEmpty(es) ==> Merge(es, us) == (if IsEmpty(us) then map[] else us))
            && (foreignReply.Raised? || IsEmpty(us) ==> Merge(es, us) == (if IsEmpty(es) then map[] else es))
  {
    var es := Process(SpanishTickers(tickers), spanishReply);
    var us := Process(ForeignTickers(tickers), foreignReply);
    assert map[] + us == us && es + map[] == es;
  }

  /** One Madrid and one foreign ticker, the foreign download raising: the
      table holds exactly the Madrid column. */
  lemma MadridOnlyWhenForeignFails(closes: Column)
    requires closes != []
    ensures var tickers := ["SAN.MC", "AAPL"];
            Merge(Process(SpanishTickers(tickers), Series(closes)), Process(ForeignTickers(tickers), Raised))
              == map["SAN.MC" := closes]
  {
    SplitExample();
  }

  lemma SplitExample()
    ensures SpanishTickers(["SAN.MC", "AAPL"]) == ["SAN.MC"]
    ensures ForeignTickers(["SAN.MC", "AAPL"]) == ["AAPL"]
  {
    var tickers := ["SAN.MC", "AAPL"];
    assert OccursAt(".MC", "SAN.MC", 3);
    LacksFirstChar("AAPL", ".MC");
    assert tickers[1..] == ["AAPL"] && tickers[1..][1..] == [];
  }

  // ---------------------------------------------------------------------------
  // obtener_precio_dolar

  /** The euro value of one dollar: the inverse of the EUR/USD quote, or 1.0
      when the quote could not be fetched. */
  function ExchangeFactor(quote: Option<real>): (factor: real)
    requires quote.Some? ==> quote.value != 0.0
    ensures quote.None? ==> factor == 1.0
    ensures quote.Some? ==> factor * quote.value == 1.0
  {
    match quote
    case None => 1.0
    case Some(rate) => 1.0 / rate
  }
}
