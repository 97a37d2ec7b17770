/** The chart component: it picks the payload out of a chat reply, tells a company snapshot
    from a price series, derives the per-point and summary figures of a series, and builds the
    context object that "Ask about this chart" hands back to the chat page. Everything here is
    a pure function of the reply. */
module DynamicChart {
  import opened Wrappers
  import opened JsValue

  const SEARCH_COMPANY: string := "search_company_stocks"
  const DETAILED_PRICES: string := "detailed_company_stock_prices"
  const VOLUME_ANALYSIS: string := "stock_volume_analysis"
  const PRICE_RANGE: string := "price_range_analysis"

  /** The fields a snapshot context keeps, in the order the context object lists them. */
  const SNAPSHOT_FIELDS: seq<string> :=
    ["tadawulID", "companyID", "companyName", "sector", "acrynomName", "argaamID",
     "companyNameAr", "sectorAr", "price", "change", "changePercent"]

  /** The fields a series context keeps for each point. */
  const POINT_FIELDS: seq<string> := ["date", "open", "high", "low", "close", "volume"]

  /** The fields normalisation adds to each point. */
  const DERIVED_FIELDS: seq<string> := ["displayDate", "fullDate", "change", "changePercent"]

  // ------------------------------------------------------------ payload

  /** `data.stocks || data.data || data`, where `data` is the reply's `data` object. (The
      series computation appends `|| []`, which never applies: `data` is an object.) */
  function Payload(data: Props): (p: Value)
    ensures Truthy(Lookup(data, "stocks")) ==> p == Lookup(data, "stocks")
    ensures !Truthy(Lookup(data, "stocks")) && Truthy(Lookup(data, "data")) ==> p == Lookup(data, "data")
    ensures !Truthy(Lookup(data, "stocks")) && !Truthy(Lookup(data, "data")) ==> p == Obj(data)
    ensures Truthy(p)
  {
    Or(Lookup(data, "stocks"), Or(Lookup(data, "data"), Obj(data)))
  }

  /** A payload is a company snapshot when it is a non-array object with a `companyID`
      property (whatever that property's value). */
  predicate IsSnapshot(p: Value)
  {
    p.Obj? && HasKey(p.props, "companyID")
  }

  /** `companyInfo`: the snapshot object itself, or null. */
  function CompanyInfo(data: Props): (info: Option<Props>)
    ensures info.Some? <==> IsSnapshot(Payload(data))
    ensures info.Some? ==> Payload(data) == Obj(info.value)
  {
    var p := Payload(data);
    if IsSnapshot(p) then Some(p.props) else None
  }

  // ------------------------------------------------------- normalisation

  /** The properties `{...v}` copies: an object's own properties, the indexed elements of an
      array or the characters of a string; none for other values. */
  function Spread(v: Value): (ps: Props)
    ensures v.Obj? ==> ps == v.props
  {
    match v
    case Obj(ps) => ps
    case Arr(es) => Indexed(seq(|es|, i requires 0 <= i < |es| => es[i]), 0)
    case Str(s) => Indexed(seq(|s|, i requires 0 <= i < |s| => Str([s[i]])), 0)
    case _ => []
  }

  function Indexed(vs: seq<Value>, from: nat): Props
    decreases |vs|
  {
    if vs == [] then [] else [Prop(IndexKey(from), vs[0])] + Indexed(vs[1..], from + 1)
  }

  /** The property name of an array index: decimal digits. */
  function IndexKey(n: nat): (k: string)
    ensures k != [] && '0' <= k[0] <= '9'
    decreases n
  {
    if n < 10 then ["0123456789"[n]] else IndexKey(n / 10) + ["0123456789"[n % 10]]
  }

  /** A key that no array index or string position can have. */
  predicate NotIndexKey(k: string)
  {
    k == [] || !('0' <= k[0] <= '9')
  }

  lemma {:induction false} IndexedMisses(vs: seq<Value>, from: nat, k: string)
    requires NotIndexKey(k)
    ensures Lookup(Indexed(vs, from), k) == Undefined
    decreases |vs|
  {
    if vs != [] {
      var key := IndexKey(from);
      assert key != k;
      IndexedMisses(vs[1..], from + 1, k);
    }
  }

  /** Spreading anything but an object gives no property under a key that is not an index. */
  lemma SpreadMisses(v: Value, k: string)
    requires !v.Obj? && NotIndexKey(k)
    ensures Lookup(Spread(v), k) == Undefined
  {
    match v
    case Arr(es) => IndexedMisses(seq(|es|, i requires 0 <= i < |es| => es[i]), 0, k);
    case Str(s) => IndexedMisses(seq(|s|, i requires 0 <= i < |s| => Str([s[i]])), 0, k);
    case _ =>
  }

  /** Reading a property of `null` or `undefined` throws a TypeError. */
  predicate Nullish(v: Value)
  {
    v.Undefined? || v.Null?
  }

  function Close(v: Value): Number { ToNumber(Get(v, "close")) }
  function Open(v: Value): Number { ToNumber(Get(v, "open")) }

  /** `change / base * 100`. */
  function PercentChange(change: Number, base: Number): Number
  {
    Mul(Div(change, base), Finite(100.0))
  }

  /** One series point after normalisation: a copy of the point with `displayDate` (the label
      `dateLabel` makes of `date`), `fullDate`, `change` and `changePercent` set. */
  function NormalizePoint(item: Value, dateLabel: Value -> string): (pt: Props)
    requires !Nullish(item)
    ensures Lookup(pt, "displayDate") == Str(dateLabel(Get(item, "date")))
    ensures Lookup(pt, "fullDate") == Get(item, "date")
    ensures Lookup(pt, "change") == Num(Sub(Close(item), Open(item)))
    ensures Lookup(pt, "changePercent") == Num(PercentChange(Sub(Close(item), Open(item)), Open(item)))
  {
    var change := Sub(Close(item), Open(item));
    var withLabel := Put(Spread(item), "displayDate", Str(dateLabel(Get(item, "date"))));
    var withDate := Put(withLabel, "fullDate", Get(item, "date"));
    var withChange := Put(withDate, "change", Num(change));
    var percent := Num(PercentChange(change, Open(item)));
    LookupPastThreePuts(withLabel, "fullDate", Get(item, "date"), "change", Num(change),
                        "changePercent", percent, "displayDate");
    LookupPastTwoPuts(withDate, "change", Num(change), "changePercent", percent, "fullDate");
    LookupPastPut(withChange, "changePercent", percent, "change");
    Put(withChange, "changePercent", percent)
  }

  predicate NoNullish(items: seq<Value>)
  {
    forall i :: 0 <= i < |items| ==> !Nullish(items[i])
  }

  /** The `map` of `processedData` over a series; `None` when it throws on a null or
      undefined element. */
  function NormalizeSeries(items: seq<Value>, dateLabel: Value -> string): (r: Option<seq<Props>>)
    ensures r.Some? <==> NoNullish(items)
    ensures r.Some? ==> |r.value| == |items|
    ensures r.Some? ==> forall i :: 0 <= i < |items| ==> r.value[i] == NormalizePoint(items[i], dateLabel)
  {
    if items == [] then Some([])
    else if Nullish(items[0]) then None
    else
      match NormalizeSeries(items[1..], dateLabel)
      case None => NoNullishTail(items); None
      case Some(rest) =>
        NormalizedCons(items, dateLabel, rest);
        Some([NormalizePoint(items[0], dateLabel)] + rest)
  }

  lemma NoNullishTail(items: seq<Value>)
    requires items != []
    ensures NoNullish(items) ==> NoNullish(items[1..])
  {
    assert forall i :: 1 <= i < |items| ==> items[1..][i - 1] == items[i];
  }

  /** Normalising the head of a series and prepending it to the normalised tail. */
  lemma NormalizedCons(items: seq<Value>, dateLabel: Value -> string, rest: seq<Props>)
    requires items != [] && !Nullish(items[0]) && NoNullish(items[1..])
    requires |rest| == |items| - 1
    requires forall i :: 0 <= i < |rest| ==> rest[i] == NormalizePoint(items[1..][i], dateLabel)
    ensures NoNullish(items)
    ensures forall i :: 0 <= i < |items| ==>
      ([NormalizePoint(items[0], dateLabel)] + rest)[i] == NormalizePoint(items[i], dateLabel)
  {
    forall i | 1 <= i < |items| ensures !Nullish(items[i]) && items[i] == items[1..][i - 1] {
      assert items[1..][i - 1] == items[i];
    }
  }

  /** `processedData`: `None` when computing it throws, an empty series for a snapshot or a
      non-array payload, else the normalised points. */
  function ProcessedData(data: Props, dateLabel: Value -> string): (r: Option<seq<Props>>)
    ensures r.None? <==> Payload(data).Arr? && !NoNullish(Payload(data).elems)
    ensures r.Some? && r.value != [] ==>
      Payload(data).Arr? && !IsSnapshot(Payload(data)) && |r.value| == |Payload(data).elems|
    ensures Payload(data).Arr? && !IsSnapshot(Payload(data)) ==>
      r == NormalizeSeries(Payload(data).elems, dateLabel)
  {
    var p := Payload(data);
    if IsSnapshot(p) || !p.Arr? then Some([])
    else NormalizeSeries(p.elems, dateLabel)
  }

  /** The classification is exclusive: a snapshot has an empty series, a non-empty series
      comes from an array payload, and any payload that is neither yields an empty series
      without throwing. */
  lemma Classification(data: Props, dateLabel: Value -> string)
    ensures CompanyInfo(data).Some? ==> ProcessedData(data, dateLabel) == Some([])
    ensures !Payload(data).Arr? ==> ProcessedData(data, dateLabel) == Some([])
    ensures CompanyInfo(data).Some? ==> !Payload(data).Arr?
    ensures ProcessedData(data, dateLabel).Some? && ProcessedData(data, dateLabel).value != [] ==>
      Payload(data).Arr? && CompanyInfo(data).None?
    ensures ProcessedData(data, dateLabel).None? <==>
      Payload(data).Arr? && !NoNullish(Payload(data).elems)
  {
  }

  lemma LookupPastPut(ps: Props, k1: string, v1: Value, k: string)
    requires k != k1
    ensures Lookup(Put(ps, k1, v1), k) == Lookup(ps, k)
  {
  }

  lemma LookupPastTwoPuts(ps: Props, k1: string, v1: Value, k2: string, v2: Value, k: string)
    requires k != k1 && k != k2
    ensures Lookup(Put(Put(ps, k1, v1), k2, v2), k) == Lookup(ps, k)
  {
  }

  lemma LookupPastThreePuts(ps: Props, k1: string, v1: Value, k2: string, v2: Value,
                            k3: string, v3: Value, k: string)
    requires k != k1 && k != k2 && k != k3
    ensures Lookup(Put(Put(Put(ps, k1, v1), k2, v2), k3, v3), k) == Lookup(ps, k)
  {
  }

  /** Every property of a point other than the four derived ones keeps its value; for a
      point that is not an object (a number, a string, an array) every such field that is
      not an index reads `undefined`, as `item.k` does. */
  lemma NormalizePointKeeps(item: Value, dateLabel: Value -> string, k: string)
    requires !Nullish(item) && k !in DERIVED_FIELDS && (item.Obj? || NotIndexKey(k))
    ensures Lookup(NormalizePoint(item, dateLabel), k) == Get(item, k)
  {
    var change := Sub(Close(item), Open(item));
    var withLabel := Put(Spread(item), "displayDate", Str(dateLabel(Get(item, "date"))));
    var withDate := Put(withLabel, "fullDate", Get(item, "date"));
    var withChange := Put(withDate, "change", Num(change));
    var percent := Num(PercentChange(change, Open(item)));
    assert k != "displayDate" && k != "fullDate" && k != "change" && k != "changePercent";
    LookupPastPut(withChange, "changePercent", percent, k);
    LookupPastThreePuts(Spread(item), "displayDate", Str(dateLabel(Get(item, "date"))),
                        "fullDate", Get(item, "date"), "change", Num(change), k);
    if !item.Obj? {
      SpreadMisses(item, k);
    }
  }

  /** Normalisation keeps every property of the original point where it was; new derived
      fields come after them. */
  lemma NormalizePointKeys(item: Value, dateLabel: Value -> string)
    requires item.Obj?
    ensures var pt := NormalizePoint(item, dateLabel);
      |item.props| <= |pt| && Keys(pt)[..|item.props|] == Keys(item.props)
  {
    var change := Sub(Close(item), Open(item));
    var p0 := item.props;
    var p1 := Put(p0, "displayDate", Str(dateLabel(Get(item, "date"))));
    var p2 := Put(p1, "fullDate", Get(item, "date"));
    var p3 := Put(p2, "change", Num(change));
    var p4 := Put(p3, "changePercent", Num(PercentChange(change, Open(item))));
    assert p4 == NormalizePoint(item, dateLabel);
    PutKeysPrefix(p0, "displayDate", Str(dateLabel(Get(item, "date"))));
    PutKeysPrefix(p1, "fullDate", Get(item, "date"));
    PutKeysPrefix(p2, "change", Num(change));
    PutKeysPrefix(p3, "changePercent", Num(PercentChange(change, Open(item))));
    KeysPrefixTrans(p0, p1, p2);
    KeysPrefixTrans(p0, p2, p3);
    KeysPrefixTrans(p0, p3, p4);
  }

  lemma KeysPrefixTrans(a: Props, b: Props, c: Props)
    requires |a| <= |b| <= |c|
    requires Keys(b)[..|a|] == Keys(a) && Keys(c)[..|b|] == Keys(b)
    ensures Keys(c)[..|a|] == Keys(a)
  {
    assert Keys(c)[..|a|] == Keys(c)[..|b|][..|a|];
  }

  lemma PutKeysPrefix(ps: Props, k: string, v: Value)
    ensures |ps| <= |Put(ps, k, v)| && Keys(Put(ps, k, v))[..|ps|] == Keys(ps)
  {
    PutKeys(ps, k, v);
  }

  /** With finite operands, a change over a base is the quotient times 100 when the base is
      not zero. Nothing guards a zero base: the percentage is then an infinity with the sign
      of the change, or NaN when the change is zero too. */
  lemma PercentFigures(change: Number, base: Number)
    requires change.Finite? && base.Finite?
    ensures base.r != 0.0 ==> PercentChange(change, base) == Finite(change.r / base.r * 100.0)
    ensures base.r == 0.0 && change.r > 0.0 ==> PercentChange(change, base) == PosInf
    ensures base.r == 0.0 && change.r < 0.0 ==> PercentChange(change, base) == NegInf
    ensures base.r == 0.0 && change.r == 0.0 ==> PercentChange(change, base) == NaN
  {
  }

  // ------------------------------------------------------------ summary

  /** `Math.max(...xs)`: -Infinity for no arguments, NaN as soon as one argument is NaN. */
  function MaxAll(xs: seq<Number>): Number
  {
    if xs == [] then NegInf else Max(MaxAll(xs[..|xs| - 1]), xs[|xs| - 1])
  }

  /** `Math.min(...xs)`. */
  function MinAll(xs: seq<Number>): Number
  {
    if xs == [] then PosInf else Min(MinAll(xs[..|xs| - 1]), xs[|xs| - 1])
  }

  predicate AnyNaN(xs: seq<Number>)
  {
    exists i :: 0 <= i < |xs| && xs[i].NaN?
  }

  lemma {:induction false} MaxAllIsMax(xs: seq<Number>)
    ensures AnyNaN(xs) ==> MaxAll(xs).NaN?
    ensures !AnyNaN(xs) ==> !MaxAll(xs).NaN? && forall i :: 0 <= i < |xs| ==> Below(xs[i], MaxAll(xs))
    ensures !AnyNaN(xs) && xs != [] ==> exists i :: 0 <= i < |xs| && MaxAll(xs) == xs[i]
  {
    if xs != [] {
      var init := xs[..|xs| - 1];
      MaxAllIsMax(init);
      assert forall i :: 0 <= i < |init| ==> init[i] == xs[i];
      if AnyNaN(xs) && !xs[|xs| - 1].NaN? {
        var i :| 0 <= i < |xs| && xs[i].NaN?;
        assert init[i].NaN?;
      }
      if !AnyNaN(xs) {
        assert !AnyNaN(init);
        var m := MaxAll(xs);
        forall i | 0 <= i < |xs| ensures Below(xs[i], m) {
          if i < |init| { BelowTransitive(xs[i], MaxAll(init), m); }
        }
        if init != [] && m == MaxAll(init) {
          var i :| 0 <= i < |init| && MaxAll(init) == init[i];
          assert m == xs[i];
        }
      }
    }
  }

  lemma {:induction false} MinAllIsMin(xs: seq<Number>)
    ensures AnyNaN(xs) ==> MinAll(xs).NaN?
    ensures !AnyNaN(xs) ==> !MinAll(xs).NaN? && forall i :: 0 <= i < |xs| ==> Below(MinAll(xs), xs[i])
    ensures !AnyNaN(xs) && xs != [] ==> exists i :: 0 <= i < |xs| && MinAll(xs) == xs[i]
  {
    if xs != [] {
      var init := xs[..|xs| - 1];
      MinAllIsMin(init);
      assert forall i :: 0 <= i < |init| ==> init[i] == xs[i];
      if AnyNaN(xs) && !xs[|xs| - 1].NaN? {
        var i :| 0 <= i < |xs| && xs[i].NaN?;
        assert init[i].NaN?;
      }
      if !AnyNaN(xs) {
        assert !AnyNaN(init);
        var m := MinAll(xs);
        forall i | 0 <= i < |xs| ensures Below(m, xs[i]) {
          if i < |init| { BelowTransitive(m, MinAll(init), xs[i]); }
        }
        if init != [] && m == MinAll(init) {
          var i :| 0 <= i < |init| && MinAll(init) == init[i];
          assert m == xs[i];
        }
      }
    }
  }

  lemma BelowTransitive(a: Number, b: Number, c: Number)
    requires !a.NaN? && !b.NaN? && !c.NaN?
    requires Below(a, b) && Below(b, c)
    ensures Below(a, c)
  {
  }

  /** `ps.map((d) => d.k)`, each value read as a number by `Math.max` or `Math.min`. */
  function Field(ps: seq<Props>, k: string): (xs: seq<Number>)
    ensures |xs| == |ps| && forall i :: 0 <= i < |ps| ==> xs[i] == ToNumber(Lookup(ps[i], k))
  {
    if ps == [] then [] else [ToNumber(Lookup(ps[0], k))] + Field(ps[1..], k)
  }

  /** The figures the series card shows besides the chart. */
  datatype Summary = Summary(
    overallChange: Number,
    overallChangePercent: Number,
    rising: bool,
    latestClose: Value,
    latestOpen: Value,
    high: Number,
    low: Number,
    volumeMillions: Number)

  /** `x || 0` on a number: NaN and zero become zero. */
  function OrZero(x: Number): Number
  {
    if x == NaN then Finite(0.0) else x
  }

  /** The figures of a series: the percentage is never NaN, a single point has no overall
      change, and the card shows a rise exactly when the overall change is not negative. */
  function Summarize(ps: seq<Props>): (s: Summary)
    requires |ps| >= 1
    ensures !s.overallChangePercent.NaN?
    ensures |ps| == 1 ==> s.overallChange.NaN?
  {
    var latest := ps[|ps| - 1];
    var previous := if |ps| >= 2 then ps[|ps| - 2] else [];
    var prevClose := ToNumber(Lookup(previous, "close"));
    var change := Sub(ToNumber(Lookup(latest, "close")), prevClose);
    Summary(
      change,
      OrZero(PercentChange(change, prevClose)),
      !change.NaN? && Below(Finite(0.0), change),
      Lookup(latest, "close"),
      Lookup(latest, "open"),
      MaxAll(Field(ps, "high")),
      MinAll(Field(ps, "low")),
      Div(ToNumber(Lookup(latest, "volume")), Finite(1000000.0)))
  }

  /** With two or more points and finite closes, the overall change is the last close minus
      the one before it, and the percentage is that change over the earlier close times 100,
      zero when both are zero, and an infinity when only the earlier close is zero. */
  lemma SummaryOfSeries(ps: seq<Props>)
    requires |ps| >= 2
    requires ToNumber(Lookup(ps[|ps| - 1], "close")).Finite?
    requires ToNumber(Lookup(ps[|ps| - 2], "close")).Finite?
    ensures var last, prev := ToNumber(Lookup(ps[|ps| - 1], "close")).r, ToNumber(Lookup(ps[|ps| - 2], "close")).r;
      var s := Summarize(ps);
      && s.overallChange == Finite(last - prev)
      && (prev != 0.0 ==> s.overallChangePercent == Finite((last - prev) / prev * 100.0))
      && (prev == 0.0 && last == 0.0 ==> s.overallChangePercent == Finite(0.0))
      && (prev == 0.0 && last != 0.0 ==> s.overallChangePercent.PosInf? || s.overallChangePercent.NegInf?)
      && (s.rising <==> last >= prev)
  {
    var latest, previous := ps[|ps| - 1], ps[|ps| - 2];
    var change := Sub(ToNumber(Lookup(latest, "close")), ToNumber(Lookup(previous, "close")));
    PercentFigures(change, ToNumber(Lookup(previous, "close")));
  }

  /** The header's latest close, the footer's latest open and the volume figure are those of
      the series' last point as the reply sent it: normalisation leaves them alone. */
  lemma SummaryLatest(items: seq<Value>, dateLabel: Value -> string)
    requires NoNullish(items) && items != []
    ensures var s := Summarize(NormalizeSeries(items, dateLabel).value);
      var last := items[|items| - 1];
      && s.latestClose == Get(last, "close")
      && s.latestOpen == Get(last, "open")
      && s.volumeMillions == Div(ToNumber(Get(last, "volume")), Finite(1000000.0))
  {
    var last := items[|items| - 1];
    var ps := NormalizeSeries(items, dateLabel).value;
    var pt := NormalizePoint(last, dateLabel);
    assert ps[|ps| - 1] == pt;
    SummaryOfLatest(ps);
    PriceFieldsKept(last, dateLabel);
  }

  lemma SummaryOfLatest(ps: seq<Props>)
    requires |ps| >= 1
    ensures var s, latest := Summarize(ps), ps[|ps| - 1];
      && s.latestClose == Lookup(latest, "close")
      && s.latestOpen == Lookup(latest, "open")
      && s.volumeMillions == Div(ToNumber(Lookup(latest, "volume")), Finite(1000000.0))
  {
  }

  /** A field named by a word (not an index) and not derived keeps its value. */
  lemma FieldKept(item: Value, dateLabel: Value -> string, k: string)
    requires !Nullish(item) && k in POINT_FIELDS
    ensures Lookup(NormalizePoint(item, dateLabel), k) == Get(item, k)
  {
    assert k !in DERIVED_FIELDS && NotIndexKey(k);
    NormalizePointKeeps(item, dateLabel, k);
  }

  /** With a single point there is no earlier close: the overall change is NaN and only the
      percentage falls back to zero. */
  lemma SummaryOfOnePoint(ps: seq<Props>)
    requires |ps| == 1
    ensures Summarize(ps).overallChange.NaN?
    ensures Summarize(ps).overallChangePercent == Finite(0.0)
    ensures !Summarize(ps).rising
  {
  }

  /** The High figure is the largest `high` of the whole series, one of the points' own
      values; it is NaN exactly when some point's `high` is not a number. */
  lemma SummaryHigh(ps: seq<Props>)
    requires |ps| >= 1
    ensures Summarize(ps).high.NaN? <==> AnyNaN(Field(ps, "high"))
    ensures !AnyNaN(Field(ps, "high")) ==> forall i :: 0 <= i < |ps| ==> Below(Field(ps, "high")[i], Summarize(ps).high)
    ensures !AnyNaN(Field(ps, "high")) ==> exists i :: 0 <= i < |ps| && Summarize(ps).high == Field(ps, "high")[i]
  {
    MaxAllIsMax(Field(ps, "high"));
  }

  /** The Low figure is the smallest `low` of the whole series. */
  lemma SummaryLow(ps: seq<Props>)
    requires |ps| >= 1
    ensures Summarize(ps).low.NaN? <==> AnyNaN(Field(ps, "low"))
    ensures !AnyNaN(Field(ps, "low")) ==> forall i :: 0 <= i < |ps| ==> Below(Summarize(ps).low, Field(ps, "low")[i])
    ensures !AnyNaN(Field(ps, "low")) ==> exists i :: 0 <= i < |ps| && Summarize(ps).low == Field(ps, "low")[i]
  {
    MinAllIsMin(Field(ps, "low"));
  }

  // ------------------------------------------------------------ rendering

  datatype SeriesKind = PriceHistory | VolumeAnalysis | PriceRange | Unsupported

  /** The chart `renderChart` draws for a chart tag. */
  function KindOf(chart: Value): SeriesKind
  {
    if chart == Str(DETAILED_PRICES) then PriceHistory
    else if chart == Str(VOLUME_ANALYSIS) then VolumeAnalysis
    else if chart == Str(PRICE_RANGE) then PriceRange
    else Unsupported
  }

  /** `getChartTitle`: the company name, else the symbol, else "Stock", followed by what the
      chart shows; "Stock Analysis" for any other tag. */
  function ChartTitle(chart: Value, companyName: string, symbol: string): (title: string)
    ensures KindOf(chart) == Unsupported ==> title == "Stock Analysis"
    ensures KindOf(chart) != Unsupported ==>
      var name := if companyName != "" then companyName else if symbol != "" then symbol else "Stock";
      |name| <= |title| && title[..|name|] == name
  {
    var name := if companyName != "" then companyName else if symbol != "" then symbol else "Stock";
    match KindOf(chart)
    case PriceHistory => name + " Price History"
    case VolumeAnalysis => name + " Volume Analysis"
    case PriceRange => name + " Price Range Analysis"
    case Unsupported => "Stock Analysis"
  }

  /** What the component renders for a reply. `Throws` is a render that raises a TypeError. */
  datatype View =
    | Throws
    | Hidden
    | CompanyCard(info: Props)
    | NoChartData
    | SeriesCard(title: string, kind: SeriesKind, points: seq<Props>, summary: Summary)

  /** `v.toFixed(2)` succeeds only on a number. */
  predicate Formats(v: Value)
  {
    v.Num?
  }

  /** `v?.toFixed(2)` also accepts null and undefined. */
  predicate FormatsOptional(v: Value)
  {
    v.Undefined? || v.Null? || v.Num?
  }

  /** The company card formats the price, the change and the change percentage. */
  predicate CardFormats(info: Props)
  {
    Formats(Lookup(info, "price")) && Formats(Lookup(info, "change")) && Formats(Lookup(info, "changePercent"))
  }

  /** The series card formats the latest close and open with optional chaining. */
  predicate HeaderFormats(latest: Props)
  {
    FormatsOptional(Lookup(latest, "close")) && FormatsOptional(Lookup(latest, "open"))
  }

  /** The component's render: the memoised series is computed first, so a series that throws
      breaks the render even when there is no chart tag. */
  function Render(data: Props, companyName: string, symbol: string, dateLabel: Value -> string): (v: View)
    ensures v.SeriesCard? ==>
      && Truthy(Lookup(data, "chart")) && Payload(data).Arr? && Payload(data).elems != []
      && Some(v.points) == NormalizeSeries(Payload(data).elems, dateLabel)
      && v.title == ChartTitle(Lookup(data, "chart"), companyName, symbol)
      && v.kind == KindOf(Lookup(data, "chart"))
      && v.summary == Summarize(v.points)
  {
    var chart := Lookup(data, "chart");
    match ProcessedData(data, dateLabel)
    case None => Throws
    case Some(ps) =>
      if !Truthy(chart) then Hidden
      else if chart == Str(SEARCH_COMPANY) && CompanyInfo(data).Some? then
        (if CardFormats(CompanyInfo(data).value) then CompanyCard(CompanyInfo(data).value) else Throws)
      else if ps == [] then NoChartData
      else if !HeaderFormats(ps[|ps| - 1]) then Throws
      else SeriesCard(ChartTitle(chart, companyName, symbol), KindOf(chart), ps, Summarize(ps))
  }

  /** A null or undefined series element breaks the render whatever the tag; otherwise an
      untagged reply renders nothing, the company card is shown exactly for a company search
      whose payload is a snapshot with numeric price figures. */
  lemma RenderCases(data: Props, companyName: string, symbol: string, dateLabel: Value -> string)
    ensures var v := Render(data, companyName, symbol, dateLabel);
      var chart, p := Lookup(data, "chart"), Payload(data);
      var company := chart == Str(SEARCH_COMPANY) && IsSnapshot(p);
      && (p.Arr? && !NoNullish(p.elems) ==> v.Throws?)
      && (!(p.Arr? && !NoNullish(p.elems)) ==> (v.Hidden? <==> !Truthy(chart)))
      && (v.CompanyCard? <==> Truthy(chart) && company && CardFormats(p.props))
      && (v.CompanyCard? ==> Obj(v.info) == p)
  {
  }

  /** "No chart data" is shown exactly for a tagged reply whose payload is neither the
      company snapshot nor a non-empty array. */
  lemma RenderNoData(data: Props, companyName: string, symbol: string, dateLabel: Value -> string)
    ensures var v := Render(data, companyName, symbol, dateLabel);
      var chart, p := Lookup(data, "chart"), Payload(data);
      var company := chart == Str(SEARCH_COMPANY) && IsSnapshot(p);
      v.NoChartData? <==> (Truthy(chart) && !company && (!p.Arr? || p.elems == []))
  {
  }

  /** A tagged reply whose payload is a non-empty array without null or undefined elements
      reaches the series branch of the render: the memoised series is that array normalised,
      and it is neither empty nor a company snapshot. */
  lemma SeriesBranch(data: Props, dateLabel: Value -> string)
    requires Payload(data).Arr? && Payload(data).elems != [] && NoNullish(Payload(data).elems)
    ensures CompanyInfo(data).None?
    ensures ProcessedData(data, dateLabel) == NormalizeSeries(Payload(data).elems, dateLabel)
    ensures NormalizeSeries(Payload(data).elems, dateLabel).Some?
    ensures NormalizeSeries(Payload(data).elems, dateLabel).value != []
  {
  }

  /** Such a reply shows the series card when the header can format the last point's close
      and open, and otherwise the render throws; the card holds the normalised points, the
      title and chart kind of the tag, and their summary. */
  lemma RenderSeries(data: Props, companyName: string, symbol: string, dateLabel: Value -> string)
    requires Truthy(Lookup(data, "chart")) && Payload(data).Arr? && Payload(data).elems != []
    requires NoNullish(Payload(data).elems)
    ensures var ps := NormalizeSeries(Payload(data).elems, dateLabel).value;
      var chart, v := Lookup(data, "chart"), Render(data, companyName, symbol, dateLabel);
      && (HeaderFormats(ps[|ps| - 1]) ==>
            v == SeriesCard(ChartTitle(chart, companyName, symbol), KindOf(chart), ps, Summarize(ps)))
      && (!HeaderFormats(ps[|ps| - 1]) ==> v.Throws?)
  {
    SeriesBranch(data, dateLabel);
  }

  /** On the series card, the latest close and open in the header and the volume figure are
      those of the payload's last element as the reply sent it. */
  lemma SeriesCardFigures(data: Props, companyName: string, symbol: string, dateLabel: Value -> string)
    requires Render(data, companyName, symbol, dateLabel).SeriesCard?
    ensures var v, items := Render(data, companyName, symbol, dateLabel), Payload(data).elems;
      var last := items[|items| - 1];
      && v.summary.latestClose == Get(last, "close")
      && v.summary.latestOpen == Get(last, "open")
      && v.summary.volumeMillions == Div(ToNumber(Get(last, "volume")), Finite(1000000.0))
  {
    var items := Payload(data).elems;
    SummaryLatest(items, dateLabel);
  }

  // ---------------------------------------------------------- chart context

  /** The object with exactly the given keys, each holding the source object's value. */
  function Project(ps: Props, keys: seq<string>): (r: Props)
    ensures Keys(r) == keys
    ensures forall i :: 0 <= i < |keys| ==> r[i].val == Lookup(ps, keys[i])
  {
    if keys == [] then [] else [Prop(keys[0], Lookup(ps, keys[0]))] + Project(ps, keys[1..])
  }

  lemma {:induction false} ProjectLookup(ps: Props, keys: seq<string>, k: string)
    requires k in keys
    ensures Lookup(Project(ps, keys), k) == Lookup(ps, k)
  {
    var r := Project(ps, keys);
    if keys[0] != k {
      assert r[1..] == Project(ps, keys[1..]);
      ProjectLookup(ps, keys[1..], k);
    }
  }

  /** Projecting a projection onto the same keys changes nothing. */
  lemma {:induction false} ProjectIdempotent(ps: Props, keys: seq<string>)
    ensures Project(Project(ps, keys), keys) == Project(ps, keys)
  {
    var r := Project(ps, keys);
    var rr := Project(r, keys);
    assert |rr| == |keys| == |r|;
    forall i | 0 <= i < |keys| ensures rr[i] == r[i] {
      ProjectLookup(ps, keys, keys[i]);
      assert Keys(rr)[i] == keys[i] == Keys(r)[i];
    }
  }

  /** The context of one series point: its original date (`fullDate`) and the five price and
      volume fields, nothing else. */
  function PointContext(pt: Props): (ctx: Props)
    ensures Keys(ctx) == POINT_FIELDS
  {
    [Prop("date", Lookup(pt, "fullDate")), Prop("open", Lookup(pt, "open")),
     Prop("high", Lookup(pt, "high")), Prop("low", Lookup(pt, "low")),
     Prop("close", Lookup(pt, "close")), Prop("volume", Lookup(pt, "volume"))]
  }

  function PointContexts(ps: seq<Props>): (vs: seq<Value>)
    ensures |vs| == |ps|
    ensures forall i :: 0 <= i < |ps| ==> vs[i] == Obj(PointContext(ps[i]))
  {
    if ps == [] then [] else [Obj(PointContext(ps[0]))] + PointContexts(ps[1..])
  }

  function SnapshotContext(info: Props): Value
  {
    Obj([Prop("chart", Str(SEARCH_COMPANY)), Prop("stocks", Obj(Project(info, SNAPSHOT_FIELDS)))])
  }

  function SeriesContext(ps: seq<Props>): Value
  {
    Obj([Prop("chart", Str(DETAILED_PRICES)), Prop("stocks", Arr(PointContexts(ps)))])
  }

  /** `handleAskAboutChart`: nothing when the page passed no callback; the snapshot context
      for a company search with a snapshot; the series context for a detailed price chart with
      points; else the raw chart tag with the raw payload. It runs from a rendered card, so the
      series computation did not throw. */
  function AskAboutChart(data: Props, dateLabel: Value -> string, hasCallback: bool): (ctx: Option<Value>)
    requires ProcessedData(data, dateLabel).Some?
    ensures !hasCallback <==> ctx.None?
    ensures ctx.Some? ==> ctx.value.Obj? && Keys(ctx.value.props) == ["chart", "stocks"]
    ensures hasCallback
         && !(Lookup(data, "chart") == Str(SEARCH_COMPANY) && CompanyInfo(data).Some?)
         && !(Lookup(data, "chart") == Str(DETAILED_PRICES) && ProcessedData(data, dateLabel).value != [])
        ==> ctx == Some(Obj([Prop("chart", Lookup(data, "chart")), Prop("stocks", Payload(data))]))
  {
    if !hasCallback then None
    else
      var chart := Lookup(data, "chart");
      var ps := ProcessedData(data, dateLabel).value;
      if chart == Str(SEARCH_COMPANY) && CompanyInfo(data).Some? then
        Some(SnapshotContext(CompanyInfo(data).value))
      else if chart == Str(DETAILED_PRICES) && |ps| > 0 then
        Some(SeriesContext(ps))
      else
        Some(Obj([Prop("chart", chart), Prop("stocks", Payload(data))]))
  }

  /** A snapshot context carries exactly the eleven canonical company fields, each copied
      unchanged. */
  lemma SnapshotContextFields(data: Props, dateLabel: Value -> string, k: string)
    requires ProcessedData(data, dateLabel).Some?
    requires Lookup(data, "chart") == Str(SEARCH_COMPANY) && CompanyInfo(data).Some?
    ensures var ctx := AskAboutChart(data, dateLabel, true).value;
      && Lookup(ctx.props, "chart") == Str(SEARCH_COMPANY)
      && Lookup(ctx.props, "stocks").Obj?
      && Keys(Lookup(ctx.props, "stocks").props) == SNAPSHOT_FIELDS
      && (k in SNAPSHOT_FIELDS ==> Lookup(Lookup(ctx.props, "stocks").props, k) == Lookup(CompanyInfo(data).value, k))
  {
    if k in SNAPSHOT_FIELDS {
      ProjectLookup(CompanyInfo(data).value, SNAPSHOT_FIELDS, k);
    }
  }

  /** A point's context agrees with the projection of `ps` onto the six canonical fields when
      the point's `fullDate` is `ps`'s `date` and the price and volume fields agree. */
  /** Projecting onto six keys yields those six keys with the values they have in `ps`. */
  lemma ProjectSix(ps: Props, keys: seq<string>)
    requires |keys| == 6
    ensures Project(ps, keys) ==
      [Prop(keys[0], Lookup(ps, keys[0])), Prop(keys[1], Lookup(ps, keys[1])),
       Prop(keys[2], Lookup(ps, keys[2])), Prop(keys[3], Lookup(ps, keys[3])),
       Prop(keys[4], Lookup(ps, keys[4])), Prop(keys[5], Lookup(ps, keys[5]))]
  {
    var r := Project(ps, keys);
    assert |Keys(r)| == |r|;
    forall i | 0 <= i < 6
      ensures r[i] == Prop(keys[i], Lookup(ps, keys[i]))
    {
      assert Keys(r)[i] == r[i].key;
    }
  }

  lemma PointContextMatches(pt: Props, ps: Props)
    requires Lookup(pt, "fullDate") == Lookup(ps, "date")
    requires Lookup(pt, "open") == Lookup(ps, "open")
    requires Lookup(pt, "high") == Lookup(ps, "high")
    requires Lookup(pt, "low") == Lookup(ps, "low")
    requires Lookup(pt, "close") == Lookup(ps, "close")
    requires Lookup(pt, "volume") == Lookup(ps, "volume")
    ensures PointContext(pt) == Project(ps, POINT_FIELDS)
  {
    ProjectSix(ps, POINT_FIELDS);
  }

  /** The context of a normalised point is the original point cut down to the six canonical
      fields: the derived fields are dropped and `date` is the original date. */
  lemma PointContextOfNormalized(item: Value, dateLabel: Value -> string)
    requires item.Obj?
    ensures PointContext(NormalizePoint(item, dateLabel)) == Project(item.props, POINT_FIELDS)
  {
    NormalizedPointFields(item, dateLabel);
    PointContextMatches(NormalizePoint(item, dateLabel), item.props);
  }

  lemma NormalizedPointFields(item: Value, dateLabel: Value -> string)
    requires item.Obj?
    ensures var pt := NormalizePoint(item, dateLabel);
      && Lookup(pt, "fullDate") == Lookup(item.props, "date")
      && Lookup(pt, "open") == Lookup(item.props, "open")
      && Lookup(pt, "high") == Lookup(item.props, "high")
      && Lookup(pt, "low") == Lookup(item.props, "low")
      && Lookup(pt, "close") == Lookup(item.props, "close")
      && Lookup(pt, "volume") == Lookup(item.props, "volume")
  {
    PriceFieldsKept(item, dateLabel);
  }

  /** Normalisation leaves the price and volume fields of a point as they were. */
  lemma PriceFieldsKept(item: Value, dateLabel: Value -> string)
    requires !Nullish(item)
    ensures var pt := NormalizePoint(item, dateLabel);
      && Lookup(pt, "open") == Get(item, "open")
      && Lookup(pt, "high") == Get(item, "high")
      && Lookup(pt, "low") == Get(item, "low")
      && Lookup(pt, "close") == Get(item, "close")
      && Lookup(pt, "volume") == Get(item, "volume")
  {
    forall i | 1 <= i < |POINT_FIELDS|
      ensures Lookup(NormalizePoint(item, dateLabel), POINT_FIELDS[i]) == Get(item, POINT_FIELDS[i])
    {
      FieldKept(item, dateLabel, POINT_FIELDS[i]);
    }
    assert POINT_FIELDS[1] == "open" && POINT_FIELDS[2] == "high" && POINT_FIELDS[3] == "low";
    assert POINT_FIELDS[4] == "close" && POINT_FIELDS[5] == "volume";
  }

  /** A series context has one point per input point, in order; each holds only the six
      canonical fields, with the original date and the original price and volume values, so no
      derived field is re-sent. */
  lemma SeriesContextFields(data: Props, dateLabel: Value -> string, i: nat)
    requires ProcessedData(data, dateLabel).Some?
    requires Lookup(data, "chart") == Str(DETAILED_PRICES)
    requires ProcessedData(data, dateLabel).value != []
    ensures Payload(data).Arr? && !IsSnapshot(Payload(data))
    ensures var ctx := AskAboutChart(data, dateLabel, true).value;
      var items := Payload(data).elems;
      && Lookup(ctx.props, "stocks").Arr?
      && |Lookup(ctx.props, "stocks").elems| == |items|
      && (i < |items| && items[i].Obj? ==>
            Lookup(ctx.props, "stocks").elems[i] == Obj(Project(items[i].props, POINT_FIELDS)))
  {
    var items := Payload(data).elems;
    var ps := ProcessedData(data, dateLabel).value;
    assert Str(DETAILED_PRICES) != Str(SEARCH_COMPANY);
    assert AskAboutChart(data, dateLabel, true) == Some(SeriesContext(ps));
    SeriesContextStocks(ps);
    if i < |items| && items[i].Obj? {
      assert ps[i] == NormalizePoint(items[i], dateLabel);
      PointContextOfNormalized(items[i], dateLabel);
    }
  }

  lemma SeriesContextStocks(ps: seq<Props>)
    ensures SeriesContext(ps).Obj?
    ensures Lookup(SeriesContext(ps).props, "stocks") == Arr(PointContexts(ps))
  {
  }

  /** The reply the chart would get if the context came back as its `data` object. */
  function AsReply(ctx: Value): Props
  {
    if ctx.Obj? then ctx.props else []
  }

  lemma PointContextRenormalized(pt: Props, dateLabel: Value -> string)
    ensures PointContext(NormalizePoint(Obj(PointContext(pt)), dateLabel)) == PointContext(pt)
  {
    PointContextOfNormalized(Obj(PointContext(pt)), dateLabel);
    PointContextIsProjection(pt);
  }

  lemma PointContextIsProjection(pt: Props)
    ensures Project(PointContext(pt), POINT_FIELDS) == PointContext(pt)
  {
    var ctx := PointContext(pt);
    LookupAt(ctx, 0);
    LookupAt(ctx, 1);
    LookupAt(ctx, 2);
    LookupAt(ctx, 3);
    LookupAt(ctx, 4);
    LookupAt(ctx, 5);
    PointContextMatches(pt, ctx);
  }

  /** A series context read back as a reply: its tag is the detailed price chart and its
      payload is the array of point contexts, which normalises without throwing. */
  lemma SeriesReply(ps: seq<Props>, dateLabel: Value -> string)
    ensures Lookup(AsReply(SeriesContext(ps)), "chart") == Str(DETAILED_PRICES)
    ensures Payload(AsReply(SeriesContext(ps))) == Arr(PointContexts(ps))
    ensures NormalizeSeries(PointContexts(ps), dateLabel).Some?
    ensures ProcessedData(AsReply(SeriesContext(ps)), dateLabel) == NormalizeSeries(PointContexts(ps), dateLabel)
  {
    var reply := AsReply(SeriesContext(ps));
    LookupAt(reply, 0);
    LookupAt(reply, 1);
    assert NoNullish(PointContexts(ps));
  }

  /** Renormalising the point contexts of a series and taking their contexts again gives the
      same point contexts. */
  lemma PointContextsRenormalized(ps: seq<Props>, dateLabel: Value -> string)
    ensures NormalizeSeries(PointContexts(ps), dateLabel).Some?
    ensures PointContexts(NormalizeSeries(PointContexts(ps), dateLabel).value) == PointContexts(ps)
  {
    var items := PointContexts(ps);
    assert NoNullish(items);
    var qs := NormalizeSeries(items, dateLabel).value;
    forall i | 0 <= i < |ps| ensures PointContexts(qs)[i] == items[i] {
      PointContextRenormalized(ps[i], dateLabel);
    }
  }

  /** Round trip: a series context rendered again as a reply normalises to a series whose
      context is the same object, so date, open, high, low, close and volume survive exactly
      and no derived field comes back. */
  lemma SeriesContextRoundTrip(data: Props, dateLabel: Value -> string)
    requires ProcessedData(data, dateLabel).Some?
    requires Lookup(data, "chart") == Str(DETAILED_PRICES)
    requires ProcessedData(data, dateLabel).value != []
    ensures var ctx := AskAboutChart(data, dateLabel, true).value;
      && ProcessedData(AsReply(ctx), dateLabel).Some?
      && AskAboutChart(AsReply(ctx), dateLabel, true) == Some(ctx)
  {
    var ps := ProcessedData(data, dateLabel).value;
    SeriesReply(ps, dateLabel);
    PointContextsRenormalized(ps, dateLabel);
  }

  /** Round trip: a snapshot context rendered again as a reply is still a snapshot, and asking
      about it again gives the same context. */
  lemma SnapshotContextRoundTrip(data: Props, dateLabel: Value -> string)
    requires ProcessedData(data, dateLabel).Some?
    requires Lookup(data, "chart") == Str(SEARCH_COMPANY) && CompanyInfo(data).Some?
    ensures var ctx := AskAboutChart(data, dateLabel, true).value;
      && CompanyInfo(AsReply(ctx)).Some?
      && ProcessedData(AsReply(ctx), dateLabel) == Some([])
      && AskAboutChart(AsReply(ctx), dateLabel, true) == Some(ctx)
  {
    var info := CompanyInfo(data).value;
    var proj := Project(info, SNAPSHOT_FIELDS);
    var reply := AsReply(SnapshotContext(info));
    LookupAt(reply, 0);
    LookupAt(reply, 1);
    assert Payload(reply) == Obj(proj);
    assert Keys(proj)[1] == "companyID";
    ProjectIdempotent(info, SNAPSHOT_FIELDS);
  }
}
