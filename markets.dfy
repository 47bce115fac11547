/** The deterministic parts of markets/markets.go: thousands separators
    (commaSeparate), the position-indexed result slots of the stock and
    commodity group fetches, and the record transform of the prediction-market
    fetch. The HTTP requests and JSON decoding are outside the model: a fetch
    arrives as its decoded outcome. Prices are carried as reals and never
    computed with. */
module Markets {
  import opened Wrappers
  import opened Strings

  // ---------------------------------------------------------------------------
  // commaSeparate
  // ---------------------------------------------------------------------------

  /** Commas every three characters counted from the right. */
  function GroupDigits(d: string): string
    decreases |d|
  {
    if |d| <= 3 then d
    else GroupDigits(d[..|d| - 3]) + "," + d[|d| - 3..]
  }

  /** What commaSeparate returns: a leading "-" is kept in front of the
      grouped rest. */
  function CommaSpec(s: string): string {
    if |s| > 0 && s[0] == '-' then "-" + GroupDigits(s[1..]) else GroupDigits(s)
  }

  /** The string with every comma removed. */
  function RemoveCommas(s: string): string {
    if |s| == 0 then ""
    else RemoveCommas(s[..|s| - 1]) + (if s[|s| - 1] == ',' then "" else [s[|s| - 1]])
  }

  /** The output format: a first group of one to three characters, then
      groups of exactly three, each after a single comma. */
  predicate WellGrouped(r: string)
    decreases |r|
  {
    if |r| <= 3 then 1 <= |r| && ',' !in r
    else |r| >= 5 && r[|r| - 4] == ',' && ',' !in r[|r| - 3..] && WellGrouped(r[..|r| - 4])
  }

  /** Grouping the first i + 3 characters adds, to the grouping of the first
      i, a comma (unless i is 0) and the next three characters. */
  lemma GroupStep(s: string, i: nat)
    requires i + 3 <= |s|
    ensures GroupDigits(s[..i + 3]) == GroupDigits(s[..i]) + (if i > 0 then "," else "") + s[i..i + 3]
  {
    var p := s[..i + 3];
    assert p[..|p| - 3] == s[..i];
    assert p[|p| - 3..] == s[i..i + 3];
    if i == 0 {
      assert s[..0] == "";
    }
  }

  /** commaSeparate, with its Builder as a string that only grows. */
  method CommaSeparate(s: string) returns (r: string)
    ensures r == CommaSpec(s)
  {
    var neg := false;
    var d := s;
    if |d| > 0 && d[0] == '-' {
      neg := true;
      d := d[1..];
    }
    var n := |d|;
    if n <= 3 {
      if neg {
        return "-" + d;
      }
      return d;
    }
    var b := "";
    var start := n % 3;
    if start > 0 {
      b := d[..start];
    }
    assert b == GroupDigits(d[..start]);
    var i := start;
    while i < n
      invariant start <= i <= n && (i - start) % 3 == 0
      invariant b == GroupDigits(d[..i])
    {
      GroupStep(d, i);
      if i > 0 || start > 0 {
        b := b + ",";
      }
      b := b + d[i..i + 3];
      i := i + 3;
    }
    assert d[..n] == d;
    if neg {
      return "-" + b;
    }
    return b;
  }

  /** A string of at most three characters after the optional "-" comes back
      unchanged. */
  lemma ShortIsUnchanged(s: string)
    requires if |s| > 0 && s[0] == '-' then |s| <= 4 else |s| <= 3
    ensures CommaSpec(s) == s
  {
    if |s| > 0 && s[0] == '-' {
      assert "-" + s[1..] == s;
    }
  }

  lemma {:induction false} RemoveCommasConcat(a: string, b: string)
    ensures RemoveCommas(a + b) == RemoveCommas(a) + RemoveCommas(b)
    decreases |b|
  {
    if |b| == 0 {
      assert a + b == a;
    } else {
      var ab := a + b;
      assert ab[..|ab| - 1] == a + b[..|b| - 1];
      assert ab[|ab| - 1] == b[|b| - 1];
      RemoveCommasConcat(a, b[..|b| - 1]);
    }
  }

  lemma {:induction false} RemoveCommasOfPlain(s: string)
    requires ',' !in s
    ensures RemoveCommas(s) == s
    decreases |s|
  {
    if |s| > 0 {
      RemoveCommasOfPlain(s[..|s| - 1]);
      assert s[..|s| - 1] + [s[|s| - 1]] == s;
    }
  }

  /** The commas removed around one inserted comma. */
  lemma RemoveCommasAround(g: string, back: string)
    requires ',' !in back
    ensures RemoveCommas(g + "," + back) == RemoveCommas(g) + back
  {
    RemoveCommasConcat(g + ",", back);
    RemoveCommasConcat(g, ",");
    RemoveCommasOfPlain(back);
    RemoveCommasOfComma();
  }

  lemma RemoveCommasOfComma()
    ensures RemoveCommas(",") == ""
  {
    assert ","[..0] == "";
  }

  lemma {:induction false} UngroupDigits(d: string)
    requires ',' !in d
    ensures RemoveCommas(GroupDigits(d)) == d
    decreases |d|
  {
    if |d| <= 3 {
      RemoveCommasOfPlain(d);
    } else {
      var front := d[..|d| - 3];
      var back := d[|d| - 3..];
      TakeDrop(d, |d| - 3, ',');
      var g := GroupDigits(front);
      assert GroupDigits(d) == g + "," + back;
      UngroupDigits(front);
      RemoveCommasAround(g, back);
    }
  }

  /** Removing the commas from commaSeparate's output gives back its input. */
  lemma CommasRemovedRoundTrip(s: string)
    requires ',' !in s
    ensures RemoveCommas(CommaSpec(s)) == s
  {
    if |s| > 0 && s[0] == '-' {
      UngroupDigits(s[1..]);
      RemoveCommasConcat("-", GroupDigits(s[1..]));
      RemoveCommasOfPlain("-");
      assert "-" + s[1..] == s;
    } else {
      UngroupDigits(s);
    }
  }

  /** Grouping a non-empty comma-free string is well grouped: no leading or
      trailing comma, a first group of one to three, then groups of three. */
  lemma {:induction false} GroupDigitsIsWellGrouped(d: string)
    requires |d| > 0 && ',' !in d
    ensures WellGrouped(GroupDigits(d))
    decreases |d|
  {
    if |d| > 3 {
      var front := d[..|d| - 3];
      var back := d[|d| - 3..];
      GroupDigitsIsWellGrouped(front);
      var g := GroupDigits(front);
      var r := g + "," + back;
      assert |g| >= 1;
      assert r[|r| - 4] == ',';
      assert r[|r| - 3..] == back;
      assert r[..|r| - 4] == g;
    }
  }

  /** A well-grouped string neither starts nor ends with a comma. */
  lemma {:induction false} WellGroupedEnds(r: string)
    requires WellGrouped(r)
    ensures |r| > 0 && r[0] != ',' && r[|r| - 1] != ','
    decreases |r|
  {
    if |r| > 3 {
      WellGroupedEnds(r[..|r| - 4]);
      assert r[0] == r[..|r| - 4][0];
      assert r[|r| - 1] == r[|r| - 3..][2];
    }
  }

  // ---------------------------------------------------------------------------
  // Position-indexed result slots (FetchStockIndices, FetchCommodities)
  // ---------------------------------------------------------------------------

  /** What one goroutine stores in its slot: an error, or the value. */
  datatype Slot<T> = Failed(err: string) | Fetched(value: T)

  /** Each goroutine writes only results[i]. `order` is the order the writes
      happened in: every slot is written at least once, always with its own
      outcome, so the order does not change what is stored. */
  method FillSlots<T>(results: array<Slot<T>>, outcomes: seq<Slot<T>>, order: seq<nat>)
    requires results.Length == |outcomes|
    requires forall k :: 0 <= k < |order| ==> order[k] < |outcomes|
    requires forall j :: 0 <= j < |outcomes| ==> j in order
    modifies results
    ensures results[..] == outcomes
  {
    var k := 0;
    while k < |order|
      invariant 0 <= k <= |order|
      invariant forall j :: 0 <= j < results.Length && j in order[..k] ==> results[j] == outcomes[j]
    {
      results[order[k]] := outcomes[order[k]];
      k := k + 1;
    }
    assert order[..k] == order;
  }

  /** The values of the successful slots, in slot order. */
  function Successes<T>(slots: seq<Slot<T>>): seq<T> {
    if |slots| == 0 then []
    else
      var last := slots[|slots| - 1];
      Successes(slots[..|slots| - 1]) + (if last.Fetched? then [last.value] else [])
  }

  /** The messages of the failed slots, in slot order. */
  function Failures<T>(slots: seq<Slot<T>>): seq<string> {
    if |slots| == 0 then []
    else
      var last := slots[|slots| - 1];
      Failures(slots[..|slots| - 1]) + (if last.Failed? then [last.err] else [])
  }

  /** The group-fetch result: the successes, or, when there are none but some
      slot failed, one error joining the failures with "; ". */
  function Aggregated<T>(slots: seq<Slot<T>>): (r: Result<seq<T>, string>)
    ensures r.Ok? ==> r.value == Successes(slots)
    ensures r.Err? ==> Successes(slots) == [] && Failures(slots) != []
  {
    var ok := Successes(slots);
    var errs := Failures(slots);
    if |ok| == 0 && |errs| > 0 then Err(Join(errs, "; ")) else Ok(ok)
  }

  lemma {:induction false} SuccessesHaveWitness<T>(slots: seq<Slot<T>>)
    ensures |Successes(slots)| == 0 <==> forall k :: 0 <= k < |slots| ==> slots[k].Failed?
    ensures |Failures(slots)| + |Successes(slots)| == |slots|
  {
    if |slots| > 0 {
      var front := slots[..|slots| - 1];
      SuccessesHaveWitness(front);
      assert forall k :: 0 <= k < |front| ==> front[k] == slots[k];
    }
  }

  /** An error is reported exactly when there are slots and every one failed. */
  lemma ErrorOnlyWhenAllFail<T>(slots: seq<Slot<T>>)
    ensures Aggregated(slots).Err? <==> |slots| > 0 && forall k :: 0 <= k < |slots| ==> slots[k].Failed?
  {
    SuccessesHaveWitness(slots);
  }

  /** Failed slots are dropped silently: with one success, the result is the
      successes and no error. */
  lemma OneSuccessIsEnough<T>(slots: seq<Slot<T>>, i: nat)
    requires i < |slots| && slots[i].Fetched?
    ensures Aggregated(slots) == Ok(Successes(slots))
    ensures |Successes(slots)| > 0
  {
    SuccessesHaveWitness(slots);
  }

  lemma SuccessesStep<T>(slots: seq<Slot<T>>, i: nat)
    requires i < |slots|
    ensures Successes(slots[..i + 1]) == Successes(slots[..i]) + (if slots[i].Fetched? then [slots[i].value] else [])
    ensures Failures(slots[..i + 1]) == Failures(slots[..i]) + (if slots[i].Failed? then [slots[i].err] else [])
  {
    assert slots[..i + 1][..i] == slots[..i];
  }

  /** The loop over `results` after wg.Wait(). */
  method Aggregate<T>(results: array<Slot<T>>) returns (r: Result<seq<T>, string>)
    ensures r == Aggregated(results[..])
  {
    var values: seq<T> := [];
    var errs: seq<string> := [];
    var i := 0;
    while i < results.Length
      invariant 0 <= i <= results.Length
      invariant values == Successes(results[..i])
      invariant errs == Failures(results[..i])
    {
      SuccessesStep(results[..], i);
      assert results[..][..i + 1] == results[..i + 1];
      assert results[..][..i] == results[..i];
      if results[i].Failed? {
        errs := errs + [results[i].err];
      } else {
        values := values + [results[i].value];
      }
      i := i + 1;
    }
    assert results[..i] == results[..];
    if |values| == 0 && |errs| > 0 {
      return Err(Join(errs, "; "));
    }
    return Ok(values);
  }

  /** A CoinGecko price; FetchCryptoPrices itself is not part of this model. */
  datatype CryptoPrice = CryptoPrice(
    id: string,
    symbol: string,
    name: string,
    priceUsd: real,
    change24h: real,
    marketCapUsd: real,
    volume24hUsd: real,
    lastUpdated: int)

  /** The fields of a Yahoo chart response the slots use. */
  datatype ChartMeta = ChartMeta(symbol: string, price: real, previousClose: real, changePercent: real)

  datatype StockIndex = StockIndex(symbol: string, name: string, price: real, prevClose: real, changePct: real)

  datatype Commodity = Commodity(symbol: string, name: string, price: real, prevClose: real, unit: string, changePct: real)

  /** The yahoo symbol and display name of each index, in definition order. */
  const IndexDefs: seq<(string, string)> := [("%5EGSPC", "S&P 500"), ("%5EDJI", "Dow Jones")]

  /** The yahoo symbol, name and unit of each commodity, in definition order. */
  const CommodityDefs: seq<(string, string, string)> := [
    ("CL%3DF", "WTI Crude Oil", "$/bbl"),
    ("GC%3DF", "Gold", "$/oz"),
    ("HG%3DF", "Copper", "$/lb")]

  /** The goroutine of slot i in FetchStockIndices. */
  function IndexSlot(name: string, chart: Slot<ChartMeta>): Slot<StockIndex> {
    match chart
    case Failed(e) => Failed(e)
    case Fetched(m) => Fetched(StockIndex(m.symbol, name, m.price, m.previousClose, m.changePercent))
  }

  /** The goroutine of slot i in FetchCommodities. */
  function CommoditySlot(name: string, unit: string, chart: Slot<ChartMeta>): Slot<Commodity> {
    match chart
    case Failed(e) => Failed(e)
    case Fetched(m) => Fetched(Commodity(m.symbol, name, m.price, m.previousClose, unit, m.changePercent))
  }

  /** FetchStockIndices after the requests: `charts[i]` is what the request
      for IndexDefs[i] produced, `order` the order the goroutines finished in. */
  method FetchStockIndices(charts: seq<Slot<ChartMeta>>, order: seq<nat>) returns (r: Result<seq<StockIndex>, string>)
    requires |charts| == |IndexDefs|
    requires forall k :: 0 <= k < |order| ==> order[k] < |charts|
    requires forall j :: 0 <= j < |charts| ==> j in order
    ensures r == Aggregated(seq(|charts|, i requires 0 <= i < |charts| => IndexSlot(IndexDefs[i].1, charts[i])))
  {
    var outcomes := seq(|charts|, i requires 0 <= i < |charts| => IndexSlot(IndexDefs[i].1, charts[i]));
    var results := new Slot<StockIndex>[|IndexDefs|](_ => Failed(""));
    FillSlots(results, outcomes, order);
    r := Aggregate(results);
  }

  /** FetchCommodities after the requests, as FetchStockIndices. */
  method FetchCommodities(charts: seq<Slot<ChartMeta>>, order: seq<nat>) returns (r: Result<seq<Commodity>, string>)
    requires |charts| == |CommodityDefs|
    requires forall k :: 0 <= k < |order| ==> order[k] < |charts|
    requires forall j :: 0 <= j < |charts| ==> j in order
    ensures r == Aggregated(seq(|charts|, i requires 0 <= i < |charts| =>
      CommoditySlot(CommodityDefs[i].1, CommodityDefs[i].2, charts[i])))
  {
    var outcomes := seq(|charts|, i requires 0 <= i < |charts| =>
      CommoditySlot(CommodityDefs[i].1, CommodityDefs[i].2, charts[i]));
    var results := new Slot<Commodity>[|CommodityDefs|](_ => Failed(""));
    FillSlots(results, outcomes, order);
    r := Aggregate(results);
  }

  // ---------------------------------------------------------------------------
  // Prediction markets
  // ---------------------------------------------------------------------------

  /** A decoded Polymarket record; the probability and volume strings are
      taken as already parsed. */
  datatype RawMarket = RawMarket(
    question: string,
    probability: real,
    volume: real,
    endDateIso: string,
    slug: string,
    tagSlugs: seq<string>)

  datatype PredictionMarket = PredictionMarket(
    title: string,
    probability: real,
    volume: real,
    category: string,
    endDate: string,
    slug: string)

  function ToMarket(r: RawMarket): (m: PredictionMarket)
    ensures m.title == r.question && m.slug == r.slug
    ensures m.category == (if |r.tagSlugs| > 0 then r.tagSlugs[0] else "politics")
    ensures |r.endDateIso| >= 10 ==> m.endDate == r.endDateIso[..10] && |m.endDate| == 10
    ensures |r.endDateIso| < 10 ==> m.endDate == ""
  {
    var cat := if |r.tagSlugs| > 0 then r.tagSlugs[0] else "politics";
    var endDate := if |r.endDateIso| >= 10 then r.endDateIso[..10] else "";
    PredictionMarket(r.question, r.probability, r.volume, cat, endDate, r.slug)
  }

  /** The markets the first n records yield, in record order. */
  function MarketsOf(raw: seq<RawMarket>, n: nat): seq<PredictionMarket>
    requires n <= |raw|
  {
    if n == 0 then []
    else if raw[n - 1].question == "" then MarketsOf(raw, n - 1)
    else MarketsOf(raw, n - 1) + [ToMarket(raw[n - 1])]
  }

  /** Every market has a title: records with an empty question are skipped. */
  lemma {:induction false} MarketsAreTitled(raw: seq<RawMarket>, n: nat)
    requires n <= |raw|
    ensures forall m | m in MarketsOf(raw, n) :: m.title != ""
  {
    if n > 0 {
      MarketsAreTitled(raw, n - 1);
    }
  }

  /** Only those are skipped: one market for each record with a question. */
  lemma {:induction false} MarketsCount(raw: seq<RawMarket>, n: nat)
    requires n <= |raw|
    ensures |MarketsOf(raw, n)| == |set k | 0 <= k < n && raw[k].question != ""|
  {
    if n > 0 {
      MarketsCount(raw, n - 1);
      var before := set k | 0 <= k < n - 1 && raw[k].question != "";
      var after := set k | 0 <= k < n && raw[k].question != "";
      if raw[n - 1].question == "" {
        assert after == before;
      } else {
        assert after == before + {n - 1} && n - 1 !in before;
      }
    }
  }

  /** The record loop of FetchPredictionMarkets. */
  method TransformMarkets(raw: seq<RawMarket>) returns (result: seq<PredictionMarket>)
    ensures result == MarketsOf(raw, |raw|)
  {
    result := [];
    var i := 0;
    while i < |raw|
      invariant 0 <= i <= |raw|
      invariant result == MarketsOf(raw, i)
    {
      var r := raw[i];
      i := i + 1;
      if r.question == "" {
        continue;
      }
      var cat := "politics";
      if |r.tagSlugs| > 0 {
        cat := r.tagSlugs[0];
      }
      var endDate := "";
      if |r.endDateIso| >= 10 {
        endDate := r.endDateIso[..10];
      }
      result := result + [PredictionMarket(r.question, r.probability, r.volume, cat, endDate, r.slug)];
    }
  }
}
