/** The Skyrocket score (screen/iterations/utils/skyrocket.py): an integer
    out of 10 built from threshold tests on a stock's revenue growth,
    price performance, RS rating, institutional ownership and trend, each
    point paired with a reason; and the Top-10 selection of the scored
    table. Python's `float()` on a string and pandas' numeric parsing of
    a string are supplied by the caller as `parse`. */
module Skyrocket {
  import opened Json
  import opened Wrappers
  import opened Workspace

  /** What a looked-up value gives: `None` (key absent or null), a value
      `float()` rejects, or a number. */
  datatype Metric = Absent | NonNumeric | Numeric(x: real)

  /** `float(j)`, or `None` where it raises ValueError or TypeError. */
  function ToFloat(j: Json, parse: string -> Option<real>): Option<real> {
    match j
    case Int(i) => Some(i as real)
    case Float(f) => Some(f)
    case Bool(b) => Some(if b then 1.0 else 0.0)
    case Str(s) => parse(s)
    case _ => None
  }

  /** `d.get(key, None)` followed by `float(...)`. */
  function MetricOf(d: Row, key: string, parse: string -> Option<real>): (m: Metric)
    ensures m.Absent? <==> key !in d || d[key] == Null
  {
    if key !in d || d[key] == Null then Absent
    else match ToFloat(d[key], parse)
      case None => NonNumeric
      case Some(x) => Numeric(x)
  }

  /** The closing prices once `dropna()` has run, or `NoHistory` when the
      price history is not a non-empty frame with a Close column. */
  datatype History = NoHistory | Closes(prices: seq<real>)

  predicate HasPrices(h: History) {
    h.Closes? && |h.prices| > 0
  }

  function Last(s: seq<real>): real
    requires |s| > 0
  {
    s[|s| - 1]
  }

  /** `price_data.max()`. */
  function Max(s: seq<real>): (m: real)
    requires |s| > 0
    ensures forall i :: 0 <= i < |s| ==> s[i] <= m
    ensures exists i :: 0 <= i < |s| && s[i] == m
  {
    if |s| == 1 then s[0]
    else
      var rest := Max(s[1..]);
      assert forall i :: 1 <= i < |s| ==> s[i] == s[1..][i - 1];
      if s[0] >= rest then s[0] else rest
  }

  function Sum(s: seq<real>): real {
    if |s| == 0 then 0.0 else s[0] + Sum(s[1..])
  }

  /** The last value of `rolling(window).mean()`: the mean of the last
      `window` closes, when there are that many. */
  function Sma(h: History, window: nat): (r: Option<real>)
    requires window > 0
    ensures r.Some? <==> h.Closes? && |h.prices| >= window
  {
    if h.Closes? && |h.prices| >= window then
      Some(Sum(h.prices[|h.prices| - window..]) / (window as real))
    else None
  }

  /** The price scored: `info["currentPrice"]` when present, otherwise the
      latest close when there is one. */
  function CurrentPrice(infoPrice: Metric, h: History): Metric {
    if infoPrice.Absent? && HasPrices(h) then Numeric(Last(h.prices)) else infoPrice
  }

  /** The one-year return, computed only when the price converts and the
      first close is non-zero. */
  function YearReturn(price: Metric, h: History): Option<real> {
    if HasPrices(h) && price.Numeric? && h.prices[0] != 0.0 then
      Some((price.x / h.prices[0] - 1.0) * 100.0)
    else None
  }

  /** The distance from the 52-week high, computed only when the price
      converts and the high is non-zero. */
  function PctFromHigh(price: Metric, h: History): Option<real> {
    if HasPrices(h) && price.Numeric? && Max(h.prices) != 0.0 then
      Some((price.x / Max(h.prices) - 1.0) * 100.0)
    else None
  }

  /** The reasons, each carrying the figure it prints. */
  datatype Reason =
    | StrongRevenueGrowth(pct: real)
    | PositiveRevenueGrowth(pct: real)
    | ExcellentYearReturn(pct: real)
    | GoodYearReturn(pct: real)
    | NearHigh(pct: real)
    | HighRs(rating: real)
    | GoodRs(rating: real)
    | InstitutionalInterest(pct: real)
    | AboveSma50
    | AboveSma200

  /** A score increment together with the reason appended with it. */
  datatype Award = Award(points: nat, reason: Reason)

  /** Criterion 1: revenue growth. */
  function RevenueAward(growth: Metric): (a: Option<Award>)
    ensures a.Some? <==> growth.Numeric? && growth.x * 100.0 > 15.0
    ensures a.Some? ==> (a.value.points == 2 <==> growth.x * 100.0 > 30.0) && 1 <= a.value.points <= 2
  {
    if !growth.Numeric? then None
    else
      var pct := growth.x * 100.0;
      if pct > 30.0 then Some(Award(2, StrongRevenueGrowth(pct)))
      else if pct > 15.0 then Some(Award(1, PositiveRevenueGrowth(pct)))
      else None
  }

  /** Criterion 2a: one-year return. */
  function YearAward(yearReturn: Option<real>): (a: Option<Award>)
    ensures a.Some? <==> yearReturn.Some? && yearReturn.value > 30.0
    ensures a.Some? ==> (a.value.points == 2 <==> yearReturn.value > 100.0) && 1 <= a.value.points <= 2
  {
    if yearReturn.None? then None
    else if yearReturn.value > 100.0 then Some(Award(2, ExcellentYearReturn(yearReturn.value)))
    else if yearReturn.value > 30.0 then Some(Award(1, GoodYearReturn(yearReturn.value)))
    else None
  }

  /** Criterion 2b: closeness to the 52-week high. */
  function NearHighAward(pctFromHigh: Option<real>): (a: Option<Award>)
    ensures a.Some? <==> pctFromHigh.Some? && pctFromHigh.value > -25.0
    ensures a.Some? ==> a.value.points == 1
  {
    if pctFromHigh.Some? && pctFromHigh.value > -25.0 then Some(Award(1, NearHigh(pctFromHigh.value))) else None
  }

  /** Criterion 3: RS rating. */
  function RsAward(rs: Metric): (a: Option<Award>)
    ensures a.Some? <==> rs.Numeric? && rs.x >= 80.0
    ensures a.Some? ==> (a.value.points == 2 <==> rs.x >= 90.0) && 1 <= a.value.points <= 2
  {
    if !rs.Numeric? then None
    else if rs.x >= 90.0 then Some(Award(2, HighRs(rs.x)))
    else if rs.x >= 80.0 then Some(Award(1, GoodRs(rs.x)))
    else None
  }

  /** Criterion 4: institutional ownership. */
  function InstitutionalAward(held: Metric): (a: Option<Award>)
    ensures a.Some? <==> held.Numeric? && held.x * 100.0 > 20.0
    ensures a.Some? ==> a.value.points == 1
  {
    if held.Numeric? && held.x * 100.0 > 20.0 then Some(Award(1, InstitutionalInterest(held.x * 100.0))) else None
  }

  /** Criterion 5: price above a moving average. */
  function SmaAward(price: Metric, sma: Option<real>, reason: Reason): (a: Option<Award>)
    ensures a.Some? <==> price.Numeric? && sma.Some? && price.x > sma.value
    ensures a.Some? ==> a.value.points == 1
  {
    if price.Numeric? && sma.Some? && price.x > sma.value then Some(Award(1, reason)) else None
  }

  /** The points one criterion contributes. */
  function Points(a: Option<Award>): nat {
    if a.Some? then a.value.points else 0
  }

  /** The most each criterion can contribute, in the order they are
      tested. */
  const Caps: seq<nat> := [2, 2, 1, 2, 1, 1, 1]

  /** The outcome of each criterion, in the order they are tested. */
  function Criteria(symbolData: Row, info: Row, h: History, parse: string -> Option<real>): (c: seq<Option<Award>>)
    ensures |c| == |Caps|
    ensures forall i :: 0 <= i < |c| && c[i].Some? ==> 1 <= c[i].value.points <= Caps[i]
  {
    var price := CurrentPrice(MetricOf(info, "currentPrice", parse), h);
    [ RevenueAward(MetricOf(info, "revenueGrowth", parse)),
      YearAward(YearReturn(price, h)),
      NearHighAward(PctFromHigh(price, h)),
      RsAward(MetricOf(symbolData, "RS", parse)),
      InstitutionalAward(MetricOf(info, "institutionsPercentHeld", parse)),
      SmaAward(price, Sma(h, 50), AboveSma50),
      SmaAward(price, Sma(h, 200), AboveSma200) ]
  }

  /** The raw score: the sum of the contributions. */
  function SumPoints(c: seq<Option<Award>>): nat {
    if |c| == 0 then 0 else Points(c[0]) + SumPoints(c[1..])
  }

  /** The awards made, in order. */
  function Present(c: seq<Option<Award>>): seq<Award> {
    if |c| == 0 then [] else (if c[0].Some? then [c[0].value] else []) + Present(c[1..])
  }

  function SumNat(s: seq<nat>): nat {
    if |s| == 0 then 0 else s[0] + SumNat(s[1..])
  }

  function Reasons(awards: seq<Award>): (r: seq<Reason>)
    ensures |r| == |awards|
    ensures forall i :: 0 <= i < |awards| ==> r[i] == awards[i].reason
  {
    seq(|awards|, i requires 0 <= i < |awards| => awards[i].reason)
  }

  /** The reason text: "N/A", or the reasons joined with ", ". */
  datatype ReasonText = NotAvailable | Joined(reasons: seq<Reason>)

  datatype Scored = Scored(score: int, reason: ReasonText)

  /** `calculate_skyrocket_score`; the only exception that escapes is the
      KeyError of a row without a Symbol. */
  function CalculateSkyrocketScore(symbolData: Row, info: Row, h: History, parse: string -> Option<real>)
    : Result<Scored, PyError>
  {
    if "Symbol" !in symbolData then Err(KeyError(Str("Symbol")))
    else
      var c := Criteria(symbolData, info, h, parse);
      var raw := SumPoints(c);
      var awards := Present(c);
      Ok(Scored(if raw < 10 then raw else 10, if |awards| == 0 then NotAvailable else Joined(Reasons(awards))))
  }

  /** Contributions within their caps sum to at most the caps' sum. */
  lemma {:induction false} SumWithinCaps(c: seq<Option<Award>>, caps: seq<nat>)
    requires |c| == |caps|
    requires forall i :: 0 <= i < |c| && c[i].Some? ==> c[i].value.points <= caps[i]
    ensures SumPoints(c) <= SumNat(caps)
  {
    if |c| > 0 {
      SumWithinCaps(c[1..], caps[1..]);
    }
  }

  /** Every award is worth one or two points and comes with one reason,
      so the score lies between the number of reasons and twice it. */
  lemma {:induction false} PointsPairedWithReasons(c: seq<Option<Award>>)
    requires forall i :: 0 <= i < |c| && c[i].Some? ==> 1 <= c[i].value.points <= 2
    ensures |Present(c)| <= SumPoints(c) <= 2 * |Present(c)|
    ensures |Present(c)| <= |c|
  {
    if |c| > 0 {
      PointsPairedWithReasons(c[1..]);
    }
  }

  /** The criteria's maxima add up to 10, so `min(score, 10)` never lowers
      the raw score; every point comes with a reason, so the reason is
      "N/A" exactly when the score is 0, and there are at most 7 reasons. */
  lemma ScoreProperties(symbolData: Row, info: Row, h: History, parse: string -> Option<real>)
    requires "Symbol" in symbolData
    ensures var c := Criteria(symbolData, info, h, parse);
      var r := CalculateSkyrocketScore(symbolData, info, h, parse);
      r.Ok? && SumPoints(c) <= 10 && r.value.score == SumPoints(c) &&
      (r.value.score == 0 <==> r.value.reason == NotAvailable) &&
      |Present(c)| <= 7 && |Present(c)| <= r.value.score <= 2 * |Present(c)| &&
      (r.value.reason.Joined? ==> r.value.reason.reasons == Reasons(Present(c)))
  {
    var c := Criteria(symbolData, info, h, parse);
    CappedCriteria(c);
  }

  /** The bounds of ScoreProperties for any outcomes within the caps. */
  lemma CappedCriteria(c: seq<Option<Award>>)
    requires |c| == |Caps|
    requires forall i :: 0 <= i < |c| && c[i].Some? ==> 1 <= c[i].value.points <= Caps[i]
    ensures SumPoints(c) <= 10
    ensures |Present(c)| <= 7 && |Present(c)| <= SumPoints(c) <= 2 * |Present(c)|
  {
    SumWithinCaps(c, Caps);
    assert SumNat(Caps) == 10;
    PointsPairedWithReasons(c);
  }

  /** Higher revenue growth never earns fewer revenue points, and a
      higher RS rating never fewer RS points. */
  lemma PointsMonotone(x: real, y: real)
    requires x <= y
    ensures Points(RevenueAward(Numeric(x))) <= Points(RevenueAward(Numeric(y)))
    ensures Points(RsAward(Numeric(x))) <= Points(RsAward(Numeric(y)))
  {
  }

  /** The price from `info` wins whenever it is present, even when it does
      not convert; the history supplies the latest close only in its
      absence. */
  lemma PricePreference(infoPrice: Metric, h: History)
    ensures !infoPrice.Absent? ==> CurrentPrice(infoPrice, h) == infoPrice
    ensures infoPrice.Absent? && HasPrices(h) ==> CurrentPrice(infoPrice, h) == Numeric(h.prices[|h.prices| - 1])
    ensures infoPrice.Absent? && !HasPrices(h) ==>
      CurrentPrice(infoPrice, h).Absent? && YearReturn(CurrentPrice(infoPrice, h), h).None? &&
      PctFromHigh(CurrentPrice(infoPrice, h), h).None?
  {
  }

  /** A return is computed exactly when its denominator is non-zero and
      the price converts. */
  lemma GuardedDenominators(price: Metric, h: History)
    ensures YearReturn(price, h).Some? <==> HasPrices(h) && price.Numeric? && h.prices[0] != 0.0
    ensures PctFromHigh(price, h).Some? <==> HasPrices(h) && price.Numeric? && Max(h.prices) != 0.0
    ensures PctFromHigh(price, h).Some? && HasPrices(h) && Max(h.prices) > 0.0 && price.x >= Max(h.prices) ==>
      NearHighAward(PctFromHigh(price, h)).Some?
  {
    if PctFromHigh(price, h).Some? && HasPrices(h) && Max(h.prices) > 0.0 && price.x >= Max(h.prices) {
      RatioAtLeastOne(price.x, Max(h.prices));
    }
  }

  lemma RatioAtLeastOne(p: real, m: real)
    requires 0.0 < m <= p
    ensures p / m >= 1.0
  {
    var q := p / m;
    assert q * m == p;
  }

  /** Values all below a bound sum to less than their count times it. */
  lemma {:induction false} SumBelow(s: seq<real>, bound: real)
    requires |s| > 0
    requires forall i :: 0 <= i < |s| ==> s[i] < bound
    ensures Sum(s) < (|s| as real) * bound
  {
    if |s| > 1 {
      assert forall i :: 0 <= i < |s| - 1 ==> s[1..][i] == s[i + 1];
      SumBelow(s[1..], bound);
    }
  }

  /** A moving average lies below a price above every close of its
      window, so such a price earns the trend point. */
  lemma AboveWindowEarnsTrendPoint(price: real, h: History, window: nat, reason: Reason)
    requires window > 0 && h.Closes? && |h.prices| >= window
    requires forall i :: |h.prices| - window <= i < |h.prices| ==> h.prices[i] < price
    ensures SmaAward(Numeric(price), Sma(h, window), reason).Some?
  {
    var w := h.prices[|h.prices| - window..];
    assert |w| == window;
    forall i | 0 <= i < |w|
      ensures w[i] < price
    {
      assert w[i] == h.prices[|h.prices| - window + i];
    }
    SumBelow(w, price);
    MeanBelow(Sum(w), window as real, price);
  }

  lemma MeanBelow(total: real, n: real, p: real)
    requires n > 0.0 && total < n * p
    ensures total / n < p
  {
    var q := total / n;
    assert q * n == total;
  }

  // ---------------------------------------------------------------
  // Top-10 selection (`generate_top_10_html`)
  // ---------------------------------------------------------------

  const ScoreColumn: string := "Skyrocket Score"
  const ReasonColumn: string := "Skyrocket Reason"

  /** `pd.to_numeric(value, errors="coerce")`: the number, or NaN. */
  function Coerce(j: Json, parse: string -> Option<real>): Option<real> {
    ToFloat(j, parse)
  }

  /** A row with its score column coerced: a number or NaN (`Null`). */
  function CoercedRow(row: Row, parse: string -> Option<real>): (r: Row)
    ensures r.Keys == row.Keys + {ScoreColumn}
    ensures forall k :: k in row && k != ScoreColumn ==> r[k] == row[k]
    ensures r[ScoreColumn].Float? || r[ScoreColumn] == Null
  {
    var c := Coerce(Cell(row, ScoreColumn), parse);
    row[ScoreColumn := if c.Some? then Float(c.value) else Null]
  }

  /** Line 134 applied to the whole table. */
  function CoerceScores(t: Table, parse: string -> Option<real>): (r: Table)
    ensures |r| == |t|
    ensures forall i :: 0 <= i < |t| ==> r[i] == CoercedRow(t[i], parse)
  {
    seq(|t|, i requires 0 <= i < |t| => CoercedRow(t[i], parse))
  }

  /** A row that survives `dropna`, with its numeric score. */
  datatype Candidate = Candidate(row: Row, score: real)

  /** `dropna(subset=["Skyrocket Score"])` on the original rows, in
      order. */
  function Candidates(t: Table, parse: string -> Option<real>): (r: seq<Candidate>)
    ensures |r| <= |t|
    ensures forall c :: c in r ==> exists i :: 0 <= i < |t| && c == Candidate(CoercedRow(t[i], parse), c.score)
    ensures forall c :: c in r ==> ScoreColumn in c.row && c.row[ScoreColumn] == Float(c.score)
  {
    if |t| == 0 then []
    else
      var rest := Candidates(t[..|t| - 1], parse);
      var row := t[|t| - 1];
      var c := Coerce(Cell(row, ScoreColumn), parse);
      if c.Some? then rest + [Candidate(CoercedRow(row, parse), c.value)] else rest
  }

  /** Every row whose score cell coerces to a number is kept, with that
      number. */
  lemma {:induction false} CandidatesComplete(t: Table, parse: string -> Option<real>, i: int)
    requires 0 <= i < |t| && Coerce(Cell(t[i], ScoreColumn), parse).Some?
    ensures Candidate(CoercedRow(t[i], parse), Coerce(Cell(t[i], ScoreColumn), parse).value) in Candidates(t, parse)
  {
    if i < |t| - 1 {
      var init := t[..|t| - 1];
      assert init[i] == t[i];
      CandidatesComplete(init, parse, i);
    }
  }

  /** No row is kept when no score cell coerces to a number. */
  lemma {:induction false} CandidatesNone(t: Table, parse: string -> Option<real>)
    requires forall i :: 0 <= i < |t| ==> Coerce(Cell(t[i], ScoreColumn), parse).None?
    ensures Candidates(t, parse) == []
  {
    if |t| > 0 {
      var init := t[..|t| - 1];
      assert forall i :: 0 <= i < |init| ==> init[i] == t[i];
      CandidatesNone(init, parse);
    }
  }

  /** `dropna` leaves nothing exactly when no score cell coerces to a
      number. */
  lemma NoCandidatesIff(t: Table, parse: string -> Option<real>)
    ensures Candidates(t, parse) == [] <==>
      forall i :: 0 <= i < |t| ==> Coerce(Cell(t[i], ScoreColumn), parse).None?
  {
    if forall i :: 0 <= i < |t| ==> Coerce(Cell(t[i], ScoreColumn), parse).None? {
      CandidatesNone(t, parse);
    } else {
      var i :| 0 <= i < |t| && Coerce(Cell(t[i], ScoreColumn), parse).Some?;
      CandidatesComplete(t, parse, i);
    }
  }

  predicate SortedDesc(s: seq<Candidate>) {
    forall i, j :: 0 <= i < j < |s| ==> s[i].score >= s[j].score
  }

  /** Insertion after every candidate scoring at least as much, so equal
      scores keep their table order. */
  function InsertDesc(c: Candidate, s: seq<Candidate>): seq<Candidate> {
    if |s| == 0 then [c]
    else if s[0].score >= c.score then [s[0]] + InsertDesc(c, s[1..])
    else [c] + s
  }

  function SortDesc(s: seq<Candidate>): seq<Candidate> {
    if |s| == 0 then [] else InsertDesc(s[|s| - 1], SortDesc(s[..|s| - 1]))
  }

  lemma {:induction false} InsertDescElements(c: Candidate, s: seq<Candidate>)
    ensures multiset(InsertDesc(c, s)) == multiset(s) + multiset{c}
    ensures |InsertDesc(c, s)| == |s| + 1
    ensures forall x :: x in InsertDesc(c, s) ==> x == c || x in s
  {
    if |s| > 0 && s[0].score >= c.score {
      InsertDescElements(c, s[1..]);
      assert s == [s[0]] + s[1..];
    }
  }

  lemma {:induction false} InsertDescSorted(c: Candidate, s: seq<Candidate>)
    requires SortedDesc(s)
    ensures SortedDesc(InsertDesc(c, s))
  {
    if |s| > 0 && s[0].score >= c.score {
      var rest := InsertDesc(c, s[1..]);
      InsertDescSorted(c, s[1..]);
      InsertDescElements(c, s[1..]);
      forall x | x in rest
        ensures x.score <= s[0].score
      {
        if x != c {
          var i :| 0 <= i < |s[1..]| && s[1..][i] == x;
          assert s[i + 1] == x;
        }
      }
      ConsSorted(s[0], rest);
    }
  }

  /** A head scoring at least as much as every element of a sorted tail
      keeps the sequence sorted. */
  lemma ConsSorted(head: Candidate, rest: seq<Candidate>)
    requires SortedDesc(rest)
    requires forall x :: x in rest ==> x.score <= head.score
    ensures SortedDesc([head] + rest)
  {
    var r := [head] + rest;
    forall i, j | 0 <= i < j < |r|
      ensures r[i].score >= r[j].score
    {
      if i > 0 {
        assert r[i] == rest[i - 1] && r[j] == rest[j - 1];
      } else {
        assert r[j] == rest[j - 1] && rest[j - 1] in rest;
      }
    }
  }

  /** The ordering `nlargest` returns: non-increasing scores, the same
      candidates. */
  lemma {:induction false} SortDescSorted(s: seq<Candidate>)
    ensures SortedDesc(SortDesc(s))
    ensures multiset(SortDesc(s)) == multiset(s)
    ensures |SortDesc(s)| == |s|
  {
    if |s| > 0 {
      SortDescSorted(s[..|s| - 1]);
      InsertDescSorted(s[|s| - 1], SortDesc(s[..|s| - 1]));
      InsertDescElements(s[|s| - 1], SortDesc(s[..|s| - 1]));
      assert s == s[..|s| - 1] + [s[|s| - 1]];
    }
  }

  /** `nlargest(10, "Skyrocket Score")`. */
  function NLargest(s: seq<Candidate>, k: nat): seq<Candidate> {
    var sorted := SortDesc(s);
    SortDescSorted(s);
    sorted[..if k < |sorted| then k else |sorted|]
  }

  /** The selection holds `min(k, n)` candidates in non-increasing score
      order, all drawn from the input, and no candidate left out scores
      more than one kept. */
  lemma TopK(s: seq<Candidate>, k: nat)
    ensures var top := NLargest(s, k);
      |top| == (if k < |s| then k else |s|) &&
      SortedDesc(top) &&
      multiset(top) <= multiset(s) &&
      (forall x, y :: x in multiset(s) - multiset(top) && y in top ==> x.score <= y.score)
  {
    var sorted := SortDesc(s);
    SortDescSorted(s);
    var m := if k < |sorted| then k else |sorted|;
    SortedSplit(sorted, m);
  }

  /** Cutting a sorted sequence at `m`: nothing after the cut scores more
      than anything before it. */
  lemma SortedSplit(sorted: seq<Candidate>, m: nat)
    requires SortedDesc(sorted) && m <= |sorted|
    ensures SortedDesc(sorted[..m])
    ensures multiset(sorted[..m]) <= multiset(sorted)
    ensures forall x, y :: x in multiset(sorted) - multiset(sorted[..m]) && y in sorted[..m] ==> x.score <= y.score
  {
    var top, rest := sorted[..m], sorted[m..];
    LeftAfterCut(sorted, m);
    forall x, y | x in multiset(sorted) - multiset(top) && y in top
      ensures x.score <= y.score
    {
      var i :| 0 <= i < |rest| && rest[i] == x;
      var j :| 0 <= j < |top| && top[j] == y;
      assert sorted[m + i] == x && sorted[j] == y;
    }
  }

  /** What a prefix leaves out of the multiset lies after the cut. */
  lemma LeftAfterCut(s: seq<Candidate>, m: nat)
    requires m <= |s|
    ensures multiset(s[..m]) <= multiset(s)
    ensures forall x :: x in multiset(s) - multiset(s[..m]) ==> x in s[m..]
  {
    assert s == s[..m] + s[m..];
    assert multiset(s) == multiset(s[..m]) + multiset(s[m..]);
  }

  /** `int(x)`: truncation toward zero. */
  function Trunc(x: real): int {
    if x >= 0.0 then x.Floor else -((-x).Floor)
  }

  lemma TruncMonotone(x: real, y: real)
    requires x <= y
    ensures Trunc(x) <= Trunc(y)
  {
  }

  /** One list item: symbol, integer score, reason ("N/A" for NaN). */
  datatype ListItem = ListItem(symbol: Json, score: int, reason: Json)

  /** The snippet: "" (no score column or an empty table), the
      no-candidates block, or the ordered list. */
  datatype TopTen = NoScores | NoCandidates | Listed(items: seq<ListItem>)

  function ItemOf(c: Candidate): ListItem {
    ListItem(Cell(c.row, "Symbol"), Trunc(c.score), if Cell(c.row, ReasonColumn) == Null then Str("N/A") else c.row[ReasonColumn])
  }

  /** The snippet `generate_top_10_html` returns for table `t`. */
  function TopTenOf(t: Table, parse: string -> Option<real>): Result<TopTen, PyError> {
    if !HasColumn(t, ScoreColumn) || |t| == 0 then Ok(NoScores)
    else
      var top := NLargest(Candidates(t, parse), 10);
      if |top| == 0 then Ok(NoCandidates)
      else if !HasColumn(t, "Symbol") then Err(KeyError(Str("Symbol")))
      else if !HasColumn(t, ReasonColumn) then Err(KeyError(Str(ReasonColumn)))
      else Ok(Listed(seq(|top|, i requires 0 <= i < |top| => ItemOf(top[i]))))
  }

  /** The snippet is empty only without scores, the no-candidates block
      appears exactly when no score is numeric, and a list holds 1 to 10
      items in non-increasing integer score, the best numeric scores of
      the table. */
  lemma TopTenProperties(t: Table, parse: string -> Option<real>)
    ensures TopTenOf(t, parse) == Ok(NoScores) <==> !HasColumn(t, ScoreColumn) || |t| == 0
    ensures HasColumn(t, ScoreColumn) && |t| > 0 ==>
      (TopTenOf(t, parse) == Ok(NoCandidates) <==>
         forall i :: 0 <= i < |t| ==> Coerce(Cell(t[i], ScoreColumn), parse).None?)
    ensures TopTenOf(t, parse).Ok? && TopTenOf(t, parse).value.Listed? ==>
      var e := TopTenOf(t, parse).value.items;
      var top := NLargest(Candidates(t, parse), 10);
      1 <= |e| <= 10 && |e| == |top| &&
      (forall i, j :: 0 <= i < j < |e| ==> e[i].score >= e[j].score) &&
      (forall i :: 0 <= i < |e| ==> e[i] == ItemOf(top[i]))
  {
    var cs := Candidates(t, parse);
    NoCandidatesIff(t, parse);
    TopK(cs, 10);
    var top := NLargest(cs, 10);
    ItemsOrdered(top);
  }

  /** Truncation keeps a non-increasing order of scores. */
  lemma ItemsOrdered(top: seq<Candidate>)
    requires SortedDesc(top)
    ensures forall i, j :: 0 <= i < j < |top| ==> ItemOf(top[i]).score >= ItemOf(top[j]).score
  {
    forall i, j | 0 <= i < j < |top|
      ensures ItemOf(top[i]).score >= ItemOf(top[j]).score
    {
      TruncMonotone(top[j].score, top[i].score);
    }
  }

  /** The caller's table, whose score column line 134 rewrites in place. */
  class Frame {
    var rows: Table

    constructor (rows: Table)
      ensures this.rows == rows
    {
      this.rows := rows;
    }
  }

  /** `generate_top_10_html(scored_df)`: coerces the caller's score
      column (unless it returns "" first) and builds the list item by
      item. */
  method GenerateTopTenHtml(frame: Frame, parse: string -> Option<real>) returns (r: Result<TopTen, PyError>)
    modifies frame
    ensures r == TopTenOf(old(frame.rows), parse)
    ensures frame.rows == if !HasColumn(old(frame.rows), ScoreColumn) || |old(frame.rows)| == 0
                          then old(frame.rows) else CoerceScores(old(frame.rows), parse)
  {
    var t := frame.rows;
    if !HasColumn(t, ScoreColumn) || |t| == 0 {
      return Ok(NoScores);
    }
    frame.rows := CoerceScores(t, parse);
    var top := NLargest(Candidates(t, parse), 10);
    if |top| == 0 {
      return Ok(NoCandidates);
    }
    r := ListItems(t, top);
  }

  /** The loop over the top rows, reading each row's symbol and reason;
      the first read of a column the frame lacks raises. */
  method ListItems(t: Table, top: seq<Candidate>) returns (r: Result<TopTen, PyError>)
    requires |top| > 0
    ensures !HasColumn(t, "Symbol") ==> r == Err(KeyError(Str("Symbol")))
    ensures HasColumn(t, "Symbol") && !HasColumn(t, ReasonColumn) ==> r == Err(KeyError(Str(ReasonColumn)))
    ensures HasColumn(t, "Symbol") && HasColumn(t, ReasonColumn) ==>
      r == Ok(Listed(seq(|top|, i requires 0 <= i < |top| => ItemOf(top[i]))))
  {
    var items: seq<ListItem> := [];
    var i := 0;
    while i < |top|
      invariant 0 <= i <= |top|
      invariant |items| == i
      invariant forall k :: 0 <= k < i ==> items[k] == ItemOf(top[k])
      invariant i > 0 ==> HasColumn(t, "Symbol") && HasColumn(t, ReasonColumn)
    {
      if !HasColumn(t, "Symbol") {
        return Err(KeyError(Str("Symbol")));
      }
      if !HasColumn(t, ReasonColumn) {
        return Err(KeyError(Str(ReasonColumn)));
      }
      items := items + [ItemOf(top[i])];
      i := i + 1;
    }
    assert items == seq(|top|, k requires 0 <= k < |top| => ItemOf(top[k]));
    r := Ok(Listed(items));
  }
}
