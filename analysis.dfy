/** The report assembly of screen/iterations/utils/analysis.py, narrowed
    to its decisions: loading the final artifact, the per-symbol scoring
    loop with its error fallback, the lookback, market-cap and RSI rules,
    and the insertion of the Top-10 snippet into the list of HTML chunks.
    The HTML text itself, the price statistics and the downloads are not
    modelled; a chunk is a string and its content is given. */
module Analysis {
  import opened Json
  import opened Wrappers
  import opened Workspace
  import opened Skyrocket

  // ---------------------------------------------------------------
  // Loading the final artifact
  // ---------------------------------------------------------------

  /** The report is built only from a final artifact that loads and has
      rows; any exception while loading, and an empty table, give None. */
  function LoadFinal(loaded: Result<Table, PyError>): (r: Option<Table>)
    ensures r.Some? <==> loaded.Ok? && |loaded.value| > 0
    ensures r.Some? ==> r.value == loaded.value
  {
    if loaded.Err? || |loaded.value| == 0 then None else Some(loaded.value)
  }

  // ---------------------------------------------------------------
  // Pure display rules
  // ---------------------------------------------------------------

  /** How a market cap is shown: scaled to billions or millions with a
      suffix, in plain dollars, as "$nan" for a NaN cap, or as the text
      of a non-number. */
  datatype CapLabel = Billions(scaled: real) | Millions(scaled: real) | Dollars(amount: real) | NanDollars | Text(value: Json)

  /** The market-cap rule; `isinstance(x, (int, float))` holds for ints,
      floats and booleans, and for NaN (`Null`), a float that fails both
      comparisons and so takes the dollars branch. */
  function MarketCapLabel(cap: Json): (l: CapLabel)
    ensures l.Billions? <==> AsNumber(cap).Some? && AsNumber(cap).value >= 1000000000.0
    ensures l.Millions? <==> AsNumber(cap).Some? && 1000000.0 <= AsNumber(cap).value < 1000000000.0
    ensures l.Dollars? <==> AsNumber(cap).Some? && AsNumber(cap).value < 1000000.0
    ensures l.NanDollars? <==> cap == Null
    ensures l.Text? <==> AsNumber(cap).None? && cap != Null
    ensures l.Billions? ==> l.scaled >= 1.0 && l.scaled * 1000000000.0 == AsNumber(cap).value
    ensures l.Millions? ==> 1.0 <= l.scaled < 1000.0 && l.scaled * 1000000.0 == AsNumber(cap).value
    ensures l.Dollars? ==> l.amount == AsNumber(cap).value
    ensures l.Text? ==> l.value == cap
  {
    if cap == Null then NanDollars
    else match AsNumber(cap)
      case None => Text(cap)
      case Some(x) =>
        if x >= 1000000000.0 then Billions(x / 1000000000.0)
        else if x >= 1000000.0 then Millions(x / 1000000.0)
        else Dollars(x)
  }

  /** The close a `k`-day return is measured from: `iloc[-k]` when there
      are at least `k` closes, otherwise the oldest one. */
  function LookbackIndex(n: nat, k: nat): (i: nat)
    requires n > 0 && k > 0
    ensures i < n
    ensures n >= k ==> n - i == k
    ensures n < k ==> i == 0
  {
    if n >= k then n - k else 0
  }

  /** Longer lookbacks never start later: the 6-month close is at or
      before the 3-month one, which is at or before the 1-month one, at
      or before the 1-week one, and the year return uses the oldest. */
  lemma LookbacksOrdered(n: nat, k1: nat, k2: nat)
    requires n > 0 && 0 < k1 <= k2
    ensures LookbackIndex(n, k2) <= LookbackIndex(n, k1)
    ensures LookbackIndex(n, 120) <= LookbackIndex(n, 60) <= LookbackIndex(n, 20) <= LookbackIndex(n, 5) < n
  {
  }

  /** The RSI colour class. */
  datatype RsiClass = Overbought | Oversold | Neutral

  function RsiClassOf(rsi: real): (c: RsiClass)
    ensures c == Overbought <==> rsi > 70.0
    ensures c == Oversold <==> rsi < 30.0
    ensures c == Neutral <==> 30.0 <= rsi <= 70.0
  {
    if rsi > 70.0 then Overbought else if rsi < 30.0 then Oversold else Neutral
  }

  /** A higher RSI never moves the class from overbought back toward
      oversold. */
  lemma RsiClassMonotone(a: real, b: real)
    requires a <= b
    ensures RsiClassOf(a) == Overbought ==> RsiClassOf(b) == Overbought
    ensures RsiClassOf(b) == Oversold ==> RsiClassOf(a) == Oversold
  {
  }

  // ---------------------------------------------------------------
  // The scoring loop
  // ---------------------------------------------------------------

  /** A score cell as the loop leaves it: NaN, or an integer 0..10. */
  predicate ValidScoreCell(j: Json) {
    j == Null || (j.Int? && 0 <= j.i <= 10)
  }

  predicate ScoresValid(t: Table) {
    forall i :: 0 <= i < |t| ==> ValidScoreCell(Cell(t[i], ScoreColumn))
  }

  /** The two columns added before scoring: NaN scores, empty reasons. */
  function InitScores(t: Table): (r: Table)
    ensures |r| == |t| && ScoresValid(r)
    ensures forall i, c :: 0 <= i < |t| && c in t[i] && c != ScoreColumn && c != ReasonColumn ==> c in r[i] && r[i][c] == t[i][c]
  {
    seq(|t|, i requires 0 <= i < |t| => t[i][ScoreColumn := Null][ReasonColumn := Str("")])
  }

  /** The cells a scoring outcome writes: the score and its reason text
      (`render` stands for joining the reasons with ", "), or 0 and
      "Error during scoring" when scoring raised. */
  function ScoreCells(outcome: Result<Scored, PyError>, render: seq<Reason> -> string): (Json, Json) {
    match outcome
    case Err(_) => (Int(0), Str("Error during scoring"))
    case Ok(s) => (Int(s.score), Str(if s.reason.NotAvailable? then "N/A" else render(s.reason.reasons)))
  }

  /** `df["Symbol"] == symbol`; NaN equals nothing. */
  predicate Matches(row: Row, symbol: Json) {
    symbol != Null && Cell(row, "Symbol") == symbol
  }

  function FirstMatch(t: Table, symbol: Json): (r: Option<nat>)
    ensures r.Some? ==> r.value < |t| && Matches(t[r.value], symbol)
    ensures r.None? ==> forall i :: 0 <= i < |t| ==> !Matches(t[i], symbol)
  {
    if |t| == 0 then None
    else if Matches(t[0], symbol) then Some(0)
    else
      var r := FirstMatch(t[1..], symbol);
      assert forall i :: 1 <= i < |t| ==> t[i] == t[1..][i - 1];
      if r.Some? then Some(r.value + 1) else None
  }

  /** `df.loc[df["Symbol"] == symbol, [score, reason]] = cells`. */
  function SetScore(t: Table, symbol: Json, cells: (Json, Json)): (r: Table)
    ensures |r| == |t|
    ensures forall i :: 0 <= i < |t| && !Matches(t[i], symbol) ==> r[i] == t[i]
    ensures forall i :: 0 <= i < |t| && Matches(t[i], symbol) ==> Cell(r[i], ScoreColumn) == cells.0 && Matches(r[i], symbol)
  {
    seq(|t|, i requires 0 <= i < |t| =>
      if Matches(t[i], symbol) then t[i][ScoreColumn := cells.0][ReasonColumn := cells.1] else t[i])
  }

  /** What the loop fetches for a symbol: None when fetching its `info`
      raised and the symbol is skipped; otherwise the `info` and the
      slice of the price download for it, whose extraction may raise
      inside the scoring `try`. */
  type Fetch = Json -> Option<(Row, Result<History, PyError>)>

  /** The outcome of the scoring `try` for a row. */
  function ScoreOutcome(row: Row, info: Row, history: Result<History, PyError>, parse: string -> Option<real>)
    : Result<Scored, PyError>
  {
    if history.Err? then Err(history.error) else CalculateSkyrocketScore(row, info, history.value, parse)
  }

  /** One iteration of the loop: a symbol with no row (`iloc[0]` raises)
      or whose fetch raised is skipped; otherwise its rows get the score
      of its first row. */
  function ScoreStep(t: Table, symbol: Json, fetched: Fetch, parse: string -> Option<real>,
                     render: seq<Reason> -> string): Table
  {
    var first := FirstMatch(t, symbol);
    if first.None? || fetched(symbol).None? then t
    else
      var (info, history) := fetched(symbol).value;
      SetScore(t, symbol, ScoreCells(ScoreOutcome(t[first.value], info, history, parse), render))
  }

  /** The table after the loop has handled `symbols` in order. */
  function ScoreLoop(t: Table, symbols: seq<Json>, fetched: Fetch, parse: string -> Option<real>,
                     render: seq<Reason> -> string): Table
  {
    if |symbols| == 0 then t
    else ScoreStep(ScoreLoop(t, symbols[..|symbols| - 1], fetched, parse, render), symbols[|symbols| - 1], fetched, parse, render)
  }

  /** Every cell a step writes is a score in 0..10: the score itself, or
      the 0 of the fallback. */
  lemma ScoreStepKeepsValid(t: Table, symbol: Json, fetched: Fetch, parse: string -> Option<real>,
                            render: seq<Reason> -> string)
    requires ScoresValid(t)
    ensures var r := ScoreStep(t, symbol, fetched, parse, render);
      ScoresValid(r) && |r| == |t|
  {
    var first := FirstMatch(t, symbol);
    if first.Some? && fetched(symbol).Some? {
      var (info, history) := fetched(symbol).value;
      var row := t[first.value];
      if history.Ok? {
        ScoreProperties(row, info, history.value, parse);
      }
      var cells := ScoreCells(ScoreOutcome(row, info, history, parse), render);
      assert ValidScoreCell(cells.0);
    }
  }

  /** However many symbols are scored and whichever raise, the score
      column holds only NaN or integers from 0 to 10. */
  lemma {:induction false} ScoreLoopKeepsValid(t: Table, symbols: seq<Json>, fetched: Fetch,
                                                parse: string -> Option<real>, render: seq<Reason> -> string)
    requires ScoresValid(t)
    ensures var r := ScoreLoop(t, symbols, fetched, parse, render);
      ScoresValid(r) && |r| == |t|
  {
    if |symbols| > 0 {
      ScoreLoopKeepsValid(t, symbols[..|symbols| - 1], fetched, parse, render);
      ScoreStepKeepsValid(ScoreLoop(t, symbols[..|symbols| - 1], fetched, parse, render),
                          symbols[|symbols| - 1], fetched, parse, render);
    }
  }

  /** A symbol whose scoring raises is recorded with 0 and the error
      text on every one of its rows; one whose scoring runs is recorded
      with its score, since its row always has a Symbol. */
  lemma ScoringFallback(t: Table, symbol: Json, fetched: Fetch, parse: string -> Option<real>,
                        render: seq<Reason> -> string)
    requires FirstMatch(t, symbol).Some? && fetched(symbol).Some?
    ensures var r := ScoreStep(t, symbol, fetched, parse, render);
      var (info, history) := fetched(symbol).value;
      forall i :: 0 <= i < |t| && Matches(t[i], symbol) ==>
        ScoreColumn in r[i] && ReasonColumn in r[i] &&
        (history.Err? ==> r[i][ScoreColumn] == Int(0) && r[i][ReasonColumn] == Str("Error during scoring")) &&
        (history.Ok? ==> r[i][ScoreColumn] == Int(CalculateSkyrocketScore(t[FirstMatch(t, symbol).value], info, history.value, parse).value.score))
  {
  }

  /** The scoring loop over `symbols`, writing into the caller's table. */
  method ScoreSymbols(frame: Frame, symbols: seq<Json>, fetched: Fetch, parse: string -> Option<real>,
                      render: seq<Reason> -> string)
    modifies frame
    ensures frame.rows == ScoreLoop(old(frame.rows), symbols, fetched, parse, render)
  {
    var k := 0;
    while k < |symbols|
      invariant 0 <= k <= |symbols|
      invariant frame.rows == ScoreLoop(old(frame.rows), symbols[..k], fetched, parse, render)
    {
      var symbol := symbols[k];
      var first := FirstMatch(frame.rows, symbol);
      var data := fetched(symbol);
      if first.Some? && data.Some? {
        var (info, history) := data.value;
        var outcome := ScoreOutcome(frame.rows[first.value], info, history, parse);
        frame.rows := SetScore(frame.rows, symbol, ScoreCells(outcome, render));
      }
      assert symbols[..k + 1][..k] == symbols[..k];
      k := k + 1;
    }
    assert symbols[..k] == symbols;
  }

  // ---------------------------------------------------------------
  // Inserting the Top-10 snippet
  // ---------------------------------------------------------------

  const SummaryOpen: string := "<div class=\"summary\">"
  const DivClose: string := "</div>"
  /** The two comments below share their opening words. */
  const CommentOpen: string := "<!-- Placeholder"
  const CommentTopic: string := " for Skyrocket Summary"
  /** The comment the search looks for. */
  const PlaceholderMarker: string := CommentOpen + CommentTopic + " -->"
  const DetailedHeader: string := "<h2>Detailed Stock Analysis</h2>"
  /** The comment the report header actually carries. */
  const HeaderComment: string := CommentOpen + CommentTopic + " - will be added" + " dynamically -->"

  /** `sub` occurs in `s` at index `i`. */
  predicate OccursAt(s: string, sub: string, i: int) {
    0 <= i <= |s| - |sub| && s[i..i + |sub|] == sub
  }

  /** Python's `sub in s`. */
  predicate Contains(s: string, sub: string) {
    exists i | 0 <= i <= |s| - |sub| :: OccursAt(s, sub, i)
  }

  /** The test of the search loop at chunk `i`: a closing div right after
      a chunk that opens the summary, or the placeholder comment. */
  predicate SummaryEndAt(content: seq<string>, i: nat)
    requires i < |content|
  {
    (i > 0 && Contains(content[i], DivClose) && Contains(content[i - 1], SummaryOpen)) ||
    Contains(content[i], PlaceholderMarker)
  }

  /** The first index from `i` on that passes the test, or -1. */
  function FindSummaryEnd(content: seq<string>, i: nat): (r: int)
    requires i <= |content|
    decreases |content| - i
    ensures r == -1 || (i <= r < |content| && SummaryEndAt(content, r))
    ensures r != -1 ==> forall j :: i <= j < r ==> !SummaryEndAt(content, j)
    ensures r == -1 ==> forall j :: i <= j < |content| ==> !SummaryEndAt(content, j)
  {
    if i == |content| then -1
    else if SummaryEndAt(content, i) then i
    else FindSummaryEnd(content, i + 1)
  }

  /** The first index from `i` on holding the detailed-analysis header,
      or -1. */
  function FindHeader(content: seq<string>, i: nat): (r: int)
    requires i <= |content|
    decreases |content| - i
    ensures r == -1 || (i <= r < |content| && Contains(content[r], DetailedHeader))
    ensures r != -1 ==> forall j :: i <= j < r ==> !Contains(content[j], DetailedHeader)
    ensures r == -1 ==> forall j :: i <= j < |content| ==> !Contains(content[j], DetailedHeader)
  {
    if i == |content| then -1
    else if Contains(content[i], DetailedHeader) then i
    else FindHeader(content, i + 1)
  }

  /** Where `list.insert(i, x)` puts `x` in a list of length `n`: a
      negative index counts from the end, and the position is clamped to
      the list. */
  function InsertPosition(n: nat, i: int): (p: nat)
    ensures p <= n
    ensures 0 <= i <= n ==> p == i
    ensures i > n ==> p == n
    ensures i < 0 && 0 <= n + i ==> p == n + i
    ensures n + i < 0 ==> p == 0
  {
    if i < 0 then (if n + i < 0 then 0 else n + i) else (if i > n then n else i)
  }

  /** `list.insert(i, x)`: `x` lands at the clamped position, the elements
      before it are kept in place and the ones from it on move up by one. */
  function PyInsert<T>(s: seq<T>, i: int, x: T): (r: seq<T>)
    ensures var p := InsertPosition(|s|, i);
      |r| == |s| + 1 && r[p] == x &&
      (forall j :: 0 <= j < p ==> r[j] == s[j]) &&
      (forall j :: p <= j < |s| ==> r[j + 1] == s[j])
  {
    var p := InsertPosition(|s|, i);
    s[..p] + [x] + s[p..]
  }

  /** The elementwise description of `PyInsert` as slices. */
  lemma PyInsertSlices<T>(s: seq<T>, i: int, x: T)
    ensures var p := InsertPosition(|s|, i);
      PyInsert(s, i, x) == s[..p] + [x] + s[p..]
  {
    var p := InsertPosition(|s|, i);
    var r := PyInsert(s, i, x);
    var q := s[..p] + [x] + s[p..];
    assert |r| == |q|;
    forall j | 0 <= j < |r| ensures r[j] == q[j] {
      if j < p {
      } else if j == p {
      } else {
        assert r[j] == s[j - 1];
      }
    }
  }

  /** The list comprehension dropping every chunk with the placeholder. */
  function WithoutPlaceholder(content: seq<string>): (r: seq<string>)
    ensures |r| <= |content|
    ensures forall j :: 0 <= j < |r| ==> !Contains(r[j], PlaceholderMarker)
    ensures (forall j :: 0 <= j < |content| ==> !Contains(content[j], PlaceholderMarker)) ==> r == content
  {
    if |content| == 0 then []
    else
      var rest := WithoutPlaceholder(content[..|content| - 1]);
      var last := content[|content| - 1];
      assert content == content[..|content| - 1] + [last];
      if Contains(last, PlaceholderMarker) then rest else rest + [last]
  }

  /** The chunk list after the insertion. */
  function InsertedTopTen(content: seq<string>, snippet: string): seq<string> {
    var k := FindSummaryEnd(content, 0);
    if k != -1 then WithoutPlaceholder(PyInsert(content, k + 1, snippet))
    else
      var j := FindHeader(content, 0);
      if j != -1 then PyInsert(content, j, snippet) else PyInsert(content, -1, snippet)
  }

  /** The report being assembled: `html_content`. */
  class Report {
    var content: seq<string>

    constructor (header: string)
      ensures content == [header]
    {
      content := [header];
    }

    /** `html_content.append(stock_html)`. */
    method AppendCard(card: string)
      modifies this
      ensures content == old(content) + [card]
    {
      content := content + [card];
    }

    /** The insertion of the Top-10 snippet: look for the chunk that
        closes the summary, insert after it and drop placeholder chunks;
        otherwise insert before the detailed-analysis header, or before
        the last chunk. */
    method InsertTopTen(snippet: string)
      modifies this
      ensures content == InsertedTopTen(old(content), snippet)
    {
      var summaryEnd := -1;
      var i := 0;
      while i < |content|
        invariant 0 <= i <= |content|
        invariant FindSummaryEnd(content, 0) == FindSummaryEnd(content, i)
        decreases |content| - i
      {
        if (i > 0 && Contains(content[i], DivClose) && Contains(content[i - 1], SummaryOpen)) ||
           Contains(content[i], PlaceholderMarker) {
          summaryEnd := i;
          break;
        }
        i := i + 1;
      }
      if summaryEnd != -1 {
        content := PyInsert(content, summaryEnd + 1, snippet);
        content := WithoutPlaceholder(content);
        return;
      }
      var j := 0;
      while j < |content|
        invariant 0 <= j <= |content|
        invariant FindHeader(content, 0) == FindHeader(content, j)
        decreases |content| - j
      {
        if Contains(content[j], DetailedHeader) {
          content := PyInsert(content, j, snippet);
          return;
        }
        j := j + 1;
      }
      content := PyInsert(content, -1, snippet);
    }
  }

  /** When no chunk holds the placeholder, the insertion adds exactly the
      snippet and keeps every other chunk in its order. */
  lemma InsertionAddsOnlySnippet(content: seq<string>, snippet: string)
    requires forall j :: 0 <= j < |content| ==> !Contains(content[j], PlaceholderMarker)
    requires !Contains(snippet, PlaceholderMarker)
    ensures var r := InsertedTopTen(content, snippet);
      |r| == |content| + 1 &&
      exists p :: 0 <= p <= |content| && r == content[..p] + [snippet] + content[p..]
  {
    var k := FindSummaryEnd(content, 0);
    if k != -1 {
      var ins := PyInsert(content, k + 1, snippet);
      assert ins == content[..k + 1] + [snippet] + content[k + 1..];
      forall j | 0 <= j < |ins|
        ensures !Contains(ins[j], PlaceholderMarker)
      {
        if j < k + 1 {
          assert ins[j] == content[j];
        } else if j > k + 1 {
          assert ins[j] == content[j - 1];
        }
      }
    }
  }

  /** With the header first and a stock card after it, the test matches
      the first card (a closing div after the chunk that opens the
      summary), so the snippet lands after the first card, not right
      after the summary. */
  lemma SnippetAfterFirstCard(content: seq<string>, snippet: string)
    requires |content| >= 2
    requires Contains(content[0], SummaryOpen) && Contains(content[1], DivClose)
    requires forall j :: 0 <= j < |content| ==> !Contains(content[j], PlaceholderMarker)
    requires !Contains(snippet, PlaceholderMarker)
    ensures InsertedTopTen(content, snippet) == content[..2] + [snippet] + content[2..]
    ensures InsertedTopTen(content, snippet)[2] == snippet
  {
    assert !SummaryEndAt(content, 0);
    assert SummaryEndAt(content, 1);
    assert FindSummaryEnd(content, 0) == 1;
    InsertionAddsOnlySnippet(content, snippet);
    var ins := PyInsert(content, 2, snippet);
    forall j | 0 <= j < |ins|
      ensures !Contains(ins[j], PlaceholderMarker)
    {
      if j < 2 {
        assert ins[j] == content[j];
      } else if j > 2 {
        assert ins[j] == content[j - 1];
      }
    }
  }

  /** With no stock card, the header is the only chunk: nothing passes
      the test, and the fallback puts the snippet before the header, at
      the very start of the document. */
  lemma NoCardsSnippetFirst(header: string, snippet: string)
    requires Contains(header, DetailedHeader) && !Contains(header, PlaceholderMarker)
    ensures InsertedTopTen([header], snippet) == [snippet, header]
  {
    assert !SummaryEndAt([header], 0);
    assert FindSummaryEnd([header], 0) == -1;
    assert FindHeader([header], 0) == 0;
  }

  /** The only '<' of the header's comment is its first character. */
  lemma HeaderCommentOpensOnce()
    ensures |HeaderComment| == 70 && |PlaceholderMarker| == 42
    ensures forall i :: 1 <= i < |HeaderComment| ==> HeaderComment[i] != '<'
  {
    assert '<' !in CommentOpen[1..];
  }

  /** The header's comment is not the marker the search looks for: they
      part at the 41st character. */
  lemma HeaderCommentIsNotPlaceholder()
    ensures !Contains(HeaderComment, PlaceholderMarker)
  {
    var s, m := HeaderComment, PlaceholderMarker;
    HeaderCommentOpensOnce();
    assert s[40] != m[40];
    forall i | 0 <= i <= |s| - |m|
      ensures !OccursAt(s, m, i)
    {
      if i == 0 {
        assert s[i..i + |m|][40] != m[40];
      } else {
        assert s[i..i + |m|][0] != m[0];
      }
    }
  }
}
