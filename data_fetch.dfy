/**
 * The response handling of `DataFetcher` (src/data_fetch.py). The HTTP
 * requests are not modelled: each operation receives the body it would have
 * read (the CSV text of a FRED series, the list of daily closes of the S&P 500)
 * or `None` when the request itself failed, and Python's `float(text)` is the
 * parameter `parse` (`None` where `float` raises `ValueError`).
 */
module DataFetch {
  import opened Wrappers
  import opened Decimal
  import opened Text
  import opened Scoring

  /** Why a step raised; every one of them is re-raised as a plain `Exception`. */
  datatype FetchError =
    | RequestFailed      // the request, `raise_for_status` or the JSON navigation raised
    | NoData             // fewer than two lines in the CSV
    | NoValidData        // no data line below the header
    | InvalidNumber      // `float` rejected a value field
    | NotEnoughData      // fewer than 200 closes for the moving average
    | NotEnoughHistory   // the look-back guard of the rate change
    | IndexOutOfRange    // `valid_data[weeks * 5]` past the end of the list
    | ZeroDivision       // division by a zero average or a zero past value

  /** Python's `float(text)`. */
  type Parser = string -> Option<real>

  /** The number of daily closes the moving average spans. */
  const MovingAverageWindow: nat := 200

  /** Business days per week in the look-back of the rate change. */
  const BusinessDaysPerWeek: nat := 5

  // ---------------------------------------------------------------------------
  // FRED CSV
  // ---------------------------------------------------------------------------

  /** `response.text.strip().split('\n')`. */
  function ResponseLines(text: string): (lines: seq<string>)
    ensures 1 <= |lines|
    ensures 2 <= |lines| <==> '\n' in Strip(text)
    ensures Join(lines, "\n") == Strip(text)
    ensures forall i :: 0 <= i < |lines| ==> '\n' !in lines[i]
  {
    SplitProperties(Strip(text), '\n');
    Split(Strip(text), '\n')
  }

  /**
   * The value field of a CSV line: its second comma-separated field, when
   * there is one and it is neither "." (FRED's mark for a missing day) nor
   * empty.
   */
  function ValueField(line: string): (f: Option<string>)
    ensures ',' !in line ==> f.None?
    ensures f.Some? ==> f.value != "." && f.value != "" && ',' !in f.value
  {
    var parts := Split(line, ',');
    SplitProperties(line, ',');
    if |parts| >= 2 && parts[1] != "." && parts[1] != "" then
      Some(parts[1])
    else
      None
  }

  /** A two-field row `date,value` is a data line exactly when its value is neither "." nor empty. */
  lemma ValueFieldOfRow(date: string, value: string)
    requires ',' !in date && ',' !in value
    ensures ValueField(date + "," + value) == if value == "." || value == "" then None else Some(value)
  {
    assert Join([date, value], ",") == date + "," + value by {
      JoinCons([date, value], ",");
    }
    SplitJoin([date, value], ',');
  }

  /** The index of the last data line among `rows`, or `None` when none is a data line. */
  function LastDataLine(rows: seq<string>): (k: Option<nat>)
    ensures k.None? <==> forall i :: 0 <= i < |rows| ==> ValueField(rows[i]).None?
    ensures k.Some? ==> && k.value < |rows|
                        && ValueField(rows[k.value]).Some?
                        && forall j :: k.value < j < |rows| ==> ValueField(rows[j]).None?
    decreases |rows|
  {
    if |rows| == 0 then None
    else if ValueField(rows[|rows| - 1]).Some? then Some(|rows| - 1)
    else
      var init := rows[..|rows| - 1];
      assert forall i :: 0 <= i < |init| ==> init[i] == rows[i];
      LastDataLine(init)
  }

  /** A data line followed only by other lines is the last data line. */
  lemma LastDataLineIsLast(rows: seq<string>, k: nat)
    requires k < |rows| && ValueField(rows[k]).Some?
    requires forall j :: k < j < |rows| ==> ValueField(rows[j]).None?
    ensures LastDataLine(rows) == Some(k)
  {
  }

  /**
   * What `_fetch_fred_data` returns for the lines of a response: the value of
   * the last data line below the header; an error when there is no line below
   * the header, when no line is a data line, or when `float` rejects the value.
   */
  function FredLatest(lines: seq<string>, parse: Parser): (r: Result<real, FetchError>)
    ensures |lines| < 2 <==> r == Err(NoData)
    ensures r == Err(NoValidData) <==> 2 <= |lines| && forall i :: 1 <= i < |lines| ==> ValueField(lines[i]).None?
    ensures r.Ok? ==> exists k :: && 1 <= k < |lines|
                                  && ValueField(lines[k]).Some?
                                  && parse(ValueField(lines[k]).value) == Some(r.value)
                                  && forall j :: k < j < |lines| ==> ValueField(lines[j]).None?
  {
    if |lines| < 2 then Err(NoData)
    else
      var rows := lines[1..];
      assert forall i :: 1 <= i < |lines| ==> lines[i] == rows[i - 1];
      match LastDataLine(rows)
      case None => Err(NoValidData)
      case Some(k) =>
        match parse(ValueField(rows[k]).value)
        case None => Err(InvalidNumber)
        case Some(v) => Ok(v)
  }

  /** The header line is never read: replacing it changes nothing. */
  lemma FredLatestIgnoresHeader(lines: seq<string>, header: string, parse: Parser)
    requires 1 <= |lines|
    ensures FredLatest([header] + lines[1..], parse) == FredLatest(lines, parse)
  {
    assert ([header] + lines[1..])[1..] == lines[1..];
  }

  /** A data line below the header followed only by other lines decides the result. */
  lemma FredLatestAt(lines: seq<string>, k: nat, parse: Parser)
    requires 1 <= k < |lines| && ValueField(lines[k]).Some?
    requires forall j :: k < j < |lines| ==> ValueField(lines[j]).None?
    ensures FredLatest(lines, parse) == match parse(ValueField(lines[k]).value)
                                        case None => Err(InvalidNumber)
                                        case Some(v) => Ok(v)
  {
    var rows := lines[1..];
    assert forall j :: k - 1 < j < |rows| ==> rows[j] == lines[j + 1];
    LastDataLineIsLast(rows, k - 1);
  }

  /**
   * `_fetch_fred_data`: scans the lines from the newest backwards and stops at
   * the first data line. `daysBack` is accepted and, as in the source, has no
   * effect on what is read.
   */
  method FetchFredData(text: string, daysBack: nat, parse: Parser) returns (r: Result<real, FetchError>)
    ensures r == FredLatest(ResponseLines(text), parse)
  {
    var lines := ResponseLines(text);
    if |lines| < 2 {
      return Err(NoData);
    }
    var i := |lines|;
    while i > 1
      invariant 1 <= i <= |lines|
      invariant forall j :: i <= j < |lines| ==> ValueField(lines[j]).None?
    {
      var line := lines[i - 1];
      var parts := Split(line, ',');
      if |parts| >= 2 && parts[1] != "." && parts[1] != "" {
        assert ValueField(line) == Some(parts[1]);
        FredLatestAt(lines, i - 1, parse);
        match parse(parts[1]) {
          case None => return Err(InvalidNumber);
          case Some(v) => return Ok(v);
        }
      }
      i := i - 1;
    }
    return Err(NoValidData);
  }

  // ---------------------------------------------------------------------------
  // The rate change
  // ---------------------------------------------------------------------------

  /** `Ok(prefix + vs)` for `Ok(vs)`, the error unchanged otherwise. */
  function Prepend(prefix: seq<real>, r: Result<seq<real>, FetchError>): (p: Result<seq<real>, FetchError>)
    ensures p.Ok? <==> r.Ok?
    ensures r.Ok? ==> p.value == prefix + r.value
  {
    match r
    case Ok(vs) => Ok(prefix + vs)
    case Err(e) => Err(e)
  }

  /** One step of the history: the last row contributes its value, if it is a data line, before the others. */
  lemma ValidHistoryStep(rows: seq<string>, parse: Parser)
    requires 0 < |rows|
    ensures ValidHistory(rows, parse) ==
              match ValueField(rows[|rows| - 1])
              case None => ValidHistory(rows[..|rows| - 1], parse)
              case Some(f) =>
                match parse(f)
                case None => Err(InvalidNumber)
                case Some(v) => Prepend([v], ValidHistory(rows[..|rows| - 1], parse))
  {
  }

  lemma PrependTwice(a: seq<real>, b: seq<real>, r: Result<seq<real>, FetchError>)
    ensures Prepend(a, Prepend(b, r)) == Prepend(a + b, r)
  {
    if r.Ok? {
      assert a + (b + r.value) == (a + b) + r.value;
    }
  }

  lemma PrependNothing(r: Result<seq<real>, FetchError>)
    ensures Prepend([], r) == r
  {
    if r.Ok? {
      assert [] + r.value == r.value;
    }
  }

  /**
   * Taking one more row, from the end, into a history collected so far: a
   * data line adds its value at the end, a value `float` rejects ends it in an
   * error, any other line adds nothing.
   */
  lemma HistoryStep(rows: seq<string>, acc: seq<real>, parse: Parser)
    requires 0 < |rows|
    ensures ValueField(rows[|rows| - 1]).None? ==>
              Prepend(acc, ValidHistory(rows, parse)) == Prepend(acc, ValidHistory(rows[..|rows| - 1], parse))
    ensures ValueField(rows[|rows| - 1]).Some? && parse(ValueField(rows[|rows| - 1]).value).None? ==>
              Prepend(acc, ValidHistory(rows, parse)) == Err(InvalidNumber)
    ensures ValueField(rows[|rows| - 1]).Some? && parse(ValueField(rows[|rows| - 1]).value).Some? ==>
              Prepend(acc, ValidHistory(rows, parse)) ==
              Prepend(acc + [parse(ValueField(rows[|rows| - 1]).value).value], ValidHistory(rows[..|rows| - 1], parse))
  {
    ValidHistoryStep(rows, parse);
    var older := ValidHistory(rows[..|rows| - 1], parse);
    match ValueField(rows[|rows| - 1]) {
      case None =>
      case Some(f) =>
        match parse(f) {
          case None =>
          case Some(v) =>
            PrependTwice(acc, [v], older);
        }
    }
  }

  /**
   * The values of the data lines among `rows`, newest (last) first, or an
   * error when `float` rejects one of them.
   */
  function ValidHistory(rows: seq<string>, parse: Parser): (r: Result<seq<real>, FetchError>)
    ensures r.Ok? ==> |r.value| <= |rows|
    ensures r.Err? ==> r.error == InvalidNumber
    decreases |rows|
  {
    if |rows| == 0 then Ok([])
    else
      var init := rows[..|rows| - 1];
      match ValueField(rows[|rows| - 1])
      case None => ValidHistory(init, parse)
      case Some(f) =>
        match parse(f)
        case None => Err(InvalidNumber)
        case Some(v) => Prepend([v], ValidHistory(init, parse))
  }

  /**
   * The history is empty exactly when no row is a data line, and otherwise
   * starts with the value of the last data line: it is newest first.
   */
  lemma {:induction false} ValidHistoryNewestFirst(rows: seq<string>, parse: Parser)
    requires ValidHistory(rows, parse).Ok?
    ensures ValidHistory(rows, parse).value == [] <==> LastDataLine(rows).None?
    ensures ValidHistory(rows, parse).value != [] ==>
              parse(ValueField(rows[LastDataLine(rows).value]).value) == Some(ValidHistory(rows, parse).value[0])
    decreases |rows|
  {
    if |rows| > 0 {
      var init := rows[..|rows| - 1];
      ValidHistoryStep(rows, parse);
      if ValueField(rows[|rows| - 1]).None? {
        ValidHistoryNewestFirst(init, parse);
        if LastDataLine(init).Some? {
          assert rows[LastDataLine(init).value] == init[LastDataLine(init).value];
        }
      }
    }
  }

  /** The value fields of the data lines among `rows`, oldest (first) first. */
  function DataFields(rows: seq<string>): (f: seq<string>)
    ensures |f| <= |rows|
    decreases |rows|
  {
    if |rows| == 0 then []
    else
      var init := rows[..|rows| - 1];
      assert forall i :: 0 <= i < |init| ==> init[i] == rows[i];
      match ValueField(rows[|rows| - 1])
      case None => DataFields(init)
      case Some(v) => DataFields(init) + [v]
  }

  /** `float` applied to every field, in order, or `None` when it rejects any of them. */
  function ParseAll(fields: seq<string>, parse: Parser): (r: Option<seq<real>>)
    ensures r.Some? ==> |r.value| == |fields| && forall i :: 0 <= i < |fields| ==> parse(fields[i]) == Some(r.value[i])
    ensures r.None? <==> exists i :: 0 <= i < |fields| && parse(fields[i]).None?
    decreases |fields|
  {
    if |fields| == 0 then Some([])
    else
      var init := fields[..|fields| - 1];
      assert forall i :: 0 <= i < |init| ==> init[i] == fields[i];
      match ParseAll(init, parse)
      case None => None
      case Some(vs) =>
        match parse(fields[|fields| - 1])
        case None => None
        case Some(v) => Some(vs + [v])
  }

  /** The values in the opposite order. */
  function Reverse(s: seq<real>): (r: seq<real>)
    ensures |r| == |s|
    ensures forall i :: 0 <= i < |s| ==> r[i] == s[|s| - 1 - i]
  {
    if |s| == 0 then [] else [s[|s| - 1]] + Reverse(s[..|s| - 1])
  }

  /**
   * The history is the parsed values of all the data lines, reversed so that
   * the newest comes first; it fails exactly when `float` rejects one of them.
   */
  lemma {:induction false} ValidHistoryIsReversedData(rows: seq<string>, parse: Parser)
    ensures ValidHistory(rows, parse) ==
              match ParseAll(DataFields(rows), parse)
              case None => Err(InvalidNumber)
              case Some(vs) => Ok(Reverse(vs))
    decreases |rows|
  {
    if |rows| > 0 {
      var init := rows[..|rows| - 1];
      ValidHistoryIsReversedData(init, parse);
      ValidHistoryStep(rows, parse);
      var d := DataFields(init);
      match ValueField(rows[|rows| - 1]) {
        case None =>
        case Some(f) =>
          assert DataFields(rows) == d + [f];
          assert (d + [f])[..|d|] == d;
          match ParseAll(d, parse) {
            case None =>
            case Some(vs) =>
              match parse(f) {
                case None =>
                case Some(v) =>
                  assert (vs + [v])[..|vs|] == vs;
                  assert Reverse(vs + [v]) == [v] + Reverse(vs);
              }
          }
      }
    }
  }

  /**
   * Entry by entry: a successful history has one value per data line, and its
   * entry `i` is the parsed value of the `(i + 1)`-th data line from the end.
   */
  lemma ValidHistoryEntries(rows: seq<string>, parse: Parser)
    ensures ValidHistory(rows, parse).Err? <==>
              exists i :: 0 <= i < |DataFields(rows)| && parse(DataFields(rows)[i]).None?
    ensures ValidHistory(rows, parse).Ok? ==>
              var history := ValidHistory(rows, parse).value;
              var fields := DataFields(rows);
              && |history| == |fields|
              && forall i :: 0 <= i < |history| ==> parse(fields[|fields| - 1 - i]) == Some(history[i])
  {
    ValidHistoryIsReversedData(rows, parse);
  }

  /**
   * The rate change against the entry `weeks * 5` places back in the
   * newest-first history, with the guard `len(valid_data) < weeks * 5` as
   * written: a history of exactly `weeks * 5` entries passes the guard and
   * then fails on the index.
   */
  function RateChangeAsWritten(current: real, history: seq<real>, weeks: nat): (r: Result<RateChange, FetchError>)
    ensures |history| < weeks * BusinessDaysPerWeek ==> r == Err(NotEnoughHistory)
    ensures |history| == weeks * BusinessDaysPerWeek ==> r == Err(IndexOutOfRange)
    ensures weeks * BusinessDaysPerWeek < |history| ==> r == ChangeAgainst(current, history[weeks * BusinessDaysPerWeek], weeks)
    ensures r.Ok? ==> weeks * BusinessDaysPerWeek < |history| && r.value.weeks == weeks
  {
    var lookBack := weeks * BusinessDaysPerWeek;
    if |history| < lookBack then Err(NotEnoughHistory)
    else if lookBack >= |history| then Err(IndexOutOfRange)
    else ChangeAgainst(current, history[lookBack], weeks)
  }

  /**
   * The rate change with the guard the indexing needs: a history of at most
   * `weeks * 5` entries is rejected as too short.
   */
  function RateChangeFrom(current: real, history: seq<real>, weeks: nat): (r: Result<RateChange, FetchError>)
    ensures |history| <= weeks * BusinessDaysPerWeek <==> r == Err(NotEnoughHistory)
    ensures weeks * BusinessDaysPerWeek < |history| ==> r == ChangeAgainst(current, history[weeks * BusinessDaysPerWeek], weeks)
  {
    var lookBack := weeks * BusinessDaysPerWeek;
    if |history| <= lookBack then Err(NotEnoughHistory)
    else ChangeAgainst(current, history[lookBack], weeks)
  }

  /**
   * `(current - past) / past * 100`, with the three values rounded to 3, 3 and
   * 2 decimals and `weeks` echoed; a zero past value divides by zero.
   */
  function ChangeAgainst(current: real, past: real, weeks: nat): (r: Result<RateChange, FetchError>)
    ensures r.Err? <==> past == 0.0
    ensures r.Err? ==> r.error == ZeroDivision
    ensures r.Ok? ==> r.value.weeks == weeks
    ensures r.Ok? ==> current - 0.0005 < r.value.current <= current + 0.0005
    ensures r.Ok? ==> past - 0.0005 < r.value.past <= past + 0.0005
    ensures r.Ok? ==> var exact := (current - past) / past * 100.0;
                      exact - 0.005 < r.value.changePct <= exact + 0.005
    ensures r.Ok? && 0.0 < past ==> (current < past ==> r.value.changePct <= 0.0)
  {
    if past == 0.0 then Err(ZeroDivision)
    else
      var exact := (current - past) / past * 100.0;
      assert 0.0 < past && current < past ==> exact < 0.0 by {
        if 0.0 < past && current < past {
          assert (current - past) / past < 0.0;
        }
      }
      assert exact < 0.0 ==> Round(exact, 100) <= 0.0 by {
        assert (exact * 100.0 + 0.5).Floor as real <= exact * 100.0 + 0.5;
      }
      Ok(RateChange(Round(current, 1000), Round(past, 1000), Round(exact, 100), weeks))
  }

  /** The guard as written lets through a history it cannot index: exactly `weeks * 5` entries. */
  lemma GuardAdmitsUnindexableHistory(current: real, history: seq<real>, weeks: nat)
    requires |history| == weeks * BusinessDaysPerWeek
    ensures !(|history| < weeks * BusinessDaysPerWeek)
    ensures !(weeks * BusinessDaysPerWeek < |history|)
    ensures RateChangeAsWritten(current, history, weeks) == Err(IndexOutOfRange)
    ensures RateChangeFrom(current, history, weeks) == Err(NotEnoughHistory)
  {
  }

  /**
   * The two guards disagree only about which error is raised: both succeed on
   * the same histories, with the same result, and since every error is
   * re-raised as a plain exception the caller sees the same outcome.
   */
  lemma GuardsAgreeUpToTheError(current: real, history: seq<real>, weeks: nat)
    ensures RateChangeAsWritten(current, history, weeks).Ok? <==> RateChangeFrom(current, history, weeks).Ok?
    ensures RateChangeAsWritten(current, history, weeks).ToOption() == RateChangeFrom(current, history, weeks).ToOption()
  {
  }

  /**
   * What `_calculate_rate_change` returns for the lines of its two responses:
   * the latest value of the first, then the history of the rows of the second
   * below its header, and the change against the look-back entry.
   */
  function RateChangeOfLines(currentLines: seq<string>, historyRows: seq<string>, weeks: nat, parse: Parser)
    : (r: Result<RateChange, FetchError>)
    ensures r.Ok? ==> FredLatest(currentLines, parse).Ok?
    ensures r.Ok? ==> r.value.weeks == weeks
  {
    match FredLatest(currentLines, parse)
    case Err(e) => Err(e)
    case Ok(current) =>
      match ValidHistory(historyRows, parse)
      case Err(e) => Err(e)
      case Ok(history) => RateChangeFrom(current, history, weeks)
  }

  /**
   * What `_calculate_rate_change` returns for its two responses: the first line
   * of the history response is skipped as a header whatever it holds.
   */
  function RateChangeOf(currentText: string, historyText: string, weeks: nat, parse: Parser): (r: Result<RateChange, FetchError>)
    ensures r.Ok? ==> FredLatest(ResponseLines(currentText), parse).Ok?
    ensures r.Ok? ==> r.value.weeks == weeks
  {
    RateChangeOfLines(ResponseLines(currentText), ResponseLines(historyText)[1..], weeks, parse)
  }

  /**
   * The history's look-back entry is the data line `weeks * 5` places before
   * the newest one.
   */
  lemma LookBackIsDataLine(current: real, rows: seq<string>, weeks: nat, parse: Parser)
    requires ValidHistory(rows, parse).Ok?
    requires RateChangeFrom(current, ValidHistory(rows, parse).value, weeks).Ok?
    ensures var fields := DataFields(rows);
            var back := weeks * BusinessDaysPerWeek;
            && back < |fields|
            && parse(fields[|fields| - 1 - back]).Some?
            && RateChangeFrom(current, ValidHistory(rows, parse).value, weeks) ==
               ChangeAgainst(current, parse(fields[|fields| - 1 - back]).value, weeks)
  {
    ValidHistoryEntries(rows, parse);
  }

  /**
   * A rate change is taken against the latest value of the current response
   * and the data line `weeks * 5` places before the newest one in the history.
   */
  lemma RateChangeAgainstDataLine(currentLines: seq<string>, historyRows: seq<string>, weeks: nat, parse: Parser)
    requires RateChangeOfLines(currentLines, historyRows, weeks, parse).Ok?
    ensures var fields := DataFields(historyRows);
            var back := weeks * BusinessDaysPerWeek;
            && back < |fields|
            && parse(fields[|fields| - 1 - back]).Some?
            && RateChangeOfLines(currentLines, historyRows, weeks, parse) ==
               ChangeAgainst(FredLatest(currentLines, parse).value, parse(fields[|fields| - 1 - back]).value, weeks)
  {
    LookBackIsDataLine(FredLatest(currentLines, parse).value, historyRows, weeks, parse);
  }

  /**
   * The loop of `_calculate_rate_change`: walks the lines after the header
   * from the last to the first, appending the value of each data line and
   * failing on a value `float` rejects.
   */
  method CollectHistory(lines: seq<string>, parse: Parser) returns (r: Result<seq<real>, FetchError>)
    requires 1 <= |lines|
    ensures r == ValidHistory(lines[1..], parse)
  {
    ghost var rows := lines[1..];
    var validData: seq<real> := [];
    var i := |lines|;
    assert rows[..i - 1] == rows;
    PrependNothing(ValidHistory(rows, parse));
    while i > 1
      invariant 1 <= i <= |lines|
      invariant ValidHistory(rows, parse) == Prepend(validData, ValidHistory(rows[..i - 1], parse))
    {
      var line := lines[i - 1];
      var parts := Split(line, ',');
      ghost var before := rows[..i - 1];
      assert before[|before| - 1] == line && before[..|before| - 1] == rows[..i - 2];
      HistoryStep(before, validData, parse);
      if |parts| >= 2 && parts[1] != "." && parts[1] != "" {
        assert ValueField(line) == Some(parts[1]);
        match parse(parts[1]) {
          case None =>
            assert Prepend(validData, ValidHistory(before, parse)) == Err(InvalidNumber);
            return Err(InvalidNumber);
          case Some(v) =>
            validData := validData + [v];
        }
      }
      i := i - 1;
    }
    assert rows[..0] == [];
    assert validData + [] == validData;
    r := Ok(validData);
  }

  /** `_calculate_rate_change`: the latest value, the history newest first, then the guard. */
  method CalculateRateChange(currentText: string, historyText: string, weeks: nat, parse: Parser)
    returns (r: Result<RateChange, FetchError>)
    ensures r == RateChangeOf(currentText, historyText, weeks, parse)
  {
    var current := FetchFredData(currentText, 1, parse);
    if current.Err? {
      return Err(current.error);
    }
    var history := CollectHistory(ResponseLines(historyText), parse);
    if history.Err? {
      return Err(history.error);
    }
    r := RateChangeFrom(current.value, history.value, weeks);
  }

  // ---------------------------------------------------------------------------
  // S&P 500
  // ---------------------------------------------------------------------------

  /** `[c for c in closes if c is not None]`. */
  function ValidCloses(closes: seq<Option<real>>): (r: seq<real>)
    ensures |r| <= |closes|
    ensures forall x :: x in r <==> Some(x) in closes
  {
    if |closes| == 0 then []
    else
      var init := ValidCloses(closes[..|closes| - 1]);
      assert closes == closes[..|closes| - 1] + [closes[|closes| - 1]];
      match closes[|closes| - 1]
      case None => init
      case Some(c) => init + [c]
  }

  /** Filtering keeps the order: the closes of a concatenation are the closes of each part, in turn. */
  lemma {:induction false} ValidClosesAppend(a: seq<Option<real>>, b: seq<Option<real>>)
    ensures ValidCloses(a + b) == ValidCloses(a) + ValidCloses(b)
    decreases |b|
  {
    if |b| == 0 {
      assert a + b == a;
    } else {
      var b' := b[..|b| - 1];
      assert (a + b)[..|a + b| - 1] == a + b';
      ValidClosesAppend(a, b');
    }
  }

  /** `sum(s)`. */
  function Sum(s: seq<real>): real {
    if |s| == 0 then 0.0 else Sum(s[..|s| - 1]) + s[|s| - 1]
  }

  /** A sum of values in [lo, hi] lies between |s| * lo and |s| * hi. */
  lemma {:induction false} SumBounds(s: seq<real>, lo: real, hi: real)
    requires forall i :: 0 <= i < |s| ==> lo <= s[i] <= hi
    ensures |s| as real * lo <= Sum(s) <= |s| as real * hi
  {
    if |s| > 0 {
      SumBounds(s[..|s| - 1], lo, hi);
    }
  }

  /**
   * `_fetch_yahoo_sp500` once the closes are in hand: at least 200 closes must
   * survive the filter; the price is the last of them, the average is the mean
   * of the last 200, and the deviation is `(price - ma_200) / ma_200 * 100`,
   * each rounded to two decimals after the deviation is computed.
   */
  function Sp500FromCloses(closes: seq<Option<real>>): (r: Result<SP500, FetchError>)
    ensures |ValidCloses(closes)| < MovingAverageWindow <==> r == Err(NotEnoughData)
    ensures r.Ok? ==>
              var valid := ValidCloses(closes);
              var price := valid[|valid| - 1];
              var ma := Sum(valid[|valid| - MovingAverageWindow..]) / MovingAverageWindow as real;
              && ma != 0.0
              && price - 0.005 < r.value.price <= price + 0.005
              && ma - 0.005 < r.value.ma200 <= ma + 0.005
              && (price - ma) / ma * 100.0 - 0.005 < r.value.deviationPct <= (price - ma) / ma * 100.0 + 0.005
    ensures r == Err(ZeroDivision) <==>
              var valid := ValidCloses(closes);
              MovingAverageWindow <= |valid| && Sum(valid[|valid| - MovingAverageWindow..]) / MovingAverageWindow as real == 0.0
    ensures r.Err? ==> r.error in {NotEnoughData, ZeroDivision}
  {
    var valid := ValidCloses(closes);
    if |valid| < MovingAverageWindow then Err(NotEnoughData)
    else
      var price := valid[|valid| - 1];
      var ma := Sum(valid[|valid| - MovingAverageWindow..]) / MovingAverageWindow as real;
      if ma == 0.0 then Err(ZeroDivision)
      else Ok(SP500(Round(price, 100), Round(ma, 100), Round((price - ma) / ma * 100.0, 100)))
  }

  /** The mean of the last 200 of a list of values in [lo, hi] lies in [lo, hi]. */
  lemma WindowMeanWithinRange(valid: seq<real>, lo: real, hi: real)
    requires MovingAverageWindow <= |valid|
    requires forall i :: 0 <= i < |valid| ==> lo <= valid[i] <= hi
    ensures lo <= Sum(valid[|valid| - MovingAverageWindow..]) / MovingAverageWindow as real <= hi
  {
    var window := valid[|valid| - MovingAverageWindow..];
    assert forall i :: 0 <= i < |window| ==> window[i] == valid[|valid| - MovingAverageWindow + i];
    SumBounds(window, lo, hi);
    assert MovingAverageWindow as real == 200.0;
  }

  /**
   * The 200-sample average lies within the range of the closes it averages;
   * with positive closes it is positive, so the deviation never divides by zero.
   */
  lemma MovingAverageWithinRange(closes: seq<Option<real>>, lo: real, hi: real)
    requires MovingAverageWindow <= |ValidCloses(closes)|
    requires forall i :: 0 <= i < |closes| && closes[i].Some? ==> lo <= closes[i].value <= hi
    ensures var valid := ValidCloses(closes);
            var ma := Sum(valid[|valid| - MovingAverageWindow..]) / MovingAverageWindow as real;
            lo <= ma <= hi
    ensures 0.0 < lo ==> Sp500FromCloses(closes).Ok?
  {
    var valid := ValidCloses(closes);
    forall i | 0 <= i < |valid| ensures lo <= valid[i] <= hi {
      assert Some(valid[i]) in closes;
    }
    WindowMeanWithinRange(valid, lo, hi);
  }

  // ---------------------------------------------------------------------------
  // fetch_all_data
  // ---------------------------------------------------------------------------

  /**
   * The bodies of the six requests `fetch_all_data` makes, `None` where a
   * request failed: the three FRED series, the S&P 500 closes, and the two
   * DGS10 downloads of the rate change (its latest value, then its history).
   */
  datatype Responses = Responses(
    dgs10: Option<string>,
    dgs30: Option<string>,
    vixcls: Option<string>,
    sp500Closes: Option<seq<Option<real>>>,
    rateCurrent: Option<string>,
    rateHistory: Option<string>)

  /** One FRED series: the failed request, or the latest value of its body. */
  function FredSeries(body: Option<string>, parse: Parser): (r: Result<real, FetchError>)
    ensures body.None? ==> r == Err(RequestFailed)
    ensures body.Some? ==> r == FredLatest(ResponseLines(body.value), parse)
  {
    match body
    case None => Err(RequestFailed)
    case Some(text) => FredLatest(ResponseLines(text), parse)
  }

  /** The indicators `fetch_all_data` assembles: each step's value, or `None` where that step raised. */
  function AllIndicators(resp: Responses, parse: Parser): (ind: Indicators)
    ensures ind.treasury10y == FredSeries(resp.dgs10, parse).ToOption()
    ensures ind.treasury30y == FredSeries(resp.dgs30, parse).ToOption()
    ensures ind.vix == FredSeries(resp.vixcls, parse).ToOption()
    ensures resp.sp500Closes.None? ==> ind.sp500.None?
    ensures resp.sp500Closes.Some? ==> ind.sp500 == Sp500FromCloses(resp.sp500Closes.value).ToOption()
    ensures resp.rateCurrent.None? || resp.rateHistory.None? ==> ind.treasury10yChange.None?
    ensures resp.rateCurrent.Some? && resp.rateHistory.Some? ==>
              ind.treasury10yChange == RateChangeOf(resp.rateCurrent.value, resp.rateHistory.value, 2, parse).ToOption()
  {
    Indicators(
      FredSeries(resp.dgs10, parse).ToOption(),
      FredSeries(resp.dgs30, parse).ToOption(),
      FredSeries(resp.vixcls, parse).ToOption(),
      match resp.sp500Closes
      case None => None
      case Some(closes) => Sp500FromCloses(closes).ToOption(),
      if resp.rateCurrent.None? || resp.rateHistory.None? then None
      else RateChangeOf(resp.rateCurrent.value, resp.rateHistory.value, 2, parse).ToOption())
  }

  /**
   * A failure in one step leaves the others alone: changing the body of the
   * 30-year series changes at most the 30-year indicator.
   */
  lemma StepsAreIndependent(resp: Responses, other: Option<string>, parse: Parser)
    ensures var before, after := AllIndicators(resp, parse), AllIndicators(resp.(dgs30 := other), parse);
            after == before.(treasury30y := after.treasury30y)
  {
  }

  /**
   * `fetch_all_data`: fills the five indicators one step after another, each
   * step in its own `try`, storing `None` for a step that raised.
   */
  method FetchAllData(resp: Responses, parse: Parser) returns (ind: Indicators)
    ensures ind == AllIndicators(resp, parse)
  {
    ind := NoIndicators;

    if resp.dgs10.Some? {
      var r := FetchFredData(resp.dgs10.value, 1, parse);
      ind := ind.(treasury10y := r.ToOption());
    }

    if resp.dgs30.Some? {
      var r := FetchFredData(resp.dgs30.value, 1, parse);
      ind := ind.(treasury30y := r.ToOption());
    }

    if resp.vixcls.Some? {
      var r := FetchFredData(resp.vixcls.value, 1, parse);
      ind := ind.(vix := r.ToOption());
    }

    if resp.sp500Closes.Some? {
      ind := ind.(sp500 := Sp500FromCloses(resp.sp500Closes.value).ToOption());
    }

    if resp.rateCurrent.Some? && resp.rateHistory.Some? {
      var r := CalculateRateChange(resp.rateCurrent.value, resp.rateHistory.value, 2, parse);
      ind := ind.(treasury10yChange := r.ToOption());
    }
  }
}
