/**
 * Exporting expenses: the optional date-range filter, the CSV document
 * (one header line, then one line per expense with the description
 * quoted and its commas turned into semicolons), and the layout of the PDF
 * report's rows over A4 pages.
 */
module Export {
  import opened Wrappers
  import opened Text
  import opened Numerals
  import opened CivilTime
  import opened Calendars
  import opened Entities
  import opened StableSort
  import opened DayKeys

  datatype ExportUiState = Loading | Success(filePath: string, expenseCount: int) | Error(message: string)

  const EXPORT_FAILED: string := "Export failed"
  const CSV_HEADER: string := "Date,Category,Amount,Description"
  const CSV_UNKNOWN_CATEGORY: string := "Unknown"
  const PDF_UNKNOWN_CATEGORY: string := "Uncategorized"

  // ---------------------------------------------------------------- range filter

  function InRange(range: (int, int)): ExpenseWithCategory -> bool {
    (e: ExpenseWithCategory) => e.expense.date >= range.0 && e.expense.date <= range.1
  }

  /** The expenses exported: all of them, or those dated inside the inclusive range, in list order. */
  function ExportedExpenses(expenses: seq<ExpenseWithCategory>, dateRange: Option<(int, int)>): (r: seq<ExpenseWithCategory>)
    ensures dateRange.None? ==> r == expenses
    ensures dateRange.Some? ==> r == Filter(expenses, InRange(dateRange.value))
  {
    match dateRange
    case None => expenses
    case Some(range) => Filter(expenses, InRange(range))
  }

  /** With a range, exactly the expenses dated inside it are kept, and none is duplicated. */
  lemma ExportedMembers(expenses: seq<ExpenseWithCategory>, range: (int, int), e: ExpenseWithCategory)
    ensures e in ExportedExpenses(expenses, Some(range)) <==> e in expenses && range.0 <= e.expense.date <= range.1
    ensures multiset(ExportedExpenses(expenses, Some(range))) <= multiset(expenses)
  {
    FilterMembers(expenses, InRange(range));
    FilterSubMultiset(expenses, InRange(range));
  }

  // ---------------------------------------------------------------- CSV

  /** The description as written into its quoted CSV field: commas become semicolons, quotes stay as they are. */
  function CsvDescription(description: string): (r: string)
    ensures |r| == |description| && ',' !in r
    ensures forall i | 0 <= i < |r| :: description[i] == ',' ==> r[i] == ';'
    ensures forall i | 0 <= i < |r| :: description[i] != ',' ==> r[i] == description[i]
  {
    ReplaceChar(description, ',', ';')
  }

  function CsvCategory(e: ExpenseWithCategory): (name: string)
    ensures e.category.None? ==> name == CSV_UNKNOWN_CATEGORY
    ensures e.category.Some? ==> name == e.category.value.name
  {
    match e.category
    case Some(c) => c.name
    case None => CSV_UNKNOWN_CATEGORY
  }

  /**
   * One CSV line, `"$date,$category,$amount,\"$description\""` and a line
   * feed, where `amountText` stands for `Double.toString`.
   */
  function CsvLine(e: ExpenseWithCategory, amountText: real -> string): string {
    DayKeyOf(e.expense.date) + "," + CsvCategory(e) + "," + amountText(e.expense.amount)
      + ",\"" + CsvDescription(e.expense.description) + "\"\n"
  }

  /**
   * A line opens with the expense's day key and a comma, and closes with the
   * quoted description and a line feed.
   */
  lemma CsvLineFields(e: ExpenseWithCategory, amountText: real -> string)
    ensures var line := CsvLine(e, amountText);
      var tail := CsvDescription(e.expense.description) + "\"\n";
      IsPrefix(DayKeyOf(e.expense.date) + ",", line)
      && |tail| + 1 <= |line| && line[|line| - |tail| - 1..] == "\"" + tail
  {
    var line := CsvLine(e, amountText);
    var head := DayKeyOf(e.expense.date) + ",";
    var rest := CsvCategory(e) + "," + amountText(e.expense.amount) + ",";
    var tail := CsvDescription(e.expense.description) + "\"\n";
    assert line == head + rest + ("\"" + tail);
    ConcatEnds(head, rest, "\"" + tail);
  }

  /** The document: the header line, then the expenses' lines in order. */
  function CsvDocument(expenses: seq<ExpenseWithCategory>, amountText: real -> string): string {
    if expenses == [] then CSV_HEADER + "\n"
    else CsvDocument(expenses[..|expenses| - 1], amountText) + CsvLine(expenses[|expenses| - 1], amountText)
  }

  /** The `buildString` block: `appendLine` of the header, then of each expense's line. */
  method BuildCsv(expenses: seq<ExpenseWithCategory>, amountText: real -> string) returns (csv: string)
    ensures csv == CsvDocument(expenses, amountText)
    ensures CountChar(csv, '\n') >= |expenses| + 1
  {
    csv := CSV_HEADER + "\n";
    var i := 0;
    while i < |expenses|
      invariant 0 <= i <= |expenses|
      invariant csv == CsvDocument(expenses[..i], amountText)
    {
      assert expenses[..i + 1][..i] == expenses[..i];
      csv := csv + CsvLine(expenses[i], amountText);
      i := i + 1;
    }
    assert expenses[..i] == expenses;
    CsvLineCount(expenses, amountText);
  }

  function CountChar(s: string, c: char): nat {
    if s == [] then 0 else CountChar(s[..|s| - 1], c) + (if s[|s| - 1] == c then 1 else 0)
  }

  lemma {:induction false} CountCharConcat(s: string, t: string, c: char)
    ensures CountChar(s + t, c) == CountChar(s, c) + CountChar(t, c)
    decreases |t|
  {
    if t == [] {
      assert s + t == s;
    } else {
      assert (s + t)[..|s + t| - 1] == s + t[..|t| - 1];
      CountCharConcat(s, t[..|t| - 1], c);
    }
  }

  lemma {:induction false} CountCharAbsent(s: string, c: char)
    requires c !in s
    ensures CountChar(s, c) == 0
  {
    if s != [] {
      CountCharAbsent(s[..|s| - 1], c);
    }
  }

  /** No text that goes into a line holds a line feed of its own. */
  predicate SingleLineFields(e: ExpenseWithCategory, amountText: real -> string) {
    '\n' !in DayKeyOf(e.expense.date) && '\n' !in CsvCategory(e)
    && '\n' !in amountText(e.expense.amount) && '\n' !in e.expense.description
  }

  /** Every line ends in a line feed; without line feeds inside the fields it is the only one. */
  lemma CsvLineBreaks(e: ExpenseWithCategory, amountText: real -> string)
    ensures CountChar(CsvLine(e, amountText), '\n') >= 1
    ensures SingleLineFields(e, amountText) ==> CountChar(CsvLine(e, amountText), '\n') == 1
  {
    var head := DayKeyOf(e.expense.date) + "," + CsvCategory(e) + "," + amountText(e.expense.amount)
      + ",\"" + CsvDescription(e.expense.description) + "\"";
    assert CsvLine(e, amountText) == head + "\n";
    CountCharConcat(head, "\n", '\n');
    assert "\n"[..0] == [];
    if SingleLineFields(e, amountText) {
      var d := CsvDescription(e.expense.description);
      assert '\n' !in d by {
        forall i | 0 <= i < |d| ensures d[i] != '\n' {
          assert e.expense.description[i] != '\n';
        }
      }
      assert '\n' !in head;
      CountCharAbsent(head, '\n');
    }
  }

  /**
   * The document has a line feed for the header and at least one for each
   * expense; when no field holds a line feed, exactly one per expense.
   */
  lemma {:induction false} CsvLineCount(expenses: seq<ExpenseWithCategory>, amountText: real -> string)
    ensures CountChar(CsvDocument(expenses, amountText), '\n') >= |expenses| + 1
    ensures (forall i | 0 <= i < |expenses| :: SingleLineFields(expenses[i], amountText)) ==>
      CountChar(CsvDocument(expenses, amountText), '\n') == |expenses| + 1
  {
    if expenses == [] {
      var h := CSV_HEADER + "\n";
      CountCharConcat(CSV_HEADER, "\n", '\n');
      CountCharAbsent(CSV_HEADER, '\n');
      assert "\n"[..0] == [];
    } else {
      var prefix := expenses[..|expenses| - 1];
      var last := expenses[|expenses| - 1];
      CsvLineCount(prefix, amountText);
      CountCharConcat(CsvDocument(prefix, amountText), CsvLine(last, amountText), '\n');
      CsvLineBreaks(last, amountText);
    }
  }

  /** The document starts with the header line and ends with the last expense's line. */
  lemma CsvDocumentShape(expenses: seq<ExpenseWithCategory>, amountText: real -> string)
    ensures var doc := CsvDocument(expenses, amountText);
      |doc| >= |CSV_HEADER| + 1 && doc[..|CSV_HEADER| + 1] == CSV_HEADER + "\n"
    ensures expenses != [] ==>
      var doc := CsvDocument(expenses, amountText);
      var line := CsvLine(expenses[|expenses| - 1], amountText);
      |doc| >= |line| && doc[|doc| - |line|..] == line
  {
    CsvDocumentStartsWithHeader(expenses, amountText);
  }

  lemma {:induction false} CsvDocumentStartsWithHeader(expenses: seq<ExpenseWithCategory>, amountText: real -> string)
    ensures var doc := CsvDocument(expenses, amountText);
      |doc| >= |CSV_HEADER| + 1 && doc[..|CSV_HEADER| + 1] == CSV_HEADER + "\n"
  {
    if expenses != [] {
      var prefix := expenses[..|expenses| - 1];
      CsvDocumentStartsWithHeader(prefix, amountText);
      var p := CsvDocument(prefix, amountText);
      var doc := CsvDocument(expenses, amountText);
      assert doc == p + CsvLine(expenses[|expenses| - 1], amountText);
      assert doc[..|CSV_HEADER| + 1] == p[..|CSV_HEADER| + 1];
    }
  }

  // ---------------------------------------------------------------- PDF

  /** The `"yyyy-MM-dd HH:mm:ss"` text of an instant. */
  function DateTimeText(t: int): string {
    var tod := TimeOfDay(t);
    Decompose(tod);
    DayKeyOf(t) + " " + Digits(HourOf(tod), 2) + ":" + Digits(MinuteOf(tod), 2) + ":" + Digits(SecondOf(tod), 2)
  }

  /**
   * Within years 1 to 9999, the text is the day key, a space, and the hour,
   * minute and second as two digits each, separated by colons.
   */
  lemma DateTimeTextFields(t: int)
    requires 1 <= DateOf(t).year <= 9999
    ensures var s := DateTimeText(t);
      var tod := TimeOfDay(t);
      |s| == 19 && s[..10] == DayKeyOf(t) && s[10] == ' ' && s[13] == ':' && s[16] == ':'
      && AllDigits(s[11..13]) && ValueOf(s[11..13]) == HourOf(tod)
      && AllDigits(s[14..16]) && ValueOf(s[14..16]) == MinuteOf(tod)
      && AllDigits(s[17..]) && ValueOf(s[17..]) == SecondOf(tod)
  {
    var tod := TimeOfDay(t);
    Decompose(tod);
    var hh, mm, ss := Digits(HourOf(tod), 2), Digits(MinuteOf(tod), 2), Digits(SecondOf(tod), 2);
    DayKeyOfFields(t);
    ClockSlices(DayKeyOf(t), hh, mm, ss);
    assert Pow10(2) == 100;
    ValueOfDigits(HourOf(tod), 2);
    ValueOfDigits(MinuteOf(tod), 2);
    ValueOfDigits(SecondOf(tod), 2);
  }

  lemma ClockSlices(key: string, hh: string, mm: string, ss: string)
    requires |key| == 10 && |hh| == 2 && |mm| == 2 && |ss| == 2
    ensures var s := key + " " + hh + ":" + mm + ":" + ss;
      |s| == 19 && s[..10] == key && s[10] == ' ' && s[11..13] == hh && s[13] == ':'
      && s[14..16] == mm && s[16] == ':' && s[17..] == ss
  {
  }

  const DESCRIPTION_LIMIT: int := 30

  /** A description longer than 30 characters is cut to its first 30 followed by "...". */
  function TruncateDescription(description: string): (r: string)
    ensures |r| <= DESCRIPTION_LIMIT + 3
    ensures |description| <= DESCRIPTION_LIMIT ==> r == description
    ensures |description| > DESCRIPTION_LIMIT ==> |r| == DESCRIPTION_LIMIT + 3 && r[..DESCRIPTION_LIMIT] == description[..DESCRIPTION_LIMIT] && r[DESCRIPTION_LIMIT..] == "..."
  {
    if |description| > DESCRIPTION_LIMIT then description[..DESCRIPTION_LIMIT] + "..." else description
  }

  /** The texts drawn for one expense; `amountText` stands for `Double.toString`. */
  datatype PdfRow = PdfRow(date: string, amount: string, category: string, description: string)

  function PdfRowOf(e: ExpenseWithCategory, amountText: real -> string): (row: PdfRow)
    ensures row.category == if e.category.Some? then e.category.value.name else PDF_UNKNOWN_CATEGORY
    ensures row.description == TruncateDescription(e.expense.description)
  {
    PdfRow(DateTimeText(e.expense.date), amountText(e.expense.amount),
           match e.category case Some(c) => c.name case None => PDF_UNKNOWN_CATEGORY,
           TruncateDescription(e.expense.description))
  }

  /** Where a row is drawn: its page number and its baseline. */
  datatype RowPlacement = RowPlacement(page: int, y: int)

  const FIRST_ROW_Y: int := 110
  const NEXT_PAGE_ROW_Y: int := 90
  const ROW_HEIGHT: int := 20
  const PAGE_BOTTOM: int := 780
  const FIRST_PAGE_ROWS: int := 34
  const PAGE_ROWS: int := 35

  /** The placement of the row with the given index: 34 rows on page 1, 35 on every later page. */
  function Placement(index: nat): RowPlacement {
    if index < FIRST_PAGE_ROWS then RowPlacement(1, FIRST_ROW_Y + ROW_HEIGHT * index)
    else
      var k := index - FIRST_PAGE_ROWS;
      RowPlacement(2 + k / PAGE_ROWS, NEXT_PAGE_ROW_Y + ROW_HEIGHT * (k % PAGE_ROWS))
  }

  /** The number of pages for `n` rows: 1 up to 34 rows, then one more for every 35 started. */
  function PageCount(n: nat): (pages: int)
    ensures pages >= 1
    ensures n > 0 ==> pages == Placement(n - 1).page
  {
    if n <= FIRST_PAGE_ROWS then 1 else 1 + (n - FIRST_PAGE_ROWS + PAGE_ROWS - 1) / PAGE_ROWS
  }

  /** Every row lies on the page between the header rule and the bottom margin. */
  lemma PlacementBounds(index: nat)
    ensures NEXT_PAGE_ROW_Y <= Placement(index).y <= PAGE_BOTTOM
    ensures Placement(index).page >= 1
  {
  }

  /**
   * The next row goes on the same page 20 points lower, unless that would
   * pass the bottom margin; then it starts the next page at the top.
   */
  lemma PlacementStep(index: nat)
    ensures var p := Placement(index);
      Placement(index + 1) == if p.y + ROW_HEIGHT > PAGE_BOTTOM then RowPlacement(p.page + 1, NEXT_PAGE_ROW_Y)
                              else RowPlacement(p.page, p.y + ROW_HEIGHT)
  {
    if index >= FIRST_PAGE_ROWS {
      var k := index - FIRST_PAGE_ROWS;
      if k % PAGE_ROWS == PAGE_ROWS - 1 {
        assert (k + 1) / PAGE_ROWS == k / PAGE_ROWS + 1 && (k + 1) % PAGE_ROWS == 0;
      } else {
        assert (k + 1) / PAGE_ROWS == k / PAGE_ROWS && (k + 1) % PAGE_ROWS == k % PAGE_ROWS + 1;
      }
    }
  }

  /** Page 1 holds rows 0..33; page p >= 2 holds the 35 rows from 34 + 35 (p - 2). */
  lemma RowsPerPage(index: nat, page: int)
    requires page >= 2
    ensures Placement(index).page == 1 <==> index < FIRST_PAGE_ROWS
    ensures Placement(index).page == page <==>
      FIRST_PAGE_ROWS + PAGE_ROWS * (page - 2) <= index < FIRST_PAGE_ROWS + PAGE_ROWS * (page - 1)
  {
    if index >= FIRST_PAGE_ROWS {
      var k := index - FIRST_PAGE_ROWS;
      assert k == PAGE_ROWS * (k / PAGE_ROWS) + k % PAGE_ROWS;
      if 2 + k / PAGE_ROWS == page {
        assert PAGE_ROWS * (page - 2) <= k < PAGE_ROWS * (page - 1);
      } else if 2 + k / PAGE_ROWS < page {
        assert k < PAGE_ROWS * (k / PAGE_ROWS + 1) <= PAGE_ROWS * (page - 2);
      } else {
        assert k >= PAGE_ROWS * (k / PAGE_ROWS) >= PAGE_ROWS * (page - 1);
      }
    }
  }

  /**
   * The progress reported after drawing row `index` of `count`:
   * `30 + ((index + 1) / count * 30).toInt()`, here in exact arithmetic.
   */
  function RowProgress(index: int, count: int): (progress: int)
    requires 0 <= index < count
    ensures 30 <= progress <= 60
    ensures progress == 60 <==> index + 1 == count
  {
    ProgressQuotient(index + 1, count);
    30 + ((index + 1) * 30) / count
  }

  /** The progress never goes back from one row to the next. */
  lemma RowProgressClimbs(index: int, count: int)
    requires 0 <= index < count
    ensures index + 1 < count ==> RowProgress(index, count) <= RowProgress(index + 1, count)
  {
    if index + 1 < count {
      DivMonotone((index + 1) * 30, (index + 2) * 30, count);
    }
  }

  lemma DivMonotone(a: int, b: int, d: int)
    requires 0 <= a <= b && 0 < d
    ensures a / d <= b / d
  {
    var qa, qb := a / d, b / d;
    if qa > qb {
      MulMonotone(qb + 1, qa, d);
      assert false;
    }
  }

  /** `n` rows of `count` done: between 0 and 30 points, and all 30 exactly when every row is done. */
  lemma ProgressQuotient(n: int, count: int)
    requires 0 < n <= count
    ensures 0 <= (n * 30) / count <= 30
    ensures (n * 30) / count == 30 <==> n == count
  {
    var x := n * 30;
    MulMonotone(n, count, 30);
    DivMonotone(x, 30 * count, count);
    MulDivCancel(30, count);
    if n < count {
      MulMonotone(n + 1, count, 30);
      DivBelow(x, 30, count);
    }
  }

  lemma MulDivCancel(k: int, d: int)
    requires 0 <= k && 0 < d
    ensures (k * d) / d == k
  {
    var q, r := (k * d) / d, (k * d) % d;
    assert d * q + r == k * d;
    if q < k {
      MulMonotone(q + 1, k, d);
    } else if q > k {
      MulMonotone(k + 1, q, d);
    }
  }

  lemma DivBelow(x: int, k: int, d: int)
    requires 0 <= x < k * d && 0 < d
    ensures x / d < k
  {
    if x / d >= k {
      MulMonotone(k, x / d, d);
    }
  }

  lemma MulMonotone(x: int, y: int, d: int)
    requires x <= y && 0 < d
    ensures d * x <= d * y
  {
    assert d * y - d * x == d * (y - x);
  }

  /**
   * The `forEachIndexed` loop of `exportToPDF`: the title and header take
   * the top of page 1, and a row that would start below the bottom margin
   * moves to a new page that gets its own header.  `progress` is the last
   * value the loop reported, or the 30 it started from.
   */
  method LayoutRows(count: nat) returns (placements: seq<RowPlacement>, pageNumber: int, progress: int)
    ensures |placements| == count
    ensures forall i | 0 <= i < count :: placements[i] == Placement(i)
    ensures pageNumber == PageCount(count)
    ensures progress == if count == 0 then 30 else 60
  {
    pageNumber := 1;
    progress := 30;
    var y := 80;
    y := y + 20;
    y := y + 10;
    placements := [];
    var index := 0;
    while index < count
      invariant 0 <= index <= count
      invariant |placements| == index
      invariant forall i | 0 <= i < index :: placements[i] == Placement(i)
      invariant index == 0 ==> pageNumber == 1 && y == FIRST_ROW_Y && progress == 30
      invariant index > 0 ==> pageNumber == Placement(index - 1).page && y == Placement(index - 1).y + ROW_HEIGHT
      invariant index > 0 ==> progress == RowProgress(index - 1, count)
    {
      if index > 0 {
        PlacementStep(index - 1);
      }
      if y > PAGE_BOTTOM {
        pageNumber := pageNumber + 1;
        y := 60;
        y := y + 20;
        y := y + 10;
      }
      placements := placements + [RowPlacement(pageNumber, y)];
      y := y + 20;
      progress := RowProgress(index, count);
      index := index + 1;
    }
  }

  /** What the PDF holds: the rows' texts, where each row is drawn, and the number of pages. */
  datatype PdfReport = PdfReport(rows: seq<PdfRow>, placements: seq<RowPlacement>, pageCount: int)

  function PdfRows(expenses: seq<ExpenseWithCategory>, amountText: real -> string): (rows: seq<PdfRow>)
    ensures |rows| == |expenses|
    ensures forall i | 0 <= i < |expenses| :: rows[i] == PdfRowOf(expenses[i], amountText)
  {
    seq(|expenses|, i requires 0 <= i < |expenses| => PdfRowOf(expenses[i], amountText))
  }

  // ---------------------------------------------------------------- the view model

  class ExportViewModel {
    /** `None` until the first export posts a state. */
    var uiState: Option<ExportUiState>
    /** `None` until the first export posts a progress value. */
    var exportProgress: Option<int>

    constructor()
      ensures uiState == None && exportProgress == None
    {
      uiState := None;
      exportProgress := None;
    }

    /**
     * `exportToCSV(context, dateRange)`, given the expense list (or the
     * exception reading it threw) and the outcome of writing the file:
     * its absolute path, or the exception the write threw.  Returns the
     * text that was written, if it got that far.
     */
    method ExportToCsv(fetched: Fetch<seq<ExpenseWithCategory>>, dateRange: Option<(int, int)>,
                       amountText: real -> string, written: Fetch<string>) returns (csvContent: Option<string>)
      modifies this
      ensures fetched.Threw? ==>
        csvContent == None && uiState == Some(Error(MessageOr(fetched.message, EXPORT_FAILED)))
        && exportProgress == Some(0)
      ensures fetched.Fetched? ==>
        csvContent == Some(CsvDocument(ExportedExpenses(fetched.value, dateRange), amountText))
      ensures fetched.Fetched? && written.Threw? ==>
        uiState == Some(Error(MessageOr(written.message, EXPORT_FAILED))) && exportProgress == Some(60)
      ensures fetched.Fetched? && written.Fetched? ==>
        uiState == Some(Success(written.value, |ExportedExpenses(fetched.value, dateRange)|))
        && exportProgress == Some(100)
    {
      uiState := Some(Loading);
      exportProgress := Some(0);
      csvContent := None;
      if fetched.Threw? {
        uiState := Some(Error(MessageOr(fetched.message, EXPORT_FAILED)));
        return;
      }
      var expenses := ExportedExpenses(fetched.value, dateRange);
      exportProgress := Some(30);
      var csv := BuildCsv(expenses, amountText);
      csvContent := Some(csv);
      exportProgress := Some(60);
      if written.Threw? {
        uiState := Some(Error(MessageOr(written.message, EXPORT_FAILED)));
        return;
      }
      exportProgress := Some(100);
      uiState := Some(Success(written.value, |expenses|));
    }

    /**
     * `exportToPDF(context, dateRange)`, with the same inputs: returns the
     * report laid out, if reading the expenses succeeded.  When the write
     * fails, the progress is the last value the row loop reported.
     */
    method ExportToPdf(fetched: Fetch<seq<ExpenseWithCategory>>, dateRange: Option<(int, int)>,
                       amountText: real -> string, written: Fetch<string>) returns (report: Option<PdfReport>)
      modifies this
      ensures fetched.Threw? ==>
        report == None && uiState == Some(Error(MessageOr(fetched.message, EXPORT_FAILED)))
        && exportProgress == Some(0)
      ensures fetched.Fetched? ==>
        var expenses := ExportedExpenses(fetched.value, dateRange);
        report.Some?
        && report.value.rows == PdfRows(expenses, amountText)
        && |report.value.placements| == |expenses|
        && (forall i | 0 <= i < |expenses| :: report.value.placements[i] == Placement(i))
        && report.value.pageCount == PageCount(|expenses|)
      ensures fetched.Fetched? && written.Threw? ==>
        uiState == Some(Error(MessageOr(written.message, EXPORT_FAILED)))
        && exportProgress == Some(if |ExportedExpenses(fetched.value, dateRange)| == 0 then 30 else 60)
      ensures fetched.Fetched? && written.Fetched? ==>
        uiState == Some(Success(written.value, |ExportedExpenses(fetched.value, dateRange)|))
        && exportProgress == Some(100)
    {
      uiState := Some(Loading);
      exportProgress := Some(0);
      report := None;
      if fetched.Threw? {
        uiState := Some(Error(MessageOr(fetched.message, EXPORT_FAILED)));
        return;
      }
      var expenses := ExportedExpenses(fetched.value, dateRange);
      exportProgress := Some(30);
      var placements, pageCount, progress := LayoutRows(|expenses|);
      exportProgress := Some(progress);
      report := Some(PdfReport(PdfRows(expenses, amountText), placements, pageCount));
      if written.Threw? {
        uiState := Some(Error(MessageOr(written.message, EXPORT_FAILED)));
        return;
      }
      exportProgress := Some(100);
      uiState := Some(Success(written.value, |expenses|));
    }
  }
}
