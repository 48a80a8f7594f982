/**
 * The finance manager (finance/finance_manager.py): income and expense
 * records numbered by position when added, viewed through a category and
 * date filter, totalled over a date range, and summed into a balance.
 * Amounts are whole numbers of the currency's smallest unit.
 */
module Finance {
  import opened Wrappers
  import opened Text
  import Json
  import Csv
  import Seqs
  import RecordStore

  /** `FinanceRecord(record_id, amount, category, date, description)`; the date is kept as typed. */
  datatype FinanceRecord = FinanceRecord(id: int, amount: int, category: string, date: string, description: string)

  function RecordId(r: FinanceRecord): int { r.id }

  // ---------------------------------------------------------------- balance

  /**
   * `sum(record.amount for record in records)`: records that only add money
   * leave a balance of at least zero, records that only take money one of at
   * most zero.
   */
  function Balance(rs: seq<FinanceRecord>): (b: int)
    ensures (forall i :: 0 <= i < |rs| ==> rs[i].amount >= 0) ==> b >= 0
    ensures (forall i :: 0 <= i < |rs| ==> rs[i].amount <= 0) ==> b <= 0
    decreases |rs|
  {
    if rs == [] then 0 else rs[0].amount + Balance(rs[1..])
  }

  /** The balance after `add_record` is the balance before plus the new amount. */
  lemma {:induction false} BalanceAfterAdd(rs: seq<FinanceRecord>, r: FinanceRecord)
    ensures Balance(rs + [r]) == Balance(rs) + r.amount
    decreases |rs|
  {
    if rs == [] {
      assert ([] + [r])[1..] == [];
    } else {
      assert (rs + [r])[1..] == rs[1..] + [r];
      BalanceAfterAdd(rs[1..], r);
    }
  }

  // ---------------------------------------------------------------- view filter

  /** Python truthiness of an optional filter argument: given and non-empty. */
  predicate Truthy(o: Option<string>) { o.Some? && o.value != "" }

  function SameCategory(category: string): FinanceRecord -> bool {
    (r: FinanceRecord) => LowerStr(r.category) == LowerStr(category)
  }

  function OnDate(date: string): FinanceRecord -> bool {
    (r: FinanceRecord) => r.date == date
  }

  /**
   * `view_records`: first, when a category is given, the records whose
   * category equals it ignoring case; then, when a date is given, those whose
   * date text equals it exactly.
   */
  function ViewRecords(rs: seq<FinanceRecord>, category: Option<string>, date: Option<string>): (shown: seq<FinanceRecord>)
    ensures forall r :: r in shown <==> r in rs && Selected(r, category, date)
  {
    var byCategory :=
      if Truthy(category) then
        (Seqs.FilterMembers(rs, SameCategory(category.value)); Seqs.Filter(rs, SameCategory(category.value)))
      else rs;
    if Truthy(date) then
      (Seqs.FilterMembers(byCategory, OnDate(date.value)); Seqs.Filter(byCategory, OnDate(date.value)))
    else byCategory
  }

  /** Whether a record passes both filters, each applying only when given. */
  predicate Selected(r: FinanceRecord, category: Option<string>, date: Option<string>) {
    && (Truthy(category) ==> LowerStr(r.category) == LowerStr(category.value))
    && (Truthy(date) ==> r.date == date.value)
  }

  function SelectedBy(category: Option<string>, date: Option<string>): FinanceRecord -> bool {
    (r: FinanceRecord) => Selected(r, category, date)
  }

  /**
   * The two successive comprehensions are one order-keeping selection by
   * both filters; without filters the view is the whole list.
   */
  lemma ViewRecordsSelects(rs: seq<FinanceRecord>, category: Option<string>, date: Option<string>)
    ensures ViewRecords(rs, category, date) == Seqs.Filter(rs, SelectedBy(category, date))
    ensures !Truthy(category) && !Truthy(date) ==> ViewRecords(rs, category, date) == rs
  {
    var sel := SelectedBy(category, date);
    if Truthy(category) && Truthy(date) {
      Seqs.FilterTwice(rs, SameCategory(category.value), OnDate(date.value), sel);
    } else if Truthy(category) {
      Seqs.FilterSame(rs, SameCategory(category.value), sel);
    } else if Truthy(date) {
      Seqs.FilterSame(rs, OnDate(date.value), sel);
    } else {
      Seqs.FilterKeepsAll(rs, sel);
    }
  }

  // ---------------------------------------------------------------- dates

  /** A calendar day, as `datetime.strptime(text, "%d-%m-%Y")` gives it (at midnight). */
  datatype Date = Date(year: int, month: int, day: int)

  predicate IsLeap(year: int) {
    (year % 4 == 0 && year % 100 != 0) || year % 400 == 0
  }

  function DaysIn(year: int, month: int): int
    requires 1 <= month <= 12
  {
    if month == 2 then (if IsLeap(year) then 29 else 28)
    else if month == 4 || month == 6 || month == 9 || month == 11 then 30
    else 31
  }

  /** A day the proleptic Gregorian calendar of `datetime` has. */
  predicate ValidDate(d: Date) {
    1 <= d.year <= 9999 && 1 <= d.month <= 12 && 1 <= d.day <= DaysIn(d.year, d.month)
  }

  /** The text `%d` accepts: one digit 1-9, a space and a digit 1-9, or two digits making 01..31. */
  function DayField(t: string): (r: Option<int>)
    ensures r.Some? ==> 1 <= r.value <= 31
  {
    if |t| == 1 && '1' <= t[0] <= '9' then Some(DigitValue(t[0]))
    else if |t| == 2 && t[0] == ' ' && '1' <= t[1] <= '9' then Some(DigitValue(t[1]))
    else if |t| == 2 && IsDigit(t[0]) && IsDigit(t[1]) && 1 <= 10 * DigitValue(t[0]) + DigitValue(t[1]) <= 31 then
      Some(10 * DigitValue(t[0]) + DigitValue(t[1]))
    else None
  }

  /** The text `%m` accepts: one digit 1-9, or two digits making 01..12. */
  function MonthField(t: string): (r: Option<int>)
    ensures r.Some? ==> 1 <= r.value <= 12
  {
    if |t| == 1 && '1' <= t[0] <= '9' then Some(DigitValue(t[0]))
    else if |t| == 2 && IsDigit(t[0]) && IsDigit(t[1]) && 1 <= 10 * DigitValue(t[0]) + DigitValue(t[1]) <= 12 then
      Some(10 * DigitValue(t[0]) + DigitValue(t[1]))
    else None
  }

  /** The text `%Y` accepts: exactly four digits. */
  function YearField(t: string): (r: Option<int>)
    ensures r.Some? ==> 0 <= r.value <= 9999
  {
    if |t| == 4 && AllDigits(t) then
      Some(1000 * DigitValue(t[0]) + 100 * DigitValue(t[1]) + 10 * DigitValue(t[2]) + DigitValue(t[3]))
    else None
  }

  /** `s` read as a day field of `dayLength` characters and a month field of `monthLength`. */
  function DateWith(s: string, dayLength: nat, monthLength: nat): Option<Date>
    requires |s| == dayLength + monthLength + 6
  {
    if s[dayLength] == '-' && s[dayLength + 1 + monthLength] == '-' then
      match (DayField(s[..dayLength]), MonthField(s[dayLength + 1..dayLength + 1 + monthLength]),
             YearField(s[dayLength + monthLength + 2..]))
      case (Some(day), Some(month), Some(year)) =>
        if ValidDate(Date(year, month, day)) then Some(Date(year, month, day)) else None
      case _ => None
    else None
  }

  /**
   * `datetime.strptime(s, "%d-%m-%Y")`: day and month of one or two
   * characters, a four-digit year, nothing else, and a day the calendar has;
   * None where it raises ValueError.
   */
  function ParseDate(s: string): (r: Option<Date>)
    ensures r.Some? ==> ValidDate(r.value)
  {
    if |s| == 8 then DateWith(s, 1, 1)
    else if |s| == 9 then
      var dayFirst := DateWith(s, 1, 2);
      if dayFirst.Some? then dayFirst else DateWith(s, 2, 1)
    else if |s| == 10 then DateWith(s, 2, 2)
    else None
  }

  function TwoDigits(n: nat): (t: string)
    requires n < 100
    ensures |t| == 2 && AllDigits(t)
  {
    [DigitChar(n / 10), DigitChar(n % 10)]
  }

  function FourDigits(n: nat): (t: string)
    requires n < 10000
    ensures |t| == 4 && AllDigits(t)
  {
    TwoDigits(n / 100) + TwoDigits(n % 100)
  }

  /** The form the manager asks for, DD-MM-YYYY with leading zeros. */
  function DateText(d: Date): (t: string)
    requires ValidDate(d)
    ensures |t| == 10
  {
    TwoDigits(d.day) + "-" + TwoDigits(d.month) + "-" + FourDigits(d.year)
  }

  lemma DigitOfDigitChar(n: nat)
    requires n < 10
    ensures DigitValue(DigitChar(n)) == n
  {
  }

  /** The two digits written for `n` denote `n`. */
  lemma TwoDigitsValue(n: nat)
    requires n < 100
    ensures 10 * DigitValue(TwoDigits(n)[0]) + DigitValue(TwoDigits(n)[1]) == n
  {
    DigitOfDigitChar(n / 10);
    DigitOfDigitChar(n % 10);
  }

  lemma DayFieldOfDigits(day: nat)
    requires 1 <= day <= 31
    ensures DayField(TwoDigits(day)) == Some(day)
  {
    TwoDigitsValue(day);
  }

  lemma MonthFieldOfDigits(month: nat)
    requires 1 <= month <= 12
    ensures MonthField(TwoDigits(month)) == Some(month)
  {
    TwoDigitsValue(month);
  }

  lemma YearFieldOfDigits(year: nat)
    requires year < 10000
    ensures YearField(FourDigits(year)) == Some(year)
  {
    var t, high, low := FourDigits(year), TwoDigits(year / 100), TwoDigits(year % 100);
    TwoDigitsValue(year / 100);
    TwoDigitsValue(year % 100);
    assert t[0] == high[0] && t[1] == high[1] && t[2] == low[0] && t[3] == low[1];
    assert 1000 * DigitValue(t[0]) + 100 * DigitValue(t[1]) + 10 * DigitValue(t[2]) + DigitValue(t[3])
        == 100 * (year / 100) + year % 100;
  }

  /** Every calendar day written as DD-MM-YYYY parses back to itself. */
  lemma ParseDateOfDateText(d: Date)
    requires ValidDate(d)
    ensures ParseDate(DateText(d)) == Some(d)
  {
    var t := DateText(d);
    assert t[..2] == TwoDigits(d.day);
    assert t[3..5] == TwoDigits(d.month);
    assert t[6..] == FourDigits(d.year);
    DayFieldOfDigits(d.day);
    MonthFieldOfDigits(d.month);
    YearFieldOfDigits(d.year);
  }

  /** strptime's short forms of the day and the month are accepted. */
  lemma ParseDateShortForms()
    ensures ParseDate("5-3-2024") == Some(Date(2024, 3, 5))
    ensures ParseDate(" 5-03-2024") == Some(Date(2024, 3, 5))
  {
    assert "5-3-2024"[..1] == "5" && "5-3-2024"[2..3] == "3" && "5-3-2024"[4..] == "2024";
    assert " 5-03-2024"[..2] == " 5" && " 5-03-2024"[3..5] == "03" && " 5-03-2024"[6..] == "2024";
  }

  /** The 29th of February parses only in a leap year; the ISO order does not parse. */
  lemma ParseDateRejects()
    ensures ParseDate("29-02-2024") == Some(Date(2024, 2, 29))
    ensures ParseDate("29-02-2023") == None
    ensures ParseDate("2024-03-05") == None
  {
    assert "29-02-2024"[..2] == "29" && "29-02-2024"[3..5] == "02" && "29-02-2024"[6..] == "2024";
    assert "29-02-2023"[..2] == "29" && "29-02-2023"[3..5] == "02" && "29-02-2023"[6..] == "2023";
  }

  /** `a < b` on dates: year, then month, then day. */
  predicate Before(a: Date, b: Date) {
    a.year < b.year || (a.year == b.year && (a.month < b.month || (a.month == b.month && a.day < b.day)))
  }

  /** Neither before the start nor after the end, each bound applying only when given: both are inclusive. */
  predicate InRange(d: Date, start: Option<Date>, end: Option<Date>) {
    !(start.Some? && Before(d, start.value)) && !(end.Some? && Before(end.value, d))
  }

  /** A single-day range holds exactly that day. */
  lemma OneDayRange(d: Date, day: Date)
    ensures InRange(d, Some(day), Some(day)) <==> d == day
  {
  }

  // ---------------------------------------------------------------- report

  /** `sum(r.amount for r in rs if r.amount > 0)` */
  function Income(rs: seq<FinanceRecord>): (total: int)
    ensures total >= 0
    decreases |rs|
  {
    if rs == [] then 0 else (if rs[0].amount > 0 then rs[0].amount else 0) + Income(rs[1..])
  }

  /** `sum(r.amount for r in rs if r.amount < 0)` */
  function Expense(rs: seq<FinanceRecord>): (total: int)
    ensures total <= 0
    decreases |rs|
  {
    if rs == [] then 0 else (if rs[0].amount < 0 then rs[0].amount else 0) + Expense(rs[1..])
  }

  function IsIncome(r: FinanceRecord): bool { r.amount > 0 }
  function IsExpense(r: FinanceRecord): bool { r.amount < 0 }
  function IsNonZero(r: FinanceRecord): bool { r.amount != 0 }

  lemma BalanceCons(r: FinanceRecord, rest: seq<FinanceRecord>)
    ensures Balance([r] + rest) == r.amount + Balance(rest)
    ensures Income([r] + rest) == (if r.amount > 0 then r.amount else 0) + Income(rest)
    ensures Expense([r] + rest) == (if r.amount < 0 then r.amount else 0) + Expense(rest)
  {
    assert ([r] + rest)[0] == r && ([r] + rest)[1..] == rest;
  }

  /** One step of a selection: the head, if it passes, then the selection from the tail. */
  lemma FilterHead(rs: seq<FinanceRecord>, p: FinanceRecord -> bool)
    requires rs != []
    ensures p(rs[0]) ==> Seqs.Filter(rs, p) == [rs[0]] + Seqs.Filter(rs[1..], p)
    ensures !p(rs[0]) ==> Seqs.Filter(rs, p) == Seqs.Filter(rs[1..], p)
  {
    assert [] + Seqs.Filter(rs[1..], p) == Seqs.Filter(rs[1..], p);
  }

  /** Income is the balance of the records with a positive amount, expense that of the negative ones. */
  lemma {:induction false} TotalsAreSelectedBalances(rs: seq<FinanceRecord>)
    ensures Income(rs) == Balance(Seqs.Filter(rs, IsIncome))
    ensures Expense(rs) == Balance(Seqs.Filter(rs, IsExpense))
    decreases |rs|
  {
    if rs != [] {
      TotalsAreSelectedBalances(rs[1..]);
      FilterHead(rs, IsIncome);
      FilterHead(rs, IsExpense);
      BalanceCons(rs[0], Seqs.Filter(rs[1..], IsIncome));
      BalanceCons(rs[0], Seqs.Filter(rs[1..], IsExpense));
    }
  }

  /** Income and expense together make the whole balance. */
  lemma {:induction false} TotalsMakeBalance(rs: seq<FinanceRecord>)
    ensures Income(rs) + Expense(rs) == Balance(rs)
    decreases |rs|
  {
    if rs != [] {
      TotalsMakeBalance(rs[1..]);
    }
  }

  /** Records of amount zero count in neither total. */
  lemma {:induction false} ZeroCountsInNeither(rs: seq<FinanceRecord>)
    ensures Income(Seqs.Filter(rs, IsNonZero)) == Income(rs)
    ensures Expense(Seqs.Filter(rs, IsNonZero)) == Expense(rs)
    decreases |rs|
  {
    if rs != [] {
      ZeroCountsInNeither(rs[1..]);
      FilterHead(rs, IsNonZero);
      BalanceCons(rs[0], Seqs.Filter(rs[1..], IsNonZero));
    }
  }

  datatype Report = Report(income: int, expense: int)

  function InReport(start: Option<Date>, end: Option<Date>): FinanceRecord -> bool {
    (r: FinanceRecord) => ParseDate(r.date).Some? && InRange(ParseDate(r.date).value, start, end)
  }

  /** The records `generate_report` keeps. */
  function ReportRecords(rs: seq<FinanceRecord>, start: Option<Date>, end: Option<Date>): (kept: seq<FinanceRecord>)
    ensures forall r :: r in kept <==> r in rs && ParseDate(r.date).Some? && InRange(ParseDate(r.date).value, start, end)
  {
    Seqs.FilterMembers(rs, InReport(start, end));
    Seqs.Filter(rs, InReport(start, end))
  }

  /** One more record in the pass: its date parses, and it is kept exactly when that date is in range. */
  lemma ReportRecordsStep(rs: seq<FinanceRecord>, i: nat, date: Date, start: Option<Date>, end: Option<Date>)
    requires i < |rs| && ParseDate(rs[i].date) == Some(date)
    requires AllDatesParse(rs[..i])
    ensures AllDatesParse(rs[..i + 1])
    ensures ReportRecords(rs[..i + 1], start, end)
      == ReportRecords(rs[..i], start, end) + (if InRange(date, start, end) then [rs[i]] else [])
  {
    Seqs.FilterSnoc(rs[..i], rs[i], InReport(start, end));
    assert rs[..i + 1] == rs[..i] + [rs[i]];
  }

  predicate AllDatesParse(rs: seq<FinanceRecord>) {
    forall i :: 0 <= i < |rs| ==> ParseDate(rs[i].date).Some?
  }

  /**
   * What `generate_report` prints: the income and expense of the records in
   * range; None where some record's date does not parse and it raises. The
   * income is never negative, the expense never positive, and together they
   * make the balance of the records in range.
   */
  function ReportOf(rs: seq<FinanceRecord>, start: Option<Date>, end: Option<Date>): (report: Option<Report>)
    ensures report.None? <==> !AllDatesParse(rs)
    ensures report.Some? ==> report.value.income >= 0 && report.value.expense <= 0
    ensures report.Some? ==> report.value.income + report.value.expense == Balance(ReportRecords(rs, start, end))
  {
    if AllDatesParse(rs) then
      var kept := ReportRecords(rs, start, end);
      TotalsMakeBalance(kept);
      Some(Report(Income(kept), Expense(kept)))
    else None
  }

  /** A date that does not parse ends the pass without a report. */
  lemma ReportFails(rs: seq<FinanceRecord>, i: nat, start: Option<Date>, end: Option<Date>)
    requires i < |rs| && ParseDate(rs[i].date).None?
    ensures ReportOf(rs, start, end).None?
  {
  }

  /** A pass that parsed every date and kept the records in range makes the report. */
  lemma ReportMade(rs: seq<FinanceRecord>, kept: seq<FinanceRecord>, start: Option<Date>, end: Option<Date>)
    requires AllDatesParse(rs[..|rs|])
    requires kept == ReportRecords(rs[..|rs|], start, end)
    ensures ReportOf(rs, start, end) == Some(Report(Income(kept), Expense(kept)))
  {
    assert rs[..|rs|] == rs;
  }

  /** With no bounds every record is in the report. */
  lemma ReportWithoutBounds(rs: seq<FinanceRecord>)
    requires AllDatesParse(rs)
    ensures ReportRecords(rs, None, None) == rs
  {
    forall r | r in rs ensures InReport(None, None)(r) {
      var i :| 0 <= i < |rs| && rs[i] == r;
    }
    Seqs.FilterKeepsAll(rs, InReport(None, None));
  }

  /** A report from one day to the same day holds exactly the records dated that day. */
  lemma ReportOneDay(rs: seq<FinanceRecord>, day: Date)
    ensures forall r :: r in ReportRecords(rs, Some(day), Some(day)) <==> r in rs && ParseDate(r.date) == Some(day)
  {
    Seqs.FilterMembers(rs, InReport(Some(day), Some(day)));
  }

  // ---------------------------------------------------------------- backing file

  /** One object as `save_records` writes it: exactly the constructor's keys. */
  function RecordToJson(r: FinanceRecord): Json.Object {
    map["record_id" := Json.Num(r.id), "amount" := Json.Num(r.amount), "category" := Json.Str(r.category),
        "date" := Json.Str(r.date), "description" := Json.Str(r.description)]
  }

  function DumpRecords(rs: seq<FinanceRecord>): seq<Json.Object> {
    Json.EncodeAll(rs, RecordToJson)
  }

  const RecordKeys: set<string> := {"record_id", "amount", "category", "date", "description"}

  /** `FinanceRecord(**obj)`: all five parameters are required. */
  function RecordFromJson(obj: Json.Object): Option<FinanceRecord> {
    if !Json.Binds(obj, RecordKeys, RecordKeys) then None
    else
      match (Json.NumberAt(obj, "record_id"), Json.NumberAt(obj, "amount"), Json.TextAt(obj, "category"),
             Json.TextAt(obj, "date"), Json.TextAt(obj, "description"))
      case (Some(id), Some(amount), Some(category), Some(date), Some(description)) =>
        Some(FinanceRecord(id, amount, category, date, description))
      case _ => None
  }

  /**
   * `load_records`: no file is no records; otherwise the file loads iff
   * every object binds, giving one record per object, in order.
   */
  function LoadRecords(disk: Option<seq<Json.Object>>): (r: Option<seq<FinanceRecord>>)
    ensures disk.None? ==> r == Some([])
    ensures disk.Some? ==> (r.Some? <==> forall i :: 0 <= i < |disk.value| ==> RecordFromJson(disk.value[i]).Some?)
    ensures disk.Some? && r.Some? ==> |r.value| == |disk.value|
    ensures disk.Some? && r.Some? ==> forall i :: 0 <= i < |disk.value| ==> RecordFromJson(disk.value[i]) == Some(r.value[i])
  {
    Json.Load(disk, RecordFromJson)
  }

  lemma RecordJsonRoundTrip(r: FinanceRecord)
    ensures RecordFromJson(RecordToJson(r)) == Some(r)
  {
    assert RecordToJson(r).Keys == RecordKeys;
  }

  /** Loading what `save_records` wrote gives back the same records, ids included. */
  lemma SavedRecordsLoad(rs: seq<FinanceRecord>)
    ensures LoadRecords(Some(DumpRecords(rs))) == Some(rs)
  {
    forall r | r in rs ensures RecordFromJson(RecordToJson(r)) == Some(r) {
      RecordJsonRoundTrip(r);
    }
    Json.DecodeEncodeAll(rs, RecordToJson, RecordFromJson);
  }

  // ---------------------------------------------------------------- CSV

  const FinanceHeader: Csv.Row := ["ID", "Amount", "Category", "Date", "Description"]

  /** The row `export_to_csv` writes for a record. */
  function FinanceRow(r: FinanceRecord): Csv.Row {
    [IntText(r.id), IntText(r.amount), r.category, r.date, r.description]
  }

  function FinanceTable(rs: seq<FinanceRecord>): seq<Csv.Row> {
    Csv.Write(FinanceHeader, rs, FinanceRow)
  }

  /** The arguments `import_from_csv` passes to `add_record`. */
  datatype FinanceInput = FinanceInput(amount: int, category: string, date: string, description: string)

  /** The amount cell converted to a number, and the other three cells as they are; the ID column is not read. */
  function FinanceArgs(header: Csv.Row, row: Csv.Row): Option<FinanceInput> {
    match (Csv.Lookup(header, row, "Amount"), Csv.Lookup(header, row, "Category"),
           Csv.Lookup(header, row, "Date"), Csv.Lookup(header, row, "Description"))
    case (Value(amount), Value(category), Value(date), Value(description)) =>
      (match ParseInt(amount)
       case Some(a) => Some(FinanceInput(a, category, date, description))
       case None => None)
    case _ => None
  }

  function FinanceParser(header: Csv.Row): Csv.Row -> Option<FinanceInput> {
    row => FinanceArgs(header, row)
  }

  function BuildRecord(id: int, a: FinanceInput): FinanceRecord {
    FinanceRecord(id, a.amount, a.category, a.date, a.description)
  }

  /** `import_from_csv` from the list `rs`: one `add_record` per data row, until a row fails. */
  function ImportRecords(rs: seq<FinanceRecord>, table: seq<Csv.Row>): (seq<FinanceRecord>, bool) {
    RecordStore.AddEach(rs, Csv.DataRows(table), FinanceParser(Csv.Header(table)), BuildRecord)
  }

  lemma ImportNumbersOn(rs: seq<FinanceRecord>, table: seq<Csv.Row>)
    requires RecordStore.NumberedFromOne(rs, RecordId)
    ensures RecordStore.NumberedFromOne(ImportRecords(rs, table).0, RecordId)
    ensures |ImportRecords(rs, table).0| >= |rs| && ImportRecords(rs, table).0[..|rs|] == rs
  {
    RecordStore.AddEachAdds(rs, Csv.DataRows(table), FinanceParser(Csv.Header(table)), BuildRecord);
    RecordStore.AddEachNumbersOn(rs, Csv.DataRows(table), FinanceParser(Csv.Header(table)), BuildRecord, RecordId);
  }

  lemma FinanceArgsOfRow(r: FinanceRecord)
    ensures FinanceArgs(FinanceHeader, FinanceRow(r)) == Some(FinanceInput(r.amount, r.category, r.date, r.description))
  {
    var h, row := FinanceHeader, FinanceRow(r);
    Csv.LookupAt(h, row, "Amount", 1);
    Csv.LookupAt(h, row, "Category", 2);
    Csv.LookupAt(h, row, "Date", 3);
    Csv.LookupAt(h, row, "Description", 4);
    ParseIntOfIntText(r.amount);
  }

  /**
   * Exporting and importing into an empty manager gives back every amount,
   * category, date and description in order, renumbered 1..N.
   */
  lemma ImportOfExport(rs: seq<FinanceRecord>)
    ensures ImportRecords([], FinanceTable(rs)).1
    ensures |ImportRecords([], FinanceTable(rs)).0| == |rs|
    ensures forall k :: 0 <= k < |rs| ==> ImportRecords([], FinanceTable(rs)).0[k] == rs[k].(id := k + 1)
  {
    Csv.ReadWritten(FinanceHeader, rs, FinanceRow);
    var rows := Csv.DataRows(FinanceTable(rs));
    forall k | 0 <= k < |rows|
      ensures FinanceParser(FinanceHeader)(rows[k]) == Some(FinanceInput(rs[k].amount, rs[k].category, rs[k].date, rs[k].description))
    {
      assert rows[k] == FinanceRow(rs[k]);
      FinanceArgsOfRow(rs[k]);
    }
    RecordStore.AddEachAdds([], rows, FinanceParser(FinanceHeader), BuildRecord);
  }

  // ---------------------------------------------------------------- the manager

  class FinanceManager {
    /** `self.records` */
    var records: seq<FinanceRecord>
    /** The backing file's contents; None while the file does not exist. */
    var disk: Option<seq<Json.Object>>
    /** How many times the backing file has been rewritten. */
    var writes: nat

    constructor (disk: Option<seq<Json.Object>>, records: seq<FinanceRecord>)
      ensures this.disk == disk && this.records == records && writes == 0
    {
      this.disk := disk;
      this.records := records;
      writes := 0;
    }

    /** `save_records`: rewrites the whole file from the list. */
    method SaveRecords()
      modifies this
      ensures records == old(records)
      ensures disk == Some(DumpRecords(records)) && writes == old(writes) + 1
    {
      disk := Some(DumpRecords(records));
      writes := writes + 1;
    }

    /** `add_record`: appends one record numbered len + 1, then saves. */
    method AddRecord(amount: int, category: string, date: string, description: string)
      modifies this
      ensures records == old(records) + [FinanceRecord(|old(records)| + 1, amount, category, date, description)]
      ensures disk == Some(DumpRecords(records)) && writes == old(writes) + 1
    {
      records := records + [FinanceRecord(|records| + 1, amount, category, date, description)];
      SaveRecords();
    }

    /**
     * `generate_report`: one pass over the records, parsing each date,
     * skipping those out of range, and totalling the rest; a date that does
     * not parse ends the pass with no report.
     */
    method GenerateReport(start: Option<Date>, end: Option<Date>) returns (report: Option<Report>)
      ensures report == ReportOf(records, start, end)
    {
      var rs := records;
      var kept: seq<FinanceRecord> := [];
      var i := 0;
      while i < |rs|
        invariant 0 <= i <= |rs|
        invariant AllDatesParse(rs[..i])
        invariant kept == ReportRecords(rs[..i], start, end)
      {
        var date := ParseDate(rs[i].date);
        if date.None? {
          ReportFails(rs, i, start, end);
          return None;
        }
        ReportRecordsStep(rs, i, date.value, start, end);
        if (start.Some? && Before(date.value, start.value)) || (end.Some? && Before(end.value, date.value)) {
          i := i + 1;
          continue;
        }
        kept := kept + [rs[i]];
        i := i + 1;
      }
      ReportMade(rs, kept, start, end);
      report := Some(Report(Income(kept), Expense(kept)));
    }

    /** `export_to_csv`: the header, then one row per record in list order. */
    method ExportToCsv() returns (table: seq<Csv.Row>)
      ensures table == FinanceTable(records)
    {
      table := [FinanceHeader];
      var i := 0;
      while i < |records|
        invariant 0 <= i <= |records|
        invariant table == Csv.Write(FinanceHeader, records[..i], FinanceRow)
      {
        assert records[..i + 1][..i] == records[..i];
        table := table + [FinanceRow(records[i])];
        i := i + 1;
      }
      assert records[..i] == records;
    }

    /**
     * `import_from_csv`: one `add_record` per data row, each saving; a row
     * whose amount is not a number, or a missing column or cell, stops the
     * import, keeping what was added before it.
     */
    method ImportFromCsv(table: seq<Csv.Row>) returns (ok: bool)
      modifies this
      ensures (records, ok) == ImportRecords(old(records), table)
      ensures writes == old(writes) + (|records| - |old(records)|)
      ensures |records| == |old(records)| ==> disk == old(disk)
      ensures |records| > |old(records)| ==> disk == Some(DumpRecords(records))
    {
      var parse := FinanceParser(Csv.Header(table));
      var pending := Csv.DataRows(table);
      while pending != []
        invariant RecordStore.AddEach(records, pending, parse, BuildRecord) == ImportRecords(old(records), table)
        invariant |records| - |old(records)| == writes - old(writes) >= 0
        invariant |records| == |old(records)| ==> disk == old(disk)
        invariant |records| > |old(records)| ==> disk == Some(DumpRecords(records))
        decreases |pending|
      {
        RecordStore.AddEachStep(records, pending, parse, BuildRecord);
        var args := parse(pending[0]);
        if args.None? {
          return false;
        }
        var a := args.value;
        AddRecord(a.amount, a.category, a.date, a.description);
        pending := pending[1..];
      }
      return true;
    }
  }

  /** `FinanceManager()`: loads the backing file; a file that does not load raises, and no manager exists. */
  method OpenFinanceManager(disk: Option<seq<Json.Object>>) returns (m: Option<FinanceManager>)
    ensures LoadRecords(disk).None? ==> m.None?
    ensures LoadRecords(disk).Some? ==>
      m.Some? && fresh(m.value) && m.value.records == LoadRecords(disk).value
      && m.value.disk == disk && m.value.writes == 0
  {
    var loaded := LoadRecords(disk);
    if loaded.None? {
      return None;
    }
    var manager := new FinanceManager(disk, loaded.value);
    return Some(manager);
  }

  /** A record added by `add_record` to a list numbered 1..N is numbered N + 1. */
  lemma AddRecordNumbersOn(rs: seq<FinanceRecord>, amount: int, category: string, date: string, description: string)
    requires RecordStore.NumberedFromOne(rs, RecordId)
    ensures RecordStore.NumberedFromOne(rs + [FinanceRecord(|rs| + 1, amount, category, date, description)], RecordId)
  {
    RecordStore.AddKeepsNumbering(rs, RecordId, FinanceRecord(|rs| + 1, amount, category, date, description));
  }
}
