/** The values actions/expense-actions.ts computes before it calls the database: the
    date window of getExpensesAction and the `updates` object of updateExpenseAction. */
module ExpenseActions {
  import opened Js
  import DateChanger

  // ---------------------------------------------------------------------------
  // The date window

  /** The half-open range `date >= from && date < to` added to the query. */
  datatype DateWindow = DateWindow(from: string, to: string)

  /** `${year}-${month.toString().padStart(2, '0')}-01`. */
  function MonthStart(year: int, month: int): string {
    IntToString(year) + "-" + PadStart2(IntToString(month)) + "-01"
  }

  /** A number argument counts only when it is truthy: absent and 0 are alike. */
  predicate Given(n: Option<int>) {
    n.Some? && n.value != 0
  }

  /** The window for the optional `month` and `year` arguments. `currentYear` stands for
      `new Date().getFullYear()`, read when only the month is given. None: no date
      constraint is added. */
  function DateWindowOf(month: Option<int>, year: Option<int>, currentYear: int): (w: Option<DateWindow>)
    ensures w.None? <==> !Given(month) && !Given(year)
  {
    if Given(month) && Given(year) then
      var m, y := month.value, year.value;
      var nextMonth := if m == 12 then 1 else m + 1;
      var nextYear := if m == 12 then y + 1 else y;
      Some(DateWindow(MonthStart(y, m), MonthStart(nextYear, nextMonth)))
    else if Given(month) then
      var m := month.value;
      var nextMonth := if m == 12 then 1 else m + 1;
      var nextYear := if m == 12 then currentYear + 1 else currentYear;
      Some(DateWindow(MonthStart(currentYear, m), MonthStart(nextYear, nextMonth)))
    else if Given(year) then
      Some(DateWindow(IntToString(year.value) + "-01-01", IntToString(year.value + 1) + "-01-01"))
    else
      None
  }

  /** With both given, the window runs from the first of the month to the first of the
      month the date changer's "next" arrow leads to. */
  lemma MonthAndYearWindow(month: int, year: int, currentYear: int)
    requires month != 0 && year != 0
    ensures var (m', y') := DateChanger.Step(DateChanger.Next, month, year);
      DateWindowOf(Some(month), Some(year), currentYear) == Some(DateWindow(MonthStart(year, month), MonthStart(y', m')))
  {
  }

  lemma DecemberWindow(year: int, currentYear: int)
    requires year != 0
    ensures DateWindowOf(Some(12), Some(year), currentYear) == Some(DateWindow(MonthStart(year, 12), MonthStart(year + 1, 1)))
  {
  }

  lemma WithinYearWindow(month: int, year: int, currentYear: int)
    requires month != 0 && month != 12 && year != 0
    ensures DateWindowOf(Some(month), Some(year), currentYear) == Some(DateWindow(MonthStart(year, month), MonthStart(year, month + 1)))
  {
  }

  /** With only a month, the year is the current one. */
  lemma MonthOnlyWindow(month: int, year: Option<int>, currentYear: int)
    requires month != 0 && !Given(year)
    ensures var (m', y') := DateChanger.Step(DateChanger.Next, month, currentYear);
      DateWindowOf(Some(month), year, currentYear) == Some(DateWindow(MonthStart(currentYear, month), MonthStart(y', m')))
  {
    if month == 12 {
      assert DateChanger.Step(DateChanger.Next, month, currentYear) == (1, currentYear + 1);
    } else {
      assert DateChanger.Step(DateChanger.Next, month, currentYear) == (month + 1, currentYear);
    }
  }

  /** The month field of a bound is always two digits for months 1..12, with a leading
      '0' for 1..9, and reads back as the month. */
  lemma TwoDigitMonth(month: int)
    requires 1 <= month <= 12
    ensures var p := PadStart2(IntToString(month));
      |p| == 2 && AllDigits(p) && DigitsValue(p) == month && (month <= 9 <==> p[0] == '0')
  {
    var s := NatToString(month);
    DigitsValueOfNatToString(month);
    if month <= 9 {
      assert s == [DigitChar(month)];
      var p := "0" + s;
      assert p[..1] == "0";
    } else {
      assert s == NatToString(1) + [DigitChar(month % 10)];
      assert NatToString(1) == "1";
    }
  }

  /** With only a year, the window is that whole year. */
  lemma YearOnlyWindow(month: Option<int>, year: int, currentYear: int)
    requires !Given(month) && year != 0
    ensures DateWindowOf(month, Some(year), currentYear) == Some(DateWindow(MonthStart(year, 1), MonthStart(year + 1, 1)))
  {
    assert IntToString(1) == "1";
    assert PadStart2("1") == "01";
    assert MonthStart(year, 1) == IntToString(year) + "-01-01";
    assert MonthStart(year + 1, 1) == IntToString(year + 1) + "-01-01";
  }

  /** 0 is falsy: passing it is the same as passing nothing. */
  lemma ZeroIsAbsent(month: Option<int>, year: Option<int>, currentYear: int)
    ensures DateWindowOf(Some(0), year, currentYear) == DateWindowOf(None, year, currentYear)
    ensures DateWindowOf(month, Some(0), currentYear) == DateWindowOf(month, None, currentYear)
    ensures DateWindowOf(None, None, currentYear) == None
  {
  }

  // ---------------------------------------------------------------------------
  // The updates object

  /** A JSON value in the row sent to the database. */
  datatype Json = JNumber(n: real) | JString(s: string) | JNull

  /** `string | null`. */
  function NullableString(v: Option<string>): Json {
    if v.Some? then JString(v.value) else JNull
  }

  /** The optional arguments of updateExpenseAction: an outer None is `undefined`,
      an inner None on a nullable argument is `null`. */
  datatype UpdateExpenseArgs = UpdateExpenseArgs(
    amount: Option<real>,
    description: Option<Option<string>>,
    date: Option<string>,
    categoryId: Option<Option<string>>,
    sourceId: Option<Option<string>>)

  const UpdateKeys: set<string> := {"amount", "description", "date", "category_id", "source_id"}

  /** `{...(x !== undefined && { key: x }), ...}`: the spread of `false` adds nothing. */
  function SpreadIf(updates: map<string, Json>, present: bool, key: string, value: Json): map<string, Json> {
    if present then updates[key := value] else updates
  }

  function ExpenseUpdates(a: UpdateExpenseArgs): (u: map<string, Json>)
    ensures u.Keys <= UpdateKeys
    ensures "amount" in u <==> a.amount.Some?
    ensures "description" in u <==> a.description.Some?
    ensures "date" in u <==> a.date.Some?
    ensures "category_id" in u <==> a.categoryId.Some?
    ensures "source_id" in u <==> a.sourceId.Some?
    ensures a.description == Some(None) ==> u["description"] == JNull
    ensures a.categoryId == Some(None) ==> u["category_id"] == JNull
    ensures a.sourceId == Some(None) ==> u["source_id"] == JNull
  {
    var u: map<string, Json> := map[];
    var u := SpreadIf(u, a.amount.Some?, "amount", if a.amount.Some? then JNumber(a.amount.value) else JNull);
    var u := SpreadIf(u, a.description.Some?, "description", if a.description.Some? then NullableString(a.description.value) else JNull);
    var u := SpreadIf(u, a.date.Some?, "date", if a.date.Some? then JString(a.date.value) else JNull);
    var u := SpreadIf(u, a.categoryId.Some?, "category_id", if a.categoryId.Some? then NullableString(a.categoryId.value) else JNull);
    SpreadIf(u, a.sourceId.Some?, "source_id", if a.sourceId.Some? then NullableString(a.sourceId.value) else JNull)
  }

  /** Reads the arguments back out of an `updates` object, `category_id` as categoryId
      and `source_id` as sourceId. */
  function ArgsOfUpdates(u: map<string, Json>): UpdateExpenseArgs {
    UpdateExpenseArgs(
      if "amount" in u && u["amount"].JNumber? then Some(u["amount"].n) else None,
      if "description" in u then Some(StringOrNull(u["description"])) else None,
      if "date" in u && u["date"].JString? then Some(u["date"].s) else None,
      if "category_id" in u then Some(StringOrNull(u["category_id"])) else None,
      if "source_id" in u then Some(StringOrNull(u["source_id"])) else None)
  }

  function StringOrNull(j: Json): Option<string> {
    if j.JString? then Some(j.s) else None
  }

  /** The updates object loses nothing: every argument, `null` included, is recovered
      from it under its renamed key. */
  lemma ExpenseUpdatesRoundTrip(a: UpdateExpenseArgs)
    ensures ArgsOfUpdates(ExpenseUpdates(a)) == a
  {
  }
}
