/** The month navigator of components/date-changer.tsx: a (month, year) pair that the
    two arrow buttons step back and forth, written to the URL after every step and
    read from it when the component mounts. */
module DateChanger {
  import opened Js

  datatype Direction = Prev | Next

  /** The (month, year) one press of an arrow leads to: from a month in 1..12, the
      calendar month one after (Next) or one before (Prev), again in 1..12. */
  function Step(dir: Direction, month: int, year: int): (r: (int, int))
    ensures 1 <= month <= 12 ==> 1 <= r.0 <= 12
    ensures 1 <= month <= 12 ==> MonthIndex(r.0, r.1) == MonthIndex(month, year) + (if dir == Next then 1 else -1)
  {
    match dir
    case Next => if month == 12 then (1, year + 1) else (month + 1, year)
    case Prev => if month == 1 then (12, year - 1) else (month - 1, year)
  }

  /** Calendar months counted from January of year 0: the reference order that
      stepping is checked against. */
  function MonthIndex(month: int, year: int): int {
    12 * year + (month - 1)
  }

  /** The (month, year) of a month index. */
  function MonthAt(index: int): (int, int) {
    (index % 12 + 1, index / 12)
  }

  lemma MonthAtIndex(month: int, year: int)
    requires 1 <= month <= 12
    ensures MonthAt(MonthIndex(month, year)) == (month, year)
  {
    var k := MonthIndex(month, year);
    assert k == 12 * year + (month - 1) && 0 <= month - 1 < 12;
    assert k / 12 == year && k % 12 == month - 1 by {
      DivModUnique(k, year, month - 1);
    }
  }

  lemma DivModUnique(k: int, q: int, r: int)
    requires k == 12 * q + r && 0 <= r < 12
    ensures k / 12 == q && k % 12 == r
  {
  }

  /** Within 1..12, Next is the following calendar month and Prev the preceding one,
      and the month stays within 1..12. */
  lemma StepFollowsCalendar(dir: Direction, month: int, year: int)
    requires 1 <= month <= 12
    ensures 1 <= Step(dir, month, year).0 <= 12
    ensures Step(dir, month, year) == MonthAt(MonthIndex(month, year) + (if dir == Next then 1 else -1))
  {
    var (m, y) := Step(dir, month, year);
    MonthAtIndex(m, y);
  }

  lemma NextFromDecember(year: int)
    ensures Step(Next, 12, year) == (1, year + 1)
  {
  }

  lemma NextWithinYear(month: int, year: int)
    requires month < 12
    ensures Step(Next, month, year) == (month + 1, year)
  {
  }

  lemma PrevFromJanuary(year: int)
    ensures Step(Prev, 1, year) == (12, year - 1)
  {
  }

  lemma PrevWithinYear(month: int, year: int)
    requires month > 1
    ensures Step(Prev, month, year) == (month - 1, year)
  {
  }

  /** Next then Prev returns to the start for every month but 0, and Prev then Next
      for every month but 13 (months the URL can carry, as nothing checks its range). */
  lemma StepsUndo(month: int, year: int)
    ensures var (m, y) := Step(Next, month, year); Step(Prev, m, y) == (month, year) <==> month != 0
    ensures var (m, y) := Step(Prev, month, year); Step(Next, m, y) == (month, year) <==> month != 13
  {
  }

  /** The query string pushed after a step. */
  function PushedQuery(month: int, year: int): string {
    "?month=" + IntToString(month) + "&year=" + IntToString(year)
  }

  /** A number read from the URL when the component mounts: a present, non-empty
      parameter goes through parseInt, otherwise the clock's value is used
      (`now`, a parameter here). None stands for NaN. */
  function InitialValue(query: string, name: string, now: int): Option<int> {
    var param := SearchParamsGet(query, name);
    if param.Some? && param.value != "" then ParseInt(param.value) else Some(now)
  }

  /** The pushed query, past its '?', splits at '&' into the two pairs. */
  lemma PushedQueryPieces(month: int, year: int)
    ensures PushedQuery(month, year)[0] == '?'
    ensures Split(PushedQuery(month, year)[1..], '&') == ["month=" + IntToString(month), "year=" + IntToString(year)]
  {
    var m, y := IntToString(month), IntToString(year);
    var body := PushedQuery(month, year)[1..];
    assert body == "month=" + m + ['&'] + ("year=" + y);
    assert '&' !in "month=" + m;
    assert '&' !in "year=" + y;
    SplitAfterPiece("month=" + m, "year=" + y, '&');
    SplitWithoutSeparator("year=" + y, '&');
  }

  lemma PushedQueryParams(month: int, year: int)
    ensures SearchParamsGet(PushedQuery(month, year), "month") == Some(IntToString(month))
    ensures SearchParamsGet(PushedQuery(month, year), "year") == Some(IntToString(year))
  {
    var m, y := IntToString(month), IntToString(year);
    PushedQueryPieces(month, year);
    assert "month" + "=" + m == "month=" + m && "year" + "=" + y == "year=" + y;
    SplitPairAt("month", m);
    SplitPairAt("year", y);
    var pieces := ["month=" + m, "year=" + y];
    assert pieces[0] != "" && SplitPair(pieces[0]) == ("month", m);
    assert pieces[1..] == ["year=" + y] && pieces[1..][0] != "" && SplitPair(pieces[1..][0]) == ("year", y);
    assert "month" != "year";
    assert FirstNamed(pieces[1..], "year") == Some(y);
    assert FirstNamed(pieces, "year") == Some(y);
  }

  /** The pushed URL carries exactly the new state: mounting the navigator on it
      restores the same month and year, whatever the clock says. */
  lemma PushedQueryRestoresState(month: int, year: int, nowMonth: int, nowYear: int)
    ensures InitialValue(PushedQuery(month, year), "month", nowMonth) == Some(month)
    ensures InitialValue(PushedQuery(month, year), "year", nowYear) == Some(year)
  {
    PushedQueryParams(month, year);
    ParseIntOfIntToString(month);
    ParseIntOfIntToString(year);
  }

  /** The component's `month` and `year` state cells. */
  class MonthNavigator {
    var month: int
    var year: int

    constructor (initialMonth: int, initialYear: int)
      ensures month == initialMonth && year == initialYear
    {
      month := initialMonth;
      year := initialYear;
    }

    /** handleChangeMonth: step a local copy of the state, push the URL, then store it. */
    method ChangeMonth(dir: Direction) returns (pushed: string)
      modifies this
      ensures (month, year) == Step(dir, old(month), old(year))
      ensures pushed == PushedQuery(month, year)
      ensures 1 <= old(month) <= 12 ==> 1 <= month <= 12
    {
      var currentMonth := month;
      var currentYear := year;
      if dir == Next {
        if currentMonth == 12 {
          currentMonth := 1;
          currentYear := currentYear + 1;
        } else {
          currentMonth := currentMonth + 1;
        }
      } else {
        if month == 1 {
          currentMonth := 12;
          currentYear := currentYear - 1;
        } else {
          currentMonth := currentMonth - 1;
        }
      }
      pushed := PushedQuery(currentMonth, currentYear);
      month := currentMonth;
      year := currentYear;
    }
  }
}
