/** `StraubingMensaMenuParser`: the CSV export of the Straubing canteen. One row per dish;
    rows of one day follow each other. `util.parse_date` and the CSV tokeniser are defined
    outside this model, so reading the date of a cell is a parameter `parseDate`, which gives
    the date or the error `util.parse_date` raises (a ValueError for a malformed cell), and a
    page arrives as its CSV rows. */
module Straubing {
  import opened Common
  import opened Entities
  import opened IsoDates
  import opened Labels

  /** The index of the last occurrence of `c` in `s`, or -1 (`str.rfind`). */
  function LastIndexOf(s: string, c: char): (r: int)
    ensures -1 <= r < |s|
    ensures r >= 0 ==> s[r] == c && forall k :: r < k < |s| ==> s[k] != c
    ensures r == -1 ==> forall k :: 0 <= k < |s| ==> s[k] != c
  {
    if s == [] then -1
    else if s[|s| - 1] == c then |s| - 1
    else LastIndexOf(s[..|s| - 1], c)
  }

  /** `float(s.replace(",", "."))` in cents, for a plain decimal: optional blanks around
      digits with at most one decimal mark, not both sides empty. A third and later decimal
      is dropped. Anything else is a ValueError. */
  function DecimalCents(s: string): (r: Result<int>)
    ensures r.Ok? ==> r.value >= 0
    ensures r.Err? ==> r.error == ValueError
  {
    var t := Strip(s);
    var c := FirstIn(t, 0, DecimalMark);
    var whole := t[..c];
    var frac := if c < |t| then t[c + 1..] else [];
    if AllDigits(whole) && AllDigits(frac) && (whole != [] || frac != []) then
      Ok(DigitsValue(whole) * 100 + DigitAt(frac, 0) * 10 + DigitAt(frac, 1))
    else Err(ValueError)
  }

  /** A formatted price has no white space around it. */
  lemma FormatPriceStripped(cents: nat)
    ensures Strip(FormatPrice(cents)) == FormatPrice(cents)
  {
    var e := NatToString(cents / 100);
    var t := FormatPrice(cents);
    FormatPriceParts(cents);
    assert LeadingSpaces(t) == 0 by {
      assert t[0] == e[0] && IsDigit(e[0]);
    }
    assert 0 <= cents % 10 <= 9;
    assert TrailingSpaces(t) == 0 by {
      assert IsDigit(t[|t| - 1]);
    }
    assert t[0..|t|] == t;
  }

  /** Reading a price written with a decimal comma gives the amount it was written from. */
  lemma DecimalCentsOfFormat(cents: nat)
    ensures DecimalCents(FormatPrice(cents)) == Ok(cents)
  {
    var e := NatToString(cents / 100);
    var t := FormatPrice(cents);
    FormatPriceParts(cents);
    FormatPriceStripped(cents);
    NatToStringRoundTrip(cents / 100);
    assert 0 <= cents % 100 / 10 <= 9 && 0 <= cents % 10 <= 9;
    var frac := t[|e| + 1..];
    assert frac == [t[|e| + 1], t[|e| + 2]];
    assert AllDigits(frac);
    CentsDigits(cents);
  }

  /** A cell that holds no digit is not a price. */
  lemma NoDigitNoPrice(s: string)
    requires forall k :: 0 <= k < |s| ==> !IsDigit(s[k])
    ensures DecimalCents(s) == Err(ValueError)
  {
    var t := Strip(s);
    StripWithin(s);
    var i := LeadingSpaces(s);
    assert forall k :: 0 <= k < |t| ==> t[k] == s[i + k];
    var c := FirstIn(t, 0, DecimalMark);
    if c < |t| {
      assert t[c + 1..] == [] || !IsDigit(t[c + 1..][0]);
    } else {
      assert t[..c] == [] || !IsDigit(t[..c][0]);
    }
  }

  /** The prices of a row: columns 6, 7 and 8 for students, staff and guests, read in that
      order; a row too short for the next column is an IndexError, a column that is not a
      number a ValueError. */
  function RowPrices(row: seq<string>): (r: Result<Prices>)
    ensures r.Ok? ==> |row| >= 9
  {
    if |row| < 7 then Err(IndexError)
    else
      match DecimalCents(row[6])
      case Err(e) => Err(e)
      case Ok(students) =>
        if |row| < 8 then Err(IndexError)
        else
          match DecimalCents(row[7])
          case Err(e) => Err(e)
          case Ok(staff) =>
            if |row| < 9 then Err(IndexError)
            else
              match DecimalCents(row[8])
              case Err(e) => Err(e)
              case Ok(guests) => Ok(Prices(Some(Flat(students)), Some(Flat(staff)), Some(Flat(guests))))
  }

  /** The prices of a row read exactly when it has the nine columns and all three are
      numbers; they are then the three amounts, and a row of fewer than seven columns is an
      IndexError. */
  lemma RowPricesRead(row: seq<string>)
    ensures var r := RowPrices(row);
      (r.Ok? <==> |row| >= 9 && DecimalCents(row[6]).Ok? && DecimalCents(row[7]).Ok? && DecimalCents(row[8]).Ok?)
      && (|row| < 7 ==> r == Err(IndexError))
      && (r.Ok? ==>
            r.value == Prices(Some(Flat(DecimalCents(row[6]).value)), Some(Flat(DecimalCents(row[7]).value)),
                              Some(Flat(DecimalCents(row[8]).value))))
  {
  }

  /** Reading the prices of a row, in the order of the source. */
  method ReadPrices(row: seq<string>) returns (r: Result<Prices>)
    ensures r == RowPrices(row)
  {
    if |row| < 7 {
      return Err(IndexError);
    }
    var students := DecimalCents(row[6]);
    if students.Err? {
      return Err(students.error);
    }
    if |row| < 8 {
      return Err(IndexError);
    }
    var staff := DecimalCents(row[7]);
    if staff.Err? {
      return Err(staff.error);
    }
    if |row| < 9 {
      return Err(IndexError);
    }
    var guests := DecimalCents(row[8]);
    if guests.Err? {
      return Err(guests.error);
    }
    r := Ok(Prices(Some(Flat(students.value)), Some(Flat(staff.value)), Some(Flat(guests.value))));
  }

  /** `parse_dish(data)`: the title is column 3; the labels are the codes between its last
      "(" and the end, and the name is the text before that "(", trimmed; the prices come
      from columns 6 to 8; the type is column 2; column 4 holds diet marks. A row too short
      for the title is an IndexError. */
  function StraubingDish(row: seq<string>, labelsOf: string -> set<Label>): Result<Dish> {
    if |row| < 4 then Err(IndexError)
    else
      var title := row[3];
      var bracket := LastIndexOf(title, '(');
      var labels := if bracket == -1 then {} else labelsOf(ReplaceAll(ReplaceAll(title[bracket..], "(", ""), ")", ""));
      var name := if bracket == -1 then title else Strip(title[..bracket]);
      match RowPrices(row)
      case Err(e) => Err(e)
      case Ok(prices) => Ok(Dish(name, prices, labels + Lookup(MarkTable, Split(row[4], ',')), row[2]))
  }

  /** `parse_dish`, with the source's in-place label set. */
  method ParseDish(row: seq<string>, labelsOf: string -> set<Label>) returns (r: Result<Dish>)
    ensures r == StraubingDish(row, labelsOf)
  {
    if |row| < 4 {
      return Err(IndexError);
    }
    var labels: set<Label> := {};
    var title := row[3];
    var bracket := LastIndexOf(title, '(');
    if bracket != -1 {
      labels := labels + labelsOf(ReplaceAll(ReplaceAll(title[bracket..], "(", ""), ")", ""));
      title := Strip(title[..bracket]);
    }
    ghost var found := if bracket == -1 then {} else labelsOf(ReplaceAll(ReplaceAll(row[3][bracket..], "(", ""), ")", ""));
    assert labels == found;
    var prices := ReadPrices(row);
    if prices.Err? {
      return Err(prices.error);
    }
    var marks := MarksToLabels(row[4]);
    labels := labels + marks;
    assert StraubingDish(row, labelsOf) == Ok(Dish(title, prices.value, found + marks, row[2]));
    r := Ok(Dish(title, prices.value, labels, row[2]));
  }

  /** A row yields a dish exactly when its prices read; the dish carries those prices, the
      type column and every label of the marks column; a title without "(" is the name as it
      stands and contributes no label, otherwise the name is the title before its last "(",
      trimmed. */
  lemma StraubingDishShape(row: seq<string>, labelsOf: string -> set<Label>)
    ensures var r := StraubingDish(row, labelsOf);
      (r.Ok? <==> RowPrices(row).Ok?)
      && (r.Err? ==> r.error in {IndexError, ValueError})
      && (r.Ok? ==>
            r.value.prices == RowPrices(row).value
            && r.value.dishType == row[2]
            && Lookup(MarkTable, Split(row[4], ',')) <= r.value.labels
            && ('(' !in row[3] ==> r.value.name == row[3] && r.value.labels == Lookup(MarkTable, Split(row[4], ',')))
            && ('(' in row[3] ==> r.value.name == Strip(row[3][..LastIndexOf(row[3], '(')])))
  {
    if |row| >= 4 {
      var bracket := LastIndexOf(row[3], '(');
      assert bracket == -1 <==> '(' !in row[3] by {
        if bracket >= 0 {
          assert row[3][bracket] == '(';
        }
      }
    }
  }

  /** `parse_dish` as a function value. */
  function DishReader(labelsOf: string -> set<Label>): seq<string> -> Result<Dish> {
    row => StraubingDish(row, labelsOf)
  }

  /** The date column of every row and the dish of every row, in order, or the error of the
      first row that fails: an empty row has no date column (IndexError), otherwise its date
      cell may not read, and then its dish may fail. */
  function RowDishes(rows: seq<seq<string>>, parseDate: string -> Result<Date>, dishOf: seq<string> -> Result<Dish>)
    : (r: Result<(seq<Date>, seq<Dish>)>)
    ensures r.Ok? ==> |r.value.0| == |r.value.1| == |rows|
  {
    if rows == [] then Ok(([], []))
    else
      match RowDishes(rows[..|rows| - 1], parseDate, dishOf)
      case Err(e) => Err(e)
      case Ok((dates, dishes)) =>
        var row := rows[|rows| - 1];
        if row == [] then Err(IndexError)
        else
          match parseDate(row[0])
          case Err(e) => Err(e)
          case Ok(date) =>
            match dishOf(row)
            case Err(e) => Err(e)
            case Ok(dish) => Ok((dates + [date], dishes + [dish]))
  }

  /** Once a row fails, the rows after it do not change the outcome. */
  lemma {:induction false} RowFailureSticks(rows: seq<seq<string>>, i: nat, parseDate: string -> Result<Date>, dishOf: seq<string> -> Result<Dish>)
    requires i <= |rows| && RowDishes(rows[..i], parseDate, dishOf).Err?
    ensures RowDishes(rows, parseDate, dishOf) == RowDishes(rows[..i], parseDate, dishOf)
    decreases |rows|
  {
    if i < |rows| {
      var init := rows[..|rows| - 1];
      assert init[..i] == rows[..i];
      RowFailureSticks(init, i, parseDate, dishOf);
    } else {
      assert rows[..i] == rows;
    }
  }

  /** Successful rows give each row's date and dish. */
  lemma {:induction false} RowDishesAt(rows: seq<seq<string>>, parseDate: string -> Result<Date>, dishOf: seq<string> -> Result<Dish>)
    requires RowDishes(rows, parseDate, dishOf).Ok?
    ensures var (dates, dishes) := RowDishes(rows, parseDate, dishOf).value;
      forall k :: 0 <= k < |rows| ==>
        rows[k] != [] && parseDate(rows[k][0]) == Ok(dates[k]) && dishOf(rows[k]) == Ok(dishes[k])
  {
    if rows != [] {
      var init := rows[..|rows| - 1];
      RowDishesAt(init, parseDate, dishOf);
      forall k | 0 <= k < |init|
        ensures rows[k] == init[k]
      {
      }
    }
  }

  /** The menus of consecutive rows that share a date, one per maximal run, in order. */
  function Runs(dates: seq<Date>, dishes: seq<Dish>): seq<Menu>
    requires |dates| == |dishes|
  {
    if dates == [] then []
    else
      var n := |dates| - 1;
      Extend(Runs(dates[..n], dishes[..n]), dates[n], dishes[n])
  }

  /** The dishes of a sequence of menus, one after the other. */
  function Flatten(ms: seq<Menu>): seq<Dish> {
    if ms == [] then [] else Flatten(ms[..|ms| - 1]) + ms[|ms| - 1].dishes
  }

  /** `n` copies of a date. */
  function Repeat(d: Date, n: nat): (r: seq<Date>)
    ensures |r| == n && forall k :: 0 <= k < n ==> r[k] == d
  {
    if n == 0 then [] else Repeat(d, n - 1) + [d]
  }

  /** Each menu's date repeated once per dish. */
  function DishDates(ms: seq<Menu>): seq<Date> {
    if ms == [] then [] else DishDates(ms[..|ms| - 1]) + Repeat(ms[|ms| - 1].date, |ms[|ms| - 1].dishes|)
  }

  lemma FlattenSnoc(ms: seq<Menu>, m: Menu)
    ensures Flatten(ms + [m]) == Flatten(ms) + m.dishes
  {
    assert (ms + [m])[..|ms|] == ms;
  }

  lemma DishDatesSnoc(ms: seq<Menu>, m: Menu)
    ensures DishDates(ms + [m]) == DishDates(ms) + Repeat(m.date, |m.dishes|)
  {
    assert (ms + [m])[..|ms|] == ms;
  }

  /** No run is empty, two neighbouring runs have different dates, and the last run has the
      last row's date. */
  lemma {:induction false} RunsSeparate(dates: seq<Date>, dishes: seq<Dish>)
    requires |dates| == |dishes|
    ensures var r := Runs(dates, dishes);
      (forall k :: 0 <= k < |r| ==> r[k].dishes != [])
      && (forall k :: 0 <= k < |r| - 1 ==> r[k].date != r[k + 1].date)
      && (dates != [] ==> r != [] && r[|r| - 1].date == dates[|dates| - 1])
  {
    if dates != [] {
      var n := |dates| - 1;
      RunsSeparate(dates[..n], dishes[..n]);
      ExtendSeparate(Runs(dates[..n], dishes[..n]), dates[n], dishes[n]);
    }
  }

  /** No run is empty and neighbouring runs have different dates. */
  predicate Separated(runs: seq<Menu>) {
    (forall k :: 0 <= k < |runs| ==> runs[k].dishes != [])
    && forall k :: 0 <= k < |runs| - 1 ==> runs[k].date != runs[k + 1].date
  }

  /** Adding a row keeps the runs separated and leaves a last run of the row's date. */
  lemma ExtendSeparate(runs: seq<Menu>, d: Date, x: Dish)
    requires Separated(runs)
    ensures var r := Extend(runs, d, x);
      Separated(r) && r != [] && r[|r| - 1].date == d
  {
    var r := Extend(runs, d, x);
    if runs != [] && runs[|runs| - 1].date == d {
      assert forall k :: 0 <= k < |runs| - 1 ==> r[k] == runs[k];
    } else {
      assert forall k :: 0 <= k < |runs| ==> r[k] == runs[k];
    }
  }

  /** One more row added to the runs: it joins the last run when that has its date, and
      opens a new run otherwise. */
  function Extend(runs: seq<Menu>, d: Date, x: Dish): seq<Menu> {
    if runs != [] && runs[|runs| - 1].date == d then runs[..|runs| - 1] + [Menu(d, runs[|runs| - 1].dishes + [x])]
    else runs + [Menu(d, [x])]
  }

  /** Adding a row adds its dish at the end. */
  lemma ExtendDishes(runs: seq<Menu>, d: Date, x: Dish)
    ensures Flatten(Extend(runs, d, x)) == Flatten(runs) + [x]
  {
    if runs != [] && runs[|runs| - 1].date == d {
      var m := |runs| - 1;
      var p := runs[..m];
      assert p + [runs[m]] == runs;
      FlattenSnoc(p, runs[m]);
      FlattenSnoc(p, Menu(d, runs[m].dishes + [x]));
    } else {
      FlattenSnoc(runs, Menu(d, [x]));
    }
  }

  /** Adding a row adds its date at the end. */
  lemma ExtendDates(runs: seq<Menu>, d: Date, x: Dish)
    ensures DishDates(Extend(runs, d, x)) == DishDates(runs) + [d]
  {
    if runs != [] && runs[|runs| - 1].date == d {
      var m := |runs| - 1;
      var p := runs[..m];
      assert p + [runs[m]] == runs;
      DishDatesSnoc(p, runs[m]);
      DishDatesSnoc(p, Menu(d, runs[m].dishes + [x]));
      var k := |runs[m].dishes|;
      assert Repeat(d, k + 1) == Repeat(d, k) + [d];
    } else {
      DishDatesSnoc(runs, Menu(d, [x]));
      assert Repeat(d, 1) == [d];
    }
  }

  /** The runs hold every dish exactly once, in row order, each under its row's date: every
      row becomes one dish of the menu of its date. */
  lemma RunsCover(dates: seq<Date>, dishes: seq<Dish>)
    requires |dates| == |dishes|
    ensures var r := Runs(dates, dishes);
      Flatten(r) == dishes && DishDates(r) == dates
  {
    RunsDishes(dates, dishes);
    RunsDates(dates, dishes);
  }

  lemma {:induction false} RunsDishes(dates: seq<Date>, dishes: seq<Dish>)
    requires |dates| == |dishes|
    ensures Flatten(Runs(dates, dishes)) == dishes
  {
    if dates != [] {
      var n := |dates| - 1;
      var ds, xs := dates[..n], dishes[..n];
      RunsDishes(ds, xs);
      ExtendDishes(Runs(ds, xs), dates[n], dishes[n]);
      FrontLast(dishes);
    }
  }

  lemma {:induction false} RunsDates(dates: seq<Date>, dishes: seq<Dish>)
    requires |dates| == |dishes|
    ensures DishDates(Runs(dates, dishes)) == dates
  {
    if dates != [] {
      var n := |dates| - 1;
      var ds, xs := dates[..n], dishes[..n];
      RunsDates(ds, xs);
      ExtendDates(Runs(ds, xs), dates[n], dishes[n]);
      FrontLast(dates);
    }
  }

  /** `parse_menu(rows)`: the first row's date opens the first menu; every row becomes a dish
      of the current menu, and a row with another date first closes it. Menus are stored by
      date, a later menu of a date replacing an earlier one. No rows, or an empty first row,
      is an IndexError; a date cell that does not read fails with its error. */
  function StraubingMenu(rows: seq<seq<string>>, parseDate: string -> Result<Date>, dishOf: seq<string> -> Result<Dish>)
    : Result<map<Date, Menu>>
  {
    if rows == [] || rows[0] == [] then Err(IndexError)
    else
      match RowDishes(rows, parseDate, dishOf)
      case Err(e) => Err(e)
      case Ok((dates, dishes)) => Ok(ByDate(Runs(dates, dishes)))
  }

  /** Stored by date, the runs have exactly the row dates as keys, each holding a menu of
      that date with at least one dish. */
  lemma RunsByDate(dates: seq<Date>, dishes: seq<Dish>)
    requires |dates| == |dishes|
    ensures var m := ByDate(Runs(dates, dishes));
      (forall d :: d in m <==> d in dates) && forall d :: d in m ==> m[d].date == d && m[d].dishes != []
  {
    RunsSeparate(dates, dishes);
    RunsCover(dates, dishes);
    var r := Runs(dates, dishes);
    ByDateContents(r);
    forall d ensures (exists k :: 0 <= k < |r| && r[k].date == d) <==> d in dates {
      RunDatesMembers(r, d);
    }
    forall d | d in ByDate(r) ensures ByDate(r)[d].date == d && ByDate(r)[d].dishes != [] {
      var k :| 0 <= k < |r| && r[k].date == d;
      var j := LastWithDate(r, d, k);
      assert ByDate(r)[d] == r[j];
    }
  }

  /** The keys of a parsed week are exactly the dates of its rows, each holding a menu of
      that date with at least one dish. */
  lemma StraubingMenuKeys(rows: seq<seq<string>>, parseDate: string -> Result<Date>, dishOf: seq<string> -> Result<Dish>)
    requires StraubingMenu(rows, parseDate, dishOf).Ok?
    ensures var m := StraubingMenu(rows, parseDate, dishOf).value;
      (forall d :: d in m <==> exists k :: 0 <= k < |rows| && rows[k] != [] && parseDate(rows[k][0]) == Ok(d))
      && forall d :: d in m ==> m[d].date == d && m[d].dishes != []
  {
    var (dates, dishes) := RowDishes(rows, parseDate, dishOf).value;
    RowDishesAt(rows, parseDate, dishOf);
    RunsByDate(dates, dishes);
    assert StraubingMenu(rows, parseDate, dishOf).value == ByDate(Runs(dates, dishes));
    forall d ensures d in dates <==> exists k :: 0 <= k < |rows| && rows[k] != [] && parseDate(rows[k][0]) == Ok(d) {
      if d in dates {
        var k :| 0 <= k < |dates| && dates[k] == d;
      }
    }
  }

  /** A date is a dish date exactly when some non-empty menu has it. */
  lemma {:induction false} RunDatesMembers(ms: seq<Menu>, d: Date)
    requires forall k :: 0 <= k < |ms| ==> ms[k].dishes != []
    ensures d in DishDates(ms) <==> exists k :: 0 <= k < |ms| && ms[k].date == d
  {
    if ms != [] {
      var init := ms[..|ms| - 1];
      RunDatesMembers(init, d);
      var tail := Repeat(ms[|ms| - 1].date, |ms[|ms| - 1].dishes|);
      assert tail[0] == ms[|ms| - 1].date;
      assert d in tail <==> d == ms[|ms| - 1].date;
      if exists k :: 0 <= k < |init| && init[k].date == d {
        var k :| 0 <= k < |init| && init[k].date == d;
        assert ms[k] == init[k];
      }
      if exists k :: 0 <= k < |ms| - 1 && ms[k].date == d {
        var k :| 0 <= k < |ms| - 1 && ms[k].date == d;
        assert init[k] == ms[k];
      }
    }
  }

  /** The last menu of a date at or after `k`. */
  lemma LastWithDate(ms: seq<Menu>, d: Date, k: nat) returns (j: nat)
    requires k < |ms| && ms[k].date == d
    ensures k <= j < |ms| && ms[j].date == d && forall i :: j < i < |ms| ==> ms[i].date != d
    decreases |ms| - k
  {
    if exists i :: k < i < |ms| && ms[i].date == d {
      var i :| k < i < |ms| && ms[i].date == d;
      j := LastWithDate(ms, d, i);
    } else {
      j := k;
    }
  }

  /** `parse_menu`, with the source's `date` and `dishes` accumulators. */
  method ParseMenu(rows: seq<seq<string>>, parseDate: string -> Result<Date>, labelsOf: string -> set<Label>)
    returns (r: Result<map<Date, Menu>>)
    ensures r == StraubingMenu(rows, parseDate, DishReader(labelsOf))
  {
    if rows == [] || rows[0] == [] {
      return Err(IndexError);
    }
    var menus: map<Date, Menu> := map[];
    ghost var seenDates: seq<Date> := [];
    ghost var seenDishes: seq<Dish> := [];
    ghost var dishOf := DishReader(labelsOf);
    var firstDate := parseDate(rows[0][0]);
    if firstDate.Err? {
      RowDishesStep(rows, 0, parseDate, dishOf, seenDates, seenDishes);
      RowFailureSticks(rows, 1, parseDate, dishOf);
      return Err(firstDate.error);
    }
    var date := firstDate.value;
    var dishes: seq<Dish> := [];
    for i := 0 to |rows|
      invariant RowDishes(rows[..i], parseDate, dishOf) == Ok((seenDates, seenDishes))
      invariant |seenDates| == |seenDishes| == i
      invariant Accumulated(seenDates, seenDishes, menus, date, dishes)
      invariant i == 0 ==> parseDate(rows[0][0]) == Ok(date)
    {
      if rows[i] == [] {
        RowDishesStep(rows, i, parseDate, dishOf, seenDates, seenDishes);
        RowFailureSticks(rows, i + 1, parseDate, dishOf);
        return Err(IndexError);
      }
      var cell := parseDate(rows[i][0]);
      if cell.Err? {
        RowDishesStep(rows, i, parseDate, dishOf, seenDates, seenDishes);
        RowFailureSticks(rows, i + 1, parseDate, dishOf);
        return Err(cell.error);
      }
      var dishDate := cell.value;
      ghost var before := (menus, date, dishes);
      if date != dishDate {
        menus := menus[date := Menu(date, dishes)];
        date := dishDate;
        dishes := [];
      }
      var dish := ParseDish(rows[i], labelsOf);
      RowDishesStep(rows, i, parseDate, dishOf, seenDates, seenDishes);
      if dish.Err? {
        RowFailureSticks(rows, i + 1, parseDate, dishOf);
        return Err(dish.error);
      }
      AccumulateStep(seenDates, seenDishes, before.0, before.1, before.2, dishDate, dish.value);
      dishes := dishes + [dish.value];
      seenDates := seenDates + [dishDate];
      seenDishes := seenDishes + [dish.value];
    }
    assert rows[..|rows|] == rows;
    RunsLast(seenDates, seenDishes);
    r := Ok(menus[date := Menu(date, dishes)]);
  }

  /** The accumulators of `parse_menu` after the rows of `dates` and `dishes`: `menus` holds
      every finished run and `date` and `dishes` the open one. */
  ghost predicate Accumulated(dates: seq<Date>, dishes: seq<Dish>, menus: map<Date, Menu>, date: Date, open: seq<Dish>)
    requires |dates| == |dishes|
  {
    if dates == [] then menus == map[] && open == []
    else
      var runs := Runs(dates, dishes);
      runs != [] && menus == ByDate(runs[..|runs| - 1]) && runs[|runs| - 1] == Menu(date, open)
  }

  /** One more row: a new date closes the open run into `menus` and opens a new one, and the
      row's dish joins the open run. */
  lemma AccumulateStep(dates: seq<Date>, dishes: seq<Dish>, menus: map<Date, Menu>, date: Date, open: seq<Dish>,
                       d: Date, x: Dish)
    requires |dates| == |dishes| && Accumulated(dates, dishes, menus, date, open)
    requires dates == [] ==> date == d
    ensures var menus' := if date != d then menus[date := Menu(date, open)] else menus;
      var open' := (if date != d then [] else open) + [x];
      Accumulated(dates + [d], dishes + [x], menus', d, open')
  {
    RunsStep(dates, dishes, d, x);
    var init := Runs(dates, dishes);
    var runs := Runs(dates + [d], dishes + [x]);
    if init != [] && init[|init| - 1].date == d {
      assert runs[..|runs| - 1] == init[..|init| - 1];
    } else if dates != [] {
      assert runs[..|runs| - 1] == init;
      assert ByDate(init) == ByDate(init[..|init| - 1])[init[|init| - 1].date := init[|init| - 1]];
    }
  }

  /** A date cell that does not read, in a row the rows before it let through, fails the
      whole page with that cell's error (`util.parse_date` raising in `parse_menu`). */
  lemma BadDateCellFails(rows: seq<seq<string>>, i: nat, parseDate: string -> Result<Date>,
                         dishOf: seq<string> -> Result<Dish>)
    requires i < |rows| && RowDishes(rows[..i], parseDate, dishOf).Ok?
    requires rows[i] != [] && parseDate(rows[i][0]).Err?
    ensures RowDishes(rows, parseDate, dishOf) == Err(parseDate(rows[i][0]).error)
    ensures StraubingMenu(rows, parseDate, dishOf) == Err(parseDate(rows[i][0]).error)
  {
    var (dates, dishes) := RowDishes(rows[..i], parseDate, dishOf).value;
    RowDishesStep(rows, i, parseDate, dishOf, dates, dishes);
    RowFailureSticks(rows, i + 1, parseDate, dishOf);
    if i > 0 {
      RowDishesAt(rows[..i], parseDate, dishOf);
      assert rows[..i][0] == rows[0];
    }
  }

  /** On the first page the loop reads, a malformed date cell ends `parse` with its error,
      whether it is the first cell, which decides staleness, or a later row's. */
  lemma MalformedDateFailsParse(pages: seq<Option<seq<seq<string>>>>, cutoff: Date, parseDate: string -> Result<Date>,
                                labelsOf: string -> set<Label>, menus: map<Date, Menu>, i: nat)
    requires pages != [] && pages[0].Some?
    requires var rows := ParseCsv(pages[0].value);
      i < |rows| && rows[0] != [] && rows[i] != [] && parseDate(rows[i][0]).Err?
      && (i > 0 ==> parseDate(rows[0][0]).Ok? && parseDate(rows[0][0]).value >= cutoff
                    && RowDishes(rows[..i], parseDate, DishReader(labelsOf)).Ok?)
    ensures StraubingWeeks(pages, cutoff, parseDate, labelsOf, menus)
      == Err(parseDate(ParseCsv(pages[0].value)[i][0]).error)
  {
    var rows := ParseCsv(pages[0].value);
    if i > 0 {
      BadDateCellFails(rows, i, parseDate, DishReader(labelsOf));
    }
  }

  /** One more row of the CSV: an empty row fails, then a date cell that does not read, then
      the dish; otherwise the row adds its date and dish. */
  lemma RowDishesStep(rows: seq<seq<string>>, i: nat, parseDate: string -> Result<Date>, dishOf: seq<string> -> Result<Dish>,
                      dates: seq<Date>, dishes: seq<Dish>)
    requires i < |rows| && RowDishes(rows[..i], parseDate, dishOf) == Ok((dates, dishes))
    ensures RowDishes(rows[..i + 1], parseDate, dishOf)
      == if rows[i] == [] then Err(IndexError)
         else match parseDate(rows[i][0])
           case Err(e) => Err(e)
           case Ok(date) =>
             match dishOf(rows[i])
             case Err(e) => Err(e)
             case Ok(dish) => Ok((dates + [date], dishes + [dish]))
  {
    assert rows[..i + 1][..i] == rows[..i];
  }

  /** How one more row extends the runs. */
  lemma RunsStep(dates: seq<Date>, dishes: seq<Dish>, d: Date, x: Dish)
    requires |dates| == |dishes|
    ensures Runs(dates + [d], dishes + [x]) == Extend(Runs(dates, dishes), d, x)
  {
    assert (dates + [d])[..|dates|] == dates && (dishes + [x])[..|dishes|] == dishes;
  }

  /** The map of all runs is the map of all but the last, updated with the last. */
  lemma RunsLast(dates: seq<Date>, dishes: seq<Dish>)
    requires |dates| == |dishes|
    ensures var runs := Runs(dates, dishes);
      runs != [] ==> ByDate(runs) == ByDate(runs[..|runs| - 1])[runs[|runs| - 1].date := runs[|runs| - 1]]
  {
  }

  /** What `parse_csv` keeps of the CSV rows: all but the header row. */
  function ParseCsv(content: seq<seq<string>>): seq<seq<string>> {
    if content == [] then [] else content[1..]
  }

  /** The week loop of `parse`: the pages of consecutive calendar weeks from the current
      one, as CSV rows, or None for a failed download. The loop stops at the first failed
      download, or at the first page whose first date lies before `cutoff` (a week before
      today); each other page's menus update the result, later weeks replacing earlier
      dates. A page without rows or with an empty first row is an IndexError, and a first
      date cell that does not read fails with its error. The source
      loops until the server stops answering; the model stops at the end of `pages`. */
  function StraubingWeeks(pages: seq<Option<seq<seq<string>>>>, cutoff: Date, parseDate: string -> Result<Date>,
                          labelsOf: string -> set<Label>, menus: map<Date, Menu>): Result<map<Date, Menu>>
    decreases |pages|
  {
    if pages == [] || pages[0].None? then Ok(menus)
    else
      var rows := ParseCsv(pages[0].value);
      if rows == [] || rows[0] == [] then Err(IndexError)
      else
        match parseDate(rows[0][0])
        case Err(e) => Err(e)
        case Ok(first) =>
          if first < cutoff then Ok(menus)
          else
            match StraubingMenu(rows, parseDate, DishReader(labelsOf))
            case Err(e) => Err(e)
            case Ok(m) => StraubingWeeks(pages[1..], cutoff, parseDate, labelsOf, menus + m)
  }

  /** A current page whose menus parse passes them on to the rest of the loop. */
  lemma WeeksUnfold(pages: seq<Option<seq<seq<string>>>>, cutoff: Date, parseDate: string -> Result<Date>,
                    labelsOf: string -> set<Label>, menus: map<Date, Menu>)
    requires pages != [] && pages[0].Some?
    requires var rows := ParseCsv(pages[0].value);
      rows != [] && rows[0] != [] && parseDate(rows[0][0]).Ok? && parseDate(rows[0][0]).value >= cutoff
      && StraubingMenu(rows, parseDate, DishReader(labelsOf)).Ok?
    ensures StraubingWeeks(pages, cutoff, parseDate, labelsOf, menus)
      == StraubingWeeks(pages[1..], cutoff, parseDate, labelsOf,
                        menus + StraubingMenu(ParseCsv(pages[0].value), parseDate, DishReader(labelsOf)).value)
  {
  }

  /** The rows of a downloaded page carry the date `d`. */
  predicate PageHasDate(page: Option<seq<seq<string>>>, parseDate: string -> Result<Date>, d: Date) {
    page.Some?
    && exists k :: 0 <= k < |ParseCsv(page.value)| && ParseCsv(page.value)[k] != []
                   && parseDate(ParseCsv(page.value)[k][0]) == Ok(d)
  }

  /** `menus.update` replaces only the dates the new page has: a menu collected before the
      loop reached a page is kept as it was unless a later page's rows carry its date. */
  lemma {:induction false} StraubingWeeksKeep(pages: seq<Option<seq<seq<string>>>>, cutoff: Date, parseDate: string -> Result<Date>,
                                              labelsOf: string -> set<Label>, menus: map<Date, Menu>, d: Date)
    requires d in menus
    requires forall p :: 0 <= p < |pages| ==> !PageHasDate(pages[p], parseDate, d)
    ensures var r := StraubingWeeks(pages, cutoff, parseDate, labelsOf, menus);
      r.Ok? ==> d in r.value && r.value[d] == menus[d]
    decreases |pages|
  {
    if pages != [] && pages[0].Some? {
      var rows := ParseCsv(pages[0].value);
      if rows != [] && rows[0] != [] && parseDate(rows[0][0]).Ok? && parseDate(rows[0][0]).value >= cutoff {
        var m := StraubingMenu(rows, parseDate, DishReader(labelsOf));
        if m.Ok? {
          assert d !in m.value by {
            StraubingMenuKeys(rows, parseDate, DishReader(labelsOf));
            assert !PageHasDate(pages[0], parseDate, d);
          }
          var next := menus + m.value;
          WeeksUnfold(pages, cutoff, parseDate, labelsOf, menus);
          forall p | 0 <= p < |pages[1..]| ensures !PageHasDate(pages[1..][p], parseDate, d) {
            assert pages[1..][p] == pages[p + 1];
          }
          StraubingWeeksKeep(pages[1..], cutoff, parseDate, labelsOf, next, d);
        }
      }
    }
  }

  /** Every menu the loop collects is stored under its own date and has a dish, and every
      date collected before the loop reached a page stays a key. */
  lemma {:induction false} StraubingWeeksDates(pages: seq<Option<seq<seq<string>>>>, cutoff: Date, parseDate: string -> Result<Date>,
                                               labelsOf: string -> set<Label>, menus: map<Date, Menu>)
    requires forall d :: d in menus ==> menus[d].date == d && menus[d].dishes != []
    ensures var r := StraubingWeeks(pages, cutoff, parseDate, labelsOf, menus);
      r.Ok? ==> menus.Keys <= r.value.Keys && forall d :: d in r.value ==> r.value[d].date == d && r.value[d].dishes != []
    decreases |pages|
  {
    if pages != [] && pages[0].Some? {
      var rows := ParseCsv(pages[0].value);
      if rows != [] && rows[0] != [] && parseDate(rows[0][0]).Ok? && parseDate(rows[0][0]).value >= cutoff {
        var m := StraubingMenu(rows, parseDate, DishReader(labelsOf));
        if m.Ok? {
          assert forall d :: d in m.value ==> m.value[d].date == d && m.value[d].dishes != [] by {
            StraubingMenuKeys(rows, parseDate, DishReader(labelsOf));
          }
          var next := menus + m.value;
          assert forall d :: d in next ==> next[d].date == d && next[d].dishes != [];
          WeeksUnfold(pages, cutoff, parseDate, labelsOf, menus);
          StraubingWeeksDates(pages[1..], cutoff, parseDate, labelsOf, next);
        }
      }
    }
  }

  /** `StraubingMensaMenuParser.parse`, with the source's loop over calendar weeks. */
  method ParseWeeks(pages: seq<Option<seq<seq<string>>>>, cutoff: Date, parseDate: string -> Result<Date>,
                    labelsOf: string -> set<Label>) returns (r: Result<map<Date, Menu>>)
    ensures r == StraubingWeeks(pages, cutoff, parseDate, labelsOf, map[])
  {
    var menus: map<Date, Menu> := map[];
    var week := 0;
    while week < |pages|
      invariant 0 <= week <= |pages|
      invariant StraubingWeeks(pages[week..], cutoff, parseDate, labelsOf, menus) == StraubingWeeks(pages, cutoff, parseDate, labelsOf, map[])
    {
      var page := pages[week];
      if page.None? {
        break;
      }
      var rows := ParseCsv(page.value);
      if rows == [] || rows[0] == [] {
        return Err(IndexError);
      }
      var first := parseDate(rows[0][0]);
      if first.Err? {
        return Err(first.error);
      }
      if first.value < cutoff {
        break;
      }
      var m := ParseMenu(rows, parseDate, labelsOf);
      if m.Err? {
        return Err(m.error);
      }
      assert pages[week..][1..] == pages[week + 1..];
      menus := menus + m.value;
      week := week + 1;
    }
    r := Ok(menus);
  }

  /** `_parse_label` with the Straubing table. */
  function StraubingLabels(close: set<Label> -> set<Label>): string -> set<Label> {
    s => LabelSet(StraubingTable, s, close)
  }
}
