/** `FMIBistroMenuParser`: reading the week's dishes off the text layout of the bistro's PDF
    menu. The five weekday columns of the layout are located by estimated widths; a line
    with a euro sign closes the dish whose title lines came before it. */
module FmiBistro {
  import opened Common
  import opened IsoDates
  import opened Entities
  import opened Labels

  // ---------------------------------------------------------------------------------------
  // The relevant lines

  /** The lines kept from a window of the text: every line not matched by the ignore pattern,
      without its first 13 characters (a line shorter than that becomes ""). */
  function KeptLines(window: seq<string>, ignored: string -> bool): seq<string> {
    if window == [] then []
    else
      var rest := KeptLines(window[1..], ignored);
      if ignored(window[0]) then rest else [PySlice(window[0], 13, |window[0]|)] + rest
  }

  /** `line` is a line of the window that the pattern does not ignore, without its first 13
      characters. */
  predicate KeptFrom(line: string, window: seq<string>, ignored: string -> bool) {
    exists j :: 0 <= j < |window| && !ignored(window[j]) && line == PySlice(window[j], 13, |window[j]|)
  }

  /** There are no more kept lines than lines in the window, and each kept line is some
      line of the window that the pattern does not ignore, without its first 13 characters. */
  lemma {:induction false} KeptLinesBound(window: seq<string>, ignored: string -> bool)
    ensures |KeptLines(window, ignored)| <= |window|
    ensures forall k :: 0 <= k < |KeptLines(window, ignored)| ==> KeptFrom(KeptLines(window, ignored)[k], window, ignored)
  {
    if window != [] {
      var tail := window[1..];
      KeptLinesBound(tail, ignored);
      var rest := KeptLines(tail, ignored);
      var kept := KeptLines(window, ignored);
      forall k | 0 <= k < |kept|
        ensures KeptFrom(kept[k], window, ignored)
      {
        if ignored(window[0]) || k > 0 {
          var i := if ignored(window[0]) then k else k - 1;
          assert kept[k] == rest[i];
          assert KeptFrom(rest[i], tail, ignored);
          var j :| 0 <= j < |tail| && !ignored(tail[j]) && rest[i] == PySlice(tail[j], 13, |tail[j]|);
          assert window[j + 1] == tail[j];
        } else {
          assert kept[0] == PySlice(window[0], 13, |window[0]|);
        }
      }
    }
  }

  /** `__get_relevant_text`: the text's lines without the first 4 and the last 18, and
      without the lines the ignore pattern fully matches. The ignore pattern is built from a
      set of words whose iteration order Python does not fix, so it is a parameter. */
  method RelevantText(text: string, ignored: string -> bool) returns (lines: seq<string>)
    ensures lines == KeptLines(PySlice(SplitLines(text), 4, -18), ignored)
  {
    var window := PySlice(SplitLines(text), 4, -18);
    lines := [];
    var i := 0;
    while i < |window|
      invariant 0 <= i <= |window|
      invariant lines + KeptLines(window[i..], ignored) == KeptLines(window, ignored)
    {
      assert window[i..][1..] == window[i + 1..];
      if !ignored(window[i]) {
        lines := lines + [PySlice(window[i], 13, |window[i]|)];
      }
      i := i + 1;
    }
    assert window[|window|..] == [];
  }

  /** Only texts of more than 22 lines have relevant lines at all. */
  lemma ShortTextHasNoLines(text: string, ignored: string -> bool)
    requires |SplitLines(text)| <= 22
    ensures KeptLines(PySlice(SplitLines(text), 4, -18), ignored) == []
  {
  }

  // ---------------------------------------------------------------------------------------
  // Columns

  /** `__extract_dish_title_part`: the trimmed text of the weekday's 49-character column,
      the column running to the end of the line when it would stop less than 5 characters
      short of it; None when the column is blank. */
  function TitlePart(line: string, weekday: nat): Option<string> {
    var begin := weekday * 49;
    var end0 := if begin + 49 <= |line| then begin + 49 else |line|;
    var end := if |line| - end0 < 5 then |line| else end0;
    var part := Strip(PySlice(line, begin, end));
    if part == [] then None else Some(part)
  }

  /** A title part is never empty and never starts or ends with white space. */
  lemma TitlePartTrimmed(line: string, weekday: nat)
    ensures var p := TitlePart(line, weekday);
      p.Some? ==> p.value != [] && !IsSpace(p.value[0]) && !IsSpace(p.value[|p.value| - 1])
  {
    var begin := weekday * 49;
    var end0 := if begin + 49 <= |line| then begin + 49 else |line|;
    var end := if |line| - end0 < 5 then |line| else end0;
    StripSpec(PySlice(line, begin, end));
  }

  /** The first match of `\d+(?:,\d+)?`: a maximal run of digits, with a comma and the
      following maximal run of digits when a digit follows the comma. */
  function PriceText(w: string): Option<string> {
    var i := FirstIn(w, 0, Digit);
    if i == |w| then None
    else
      var j := RunEnd(w, i, Digit);
      if j + 1 < |w| && w[j] == ',' && IsDigit(w[j + 1]) then Some(w[i..RunEnd(w, j + 1, Digit)])
      else Some(w[i..j])
  }

  /** A price is found exactly when the window holds a digit; the price is a non-empty run
      of digits, possibly followed by a comma and a second non-empty run of digits. */
  lemma PriceTextShape(w: string)
    ensures PriceText(w).None? <==> forall k :: 0 <= k < |w| ==> !IsDigit(w[k])
    ensures var r := PriceText(w);
      r.Some? ==>
        (exists c :: 0 < c <= |r.value| && AllDigits(r.value[..c])
           && (c == |r.value| || (r.value[c] == ',' && c + 1 < |r.value| && AllDigits(r.value[c + 1..]))))
  {
    var i := FirstIn(w, 0, Digit);
    if i < |w| {
      var j := RunEnd(w, i, Digit);
      var r := PriceText(w).value;
      SliceDigits(w, i, j);
      if j + 1 < |w| && w[j] == ',' && IsDigit(w[j + 1]) {
        var e := RunEnd(w, j + 1, Digit);
        SliceDigits(w, j + 1, e);
        assert r == w[i..e];
        SliceAround(w, i, j, e);
      } else {
        assert r == w[i..j];
        assert r[..j - i] == w[i..j];
      }
      assert AllDigits(r[..j - i]);
    } else {
      assert forall k :: 0 <= k < |w| ==> !InClass(w[k], Digit);
    }
  }

  /** The pieces of `w[i..e]` before and after position `j`. */
  lemma SliceAround(w: string, i: nat, j: nat, e: nat)
    requires i <= j < e <= |w|
    ensures w[i..e][..j - i] == w[i..j] && w[i..e][j - i] == w[j] && w[i..e][j - i + 1..] == w[j + 1..e]
  {
    assert forall k :: j - i + 1 <= k < e - i ==> w[i..e][k] == w[i + k];
  }

  /** The amount in cents of a price text: `float(text.replace(",", "."))` for texts with at
      most two decimals. A third and later decimal is dropped. */
  function PriceCents(t: string): int {
    var c := FirstIn(t, 0, Comma);
    var whole := t[..c];
    var frac := if c < |t| then t[c + 1..] else [];
    var euros := if AllDigits(whole) then DigitsValue(whole) else 0;
    euros * 100 + DigitAt(frac, 0) * 10 + DigitAt(frac, 1)
  }

  /** The price pattern matches a formatted price whole. */
  lemma PriceTextOfFormat(cents: nat)
    ensures PriceText(FormatPrice(cents)) == Some(FormatPrice(cents))
  {
    var e := NatToString(cents / 100);
    var t := FormatPrice(cents);
    FormatPriceParts(cents);
    assert t[0] == e[0];
    assert FirstIn(t, 0, Digit) == 0;
    assert 0 <= cents % 100 / 10 <= 9 && 0 <= cents % 10 <= 9;
    assert IsDigit(t[|e| + 1]) && IsDigit(t[|e| + 2]);
    assert RunEnd(t, |e| + 1, Digit) == |t|;
    assert t[0..|t|] == t;
  }

  /** Reading a formatted price gives the amount it was written from. */
  lemma PriceCentsOfFormat(cents: nat)
    ensures PriceCents(FormatPrice(cents)) == cents
  {
    var e := NatToString(cents / 100);
    var t := FormatPrice(cents);
    FormatPriceParts(cents);
    NatToStringRoundTrip(cents / 100);
    var frac := t[|e| + 1..];
    assert DigitAt(frac, 0) == cents % 100 / 10;
    assert DigitAt(frac, 1) == cents % 10;
    CentsDigits(cents);
  }

  /** Reading a price back gives the amount it was written from. */
  lemma PriceRoundTrip(cents: nat)
    ensures PriceText(FormatPrice(cents)) == Some(FormatPrice(cents))
    ensures PriceCents(PriceText(FormatPrice(cents)).value) == cents
  {
    PriceTextOfFormat(cents);
    PriceCentsOfFormat(cents);
  }

  /** The first match of `[A-Za-z](?:,[A-Za-z]+)*`, or "" when the window holds no ASCII
      letter. The first group is a single letter: in "aW,g" the match is "a". */
  function LabelText(w: string): string {
    var i := FirstIn(w, 0, Letter);
    if i == |w| then "" else w[i..LabelListEnd(w, i + 1)]
  }

  /** End of the repeated `,[A-Za-z]+` groups starting at `m`. */
  function LabelListEnd(w: string, m: nat): (e: nat)
    requires m <= |w|
    ensures m <= e <= |w|
    decreases |w| - m
  {
    if m + 1 < |w| && w[m] == ',' && IsAsciiLetter(w[m + 1]) then LabelListEnd(w, RunEnd(w, m + 1, Letter))
    else m
  }

  /** The characters of `w[i..e]` are letters and commas, a comma always followed by a letter
      and never first, and the last is a letter. */
  predicate LabelListShaped(w: string, i: nat, e: nat)
    requires i < e <= |w|
  {
    IsAsciiLetter(w[e - 1])
    && forall k :: i <= k < e ==> IsAsciiLetter(w[k]) || (w[k] == ',' && i < k < e - 1 && IsAsciiLetter(w[k + 1]))
  }

  /** A label text is empty exactly when there is no letter; otherwise it starts and ends
      with a letter and is made of letters and commas, each comma followed by a letter. */
  lemma LabelTextShape(w: string)
    ensures LabelText(w) == "" <==> forall k :: 0 <= k < |w| ==> !IsAsciiLetter(w[k])
    ensures var t := LabelText(w);
      t != "" ==>
        (IsAsciiLetter(t[0]) && IsAsciiLetter(t[|t| - 1])
         && forall k :: 0 <= k < |t| ==> IsAsciiLetter(t[k]) || (t[k] == ',' && 0 < k < |t| - 1 && IsAsciiLetter(t[k + 1])))
  {
    var i := FirstIn(w, 0, Letter);
    if i < |w| {
      assert InClass(w[i], Letter);
      LabelListShape(w, i + 1, i);
      var e := LabelListEnd(w, i + 1);
      var t := w[i..e];
      assert LabelListShaped(w, i, e);
      forall k | 0 <= k < |t|
        ensures IsAsciiLetter(t[k]) || (t[k] == ',' && 0 < k < |t| - 1 && IsAsciiLetter(t[k + 1]))
      {
        assert t[k] == w[i + k];
        if k + 1 < |t| {
          assert t[k + 1] == w[i + k + 1];
        }
      }
    } else {
      assert forall k :: 0 <= k < |w| ==> !InClass(w[k], Letter);
    }
  }

  lemma {:induction false} LabelListShape(w: string, m: nat, i: nat)
    requires i < m <= |w| && LabelListShaped(w, i, m)
    ensures LabelListShaped(w, i, LabelListEnd(w, m))
    decreases |w| - m
  {
    if m + 1 < |w| && w[m] == ',' && IsAsciiLetter(w[m + 1]) {
      var r := RunEnd(w, m + 1, Letter);
      assert InClass(w[m + 1], Letter);
      assert forall k :: m + 1 <= k < r ==> IsAsciiLetter(w[k]) by {
        forall k | m + 1 <= k < r ensures IsAsciiLetter(w[k]) {
          assert InClass(w[k], Letter);
        }
      }
      assert m + 1 < r;
      forall k | i <= k < r
        ensures IsAsciiLetter(w[k]) || (w[k] == ',' && i < k < r - 1 && IsAsciiLetter(w[k + 1]))
      {
        if k < m - 1 {
          var here, next := w[k], w[k + 1];  // the two characters the shape relates
          assert IsAsciiLetter(here) || (here == ',' && i < k < m - 1 && IsAsciiLetter(next));
        } else if k == m - 1 {
          assert IsAsciiLetter(w[k]);
        } else if k == m {
          assert w[k] == ',' && i < k < r - 1 && IsAsciiLetter(w[k + 1]);
        } else {
          assert IsAsciiLetter(w[k]);
        }
      }
      assert LabelListShaped(w, i, r);
      LabelListShape(w, r, i);
    }
  }

  /** `estimated_column_begin` and `estimated_column_end` of a weekday's column: the line
      is cut into fifths (rounded down), the end clamped to the line. */
  function ColumnBegin(column: nat, line: string): nat {
    column * (|line| / 5)
  }

  function ColumnEnd(column: nat, line: string): (end: nat)
    ensures end <= |line|
  {
    var begin := ColumnBegin(column, line);
    if begin + |line| / 5 <= |line| then begin + |line| / 5 else |line|
  }

  /** The text the price is searched in: `line[end - 15 : min(end + 15, len(line))]`. */
  function PriceWindow(column: nat, line: string): string {
    var end := ColumnEnd(column, line);
    PySlice(line, end - 15, if end + 15 <= |line| then end + 15 else |line|)
  }

  /** The text the labels are searched in: `line[max(begin - 15, 0) : begin + 15]`. */
  function LabelWindow(column: nat, line: string): string {
    var begin := ColumnBegin(column, line);
    PySlice(line, if begin >= 15 then begin - 15 else 0, begin + 15)
  }

  /** `__get_label_str_and_price(column_index, line)`: the price is searched within 15
      characters around the estimated end of the weekday's fifth of the line, the labels
      within 15 characters around its beginning. None when no price is found. */
  function LabelAndPrice(column: nat, line: string): Option<(string, int)> {
    match PriceText(PriceWindow(column, line))
    case None => None
    case Some(p) => Some((LabelText(LabelWindow(column, line)), PriceCents(p)))
  }

  /** No price is found exactly when the price window holds no digit; otherwise the
      result holds the first label list of the label window, "" when it has none, and the
      value of the window's first price. */
  lemma LabelAndPriceFound(column: nat, line: string)
    ensures var r := LabelAndPrice(column, line);
      var w := PriceWindow(column, line);
      (r.None? <==> forall k :: 0 <= k < |w| ==> !IsDigit(w[k]))
      && (r.Some? ==>
            r.value.0 == LabelText(LabelWindow(column, line))
            && exists p :: PriceText(w) == Some(p) && r.value.1 == PriceCents(p))
  {
    PriceTextShape(PriceWindow(column, line));
  }

  /** The windows with Python's slicing written out: the price window starts 15 characters
      before the column's end, and when that start is negative it counts from the end of
      the line instead; the label window is clamped at the start of the line. */
  lemma WindowSlices(column: nat, line: string)
    ensures var end := ColumnEnd(column, line);
      var stop := if end + 15 <= |line| then end + 15 else |line|;
      var start := if end >= 15 then end - 15 else if |line| + end - 15 >= 0 then |line| + end - 15 else 0;
      PriceWindow(column, line) == if start < stop then line[start..stop] else []
    ensures var begin := ColumnBegin(column, line);
      var labelStart := if begin >= 15 then begin - 15 else 0;
      var labelStop := if begin + 15 <= |line| then begin + 15 else |line|;
      LabelWindow(column, line) == if labelStart < labelStop then line[labelStart..labelStop] else []
  {
  }

  /** The wrap-around of the price window: on a line of 20 characters the first column
      ends at 4, so its price window is `line[-11:19]`, the characters 9 to 18, far from
      the column. */
  lemma FirstColumnWindowWraps(line: string)
    requires |line| == 20
    ensures var r := LabelAndPrice(0, line);
      r.None? <==> forall k :: 9 <= k < 19 ==> !IsDigit(line[k])
  {
    LabelAndPriceFound(0, line);
    WindowSlices(0, line);
    assert ColumnEnd(0, line) == 4;
    assert forall k :: 9 <= k < 19 ==> line[k] == line[9..19][k - 9];
  }

  // ---------------------------------------------------------------------------------------
  // One day

  /** `str(dish_type)` of the `DishType` members, in iteration order. */
  const DishTypeNames: seq<string> := ["DishType.SOUP", "DishType.MEAT", "DishType.VEGETARIAN", "DishType.VEGAN"]

  /** The prices of an FMI dish: students and staff pay the price, guests 80 cents more. */
  function BistroPrices(cents: int): Prices {
    Prices(Some(Flat(cents)), Some(Flat(cents)), Some(Flat(cents + 80)))
  }

  /** The dish a euro line closes: the title lines joined with blanks and white space runs
      collapsed, the prices, the FMI labels, and the next dish type. */
  function BistroDish(parts: seq<string>, labelText: string, cents: int, used: nat, labelsOf: string -> set<Label>): Dish
    requires used < 4
  {
    Dish(CollapseSpaces(Join(parts, " ")), BistroPrices(cents), labelsOf(labelText), DishTypeNames[used])
  }

  /** The labels of a label text, read against the FMI label table. */
  function FmiLabels(close: set<Label> -> set<Label>): string -> set<Label> {
    s => LabelSet(FmiTable, s, close)
  }

  /** What one relevant line means for one weekday: a line without a euro sign may add a
      title part; a line with one closes a dish, when a price is found. */
  datatype Step = TitleLine(part: Option<string>) | PriceLine(found: Option<(string, int)>)

  function Classify(line: string, weekday: nat): Step {
    if Contains(line, "€") then PriceLine(LabelAndPrice(weekday, line)) else TitleLine(TitlePart(line, weekday))
  }

  function Steps(lines: seq<string>, weekday: nat): (steps: seq<Step>)
    ensures |steps| == |lines|
  {
    if lines == [] then [] else [Classify(lines[0], weekday)] + Steps(lines[1..], weekday)
  }

  lemma {:induction false} StepAt(lines: seq<string>, weekday: nat, k: nat)
    requires k < |lines|
    ensures Steps(lines, weekday)[k] == Classify(lines[k], weekday)
  {
    if k > 0 {
      StepAt(lines[1..], weekday, k - 1);
    }
  }

  /** The dishes of one weekday, reading the steps from `i` with the dishes found so far,
      the title parts collected since the last euro line and the number of dish types taken.
      A euro line without a price ends the day; a fifth euro line is a ParsingError. */
  function ScanDay(steps: seq<Step>, i: nat, dishes: seq<Dish>, parts: seq<string>, used: nat,
                   labelsOf: string -> set<Label>): Result<seq<Dish>>
    requires i <= |steps| && used <= 4
    decreases |steps| - i
  {
    if i == |steps| then Ok(dishes)
    else
      match steps[i]
      case TitleLine(p) =>
        ScanDay(steps, i + 1, dishes, if p.Some? then parts + [p.value] else parts, used, labelsOf)
      case PriceLine(found) =>
        if used == 4 then Err(ParsingError)
        else if found.None? then Ok(dishes)
        else ScanDay(steps, i + 1, dishes + [BistroDish(parts, found.value.0, found.value.1, used, labelsOf)], [], used + 1, labelsOf)
  }

  /** The dishes `get_menus` finds for one weekday. */
  function DayResult(lines: seq<string>, weekday: nat, labelsOf: string -> set<Label>): Result<seq<Dish>> {
    ScanDay(Steps(lines, weekday), 0, [], [], 0, labelsOf)
  }

  /** The inner loop of `get_menus` for one date, over the classified relevant lines;
      `labelsOf` reads a label text. */
  method DayDishes(steps: seq<Step>, labelsOf: string -> set<Label>) returns (r: Result<seq<Dish>>)
    ensures r == ScanDay(steps, 0, [], [], 0, labelsOf)
  {
    ghost var goal := ScanDay(steps, 0, [], [], 0, labelsOf);
    var dishes: seq<Dish> := [];
    var parts: seq<string> := [];
    var used := 0;
    var i := 0;
    while i < |steps|
      invariant 0 <= i <= |steps| && used <= 4
      invariant ScanDay(steps, i, dishes, parts, used, labelsOf) == goal
    {
      var step := steps[i];
      match step {
        case TitleLine(p) =>
          assert ScanDay(steps, i, dishes, parts, used, labelsOf)
              == ScanDay(steps, i + 1, dishes, if p.Some? then parts + [p.value] else parts, used, labelsOf);
          if p.Some? {
            parts := parts + [p.value];
          }
        case PriceLine(found) =>
          if used == 4 {
            return Err(ParsingError);
          }
          if found.None? {
            return Ok(dishes);
          }
          var (labelText, cents) := found.value;
          var dish := Dish(CollapseSpaces(Join(parts, " ")), BistroPrices(cents), labelsOf(labelText), DishTypeNames[used]);
          assert ScanDay(steps, i, dishes, parts, used, labelsOf) == ScanDay(steps, i + 1, dishes + [dish], [], used + 1, labelsOf);
          dishes := dishes + [dish];
          parts := [];
          used := used + 1;
      }
      i := i + 1;
    }
    return Ok(dishes);
  }

  /** The `k`-th dish of a day has the `k`-th dish type; staff pay the students' price and
      guests 80 cents more. */
  predicate BistroShaped(d: Dish, k: nat) {
    k < 4 && d.dishType == DishTypeNames[k]
    && d.prices.students.Some? && d.prices.staff == d.prices.students && d.prices.guests.Some?
    && d.prices.guests.value.baseCents == d.prices.students.value.baseCents + 80
  }

  predicate DayShaped(ds: seq<Dish>) {
    |ds| <= 4 && forall k :: 0 <= k < |ds| ==> BistroShaped(ds[k], k)
  }

  /** Every day has at most four dishes, typed soup, meat, vegetarian and vegan in that
      order, with staff paying the students' price and guests 80 cents more; the dishes found
      so far are kept. */
  lemma {:induction false} ScanDayShape(steps: seq<Step>, i: nat, dishes: seq<Dish>, parts: seq<string>,
                                        used: nat, labelsOf: string -> set<Label>)
    requires i <= |steps| && used <= 4 && |dishes| == used && DayShaped(dishes)
    ensures var r := ScanDay(steps, i, dishes, parts, used, labelsOf);
      r.Ok? ==> DayShaped(r.value) && |dishes| <= |r.value| && r.value[..|dishes|] == dishes
    decreases |steps| - i
  {
    if i < |steps| {
      match steps[i]
      case TitleLine(p) =>
        ScanDayShape(steps, i + 1, dishes, if p.Some? then parts + [p.value] else parts, used, labelsOf);
      case PriceLine(found) =>
        if used < 4 && found.Some? {
          var d := BistroDish(parts, found.value.0, found.value.1, used, labelsOf);
          var more := dishes + [d];
          assert DayShaped(more) by {
            forall k | 0 <= k < |more| ensures BistroShaped(more[k], k) {
              if k < |dishes| {
                assert more[k] == dishes[k];
              }
            }
          }
          ScanDayShape(steps, i + 1, more, [], used + 1, labelsOf);
          var r := ScanDay(steps, i + 1, more, [], used + 1, labelsOf);
          if r.Ok? {
            assert r.value[..|dishes|] == r.value[..|more|][..|dishes|];
          }
        }
    }
  }

  /** Number of euro lines from step `i` on. */
  function PriceLines(steps: seq<Step>, i: nat): nat
    requires i <= |steps|
    decreases |steps| - i
  {
    if i == |steps| then 0 else (if steps[i].PriceLine? then 1 else 0) + PriceLines(steps, i + 1)
  }

  /** More euro lines than dish types left, each with a price, fail the day: `get_menus`
      knows only four dish types. */
  lemma {:induction false} FifthPriceLineFails(steps: seq<Step>, i: nat, dishes: seq<Dish>, parts: seq<string>,
                                               used: nat, labelsOf: string -> set<Label>)
    requires i <= |steps| && used <= 4 && PriceLines(steps, i) > 4 - used
    requires forall k :: i <= k < |steps| && steps[k].PriceLine? ==> steps[k].found.Some?
    ensures ScanDay(steps, i, dishes, parts, used, labelsOf) == Err(ParsingError)
    decreases |steps| - i
  {
    match steps[i]
    case TitleLine(p) =>
      FifthPriceLineFails(steps, i + 1, dishes, if p.Some? then parts + [p.value] else parts, used, labelsOf);
    case PriceLine(found) =>
      if used < 4 {
        var d := BistroDish(parts, found.value.0, found.value.1, used, labelsOf);
        FifthPriceLineFails(steps, i + 1, dishes + [d], [], used + 1, labelsOf);
      }
  }

  /** A day whose lines hold no euro sign has no dishes and cannot fail. */
  lemma {:induction false} NoPriceLineNoDishes(steps: seq<Step>, i: nat, parts: seq<string>, used: nat,
                                               labelsOf: string -> set<Label>)
    requires i <= |steps| && used <= 4
    requires forall k :: i <= k < |steps| ==> steps[k].TitleLine?
    ensures ScanDay(steps, i, [], parts, used, labelsOf) == Ok([])
    decreases |steps| - i
  {
    if i < |steps| {
      var p := steps[i].part;
      NoPriceLineNoDishes(steps, i + 1, if p.Some? then parts + [p.value] else parts, used, labelsOf);
    }
  }

  /** A euro line with no price in the day's columns ends the day (`break`): title lines
      followed by such a line give exactly the dishes found before them. */
  lemma {:induction false} UnpricedLineEndsDay(steps: seq<Step>, i: nat, j: nat, dishes: seq<Dish>,
                                               parts: seq<string>, used: nat, labelsOf: string -> set<Label>)
    requires i <= j < |steps| && used < 4
    requires forall k :: i <= k < j ==> steps[k].TitleLine?
    requires steps[j] == PriceLine(None)
    ensures ScanDay(steps, i, dishes, parts, used, labelsOf) == Ok(dishes)
    decreases j - i
  {
    if i < j {
      var p := steps[i].part;
      UnpricedLineEndsDay(steps, i + 1, j, dishes, if p.Some? then parts + [p.value] else parts, used, labelsOf);
    }
  }

  /** The lines after a euro line without a price never change the day's dishes: when the
      scan reaches that line with a dish type left, whatever follows it is ignored and the
      day does not fail. */
  lemma {:induction false} LinesAfterBreakIgnored(steps: seq<Step>, rest: seq<Step>, i: nat, dishes: seq<Dish>,
                                                  parts: seq<string>, used: nat, labelsOf: string -> set<Label>)
    requires i < |steps| && used <= 4
    requires steps[|steps| - 1] == PriceLine(None)
    requires PriceLines(steps, i) <= 4 - used
    ensures ScanDay(steps + rest, i, dishes, parts, used, labelsOf) == ScanDay(steps, i, dishes, parts, used, labelsOf)
    ensures ScanDay(steps, i, dishes, parts, used, labelsOf).Ok?
    decreases |steps| - i
  {
    assert (steps + rest)[i] == steps[i];
    match steps[i]
    case TitleLine(p) =>
      LinesAfterBreakIgnored(steps, rest, i + 1, dishes, if p.Some? then parts + [p.value] else parts, used, labelsOf);
    case PriceLine(found) =>
      if found.Some? {
        var d := BistroDish(parts, found.value.0, found.value.1, used, labelsOf);
        LinesAfterBreakIgnored(steps, rest, i + 1, dishes + [d], [], used + 1, labelsOf);
      }
  }

  // ---------------------------------------------------------------------------------------
  // The week

  /** The menus `get_menus` returns for the given dates (the weekdays of the calendar week):
      each date with at least one dish gets a menu; any failing day fails the whole call. */
  function WeekMenus(lines: seq<string>, dates: seq<Date>, labelsOf: string -> set<Label>): Result<map<Date, Menu>>
    decreases |dates|
  {
    if dates == [] then Ok(map[])
    else
      var d := dates[|dates| - 1];
      match WeekMenus(lines, dates[..|dates| - 1], labelsOf)
      case Err(e) => Err(e)
      case Ok(m) =>
        match DayResult(lines, Weekday(d), labelsOf)
        case Err(e) => Err(e)
        case Ok(ds) => Ok(if ds != [] then m[d := Menu(d, ds)] else m)
  }

  /** `FMIBistroMenuParser.get_menus(text, year, calendar_week)`; `dates` are the weekdays
      of the calendar week and `ignored` the ignore-line pattern. */
  method GetMenus(text: string, dates: seq<Date>, ignored: string -> bool, close: set<Label> -> set<Label>)
    returns (r: Result<map<Date, Menu>>)
    ensures r == WeekMenus(KeptLines(PySlice(SplitLines(text), 4, -18), ignored), dates, FmiLabels(close))
  {
    var lines := RelevantText(text, ignored);
    r := ReadWeek(lines, dates, FmiLabels(close));
  }

  /** The loop of `get_menus` over the dates, on the relevant lines. */
  method ReadWeek(lines: seq<string>, dates: seq<Date>, labelsOf: string -> set<Label>) returns (r: Result<map<Date, Menu>>)
    ensures r == WeekMenus(lines, dates, labelsOf)
  {
    var menus: map<Date, Menu> := map[];
    var i := 0;
    while i < |dates|
      invariant 0 <= i <= |dates|
      invariant WeekMenus(lines, dates[..i], labelsOf) == Ok(menus)
    {
      var day := DayDishes(Steps(lines, Weekday(dates[i])), labelsOf);
      WeekMenusStep(lines, dates, i, labelsOf);
      if day.Err? {
        r := Err(day.error);
        WeekFailureSticks(lines, dates, i + 1, labelsOf);
        assert dates[..|dates|] == dates;
        return;
      }
      if day.value != [] {
        menus := menus[dates[i] := Menu(dates[i], day.value)];
      }
      i := i + 1;
    }
    assert dates[..|dates|] == dates;
    r := Ok(menus);
  }

  /** One more date: its day's dishes are stored under it when there are any, and a failing
      day fails the week. */
  lemma WeekMenusStep(lines: seq<string>, dates: seq<Date>, i: nat, labelsOf: string -> set<Label>)
    requires i < |dates| && WeekMenus(lines, dates[..i], labelsOf).Ok?
    ensures var m := WeekMenus(lines, dates[..i], labelsOf).value;
      WeekMenus(lines, dates[..i + 1], labelsOf)
        == match DayResult(lines, Weekday(dates[i]), labelsOf)
           case Err(e) => Err(e)
           case Ok(ds) => Ok(if ds != [] then m[dates[i] := Menu(dates[i], ds)] else m)
  {
    assert dates[..i + 1][..i] == dates[..i];
  }

  /** Once a day has failed, the week fails with that error. */
  lemma {:induction false} WeekFailureSticks(lines: seq<string>, dates: seq<Date>, n: nat, labelsOf: string -> set<Label>)
    requires n <= |dates| && WeekMenus(lines, dates[..n], labelsOf).Err?
    ensures WeekMenus(lines, dates, labelsOf) == WeekMenus(lines, dates[..n], labelsOf)
    decreases |dates| - n
  {
    if n < |dates| {
      assert dates[..n + 1][..n] == dates[..n];
      WeekFailureSticks(lines, dates, n + 1, labelsOf);
    } else {
      assert dates[..n] == dates;
    }
  }

  /** Every menu of the week is stored under its own date, lies in the given dates and has
      between one and four dishes of the FMI shape. */
  lemma {:induction false} WeekMenusShape(lines: seq<string>, dates: seq<Date>, labelsOf: string -> set<Label>)
    ensures var r := WeekMenus(lines, dates, labelsOf);
      r.Ok? ==> forall d :: d in r.value ==> d in dates && r.value[d].date == d && r.value[d].dishes != [] && DayShaped(r.value[d].dishes)
    decreases |dates|
  {
    if dates != [] {
      var init := dates[..|dates| - 1];
      WeekMenusShape(lines, init, labelsOf);
      var d := dates[|dates| - 1];
      ScanDayShape(Steps(lines, Weekday(d)), 0, [], [], 0, labelsOf);
      var r := WeekMenus(lines, dates, labelsOf);
      if r.Ok? {
        forall x | x in r.value ensures x in dates && r.value[x].date == x && r.value[x].dishes != [] && DayShaped(r.value[x].dishes) {
          if x != d {
            assert x in init;
          }
        }
      }
    }
  }

  /** A date whose day has dishes is in the week's menus, and one whose day has none is not. */
  lemma {:induction false} WeekMenusComplete(lines: seq<string>, dates: seq<Date>, labelsOf: string -> set<Label>, k: nat)
    requires k < |dates| && WeekMenus(lines, dates, labelsOf).Ok?
    requires forall j :: 0 <= j < |dates| && j != k ==> dates[j] != dates[k]
    ensures DayResult(lines, Weekday(dates[k]), labelsOf).Ok?
    ensures var ds := DayResult(lines, Weekday(dates[k]), labelsOf).value;
      (dates[k] in WeekMenus(lines, dates, labelsOf).value <==> ds != [])
      && (ds != [] ==> WeekMenus(lines, dates, labelsOf).value[dates[k]] == Menu(dates[k], ds))
    decreases |dates|
  {
    var init := dates[..|dates| - 1];
    if k < |dates| - 1 {
      WeekMenusExtend(lines, dates, labelsOf, dates[k]);
      assert init[k] == dates[k];
      assert forall j :: 0 <= j < |init| ==> init[j] == dates[j];
      WeekMenusComplete(lines, init, labelsOf, k);
    } else {
      WeekMenusShape(lines, init, labelsOf);
      assert dates[k] !in init;
    }
  }

  /** The last date of the week touches no other date's menu. */
  lemma WeekMenusExtend(lines: seq<string>, dates: seq<Date>, labelsOf: string -> set<Label>, x: Date)
    requires dates != [] && WeekMenus(lines, dates, labelsOf).Ok? && x != dates[|dates| - 1]
    ensures var m, m' := WeekMenus(lines, dates[..|dates| - 1], labelsOf), WeekMenus(lines, dates, labelsOf).value;
      m.Ok? && (x in m' <==> x in m.value) && (x in m.value ==> m'[x] == m.value[x])
  {
  }
}
