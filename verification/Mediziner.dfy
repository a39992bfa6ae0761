/** `MedizinerMensaMenuParser`: the week and year in the name of the menu PDF, the dishes of
    its text layout (labels and prices stripped from the dish text) and the seven days of
    the week. Splitting the text into days, splitting a day's main-dish column into dishes,
    NFKC normalisation and `Menu.remove_duplicates` are parameters. */
module Mediziner {
  import opened Common
  import opened IsoDates
  import opened Entities
  import opened Labels

  // ---------------------------------------------------------------------------------------
  // Week and year from the file name

  /** `KW_` under `re.IGNORECASE`: the Kelvin sign folds to `k` as well. */
  predicate KwAt(w: string, i: nat) {
    i + 3 <= |w| && (w[i] == 'K' || w[i] == 'k' || w[i] == '\U{212A}') && (w[i + 1] == 'W' || w[i + 1] == 'w')
    && w[i + 2] == '_'
  }

  /** Start of the year digits when `_-?\d` begins at `q`, else `q` itself. */
  function YearDigitsAt(w: string, q: nat): nat {
    if q + 1 < |w| && w[q] == '_' && IsDigit(w[q + 1]) then q + 1
    else if q + 2 < |w| && w[q] == '_' && w[q + 1] == '-' && IsDigit(w[q + 2]) then q + 2
    else q
  }

  /** The greedy `.*` before `_-?(\d+)`: the last underscore at or after `lo` (and below `q`)
      that is followed by digits, possibly after a minus sign. */
  function LastYearStart(w: string, lo: nat, q: nat): (r: Option<nat>)
    requires q <= |w|
    ensures r.Some? ==> lo < r.value < |w| && IsDigit(w[r.value])
    decreases q
  {
    if q <= lo then None
    else if YearDigitsAt(w, q - 1) != q - 1 then Some(YearDigitsAt(w, q - 1))
    else LastYearStart(w, lo, q - 1)
  }

  /** `re.search(r"KW_([1-9]+\d*)_.*_-?(\d+).*", name, re.IGNORECASE)` from position `i`: the
      two digit groups of the leftmost match. */
  function WeekYearGroups(w: string, i: nat): Option<(string, string)>
    requires i <= |w|
    decreases |w| - i
  {
    if i == |w| then None
    else
      var g := i + 3;
      var e := if KwAt(w, i) && g < |w| && '1' <= w[g] <= '9' then RunEnd(w, g, Digit) else g;
      var y := if e < |w| && e > g && w[e] == '_' then LastYearStart(w, e + 1, |w|) else None;
      if y.Some? then Some((w[g..e], w[y.value..RunEnd(w, y.value, Digit)]))
      else WeekYearGroups(w, i + 1)
  }

  /** The number of decimal digits of `n`. */
  lemma NatToStringLength(n: nat)
    ensures n < 10 ==> |NatToString(n)| == 1
    ensures 10 <= n < 100 ==> |NatToString(n)| == 2
    ensures 100 <= n < 1000 ==> |NatToString(n)| == 3
    ensures 1000 <= n < 10000 ==> |NatToString(n)| == 4
    ensures n >= 10000 ==> |NatToString(n)| >= 5
  {
    if n >= 10 {
      NatToStringLength(n / 10);
    }
  }

  /** The week and year `parse` reads from the PDF's name: `int()` of the two groups, a
      year of two digits counted from 2000, any other length than two or four digits (after
      `int()` dropped leading zeros) a RuntimeError, as is a name that does not match. */
  function WeekAndYear(name: string): Result<(int, int)> {
    match WeekYearGroups(name, 0)
    case None => Err(RuntimeError)
    case Some((g1, g2)) =>
      if !AllDigits(g1) || !AllDigits(g2) then Err(RuntimeError)
      else
        var year2d := DigitsValue(g2);
        var len := |NatToString(year2d)|;
        if len != 2 && len != 4 then Err(RuntimeError)
        else Ok((DigitsValue(g1), if len == 2 then 2000 + year2d else year2d))
  }

  /** The groups are digit strings, the week's without a leading zero. */
  lemma {:induction false} WeekYearGroupsDigits(w: string, i: nat)
    requires i <= |w|
    ensures var r := WeekYearGroups(w, i);
      r.Some? ==> r.value.0 != [] && r.value.1 != [] && AllDigits(r.value.0) && AllDigits(r.value.1) && r.value.0[0] != '0'
    decreases |w| - i
  {
    if i < |w| {
      var g := i + 3;
      var e := if KwAt(w, i) && g < |w| && '1' <= w[g] <= '9' then RunEnd(w, g, Digit) else g;
      var y := if e < |w| && e > g && w[e] == '_' then LastYearStart(w, e + 1, |w|) else None;
      if y.Some? {
        SliceDigits(w, g, e);
        SliceDigits(w, y.value, RunEnd(w, y.value, Digit));
      } else {
        WeekYearGroupsDigits(w, i + 1);
      }
    }
  }

  /** A week and year that are read have a positive week and a four-digit year: two-digit
      years land in 2010..2099. */
  lemma WeekAndYearRange(name: string)
    ensures var r := WeekAndYear(name);
      r.Ok? ==>
        (r.value.0 >= 1 && 1000 <= r.value.1 <= 9999
         && (WeekYearGroups(name, 0).Some? && 10 <= DigitsValue(WeekYearGroups(name, 0).value.1) < 100 ==> 2010 <= r.value.1 <= 2099))
  {
    WeekYearGroupsDigits(name, 0);
    match WeekYearGroups(name, 0)
    case None =>
    case Some((g1, g2)) =>
      NatToStringLength(DigitsValue(g2));
      LeadingDigitPositive(g1);
  }

  /** A digit string that starts with a non-zero digit has a positive value. */
  lemma {:induction false} LeadingDigitPositive(s: string)
    requires s != [] && AllDigits(s) && s[0] != '0'
    ensures DigitsValue(s) >= 1
    decreases |s|
  {
    if |s| > 1 {
      LeadingDigitPositive(s[..|s| - 1]);
    }
  }

  /** A name without a matching `KW_` part is a RuntimeError. */
  lemma {:induction false} NoKwIsError(w: string, i: nat)
    requires i <= |w| && forall k :: i <= k < |w| ==> !KwAt(w, k)
    ensures WeekYearGroups(w, i).None?
    decreases |w| - i
  {
    if i < |w| {
      NoKwIsError(w, i + 1);
    }
  }

  // ---------------------------------------------------------------------------------------
  // Labels and prices in a dish text

  /** The codes of the label pattern: A-C, E-H, K-P, R-Z and 1-9. */
  predicate IsCode(c: char) {
    ('A' <= c <= 'C') || ('E' <= c <= 'H') || ('K' <= c <= 'P') || ('R' <= c <= 'Z') || ('1' <= c <= '9')
  }

  /** End of the greedy `(,code)*` groups from `m`. */
  function CodeListEnd(w: string, m: nat): (e: nat)
    requires m <= |w|
    ensures m <= e <= |w|
    decreases |w| - m
  {
    if m + 1 < |w| && w[m] == ',' && IsCode(w[m + 1]) then CodeListEnd(w, m + 2) else m
  }

  /** End of a match of `labels_regex`, `\s code (,code)* (\s|\Z)`, at `i`. A shorter
      list of codes cannot help a failing match: a comma would follow it. */
  function LabelMatchEnd(w: string, i: nat): (e: Option<nat>)
    ensures e.Some? ==> i + 2 <= e.value <= |w|
  {
    if i + 1 < |w| && IsSpace(w[i]) && IsCode(w[i + 1]) then
      var m := CodeListEnd(w, i + 2);
      if m == |w| then Some(m) else if IsSpace(w[m]) then Some(m + 1) else None
    else None
  }

  /** `re.findall(labels_regex, ·)` and `re.sub(labels_regex, " ", ·)` over the text from
      `i`: the matches left to right, and the text with each of them replaced by a blank.
      Every match is at least two characters long, so the text shrinks by at least one
      character per match. */
  function LabelPass(w: string, i: nat): (r: (seq<string>, string))
    requires i <= |w|
    ensures |r.1| + |r.0| <= |w| - i
    ensures r.0 == [] ==> r.1 == w[i..]
    decreases |w| - i
  {
    if i == |w| then ([], [])
    else
      match LabelMatchEnd(w, i)
      case Some(e) =>
        var (ms, rest) := LabelPass(w, e);
        ([w[i..e]] + ms, " " + rest)
      case None =>
        var (ms, rest) := LabelPass(w, i + 1);
        assert [w[i]] + w[i + 1..] == w[i..];
        (ms, [w[i]] + rest)
  }

  /** The union of the labels of the matches. */
  function MatchLabels(ms: seq<string>, labelsOf: string -> set<Label>): set<Label> {
    if ms == [] then {} else MatchLabels(ms[..|ms| - 1], labelsOf) + labelsOf(ms[|ms| - 1])
  }

  /** The label loop of `parse_dish`: as long as the label pattern matches, collect the
      labels of all matches and replace them by blanks. Gives the labels and the text left. */
  function StripLabels(w: string, labelsOf: string -> set<Label>): (set<Label>, string)
    decreases |w|
  {
    var (ms, rest) := LabelPass(w, 0);
    if ms == [] then ({}, w)
    else
      var (labels, left) := StripLabels(rest, labelsOf);
      (MatchLabels(ms, labelsOf) + labels, left)
  }

  /** The loop stops only once no label code is left in the text. */
  lemma {:induction false} StripLabelsDone(w: string, labelsOf: string -> set<Label>)
    ensures LabelPass(StripLabels(w, labelsOf).1, 0).0 == []
    decreases |w|
  {
    var (ms, rest) := LabelPass(w, 0);
    if ms != [] {
      StripLabelsDone(rest, labelsOf);
    }
  }

  /** The label loop of `parse_dish`. */
  method ParseDishLabels(dishStr: string, labelsOf: string -> set<Label>) returns (labels: set<Label>, rest: string)
    ensures (labels, rest) == StripLabels(dishStr, labelsOf)
  {
    labels := {};
    rest := dishStr;
    var (matches, replaced) := LabelPass(rest, 0);
    while matches != []
      invariant (matches, replaced) == LabelPass(rest, 0)
      invariant labels + StripLabels(rest, labelsOf).0 == StripLabels(dishStr, labelsOf).0
      invariant StripLabels(rest, labelsOf).1 == StripLabels(dishStr, labelsOf).1
      decreases |rest|
    {
      ghost var before := labels;
      for j := 0 to |matches|
        invariant labels == before + MatchLabels(matches[..j], labelsOf)
      {
        assert matches[..j + 1][..j] == matches[..j];
        labels := labels + labelsOf(matches[j]);
      }
      assert matches[..|matches|] == matches;
      rest := replaced;
      matches, replaced := LabelPass(rest, 0).0, LabelPass(rest, 0).1;
    }
  }

  /** A match of `price_regex`, `\d+,\d\d\s?€`, at `i`: its end and its amount in cents. The
      digit run is maximal: a shorter one would be followed by a digit, not a comma. */
  function PriceMatch(w: string, i: nat): (r: Option<(nat, int)>)
    ensures r.Some? ==> i + 5 <= r.value.0 <= |w|
  {
    if i < |w| && IsDigit(w[i]) then
      var j := RunEnd(w, i, Digit);
      if j + 3 < |w| && w[j] == ',' && IsDigit(w[j + 1]) && IsDigit(w[j + 2]) then
        var k := j + 3;
        SliceDigits(w, i, j);
        var cents := DigitsValue(w[i..j]) * 100 + (w[j + 1] as int - '0' as int) * 10 + (w[j + 2] as int - '0' as int);
        if w[k] == '€' then Some((k + 1, cents))
        else if k + 1 < |w| && IsSpace(w[k]) && w[k + 1] == '€' then Some((k + 2, cents))
        else None
      else None
    else None
  }

  /** `re.findall(price_regex, ·)` from `i`, each match read as cents. */
  function PriceAmounts(w: string, i: nat): seq<int>
    requires i <= |w|
    decreases |w| - i
  {
    if i == |w| then []
    else
      match PriceMatch(w, i)
      case Some((e, cents)) => [cents] + PriceAmounts(w, e)
      case None => PriceAmounts(w, i + 1)
  }

  /** `re.sub(price_regex, "", ·)` from `i`. */
  function RemovePrices(w: string, i: nat): string
    requires i <= |w|
    decreases |w| - i
  {
    if i == |w| then []
    else
      match PriceMatch(w, i)
      case Some((e, _)) => RemovePrices(w, e)
      case None => [w[i]] + RemovePrices(w, i + 1)
  }

  /** A text without a euro sign has no price, and removing prices leaves it as it is. */
  lemma {:induction false} NoEuroNoPrice(w: string, i: nat)
    requires i <= |w| && forall k :: i <= k < |w| ==> w[k] != '€'
    ensures PriceAmounts(w, i) == [] && RemovePrices(w, i) == w[i..]
    decreases |w| - i
  {
    if i < |w| {
      NoEuroNoPrice(w, i + 1);
      assert PriceMatch(w, i).None?;
      assert [w[i]] + w[i + 1..] == w[i..];
    }
  }

  /** A price text matches from its first digit, whatever follows it, and is read as its
      amount. */
  lemma PriceMatchReads(euros: nat, cents: nat, rest: string)
    requires cents < 100
    ensures var t := NatToString(euros) + "," + [('0' as int + cents / 10) as char, ('0' as int + cents % 10) as char] + " €";
      PriceMatch(t + rest, 0) == Some((|t|, euros * 100 + cents))
  {
    var e := NatToString(euros);
    var t := e + "," + [('0' as int + cents / 10) as char, ('0' as int + cents % 10) as char] + " €";
    var w := t + rest;
    NatToStringRoundTrip(euros);
    assert forall k :: 0 <= k < |e| ==> w[k] == e[k] && InClass(w[k], Digit);
    assert w[|e|] == ',';
    assert RunEnd(w, 0, Digit) == |e|;
    assert w[..|e|] == e;
    assert w[|e| + 3] == ' ' && w[|e| + 4] == '€';
  }

  /** The prices of a Mediziner dish: the students' price of the last price match, nothing
      for staff and guests; no prices without a match. */
  function MedizinerPrices(amounts: seq<int>): Prices {
    if amounts == [] then NoPrices else Prices(Some(Flat(amounts[|amounts| - 1])), None, None)
  }

  /** `parse_dish(dish_str)`: labels stripped by the label loop, white space collapsed and
      trimmed, " , " tightened to ", ", the last price taken and all prices removed. */
  function MedizinerDish(dishStr: string, labelsOf: string -> set<Label>): Dish {
    var (labels, rest) := StripLabels(dishStr, labelsOf);
    var text := ReplaceAll(Strip(CollapseSpaces(rest)), " , ", ", ");
    Dish(RemovePrices(text, 0), MedizinerPrices(PriceAmounts(text, 0)), labels, "Tagesgericht")
  }

  /** `MedizinerMensaMenuParser.parse_dish`; `labelsOf` reads a label match against the
      Mediziner table. */
  method ParseDish(dishStr: string, labelsOf: string -> set<Label>) returns (dish: Dish)
    ensures dish == MedizinerDish(dishStr, labelsOf)
  {
    var labels, rest := ParseDishLabels(dishStr, labelsOf);
    var text := ReplaceAll(Strip(CollapseSpaces(rest)), " , ", ", ");
    var amounts := PriceAmounts(text, 0);
    var prices := NoPrices;
    for j := 0 to |amounts|
      invariant prices == MedizinerPrices(amounts[..j])
    {
      prices := Prices(Some(Flat(amounts[j])), None, None);
      assert amounts[..j + 1][j] == amounts[j];
    }
    assert amounts[..|amounts|] == amounts;
    dish := Dish(RemovePrices(text, 0), prices, labels, "Tagesgericht");
  }

  /** The labels of a label match, read against the Mediziner table. */
  function MedizinerLabels(close: set<Label> -> set<Label>): string -> set<Label> {
    s => LabelSet(MedizinerTable, s, close)
  }

  // ---------------------------------------------------------------------------------------
  // The dish types

  /** The dish-types line search of `get_menus` from line `i`: the last non-empty line before
      the first line holding "***", "" when there is no such line or no "***" at all; `last`
      is the last non-empty line seen so far, -1 for none. */
  function TypesLineFrom(lines: seq<string>, i: nat, last: int): string
    requires i <= |lines| && -1 <= last < i
    decreases |lines| - i
  {
    if i == |lines| then ""
    else if Contains(lines[i], "***") then (if last >= 0 then lines[last] else "")
    else TypesLineFrom(lines, i + 1, if lines[i] != "" then i else last)
  }

  /** Line `j` is the first line from `i` on that holds "***", and the lines between line `k`
      and line `j` are empty. */
  predicate TypesLineAt(lines: seq<string>, i: nat, k: int, j: int) {
    0 <= k < j < |lines| && Contains(lines[j], "***")
    && (forall m :: i <= m < j ==> !Contains(lines[m], "***"))
    && forall m :: k < m < j ==> lines[m] == ""
  }

  /** A non-empty dish-types line is the last non-empty line before the first "***" line. */
  lemma {:induction false} TypesLineFacts(lines: seq<string>, i: nat, last: int)
    requires i <= |lines| && -1 <= last < i
    requires last >= 0 ==> lines[last] != "" && forall m :: last < m < i ==> lines[m] == ""
    requires last < 0 ==> forall m :: 0 <= m < i ==> lines[m] == ""
    ensures var r := TypesLineFrom(lines, i, last);
      r != "" ==> exists k, j :: TypesLineAt(lines, i, k, j) && r == lines[k]
    decreases |lines| - i
  {
    if i < |lines| {
      var r := TypesLineFrom(lines, i, last);
      if Contains(lines[i], "***") {
        if last >= 0 {
          assert TypesLineAt(lines, i, last, i);
        }
      } else {
        TypesLineFacts(lines, i + 1, if lines[i] != "" then i else last);
        if r != "" {
          var k, j :| TypesLineAt(lines, i + 1, k, j) && r == lines[k];
          assert TypesLineAt(lines, i, k, j);
        }
      }
    }
  }

  /** The dish-types line loop of `get_menus`. */
  method DishTypesLine(lines: seq<string>) returns (line: string)
    ensures line == TypesLineFrom(lines, 0, -1)
  {
    line := "";
    var last := -1;
    var i := 0;
    while i < |lines|
      invariant 0 <= i <= |lines| && -1 <= last < i
      invariant TypesLineFrom(lines, i, last) == TypesLineFrom(lines, 0, -1)
    {
      if Contains(lines[i], "***") {
        if last >= 0 {
          line := lines[last];
        }
        return;
      }
      if lines[i] != "" {
        last := i;
      }
      i := i + 1;
    }
  }

  /** First index at or after `i` where two white space characters follow each other. */
  function WideGap(s: string, i: nat): (k: nat)
    requires i <= |s|
    ensures i <= k <= |s|
    ensures k < |s| ==> k + 1 < |s| && IsSpace(s[k]) && IsSpace(s[k + 1])
    ensures forall j :: i <= j < k && j + 1 < |s| ==> !(IsSpace(s[j]) && IsSpace(s[j + 1]))
    decreases |s| - i
  {
    if i + 1 >= |s| then |s|
    else if IsSpace(s[i]) && IsSpace(s[i + 1]) then i
    else WideGap(s, i + 1)
  }

  /** `re.split(r"\s{2,}", s)`: the pieces between runs of two or more white space characters. */
  function SplitWide(s: string): (parts: seq<string>)
    ensures |parts| >= 1
    decreases |s|
  {
    var k := WideGap(s, 0);
    if k == |s| then [s]
    else
      assert InClass(s[k], Space) && InClass(s[k + 1], Space);
      [s[..k]] + SplitWide(s[RunEnd(s, k, Space)..])
  }

  /** No piece holds two white space characters in a row. */
  lemma {:induction false} SplitWidePieces(s: string)
    ensures forall p, j :: p in SplitWide(s) && 0 <= j < |p| - 1 ==> !(IsSpace(p[j]) && IsSpace(p[j + 1]))
    decreases |s|
  {
    var k := WideGap(s, 0);
    if k < |s| {
      assert InClass(s[k], Space) && InClass(s[k + 1], Space);
      SplitWidePieces(s[RunEnd(s, k, Space)..]);
      forall j | 0 <= j < |s[..k]| - 1 ensures !(IsSpace(s[..k][j]) && IsSpace(s[..k][j + 1])) {
        assert s[..k][j] == s[j] && s[..k][j + 1] == s[j + 1];
      }
    }
  }

  /** The non-empty strings of `xs`, in order. */
  function NonEmpty(xs: seq<string>): (r: seq<string>)
    ensures forall x :: x in r <==> x in xs && x != ""
  {
    if xs == [] then [] else (if xs[0] != "" then [xs[0]] else []) + NonEmpty(xs[1..])
  }

  /** The dish types of `get_menus`: the non-empty pieces of the dish-types line. */
  function DishTypes(lines: seq<string>): seq<string> {
    NonEmpty(SplitWide(TypesLineFrom(lines, 0, -1)))
  }

  // ---------------------------------------------------------------------------------------
  // The days

  /** Index of the first line at or after `i` holding `pat`, or `|lines|`. */
  function FirstWith(lines: seq<string>, pat: string, i: nat): (k: nat)
    requires i <= |lines|
    ensures i <= k <= |lines| && (k < |lines| ==> Contains(lines[k], pat))
    ensures forall j :: i <= j < k ==> !Contains(lines[j], pat)
    decreases |lines| - i
  {
    if i == |lines| || Contains(lines[i], pat) then i else FirstWith(lines, pat, i + 1)
  }

  /** Index of the last line before `n` holding `pat`, or `|lines|` when there is none. */
  function LastWith(lines: seq<string>, pat: string, n: nat): (k: nat)
    requires n <= |lines|
    ensures k == |lines| || (k < n && Contains(lines[k], pat))
    ensures forall j :: (if k == |lines| then 0 else k + 1) <= j < n ==> !Contains(lines[j], pat)
    decreases n
  {
    if n == 0 then |lines| else if Contains(lines[n - 1], pat) then n - 1 else LastWith(lines, pat, n - 1)
  }

  /** The lines of the week: from the first "Montag" line, up to but not including the last
      "***" line after it. */
  method WeekLines(lines: seq<string>) returns (window: seq<string>)
    ensures var from := lines[FirstWith(lines, "Montag", 0)..];
      window == from[..LastWith(from, "***", |from|)]
  {
    var count := 0;
    while count < |lines| && !Contains(lines[count], "Montag")
      invariant 0 <= count <= |lines|
      invariant FirstWith(lines, "Montag", count) == FirstWith(lines, "Montag", 0)
    {
      count := count + 1;
    }
    var from := lines[count..];
    var lastRelevant: nat := |from|;
    for index := 0 to |from|
      invariant lastRelevant <= |from|
      invariant lastRelevant == |from| || (lastRelevant < index && Contains(from[lastRelevant], "***"))
      invariant forall j :: (if lastRelevant == |from| then 0 else lastRelevant + 1) <= j < index ==> !Contains(from[j], "***")
    {
      if Contains(from[index], "***") {
        lastRelevant := index;
      }
    }
    LastWithUnique(from, "***", |from|, lastRelevant);
    window := from[..lastRelevant];
  }

  /** The last "***" line is the only index with the properties `LastWith` promises. */
  lemma LastWithUnique(lines: seq<string>, pat: string, n: nat, k: nat)
    requires n <= |lines|
    requires k == |lines| || (k < n && Contains(lines[k], pat))
    requires forall j :: (if k == |lines| then 0 else k + 1) <= j < n ==> !Contains(lines[j], pat)
    ensures k == LastWith(lines, pat, n)
  {
    var l := LastWith(lines, pat, n);
  }

  /** The weekday names the day split leaves among the day texts. */
  const DayNames: set<string> := {"Montag", "Dienstag", "Mittwoch", "Donnerstag", "Freitag", "Samstag", "Sonntag"}

  /** The day texts: the pieces of the split that are neither empty nor a weekday name. */
  function DayTexts(pieces: seq<string>): (r: seq<string>)
    ensures |r| <= |pieces|
    ensures forall x :: x in r <==> x in pieces && x != "" && x !in DayNames
  {
    if pieces == [] then []
    else (if pieces[0] != "" && pieces[0] !in DayNames then [pieces[0]] else []) + DayTexts(pieces[1..])
  }

  /** The text the day split works on: the week's lines joined, stars removed, trimmed. */
  function WeekText(window: seq<string>): string {
    Strip(ReplaceAll(Join(window, "\n"), "*", ""))
  }

  /** What `get_menus` relies on and this model takes as given: the split of the week's text
      at the weekday headings (`re.split` with the heading as a group, so the weekday names
      come back among the pieces), NFKC normalisation, the split of a day's main-dish column
      into dish texts, and `Menu.remove_duplicates`. */
  datatype Tokenisers = Tokenisers(splitDays: string -> seq<string>, nfkc: string -> string,
                                   splitMains: string -> seq<string>, dedup: seq<Dish> -> seq<Dish>)

  /** The text of a column: each line's characters `a` to `b`, trimmed, each followed by a
      line break. `splitlines(True)` keeps the line ends, but every line end is white space
      that the trim removes, so the lines are taken without them. */
  function Column(lines: seq<string>, a: int, b: int): string {
    if lines == [] then "" else Column(lines[..|lines| - 1], a, b) + Strip(PySlice(lines[|lines| - 1], a, b)) + "\n"
  }

  /** The soup column and the main-dish column of a day. */
  method DayColumns(lines: seq<string>) returns (soup: string, mains: string)
    ensures soup == Column(lines, 0, 36) && mains == Column(lines, 40, 100)
  {
    soup, mains := "", "";
    for i := 0 to |lines|
      invariant soup == Column(lines[..i], 0, 36) && mains == Column(lines[..i], 40, 100)
    {
      assert lines[..i + 1][..i] == lines[..i];
      soup := soup + Strip(PySlice(lines[i], 0, 36)) + "\n";
      mains := mains + Strip(PySlice(lines[i], 40, 100)) + "\n";
    }
    assert lines[..|lines|] == lines;
  }

  /** The soup text: hyphenated line ends joined, trimmed, the other line ends made blanks. */
  function SoupText(column: string): string {
    ReplaceAll(Strip(ReplaceAll(column, "-\n", "")), "\n", " ")
  }

  /** The soup of a day, typed with the first dish type or "Suppe", unless its name is empty
      or "Feiertag". */
  function Soups(soupText: string, types: seq<string>, parse: string -> Dish): seq<Dish> {
    var soup := parse(soupText);
    if soup.name == "" || soup.name == "Feiertag" then []
    else [soup.(dishType := if |types| > 0 then types[0] else "Suppe")]
  }

  /** `parse_dish` as a function value. */
  function DishParser(labelsOf: string -> set<Label>): string -> Dish {
    s => MedizinerDish(s, labelsOf)
  }

  /** One dish text of a day's main-dish column, read with the current dish type: the dishes
      it adds and the dish type for the texts after it. A text holding "Extraessen" adds no
      dish and makes the type "Extraessen"; any other text becomes a dish with a trimmed name,
      dropped when that name is empty or "Feiertag", typed with the current dish type when
      there is one. */
  function MainDish(piece: string, dishType: string, parse: string -> Dish): (seq<Dish>, string) {
    if Contains(piece, "Extraessen") then ([], "Extraessen")
    else
      var d := parse(ReplaceAll(Strip(piece), "\n", " "));
      var name := Strip(d.name);
      if name == "" || name == "Feiertag" then ([], dishType)
      else ([d.(name := name, dishType := if dishType != "" then dishType else d.dishType)], dishType)
  }

  /** The main dishes of a day from its dish texts, in order. */
  function MainDishes(pieces: seq<string>, dishType: string, parse: string -> Dish): seq<Dish> {
    if pieces == [] then []
    else
      var (dishes, next) := MainDish(pieces[0], dishType, parse);
      dishes + MainDishes(pieces[1..], next, parse)
  }

  /** The body of the main-dish loop of `get_menus`; `parse` is `parse_dish`. */
  method ParseMain(piece: string, dishType: string, parse: string -> Dish) returns (dishes: seq<Dish>, next: string)
    ensures dishes == MainDish(piece, dishType, parse).0
    ensures next == MainDish(piece, dishType, parse).1
  {
    dishes, next := [], dishType;
    if Contains(piece, "Extraessen") {
      next := "Extraessen";
      return;
    }
    var dish := parse(ReplaceAll(Strip(piece), "\n", " "));
    var name := Strip(dish.name);
    if name != "" && name != "Feiertag" {
      if dishType != "" {
        dish := dish.(dishType := dishType);
      }
      dishes := [dish.(name := name)];
    }
  }

  /** The main-dish loop of `get_menus`. */
  method ParseMains(pieces: seq<string>, firstType: string, parse: string -> Dish) returns (dishes: seq<Dish>)
    ensures dishes == MainDishes(pieces, firstType, parse)
  {
    dishes := [];
    var dishType := firstType;
    for i := 0 to |pieces|
      invariant dishes + MainDishes(pieces[i..], dishType, parse) == MainDishes(pieces, firstType, parse)
    {
      var added, next := ParseMain(pieces[i], dishType, parse);
      MainDishesStep(pieces, i, dishType, parse);
      assert dishes + (added + MainDishes(pieces[i + 1..], next, parse)) == dishes + added + MainDishes(pieces[i + 1..], next, parse);
      dishes := dishes + added;
      dishType := next;
    }
    assert pieces[|pieces|..] == [];
  }

  /** One step of the main dishes: the dishes of the text at `i`, then those after it. */
  lemma MainDishesStep(pieces: seq<string>, i: nat, dishType: string, parse: string -> Dish)
    requires i < |pieces|
    ensures var (dishes, next) := MainDish(pieces[i], dishType, parse);
      MainDishes(pieces[i..], dishType, parse) == dishes + MainDishes(pieces[i + 1..], next, parse)
  {
    assert pieces[i..][1..] == pieces[i + 1..];
  }

  /** Every main dish has a name other than "" and "Feiertag"; its type is the current dish
      type, "Extraessen", or the parser's own type when there is no dish type; once the type
      is "Extraessen" every later dish is one. */
  lemma {:induction false} MainDishesTyped(pieces: seq<string>, dishType: string, parse: string -> Dish, parsedType: string)
    requires forall s :: parse(s).dishType == parsedType
    ensures forall d :: d in MainDishes(pieces, dishType, parse) ==>
      d.name != "" && d.name != "Feiertag"
      && ((dishType != "" && d.dishType == dishType) || d.dishType == "Extraessen"
          || (dishType == "" && d.dishType == parsedType))
      && (dishType == "Extraessen" ==> d.dishType == "Extraessen")
  {
    if pieces != [] {
      var next := MainDish(pieces[0], dishType, parse).1;
      MainDishesTyped(pieces[1..], next, parse, parsedType);
    }
  }

  /** The dishes of one day: the soup, then the main dishes. */
  function DayMenu(day: string, types: seq<string>, tok: Tokenisers, labelsOf: string -> set<Label>): seq<Dish> {
    var lines := SplitLines(tok.nfkc(day));
    Soups(SoupText(Column(lines, 0, 36)), types, DishParser(labelsOf))
      + MainDishes(tok.splitMains(Column(lines, 40, 100)), if |types| > 1 then types[1] else "", DishParser(labelsOf))
  }

  /** One day of `get_menus`. */
  method ParseDay(day: string, types: seq<string>, tok: Tokenisers, labelsOf: string -> set<Label>) returns (dishes: seq<Dish>)
    ensures dishes == DayMenu(day, types, tok, labelsOf)
  {
    var lines := SplitLines(tok.nfkc(day));
    var soupColumn, mainsColumn := DayColumns(lines);
    var soup := ParseDish(SoupText(soupColumn), labelsOf);
    dishes := [];
    if soup.name != "" && soup.name != "Feiertag" {
      dishes := [soup.(dishType := if |types| > 0 then types[0] else "Suppe")];
    }
    var mains := ParseMains(tok.splitMains(mainsColumn), if |types| > 1 then types[1] else "", DishParser(labelsOf));
    dishes := dishes + mains;
  }

  /** Every dish `parse_dish` builds is a "Tagesgericht". */
  lemma ParsedType(labelsOf: string -> set<Label>)
    ensures forall s :: DishParser(labelsOf)(s).dishType == "Tagesgericht"
  {
  }

  /** No dish of a day is named "" or "Feiertag"; the soup comes first and is typed with
      the first dish type or "Suppe"; every main dish is typed with the second dish type,
      "Extraessen", or the parser's own type when there is no second dish type. */
  lemma DishesTyped(soupText: string, pieces: seq<string>, types: seq<string>, parse: string -> Dish, parsedType: string)
    requires forall s :: parse(s).dishType == parsedType
    requires forall t :: t in types ==> t != ""
    ensures var soups := Soups(soupText, types, parse);
      var dishes := soups + MainDishes(pieces, if |types| > 1 then types[1] else "", parse);
      (forall d :: d in dishes ==> d.name != "" && d.name != "Feiertag")
      && (soups != [] ==> dishes[0].dishType == (if |types| > 0 then types[0] else "Suppe"))
      && (forall k :: |soups| <= k < |dishes| ==>
            dishes[k].dishType in {"Extraessen", if |types| > 1 then types[1] else parsedType})
  {
    var soups: seq<Dish> := Soups(soupText, types, parse);
    var mains: seq<Dish> := MainDishes(pieces, if |types| > 1 then types[1] else "", parse);
    MainDishesTyped(pieces, if |types| > 1 then types[1] else "", parse, parsedType);
    forall k | |soups| <= k < |soups + mains|
      ensures (soups + mains)[k].dishType in {"Extraessen", if |types| > 1 then types[1] else parsedType}
    {
      assert (soups + mains)[k] == mains[k - |soups|] && mains[k - |soups|] in mains;
      assert |types| > 1 ==> types[1] in types;
    }
  }

  /** The dishes of a day in `get_menus`, with dish types that are not empty (as `DishTypes`
      gives them): none is named "" or "Feiertag", the main dishes are
      typed with the second dish type, "Extraessen" or "Tagesgericht", and the soup, if kept,
      comes first, typed with the first dish type or "Suppe". */
  lemma DayMenuTyped(day: string, types: seq<string>, tok: Tokenisers, labelsOf: string -> set<Label>)
    requires forall t :: t in types ==> t != ""
    ensures var lines := SplitLines(tok.nfkc(day));
      var soups := Soups(SoupText(Column(lines, 0, 36)), types, DishParser(labelsOf));
      var dishes := DayMenu(day, types, tok, labelsOf);
      (forall d :: d in dishes ==> d.name != "" && d.name != "Feiertag")
      && (soups != [] ==> dishes[0].dishType == (if |types| > 0 then types[0] else "Suppe"))
      && (forall k :: |soups| <= k < |dishes| ==>
            dishes[k].dishType in {"Extraessen", if |types| > 1 then types[1] else "Tagesgericht"})
  {
    var lines := SplitLines(tok.nfkc(day));
    ParsedType(labelsOf);
    DishesTyped(SoupText(Column(lines, 0, 36)), tok.splitMains(Column(lines, 40, 100)), types, DishParser(labelsOf), "Tagesgericht");
  }

  /** The de-duplicated dishes of each day. */
  function DayMenus(days: seq<string>, types: seq<string>, tok: Tokenisers, labelsOf: string -> set<Label>): (r: seq<seq<Dish>>)
    ensures |r| == |days|
  {
    seq(|days|, k requires 0 <= k < |days| => tok.dedup(DayMenu(days[k], types, tok, labelsOf)))
  }

  /** The dates of the seven weekdays of an ISO week, Monday first, as `get_date` gives them. */
  function WeekDates(year: int, week: int): (r: seq<Result<Date>>)
    ensures |r| == 7
  {
    seq(7, k requires 0 <= k < 7 => GetDate(year, week, k + 1))
  }

  /** The menus of the first `n` days, each stored under its day's date; the first date
      `get_date` rejected fails the week. */
  function WeekMenus(perDay: seq<seq<Dish>>, dates: seq<Result<Date>>, n: nat): Result<map<Date, Menu>>
    requires n <= |perDay| && n <= |dates|
  {
    if n == 0 then Ok(map[])
    else
      match WeekMenus(perDay, dates, n - 1)
      case Err(e) => Err(e)
      case Ok(m) =>
        match dates[n - 1]
        case Err(e) => Err(e)
        case Ok(date) => Ok(m[date := Menu(date, perDay[n - 1])])
  }

  /** The week succeeds exactly when every day has a date, and otherwise fails with the
      error of a day that has none. */
  lemma {:induction false} WeekMenusFail(perDay: seq<seq<Dish>>, dates: seq<Result<Date>>, n: nat)
    requires n <= |perDay| && n <= |dates|
    ensures var r := WeekMenus(perDay, dates, n);
      (r.Ok? <==> forall k :: 0 <= k < n ==> dates[k].Ok?)
      && (r.Err? ==> Err(r.error) in dates[..n])
  {
    if n > 0 {
      WeekMenusFail(perDay, dates, n - 1);
      assert dates[..n] == dates[..n - 1] + [dates[n - 1]];
    }
  }

  /** The seven dates of an ISO week are distinct, and each one `get_date` gives lies in
      that week. */
  lemma WeekDatesFacts(year: int, week: int)
    ensures var dates := WeekDates(year, week);
      (forall j, k :: 0 <= j < k < |dates| && dates[j].Ok? && dates[k].Ok? ==> dates[j].value != dates[k].value)
      && forall k :: 0 <= k < 7 && dates[k].Ok? ==>
           1000 <= year && InIsoWeek(dates[k].value, year, week) && dates[k] == GetDate(year, week, k + 1)
  {
    var dates := WeekDates(year, week);
    forall j, k | 0 <= j < k < 7 && dates[j].Ok? && dates[k].Ok?
      ensures dates[j].value != dates[k].value
    {
      assert Weekday(dates[j].value) == j;
    }
  }

  /** With distinct dates, a successful week holds one menu per day, stored under that day's
      date and holding that day's dishes, and nothing else. */
  lemma {:induction false} WeekMenusDates(perDay: seq<seq<Dish>>, dates: seq<Result<Date>>, n: nat)
    requires n <= |perDay| && n <= |dates|
    requires forall j, k :: 0 <= j < k < |dates| && dates[j].Ok? && dates[k].Ok? ==> dates[j].value != dates[k].value
    requires WeekMenus(perDay, dates, n).Ok?
    ensures var m := WeekMenus(perDay, dates, n).value;
      |m| == n
      && (forall k :: 0 <= k < n ==> dates[k].Ok? && dates[k].value in m && m[dates[k].value].dishes == perDay[k])
      && forall date :: date in m ==> m[date].date == date && Ok(date) in dates[..n]
  {
    if n > 0 {
      WeekMenusDates(perDay, dates, n - 1);
      var r := WeekMenus(perDay, dates, n - 1).value;
      var g := dates[n - 1].value;
      var m := r[g := Menu(g, perDay[n - 1])];
      assert WeekMenus(perDay, dates, n) == Ok(m);
      assert dates[..n] == dates[..n - 1] + [dates[n - 1]];
      assert g !in r;
      assert r.Keys + {g} == m.Keys;
      forall k | 0 <= k < n - 1
        ensures dates[k].value in m && m[dates[k].value] == r[dates[k].value]
      {
        assert dates[k].value != g;
      }
    }
  }

  /** `MedizinerMensaMenuParser.get_menus(text, year, week_number)`: None unless the week's
      text splits into exactly seven day texts. */
  function MedizinerMenus(text: string, year: int, week: int, tok: Tokenisers, labelsOf: string -> set<Label>)
    : Result<Option<map<Date, Menu>>>
  {
    var lines := SplitLines(text);
    var from := lines[FirstWith(lines, "Montag", 0)..];
    var window := from[..LastWith(from, "***", |from|)];
    var days := DayTexts(tok.splitDays(WeekText(window)));
    if |days| != 7 then Ok(None)
    else
      match WeekMenus(DayMenus(days, DishTypes(lines), tok, labelsOf), WeekDates(year, week), 7)
      case Err(e) => Err(e)
      case Ok(m) => Ok(Some(m))
  }

  /** `get_menus` returns seven menus, one per weekday of the requested ISO week, or None
      when the text does not split into seven days; it fails, with a ValueError, only for a
      week `get_date` rejects. */
  lemma MedizinerMenusWeek(text: string, year: int, week: int, tok: Tokenisers, labelsOf: string -> set<Label>)
    ensures var r := MedizinerMenus(text, year, week, tok, labelsOf);
      (r.Err? ==> r.error == ValueError && exists d :: 1 <= d <= 7 && GetDate(year, week, d).Err?)
      && (r.Ok? && r.value.Some? ==>
            |r.value.value| == 7
            && forall date :: date in r.value.value ==>
                 r.value.value[date].date == date && 1000 <= year && InIsoWeek(date, year, week))
  {
    var lines := SplitLines(text);
    var from := lines[FirstWith(lines, "Montag", 0)..];
    var window := from[..LastWith(from, "***", |from|)];
    var days := DayTexts(tok.splitDays(WeekText(window)));
    if |days| == 7 {
      WeekOfDates(DayMenus(days, DishTypes(lines), tok, labelsOf), year, week);
    }
  }

  /** The week of seven days' dishes under the dates of an ISO week. */
  lemma WeekOfDates(perDay: seq<seq<Dish>>, year: int, week: int)
    requires |perDay| == 7
    ensures var r := WeekMenus(perDay, WeekDates(year, week), 7);
      (r.Err? ==> r.error == ValueError && exists d :: 1 <= d <= 7 && GetDate(year, week, d).Err?)
      && (r.Ok? ==>
            |r.value| == 7
            && forall date :: date in r.value ==> r.value[date].date == date && 1000 <= year && InIsoWeek(date, year, week))
  {
    if WeekMenus(perDay, WeekDates(year, week), 7).Err? {
      WeekOfDatesFail(perDay, year, week);
    } else {
      WeekOfDatesOk(perDay, year, week);
    }
  }

  /** A failing week fails with the ValueError of a day `get_date` rejects. */
  lemma WeekOfDatesFail(perDay: seq<seq<Dish>>, year: int, week: int)
    requires |perDay| == 7 && WeekMenus(perDay, WeekDates(year, week), 7).Err?
    ensures var r := WeekMenus(perDay, WeekDates(year, week), 7);
      r.error == ValueError && exists d :: 1 <= d <= 7 && GetDate(year, week, d).Err?
  {
    var dates := WeekDates(year, week);
    var r := WeekMenus(perDay, dates, 7);
    WeekMenusFail(perDay, dates, 7);
    var k :| 0 <= k < 7 && dates[..7][k] == Err(r.error);
    WeekDateAt(year, week, k);
  }

  /** A successful week holds seven menus, each under its own date of the ISO week. */
  lemma WeekOfDatesOk(perDay: seq<seq<Dish>>, year: int, week: int)
    requires |perDay| == 7 && WeekMenus(perDay, WeekDates(year, week), 7).Ok?
    ensures var m := WeekMenus(perDay, WeekDates(year, week), 7).value;
      |m| == 7 && forall date :: date in m ==> m[date].date == date && 1000 <= year && InIsoWeek(date, year, week)
  {
    var dates := WeekDates(year, week);
    WeekDatesFacts(year, week);
    WeekMenusDates(perDay, dates, 7);
    DatesInWeek(WeekMenus(perDay, dates, 7).value, dates, year, week);
  }

  /** Menus stored under dates of the ISO week are all in that week. */
  lemma DatesInWeek(m: map<Date, Menu>, dates: seq<Result<Date>>, year: int, week: int)
    requires |dates| == 7
    requires forall date :: date in m ==> Ok(date) in dates[..7]
    requires forall k :: 0 <= k < 7 && dates[k].Ok? ==> 1000 <= year && InIsoWeek(dates[k].value, year, week)
    ensures forall date :: date in m ==> 1000 <= year && InIsoWeek(date, year, week)
  {
    forall date | date in m
      ensures 1000 <= year && InIsoWeek(date, year, week)
    {
      var k :| 0 <= k < 7 && dates[..7][k] == Ok(date);
      assert dates[k] == Ok(date);
    }
  }

  /** Day `k` of the week is `get_date` of weekday `k + 1`. */
  lemma WeekDateAt(year: int, week: int, k: int)
    requires 0 <= k < 7
    ensures WeekDates(year, week)[k] == GetDate(year, week, k + 1)
  {
  }

  /** A failing day fails the whole week with its error. */
  lemma {:induction false} WeekFailure(perDay: seq<seq<Dish>>, dates: seq<Result<Date>>, n: nat, m: nat)
    requires n <= m <= |perDay| && m <= |dates| && WeekMenus(perDay, dates, n).Err?
    ensures WeekMenus(perDay, dates, m) == WeekMenus(perDay, dates, n)
    decreases m - n
  {
    if n < m {
      WeekFailure(perDay, dates, n, m - 1);
    }
  }

  /** `get_menus`, with the loops of the source. */
  method GetMenus(text: string, year: int, week: int, tok: Tokenisers, labelsOf: string -> set<Label>)
    returns (r: Result<Option<map<Date, Menu>>>)
    ensures r == MedizinerMenus(text, year, week, tok, labelsOf)
  {
    var lines := SplitLines(text);
    var typesLine := DishTypesLine(lines);
    var types := NonEmpty(SplitWide(typesLine));
    var window := WeekLines(lines);
    var days := DayTexts(tok.splitDays(WeekText(window)));
    if |days| != 7 {
      return Ok(None);
    }
    ghost var perDay := DayMenus(days, types, tok, labelsOf);
    ghost var dates := WeekDates(year, week);
    var menus: map<Date, Menu> := map[];
    for n := 0 to 7
      invariant WeekMenus(perDay, dates, n) == Ok(menus)
    {
      var dishes := ParseDay(days[n], types, tok, labelsOf);
      assert tok.dedup(dishes) == perDay[n];
      var date := GetDate(year, week, n + 1);
      assert date == dates[n];
      if date.Err? {
        WeekFailure(perDay, dates, n + 1, 7);
        return Err(date.error);
      }
      menus := menus[date.value := Menu(date.value, tok.dedup(dishes))];
    }
    r := Ok(Some(menus));
  }

  /** `parse` after the download: None unless exactly one link to a menu PDF was found; the
      week and year come from the PDF's name (the last part of its URL) and the text is the
      PDF's first page as `pdftotext` lays it out. */
  function MedizinerParse(hrefs: seq<string>, text: string, tok: Tokenisers, labelsOf: string -> set<Label>)
    : Result<Option<map<Date, Menu>>>
  {
    if |hrefs| != 1 then Ok(None)
    else
      match WeekAndYear(PdfName(hrefs[0]))
      case Err(e) => Err(e)
      case Ok((week, year)) => MedizinerMenus(text, year, week, tok, labelsOf)
  }

  /** `pdf_url.split("/")[-1]` of the PDF's full URL. */
  function PdfName(href: string): string {
    var pieces := Split("https://www.sv.tum.de" + href, '/');
    pieces[|pieces| - 1]
  }

  /** What `parse` gives after the download: None when not exactly one link was found; a
      RuntimeError exactly when the PDF's name yields no week and year; otherwise the
      menus of `get_menus` for that week and year, which are seven menus of that ISO week,
      or a ValueError for a week `get_date` rejects. */
  lemma MedizinerParseOutcome(hrefs: seq<string>, text: string, tok: Tokenisers, labelsOf: string -> set<Label>)
    ensures var r := MedizinerParse(hrefs, text, tok, labelsOf);
      (|hrefs| != 1 ==> r == Ok(None))
      && (|hrefs| == 1 ==>
            (r.Err? && r.error == RuntimeError <==> WeekAndYear(PdfName(hrefs[0])).Err?)
            && (WeekAndYear(PdfName(hrefs[0])).Ok? ==>
                  var (week, year) := WeekAndYear(PdfName(hrefs[0])).value;
                  r == MedizinerMenus(text, year, week, tok, labelsOf)))
      && (r.Ok? && r.value.Some? ==>
            |hrefs| == 1 && WeekAndYear(PdfName(hrefs[0])).Ok?
            && var (week, year) := WeekAndYear(PdfName(hrefs[0])).value;
               |r.value.value| == 7
               && forall date :: date in r.value.value ==> r.value.value[date].date == date && InIsoWeek(date, year, week))
  {
    if |hrefs| == 1 {
      var name := PdfName(hrefs[0]);
      if WeekAndYear(name).Ok? {
        var (week, year) := WeekAndYear(name).value;
        MedizinerMenusWeek(text, year, week, tok, labelsOf);
      }
    }
  }
}
