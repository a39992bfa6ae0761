/** `StudentenwerkMenuParser`: assembling the dishes of one day from the columns read off the
    day's HTML, and collecting the days of a page into menus. The HTML queries themselves are
    outside the model: their results are the inputs. */
module Studentenwerk {
  import opened Common
  import opened IsoDates
  import opened Entities
  import opened Labels
  import opened Pricing

  /** The type shown for a dish: the text of its type span, or, when that span has no text,
      the last non-empty text before it ("" when there is none). A span without text is
      given as "". */
  function LastNonEmpty(texts: seq<string>): string {
    if texts == [] then ""
    else if texts[|texts| - 1] != "" then texts[|texts| - 1]
    else LastNonEmpty(texts[..|texts| - 1])
  }

  /** The forward-filled type is "" exactly when no text so far is non-empty, and otherwise
      it is the latest non-empty text. */
  lemma {:induction false} LastNonEmptyFacts(texts: seq<string>)
    ensures LastNonEmpty(texts) == "" <==> forall k :: 0 <= k < |texts| ==> texts[k] == ""
    ensures LastNonEmpty(texts) != "" ==>
      exists k :: 0 <= k < |texts| && texts[k] == LastNonEmpty(texts) && (forall j :: k < j < |texts| ==> texts[j] == "")
  {
    if texts != [] && texts[|texts| - 1] == "" {
      var init := texts[..|texts| - 1];
      LastNonEmptyFacts(init);
      assert forall k :: 0 <= k < |init| ==> init[k] == texts[k];
      if LastNonEmpty(texts) != "" {
        var k :| 0 <= k < |init| && init[k] == LastNonEmpty(init) && forall j :: k < j < |init| ==> init[j] == "";
        assert texts[k] == LastNonEmpty(texts);
      }
    }
  }

  /** The dish type of every type span. */
  function ForwardFill(texts: seq<string>): (types: seq<string>)
    ensures |types| == |texts|
  {
    seq(|texts|, i requires 0 <= i < |texts| => LastNonEmpty(texts[..i + 1]))
  }

  /** The dish type loop of `__parse_dishes`: one type per type span. */
  method DishTypes(texts: seq<string>) returns (types: seq<string>)
    ensures types == ForwardFill(texts)
  {
    types := [];
    var current := "";
    var i := 0;
    while i < |texts|
      invariant 0 <= i <= |texts| && |types| == i
      invariant current == LastNonEmpty(texts[..i])
      invariant forall k :: 0 <= k < i ==> types[k] == LastNonEmpty(texts[..k + 1])
    {
      assert texts[..i + 1][..i] == texts[..i];
      if texts[i] != "" {
        current := texts[i];
      }
      types := types + [current];
      i := i + 1;
    }
  }

  /** The prices of side dishes ("Beilagen"): no base price and the classic per-unit prices. */
  function SideDishPrices(): Prices {
    SelfServicePrices(VegetarianSoupStew, Classic)
  }

  /** The prices `__parse_dishes` gives a dish of the given type. */
  function DishPrices(canteen: Canteen, dishType: string, allergen: string, meatless: string, name: string): Prices {
    if dishType == "Beilagen" then SideDishPrices() else GetPrice(canteen, dishType, allergen, meatless, name)
  }

  /** The labels of a dish: its additive, allergen and type markers, each resolved through
      the Studentenwerk table, then the diet from the meatless marker. */
  function DishLabels(additional: string, allergen: string, typeMarker: string, meatless: string,
                      close: set<Label> -> set<Label>): set<Label> {
    var found := LabelSet(StudentenwerkTable, additional, close) + LabelSet(StudentenwerkTable, allergen, close)
      + LabelSet(StudentenwerkTable, typeMarker, close);
    AddDiet(found, meatless, close)
  }

  /** One row of the zipped columns of `__parse_dishes`. */
  datatype Row = Row(name: string, dishType: string, additional: string, allergen: string,
                     typeMarker: string, meatless: string)

  /** One dish of the zip. */
  function MakeDish(canteen: Canteen, row: Row, close: set<Label> -> set<Label>): Dish {
    Dish(row.name, DishPrices(canteen, row.dishType, row.allergen, row.meatless, row.name),
         DishLabels(row.additional, row.allergen, row.typeMarker, row.meatless, close), row.dishType)
  }

  function Min(a: int, b: int): int { if a <= b then a else b }

  /** `zip(...)` of the six columns: it stops at the shortest one. */
  function Zip(names: seq<string>, types: seq<string>, additional: seq<string>, allergens: seq<string>,
               typeMarkers: seq<string>, meatless: seq<string>): (rows: seq<Row>)
    ensures |rows| == Min(Min(Min(|names|, |types|), Min(|additional|, |allergens|)), Min(|typeMarkers|, |meatless|))
  {
    var n := Min(Min(Min(|names|, |types|), Min(|additional|, |allergens|)), Min(|typeMarkers|, |meatless|));
    seq(n, k requires 0 <= k < n => Row(names[k], types[k], additional[k], allergens[k], typeMarkers[k], meatless[k]))
  }

  /** The names of the dishes: each title without trailing white space, then made unique. */
  function DishNames(titles: seq<string>, makeUnique: seq<string> -> seq<string>): seq<string> {
    makeUnique(seq(|titles|, i requires 0 <= i < |titles| => RStrip(titles[i])))
  }

  /** The dish of a row, as a function value. */
  function DishMaker(canteen: Canteen, close: set<Label> -> set<Label>): Row -> Dish {
    row => MakeDish(canteen, row, close)
  }

  /** One dish per row, in the order of the rows. */
  function DishesOf(canteen: Canteen, rows: seq<Row>, close: set<Label> -> set<Label>): seq<Dish> {
    MapSeq(DishMaker(canteen, close), rows)
  }

  /** The dishes of one day, as `__parse_dishes` builds them. */
  function DayDishes(canteen: Canteen, titles: seq<string>, typeTexts: seq<string>,
                     additional: seq<string>, allergens: seq<string>, typeMarkers: seq<string>,
                     meatless: seq<string>, close: set<Label> -> set<Label>,
                     makeUnique: seq<string> -> seq<string>): seq<Dish> {
    DishesOf(canteen, Zip(DishNames(titles, makeUnique), ForwardFill(typeTexts), additional, allergens, typeMarkers, meatless), close)
  }

  /** `StudentenwerkMenuParser.__parse_dishes`. `titles` are the dish title texts, `typeTexts`
      the type spans' texts, and the four marker columns the list items' attributes;
      `makeUnique` is `util.make_duplicates_unique`. */
  method ParseDishes(canteen: Canteen, titles: seq<string>, typeTexts: seq<string>,
                     additional: seq<string>, allergens: seq<string>, typeMarkers: seq<string>,
                     meatless: seq<string>, close: set<Label> -> set<Label>,
                     makeUnique: seq<string> -> seq<string>)
    returns (dishes: seq<Dish>)
    ensures dishes == DayDishes(canteen, titles, typeTexts, additional, allergens, typeMarkers, meatless, close, makeUnique)
  {
    var stripped := seq(|titles|, i requires 0 <= i < |titles| => RStrip(titles[i]));
    var names := makeUnique(stripped);
    var types := DishTypes(typeTexts);
    var rows := Zip(names, types, additional, allergens, typeMarkers, meatless);
    dishes := BuildDishes(canteen, rows, close);
  }

  /** The zip loop of `__parse_dishes`. */
  method BuildDishes(canteen: Canteen, rows: seq<Row>, close: set<Label> -> set<Label>) returns (dishes: seq<Dish>)
    ensures dishes == DishesOf(canteen, rows, close)
  {
    dishes := [];
    for i := 0 to |rows|
      invariant dishes == DishesOf(canteen, rows[..i], close)
    {
      var dish := ParseDish(canteen, rows[i], close);
      MapSeqSnoc(DishMaker(canteen, close), rows, i);
      dishes := dishes + [dish];
    }
    assert rows[..|rows|] == rows;
  }

  /** The columns are zipped: there are as many dishes as the shortest column has entries,
      and dish `i` takes its name, type and markers from row `i` of the columns. */
  lemma DayDishesRows(canteen: Canteen, titles: seq<string>, typeTexts: seq<string>,
                      additional: seq<string>, allergens: seq<string>, typeMarkers: seq<string>,
                      meatless: seq<string>, close: set<Label> -> set<Label>,
                      makeUnique: seq<string> -> seq<string>, i: int)
    requires 0 <= i < |DayDishes(canteen, titles, typeTexts, additional, allergens, typeMarkers, meatless, close, makeUnique)|
    ensures var names := DishNames(titles, makeUnique);
      var d := DayDishes(canteen, titles, typeTexts, additional, allergens, typeMarkers, meatless, close, makeUnique)[i];
      i < |names| && i < |typeTexts| && i < |additional| && i < |allergens| && i < |typeMarkers| && i < |meatless|
      && d.name == names[i] && d.dishType == LastNonEmpty(typeTexts[..i + 1])
      && d.labels == DishLabels(additional[i], allergens[i], typeMarkers[i], meatless[i], close)
      && d.prices == DishPrices(canteen, d.dishType, allergens[i], meatless[i], names[i])
  {
    var rows := Zip(DishNames(titles, makeUnique), ForwardFill(typeTexts), additional, allergens, typeMarkers, meatless);
    assert rows[i].dishType == LastNonEmpty(typeTexts[..i + 1]);
  }

  /** The body of the zip loop of `__parse_dishes`: one dish from the name, type and markers of
      its row. */
  method ParseDish(canteen: Canteen, row: Row, close: set<Label> -> set<Label>) returns (dish: Dish)
    ensures dish == MakeDish(canteen, row, close)
  {
    var a := ParseLabel(StudentenwerkTable, row.additional, close);
    var b := ParseLabel(StudentenwerkTable, row.allergen, close);
    var c := ParseLabel(StudentenwerkTable, row.typeMarker, close);
    var labels := AddDiet(a + b + c, row.meatless, close);
    var prices;
    if row.dishType == "Beilagen" {
      prices := SelfServicePrices(VegetarianSoupStew, Classic);
    } else {
      prices := GetPrice(canteen, row.dishType, row.allergen, row.meatless, row.name);
    }
    dish := Dish(row.name, prices, labels, row.dishType);
  }

  /** Side dishes cost nothing up front and are weighed at the classic rate. */
  lemma SideDishesWeighed(canteen: Canteen, allergen: string, meatless: string, name: string)
    ensures var p := DishPrices(canteen, "Beilagen", allergen, meatless, name);
      Ordered(p) && p.students.value.baseCents == 0 && p.guests.value.baseCents == 0
      && p.students.value.perUnitCents == Some(90) && p.guests.value.perUnitCents == Some(160)
  {
  }

  /** With a closure that only adds labels, a dish carries every label of its three markers
      and the diet label of its meatless marker. */
  lemma DishLabelsComplete(additional: string, allergen: string, typeMarker: string, meatless: string,
                           close: set<Label> -> set<Label>)
    requires Extensive(close)
    ensures var l := DishLabels(additional, allergen, typeMarker, meatless, close);
      LabelSet(StudentenwerkTable, additional, close) <= l
      && LabelSet(StudentenwerkTable, allergen, close) <= l
      && LabelSet(StudentenwerkTable, typeMarker, close) <= l
      && (meatless == "1" ==> Vegetarian in l) && (meatless == "2" ==> Vegan in l)
  {
    var found := LabelSet(StudentenwerkTable, additional, close) + LabelSet(StudentenwerkTable, allergen, close)
      + LabelSet(StudentenwerkTable, typeMarker, close);
    AddDietLabels(found, meatless, close);
  }

  /** `get_menu`'s result for one day of the page: the day's date, None when
      `extract_date_from_html` could not parse its text, and the day's dishes. */
  datatype DayMenu = DayMenu(date: Option<Date>, dishes: seq<Dish>)

  /** Index of the first day that failed, or the number of days. */
  function FirstFailure<T>(days: seq<Result<T>>): (n: nat)
    ensures n <= |days|
    ensures forall k :: 0 <= k < n ==> days[k].Ok?
    ensures n < |days| ==> days[n].Err?
  {
    if days == [] || days[0].Err? then 0
    else
      var n := 1 + FirstFailure(days[1..]);
      assert forall k :: 1 <= k < n ==> days[k] == days[1..][k - 1];
      n
  }

  /** The menus of the days before the first failure. */
  function MenusBeforeFailure(days: seq<Result<DayMenu>>): seq<DayMenu> {
    var n := FirstFailure(days);
    seq(n, k requires 0 <= k < n => days[k].value)
  }

  /** `menus[menu.menu_date] = menu` over a sequence of day menus: each is stored under its
      date, None included, a later one replacing an earlier one of the same date. */
  function MenusByDate(ms: seq<DayMenu>): map<Option<Date>, DayMenu> {
    if ms == [] then map[] else MenusByDate(ms[..|ms| - 1])[ms[|ms| - 1].date := ms[|ms| - 1]]
  }

  /** The keys are exactly the dates of the day menus, and each key holds a day menu of
      that date. */
  lemma {:induction false} MenusByDateContents(ms: seq<DayMenu>)
    ensures forall d :: d in MenusByDate(ms) <==> exists k :: 0 <= k < |ms| && ms[k].date == d
    ensures forall d :: d in MenusByDate(ms) ==> MenusByDate(ms)[d].date == d
  {
    if ms != [] {
      var n := |ms| - 1;
      MenusByDateContents(ms[..n]);
      assert MenusByDate(ms) == MenusByDate(ms[..n])[ms[n].date := ms[n]];
      forall d | d in MenusByDate(ms) ensures exists k :: 0 <= k < |ms| && ms[k].date == d {
        if d != ms[n].date {
          var k :| 0 <= k < n && ms[..n][k].date == d;
          assert ms[k] == ms[..n][k];
        }
      }
      forall k | 0 <= k < n ensures ms[k].date in MenusByDate(ms) {
        assert ms[..n][k] == ms[k];
      }
    }
  }

  /** The day loop of `StudentenwerkMenuParser.parse`: each day's menu is stored under its
      date, a day whose date did not parse under None. The whole loop sits inside one
      `try`, so the first day that raises ends it, and the menus stored so far are
      returned. */
  method CollectMenus(days: seq<Result<DayMenu>>) returns (menus: map<Option<Date>, DayMenu>)
    ensures menus == MenusByDate(MenusBeforeFailure(days))
  {
    menus := map[];
    ghost var ok := MenusBeforeFailure(days);
    var i := 0;
    while i < |days| && days[i].Ok?
      invariant 0 <= i <= FirstFailure(days)
      invariant menus == MenusByDate(ok[..i])
    {
      assert ok[..i + 1][..i] == ok[..i];
      menus := menus[days[i].value.date := days[i].value];
      i := i + 1;
    }
    assert ok[..i] == ok;
  }

  /** A day after a failing day is never stored, whatever it holds, while a day whose date
      did not parse is stored under None and the days after it are still read: the keys
      are exactly the dates, None included, of the days before the first failure. */
  lemma CollectedDates(days: seq<Result<DayMenu>>, d: Option<Date>)
    ensures d in MenusByDate(MenusBeforeFailure(days)) <==>
      exists k :: 0 <= k < FirstFailure(days) && days[k].value.date == d
    ensures d in MenusByDate(MenusBeforeFailure(days)) ==> MenusByDate(MenusBeforeFailure(days))[d].date == d
  {
    var ms := MenusBeforeFailure(days);
    MenusByDateContents(ms);
    if d in MenusByDate(ms) {
      var k :| 0 <= k < |ms| && ms[k].date == d;
      assert days[k].value == ms[k];
    }
    if exists k :: 0 <= k < FirstFailure(days) && days[k].value.date == d {
      var k :| 0 <= k < FirstFailure(days) && days[k].value.date == d;
      assert ms[k] == days[k].value;
    }
  }

  /** An undated day does not stop the loop: with no failure, a dated day after it is
      still stored. */
  lemma UndatedDayKept(dishes: seq<Dish>, later: Date, laterDishes: seq<Dish>)
    ensures var days := [Ok(DayMenu(None, dishes)), Ok(DayMenu(Some(later), laterDishes))];
      var menus := MenusByDate(MenusBeforeFailure(days));
      None in menus && Some(later) in menus && menus[Some(later)].dishes == laterDishes
  {
    var days := [Ok(DayMenu(None, dishes)), Ok(DayMenu(Some(later), laterDishes))];
    assert FirstFailure(days[1..][1..]) == 0;
    assert MenusBeforeFailure(days) == [DayMenu(None, dishes), DayMenu(Some(later), laterDishes)];
  }
}
