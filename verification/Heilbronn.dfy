/** `MensaBildungscampusHeilbronnParser`: the OpenMensa feed of the Heilbronn canteen. The
    downloads are inputs: the list of days, and per open day the meals page or None when
    the download failed. Parsing a date string (`strptime` with `%Y-%m-%d`) is a parameter
    that gives the date or the error `strptime` raises (a ValueError for a malformed one). */
module Heilbronn {
  import opened Common
  import opened IsoDates
  import opened Entities

  /** An element of the `/days` answer. */
  datatype DayRecord = DayRecord(date: string, closed: bool)

  /** An element of a `/days/<date>/meals` answer; a price the feed leaves out is None. */
  datatype MealRecord = MealRecord(name: string, students: Option<int>, employees: Option<int>,
                                   others: Option<int>, category: string)

  /** `__get_available_dates`: the dates of the days that are not closed, in order. */
  function AvailableDates(days: seq<DayRecord>): (r: seq<string>)
    ensures |r| <= |days|
  {
    if days == [] then []
    else (if days[0].closed then [] else [days[0].date]) + AvailableDates(days[1..])
  }

  /** The available dates are exactly the dates of the open days, in their order: dropping
      the closed days and keeping the rest. */
  lemma {:induction false} AvailableDatesOpen(days: seq<DayRecord>)
    ensures forall s :: s in AvailableDates(days) <==> exists k :: 0 <= k < |days| && !days[k].closed && days[k].date == s
    ensures (forall k :: 0 <= k < |days| ==> !days[k].closed) ==> |AvailableDates(days)| == |days|
    ensures (forall k :: 0 <= k < |days| ==> days[k].closed) ==> AvailableDates(days) == []
  {
    if days != [] {
      AvailableDatesOpen(days[1..]);
      assert forall k :: 1 <= k < |days| ==> days[k] == days[1..][k - 1];
      forall s | s in AvailableDates(days[1..]) ensures exists k :: 0 <= k < |days| && !days[k].closed && days[k].date == s {
        var k :| 0 <= k < |days[1..]| && !days[1..][k].closed && days[1..][k].date == s;
        assert days[k + 1] == days[1..][k];
      }
    }
  }

  /** `mutate` of `parse`: a meal becomes a dish priced per portion with a zero base, no
      labels, and its category as type. */
  function MealDish(meal: MealRecord): Dish {
    Dish(meal.name,
         Prices(Some(Price(0, meal.students, Some("Portion"))), Some(Price(0, meal.employees, Some("Portion"))),
                Some(Price(0, meal.others, Some("Portion")))),
         {}, meal.category)
  }

  /** `list(map(mutate, meals))` */
  function MealDishes(meals: seq<MealRecord>): (r: seq<Dish>)
    ensures |r| == |meals|
  {
    if meals == [] then [] else [MealDish(meals[0])] + MealDishes(meals[1..])
  }

  /** Each meal becomes exactly one dish, in order, with the meal's name, category and
      per-portion prices and no labels. */
  lemma {:induction false} MealDishesOneForOne(meals: seq<MealRecord>)
    ensures forall k :: 0 <= k < |meals| ==>
      var d := MealDishes(meals)[k];
      d.name == meals[k].name && d.dishType == meals[k].category && d.labels == {}
      && d.prices.students == Some(Price(0, meals[k].students, Some("Portion")))
      && d.prices.staff == Some(Price(0, meals[k].employees, Some("Portion")))
      && d.prices.guests == Some(Price(0, meals[k].others, Some("Portion")))
  {
    forall k | 0 <= k < |meals|
      ensures MealDishes(meals)[k] == MealDish(meals[k])
    {
      MealDishAt(meals, k);
    }
  }

  /** The dish at position `k` is made from the meal at position `k`. */
  lemma {:induction false} MealDishAt(meals: seq<MealRecord>, k: nat)
    requires k < |meals|
    ensures MealDishes(meals)[k] == MealDish(meals[k])
  {
    if k > 0 {
      MealDishAt(meals[1..], k - 1);
    }
  }

  /** The menus of the dates whose meals page downloaded, in order; a failed download
      leaves its date out. Each date string is read before its page is looked at, so a
      date that does not read fails the whole loop with its error, downloaded or not. */
  function DayMenus(dates: seq<string>, pages: seq<Option<seq<MealRecord>>>, parseDate: string -> Result<Date>)
    : (r: Result<seq<Menu>>)
    requires |pages| == |dates|
    ensures r.Ok? ==> |r.value| <= |dates|
  {
    if dates == [] then Ok([])
    else
      var n := |dates| - 1;
      match DayMenus(dates[..n], pages[..n], parseDate)
      case Err(e) => Err(e)
      case Ok(ms) =>
        match parseDate(dates[n])
        case Err(e) => Err(e)
        case Ok(d) => Ok(ms + if pages[n].Some? then [Menu(d, MealDishes(pages[n].value))] else [])
  }

  /** The loop fails exactly when some date does not read, and then with the error of the
      first such date. */
  lemma {:induction false} DayMenusFail(dates: seq<string>, pages: seq<Option<seq<MealRecord>>>, parseDate: string -> Result<Date>)
    requires |pages| == |dates|
    ensures DayMenus(dates, pages, parseDate).Ok? <==> forall k :: 0 <= k < |dates| ==> parseDate(dates[k]).Ok?
    ensures DayMenus(dates, pages, parseDate).Err? ==>
      exists k :: 0 <= k < |dates| && parseDate(dates[k]) == Err(DayMenus(dates, pages, parseDate).error)
                  && forall j :: 0 <= j < k ==> parseDate(dates[j]).Ok?
  {
    if dates != [] {
      var n := |dates| - 1;
      var ds, ps := dates[..n], pages[..n];
      DayMenusFail(ds, ps, parseDate);
      assert forall k :: 0 <= k < n ==> ds[k] == dates[k];
      var init := DayMenus(ds, ps, parseDate);
      if init.Err? {
        var k :| 0 <= k < |ds| && parseDate(ds[k]) == Err(init.error) && forall j :: 0 <= j < k ==> parseDate(ds[j]).Ok?;
        assert parseDate(dates[k]) == Err(DayMenus(dates, pages, parseDate).error);
      }
    }
  }

  /** `m` is the menu of one of the pages that downloaded, under that page's date. */
  predicate FromPage(m: Menu, dates: seq<string>, pages: seq<Option<seq<MealRecord>>>, parseDate: string -> Result<Date>)
    requires |pages| == |dates|
  {
    exists k :: 0 <= k < |dates| && pages[k].Some? && parseDate(dates[k]) == Ok(m.date)
                && m.dishes == MealDishes(pages[k].value)
  }

  /** Every menu comes from a downloaded page. */
  lemma {:induction false} DayMenusFromPages(dates: seq<string>, pages: seq<Option<seq<MealRecord>>>, parseDate: string -> Result<Date>)
    requires |pages| == |dates| && DayMenus(dates, pages, parseDate).Ok?
    ensures forall m :: m in DayMenus(dates, pages, parseDate).value ==> FromPage(m, dates, pages, parseDate)
  {
    if dates != [] {
      var n := |dates| - 1;
      var ds, ps := dates[..n], pages[..n];
      DayMenusFromPages(ds, ps, parseDate);
      var init := DayMenus(ds, ps, parseDate).value;
      var last := if pages[n].Some? then [Menu(parseDate(dates[n]).value, MealDishes(pages[n].value))] else [];
      assert DayMenus(dates, pages, parseDate).value == init + last;
      forall m | m in init + last
        ensures FromPage(m, dates, pages, parseDate)
      {
        if m in init {
          assert FromPage(m, ds, ps, parseDate);
          var k :| 0 <= k < |ds| && ps[k].Some? && parseDate(ds[k]) == Ok(m.date) && m.dishes == MealDishes(ps[k].value);
          assert ds[k] == dates[k] && ps[k] == pages[k];
        } else {
          assert m == Menu(parseDate(dates[n]).value, MealDishes(pages[n].value));
        }
      }
    }
  }

  /** Every downloaded page makes a menu under its date. */
  lemma {:induction false} PagesMakeMenus(dates: seq<string>, pages: seq<Option<seq<MealRecord>>>, parseDate: string -> Result<Date>)
    requires |pages| == |dates| && DayMenus(dates, pages, parseDate).Ok?
    ensures forall k :: 0 <= k < |dates| && pages[k].Some? ==>
      parseDate(dates[k]).Ok?
      && Menu(parseDate(dates[k]).value, MealDishes(pages[k].value)) in DayMenus(dates, pages, parseDate).value
  {
    if dates != [] {
      var n := |dates| - 1;
      var ds, ps := dates[..n], pages[..n];
      PagesMakeMenus(ds, ps, parseDate);
      var init := DayMenus(ds, ps, parseDate).value;
      var last := if pages[n].Some? then [Menu(parseDate(dates[n]).value, MealDishes(pages[n].value))] else [];
      assert DayMenus(dates, pages, parseDate).value == init + last;
      forall k | 0 <= k < |dates| && pages[k].Some?
        ensures parseDate(dates[k]).Ok?
        ensures Menu(parseDate(dates[k]).value, MealDishes(pages[k].value)) in init + last
      {
        if k < n {
          assert ds[k] == dates[k] && ps[k] == pages[k];
        }
      }
    }
  }

  /** `parse`: each menu is stored under its date, a later page of the same date replacing
      an earlier one; a date that does not read is the ValueError of `strptime`. */
  function HeilbronnMenus(dates: seq<string>, pages: seq<Option<seq<MealRecord>>>, parseDate: string -> Result<Date>)
    : Result<map<Date, Menu>>
    requires |pages| == |dates|
  {
    match DayMenus(dates, pages, parseDate)
    case Err(e) => Err(e)
    case Ok(ms) => Ok(ByDate(ms))
  }

  /** The menus are keyed by exactly the dates of the pages that downloaded: each such date
      is a key, and each key holds, under its own date, the menu of a downloaded page. */
  lemma HeilbronnMenusKeys(dates: seq<string>, pages: seq<Option<seq<MealRecord>>>, parseDate: string -> Result<Date>)
    requires |pages| == |dates| && HeilbronnMenus(dates, pages, parseDate).Ok?
    ensures var m := HeilbronnMenus(dates, pages, parseDate).value;
      (forall k :: 0 <= k < |dates| && pages[k].Some? ==> parseDate(dates[k]).Ok? && parseDate(dates[k]).value in m)
      && forall d :: d in m ==> m[d].date == d && FromPage(m[d], dates, pages, parseDate)
  {
    var ms := DayMenus(dates, pages, parseDate).value;
    DayMenusFromPages(dates, pages, parseDate);
    PagesMakeMenus(dates, pages, parseDate);
    ByDateContents(ms);
    forall k | 0 <= k < |dates| && pages[k].Some?
      ensures parseDate(dates[k]).value in ByDate(ms)
    {
      var m := Menu(parseDate(dates[k]).value, MealDishes(pages[k].value));
      var j :| 0 <= j < |ms| && ms[j] == m;
    }
    forall d | d in ByDate(ms)
      ensures FromPage(ByDate(ms)[d], dates, pages, parseDate)
    {
      var j := LastOfDate(ms, d);
      assert ms[j] in ms;
    }
  }

  /** The position of the last menu of a stored date. */
  lemma LastOfDate(ms: seq<Menu>, d: Date) returns (j: nat)
    requires d in ByDate(ms)
    ensures j < |ms| && ByDate(ms)[d] == ms[j]
  {
    ByDateContents(ms);
    var k :| 0 <= k < |ms| && ms[k].date == d;
    j := k;
    while exists i :: j < i < |ms| && ms[i].date == d
      invariant k <= j < |ms| && ms[j].date == d
      decreases |ms| - j
    {
      var i :| j < i < |ms| && ms[i].date == d;
      j := i;
    }
  }

  /** `parse`, with the source's loop over the available dates. */
  method Parse(dates: seq<string>, pages: seq<Option<seq<MealRecord>>>, parseDate: string -> Result<Date>)
    returns (r: Result<map<Date, Menu>>)
    requires |pages| == |dates|
    ensures r == HeilbronnMenus(dates, pages, parseDate)
  {
    var menus: map<Date, Menu> := map[];
    ghost var made: seq<Menu> := [];
    for i := 0 to |dates|
      invariant DayMenus(dates[..i], pages[..i], parseDate) == Ok(made) && menus == ByDate(made)
    {
      var dateobj := parseDate(dates[i]);
      DayMenusStep(dates, pages, parseDate, i, made);
      if dateobj.Err? {
        DayMenusFailLater(dates, pages, parseDate, i + 1);
        return Err(dateobj.error);
      }
      if pages[i].Some? {
        var menu := Menu(dateobj.value, MealDishes(pages[i].value));
        assert (made + [menu])[..|made|] == made;
        menus := menus[dateobj.value := menu];
        made := made + [menu];
      }
    }
    assert dates[..|dates|] == dates && pages[..|pages|] == pages;
    r := Ok(menus);
  }

  /** One more date of the loop: it fails when the date does not read, and otherwise adds
      the menu of its page when the page downloaded. */
  lemma DayMenusStep(dates: seq<string>, pages: seq<Option<seq<MealRecord>>>, parseDate: string -> Result<Date>,
                     i: nat, made: seq<Menu>)
    requires |pages| == |dates| && i < |dates| && DayMenus(dates[..i], pages[..i], parseDate) == Ok(made)
    ensures DayMenus(dates[..i + 1], pages[..i + 1], parseDate)
      == match parseDate(dates[i])
         case Err(e) => Err(e)
         case Ok(d) => Ok(if pages[i].Some? then made + [Menu(d, MealDishes(pages[i].value))] else made)
  {
    assert dates[..i + 1][..i] == dates[..i] && pages[..i + 1][..i] == pages[..i];
    assert made + [] == made;
  }

  /** Once the dates up to `i` fail, the later dates do not change the outcome. */
  lemma {:induction false} DayMenusFailLater(dates: seq<string>, pages: seq<Option<seq<MealRecord>>>,
                                             parseDate: string -> Result<Date>, i: nat)
    requires |pages| == |dates| && i <= |dates| && DayMenus(dates[..i], pages[..i], parseDate).Err?
    ensures DayMenus(dates, pages, parseDate) == DayMenus(dates[..i], pages[..i], parseDate)
    decreases |dates|
  {
    if i < |dates| {
      var n := |dates| - 1;
      assert dates[..n][..i] == dates[..i] && pages[..n][..i] == pages[..i];
      DayMenusFailLater(dates[..n], pages[..n], parseDate, i);
    } else {
      assert dates[..i] == dates && pages[..i] == pages;
    }
  }
}
