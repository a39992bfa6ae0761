/** The canonical domain model the parsers produce: labels, prices, dishes, menus and the
    canteen catalog. Money is in integer euro cents. */
module Entities {
  import opened Common
  import opened IsoDates

  /** The labels the parsers' code tables and diet rules refer to. */
  datatype Label =
    | Bavaria | Msc | Dyestuff | Preservatives | Antioxidants | FlavorEnhancer | Sulphurs
    | Waxed | Phosphates | Sweeteners | Phenylalanine | CocoaContainingGrease | Gelatin
    | Alcohol | Vegetarian | Vegan | Meat | Pork | Beef | Veal | Poultry | Lamb | WildMeat
    | Garlic | ChickenEggs | Peanuts | Fish | Gluten | Wheat | Rye | Barley | Oat | Spelt
    | Hybrids | Shellfish | Lupin | Milk | Lactose | ShellFruits | Almonds | Hazelnuts
    | Walnuts | Cashews | Pecan | Pistachios | Macadamia | Sesame | Mustard | Celery | Soy
    | Sulfites | Molluscs

  /** `Price(base_price, price_per_unit, unit)`; the optional arguments may be absent. */
  datatype Price = Price(baseCents: int, perUnitCents: Option<int>, unit: Option<string>)

  /** `Prices(students, staff, guests)`; a class that is not given is absent, so `Prices()`
      is all three absent. */
  datatype Prices = Prices(students: Option<Price>, staff: Option<Price>, guests: Option<Price>)

  const NoPrices: Prices := Prices(None, None, None)

  /** A flat price with neither per-unit amount nor unit, as `Price(x)`. */
  function Flat(cents: int): Price { Price(cents, None, None) }

  datatype Dish = Dish(name: string, prices: Prices, labels: set<Label>, dishType: string)

  datatype Menu = Menu(date: Date, dishes: seq<Dish>)

  /** The dictionary `menus[menu.menu_date] = menu` builds from a sequence of menus: each
      menu is stored under its date, a later menu replacing an earlier one of the same date. */
  function ByDate(ms: seq<Menu>): map<Date, Menu> {
    if ms == [] then map[] else ByDate(ms[..|ms| - 1])[ms[|ms| - 1].date := ms[|ms| - 1]]
  }

  /** The keys are exactly the dates of the menus, each date holds the last menu with that
      date, and so every menu is stored under its own date. */
  lemma {:induction false} ByDateContents(ms: seq<Menu>)
    ensures forall d :: d in ByDate(ms) <==> exists k :: 0 <= k < |ms| && ms[k].date == d
    ensures forall k :: 0 <= k < |ms| && (forall j :: k < j < |ms| ==> ms[j].date != ms[k].date) ==>
      ms[k].date in ByDate(ms) && ByDate(ms)[ms[k].date] == ms[k]
    ensures forall d :: d in ByDate(ms) ==> ByDate(ms)[d].date == d
  {
    ByDateKeys(ms);
    ByDateLast(ms);
    ByDateDates(ms);
  }

  lemma {:induction false} ByDateKeys(ms: seq<Menu>)
    ensures forall d :: d in ByDate(ms) <==> exists k :: 0 <= k < |ms| && ms[k].date == d
  {
    if ms != [] {
      var init := ms[..|ms| - 1];
      ByDateKeys(init);
      assert ByDate(ms) == ByDate(init)[ms[|ms| - 1].date := ms[|ms| - 1]];
      forall d | d in ByDate(ms) ensures exists k :: 0 <= k < |ms| && ms[k].date == d {
        if d != ms[|ms| - 1].date {
          assert d in ByDate(init);
          var k :| 0 <= k < |init| && init[k].date == d;
          assert ms[k] == init[k];
        }
      }
      forall d | exists k :: 0 <= k < |ms| && ms[k].date == d ensures d in ByDate(ms) {
        var k :| 0 <= k < |ms| && ms[k].date == d;
        if k < |ms| - 1 {
          assert init[k] == ms[k];
        }
      }
    }
  }

  lemma {:induction false} ByDateLast(ms: seq<Menu>)
    ensures forall k :: 0 <= k < |ms| && (forall j :: k < j < |ms| ==> ms[j].date != ms[k].date) ==>
      ms[k].date in ByDate(ms) && ByDate(ms)[ms[k].date] == ms[k]
  {
    if ms != [] {
      var init := ms[..|ms| - 1];
      ByDateLast(init);
      forall k | 0 <= k < |ms| && (forall j :: k < j < |ms| ==> ms[j].date != ms[k].date)
        ensures ms[k].date in ByDate(ms) && ByDate(ms)[ms[k].date] == ms[k]
      {
        if k < |ms| - 1 {
          assert ms[k] == init[k];
          assert forall j :: k < j < |init| ==> init[j] == ms[j];
        }
      }
    }
  }

  lemma {:induction false} ByDateDates(ms: seq<Menu>)
    ensures forall d :: d in ByDate(ms) ==> ByDate(ms)[d].date == d
  {
    if ms != [] {
      ByDateDates(ms[..|ms| - 1]);
    }
  }

  /** The canteens the parsers declare support for, and the IPP bistro. */
  datatype Canteen =
    | MensaArcisstr | MensaGarching | MensaLeopoldstr | MensaLothstr | MensaMartinsried
    | MensaPasing | MensaWeihenstephan | StubistroArcisstr | StubistroGoethestr
    | StubistroButenandstr | StubistroRosenheim | StubistroSchellingstr
    | StubistroMartinsried | StucafeAdalbertstr | StucafeAkademieWeihenstephan
    | StucafeWeihenstephanMaximus | StucafeBoltzmannstr | StucafeConnollystr
    | StucafeGarching | StucafeKarlstr | StucafePasing | FmiBistro | IppBistro
    | MedizinerMensa | MensaStraubing | MensaBildungscampusHeilbronn
}
