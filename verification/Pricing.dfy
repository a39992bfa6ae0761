/** Studentenwerk price rules: the self-service price types, the fixed price list of the
    Weihenstephan and Lothstraße canteens, and `StudentenwerkMenuParser.__get_price`.
    Amounts are in euro cents. */
module Pricing {
  import opened Common
  import opened Entities

  /** `SelfServiceBasePriceType`: the base price of a self-service dish per customer group. */
  datatype BasePriceType = VegetarianSoupStew | Sausage | MeatDish | FishDish | PizzaVeggie | PizzaMeat

  /** `SelfServicePricePerUnitType`: the price per 100 g per customer group. */
  datatype PerUnitType = Classic | SoupStew | PizzaUnit

  datatype Triple = Triple(students: int, staff: int, guests: int)

  function BaseAmounts(t: BasePriceType): Triple {
    match t
    case VegetarianSoupStew => Triple(0, 0, 0)
    case Sausage => Triple(50, 50, 50)
    case MeatDish => Triple(100, 100, 100)
    case FishDish => Triple(150, 150, 150)
    case PizzaVeggie => Triple(450, 500, 600)
    case PizzaMeat => Triple(500, 550, 650)
  }

  function PerUnitAmounts(t: PerUnitType): Triple {
    match t
    case Classic => Triple(90, 115, 160)
    case SoupStew => Triple(33, 115, 160)
    case PizzaUnit => Triple(0, 0, 0)
  }

  const SelfServiceUnit: string := "100g"

  /** Every group pays at least as much as the one before it: students, staff, guests. */
  predicate Ordered(p: Prices) {
    p.students.Some? && p.staff.Some? && p.guests.Some?
    && p.students.value.baseCents <= p.staff.value.baseCents <= p.guests.value.baseCents
    && (p.students.value.perUnitCents.Some? <==> p.staff.value.perUnitCents.Some?)
    && (p.staff.value.perUnitCents.Some? <==> p.guests.value.perUnitCents.Some?)
    && (p.students.value.perUnitCents.Some? ==>
          p.students.value.perUnitCents.value <= p.staff.value.perUnitCents.value <= p.guests.value.perUnitCents.value)
  }

  /** `__get_self_service_prices`: each group gets the base price of its group and the
      per-unit price of its group, per "100g". */
  function SelfServicePrices(base: BasePriceType, perUnit: PerUnitType): (r: Prices)
    ensures Ordered(r)
    ensures r.students.value.unit == r.staff.value.unit == r.guests.value.unit == Some(SelfServiceUnit)
    ensures r.students.value.baseCents == BaseAmounts(base).students
    ensures r.students.value.perUnitCents == Some(PerUnitAmounts(perUnit).students)
    ensures r.staff.value == Price(BaseAmounts(base).staff, Some(PerUnitAmounts(perUnit).staff), Some(SelfServiceUnit))
    ensures r.guests.value == Price(BaseAmounts(base).guests, Some(PerUnitAmounts(perUnit).guests), Some(SelfServiceUnit))
  {
    var b := BaseAmounts(base);
    var u := PerUnitAmounts(perUnit);
    Prices(Some(Price(b.students, Some(u.students), Some(SelfServiceUnit))),
           Some(Price(b.staff, Some(u.staff), Some(SelfServiceUnit))),
           Some(Price(b.guests, Some(u.guests), Some(SelfServiceUnit))))
  }

  function Fixed(students: int, staff: int, guests: int): Prices {
    Prices(Some(Flat(students)), Some(Flat(staff)), Some(Flat(guests)))
  }

  function PerHundredGrams(students: int, staff: int, guests: int): Prices {
    Prices(Some(Price(0, Some(students), Some("100g"))), Some(Price(0, Some(staff), Some("100g"))),
           Some(Price(0, Some(guests), Some("100g"))))
  }

  /** `prices_mensa_weihenstephan_mensa_lothstrasse`, keyed by dish type. */
  const FixedPriceList: map<string, Prices> := map[
    "StudiTopf" := Fixed(100, 290, 390),
    "Gericht 1" := Fixed(295, 390, 510),
    "Gericht 2" := Fixed(335, 460, 590),
    "Gericht 3" := Fixed(365, 495, 630),
    "Gericht 4" := Fixed(415, 530, 670),
    "Gericht 5" := Fixed(465, 565, 710),
    "Gericht 6" := Fixed(525, 625, 780),
    "Beilage 1" := Fixed(80, 105, 150),
    "Brot" := Fixed(80, 105, 150),
    "Obst" := Fixed(80, 105, 150),
    "Beilage 2" := Fixed(90, 125, 170),
    "Beilage 3" := Fixed(110, 145, 200),
    "Beilage 4" := Fixed(160, 180, 260),
    "Pizza - Veggie" := Fixed(450, 500, 600),
    "Pizza - Wurst. Schinken. Fisch. Meeresfrüchte" := Fixed(500, 550, 650),
    "Salatbuffet" := PerHundredGrams(90, 115, 160)]

  /** The canteens that use the fixed price list instead of the self-service rules. */
  predicate UsesFixedList(c: Canteen) {
    c == MensaWeihenstephan || c == MensaLothstr
  }

  /** The name test for sausages: `"wurst"` or `"würstchen"` in the lower-cased name. */
  predicate IsSausageName(name: string) {
    Contains(Lower(name), "wurst") || Contains(Lower(name), "würstchen")
  }

  /** The base price type `__get_price` settles on before the pizza rule: meat dishes
      (meatless marker "0", not the "Studitopf") are fish when the allergen marker holds "Fi",
      else sausage by name, else meat; every other dish is vegetarian / soup / stew. */
  function BaseTypeBeforePizza(dishType: string, allergen: string, meatless: string, name: string): BasePriceType {
    if dishType != "Studitopf" && meatless == "0" then
      if Contains(allergen, "Fi") then FishDish
      else if IsSausageName(name) then Sausage
      else MeatDish
    else VegetarianSoupStew
  }

  /** `StudentenwerkMenuParser.__get_price(canteen, dish, dish_name)`; `dishType` is the dish
      type column, `allergen` and `meatless` the allergen and meatless markers. */
  function GetPrice(canteen: Canteen, dishType: string, allergen: string, meatless: string, name: string): (r: Prices)
    ensures UsesFixedList(canteen) && dishType in FixedPriceList ==> r == FixedPriceList[dishType]
    ensures UsesFixedList(canteen) && dishType !in FixedPriceList ==> r == NoPrices
    ensures !UsesFixedList(canteen) ==> Ordered(r) && r.students.value.unit == Some(SelfServiceUnit)
    ensures !UsesFixedList(canteen) ==>
      r == SelfServicePrices(
        if dishType == "Pizza" then (if meatless == "0" then PizzaMeat else PizzaVeggie)
        else BaseTypeBeforePizza(dishType, allergen, meatless, name),
        if dishType == "Pizza" then PizzaUnit else if dishType == "Studitopf" then SoupStew else Classic)
  {
    if UsesFixedList(canteen) then
      if dishType in FixedPriceList then FixedPriceList[dishType] else NoPrices
    else
      var perUnit := if dishType == "Studitopf" then SoupStew else Classic;
      var base := BaseTypeBeforePizza(dishType, allergen, meatless, name);
      if dishType == "Pizza" then
        SelfServicePrices(if meatless == "0" then PizzaMeat else PizzaVeggie, PizzaUnit)
      else SelfServicePrices(base, perUnit)
  }

  /** The self-service classification by outcome: for a canteen without the fixed list, the
      students' base price says which rule applied. */
  lemma SelfServiceClassification(canteen: Canteen, dishType: string, allergen: string, meatless: string, name: string)
    requires !UsesFixedList(canteen)
    ensures var r := GetPrice(canteen, dishType, allergen, meatless, name);
      var meaty := dishType != "Studitopf" && dishType != "Pizza" && meatless == "0";
      (r.students.value.baseCents == 150 <==> meaty && Contains(allergen, "Fi"))
      && (r.students.value.baseCents == 50 <==> meaty && !Contains(allergen, "Fi") && IsSausageName(name))
      && (r.students.value.baseCents == 100 <==> meaty && !Contains(allergen, "Fi") && !IsSausageName(name))
      && (r.students.value.baseCents == 0 <==> dishType != "Pizza" && !meaty)
      && (r.students.value.baseCents == 500 <==> dishType == "Pizza" && meatless == "0")
      && (r.students.value.baseCents == 450 <==> dishType == "Pizza" && meatless != "0")
      && (r.students.value.perUnitCents == Some(33) <==> dishType == "Studitopf")
      && (r.students.value.perUnitCents == Some(0) <==> dishType == "Pizza")
  {
  }

  /** Every entry of the fixed price list is ordered students, staff, guests. */
  lemma {:induction false} FixedPriceListOrdered(key: string)
    requires key in FixedPriceList
    ensures Ordered(FixedPriceList[key])
  {
    var fixedKeys := {"StudiTopf", "Gericht 1", "Gericht 2", "Gericht 3", "Gericht 4", "Gericht 5",
      "Gericht 6", "Beilage 1", "Brot", "Obst", "Beilage 2", "Beilage 3", "Beilage 4",
      "Pizza - Veggie", "Pizza - Wurst. Schinken. Fisch. Meeresfrüchte"};
    if key in fixedKeys {
      var p := FixedPriceList[key];
      assert p.students.value.perUnitCents.None?;
    }
  }

  /** Whatever the canteen and dish, a price that is given is ordered students, staff, guests. */
  lemma PricesOrdered(canteen: Canteen, dishType: string, allergen: string, meatless: string, name: string)
    ensures var r := GetPrice(canteen, dishType, allergen, meatless, name);
      r == NoPrices || Ordered(r)
  {
    if UsesFixedList(canteen) && dishType in FixedPriceList {
      FixedPriceListOrdered(dishType);
    }
  }

  /** A currywurst with meatless marker "0" and no fish allergen is priced as a sausage. */
  lemma CurrywurstIsSausage(name: string)
    requires name == "Currywurst"
    ensures GetPrice(MensaGarching, "Tagesgericht 1", "Gl", "0", name).students.value.baseCents == 50
  {
    assert Lower(name)[5..10] == "wurst";
    assert OccursAt(Lower(name), "wurst", 5);
    assert !OccursAt("Gl", "Fi", 0) by {
      assert "Gl"[0..2][0] == 'G';
    }
  }
}
