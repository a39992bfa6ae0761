/** The entry point's pure core: choosing a parser for a canteen, ordering each menu's dishes
    by name, and the shape of the combined JSON object. */
module Dispatch {
  import opened Common
  import opened IsoDates
  import opened Entities

  /** The parser classes `menu_parser` defines. */
  datatype ParserKind = StudentenwerkParser | FmiBistroParser | MedizinerParser | StraubingParser | HeilbronnParser

  /** The `canteens` class attribute of each parser. */
  function Supported(p: ParserKind): set<Canteen> {
    match p
    case StudentenwerkParser =>
      {MensaArcisstr, MensaGarching, MensaLeopoldstr, MensaLothstr, MensaMartinsried, MensaPasing,
       MensaWeihenstephan, StubistroArcisstr, StubistroGoethestr, StubistroButenandstr,
       StubistroRosenheim, StubistroSchellingstr, StubistroMartinsried, StucafeAdalbertstr,
       StucafeAkademieWeihenstephan, StucafeWeihenstephanMaximus, StucafeBoltzmannstr,
       StucafeConnollystr, StucafeGarching, StucafeKarlstr, StucafePasing}
    case FmiBistroParser => {FmiBistro}
    case MedizinerParser => {MedizinerMensa}
    case StraubingParser => {MensaStraubing}
    case HeilbronnParser => {MensaBildungscampusHeilbronn}
  }

  /** The support sets are pairwise disjoint, so at most one parser claims a canteen. */
  lemma SupportDisjoint(p: ParserKind, q: ParserKind, c: Canteen)
    requires c in Supported(p) && c in Supported(q)
    ensures p == q
  {
  }

  /** Looking a class name up in `menu_parser`: a name the module does not define raises
      `AttributeError`. */
  function ParserClass(name: string): Result<ParserKind> {
    if name == "StudentenwerkMenuParser" then Ok(StudentenwerkParser)
    else if name == "FMIBistroMenuParser" then Ok(FmiBistroParser)
    else if name == "MedizinerMensaMenuParser" then Ok(MedizinerParser)
    else if name == "StraubingMensaMenuParser" then Ok(StraubingParser)
    else if name == "MensaBildungscampusHeilbronnParser" then Ok(HeilbronnParser)
    else Err(AttributeError)
  }

  /** Evaluating the names of a set display one after the other; the first missing one
      raises. */
  function ResolveAll(names: seq<string>): (r: Result<seq<ParserKind>>)
    ensures r.Ok? <==> forall i :: 0 <= i < |names| ==> ParserClass(names[i]).Ok?
    ensures r.Ok? ==> |r.value| == |names| && forall i :: 0 <= i < |names| ==> r.value[i] == ParserClass(names[i]).value
    ensures r.Err? ==> r.error == AttributeError
  {
    if names == [] then Ok([])
    else match ParserClass(names[0])
      case Err(e) => Err(e)
      case Ok(p) =>
        match ResolveAll(names[1..])
        case Err(e) => Err(e)
        case Ok(ps) => Ok([p] + ps)
  }

  /** The names the `parsers` set display lists, one of them a class the module lacks. */
  const ListedNames: seq<string> := ["StudentenwerkMenuParser", "FMIBistroMenuParser", "IPPBistroMenuParser",
                                     "MedizinerMensaMenuParser", "StraubingMensaMenuParser",
                                     "MensaBildungscampusHeilbronnParser"]

  /** The parser classes that exist. */
  const DefinedNames: seq<string> := ["StudentenwerkMenuParser", "FMIBistroMenuParser",
                                      "MedizinerMensaMenuParser", "StraubingMensaMenuParser",
                                      "MensaBildungscampusHeilbronnParser"]

  /** The `for parser in parsers` search with early return, over the parsers in the order a
      set yields them. */
  method Search(parsers: seq<ParserKind>, c: Canteen) returns (r: Option<ParserKind>)
    ensures r.Some? ==> r.value in parsers && c in Supported(r.value)
    ensures r.None? <==> forall i :: 0 <= i < |parsers| ==> c !in Supported(parsers[i])
  {
    for i := 0 to |parsers|
      invariant forall k :: 0 <= k < i ==> c !in Supported(parsers[k])
    {
      if c in Supported(parsers[i]) {
        return Some(parsers[i]);
      }
    }
    return None;
  }

  /** `get_menu_parsing_strategy` as written: the `parsers` set display is evaluated before
      any canteen is looked at. */
  function StrategyAsWritten(c: Canteen): Result<Option<ParserKind>> {
    match ResolveAll(ListedNames)
    case Err(e) => Err(e)
    case Ok(_) => Ok(Strategy(c))
  }

  /** As written, every canteen, even one a parser supports, ends in `AttributeError`:
      `menu_parser.IPPBistroMenuParser` does not exist. */
  lemma ListedParsersRaise(c: Canteen)
    ensures StrategyAsWritten(c) == Err(AttributeError)
    ensures Strategy(c).Some? <==> c != IppBistro
  {
    assert ParserClass(ListedNames[2]).Err?;
    StrategySupports(c);
  }

  /** The parser a canteen is meant to get: the one whose support set holds it. */
  function Strategy(c: Canteen): Option<ParserKind> {
    if c in Supported(StudentenwerkParser) then Some(StudentenwerkParser)
    else if c in Supported(FmiBistroParser) then Some(FmiBistroParser)
    else if c in Supported(MedizinerParser) then Some(MedizinerParser)
    else if c in Supported(StraubingParser) then Some(StraubingParser)
    else if c in Supported(HeilbronnParser) then Some(HeilbronnParser)
    else None
  }

  /** The intended strategy returns a parser that supports the canteen, and None exactly
      when no parser does; the IPP bistro is the one canteen left without a parser. */
  lemma StrategySupports(c: Canteen)
    ensures Strategy(c).Some? ==> c in Supported(Strategy(c).value)
    ensures Strategy(c).None? <==> forall p :: c !in Supported(p)
    ensures Strategy(c).None? <==> c == IppBistro
  {
    if Strategy(c).None? {
      forall p ensures c !in Supported(p) {
        match p
        case StudentenwerkParser =>
        case FmiBistroParser =>
        case MedizinerParser =>
        case StraubingParser =>
        case HeilbronnParser =>
      }
    }
  }

  /** `get_menu_parsing_strategy` over the parser classes that exist: whatever order the set
      yields them in, the search finds the parser meant for the canteen, and None exactly
      when no parser supports it. */
  method GetStrategy(order: seq<ParserKind>, c: Canteen) returns (r: Option<ParserKind>)
    requires forall p :: p in order
    ensures r == Strategy(c)
  {
    var resolved := ResolveAll(DefinedNames);
    assert resolved.Ok?;
    r := Search(order, c);
    StrategySupports(c);
    if r.Some? {
      if Strategy(c).Some? {
        SupportDisjoint(r.value, Strategy(c).value, c);
      }
    } else {
      forall p ensures c !in Supported(p) {
        assert p in order;
        var i :| 0 <= i < |order| && order[i] == p;
      }
    }
  }

  /** Python's `<=` on strings: lexicographic by code point, a prefix before its
      extensions. */
  predicate NameLe(a: string, b: string) {
    a == [] || (b != [] && (a[0] < b[0] || (a[0] == b[0] && NameLe(a[1..], b[1..]))))
  }

  /** Any two names are comparable. */
  lemma {:induction false} NameLeTotal(a: string, b: string)
    ensures NameLe(a, b) || NameLe(b, a)
  {
    if a != [] && b != [] && a[0] == b[0] {
      NameLeTotal(a[1..], b[1..]);
    }
  }

  /** The order is transitive. */
  lemma {:induction false} NameLeTrans(a: string, b: string, c: string)
    requires NameLe(a, b) && NameLe(b, c)
    ensures NameLe(a, c)
  {
    if a != [] && a[0] == b[0] && b[0] == c[0] {
      NameLeTrans(a[1..], b[1..], c[1..]);
    }
  }

  /** The order is antisymmetric: names that are each at most the other are equal. */
  lemma {:induction false} NameLeAntisym(a: string, b: string)
    requires NameLe(a, b) && NameLe(b, a)
    ensures a == b
  {
    if a != [] {
      NameLeAntisym(a[1..], b[1..]);
    }
  }

  /** Neighbouring dishes are in name order. */
  predicate Sorted(ds: seq<Dish>) {
    forall i :: 0 < i < |ds| ==> NameLe(ds[i - 1].name, ds[i].name)
  }

  /** Neighbour order gives the order of every pair. */
  lemma {:induction false} SortedPairs(ds: seq<Dish>, i: int, j: int)
    requires Sorted(ds) && 0 <= i <= j < |ds|
    ensures NameLe(ds[i].name, ds[j].name)
    decreases j - i
  {
    if i == j {
      NameLeRefl(ds[i].name);
    } else {
      SortedPairs(ds, i, j - 1);
      NameLeTrans(ds[i].name, ds[j - 1].name, ds[j].name);
    }
  }

  lemma {:induction false} NameLeRefl(a: string)
    ensures NameLe(a, a)
  {
    if a != [] {
      NameLeRefl(a[1..]);
    }
  }

  /** One step of sinking the new dish: swapping it with its greater left neighbour keeps
      both sorted runs sorted. */
  lemma SinkStep(s: seq<Dish>, j: int, i: int, t: seq<Dish>)
    requires 0 < j <= i < |s|
    requires Sorted(s[..j]) && Sorted(s[j..i + 1])
    requires j < i ==> NameLe(s[j - 1].name, s[j + 1].name)
    requires !NameLe(s[j - 1].name, s[j].name)
    requires t == s[j - 1 := s[j]][j := s[j - 1]]
    ensures Sorted(t[..j - 1]) && Sorted(t[j - 1..i + 1])
    ensures 1 < j ==> NameLe(t[j - 2].name, t[j].name)
  {
    NameLeTotal(s[j - 1].name, s[j].name);
    assert t[..j - 1] == s[..j - 1];
    var u, v := t[j - 1..i + 1], s[j..i + 1];
    forall k | 0 < k < |u|
      ensures NameLe(u[k - 1].name, u[k].name)
    {
      if k > 2 {
        assert u[k - 1] == v[k - 2] && u[k] == v[k - 1];
      } else if k == 2 {
        assert u[1] == s[j - 1] && u[2] == s[j + 1];
      }
    }
    if 1 < j {
      assert s[..j][j - 2] == s[j - 2] && s[..j][j - 1] == s[j - 1];
    }
  }

  /** Swapping two neighbours keeps the same dishes. */
  lemma SwapSame(s: seq<Dish>, j: int, t: seq<Dish>)
    requires 0 < j < |s|
    requires t == s[j - 1 := s[j]][j := s[j - 1]]
    ensures multiset(t) == multiset(s)
  {
    assert t == s[..j - 1] + [s[j], s[j - 1]] + s[j + 1..];
    assert s == s[..j - 1] + [s[j - 1], s[j]] + s[j + 1..];
  }

  /** Two sorted runs joined in order make one. */
  lemma JoinRuns(s: seq<Dish>, j: int, n: int)
    requires 0 <= j < n <= |s|
    requires Sorted(s[..j]) && Sorted(s[j..n])
    requires j > 0 ==> NameLe(s[j - 1].name, s[j].name)
    ensures Sorted(s[..n])
  {
    forall k | 0 < k < n
      ensures NameLe(s[..n][k - 1].name, s[..n][k].name)
    {
      if k < j {
        assert s[..n][k - 1] == s[..j][k - 1] && s[..n][k] == s[..j][k];
      } else if k > j {
        assert s[..n][k - 1] == s[j..n][k - 1 - j] && s[..n][k] == s[j..n][k - j];
      }
    }
  }

  /** `menu.dishes.sort(key=lambda dish: dish.name)`, in place: the dishes end in name order
      and are a permutation of the original ones. */
  method SortByName(a: array<Dish>)
    modifies a
    ensures Sorted(a[..])
    ensures multiset(a[..]) == multiset(old(a[..]))
  {
    for i := 0 to a.Length
      invariant Sorted(a[..i])
      invariant multiset(a[..]) == multiset(old(a[..]))
    {
      Sink(a, i);
    }
    assert a[..] == a[..a.Length];
  }

  /** One step of the insertion sort: the dish at `i` moves down past every dish whose name
      comes after its own, so the first `i + 1` dishes are in name order. */
  method Sink(a: array<Dish>, i: int)
    requires 0 <= i < a.Length && Sorted(a[..i])
    modifies a
    ensures Sorted(a[..i + 1])
    ensures multiset(a[..]) == multiset(old(a[..]))
  {
    var j := i;
    while j > 0 && !NameLe(a[j - 1].name, a[j].name)
      invariant 0 <= j <= i
      invariant Sorted(a[..j]) && Sorted(a[j..i + 1])
      invariant 0 < j < i ==> NameLe(a[j - 1].name, a[j + 1].name)
      invariant multiset(a[..]) == multiset(old(a[..]))
      decreases j
    {
      ghost var s := a[..];
      a[j - 1], a[j] := a[j], a[j - 1];
      SinkStep(s, j, i, a[..]);
      SwapSame(s, j, a[..]);
      j := j - 1;
    }
    JoinRuns(a[..], j, i + 1);
  }

  /** Each menu's dishes the way a sorted menu holds them. */
  predicate SortedMenu(before: Menu, after: Menu) {
    after.date == before.date && Sorted(after.dishes) && multiset(after.dishes) == multiset(before.dishes)
  }

  /** `for menu in menus.values(): menu.dishes.sort(...)`: every menu keeps its date and its
      dishes, now in name order; no menu is added or dropped. */
  method SortMenus(menus: map<Date, Menu>) returns (sorted: map<Date, Menu>)
    ensures sorted.Keys == menus.Keys
    ensures forall d :: d in menus ==> SortedMenu(menus[d], sorted[d])
  {
    sorted := menus;
    var todo := menus.Keys;
    while todo != {}
      invariant todo <= menus.Keys && sorted.Keys == menus.Keys
      invariant forall d :: d in menus && d !in todo ==> SortedMenu(menus[d], sorted[d])
      decreases todo
    {
      assert exists d :: d in todo by {
        if forall d :: d !in todo {
          assert false;
        }
      }
      var d :| d in todo;
      var dishes := menus[d].dishes;
      var a := new Dish[|dishes|](k requires 0 <= k < |dishes| => dishes[k]);
      assert a[..] == dishes;
      SortByName(a);
      sorted := sorted[d := menus[d].(dishes := a[..])];
      todo := todo - {d};
    }
  }

  /** `JSON_VERSION` */
  const JsonVersion: string := "2.1"

  /** The combined JSON object: `version`, `canteen_id` and `weeks`. */
  datatype Combined<J> = Combined(version: string, canteenId: string, weeks: seq<J>)

  /** `[weeks[calendar_week].to_json_obj() for calendar_week in weeks]`, the weeks in the
      order the dictionary yields them; turning a week into JSON is a parameter. */
  function WeekObjects<W, J>(weeks: seq<(int, W)>, toJson: W -> J): (r: seq<J>)
    ensures |r| == |weeks|
    ensures forall i :: 0 <= i < |weeks| ==> r[i] == toJson(weeks[i].1)
  {
    if weeks == [] then [] else [toJson(weeks[0].1)] + WeekObjects(weeks[1..], toJson)
  }

  /** The combined output of `jsonify`: none unless combining was asked for. */
  function CombinedJson<W, J>(canteenId: string, weeks: seq<(int, W)>, toJson: W -> J, combine: bool)
    : (r: Option<Combined<J>>)
    ensures r.Some? <==> combine
    ensures r.Some? ==> r.value.version == "2.1" && r.value.canteenId == canteenId
    ensures r.Some? ==> |r.value.weeks| == |weeks|
    ensures r.Some? ==> forall i :: 0 <= i < |weeks| ==> r.value.weeks[i] == toJson(weeks[i].1)
  {
    if combine then Some(Combined(JsonVersion, canteenId, WeekObjects(weeks, toJson))) else None
  }
}
