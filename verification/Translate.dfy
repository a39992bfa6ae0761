/** The translation step: a translator that caches the remote service's answers, and the
    rewriting of dish names in the JSON documents. The remote service is an oracle given
    as functions; so is the order in which a Python set yields its elements. */
module Translate {
  import opened Common

  /** `xs` lists the elements of `s`, each once. */
  ghost predicate Lists(xs: seq<string>, s: set<string>) {
    (forall x :: x in xs <==> x in s) && forall i, j :: 0 <= i < j < |xs| ==> xs[i] != xs[j]
  }

  /** A set is listed by the empty list exactly when it is empty. */
  lemma ListsEmpty(xs: seq<string>, s: set<string>)
    requires Lists(xs, s)
    ensures xs == [] <==> s == {}
  {
    if xs != [] {
      assert xs[0] in xs;
    }
    if s != {} {
      var x :| x in s;
      assert x in xs;
    }
  }

  function Min(a: int, b: int): int { if a < b then a else b }

  /** The dictionary `for k, v in pairs: d[k] = v` fills from equally long keys and values,
      pair by pair. */
  function Pairs(keys: seq<string>, values: seq<string>): map<string, string>
    requires |keys| == |values|
  {
    if keys == [] then map[]
    else
      var n := |keys| - 1;
      Pairs(keys[..n], values[..n])[keys[n] := values[n]]
  }

  /** `zip(keys, values)`: the longer side's surplus is dropped. */
  function Zip(keys: seq<string>, values: seq<string>): map<string, string> {
    var n := Min(|keys|, |values|);
    Pairs(keys[..n], values[..n])
  }

  /** The keys of the pairs are the keys given. */
  lemma {:induction false} PairsKeys(keys: seq<string>, values: seq<string>)
    requires |keys| == |values|
    ensures Pairs(keys, values).Keys == set k | k in keys
  {
    if keys != [] {
      var n := |keys| - 1;
      PairsKeys(keys[..n], values[..n]);
      assert keys == keys[..n] + [keys[n]];
    }
  }

  /** With distinct keys, each key keeps the value at its position. */
  lemma {:induction false} PairsValues(keys: seq<string>, values: seq<string>)
    requires |keys| == |values|
    requires forall i, j :: 0 <= i < j < |keys| ==> keys[i] != keys[j]
    ensures forall i :: 0 <= i < |keys| ==> keys[i] in Pairs(keys, values) && Pairs(keys, values)[keys[i]] == values[i]
  {
    if keys != [] {
      var n := |keys| - 1;
      var ks, vs := keys[..n], values[..n];
      PairsValues(ks, vs);
      forall i | 0 <= i < n
        ensures keys[i] in Pairs(keys, values) && Pairs(keys, values)[keys[i]] == values[i]
      {
        assert ks[i] == keys[i] && vs[i] == values[i];
      }
    }
  }

  /** With distinct keys, there are as many entries as pairs. */
  lemma {:induction false} PairsCount(keys: seq<string>, values: seq<string>)
    requires |keys| == |values|
    requires forall i, j :: 0 <= i < j < |keys| ==> keys[i] != keys[j]
    ensures |Pairs(keys, values).Keys| == |keys|
  {
    if keys != [] {
      var n := |keys| - 1;
      var ks, vs := keys[..n], values[..n];
      PairsCount(ks, vs);
      PairsKeys(ks, vs);
      assert keys[n] !in Pairs(ks, vs);
      assert Pairs(keys, values).Keys == Pairs(ks, vs).Keys + {keys[n]};
    }
  }

  /** `zip` pairs the first `min(|keys|, |values|)` keys with the values at their
      positions; with distinct keys that many entries result, and no other key appears. */
  lemma ZipPairs(keys: seq<string>, values: seq<string>)
    requires forall i, j :: 0 <= i < j < |keys| ==> keys[i] != keys[j]
    ensures var n := Min(|keys|, |values|);
      (forall k :: k in Zip(keys, values) <==> k in keys[..n])
      && (forall i :: 0 <= i < n ==> Zip(keys, values)[keys[i]] == values[i])
      && |Zip(keys, values).Keys| == n
  {
    var n := Min(|keys|, |values|);
    PairsKeys(keys[..n], values[..n]);
    PairsValues(keys[..n], values[..n]);
    PairsCount(keys[..n], values[..n]);
  }

  /** `c2` keeps every entry of `c1` as it was. */
  predicate Extends(c1: map<string, string>, c2: map<string, string>) {
    forall k :: k in c1 ==> k in c2 && c2[k] == c1[k]
  }

  /** Adding the answers for a request that lists exactly the uncached texts replaces no
      entry and adds only requested texts. */
  lemma ZipFresh(order: seq<string>, result: seq<string>, c: map<string, string>, texts: set<string>)
    requires Lists(order, texts - c.Keys)
    ensures Extends(c, c + Zip(order, result))
    ensures (c + Zip(order, result)).Keys <= c.Keys + texts
  {
    ZipPairs(order, result);
    var n := Min(|order|, |result|);
    forall k | k in Zip(order, result) ensures k in texts - c.Keys {
      assert k in order[..n];
      assert k in order;
    }
  }

  /** Adding the `zip` of a request with distinct texts and its answers: each text the
      answers reach holds the answer at its position, and every added key is such a
      text. */
  lemma ZipAdded(c: map<string, string>, request: seq<string>, answers: seq<string>)
    requires forall i, j :: 0 <= i < j < |request| ==> request[i] != request[j]
    ensures var p := c + Zip(request, answers);
      var n := Min(|request|, |answers|);
      (forall i :: 0 <= i < n ==> request[i] in p && p[request[i]] == answers[i])
      && forall k :: k in p && k !in c ==> k in request[..n]
  {
    var z, n := Zip(request, answers), Min(|request|, |answers|);
    ZipPairs(request, answers);
    forall i | 0 <= i < n ensures request[i] in c + z && (c + z)[request[i]] == answers[i] {
      assert request[..n][i] == request[i];
      assert request[i] in z;
    }
  }

  /** The members of a JSON object other than the one being rewritten, kept as they are. */
  type Fields = map<string, string>

  /** A dish object of a week's JSON: its `name` and its other members. */
  datatype DishObject = DishObject(name: string, rest: Fields)

  /** A day object: its `dishes` and its other members. */
  datatype DayObject = DayObject(dishes: seq<DishObject>, rest: Fields)

  /** A week object: its `days` and its other members. */
  datatype WeekObject = WeekObject(days: seq<DayObject>, rest: Fields)

  /** A canteen of `all.json`: its `weeks` and its other members. */
  datatype CanteenObject = CanteenObject(weeks: seq<WeekObject>, rest: Fields)

  /** The three document shapes `translate_file` reads. */
  datatype Document =
    | AllDocument(canteens: seq<CanteenObject>, rest: Fields)
    | CombinedDocument(weeks: seq<WeekObject>, rest: Fields)
    | WeekDocument(week: WeekObject)

  /** The shape a file name announces: `all.json` holds every canteen, `combined.json` one
      canteen's weeks, and any other file one week. */
  predicate ShapedFor(fileName: string, doc: Document) {
    if fileName == "all.json" then doc.AllDocument?
    else if fileName == "combined.json" then doc.CombinedDocument?
    else doc.WeekDocument?
  }

  /** The names of a list of dishes. */
  function DishNames(ds: seq<DishObject>): set<string> {
    if ds == [] then {} else DishNames(ds[..|ds| - 1]) + {ds[|ds| - 1].name}
  }

  /** The dish names of a list of days. */
  function DaysNames(days: seq<DayObject>): set<string> {
    if days == [] then {} else DaysNames(days[..|days| - 1]) + DishNames(days[|days| - 1].dishes)
  }

  /** `{dish["name"] for day in data["days"] for dish in day["dishes"]}` */
  function WeekNames(w: WeekObject): set<string> {
    DaysNames(w.days)
  }

  /** The names of a list of dishes are the names its dishes carry. */
  lemma {:induction false} DishNamesMembers(ds: seq<DishObject>)
    ensures forall s :: s in DishNames(ds) <==> exists j :: 0 <= j < |ds| && ds[j].name == s
  {
    if ds != [] {
      var n := |ds| - 1;
      DishNamesMembers(ds[..n]);
      assert DishNames(ds) == DishNames(ds[..n]) + {ds[n].name};
      forall s | s in DishNames(ds) ensures exists j :: 0 <= j < |ds| && ds[j].name == s {
        if s != ds[n].name {
          var j :| 0 <= j < n && ds[..n][j].name == s;
          assert ds[j] == ds[..n][j];
        }
      }
      forall j | 0 <= j < n ensures ds[j].name in DishNames(ds) {
        assert ds[..n][j] == ds[j];
      }
    }
  }

  /** The set the prefetch asks for holds exactly the dish names of the week. */
  lemma {:induction false} WeekNamesMembers(w: WeekObject)
    ensures forall s :: s in WeekNames(w) <==>
      exists i, j :: 0 <= i < |w.days| && 0 <= j < |w.days[i].dishes| && w.days[i].dishes[j].name == s
  {
    DaysNamesMembers(w.days);
  }

  lemma {:induction false} DaysNamesMembers(days: seq<DayObject>)
    ensures forall s :: s in DaysNames(days) <==>
      exists i, j :: 0 <= i < |days| && 0 <= j < |days[i].dishes| && days[i].dishes[j].name == s
  {
    if days != [] {
      var n := |days| - 1;
      DaysNamesMembers(days[..n]);
      DishNamesMembers(days[n].dishes);
      forall s | s in DaysNames(days)
        ensures exists i, j :: 0 <= i < |days| && 0 <= j < |days[i].dishes| && days[i].dishes[j].name == s
      {
        if s in DaysNames(days[..n]) {
          var i, j :| 0 <= i < n && 0 <= j < |days[..n][i].dishes| && days[..n][i].dishes[j].name == s;
          assert days[i] == days[..n][i];
        } else {
          var j :| 0 <= j < |days[n].dishes| && days[n].dishes[j].name == s;
        }
      }
      forall i, j | 0 <= i < |days| && 0 <= j < |days[i].dishes| ensures days[i].dishes[j].name in DaysNames(days) {
        if i < n {
          assert days[..n][i] == days[i];
        }
      }
    }
  }

  /** A dish whose name became its cached translation, nothing else changing. */
  predicate DishTranslated(d: DishObject, e: DishObject, cache: map<string, string>) {
    e.rest == d.rest && d.name in cache && e.name == cache[d.name]
  }

  predicate DayTranslated(d: DayObject, e: DayObject, cache: map<string, string>) {
    e.rest == d.rest && |e.dishes| == |d.dishes|
    && forall j :: 0 <= j < |d.dishes| ==> DishTranslated(d.dishes[j], e.dishes[j], cache)
  }

  predicate WeekTranslated(w: WeekObject, v: WeekObject, cache: map<string, string>) {
    v.rest == w.rest && |v.days| == |w.days|
    && forall i :: 0 <= i < |w.days| ==> DayTranslated(w.days[i], v.days[i], cache)
  }

  predicate WeeksTranslated(ws: seq<WeekObject>, vs: seq<WeekObject>, cache: map<string, string>) {
    |vs| == |ws| && forall i :: 0 <= i < |ws| ==> WeekTranslated(ws[i], vs[i], cache)
  }

  /** `translate_file`'s promise for a whole document: every week it holds is translated, in
      place, and everything around the weeks is kept. */
  predicate DocumentTranslated(doc: Document, out: Document, cache: map<string, string>) {
    match doc
    case AllDocument(canteens, rest) =>
      out.AllDocument? && out.rest == rest && |out.canteens| == |canteens|
      && forall i :: 0 <= i < |canteens| ==>
           out.canteens[i].rest == canteens[i].rest && WeeksTranslated(canteens[i].weeks, out.canteens[i].weeks, cache)
    case CombinedDocument(weeks, rest) =>
      out.CombinedDocument? && out.rest == rest && WeeksTranslated(weeks, out.weeks, cache)
    case WeekDocument(week) =>
      out.WeekDocument? && WeekTranslated(week, out.week, cache)
  }

  /** A translation stays a translation as the cache grows: entries are never replaced. */
  lemma WeekTranslatedLater(w: WeekObject, v: WeekObject, c1: map<string, string>, c2: map<string, string>)
    requires WeekTranslated(w, v, c1) && Extends(c1, c2)
    ensures WeekTranslated(w, v, c2)
  {
    forall i | 0 <= i < |w.days|
      ensures DayTranslated(w.days[i], v.days[i], c2)
    {
      assert DayTranslated(w.days[i], v.days[i], c1);
    }
  }

  lemma WeeksTranslatedLater(ws: seq<WeekObject>, vs: seq<WeekObject>, c1: map<string, string>, c2: map<string, string>)
    requires WeeksTranslated(ws, vs, c1) && Extends(c1, c2)
    ensures WeeksTranslated(ws, vs, c2)
  {
    forall i | 0 <= i < |ws|
      ensures WeekTranslated(ws[i], vs[i], c2)
    {
      WeekTranslatedLater(ws[i], vs[i], c1, c2);
    }
  }

  /** `Translator`: the cache of translations from `source` to `target`. The DeepL client
      is the pair of oracles `translateBatch` (a list of texts) and `translateOne` (one
      text); `enumerate` is the order a set of texts is iterated in. */
  class Translator {
    const source: string
    const target: string
    const enumerate: set<string> -> seq<string>
    const translateBatch: seq<string> -> seq<string>
    const translateOne: string -> string
    var cache: map<string, string>

    /** Iterating a set yields each of its elements once. */
    ghost predicate Valid() {
      forall s :: Lists(enumerate(s), s)
    }

    /** `Translator(api_key, cache_file, source="DE", target="EN-US")`: the cache starts
        empty. The defaults of `source` and `target` are left to the caller, which passes
        both. */
    constructor (source: string, target: string, enumerate: set<string> -> seq<string>,
                 translateBatch: seq<string> -> seq<string>, translateOne: string -> string)
      requires forall s :: Lists(enumerate(s), s)
      ensures Valid() && cache == map[]
      ensures this.source == source && this.target == target
      ensures this.enumerate == enumerate && this.translateBatch == translateBatch && this.translateOne == translateOne
    {
      this.source := source;
      this.target := target;
      this.enumerate := enumerate;
      this.translateBatch := translateBatch;
      this.translateOne := translateOne;
      cache := map[];
    }

    /** The cache `c` becomes after `prefetch(texts)`: unchanged when every text is cached,
        otherwise extended by the batch answers paired with the request by `zip`. */
    function Prefetched(c: map<string, string>, texts: set<string>): map<string, string> {
      if texts <= c.Keys then c
      else
        var request := enumerate(texts - c.Keys);
        c + Zip(request, translateBatch(request))
    }

    /** The cache `c` becomes after `translate(t)` for every `t` of `texts`: each text not
        cached yet gets the service's single answer. */
    function Singles(c: map<string, string>, texts: set<string>): map<string, string> {
      c + map t | t in texts && t !in c :: translateOne(t)
    }

    /** The cache `c` becomes after `translate_days(w)`. */
    function AfterWeek(c: map<string, string>, w: WeekObject): map<string, string> {
      Singles(Prefetched(c, WeekNames(w)), WeekNames(w))
    }

    /** The cache `c` becomes after `translate_days` of each week in turn. */
    function AfterWeeks(c: map<string, string>, ws: seq<WeekObject>): map<string, string> {
      if ws == [] then c else AfterWeek(AfterWeeks(c, ws[..|ws| - 1]), ws[|ws| - 1])
    }

    /** The cache `c` becomes after translating every week of each canteen in turn. */
    function AfterCanteens(c: map<string, string>, cs: seq<CanteenObject>): map<string, string> {
      if cs == [] then c else AfterWeeks(AfterCanteens(c, cs[..|cs| - 1]), cs[|cs| - 1].weeks)
    }

    /** The cache `c` becomes after `translate_file` of a document. */
    function AfterDocument(c: map<string, string>, doc: Document): map<string, string> {
      match doc
      case AllDocument(canteens, _) => AfterCanteens(c, canteens)
      case CombinedDocument(weeks, _) => AfterWeeks(c, weeks)
      case WeekDocument(week) => AfterWeek(c, week)
    }

    /** `v` came from the service for `k`: it is the single answer for `k`, or the batch
        answer at `k`'s position in the request for some set of texts. */
    ghost predicate ServiceAnswer(k: string, v: string) {
      v == translateOne(k)
      || exists s: set<string>, i :: 0 <= i < |enumerate(s)| && i < |translateBatch(enumerate(s))|
           && enumerate(s)[i] == k && translateBatch(enumerate(s))[i] == v
    }

    /** `c2` keeps every entry of `c1`, and each entry it adds came from the service. */
    ghost predicate Answered(c1: map<string, string>, c2: map<string, string>) {
      Extends(c1, c2) && forall k :: k in c2 && k !in c1 ==> ServiceAnswer(k, c2[k])
    }

    /** Translating two sets of texts one after the other translates their union. */
    lemma SinglesCompose(c: map<string, string>, a: set<string>, d: set<string>)
      ensures Singles(Singles(c, a), d) == Singles(c, a + d)
    {
      var l, r := Singles(Singles(c, a), d), Singles(c, a + d);
      assert l.Keys == r.Keys;
      forall k | k in l ensures l[k] == r[k] {
        if k !in c && k !in a {
          assert k !in Singles(c, a);
        }
      }
    }

    /** One `translate(t)` is `Singles` of the one text. */
    lemma SingleStep(c: map<string, string>, t: string)
      ensures Singles(c, {t}) == if t in c then c else c[t := translateOne(t)]
    {
      if t in c {
        assert Singles(c, {t}).Keys == c.Keys;
      }
    }

    /** `translate` of every text of `texts`: no entry replaced, every text cached, and a
        text not cached before holds its single answer. */
    lemma SinglesFacts(c: map<string, string>, texts: set<string>)
      ensures var r := Singles(c, texts);
        Extends(c, r) && r.Keys == c.Keys + texts
        && forall k :: k in texts && k !in c ==> r[k] == translateOne(k)
    {
    }

    /** `prefetch(texts)`: no entry replaced; the texts of the request the answers reach
        hold the answer at their position, and nothing else is added. */
    lemma PrefetchedFacts(c: map<string, string>, texts: set<string>)
      requires Valid()
      ensures var p := Prefetched(c, texts);
        var request := enumerate(texts - c.Keys);
        var answers := translateBatch(request);
        var n := Min(|request|, |answers|);
        Extends(c, p) && p.Keys <= c.Keys + texts
        && (forall i :: 0 <= i < n ==> request[i] in p && p[request[i]] == answers[i])
        && forall k :: k in p && k !in c ==> k in request[..n]
    {
      var request := enumerate(texts - c.Keys);
      assert Lists(request, texts - c.Keys);
      if texts <= c.Keys {
        ListsEmpty(request, texts - c.Keys);
      } else {
        ZipFresh(request, translateBatch(request), c, texts);
        ZipAdded(c, request, translateBatch(request));
      }
    }

    /** One prefetch followed by `translate` of the same texts: every text is cached
        afterwards and no entry is replaced; a text of the batch request holds the batch
        answer at its position, and a text the answers did not reach holds its single
        answer. */
    lemma BatchThenSingles(c: map<string, string>, texts: set<string>)
      requires Valid()
      ensures var r := Singles(Prefetched(c, texts), texts);
        var request := enumerate(texts - c.Keys);
        var answers := translateBatch(request);
        Extends(c, r) && r.Keys == c.Keys + texts
        && (forall i :: 0 <= i < |request| && i < |answers| ==> request[i] in r && r[request[i]] == answers[i])
        && forall k :: k in texts && k !in c && k !in request[..Min(|request|, |answers|)] ==> r[k] == translateOne(k)
    {
      var p := Prefetched(c, texts);
      PrefetchedFacts(c, texts);
      SinglesFacts(p, texts);
    }

    /** One more `translate(t)` after translating `a`. */
    lemma SinglesStep(c: map<string, string>, a: set<string>, t: string, after: map<string, string>)
      requires var before := Singles(c, a);
        after == if t in before then before else before[t := translateOne(t)]
      ensures after == Singles(c, a + {t})
    {
      SingleStep(Singles(c, a), t);
      SinglesCompose(c, a, {t});
    }

    /** Each entry that translating a week adds is a service answer. */
    lemma WeekAnswered(c: map<string, string>, w: WeekObject)
      requires Valid()
      ensures Answered(c, AfterWeek(c, w))
    {
      var texts := WeekNames(w);
      var r := AfterWeek(c, w);
      var request := enumerate(texts - c.Keys);
      var answers := translateBatch(request);
      BatchThenSingles(c, texts);
      forall k | k in r && k !in c ensures ServiceAnswer(k, r[k]) {
        var n := Min(|request|, |answers|);
        if k in request[..n] {
          var i :| 0 <= i < n && request[..n][i] == k;
          assert enumerate(texts - c.Keys)[i] == k && translateBatch(enumerate(texts - c.Keys))[i] == r[k];
        }
      }
    }

    lemma AnsweredTrans(c1: map<string, string>, c2: map<string, string>, c3: map<string, string>)
      requires Answered(c1, c2) && Answered(c2, c3)
      ensures Answered(c1, c3)
    {
      forall k | k in c3 && k !in c1 ensures ServiceAnswer(k, c3[k]) {
        if k in c2 {
          assert c3[k] == c2[k];
        }
      }
    }

    /** Each entry that translating a list of weeks adds is a service answer. */
    lemma {:induction false} WeeksAnswered(c: map<string, string>, ws: seq<WeekObject>)
      requires Valid()
      ensures Answered(c, AfterWeeks(c, ws))
    {
      if ws != [] {
        var n := |ws| - 1;
        WeeksAnswered(c, ws[..n]);
        WeekAnswered(AfterWeeks(c, ws[..n]), ws[n]);
        AnsweredTrans(c, AfterWeeks(c, ws[..n]), AfterWeeks(c, ws));
      }
    }

    lemma {:induction false} CanteensAnswered(c: map<string, string>, cs: seq<CanteenObject>)
      requires Valid()
      ensures Answered(c, AfterCanteens(c, cs))
    {
      if cs != [] {
        var n := |cs| - 1;
        CanteensAnswered(c, cs[..n]);
        WeeksAnswered(AfterCanteens(c, cs[..n]), cs[n].weeks);
        AnsweredTrans(c, AfterCanteens(c, cs[..n]), AfterCanteens(c, cs));
      }
    }

    /** Translating a file replaces no cache entry, and every entry it adds came from the
        service. */
    lemma DocumentAnswered(c: map<string, string>, doc: Document)
      requires Valid()
      ensures Answered(c, AfterDocument(c, doc))
    {
      match doc
      case AllDocument(canteens, _) => CanteensAnswered(c, canteens);
      case CombinedDocument(weeks, _) => WeeksAnswered(c, weeks);
      case WeekDocument(week) => WeekAnswered(c, week);
    }

    /** The cache `c` becomes after `translate(t)`. */
    function Step(c: map<string, string>, t: string): map<string, string> {
      if t in c then c else c[t := translateOne(t)]
    }

    /** The cache `c` becomes after `translate` of each dish's name in turn. */
    function DishesInTurn(c: map<string, string>, ds: seq<DishObject>): map<string, string> {
      if ds == [] then c else Step(DishesInTurn(c, ds[..|ds| - 1]), ds[|ds| - 1].name)
    }

    /** The cache `c` becomes after the dishes of each day in turn. */
    function DaysInTurn(c: map<string, string>, days: seq<DayObject>): map<string, string> {
      if days == [] then c else DishesInTurn(DaysInTurn(c, days[..|days| - 1]), days[|days| - 1].dishes)
    }

    /** The order in which the dishes are translated does not matter: the cache gains the
        single answer of each name not cached before. */
    lemma {:induction false} DishesInTurnSingles(c: map<string, string>, ds: seq<DishObject>)
      ensures DishesInTurn(c, ds) == Singles(c, DishNames(ds))
    {
      if ds == [] {
        assert Singles(c, {}) == c;
      } else {
        var n := |ds| - 1;
        DishesInTurnSingles(c, ds[..n]);
        SinglesStep(c, DishNames(ds[..n]), ds[n].name, DishesInTurn(c, ds));
      }
    }

    lemma {:induction false} DaysInTurnSingles(c: map<string, string>, days: seq<DayObject>)
      ensures DaysInTurn(c, days) == Singles(c, DaysNames(days))
    {
      if days == [] {
        assert Singles(c, {}) == c;
      } else {
        var n := |days| - 1;
        DaysInTurnSingles(c, days[..n]);
        DishesInTurnSingles(DaysInTurn(c, days[..n]), days[n].dishes);
        SinglesCompose(c, DaysNames(days[..n]), DishNames(days[n].dishes));
      }
    }

    /** `prefetch`: one batch request for the texts not yet cached, none when all are
      cached; the answers are paired with the request by `zip`, and no entry is replaced.
      `requested` is the list sent, None when nothing was sent. */
    method Prefetch(texts: set<string>) returns (requested: Option<seq<string>>)
      requires Valid()
      modifies this
      ensures requested.None? <==> texts <= old(cache).Keys
      ensures requested.Some? ==> requested.value == enumerate(texts - old(cache).Keys)
      ensures requested.Some? ==> Lists(requested.value, texts - old(cache).Keys)
      ensures requested.None? ==> cache == old(cache)
      ensures requested.Some? ==> cache == old(cache) + Zip(requested.value, translateBatch(requested.value))
      ensures cache == Prefetched(old(cache), texts)
      ensures Extends(old(cache), cache)
      ensures cache.Keys <= old(cache).Keys + texts
    {
      var toTranslate := set t | t in texts && t !in cache;
      assert toTranslate == texts - cache.Keys;
      if toTranslate == {} {
        assert forall t :: t in texts ==> t in texts - cache.Keys || t in cache;
        return None;
      }
      var order := enumerate(toTranslate);
      var result := translateBatch(order);
      StoreAnswers(order, result);
      ZipFresh(order, result, old(cache), texts);
      return Some(order);
    }

    /** The loop of `prefetch`: each text of the request is stored with the answer at its
        position, as far as both lists go. */
    method StoreAnswers(order: seq<string>, result: seq<string>)
      modifies this
      ensures cache == old(cache) + Zip(order, result)
    {
      var n := Min(|order|, |result|);
      for i := 0 to n
        invariant cache == old(cache) + Pairs(order[..i], result[..i])
      {
        assert order[..i + 1][..i] == order[..i] && result[..i + 1][..i] == result[..i];
        cache := cache[order[i] := result[i]];
      }
      assert order[..n] == order[..n][..n] && result[..n] == result[..n][..n];
    }

    /** `translate`: a cached text is answered from the cache, which stays as it is;
        otherwise the service's answer is stored under the text and returned. */
    method Translate(text: string) returns (r: string)
      modifies this
      ensures text in old(cache) ==> r == old(cache)[text] && cache == old(cache)
      ensures text !in old(cache) ==> r == translateOne(text) && cache == old(cache)[text := r]
      ensures Extends(old(cache), cache) && text in cache && cache[text] == r
    {
      if text in cache {
        return cache[text];
      }
      var result := translateOne(text);
      cache := cache[text := result];
      return result;
    }

    /** `translate_days`: one prefetch of every dish name of the week, then each dish's
        name is replaced by its translation; days, dishes and every other member stay as
        they were. The new cache is the prefetched one with a single answer for each name
        the batch did not cover. */
    method TranslateDays(w: WeekObject) returns (v: WeekObject)
      requires Valid()
      modifies this
      ensures WeekTranslated(w, v, cache)
      ensures cache == AfterWeek(old(cache), w)
      ensures Extends(old(cache), cache)
    {
      var names := WeekNames(w);
      var _ := Prefetch(names);
      ghost var prefetched := cache;
      var days := TranslateEachDay(w.days);
      DaysInTurnSingles(prefetched, w.days);
      v := w.(days := days);
    }

    /** The outer loop of `translate_days`: the days in turn. */
    method TranslateEachDay(days: seq<DayObject>) returns (out: seq<DayObject>)
      modifies this
      ensures |out| == |days| && forall k :: 0 <= k < |days| ==> DayTranslated(days[k], out[k], cache)
      ensures cache == DaysInTurn(old(cache), days)
      ensures Extends(old(cache), cache)
    {
      out := [];
      for i := 0 to |days|
        invariant |out| == i
        invariant Extends(old(cache), cache)
        invariant cache == DaysInTurn(old(cache), days[..i])
        invariant forall k :: 0 <= k < i ==> DayTranslated(days[k], out[k], cache)
      {
        ghost var before := cache;
        var day := TranslateDay(days[i]);
        assert days[..i + 1][..i] == days[..i];
        forall k | 0 <= k < i ensures DayTranslated(days[k], out[k], cache) {
          assert DayTranslated(days[k], out[k], before);
        }
        out := out + [day];
      }
      assert days[..|days|] == days;
    }

    /** The inner loop of `translate_days`: each dish's name is replaced by its
        translation, the names translated in the order of the dishes. */
    method TranslateDay(day: DayObject) returns (e: DayObject)
      modifies this
      ensures DayTranslated(day, e, cache)
      ensures cache == DishesInTurn(old(cache), day.dishes)
      ensures Extends(old(cache), cache)
    {
      var dishes: seq<DishObject> := [];
      for j := 0 to |day.dishes|
        invariant |dishes| == j
        invariant Extends(old(cache), cache)
        invariant cache == DishesInTurn(old(cache), day.dishes[..j])
        invariant forall k :: 0 <= k < j ==> DishTranslated(day.dishes[k], dishes[k], cache)
      {
        var name := Translate(day.dishes[j].name);
        assert day.dishes[..j + 1][..j] == day.dishes[..j];
        dishes := dishes + [day.dishes[j].(name := name)];
      }
      assert day.dishes[..|day.dishes|] == day.dishes;
      e := day.(dishes := dishes);
    }

    /** `for week in weeks: translate_days(week, translator)` */
    method TranslateWeeks(ws: seq<WeekObject>) returns (vs: seq<WeekObject>)
      requires Valid()
      modifies this
      ensures WeeksTranslated(ws, vs, cache) && Extends(old(cache), cache)
      ensures cache == AfterWeeks(old(cache), ws)
    {
      vs := [];
      for i := 0 to |ws|
        invariant |vs| == i && Extends(old(cache), cache)
        invariant cache == AfterWeeks(old(cache), ws[..i])
        invariant forall k :: 0 <= k < i ==> WeekTranslated(ws[k], vs[k], cache)
      {
        ghost var before := cache;
        var v := TranslateDays(ws[i]);
        assert ws[..i + 1][..i] == ws[..i];
        forall k | 0 <= k < i ensures WeekTranslated(ws[k], vs[k], cache) {
          WeekTranslatedLater(ws[k], vs[k], before, cache);
        }
        vs := vs + [v];
      }
      assert ws[..|ws|] == ws;
    }

    /** `translate_file`: the file name decides where the weeks are; every week of every
        canteen for `all.json`, every week for `combined.json`, the document itself
        otherwise. */
    method TranslateFile(fileName: string, doc: Document) returns (out: Document)
      requires Valid() && ShapedFor(fileName, doc)
      modifies this
      ensures DocumentTranslated(doc, out, cache) && Extends(old(cache), cache)
      ensures cache == AfterDocument(old(cache), doc)
    {
      if fileName == "all.json" {
        var canteens := TranslateCanteens(doc.canteens);
        out := doc.(canteens := canteens);
      } else if fileName == "combined.json" {
        var weeks := TranslateWeeks(doc.weeks);
        out := doc.(weeks := weeks);
      } else {
        var week := TranslateDays(doc.week);
        out := WeekDocument(week);
      }
    }

    /** `for canteen in data["canteens"]: for week in canteen["weeks"]: translate_days(…)` */
    method TranslateCanteens(cs: seq<CanteenObject>) returns (out: seq<CanteenObject>)
      requires Valid()
      modifies this
      ensures |out| == |cs| && Extends(old(cache), cache)
      ensures forall k :: 0 <= k < |cs| ==> out[k].rest == cs[k].rest && WeeksTranslated(cs[k].weeks, out[k].weeks, cache)
      ensures cache == AfterCanteens(old(cache), cs)
    {
      out := [];
      for i := 0 to |cs|
        invariant |out| == i && Extends(old(cache), cache)
        invariant cache == AfterCanteens(old(cache), cs[..i])
        invariant forall k :: 0 <= k < i ==> out[k].rest == cs[k].rest && WeeksTranslated(cs[k].weeks, out[k].weeks, cache)
      {
        ghost var before := cache;
        var weeks := TranslateWeeks(cs[i].weeks);
        assert cs[..i + 1][..i] == cs[..i];
        forall k | 0 <= k < i ensures WeeksTranslated(cs[k].weeks, out[k].weeks, cache) {
          WeeksTranslatedLater(cs[k].weeks, out[k].weeks, before, cache);
        }
        out := out + [cs[i].(weeks := weeks)];
      }
      assert cs[..|cs|] == cs;
    }
  }
}
