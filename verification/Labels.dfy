/** Label resolution: the per-source code tables, `MenuParser._parse_label`,
    `StudentenwerkMenuParser.__add_diet` and `StraubingMensaMenuParser._marks_to_labels`.
    The supertype closure `Label.add_supertype_labels` is defined outside this model, so it is
    a parameter `close` of every operation that applies it. */
module Labels {
  import opened Common
  import opened Entities

  type LabelTable = map<string, set<Label>>

  /** `StudentenwerkMenuParser._label_subclasses` */
  const StudentenwerkTable: LabelTable := map[
    "GQB" := {Bavaria}, "MSC" := {Msc}, "1" := {Dyestuff}, "2" := {Preservatives},
    "3" := {Antioxidants}, "4" := {FlavorEnhancer}, "5" := {Sulphurs}, "6" := {Dyestuff},
    "7" := {Waxed}, "8" := {Phosphates}, "9" := {Sweeteners}, "10" := {Phenylalanine},
    "11" := {Sweeteners}, "13" := {CocoaContainingGrease}, "14" := {Gelatin},
    "99" := {Alcohol}, "f" := {Vegetarian}, "v" := {Vegan}, "S" := {Pork}, "R" := {Beef},
    "K" := {Veal}, "Kn" := {Garlic}, "Ei" := {ChickenEggs}, "En" := {Peanuts},
    "Fi" := {Fish}, "Gl" := {Gluten}, "GlW" := {Wheat}, "GlR" := {Rye}, "GlG" := {Barley},
    "GlH" := {Oat}, "GlD" := {Spelt}, "Kr" := {Shellfish}, "Lu" := {Lupin},
    "Mi" := {Milk, Lactose}, "Sc" := {Shellfish}, "ScM" := {Almonds}, "ScH" := {Hazelnuts},
    "ScW" := {Walnuts}, "ScC" := {Cashews}, "ScP" := {Pistachios}, "Se" := {Sesame},
    "Sf" := {Mustard}, "Sl" := {Celery}, "So" := {Soy}, "Sw" := {Sulphurs, Sulfites},
    "Wt" := {Molluscs}]

  /** `FMIBistroMenuParser._label_subclasses` */
  const FmiTable: LabelTable := map[
    "a" := {Gluten}, "aW" := {Wheat}, "aR" := {Rye}, "aG" := {Barley}, "aH" := {Oat},
    "aD" := {Spelt}, "aHy" := {Hybrids}, "b" := {Shellfish}, "c" := {ChickenEggs},
    "d" := {Fish}, "e" := {Peanuts}, "f" := {Soy}, "g" := {Milk}, "u" := {Lactose},
    "h" := {ShellFruits}, "hMn" := {Almonds}, "hH" := {Hazelnuts}, "hW" := {Walnuts},
    "hK" := {Cashews}, "hPe" := {Pecan}, "hPi" := {Pistachios}, "hQ" := {Macadamia},
    "i" := {Celery}, "j" := {Mustard}, "k" := {Sesame}, "l" := {Sulfites, Sulphurs},
    "m" := {Lupin}, "n" := {Molluscs}]

  /** `MedizinerMensaMenuParser._label_subclasses` */
  const MedizinerTable: LabelTable := map[
    "1" := {Dyestuff}, "2" := {Preservatives}, "3" := {Antioxidants},
    "4" := {FlavorEnhancer}, "5" := {Sulphurs}, "6" := {Dyestuff}, "7" := {Waxed},
    "8" := {Phosphates}, "9" := {Sweeteners}, "A" := {Alcohol}, "B" := {Gluten},
    "C" := {Shellfish}, "E" := {Fish}, "F" := {Fish}, "G" := {Poultry}, "H" := {Peanuts},
    "K" := {Veal}, "L" := {Lamb}, "M" := {Soy}, "N" := {Milk, Lactose},
    "O" := {ShellFruits}, "P" := {Celery}, "R" := {Beef}, "S" := {Pork}, "T" := {Mustard},
    "U" := {Sesame}, "V" := {Sulphurs, Sulfites}, "W" := {WildMeat}, "X" := {Lupin},
    "Y" := {ChickenEggs}, "Z" := {Molluscs}]

  /** `StraubingMensaMenuParser._label_subclasses` */
  const StraubingTable: LabelTable := map[
    "1" := {Dyestuff}, "2" := {Preservatives}, "3" := {Antioxidants},
    "4" := {FlavorEnhancer}, "5" := {Sulphurs}, "6" := {Dyestuff}, "7" := {Waxed},
    "8" := {Phosphates}, "9" := {Sweeteners}, "10" := {Phenylalanine}, "16" := {Sulfites},
    "17" := {Phenylalanine}, "AA" := {Wheat}, "AB" := {Rye}, "AC" := {Barley},
    "AD" := {Oat}, "AE" := {Spelt}, "AF" := {Gluten}, "B" := {Shellfish},
    "C" := {ChickenEggs}, "D" := {Fish}, "E" := {Peanuts}, "F" := {Soy}, "G" := {Milk},
    "HA" := {Almonds}, "HB" := {Hazelnuts}, "HC" := {Walnuts}, "HD" := {Cashews},
    "HE" := {Pecan}, "HG" := {Pistachios}, "HH" := {Macadamia}, "I" := {Celery},
    "J" := {Mustard}, "K" := {Sesame}, "L" := {Sulphurs, Sulfites}, "M" := {Lupin},
    "N" := {Molluscs}]

  /** The `mark_to_label` table of `_marks_to_labels`. */
  const MarkTable: LabelTable := map[
    "VG" := {Vegan, Vegetarian}, "V" := {Vegetarian}, "G" := {Poultry}, "S" := {Pork},
    "A" := {Alcohol}, "F" := {Fish}, "R" := {Beef}, "L" := {Lamb}, "W" := {WildMeat}]

  /** The tokens `_parse_label` looks up: the marker string is stripped, split at every
      comma, and every piece stripped. Empty pieces are kept; they miss every table. */
  function LabelTokens(s: string): seq<string> {
    StripAll(Split(Strip(s), ','))
  }

  function StripAll(xs: seq<string>): (r: seq<string>)
    ensures |r| == |xs| && forall k :: 0 <= k < |xs| ==> r[k] == Strip(xs[k])
  {
    seq(|xs|, k requires 0 <= k < |xs| => Strip(xs[k]))
  }

  /** Every token is free of commas and of surrounding white space, and there is one token
      more than there are commas in the stripped marker string. */
  lemma LabelTokensTrimmed(s: string, k: int)
    requires 0 <= k < |LabelTokens(s)|
    ensures |LabelTokens(s)| == |Split(Strip(s), ',')|
    ensures ',' !in LabelTokens(s)[k]
    ensures var t := LabelTokens(s)[k]; t == [] || (!IsSpace(t[0]) && !IsSpace(t[|t| - 1]))
  {
    var pieces := Split(Strip(s), ',');
    SplitPieces(Strip(s), ',');
    var p := pieces[k];
    assert ',' !in p;
    var t := LabelTokens(s)[k];
    assert t == Strip(p);
    StripSpec(p);
    StripWithin(p);
    var i := LeadingSpaces(p);
    forall j | 0 <= j < |t|
      ensures t[j] != ','
    {
      assert t[j] == p[i..i + |t|][j] == p[i + j];
    }
  }

  /** The union of the table entries of the tokens, left to right; a token that is not a key
      of the table contributes nothing. */
  function Lookup(table: LabelTable, toks: seq<string>): set<Label> {
    if toks == [] then {}
    else (if toks[0] in table then table[toks[0]] else {}) + Lookup(table, toks[1..])
  }

  /** A label is looked up exactly when some token is a key of the table whose entry holds it. */
  lemma {:induction false} LookupMembers(table: LabelTable, toks: seq<string>, l: Label)
    ensures l in Lookup(table, toks) <==> exists k :: 0 <= k < |toks| && toks[k] in table && l in table[toks[k]]
  {
    if toks != [] {
      LookupMembers(table, toks[1..], l);
      assert forall k :: 1 <= k < |toks| ==> toks[k] == toks[1..][k - 1];
      if l in Lookup(table, toks[1..]) {
        var k :| 0 <= k < |toks[1..]| && toks[1..][k] in table && l in table[toks[1..][k]];
        assert toks[k + 1] == toks[1..][k];
      }
    }
  }

  /** What `_parse_label` returns: the closure of the looked-up union. */
  function LabelSet(table: LabelTable, s: string, close: set<Label> -> set<Label>): set<Label> {
    close(Lookup(table, LabelTokens(s)))
  }

  /** `MenuParser._parse_label`: a loop that unions the table entries of the trimmed
      comma-separated tokens, then applies the supertype closure. It never fails: unknown
      and empty tokens are looked up and miss. The `isspace()` test of the source is always
      true for a stripped token, so every token is looked up. */
  method ParseLabel(table: LabelTable, s: string, close: set<Label> -> set<Label>) returns (labels: set<Label>)
    ensures labels == LabelSet(table, s, close)
  {
    labels := {};
    var values := Split(Strip(s), ',');
    ghost var toks := LabelTokens(s);
    var i := 0;
    while i < |values|
      invariant 0 <= i <= |values|
      invariant labels + Lookup(table, toks[i..]) == Lookup(table, toks)
    {
      var stripped := Strip(values[i]);
      LookupStep(table, toks, i);
      if stripped in table {
        labels := labels + table[stripped];
      }
      i := i + 1;
    }
    labels := close(labels);
  }

  /** Looking up a suffix of the tokens: the entry of its first token, then the rest. */
  lemma LookupStep(table: LabelTable, toks: seq<string>, i: nat)
    requires i < |toks|
    ensures Lookup(table, toks[i..]) == (if toks[i] in table then table[toks[i]] else {}) + Lookup(table, toks[i + 1..])
  {
    assert toks[i..][1..] == toks[i + 1..];
  }

  /** Tokens that are not keys of the table add nothing: the result is the closure of the
      entries of the known tokens alone. */
  lemma {:induction false} UnknownTokensIgnored(table: LabelTable, toks: seq<string>, unknown: string)
    requires unknown !in table
    ensures Lookup(table, toks + [unknown]) == Lookup(table, toks)
    ensures Lookup(table, [unknown] + toks) == Lookup(table, toks)
  {
    var ext := toks + [unknown];
    forall l ensures l in Lookup(table, ext) <==> l in Lookup(table, toks) {
      LookupMembers(table, ext, l);
      LookupMembers(table, toks, l);
      if l in Lookup(table, ext) {
        var k :| 0 <= k < |ext| && ext[k] in table && l in table[ext[k]];
        assert k < |toks| && toks[k] == ext[k];
      }
      if l in Lookup(table, toks) {
        var k :| 0 <= k < |toks| && toks[k] in table && l in table[toks[k]];
        assert ext[k] == toks[k];
      }
    }
    assert ([unknown] + toks)[1..] == toks;
  }

  /** An empty or blank marker string resolves to the closure of the empty set. */
  lemma BlankMarkerIsEmpty(table: LabelTable, s: string, close: set<Label> -> set<Label>)
    requires AllSpace(s) && "" !in table
    ensures LabelSet(table, s, close) == close({})
  {
    StripSpec(s);
    assert Strip(s) == [];
    assert Split([], ',') == [[]];
    assert Strip([]) == [];
    assert StripAll([[]]) == [Strip([])] + StripAll([]);
    assert LabelTokens(s) == [""];
    assert [""][1..] == [];
    assert Lookup(table, [""]) == {};
  }

  /** The marker " Fi , Gl" yields the tokens "Fi" and "Gl": the string and every piece
      are trimmed before the lookup. */
  lemma MarkerTokensExample(s: string)
    requires s == " Fi , Gl"
    ensures LabelTokens(s) == ["Fi", "Gl"]
  {
    MarkerPiecesExample();
    MarkerStripExample();
    var pieces := Split(Strip(s), ',');
    assert pieces == ["Fi ", " Gl"];
    assert StripAll(pieces)[0] == "Fi" && StripAll(pieces)[1] == "Gl";
  }

  lemma MarkerPiecesExample()
    ensures Split(Strip(" Fi , Gl"), ',') == ["Fi ", " Gl"]
  {
    MarkerOuterStripExample();
    SplitNoSep(" Gl", ',');
    SplitAt("Fi ", " Gl", ',');
    assert "Fi , Gl" == "Fi " + [','] + " Gl";
  }

  lemma MarkerOuterStripExample()
    ensures Strip(" Fi , Gl") == "Fi , Gl"
  {
    var s := " Fi , Gl";
    assert SpacesFrom(s, 1) == 0 by { assert s[1] == 'F'; }
    assert LeadingSpaces(s) == 1;
    assert TrailingSpaces(s) == 0 by { assert s[|s| - 1] == 'l'; }
    assert s[1..8] == "Fi , Gl";
  }

  lemma MarkerStripExample()
    ensures Strip("Fi ") == "Fi" && Strip(" Gl") == "Gl"
  {
    var f, g := "Fi ", " Gl";
    assert LeadingSpaces(f) == 0 by { assert f[0] == 'F'; }
    assert SpacesBefore(f, 2) == 0 by { assert f[1] == 'i'; }
    assert TrailingSpaces(f) == 1;
    assert f[0..2] == "Fi";
    assert SpacesFrom(g, 1) == 0 by { assert g[1] == 'G'; }
    assert LeadingSpaces(g) == 1;
    assert TrailingSpaces(g) == 0 by { assert g[2] == 'l'; }
    assert g[1..3] == "Gl";
  }

  /** `StudentenwerkMenuParser.__add_diet`: meatless marker "0" adds MEAT unless FISH is
      present, "1" adds VEGETARIAN, "2" adds VEGAN, anything else nothing; then the closure. */
  function AddDiet(labels: set<Label>, diet: string, close: set<Label> -> set<Label>): set<Label> {
    if diet == "0" then (if Fish !in labels then close(labels + {Meat}) else close(labels))
    else if diet == "1" then close(labels + {Vegetarian})
    else if diet == "2" then close(labels + {Vegan})
    else close(labels)
  }

  /** A closure in the sense of the label taxonomy only ever adds labels. */
  ghost predicate Extensive(close: set<Label> -> set<Label>) {
    forall s :: s <= close(s)
  }

  /** With a closure that only adds labels, `__add_diet` keeps every label and adds the diet
      label its marker names; MEAT comes from marker "0" only when no FISH label is there. */
  lemma AddDietLabels(labels: set<Label>, diet: string, close: set<Label> -> set<Label>)
    requires Extensive(close)
    ensures labels <= AddDiet(labels, diet, close)
    ensures diet == "0" && Fish !in labels ==> Meat in AddDiet(labels, diet, close)
    ensures diet == "1" ==> Vegetarian in AddDiet(labels, diet, close)
    ensures diet == "2" ==> Vegan in AddDiet(labels, diet, close)
    ensures diet !in {"0", "1", "2"} || (diet == "0" && Fish in labels) ==> AddDiet(labels, diet, close) == close(labels)
  {
    assert labels <= close(labels);
    assert labels + {Meat} <= close(labels + {Meat});
    assert labels + {Vegetarian} <= close(labels + {Vegetarian});
    assert labels + {Vegan} <= close(labels + {Vegan});
  }

  /** `StraubingMensaMenuParser._marks_to_labels`: the marks column is split at every comma
      and each piece (not trimmed) is looked up in the mark table; no closure is applied. */
  method MarksToLabels(marks: string) returns (labels: set<Label>)
    ensures labels == Lookup(MarkTable, Split(marks, ','))
  {
    labels := {};
    var pieces := Split(marks, ',');
    var i := 0;
    while i < |pieces|
      invariant 0 <= i <= |pieces|
      invariant labels + Lookup(MarkTable, pieces[i..]) == Lookup(MarkTable, pieces)
    {
      assert pieces[i..][1..] == pieces[i + 1..];
      if pieces[i] in MarkTable {
        labels := labels + MarkTable[pieces[i]];
      }
      i := i + 1;
    }
  }

  /** Marks are not trimmed: in "VG, G" the second mark is " G", which is unknown. */
  lemma MarksNotTrimmed()
    ensures Lookup(MarkTable, Split("VG, G", ',')) == {Vegan, Vegetarian}
  {
    assert Split("VG, G", ',') == ["VG", " G"] by {
      SplitNoSep(" G", ',');
      SplitAt("VG", " G", ',');
      assert "VG, G" == "VG" + [','] + " G";
    }
    assert " G" !in MarkTable;
  }
}
