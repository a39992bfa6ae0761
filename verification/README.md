# eat-api menu parsers, dispatcher and translator, in Dafny

eat-api collects the weekly menus of the canteens around the Technical University of
Munich and writes them out as JSON. This project models its core:

- the menu parsers of `src/menu_parser.py`. The shared helpers are `get_date`, which reads an
  ISO year, week and weekday, and `_parse_label`, which reads a comma list of label codes
  against a parser's table. Then come the five parsers themselves:
  - Studentenwerk: HTML columns zipped into dishes, prices from the fixed list or the
    self-service rules, the diet marker;
  - FMI Bistro: text columns of a PDF, four dish types, guests paying 80 cents more;
  - Mediziner Mensa: PDF text split into seven days, label codes and prices stripped from
    dish texts, week and year read from the PDF's name;
  - Straubing: CSV rows grouped into menus by date, weeks fetched until one is stale;
  - Heilbronn: the OpenMensa days and meals feed;
- the dispatcher of `src/main.py`: which parser a canteen gets, the in-place sort of every
  menu's dishes by name, and the shape of the combined JSON document;
- the `Translator` of `src/translate.py`: a cache of translations filled by one batch request
  per week, and `translate_days` / `translate_file`, which replace every dish name of a JSON
  document by its translation.

Dates are Python day ordinals (`IsoDates`) and money is whole cents (`Entities`). Downloads,
the PDF-to-text tool, HTML and CSV readers, `datetime.date.today()` and the DeepL client are
not modelled. Their results enter as parameters: pages, text, rows, the cutoff date, and
function-valued oracles.

Modules, one file each: `Common` (strings, Python slicing, `str.split`/`strip`/
`splitlines`, the character classes the regular expressions use), `IsoDates`, `Entities`,
`Labels`, `Pricing`, `Studentenwerk`, `FmiBistro`, `Mediziner`, `Straubing`, `Heilbronn`,
`Dispatch`, `Translate`.

Where the source loops, the model is a method with the same loop, proved equal to a
specification function. The lemmas then state the properties of that function. Mutable state
is modelled in two places. `Translate.Translator` is a class whose `cache` field its methods
update. `Dispatch.SortByName` sorts an `array` in place.

## Model

| member | source | states |
|---|---|---|
| IsoDates.GetDate | src/menu_parser.py:36-43 | a date is given only for a four-digit year, a week of that ISO year and a weekday 1..7; it then has weekday `day - 1` and lies in that ISO week of that year; otherwise ValueError |
| IsoDates.GetDateConsecutive | src/menu_parser.py:36-43 | for a valid week, weekdays 1..7 give seven consecutive dates starting on a Monday |
| IsoDates.GetDateFacts | src/menu_parser.py:36-43 | the date computed from week 1's Monday lies in the requested ISO week and has the requested weekday |
| IsoDates.WeeksPerYear | src/menu_parser.py:36-43 | every ISO year has 52 or 53 weeks, and week 1 Mondays of consecutive years are that many weeks apart |
| IsoDates.GetDateExample2017 | src/test/test_menu_parser.py:30 | 2017-W44-1 is 2017-10-30 |
| IsoDates.GetDateExample2018 | src/test/test_menu_parser.py:31 | 2018-W01-1 is 2018-01-01 |
| IsoDates.GetDateExample2019 | src/test/test_menu_parser.py:32 | 2019-W02-1 is 2019-01-07, since week 1 of 2019 starts in 2018 |
| Entities.ByDateContents | src/menu_parser.py:250 | storing menus by date: the keys are exactly the menus' dates, each key holds the last menu of that date, and every stored menu carries its key as date |
| Labels.ParseLabel | src/menu_parser.py:50-58 | the loop of `_parse_label` equals the closure of the union of the table entries of the trimmed comma-separated tokens |
| Labels.LabelTokensTrimmed | src/menu_parser.py:52-54 | there is one token more than there are commas in the stripped marker; no token holds a comma or has white space at either end |
| Labels.LookupMembers | src/menu_parser.py:53-56 | a label is in the union exactly when some token is a table key whose entry holds it |
| Labels.UnknownTokensIgnored | src/menu_parser.py:56 | a token that is not a table key adds nothing |
| Labels.BlankMarkerIsEmpty | src/menu_parser.py:50-58 | a blank marker string gives the closure of the empty set |
| Labels.MarkerTokensExample | src/menu_parser.py:52-54 | " Fi , Gl" is read as the tokens "Fi" and "Gl" |
| Labels.AddDietLabels | src/menu_parser.py:344-352 | with a closure that only adds labels, all labels are kept; marker "0" adds MEAT exactly when FISH is absent, "1" adds VEGETARIAN, "2" adds VEGAN |
| Labels.MarksToLabels | src/menu_parser.py:845-863 | the marks loop equals the union of the mark-table entries of the untrimmed comma pieces |
| Labels.MarksNotTrimmed | src/menu_parser.py:860-861 | "VG, G" yields VEGAN and VEGETARIAN only: the untrimmed piece " G" is unknown |
| Pricing.SelfServicePrices | src/menu_parser.py:184-203 | each group gets its own base and per-unit price, all per "100g", and the prices are ordered students <= staff <= guests |
| Pricing.GetPrice | src/menu_parser.py:206-232 | Weihenstephan and Lothstraße get the fixed-list entry of the dish type, and no prices for an unlisted type; other canteens get the self-service prices, for all three groups, of the type the rules choose: a pizza is meat or veggie pizza by the meatless marker with the pizza per-unit price; otherwise fish, sausage, meat or vegetarian/soup as the markers and name decide, with the soup per-unit price for the Studitopf and the classic one otherwise |
| Pricing.SelfServiceClassification | src/menu_parser.py:210-231 | for self-service canteens the students' base price identifies the rule: pizza by the meatless marker, fish by "Fi", sausage by name, meat, or vegetarian/soup |
| Pricing.FixedPriceListOrdered | src/menu_parser.py:164-181 | every entry of the fixed price list is ordered students <= staff <= guests |
| Pricing.PricesOrdered | src/menu_parser.py:206-232 | every price a dish gets is either absent or ordered students <= staff <= guests |
| Pricing.CurrywurstIsSausage | src/menu_parser.py:219-220 | a currywurst with meatless marker "0" and no fish allergen pays the sausage base price |
| Studentenwerk.LastNonEmptyFacts | src/menu_parser.py:286-291 | the forward-filled type is "" exactly when no text so far is non-empty, and otherwise is the latest non-empty text |
| Studentenwerk.DishTypes | src/menu_parser.py:286-291 | the type loop computes the forward fill |
| Studentenwerk.ParseDishes | src/menu_parser.py:280-341 | `__parse_dishes` gives the dishes of the zipped columns, with names right-trimmed and made unique |
| Studentenwerk.BuildDishes | src/menu_parser.py:311-341 | the zip loop builds one dish per row, in order |
| Studentenwerk.DayDishesRows | src/menu_parser.py:312-320 | there are as many dishes as the shortest column has entries, and dish `i` takes its name, type, labels and prices from row `i` |
| Studentenwerk.ParseDish | src/menu_parser.py:321-339 | one dish: the labels of its three markers plus the diet, side dishes priced by the classic per-unit rule, others by `__get_price` |
| Studentenwerk.SideDishesWeighed | src/menu_parser.py:329-334 | side dishes have base price 0 and the ordered classic per-100g prices |
| Studentenwerk.DishLabelsComplete | src/menu_parser.py:322-326 | a dish carries every label of its three markers and the diet label its meatless marker names |
| Studentenwerk.FirstFailure | src/menu_parser.py:241-251 | the days before the index all succeed and the day at it fails |
| Studentenwerk.CollectMenus | src/menu_parser.py:236-253 | the day loop stores the menus of the days before the first failure by date, a day whose date did not parse under None |
| Studentenwerk.MenusByDateContents | src/menu_parser.py:249-250 | the keys are exactly the days' dates, None included, and each key holds a menu of that date |
| Studentenwerk.CollectedDates | src/menu_parser.py:241-269 | a date, or None, is stored exactly when a day before the first failing day has it, and it holds a menu of that date |
| Studentenwerk.UndatedDayKept | src/menu_parser.py:241-269 | a day whose date did not parse does not end the loop: it is stored under None and a later dated day is still stored |
| FmiBistro.RelevantText | src/menu_parser.py:475-494 | the lines from the fifth to the 19th from last, without ignored lines, each without its first 13 characters |
| FmiBistro.KeptLinesBound | src/menu_parser.py:490-493 | no more lines are kept than the window has, and each kept line is an unignored line of the window with its first 13 characters dropped |
| FmiBistro.ShortTextHasNoLines | src/menu_parser.py:488-490 | a text of at most 22 lines has no relevant line |
| FmiBistro.TitlePartTrimmed | src/menu_parser.py:462-473 | a title part is non-empty and has no white space at either end |
| FmiBistro.LabelAndPriceFound | src/menu_parser.py:496-517 | no price is found exactly when the price window holds no digit; otherwise the labels are the label window's first label list and the price the window's first price |
| FmiBistro.WindowSlices | src/menu_parser.py:498-515 | the price window is 15 characters either side of the column's end, its start counted from the line's end when negative; the label window starts at the line's start at the earliest |
| FmiBistro.FirstColumnWindowWraps | src/menu_parser.py:498-505 | on a 20-character line the first column's price is searched in characters 9 to 18, by the negative-start wrap-around |
| FmiBistro.PriceTextShape | src/menu_parser.py:503-508 | a price is found exactly when the window holds a digit, and it is digits with an optional comma and digits |
| FmiBistro.PriceRoundTrip | src/menu_parser.py:503-509 | a price written with a decimal comma is found whole and read back as the amount it was written from |
| FmiBistro.PriceTextOfFormat | src/menu_parser.py:503-506 | the price pattern matches a formatted price whole |
| FmiBistro.PriceCentsOfFormat | src/menu_parser.py:509 | reading a formatted price gives its cents |
| FmiBistro.LabelTextShape | src/menu_parser.py:510-516 | the label text is "" exactly when there is no ASCII letter; otherwise it starts and ends with a letter and every comma is followed by a letter |
| FmiBistro.DayDishes | src/menu_parser.py:428-457 | the inner loop over the lines of one weekday equals the scan specification |
| FmiBistro.ScanDayShape | src/menu_parser.py:430-457 | a day has at most four dishes, typed soup, meat, vegetarian and vegan in order, with staff paying the students' price and guests 80 cents more |
| FmiBistro.FifthPriceLineFails | src/menu_parser.py:438-444 | more euro lines with prices than dish types left make a ParsingError |
| FmiBistro.NoPriceLineNoDishes | src/menu_parser.py:432-458 | a day without a euro line has no dishes and does not fail |
| FmiBistro.UnpricedLineEndsDay | src/menu_parser.py:445-448 | title lines followed by a euro line with no price in the day's columns give exactly the dishes found before them |
| FmiBistro.LinesAfterBreakIgnored | src/menu_parser.py:436-448 | whatever lines follow a euro line without a price, reached with a dish type left, the day's dishes are the same and the day does not fail |
| FmiBistro.GetMenus | src/menu_parser.py:422-460 | `get_menus` equals the week specification over the relevant lines |
| FmiBistro.ReadWeek | src/menu_parser.py:427-460 | the loop over the dates equals the week specification: a failing day fails the week, other days with dishes are stored under their dates |
| FmiBistro.WeekFailureSticks | src/menu_parser.py:427-444 | once a day fails, the week fails with that error |
| FmiBistro.WeekMenusShape | src/menu_parser.py:427-459 | every stored menu lies in the given dates, is stored under its own date and has one to four dishes of the FMI shape |
| FmiBistro.WeekMenusComplete | src/menu_parser.py:458-459 | a date is stored exactly when its day has dishes |
| Mediziner.WeekYearGroupsDigits | src/menu_parser.py:596 | the two groups of the file-name match are digit strings, and the week's does not start with 0 |
| Mediziner.WeekAndYearRange | src/menu_parser.py:596-608 | a week and year read from the name have a positive week and a four-digit year; a two-digit year is counted from 2000 |
| Mediziner.NoKwIsError | src/menu_parser.py:596-598 | a name without a matching `KW_` part is a RuntimeError |
| Mediziner.NatToStringLength | src/menu_parser.py:603-605 | `len(str(n))` by magnitude, which decides the year's two- or four-digit case |
| Mediziner.StripLabelsDone | src/menu_parser.py:564-570 | the label loop ends only once the label pattern no longer matches |
| Mediziner.ParseDishLabels | src/menu_parser.py:563-570 | the loop collects the labels of every pass and leaves the text the last substitution gives |
| Mediziner.NoEuroNoPrice | src/menu_parser.py:575-579 | a text without a euro sign has no price and keeps its text |
| Mediziner.PriceMatchReads | src/menu_parser.py:576-578 | a price written as euros, comma, two digits and " €" is matched and read as its cents |
| Mediziner.ParseDish | src/menu_parser.py:562-581 | `parse_dish` equals the dish specification: labels stripped, white space collapsed, the last price for students, a "Tagesgericht" |
| Mediziner.TypesLineFacts | src/menu_parser.py:627-635 | a non-empty dish-types line is the last non-empty line before the first "***" line |
| Mediziner.DishTypesLine | src/menu_parser.py:627-635 | the dish-types loop computes that line |
| Mediziner.SplitWidePieces | src/menu_parser.py:636 | no piece of the split holds two white space characters in a row |
| Mediziner.NonEmpty | src/menu_parser.py:637 | exactly the non-empty pieces are kept |
| Mediziner.WeekLines | src/menu_parser.py:639-652 | the lines kept run from the first "Montag" line up to, not including, the last "***" line after it |
| Mediziner.LastWithUnique | src/menu_parser.py:648-651 | the last "***" index is the only index with the search's properties |
| Mediziner.DayTexts | src/menu_parser.py:654-661 | the day texts are exactly the split pieces that are neither empty nor a weekday name |
| Mediziner.DayColumns | src/menu_parser.py:678-682 | the soup column is characters 0-36 of each line and the main column characters 40-100, each trimmed |
| Mediziner.ParseMain | src/menu_parser.py:700-711 | one dish text: an "Extraessen" text switches the type; any other gives a dish unless its name is "" or "Feiertag" |
| Mediziner.ParseMains | src/menu_parser.py:695-711 | the main-dish loop equals the main-dish specification |
| Mediziner.MainDishesTyped | src/menu_parser.py:695-711 | every main dish is named, typed with the current type, and after "Extraessen" every dish is "Extraessen" |
| Mediziner.ParsedType | src/menu_parser.py:581 | every dish `parse_dish` builds is a "Tagesgericht" |
| Mediziner.DishesTyped | src/menu_parser.py:684-711 | no dish is named "" or "Feiertag"; the soup comes first, typed with the first dish type or "Suppe"; main dishes are typed with the second type, "Extraessen" or "Tagesgericht" |
| Mediziner.DayMenuTyped | src/menu_parser.py:676-711 | the same, for a day's text as `get_menus` splits it |
| Mediziner.ParseDay | src/menu_parser.py:676-716 | one day of the loop equals the day specification |
| Mediziner.WeekDatesFacts | src/menu_parser.py:713 | the seven weekday dates of a week are distinct, and each lies in that ISO week |
| Mediziner.WeekMenusFail | src/menu_parser.py:713-717 | the week succeeds exactly when every day has a date, and otherwise fails with such a day's error |
| Mediziner.WeekMenusDates | src/menu_parser.py:713-717 | a successful week holds one menu per day under that day's date, with that day's dishes, and nothing else |
| Mediziner.WeekFailure | src/menu_parser.py:713 | a failing day fails the whole week with its error |
| Mediziner.MedizinerMenusWeek | src/menu_parser.py:622-719 | `get_menus` returns None unless the text splits into seven days; it gives seven menus, one per weekday of the ISO week; it fails, with ValueError, only for a week `get_date` rejects |
| Mediziner.WeekOfDates | src/menu_parser.py:665-717 | seven days' dishes under the dates of an ISO week: one menu per weekday, or a ValueError |
| Mediziner.WeekOfDatesFail | src/menu_parser.py:713-719 | a failing week fails with the ValueError of a weekday `get_date` rejects |
| Mediziner.WeekOfDatesOk | src/menu_parser.py:713-719 | a successful week holds seven menus, each under its own date of the requested ISO week |
| Mediziner.MedizinerParseOutcome | src/menu_parser.py:583-620 | None unless exactly one link; a RuntimeError exactly when the PDF name yields no week and year; otherwise `get_menus` of that week and year, whose menus lie in that ISO week |
| Mediziner.GetMenus | src/menu_parser.py:622-719 | the loops of `get_menus` equal its specification |
| Straubing.LastIndexOf | src/menu_parser.py:826 | `rfind`: the last index holding the character, or -1 when there is none |
| Straubing.DecimalCents | src/menu_parser.py:834-836 | a price cell reads as a non-negative amount or fails with ValueError |
| Straubing.DecimalCentsOfFormat | src/menu_parser.py:834-836 | a price written with a decimal comma reads back as its amount |
| Straubing.NoDigitNoPrice | src/menu_parser.py:834-836 | a cell without a digit is a ValueError |
| Straubing.RowPricesRead | src/menu_parser.py:833-837 | the prices read exactly when columns 6-8 exist and are numbers; a row of fewer than seven columns is an IndexError |
| Straubing.ReadPrices | src/menu_parser.py:833-837 | reading the three columns in order equals the row-price specification |
| Straubing.ParseDish | src/menu_parser.py:822-843 | `parse_dish` with its in-place label set equals the dish specification |
| Straubing.StraubingDishShape | src/menu_parser.py:822-843 | a row gives a dish exactly when its prices read, otherwise an IndexError or ValueError; the dish has the type column and the marks' labels; a title with "(" is cut there and trimmed |
| Straubing.RowFailureSticks | src/menu_parser.py:809-817 | once a row fails, later rows do not change the outcome |
| Straubing.RowDishesAt | src/menu_parser.py:809-817 | when the rows succeed, every row is non-empty, its date cell reads as its date, and it gives its dish |
| Straubing.RunsSeparate | src/menu_parser.py:809-819 | no run of rows is empty and neighbouring runs have different dates |
| Straubing.ExtendSeparate | src/menu_parser.py:809-819 | adding a row keeps the runs non-empty and separated, and the last run has the row's date |
| Straubing.RunsCover | src/menu_parser.py:809-819 | the runs hold every dish exactly once, in row order, each under its row's date |
| Straubing.RunsByDate | src/menu_parser.py:809-819 | stored by date, the runs have exactly the row dates as keys, each holding a non-empty menu of that date |
| Straubing.StraubingMenuKeys | src/menu_parser.py:803-820 | a parsed week's keys are exactly its rows' dates, each with a non-empty menu of that date |
| Straubing.ParseMenu | src/menu_parser.py:803-820 | the loop with its date and dishes accumulators equals the grouping specification |
| Straubing.BadDateCellFails | src/menu_parser.py:806-810 | a date cell that does not read, after rows that do, fails the page with that cell's error |
| Straubing.MalformedDateFailsParse | src/menu_parser.py:780-810 | on the first page read, a malformed first date cell, or a later row's once the page is current, ends `parse` with that error |
| Straubing.StraubingWeeksDates | src/menu_parser.py:774-793 | every collected menu is stored under its own date and has a dish, and every date collected before a page stays a key |
| Straubing.StraubingWeeksKeep | src/menu_parser.py:787 | `menus.update` keeps a menu collected before a page unchanged unless a later page's rows carry its date |
| Straubing.ParseWeeks | src/menu_parser.py:766-795 | the week loop equals its specification: it stops at a failed download or at a page that is older than the cutoff, and fails on an empty page or a date cell that does not read |
| Heilbronn.AvailableDatesOpen | src/menu_parser.py:894-904 | the available dates are exactly the dates of the days that are not closed |
| Heilbronn.DayMenusFail | src/menu_parser.py:885-886 | the date loop succeeds iff every available date reads; otherwise it fails with the error of the first date that does not, downloaded or not |
| Heilbronn.MealDishesOneForOne | src/menu_parser.py:873-883 | dish `k` has meal `k`'s name and category, no labels and per-portion prices with base 0 |
| Heilbronn.DayMenusFromPages | src/menu_parser.py:885-891 | when the loop succeeds, every menu comes from a page that downloaded, under that page's date |
| Heilbronn.PagesMakeMenus | src/menu_parser.py:885-891 | when the loop succeeds, every page that downloaded makes a menu under its date |
| Heilbronn.HeilbronnMenusKeys | src/menu_parser.py:885-892 | the keys are the parsed dates of the downloaded pages, and each key holds a downloaded page's menu under its own date |
| Heilbronn.Parse | src/menu_parser.py:870-892 | the loop over the available dates equals the specification, including the error of a date that does not read |
| Dispatch.SupportDisjoint | src/menu_parser.py:61-84 | no canteen is claimed by two parsers |
| Dispatch.ResolveAll | src/main.py:22-29 | the set display evaluates exactly when every listed name exists, and otherwise raises AttributeError |
| Dispatch.Search | src/main.py:31-34 | the search returns a listed parser that supports the canteen, and None exactly when none does |
| Dispatch.ListedParsersRaise | src/main.py:21-34 | as written, every canteen ends in AttributeError |
| Dispatch.StrategySupports | src/main.py:21-34 | the intended strategy returns a parser supporting the canteen, and None exactly for the IPP bistro |
| Dispatch.GetStrategy | src/main.py:21-34 | in any iteration order of the existing parsers, the search returns the intended strategy |
| Dispatch.NameLeTotal | src/main.py:109 | any two names are comparable |
| Dispatch.NameLeTrans | src/main.py:109 | the name order is transitive |
| Dispatch.NameLeAntisym | src/main.py:109 | the name order is antisymmetric |
| Dispatch.SortedPairs | src/main.py:109 | neighbour order gives the order of every pair |
| Dispatch.SortByName | src/main.py:109 | the dishes end in name order and are a permutation of the original ones |
| Dispatch.Sink | src/main.py:109 | one insertion step: the first `i + 1` dishes end in name order and the array holds the same dishes |
| Dispatch.SortMenus | src/main.py:108-109 | every menu keeps its date and its dishes, now sorted; no menu is added or dropped |
| Dispatch.WeekObjects | src/main.py:74 | one JSON week per week, in the dictionary's order |
| Dispatch.CombinedJson | src/main.py:59-78 | a combined object exists exactly when combining is asked for; it has version "2.1", the canteen id and the weeks in order |
| Translate.PairsKeys | src/translate.py:29-30 | the cache gains exactly the keys given |
| Translate.PairsValues | src/translate.py:29-30 | with distinct keys, each key gets the value at its position |
| Translate.ZipPairs | src/translate.py:29-30 | `zip` pairs the first `min` keys with the values at their positions, and adds no other key |
| Translate.ListsEmpty | src/translate.py:24-26 | the list of a set is empty exactly when the set is, so no request is sent exactly when every text is cached |
| Translate.ZipFresh | src/translate.py:24-30 | adding the answers for a request listing exactly the uncached texts replaces no entry and adds only requested texts |
| Translate.WeeksTranslatedLater | src/translate.py:122-127 | a translated week stays translated as the cache grows |
| Translate.Translator.constructor | src/translate.py:15-21 | the cache starts empty with the given languages |
| Translate.Translator.Prefetch | src/translate.py:23-30 | no request when every text is cached; otherwise one request listing exactly the uncached texts, the answers added by `zip`, no entry replaced and no unrequested key added |
| Translate.Translator.StoreAnswers | src/translate.py:29-30 | the cache becomes the old cache updated with the `zip` of the request and the answers |
| Translate.Translator.Translate | src/translate.py:32-38 | a cached text is answered from the cache, which stays the same; otherwise the service's answer is stored under the text and returned |
| Translate.Translator.TranslateDays | src/translate.py:122-127 | every dish name of the week is replaced by its cached translation, with everything else kept; the new cache is exactly the prefetched cache plus a single answer for each name the batch did not cover |
| Translate.Translator.TranslateDay | src/translate.py:125-127 | every dish name of one day is replaced by its cached translation, the rest kept; the new cache is the old one after `translate` of each name in dish order |
| Translate.Translator.TranslateEachDay | src/translate.py:125-127 | every day of the list is translated, no entry is replaced, and the new cache is the old one after the days' dishes in turn |
| Translate.Translator.TranslateCanteens | src/translate.py:109-111 | every canteen keeps its other members and has all its weeks translated; the new cache is the old one after each canteen's weeks in turn |
| Translate.Translator.TranslateWeeks | src/translate.py:113-114 | every week of the list is translated, no entry is replaced, and the new cache is the old one after translating each week in turn |
| Translate.Translator.TranslateFile | src/translate.py:103-116 | the file name chooses the shape; every week the document holds is translated in place, everything else is kept, and the new cache is the old one after translating each of the document's weeks in turn |
| Translate.WeekNamesMembers | src/translate.py:124 | the prefetched set holds exactly the dish names of the week's days |
| Translate.Translator.PrefetchedFacts | src/translate.py:23-30 | a prefetch replaces no entry; each request text the answers reach holds the answer at its position, and nothing else is added |
| Translate.Translator.SinglesFacts | src/translate.py:32-38 | translating a set of texts one by one replaces no entry, caches every text, and gives each uncached text its single answer |
| Translate.Translator.BatchThenSingles | src/translate.py:122-127 | after `translate_days` every name is cached and the cache gains only the week's names; a name of the batch request holds the batch answer at its position, and a name the answers did not reach holds its single answer |
| Translate.Translator.DishesInTurnSingles | src/translate.py:125-127 | translating the dishes' names in their order gives the same cache as adding a single answer for each uncached name |
| Translate.Translator.DaysInTurnSingles | src/translate.py:125-127 | the same for all days of a week |
| Translate.Translator.SinglesCompose | src/translate.py:32-38 | translating two sets of texts one after the other equals translating their union |
| Translate.Translator.WeekAnswered | src/translate.py:122-127 | `translate_days` replaces no cache entry, and each entry it adds is a batch or single answer of the service |
| Translate.Translator.WeeksAnswered | src/translate.py:113-114 | the same for a list of weeks |
| Translate.Translator.CanteensAnswered | src/translate.py:109-111 | the same for every week of every canteen |
| Translate.Translator.DocumentAnswered | src/translate.py:103-116 | `translate_file` replaces no cache entry, and each entry it adds came from the service |

## Left out

- Network, files and processes: `requests.get`, the temporary PDF files, the `pdftotext` call
  and the cache's `load_cache`/`save_cache`. Their results are inputs: page texts, rows,
  JSON records, and None for a failed download.
- HTML (lxml and XPath), `csv.reader`, JSON decoding and `page.content.decode("cp1252")`.
  Their outputs are inputs: columns of texts, rows of cells, records.
- `datetime.date.today()`, `isocalendar()` and the FMI URL list: the dates of a week and the
  Straubing cutoff date are parameters.
- `util.parse_date` and `strptime("%Y-%m-%d")` are parameters `parseDate` that give a date or
  an error; which strings they reject (a ValueError in the source) is not modelled.
  `util.make_duplicates_unique`, `Menu.remove_duplicates`, NFKC normalisation and the two
  `re.split` calls of `get_menus` (day headings, main-dish pieces) are parameters as well,
  bundled in `Mediziner.Tokenisers`.
- `Label.add_supertype_labels` is the parameter `close`. `src/entities.py` is not part of this
  model, so the label taxonomy, `Week.to_weeks` and `to_json_obj` are parameters or absent.
- Entities.Canteen: the `Canteen` enumeration lives in `src/entities.py`, which is not part of
  this model. The model's catalogue is assumed: the canteens the parsers' `canteens` sets
  name, plus the IPP bistro that `main.py`'s parser list refers to.
- Entities.Prices: the defaults of `Prices()` are assumed to leave all three classes absent;
  their definition is in `src/entities.py`.
- Dispatch.StrategySupports: "None exactly for the IPP bistro" holds for the assumed
  catalogue above. A canteen of the real enumeration that no parser supports would also get
  None.
- IsoDates.GetDate: week 0, and week 53 of a year with 52 weeks, are ValueError, as Python
  3.12 and later evaluate `strptime("%G-W%V-%u")`. Python 3.10 and 3.11 instead roll such a
  week into the neighbouring ISO year. The source runs on either.
- FMI: the ignore-line regular expression is the parameter `ignored`. It is built by iterating
  a Python set, so its alternation order is not fixed. `parse`'s merging of two weeks with
  `menus.update` is not modelled; `get_menus` for one week is.
- Mediziner: `parse`'s link search, download and text extraction are inputs. The file-name
  regular expression is modelled; the unescaped `.` in its `.*` parts is read as any character.
- Studentenwerk: the result of `parse` is keyed by `Option<Date>`, as the source's is, since
  a day whose date string fails to parse is stored under None. The model's other parsers key
  by `Date`. Its `if menu:` is taken as always true: `get_menu` always returns a `Menu`
  object, assumed truthy since `src/entities.py` is not part of this model.
- FmiBistro.PriceCents, Straubing.DecimalCents: prices are whole cents, so a third and later
  decimal of a price text is dropped rather than kept as a float. DecimalCents accepts only
  blanks, digits and one decimal mark; `float()`'s signs, exponents, underscores, `inf` and
  `nan` are not modelled.
- `\d` and `\s` are read as ASCII digits and Python's white space. Unicode digits other than
  `0`-`9` are not modelled.
- Heilbronn: a meal record without a `prices` member or without a price key raises KeyError in
  the source. The model's records always have the three prices, absent as None.
- Translate.Translator.TranslateFile: a document whose JSON does not have the shape its file
  name announces raises KeyError in the source. The requires `ShapedFor` excludes it.
- Translate: the source updates the JSON objects in place. The model returns the rewritten
  objects and states that everything else is unchanged. `main` and `parse_args` of
  `translate.py` are not modelled.
- `main.py`'s `jsonify` writes one file per week and creates directories; only the combined
  object's contents are modelled. `main` and the command line are not modelled.
- Dispatch.SortByName: `list.sort` is stable, but the model states sortedness and permutation
  only, not stability.
- Straubing.ParseWeeks: the source loops until a download fails or a page is stale. The model
  loops over a finite list of pages and also stops at its end.

## Findings

| source | as written | input that shows it | evidently intended | confidence | as-written member | corrected member |
|---|---|---|---|---|---|---|
| src/main.py:25 | the `parsers` set display names `menu_parser.IPPBistroMenuParser`, which `menu_parser` does not define, so building the set raises AttributeError before any canteen is looked at | any canteen, e.g. FMI_BISTRO | return the parser whose `canteens` hold the canteen, and None when no parser does | not executed | Dispatch.ListedParsersRaise | Dispatch.GetStrategy |
