# haksik-kokiri menu extraction, modelled in Dafny

haksik-kokiri collects the cafeteria menus of the Dongguk University
co-op (상록원) and serves them as `Meal` records. This project models
and proves the part that turns menu tables into records. It has two
kinds of code:

- **cell scanners** read the markup of one table cell and return
  `MenuItem`s: names, a price and operating hours;
- **table walkers** turn the rows of a table into `Meal`s, each with a
  restaurant, day, meal type, status and items.

There are four extractors and a shared helper:

- **Floor 1** (`src/tasks/dgucoop/floor-1.ts`), the 솥앤누들 and 분식당
  corners.
  - A line scanner with a cursor: it remembers the current operating
    hours, takes a price from the same line, or consumes a price-only
    next line.
  - A classifier that files each item under lunch, dinner or both, with
    the cutoff at hour 15.
  - A walker that emits a lunch meal and a dinner meal per mapped
    corner.
- **Floor 2 and floor 3** (`floor-2.ts`, `floor-3.ts`). They share one
  cell grammar, modelled once in `CellGrammar` with a floor parameter.
  - A set-menu form, triggered by a `￦ n` price: one item whose names
    are the cleaned lines, split on `*` (and on `&` for floor 3).
  - An itemized form: repeated `(name)(n원)` matches, where a `/` splits
    a name into several items.
  - A line-by-line fallback for when the itemized form finds no match.
  - Floor 3 adds the `closed` and `unavailable` outcomes. Its walker
    always emits a lunch and a dinner meal per mapped corner.
- **The weekly table** (`src/tasks/menu-parser.ts`, class `MenuParser`).
  - Price extraction, where `￦ n` takes precedence over `n원`.
  - A two-strategy cell parser.
  - The constant-menu expander: Monday to Friday × lunch and dinner.
  - A row state machine that tracks the current section and corner. It
    reads the day columns off the header row and shifts the data column
    by one when the row has no rowspan cell.
- **The weekday tag** (`src/tasks/utils/day.ts`).

How the model is built:

- **Tables as data.** A table is a `seq<Row>`, and a row is a
  `seq<Cell>` with the DOM properties the code reads: text, inner HTML,
  `rowspan`, `colspan`, the `menu_st` class and the content span.
- **Regexes as functions.** Every regular expression the code uses is a
  string function in `Text` and `Tokens`. Greedy patterns keep their
  greedy semantics: `\(.*\)` and `<span.*<\/span>` delete from the first
  opening token to the last closing token on the same line. A
  `.replace(...).trim()` chain becomes a list of `Cleanup.Edit`s,
  written in the source's order.
- **JS numbers.** A price is an `Amount`: `Absent` for `undefined`,
  `NotANumber` for the `NaN` that `parseInt` returns on a comma-only
  group, and `Won(n)` otherwise. `Amount.Truthy` is JavaScript
  truthiness.
- **Loops.** Every loop is a Dafny method proved equal to a
  specification function:
  - a `for ... of` loop is specified by a function over a prefix;
  - a cursor loop with `i++` skipping is specified by a function of the
    cursor.

  The properties are then lemmas about those functions.
- **The weekly parser's state.** `MenuParser` has no mutable fields;
  its constant maps are functions. `parseConstantMenu`'s push into the
  caller's array is a method that returns the extended sequence.
- **Record types.** `src/types/meal.d.ts` declares fewer fields than
  the code writes. The model follows the code: `Meal` has `status`,
  `notes` and optional `items`, and `MenuItem` has `openAndCloseTime`.

## Model

| member | source | states |
|---|---|---|
| DayUtil.DayOfWeek | src/tasks/utils/day.ts:3-6 | the tag of index 0–6 sits at that index of the week; index 0 is `sun` exactly, index 6 is `sat` exactly |
| DayUtil.DayOfWeekOfIndex | src/tasks/utils/day.ts:5-6 | every tag is the lookup of its own index, so the lookup is onto the seven tags |
| DayUtil.DayOfWeekInjective | src/tasks/utils/day.ts:5-6 | distinct indices in 0–6 give distinct tags |
| DayUtil.WorkdaysInOrder | src/tasks/utils/day.ts:5 | indices 1..5 are `mon`..`fri` in order |
| Floor1.MealTypeFromTime | src/tasks/dgucoop/floor-1.ts:11-46 | no hours, or anything but an exact `HH:MM~HH:MM`, gives `both`; otherwise start<15 and end≥15 gives both, start<15 alone lunch, end≥15 alone dinner, neither both |
| Floor1.OnlyHoursMatter | src/tasks/dgucoop/floor-1.ts:25-45 | two ranges with the same hours classify alike, whatever their minutes |
| Floor1.NoteAfterRangeServesBoth | src/tasks/dgucoop/floor-1.ts:20-23 | `"11:30~13:50(한정판매)"` is classified `both` |
| Floor1.PricedItem | src/tasks/dgucoop/floor-1.ts:82-109 | a same-line `n원` price wins: it prices the item and is cut from the name, and the item exists exactly when a name is left after the cut; otherwise a price-only trimmed next line is consumed exactly when present and prices an item named by the whole line; with neither, the item is the whole line at an undefined price; the item keeps the current hours |
| Floor1.LineOutcome | src/tasks/dgucoop/floor-1.ts:63-109 | an empty cleaned line does nothing; a line starting with `HH:MM~HH:MM` emits no item and sets the hours to that range; every other line keeps the hours and is read for its name and price exactly as `PricedItem` states; a skip only follows a price-only next line |
| Floor1.Step | src/tasks/dgucoop/floor-1.ts:91 | the cursor only skips a line that exists (`lines[i + 1] \|\| ''`) |
| Floor1.ScanBounded | src/tasks/dgucoop/floor-1.ts:61-110 | the scanner emits at most one item per remaining line |
| Floor1.ScanExtends | src/tasks/dgucoop/floor-1.ts:61-110 | the scanner only appends: items already emitted stay first, in order |
| Floor1.ScanUnfold | src/tasks/dgucoop/floor-1.ts:61-110 | one iteration of the loop: append the line's item and advance one line, or two after a consumed price line |
| Floor1.ScanWellFormed | src/tasks/dgucoop/floor-1.ts:75-79 | every emitted item has one non-empty name, and its hours are absent or a well-formed `HH:MM~HH:MM` range |
| Floor1.ReadPricedItem | src/tasks/dgucoop/floor-1.ts:82-100 | the price block computes the item and the skip of `PricedItem` |
| Floor1.ParseMenuCell | src/tasks/dgucoop/floor-1.ts:53-112 | the cursor loop returns the scan's items: at most one per `<br>` line, each well formed |
| Floor1.ItemsFor | src/tasks/dgucoop/floor-1.ts:157-167 | the items listed under a meal type are exactly those whose period serves it, and no more than there are items; one item is kept exactly when its period serves the meal type |
| Floor1.SplitByMealType | src/tasks/dgucoop/floor-1.ts:154-167 | the two lists are the lunch and dinner filters; every item lands in at least one of them, and a `both` item lands in both |
| Floor1.ItemsForConcat | src/tasks/dgucoop/floor-1.ts:157-167 | the filter keeps the source order: the items for `a + b` are those for `a` followed by those for `b` |
| Floor1.Corner | src/tasks/dgucoop/floor-1.ts:142-148 | only `메뉴1` with a non-empty cell maps to 솥앤누들, and only `메뉴2` with a non-empty cell maps to 분식당 |
| Floor1.CornerMeals | src/tasks/dgucoop/floor-1.ts:169-188 | at most a lunch meal then a dinner meal, each open with non-empty items that are that meal type's filter; every item is in some emitted meal |
| Floor1.RowCorner | src/tasks/dgucoop/floor-1.ts:129-148 | a row is parsed exactly when it has two cells, header `메뉴1`/`메뉴2` and a non-empty trimmed menu cell |
| Floor1.RowMeals | src/tasks/dgucoop/floor-1.ts:128-189 | an unmapped row emits nothing; a mapped row emits its corner's meals for the parsed cell |
| Floor1.Floor1MealsShape | src/tasks/dgucoop/floor-1.ts:169-188 | every floor-1 meal is open, with non-empty items, for a floor-1 corner, the given day and timestamp |
| Floor1.OtherRowsContributeNothing | src/tasks/dgucoop/floor-1.ts:132-148 | a short row, or one whose header is neither `메뉴1` nor `메뉴2` (so also `구분`), adds nothing |
| Floor1.PushCornerMeals | src/tasks/dgucoop/floor-1.ts:150-188 | one row's iteration appends exactly that corner's meals |
| Floor1.ParseFloor1Menu | src/tasks/dgucoop/floor-1.ts:119-192 | the row loop returns the meals of all rows, in row order, for the day of the given weekday index |
| CellGrammar.SetPrice | src/tasks/dgucoop/floor-2.ts:45-46 | the set price is absent exactly when there is no `￦ n`; otherwise it is `parseInt` of the digit group of the first `￦ n` |
| CellGrammar.LineNames | src/tasks/dgucoop/floor-3.ts:63-79 | an empty line names nothing; pieces are non-empty; a line with `*` gives the non-empty trimmed segments of its `*`-split, each `*`-free; on floor 3 a line with `&` and no `*` gives those of its `&`-split, each `&`-free; a line with neither names itself |
| CellGrammar.SetNames | src/tasks/dgucoop/floor-2.ts:52-73 | no component name of a set menu is empty |
| CellGrammar.ReadSetLine | src/tasks/dgucoop/floor-3.ts:63-79 | one cleaned line contributes `LineNames` |
| CellGrammar.CollectSetNames | src/tasks/dgucoop/floor-2.ts:53-73 | the `for ... of lines` loop collects the names of every cleaned line, in order |
| CellGrammar.SingleLineHasNoLineTerminator | src/tasks/dgucoop/floor-2.ts:86-93 | after `\s+` became spaces and the trim, the joined line holds no line terminator, so the lazy name group of every match starts at `lastIndex` |
| CellGrammar.SubNames | src/tasks/dgucoop/floor-2.ts:116-127 | the `/`-separated sub-names are non-empty, at most one per part |
| CellGrammar.MatchNames | src/tasks/dgucoop/floor-2.ts:104-135 | a match names only non-empty items; a cleaned name without `/` gives itself or nothing |
| CellGrammar.Priced | src/tasks/dgucoop/floor-2.ts:121-134 | one item per name |
| CellGrammar.PricedAt | src/tasks/dgucoop/floor-2.ts:116-127 | the k-th item is the k-th name alone, at the match's price and the cell's hours, so every sub-name shares both |
| CellGrammar.PricedSubNamesStep | src/tasks/dgucoop/floor-2.ts:118-127 | each further part adds exactly its sub-name when that is non-empty |
| CellGrammar.PushSubNames | src/tasks/dgucoop/floor-2.ts:116-127 | the loop over the parts appends one item per non-empty sub-name |
| CellGrammar.PushMatch | src/tasks/dgucoop/floor-2.ts:104-135 | one match appends the items of its names |
| CellGrammar.ExecScan | src/tasks/dgucoop/floor-2.ts:98-136 | the `exec` loop returns the items of every match, in order; `foundMatches` holds exactly when there is an `n원` match |
| CellGrammar.FallbackStep | src/tasks/dgucoop/floor-2.ts:142-159 | a name line consumes the next line exactly when that line is price-only; once it does, an item is pushed exactly when the cleaned name is non-empty, named by that name, at that price, with the cell's hours |
| CellGrammar.FallbackLinesAt | src/tasks/dgucoop/floor-3.ts:140-143 | each fallback line is that line's cleanup |
| CellGrammar.ReadFallbackItem | src/tasks/dgucoop/floor-2.ts:145-159 | the fallback loop body computes `FallbackStep` |
| CellGrammar.FallbackScan | src/tasks/dgucoop/floor-2.ts:140-161 | the fallback cursor loop returns the fallback scan's items |
| CellGrammar.ParseCellItems | src/tasks/dgucoop/floor-2.ts:36-166 | the cell parser returns the set item when the set price is truthy, otherwise the `exec` items, or the fallback's when there was no match |
| CellGrammar.PricedShape | src/tasks/dgucoop/floor-2.ts:121-134 | items priced from a match have one non-empty name, a parsed price and the cell's hours |
| CellGrammar.ExecShape | src/tasks/dgucoop/floor-2.ts:98-136 | every item of the `exec` loop has one non-empty name, a parsed price and the cell's hours |
| CellGrammar.FallbackShape | src/tasks/dgucoop/floor-2.ts:140-161 | the same holds for every fallback item |
| CellGrammar.PricedItemsShape | src/tasks/dgucoop/floor-2.ts:82-162 | the same holds on the whole itemized path |
| CellGrammar.CellItemsShape | src/tasks/dgucoop/floor-2.ts:39-80 | every item is well named and carries the first time range of the cell; with a truthy set price there is at most one item, at the set price; otherwise each item has a single name and a price |
| Floor2.CornerOf | src/tasks/dgucoop/floor-2.ts:17-21 | exactly `일품`, `양식` and `뚝배기` map, to their corners, all of them targets |
| Floor2.RowCorner | src/tasks/dgucoop/floor-2.ts:183-200 | a row is parsed exactly when it has three cells and a mapped trimmed header |
| Floor2.CellMeal | src/tasks/dgucoop/floor-2.ts:203-231 | a cell gives a meal exactly when its trimmed markup is non-empty and it has items; that meal is open with those items |
| Floor2.ParseMenuCellFloor2 | src/tasks/dgucoop/floor-2.ts:36-166 | the floor-2 cell parser is the shared grammar in its floor-2 variant |
| Floor2.PushCellMeal | src/tasks/dgucoop/floor-2.ts:203-216 | one cell block appends that cell's meal, if any |
| Floor2.ParseFloor2Menu | src/tasks/dgucoop/floor-2.ts:173-236 | the row loop returns the meals of all rows in order, for the day of the given weekday index |
| Floor2.RowMealsOrder | src/tasks/dgucoop/floor-2.ts:182-233 | a row gives at most two meals, lunch before dinner, and none for an unmapped corner |
| Floor2.RowMealsShape | src/tasks/dgucoop/floor-2.ts:202-232 | each meal of a row is open with well-named items, for a target corner, lunch or dinner |
| Floor2.Floor2MealsShape | src/tasks/dgucoop/floor-2.ts:182-233 | every floor-2 meal has that shape |
| Floor2.UnmappedRowsContributeNothing | src/tasks/dgucoop/floor-2.ts:188-200 | a short row or an unmapped header (`구분`, `백반`) adds nothing |
| Floor2.SetCellMeal | src/tasks/dgucoop/floor-2.ts:50-80 | a cell with a truthy `￦ n` gives a meal with exactly one item, at that price |
| Floor2.OneItemMeal | src/tasks/dgucoop/floor-2.ts:204-215 | a meal built from at most one item priced `p` holds exactly that one item |
| Floor3.Floor3Cell | src/tasks/dgucoop/floor-3.ts:21-175 | `휴무` gives closed with the text as notes; empty text gives closed with no notes; no items gives unavailable with `메뉴 정보 없음`; open exactly when there are items, and then they are the grammar's |
| Floor3.ParseMenuCellFloor3 | src/tasks/dgucoop/floor-3.ts:21-175 | the floor-3 cell parser computes `Floor3Cell` |
| Floor3.CornerOf | src/tasks/dgucoop/floor-3.ts:13-16 | exactly `집밥` and `한그릇(한정판매)` map, to their corners, both targets |
| Floor3.RowCorner | src/tasks/dgucoop/floor-3.ts:192-210 | a row is parsed exactly when it has three cells and its header, with all white space removed, is mapped |
| Floor3.CellMeal | src/tasks/dgucoop/floor-3.ts:220-240 | a consistent cell result gives exactly one meal; an open one carries the items and no notes; a non-open one has null items and the parser's status and notes |
| Floor3.PushCellMeal | src/tasks/dgucoop/floor-3.ts:213-240 | one cell block appends that cell's meal |
| Floor3.PushRowMeals | src/tasks/dgucoop/floor-3.ts:191-240 | one row appends that row's lunch and dinner meals, or nothing when the row is short, the 구분 header or an unmapped corner |
| Floor3.ParseFloor3Menu | src/tasks/dgucoop/floor-3.ts:182-274 | the row loop returns the meals of all rows in order, for the day of the given weekday index |
| Floor3.RowMealsExactlyTwo | src/tasks/dgucoop/floor-3.ts:213-270 | a mapped row gives exactly two meals, lunch then dinner; an unmapped row none |
| Floor3.RowCellMealShape | src/tasks/dgucoop/floor-3.ts:220-240 | a cell's meal is open with non-empty items exactly when open, and otherwise has null items |
| Floor3.RowMealsShape | src/tasks/dgucoop/floor-3.ts:213-270 | every meal of a row has the floor-3 shape |
| Floor3.Floor3MealsShape | src/tasks/dgucoop/floor-3.ts:191-271 | every floor-3 meal has the floor-3 shape |
| Floor3.Floor3MealCount | src/tasks/dgucoop/floor-3.ts:191-271 | the table gives exactly two meals per mapped row |
| Floor3.UnmappedRowsContributeNothing | src/tasks/dgucoop/floor-3.ts:196-210 | a short row or an unmapped header adds nothing |
| MenuParser.ParsePrice | src/tasks/menu-parser.ts:34-44 | undefined exactly when neither `￦ n` nor `n원` occurs; `￦ n` wins; otherwise the first `n원` |
| MenuParser.ParsePriceOfSetPrice | src/tasks/menu-parser.ts:35-38 | `￦` followed by a digit group reads that group, commas removed |
| MenuParser.ParsePriceOfWon | src/tasks/menu-parser.ts:39-42 | a digit group followed by `원` reads that group |
| MenuParser.ParsePriceRoundTrip | src/tasks/menu-parser.ts:34-38 | `￦` followed by the decimal form of n reads back as n |
| MenuParser.Lines | src/tasks/menu-parser.ts:61-63 | the map-then-filter keeps no more lines than parts, and each kept line passes the filter |
| MenuParser.LinesMembers | src/tasks/menu-parser.ts:61-63 | a line is kept exactly when it is the cleanup of some part and passes the filter |
| MenuParser.NamedItem | src/tasks/menu-parser.ts:98-102 | an item exists exactly when the cleaned name is non-empty, with that single name |
| MenuParser.RawStep | src/tasks/menu-parser.ts:79-102 | a price-only next line is consumed exactly when the line is non-empty and the next line is price-only, and then it prices the item; otherwise the embedded `n원` prices it and is cut from the line, or the price is undefined when there is none; an item is pushed exactly when the `ItemName` cleanup of that line is non-empty, named by it alone |
| MenuParser.RawFromListed | src/tasks/menu-parser.ts:78-103 | every item of strategy 2 has one non-empty name and no hours |
| MenuParser.RawFromBounded | src/tasks/menu-parser.ts:78-103 | strategy 2 only appends, at most one item per remaining line |
| MenuParser.ReadRawItem | src/tasks/menu-parser.ts:79-102 | the loop body computes `RawStep` |
| MenuParser.ReadListedItems | src/tasks/menu-parser.ts:73-103 | the cursor loop returns strategy 2's items |
| MenuParser.ListOutcome | src/tasks/menu-parser.ts:105-112 | never closed; open exactly when strategy 2 found items or there is one set line and a truthy set price; open exactly when items are present; found items are returned as they are |
| MenuParser.WeeklyCell | src/tasks/menu-parser.ts:46-113 | closed exactly when the content span is missing, blank or holds `휴무`, and a closed cell has null items |
| MenuParser.ReadContent | src/tasks/menu-parser.ts:52-112 | the part after the closed checks computes `ContentOutcome` |
| MenuParser.ParseMenuCell | src/tasks/menu-parser.ts:46-113 | the cell parser computes `WeeklyCell` |
| MenuParser.ListOutcomeConsistent | src/tasks/menu-parser.ts:105-112 | after strategy 2, open holds exactly when there are items, and every item is well named |
| MenuParser.ContentOutcomeConsistent | src/tasks/menu-parser.ts:59-112 | the same holds for both strategies together |
| MenuParser.WeeklyCellConsistent | src/tasks/menu-parser.ts:46-113 | every cell outcome is open exactly when it has items, all well named |
| MenuParser.SetStrategyItem | src/tasks/menu-parser.ts:60-70 | when the set price is truthy, lines remain and none has its own `n원`, the cell is one open item named by all set lines at the set price |
| MenuParser.NothingListed | src/tasks/menu-parser.ts:105-110 | when neither strategy finds anything, the cell is open exactly when there is one set line and a truthy set price, and that line is then its only item |
| MenuParser.FirstFilled | src/tasks/menu-parser.ts:123-129 | the first cell from the start index whose trimmed text is non-empty, or none when there is no such cell |
| MenuParser.WeekMeals | src/tasks/menu-parser.ts:139-150 | two meals per day |
| MenuParser.WeekMealsAt | src/tasks/menu-parser.ts:139-150 | meal 2k+j is day k at meal type j (lunch, dinner), with the shared outcome |
| MenuParser.WorkWeekMeals | src/tasks/menu-parser.ts:135-150 | the week has ten meals, meal k being `mon`..`fri`[k/2] at lunch or dinner by k%2 |
| MenuParser.ConstantMenuShape | src/tasks/menu-parser.ts:121-150 | nothing or ten meals; ten exactly for a target restaurant with a non-empty cell from the start index; then the week of that cell's outcome |
| MenuParser.FindDataCell | src/tasks/menu-parser.ts:123-129 | the search loop finds `FirstFilled` |
| MenuParser.PushWeek | src/tasks/menu-parser.ts:135-150 | the nested loops append the week's ten meals in order |
| MenuParser.ParseConstantMenu | src/tasks/menu-parser.ts:115-151 | the method appends exactly `ConstantMenu` to the caller's meals |
| MenuParser.DayOfChar | src/tasks/menu-parser.ts:6-8 | exactly the seven day characters map, each to its tag |
| MenuParser.HeaderFrom | src/tasks/menu-parser.ts:165 | `rows.find`: the first row whose fourth cell's markup contains `월<br>`, or none |
| MenuParser.DayEntry | src/tasks/menu-parser.ts:168-171 | a header cell adds an entry exactly when its first trimmed character is a day character |
| MenuParser.DayColumnsBelow | src/tasks/menu-parser.ts:167-172 | every column of the map lies in the scanned range from 2 |
| MenuParser.DayColumnsExact | src/tasks/menu-parser.ts:166-172 | (i, d) is in the map exactly when 2 ≤ i ≤ 8 and header cell i starts with d's character |
| MenuParser.DayColumnsIncreasing | src/tasks/menu-parser.ts:167-172 | the map's columns are strictly increasing, which is the JS `Map`'s insertion order |
| MenuParser.ReadHeaderCell | src/tasks/menu-parser.ts:168-169 | one header cell's day |
| MenuParser.BuildDayColumns | src/tasks/menu-parser.ts:164-173 | the header loop builds the day-column map |
| MenuParser.MealTypeOf | src/tasks/menu-parser.ts:10-13 | only `중식` (lunch) and `석식` (dinner) map, never to breakfast |
| MenuParser.RestaurantOf | src/tasks/menu-parser.ts:15-21 | exactly the five section-corner keys map, each to its restaurant, all targets |
| MenuParser.RowOutcomesAt | src/tasks/menu-parser.ts:250 | the outcome of cell i is that cell's parse |
| MenuParser.ColumnMeal | src/tasks/menu-parser.ts:241-259 | one day column gives at most one meal |
| MenuParser.DayMeals | src/tasks/menu-parser.ts:240-260 | no more meals than day columns |
| MenuParser.DayMealsAt | src/tasks/menu-parser.ts:240-260 | when every data cell exists, one meal per column in map order, reading cell `colIndex`, or `colIndex - 1` when the first cell has no rowspan |
| MenuParser.PushColumnMeal | src/tasks/menu-parser.ts:241-259 | one column appends its meal |
| MenuParser.ReadDataCell | src/tasks/menu-parser.ts:250 | the parse of the data cell |
| MenuParser.PushDayMeals | src/tasks/menu-parser.ts:240-260 | the column loop appends the row's day meals in map order |
| MenuParser.ReadRow | src/tasks/menu-parser.ts:177-260 | one row updates section and corner as the walk says, and appends the row's meals under the new walk |
| MenuParser.ParseMenu | src/tasks/menu-parser.ts:153-264 | the whole parse returns `MenuMeals` |
| MenuParser.RunStep | src/tasks/menu-parser.ts:176-261 | a further row advances the walk by that row and appends its meals |
| MenuParser.SectionRowResetsCorner | src/tasks/menu-parser.ts:181-185 | a `menu_st` row sets the section to its trimmed text, resets the corner and emits nothing |
| MenuParser.DinnerRowKeepsCorner | src/tasks/menu-parser.ts:194-199 | a spanning first cell reading `석식` leaves the walk unchanged |
| MenuParser.CornerRowSetsCorner | src/tasks/menu-parser.ts:194-199 | any other spanning first cell sets the corner to its text without white space |
| MenuParser.RowOutcomesConsistent | src/tasks/menu-parser.ts:250 | every cell outcome of a row is open exactly when it has items |
| MenuParser.DayMealsShape | src/tasks/menu-parser.ts:252-259 | day meals carry the target restaurant and meal type, no notes, and a consistent outcome |
| MenuParser.GeneralMealsShape | src/tasks/menu-parser.ts:215-260 | a general row emits only when its meal-type text is `중식` or `석식` and the section-corner key maps; its meals carry that type and restaurant |
| MenuParser.WeekMealsShape | src/tasks/menu-parser.ts:139-150 | the meals of a week share one target restaurant and outcome |
| MenuParser.ConstantMenuWeekly | src/tasks/menu-parser.ts:121-150 | every constant-menu meal is for its restaurant and has the weekly shape |
| MenuParser.RowMealsShape | src/tasks/menu-parser.ts:177-260 | every meal of a row has the weekly shape |
| MenuParser.RunShape | src/tasks/menu-parser.ts:176-261 | every meal of the walk has the weekly shape |
| MenuParser.MenuMealsShape | src/tasks/menu-parser.ts:153-264 | every meal of the weekly table is for a target restaurant, lunch or dinner, with no notes, and open exactly when it has items |
| Tokens.TimeText | src/tasks/dgucoop/floor-2.ts:40-42 | the hours are absent exactly when no range occurs in the cell; otherwise they are the text of the leftmost range match, a well-formed range |
| Tokens.FirstWon | src/tasks/dgucoop/floor-1.ts:82 | the leftmost `[\d,]+원` match from a position, with no match before it |
| Tokens.FirstWonSign | src/tasks/dgucoop/floor-2.ts:45 | the leftmost `￦\s*[\d,]+` match, with no match before it |
| Tokens.PriceOnly | src/tasks/dgucoop/floor-1.ts:93 | `^([\d,]+)원$`: a match exactly when the text is a non-empty digit-and-comma group followed by `원`, and the group is returned |
| Tokens.ParseAmount | src/tasks/dgucoop/floor-1.ts:87 | `parseInt` of the comma-free group is never undefined, and is `NaN` exactly when the group is only commas |
| Tokens.ParseAmountOfDecimal | src/tasks/dgucoop/floor-1.ts:87 | the decimal form of n is a price group that reads back as n |
| Tokens.ParseAmountIgnoresComma | src/tasks/dgucoop/floor-2.ts:46 | a comma inside a digit group does not change the price read |
| Tokens.RemoveCommas | src/tasks/dgucoop/floor-2.ts:46 | `.replace(/,/g, '')` leaves no comma, and only digits from a price group |
| Text.Trim | src/tasks/dgucoop/floor-2.ts:61 | `trim` leaves no white space at either end and changes nothing already trimmed |
| Text.TrimKeeps | src/tasks/dgucoop/floor-2.ts:61 | `trim` only removes characters |
| Text.Split | src/tasks/dgucoop/floor-2.ts:117 | `split('/')` gives pieces free of the separator that join back to the input |
| Text.Pieces | src/tasks/dgucoop/floor-2.ts:66 | the one-scan reading equals the non-empty trimmed segments of `split(sep)`, in order; each piece is non-empty and free of the separator |
| Text.RemoveSpaces | src/tasks/dgucoop/floor-3.ts:202 | `.replace(/\s+/g, '')` leaves no white space; a single character is dropped exactly when it is white space |
| Text.RemoveSpacesConcat | src/tasks/dgucoop/floor-3.ts:202 | white-space removal works character by character: it distributes over concatenation, so the rest keeps its order |
| Text.RemoveSpacesKeepsUnspaced | src/tasks/dgucoop/floor-3.ts:202 | text without white space is left unchanged |
| Text.CollapseTrimHasNoLineTerminator | src/tasks/dgucoop/floor-2.ts:92-93 | `.replace(/\s+/g, ' ').trim()` leaves no line terminator |

## Left out

- Tokens.ParseAmount: JavaScript's `parseInt` yields a double, exact only for values below 2^53 and `Infinity` for digit groups of more than about 308 digits; the model reads the digit group as an exact `Won(n)` of unbounded `nat`.
- Tokens.ParseAmountOfDecimal: exact for every `n`, whereas `parseInt` in the program reads it back exactly only for `n` below 2^53 (see `Tokens.ParseAmount`).
- MenuParser.ParsePriceRoundTrip: the same double rounding; the round trip holds in the program only for prices below 2^53.
- I/O: fetching the pages, the EUC-KR decoding, file dumps, logging and
  the crawler wrappers are not modelled. JSDOM is not modelled either: a
  table is given as rows of cells carrying the properties the code reads.
- Clocks: `new Date().toISOString()` and `Date.getDay()` are parameters,
  the timestamp and the weekday index. `parseMenu` calls `new Date()`
  once per row; the model uses one timestamp for the whole table.
- Floor-2's local `getDayOfWeek` (src/tasks/dgucoop/floor-2.ts:26-30) is
  the same table as the shared helper, so `DayUtil.DayOfWeek` models both.
- Object lookups (`restaurantMapFloor2[...]`, `dayOfWeekMap[...]` and the
  others) are modelled as exact-key functions. Keys inherited from
  `Object.prototype`, such as `constructor`, are not modelled.
- `parseInt` is modelled only on the digit-and-comma groups the regexes
  hand it. `NaN` stays distinct from undefined: a `NaN` price is falsy
  where the code tests it, as in JavaScript.
- `charAt(0)` reads a UTF-16 code unit; the model reads the first
  character, which is the same for the Hangul day characters.
- The JS `Map` of day columns is a sequence of pairs in increasing column
  order. That is its insertion order, because the header loop runs from
  column 2 upward.
- MenuParser.RowOutcomes: it parses every cell of a general row, where
  `parseMenu` only parses the cells the day columns point at. The meals
  are the same, because `parseMenuCell` is pure.
- Floor2.ParseMenuCellFloor2: its contract names the shared grammar, and
  the shape of the items is stated once, by `CellGrammar.CellItemsShape`.
- Regexes: there is no general regex engine. Only the patterns the code
  uses are hand-coded, and the `i` flag is ASCII case folding, which is
  all those patterns need.
- The `menu_st` class test is a boolean on the cell, not a class-list
  lookup.
