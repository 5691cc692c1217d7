/**
 * Floor 1 (src/tasks/dgucoop/floor-1.ts): one combined cell per corner.  The
 * cell scanner walks the cell's lines with a cursor, remembers the latest
 * operating-time line, takes a price from the same line or consumes a
 * price-only next line; the table walker then splits the items into lunch and
 * dinner by the time classifier.
 */
module Floor1 {
  import opened Wrappers
  import opened Menu
  import opened Text
  import opened Tokens
  import opened Cleanup
  import DayUtil

  /** The classifier's answer: `'lunch' | 'dinner' | 'both'`. */
  datatype Period = LunchOnly | DinnerOnly | Both

  /** 15:00 separates lunch from dinner. */
  const LunchCutoff: nat := 15

  /**
   * `getMealTypeFromTime`: a missing or malformed time serves both periods;
   * for a well-formed `HH:MM~HH:MM` only the two hours decide.
   */
  function MealTypeFromTime(time: Option<string>): (p: Period)
    ensures time.None? ==> p == Both
    ensures time.Some? && !IsRange(time.value) ==> p == Both
    ensures time.Some? && IsRange(time.value) ==>
      var start, end := TwoDigits(time.value, 0), TwoDigits(time.value, 6);
      && (p == LunchOnly <==> start < LunchCutoff && end < LunchCutoff)
      && (p == DinnerOnly <==> start >= LunchCutoff && end >= LunchCutoff)
      && (p == Both <==> (start < LunchCutoff <==> end >= LunchCutoff))
  {
    if time.None? || !IsRange(time.value) then Both
    else
      var isLunch := TwoDigits(time.value, 0) < LunchCutoff;
      var isDinner := TwoDigits(time.value, 6) >= LunchCutoff;
      if isLunch && isDinner then Both
      else if isLunch then LunchOnly
      else if isDinner then DinnerOnly
      else Both
  }

  /** The minutes never affect the classification. */
  lemma OnlyHoursMatter(a: string, b: string)
    requires IsRange(a) && IsRange(b)
    requires a[..2] == b[..2] && a[6..8] == b[6..8]
    ensures MealTypeFromTime(Some(a)) == MealTypeFromTime(Some(b))
  {
    assert a[0] == b[0] && a[1] == b[1] && a[6] == b[6] && a[7] == b[7];
  }

  /** A range followed by a note is not a well-formed range: it serves both periods. */
  lemma NoteAfterRangeServesBoth()
    ensures MealTypeFromTime(Some("11:30~13:50(한정판매)")) == Both
  {
  }

  /** The per-line cleanup: origin spans, tags, parenthesised notes, the 분식당 header, "NEW ". */
  function CleanLine(line: string): string {
    Apply(line, [DropSpans, DropTags, DropParens, Replace("****분식당****", "", false),
      Replace("NEW 쌀국수", "쌀국수", false), TrimSpaces])
  }

  /**
   * What the scanner does with one cleaned line: the item it yields, the
   * operating hours in force after it, and whether the next line was consumed
   * as this line's price.
   */
  datatype LineStep = LineStep(item: Option<MenuItem>, hours: Option<string>, skipNext: bool)

  /**
   * The price part of one iteration, for a name line that is neither blank
   * nor an operating time: a same-line `n원` is cut out of the name, otherwise
   * a bare price on the next line is taken and that line consumed.
   */
  function PricedItem(nameLine: string, nextLine: string, hours: Option<string>): (st: LineStep)
    requires nameLine != ""
    ensures st.hours == hours
    ensures st.skipNext <==> FirstWon(nameLine, 0).None? && PriceOnly(Trim(nextLine)).Some?
    ensures st.skipNext ==>
      st.item == Some(MenuItem([nameLine], ParseAmount(PriceOnly(Trim(nextLine)).value), hours))
    ensures FirstWon(nameLine, 0).Some? && st.item.Some? ==>
      st.item.value.price == ParseAmount(FirstWon(nameLine, 0).value.group)
    ensures FirstWon(nameLine, 0).None? ==> st.item.Some? && st.item.value.name == [nameLine]
    // a same-line price is cut from the name; the item exists exactly when a name is left
    ensures FirstWon(nameLine, 0).Some? ==> (st.item.Some? <==> CutWon(nameLine) != "")
    ensures FirstWon(nameLine, 0).Some? && st.item.Some? ==> st.item.value.name == [CutWon(nameLine)]
    // with no price on the line or alone on the next line, the price is undefined
    ensures FirstWon(nameLine, 0).None? && PriceOnly(Trim(nextLine)).None? ==>
      st.item == Some(MenuItem([nameLine], Absent, hours))
    ensures st.item.Some? ==>
      |st.item.value.name| == 1 && WellNamed(st.item.value) && st.item.value.openAndCloseTime == hours
  {
    match FirstWon(nameLine, 0)
    case Some(h) =>
      var name := CutWon(nameLine);
      LineStep(if name == "" then None else Some(MenuItem([name], ParseAmount(h.group), hours)), hours, false)
    case None =>
      match PriceOnly(Trim(nextLine))
      case Some(g) => LineStep(Some(MenuItem([nameLine], ParseAmount(g), hours)), hours, true)
      case None => LineStep(Some(MenuItem([nameLine], Absent, hours)), hours, false)
  }

  /** One iteration of the loop, given the cleaned line and the raw next line. */
  function LineOutcome(nameLine: string, nextLine: string, hours: Option<string>): (st: LineStep)
    // a blank line is skipped
    ensures nameLine == "" ==> st == LineStep(None, hours, false)
    // an operating-time line is never an item; it sets the hours for what follows
    ensures RangeAt(nameLine, 0) ==> st.item.None? && st.hours == Some(nameLine[..11]) && !st.skipNext
    ensures RangeAt(nameLine, 0) ==> IsRange(st.hours.value)
    ensures !RangeAt(nameLine, 0) ==> st.hours == hours
    // any other line is read for its name and price
    ensures nameLine != "" && !RangeAt(nameLine, 0) ==> st == PricedItem(nameLine, nextLine, hours)
    ensures st.skipNext ==> PriceOnly(Trim(nextLine)).Some?
    ensures st.item.Some? ==>
      |st.item.value.name| == 1 && WellNamed(st.item.value) && st.item.value.openAndCloseTime == hours
  {
    if nameLine == "" then LineStep(None, hours, false)
    else if RangeAt(nameLine, 0) then LineStep(None, Some(nameLine[..11]), false)
    else PricedItem(nameLine, nextLine, hours)
  }

  /** The outcome of line `i` of the cell (`lines[i + 1] || ''` is the next line). */
  function Step(lines: seq<string>, i: nat, hours: Option<string>): (st: LineStep)
    requires i < |lines|
    ensures st.skipNext ==> i + 1 < |lines|
  {
    LineOutcome(CleanLine(lines[i]), if i + 1 < |lines| then lines[i + 1] else "", hours)
  }

  /** `acc` followed by the items the scanner emits from line `i` on, with `hours` in force. */
  function Scan(lines: seq<string>, i: nat, hours: Option<string>, acc: seq<MenuItem>): seq<MenuItem>
    decreases |lines| - i
  {
    if i >= |lines| then acc
    else
      var st := Step(lines, i, hours);
      Scan(lines, if st.skipNext then i + 2 else i + 1, st.hours,
        if st.item.Some? then acc + [st.item.value] else acc)
  }

  /** `parseMenuCell(cellHtml).items`, as a function of the markup. */
  function CellItems(cellHtml: string): seq<MenuItem> {
    Scan(SplitBr(cellHtml), 0, None, [])
  }

  /** The scanner emits at most one item per line. */
  lemma {:induction false} ScanBounded(lines: seq<string>, i: nat, hours: Option<string>, acc: seq<MenuItem>)
    requires i <= |lines|
    ensures |acc| <= |Scan(lines, i, hours, acc)| <= |acc| + |lines| - i
    decreases |lines| - i
  {
    if i < |lines| {
      var st := Step(lines, i, hours);
      ScanBounded(lines, if st.skipNext then i + 2 else i + 1, st.hours,
        if st.item.Some? then acc + [st.item.value] else acc);
    }
  }

  /** The scanner only appends: what was emitted before line `i` stays in front. */
  lemma {:induction false} ScanExtends(lines: seq<string>, i: nat, hours: Option<string>, acc: seq<MenuItem>)
    ensures |acc| <= |Scan(lines, i, hours, acc)|
    ensures Scan(lines, i, hours, acc)[..|acc|] == acc
    decreases |lines| - i
  {
    if i < |lines| {
      var st := Step(lines, i, hours);
      var acc' := if st.item.Some? then acc + [st.item.value] else acc;
      ScanExtends(lines, if st.skipNext then i + 2 else i + 1, st.hours, acc');
      AppendKeepsFront(acc, st.item);
    }
  }

  /** Appending an optional item keeps what was there in front. */
  lemma AppendKeepsFront(acc: seq<MenuItem>, item: Option<MenuItem>)
    ensures |acc| <= |if item.Some? then acc + [item.value] else acc|
    ensures (if item.Some? then acc + [item.value] else acc)[..|acc|] == acc
  {
  }

  /** One step of the scan. */
  lemma ScanUnfold(lines: seq<string>, i: nat, hours: Option<string>, acc: seq<MenuItem>)
    requires i < |lines|
    ensures var st := Step(lines, i, hours);
      Scan(lines, i, hours, acc) ==
      Scan(lines, if st.skipNext then i + 2 else i + 1, st.hours, if st.item.Some? then acc + [st.item.value] else acc)
  {
  }

  /**
   * What every scanned item looks like: exactly one non-empty name, and
   * operating hours that are either absent or a well-formed `HH:MM~HH:MM`.
   */
  predicate ScannedItem(it: MenuItem) {
    |it.name| == 1 && WellNamed(it) && (it.openAndCloseTime.None? || IsRange(it.openAndCloseTime.value))
  }

  /** Every scanned item has one non-empty name, and its hours are absent or a well-formed range. */
  lemma {:induction false} ScanWellFormed(lines: seq<string>, i: nat, hours: Option<string>, acc: seq<MenuItem>)
    requires hours.None? || IsRange(hours.value)
    requires forall it :: it in acc ==> ScannedItem(it)
    ensures forall it :: it in Scan(lines, i, hours, acc) ==> ScannedItem(it)
    decreases |lines| - i
  {
    if i < |lines| {
      var st := Step(lines, i, hours);
      var acc' := if st.item.Some? then acc + [st.item.value] else acc;
      assert st.hours.None? || IsRange(st.hours.value);
      assert forall it :: it in acc' ==> ScannedItem(it);
      ScanWellFormed(lines, if st.skipNext then i + 2 else i + 1, st.hours, acc');
    }
  }

  /** The price block of `parseMenuCell`'s loop body. */
  method ReadPricedItem(nameLine: string, nextLine: string, hours: Option<string>)
    returns (item: Option<MenuItem>, consumed: bool)
    requires nameLine != ""
    ensures item == PricedItem(nameLine, nextLine, hours).item
    ensures consumed == PricedItem(nameLine, nextLine, hours).skipNext
  {
    var name := nameLine;
    var price: Amount;
    consumed := false;
    var sameLine := FirstWon(nameLine, 0);
    if sameLine.Some? {
      price := ParseAmount(sameLine.value.group);
      name := Trim(RemoveHit(nameLine, Hit(sameLine.value.start, sameLine.value.end)));
    } else {
      var nextPrice := PriceOnly(Trim(nextLine));
      if nextPrice.Some? {
        price := ParseAmount(nextPrice.value);
        consumed := true;
      } else {
        price := Absent;
      }
    }
    item := if name != "" then Some(MenuItem([name], price, hours)) else None;
  }

  /**
   * `parseMenuCell`: the cursor loop over the cell's lines.  `i` skips a
   * consumed price line; `hours` is `currentOperatingHours`.
   */
  method ParseMenuCell(cellHtml: string) returns (items: seq<MenuItem>)
    ensures items == CellItems(cellHtml)
    ensures |items| <= |SplitBr(cellHtml)|
    ensures forall it :: it in items ==> ScannedItem(it)
  {
    items := [];
    var hours: Option<string> := None;
    var lines := SplitBr(cellHtml);
    var i := 0;
    while i < |lines|
      invariant 0 <= i <= |lines|
      invariant Scan(lines, i, hours, items) == Scan(lines, 0, None, [])
      decreases |lines| - i
    {
      ScanUnfold(lines, i, hours, items);
      var nameLine := CleanLine(lines[i]);
      var nextLine := if i + 1 < |lines| then lines[i + 1] else "";
      if nameLine == "" {
        i := i + 1;
        continue;
      }
      if RangeAt(nameLine, 0) {
        hours := Some(nameLine[..11]);
        i := i + 1;
        continue;
      }
      var item, consumed := ReadPricedItem(nameLine, nextLine, hours);
      if item.Some? {
        items := items + [item.value];
      }
      i := if consumed then i + 2 else i + 1;
    }
    ScanBounded(lines, 0, None, []);
    ScanWellFormed(lines, 0, None, []);
  }

  /** Whether an item of period `p` is listed under meal `mt`. */
  predicate Serves(p: Period, mt: MealType) {
    (mt == Lunch && (p == LunchOnly || p == Both)) || (mt == Dinner && (p == DinnerOnly || p == Both))
  }

  /** The items listed under `mt`, in their original order. */
  function ItemsFor(items: seq<MenuItem>, mt: MealType): (r: seq<MenuItem>)
    ensures |r| <= |items|
    ensures forall it :: it in r <==> it in items && Serves(MealTypeFromTime(it.openAndCloseTime), mt)
    ensures |items| == 1 ==> r == if Serves(MealTypeFromTime(items[0].openAndCloseTime), mt) then items else []
  {
    if items == [] then []
    else
      var last := items[|items| - 1];
      ItemsFor(items[..|items| - 1], mt) + (if Serves(MealTypeFromTime(last.openAndCloseTime), mt) then [last] else [])
  }

  /** The filter keeps order: the items of `a + b` are those of `a` followed by those of `b`. */
  lemma {:induction false} ItemsForConcat(a: seq<MenuItem>, b: seq<MenuItem>, mt: MealType)
    ensures ItemsFor(a + b, mt) == ItemsFor(a, mt) + ItemsFor(b, mt)
    decreases |b|
  {
    if b == [] {
      assert a + b == a;
    } else {
      var init := b[..|b| - 1];
      assert (a + b)[..|a + b| - 1] == a + init;
      assert (a + b)[|a + b| - 1] == b[|b| - 1];
      ItemsForConcat(a, init, mt);
    }
  }

  /**
   * The lunch/dinner split of `parseFloor1Menu`: every item lands in at least
   * one list, a `both` item in both, and each list keeps the original order.
   */
  method SplitByMealType(items: seq<MenuItem>) returns (lunchItems: seq<MenuItem>, dinnerItems: seq<MenuItem>)
    ensures lunchItems == ItemsFor(items, Lunch) && dinnerItems == ItemsFor(items, Dinner)
    ensures forall it :: it in items ==> it in lunchItems || it in dinnerItems
    ensures forall it :: it in items && MealTypeFromTime(it.openAndCloseTime) == Both ==>
      it in lunchItems && it in dinnerItems
  {
    lunchItems, dinnerItems := [], [];
    for k := 0 to |items|
      invariant lunchItems == ItemsFor(items[..k], Lunch)
      invariant dinnerItems == ItemsFor(items[..k], Dinner)
    {
      var mealType := MealTypeFromTime(items[k].openAndCloseTime);
      if mealType == LunchOnly || mealType == Both {
        lunchItems := lunchItems + [items[k]];
      }
      if mealType == DinnerOnly || mealType == Both {
        dinnerItems := dinnerItems + [items[k]];
      }
      assert items[..k + 1][..k] == items[..k];
    }
    assert items[..|items|] == items;
  }

  /** The corner a row names: only `메뉴1` and `메뉴2` with a non-empty menu cell. */
  function Corner(header: string, menuHtml: string): (r: Option<Restaurant>)
    ensures r == Some(SotAndNoodle) <==> header == "메뉴1" && menuHtml != ""
    ensures r == Some(Bunsikdang) <==> header == "메뉴2" && menuHtml != ""
    ensures r.Some? ==> r.value == SotAndNoodle || r.value == Bunsikdang
  {
    if header == "메뉴1" && menuHtml != "" then Some(SotAndNoodle)
    else if header == "메뉴2" && menuHtml != "" then Some(Bunsikdang)
    else None
  }

  /** An open meal of `items`, or nothing when there are none. */
  function PeriodMeal(r: Restaurant, day: Day, mt: MealType, items: seq<MenuItem>, updatedAt: string): seq<Meal> {
    if items == [] then [] else [Meal(r, day, mt, Some(items), Open, None, updatedAt)]
  }

  /** The shape every floor-1 meal has. */
  predicate Floor1Meal(m: Meal, r: Restaurant, day: Day, updatedAt: string) {
    && m.restaurant == r && m.day == day && m.updatedAt == updatedAt
    && m.status == Open && OpenIffItems(m) && m.notes.None?
    && (m.mealType == Lunch || m.mealType == Dinner)
  }

  /**
   * A corner's lunch meal and then its dinner meal, each present only when it
   * has items; every parsed item is served in at least one of them.
   */
  function CornerMeals(r: Restaurant, items: seq<MenuItem>, day: Day, updatedAt: string): (ms: seq<Meal>)
    ensures |ms| <= 2
    ensures forall m :: m in ms ==> Floor1Meal(m, r, day, updatedAt)
    ensures forall m :: m in ms ==> m.items == Some(ItemsFor(items, m.mealType))
    ensures |ms| == 2 ==> ms[0].mealType == Lunch && ms[1].mealType == Dinner
    ensures forall it :: it in items ==> exists m :: m in ms && it in m.items.value
  {
    var ms := PeriodMeal(r, day, Lunch, ItemsFor(items, Lunch), updatedAt)
      + PeriodMeal(r, day, Dinner, ItemsFor(items, Dinner), updatedAt);
    assert forall it :: it in items ==> it in ItemsFor(items, Lunch) || it in ItemsFor(items, Dinner);
    ms
  }

  /** The corner a row is parsed for, after the header and size checks. */
  function RowCorner(row: Row): (r: Option<Restaurant>)
    ensures r.Some? ==> |row| >= 2 && Trim(row[1].innerHtml) != ""
    ensures r == Some(SotAndNoodle) <==> |row| >= 2 && Trim(row[0].text) == "메뉴1" && Trim(row[1].innerHtml) != ""
    ensures r == Some(Bunsikdang) <==> |row| >= 2 && Trim(row[0].text) == "메뉴2" && Trim(row[1].innerHtml) != ""
  {
    if |row| < 2 || Trim(row[0].text) == "구분" then None
    else Corner(Trim(row[0].text), Trim(row[1].innerHtml))
  }

  /** The meals one table row contributes. */
  function RowMeals(row: Row, day: Day, updatedAt: string): (ms: seq<Meal>)
    ensures RowCorner(row).None? ==> ms == []
    ensures RowCorner(row).Some? ==> ms == CornerMeals(RowCorner(row).value, CellItems(Trim(row[1].innerHtml)), day, updatedAt)
  {
    match RowCorner(row)
    case None => []
    case Some(r) =>
      var items := CellItems(Trim(row[1].innerHtml));
      if items == [] then [] else CornerMeals(r, items, day, updatedAt)
  }

  /** The meals of all rows, in row order. */
  function Floor1Meals(rows: seq<Row>, day: Day, updatedAt: string): seq<Meal> {
    if rows == [] then []
    else Floor1Meals(rows[..|rows| - 1], day, updatedAt) + RowMeals(rows[|rows| - 1], day, updatedAt)
  }

  /**
   * Every floor-1 meal is open with items, belongs to one of the two mapped
   * corners, and carries the table's day and timestamp.
   */
  lemma {:induction false} Floor1MealsShape(rows: seq<Row>, day: Day, updatedAt: string)
    ensures forall m :: m in Floor1Meals(rows, day, updatedAt) ==>
      Floor1Meal(m, SotAndNoodle, day, updatedAt) || Floor1Meal(m, Bunsikdang, day, updatedAt)
  {
    if rows != [] {
      Floor1MealsShape(rows[..|rows| - 1], day, updatedAt);
      var row := rows[|rows| - 1];
      assert forall m :: m in RowMeals(row, day, updatedAt) ==>
        Floor1Meal(m, SotAndNoodle, day, updatedAt) || Floor1Meal(m, Bunsikdang, day, updatedAt);
    }
  }

  /** A row whose header is neither `메뉴1` nor `메뉴2` contributes nothing. */
  lemma {:induction false} OtherRowsContributeNothing(rows: seq<Row>, row: Row, day: Day, updatedAt: string)
    requires |row| < 2 || (Trim(row[0].text) != "메뉴1" && Trim(row[0].text) != "메뉴2")
    ensures Floor1Meals(rows + [row], day, updatedAt) == Floor1Meals(rows, day, updatedAt)
  {
    assert (rows + [row])[..|rows|] == rows;
    assert RowMeals(row, day, updatedAt) == [];
  }

  /** The tail of one row's iteration: split the items and push the non-empty meals. */
  method PushCornerMeals(allMeals: seq<Meal>, restaurant: Restaurant, items: seq<MenuItem>, day: Day, updatedAt: string)
    returns (result: seq<Meal>)
    ensures result == allMeals + CornerMeals(restaurant, items, day, updatedAt)
  {
    result := allMeals;
    var lunchItems, dinnerItems := SplitByMealType(items);
    ghost var lunchMeals := PeriodMeal(restaurant, day, Lunch, lunchItems, updatedAt);
    ghost var dinnerMeals := PeriodMeal(restaurant, day, Dinner, dinnerItems, updatedAt);
    assert CornerMeals(restaurant, items, day, updatedAt) == lunchMeals + dinnerMeals;
    if |lunchItems| > 0 {
      result := result + [Meal(restaurant, day, Lunch, Some(lunchItems), Open, None, updatedAt)];
    }
    if |dinnerItems| > 0 {
      result := result + [Meal(restaurant, day, Dinner, Some(dinnerItems), Open, None, updatedAt)];
    }
    AppendAssoc(allMeals, lunchMeals, dinnerMeals);
  }

  /**
   * `parseFloor1Menu`: walk the rows, parse each mapped corner's cell and push
   * its lunch and dinner meals.
   */
  method ParseFloor1Menu(rows: seq<Row>, dayIndex: nat, updatedAt: string) returns (allMeals: seq<Meal>)
    requires dayIndex < 7
    ensures allMeals == Floor1Meals(rows, DayUtil.DayOfWeek(dayIndex), updatedAt)
  {
    allMeals := [];
    var day := DayUtil.DayOfWeek(dayIndex);
    for n := 0 to |rows|
      invariant allMeals == Floor1Meals(rows[..n], day, updatedAt)
    {
      assert rows[..n + 1][..n] == rows[..n];
      var row := rows[n];
      ghost var before := allMeals;
      assert Floor1Meals(rows[..n + 1], day, updatedAt) == before + RowMeals(row, day, updatedAt);
      if |row| < 2 || Trim(row[0].text) == "구분" {
        assert RowMeals(row, day, updatedAt) == [];
        continue;
      }
      var headerText := Trim(row[0].text);
      var menuCellHtml := Trim(row[1].innerHtml);
      var restaurant: Restaurant;
      if headerText == "메뉴1" && menuCellHtml != "" {
        restaurant := SotAndNoodle;
      } else if headerText == "메뉴2" && menuCellHtml != "" {
        restaurant := Bunsikdang;
      } else {
        assert RowMeals(row, day, updatedAt) == [];
        continue;
      }
      assert RowCorner(row) == Some(restaurant);
      var items := ParseMenuCell(menuCellHtml);
      if |items| == 0 {
        assert RowMeals(row, day, updatedAt) == [];
        continue;
      }
      allMeals := PushCornerMeals(allMeals, restaurant, items, day, updatedAt);
      assert allMeals == Floor1Meals(rows[..n + 1], day, updatedAt);
    }
    assert rows[..|rows|] == rows;
  }
}
