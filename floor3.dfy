/**
 * The floor-3 extractor (src/tasks/dgucoop/floor-3.ts): a table whose rows
 * are `corner | lunch cell | dinner cell`, for the 집밥 and 한그릇(한정판매)
 * corners.  Unlike floor 2, every cell of a mapped row yields a meal: an open
 * one with the items the shared cell grammar (floor-3 variant) reads, or a
 * closed / unavailable one without items that says why.
 */
module Floor3 {
  import opened Wrappers
  import opened Menu
  import opened Text
  import opened Cleanup
  import opened CellGrammar
  import DayUtil

  /** The note on a cell whose markup yields no item. */
  const NoMenuNote := "메뉴 정보 없음"

  /** What `parseMenuCellFloor3` returns: the items, the status and an optional note. */
  datatype CellResult = CellResult(items: seq<MenuItem>, status: Status, notes: Option<string>)

  /** The cell's text: its tags removed, then trimmed. */
  function CellText(cellHtml: string): string {
    Apply(cellHtml, [DropTags, TrimSpaces])
  }

  /**
   * `parseMenuCellFloor3`: a cell mentioning 휴무 is closed with its text as
   * the note, an empty one is closed without a note, one without items is
   * unavailable, and any other is open with its items.
   */
  function Floor3Cell(cellHtml: string): (c: CellResult)
    ensures c.status == Open <==> c.items != []
    ensures c.status == Open ==> c.items == ItemsOf(cellHtml, Third) && c.notes.None?
    ensures Contains(CellText(cellHtml), "휴무") ==> c == CellResult([], Closed, Some(CellText(cellHtml)))
    ensures CellText(cellHtml) == "" ==> c == CellResult([], Closed, None)
    ensures c.status == Closed ==> Contains(CellText(cellHtml), "휴무") || CellText(cellHtml) == ""
    ensures c.status == Unavailable <==>
      !Contains(CellText(cellHtml), "휴무") && CellText(cellHtml) != "" && ItemsOf(cellHtml, Third) == []
    ensures c.status == Unavailable ==> c == CellResult([], Unavailable, Some(NoMenuNote))
  {
    var cellText := CellText(cellHtml);
    if Contains(cellText, "휴무") then CellResult([], Closed, Some(cellText))
    else if cellText == "" then CellResult([], Closed, None)
    else
      var items := ItemsOf(cellHtml, Third);
      if items == [] then CellResult([], Unavailable, Some(NoMenuNote)) else CellResult(items, Open, None)
  }

  /** `parseMenuCellFloor3` as the extractor runs it. */
  method ParseMenuCellFloor3(cellHtml: string) returns (result: CellResult)
    ensures result == Floor3Cell(cellHtml)
  {
    var cellText := CellText(cellHtml);
    if Contains(cellText, "휴무") {
      return CellResult([], Closed, Some(cellText));
    }
    if cellText == "" {
      return CellResult([], Closed, None);
    }
    var items := ParseCellItems(cellHtml, Third);
    if |items| == 0 {
      return CellResult([], Unavailable, Some(NoMenuNote));
    }
    return CellResult(items, Open, None);
  }

  /** `TARGET_RESTAURANTS_FLOOR3`. */
  predicate Target(r: Restaurant) {
    r == Jipbap || r == Hangeureut
  }

  /** `restaurantMapFloor3`: the corner a cleaned header names. */
  function CornerOf(name: string): (r: Option<Restaurant>)
    ensures r == Some(Jipbap) <==> name == "집밥"
    ensures r == Some(Hangeureut) <==> name == "한그릇(한정판매)"
    ensures r.Some? ==> Target(r.value)
  {
    if name == "집밥" then Some(Jipbap)
    else if name == "한그릇(한정판매)" then Some(Hangeureut)
    else None
  }

  /** The header's text with `<br>` tags and all white space removed, then trimmed. */
  function CornerName(text: string): string {
    Apply(text, [DropBrTags, DropWhitespace, TrimSpaces])
  }

  /**
   * The corner a row is parsed for: three cells, a trimmed header other than
   * `구분`, and a cleaned header that names a targeted corner.
   */
  function RowCorner(row: Row): (r: Option<Restaurant>)
    ensures r.Some? <==>
      |row| >= 3 && Trim(row[0].text) != "구분" && CornerOf(CornerName(row[0].text)).Some?
    ensures r.Some? ==> r == CornerOf(CornerName(row[0].text)) && Target(r.value)
  {
    if |row| < 3 || Trim(row[0].text) == "구분" then None
    else
      var cornerName := CornerName(row[0].text);
      if cornerName == "" then None
      else match CornerOf(cornerName)
        case None => None
        case Some(r) => if Target(r) then Some(r) else None
  }

  /**
   * The meal a cell result becomes: an open meal of its items, or a meal
   * without items carrying the result's status and note.  An open result
   * without items, which `Floor3Cell` never returns, yields no meal.
   */
  function CellMeal(r: Restaurant, day: Day, mt: MealType, c: CellResult, updatedAt: string): (ms: seq<Meal>)
    ensures (c.status == Open <==> c.items != []) ==> |ms| == 1
    ensures forall m :: m in ms ==>
      m.restaurant == r && m.day == day && m.mealType == mt && m.updatedAt == updatedAt
      && m.status == c.status && OpenIffItems(m)
    ensures forall m :: m in ms && m.status == Open ==> m.items == Some(c.items) && m.notes.None?
    ensures forall m :: m in ms && m.status != Open ==> m.items.None? && m.notes == c.notes
  {
    if c.status == Open && |c.items| > 0 then [Meal(r, day, mt, Some(c.items), Open, None, updatedAt)]
    else if c.status != Open then [Meal(r, day, mt, None, c.status, c.notes, updatedAt)]
    else []
  }

  /** The meal of the row's cell `k` (1 is lunch, 2 is dinner). */
  function RowCellMeal(r: Restaurant, row: Row, k: nat, day: Day, mt: MealType, updatedAt: string): seq<Meal>
    requires k < |row|
  {
    CellMeal(r, day, mt, Floor3Cell(Trim(row[k].innerHtml)), updatedAt)
  }

  /** The meals one row contributes: its lunch meal, then its dinner meal. */
  function RowMeals(row: Row, day: Day, updatedAt: string): seq<Meal> {
    match RowCorner(row)
    case None => []
    case Some(r) => RowCellMeal(r, row, 1, day, Lunch, updatedAt) + RowCellMeal(r, row, 2, day, Dinner, updatedAt)
  }

  /** The meals of all rows, in row order. */
  function Floor3Meals(rows: seq<Row>, day: Day, updatedAt: string): seq<Meal> {
    if rows == [] then []
    else Floor3Meals(rows[..|rows| - 1], day, updatedAt) + RowMeals(rows[|rows| - 1], day, updatedAt)
  }

  /** One cell's block of `parseFloor3Menu`, given its trimmed markup. */
  method PushCellMeal(allMeals: seq<Meal>, r: Restaurant, day: Day, mt: MealType, cellHtml: string, updatedAt: string)
    returns (result: seq<Meal>)
    ensures result == allMeals + CellMeal(r, day, mt, Floor3Cell(cellHtml), updatedAt)
  {
    result := allMeals;
    var cell := ParseMenuCellFloor3(cellHtml);
    if cell.status == Open && |cell.items| > 0 {
      result := result + [Meal(r, day, mt, Some(cell.items), Open, None, updatedAt)];
    } else if cell.status != Open {
      result := result + [Meal(r, day, mt, None, cell.status, cell.notes, updatedAt)];
    }
  }

  /** One row of `parseFloor3Menu`: skip it, or push its corner's lunch and dinner meals. */
  method PushRowMeals(allMeals: seq<Meal>, row: Row, day: Day, updatedAt: string) returns (result: seq<Meal>)
    ensures result == allMeals + RowMeals(row, day, updatedAt)
  {
    result := allMeals;
    if |row| < 3 || Trim(row[0].text) == "구분" {
      return;
    }
    var cornerName := CornerName(row[0].text);
    if cornerName == "" {
      return;
    }
    var restaurant := CornerOf(cornerName);
    if restaurant.None? || !Target(restaurant.value) {
      return;
    }
    result := PushCellMeal(result, restaurant.value, day, Lunch, Trim(row[1].innerHtml), updatedAt);
    result := PushCellMeal(result, restaurant.value, day, Dinner, Trim(row[2].innerHtml), updatedAt);
    AppendAssoc(allMeals, RowCellMeal(restaurant.value, row, 1, day, Lunch, updatedAt),
      RowCellMeal(restaurant.value, row, 2, day, Dinner, updatedAt));
  }

  /** `parseFloor3Menu`: walk the rows and push each mapped corner's lunch and dinner meals. */
  method ParseFloor3Menu(rows: seq<Row>, dayIndex: nat, updatedAt: string) returns (allMeals: seq<Meal>)
    requires dayIndex < 7
    ensures allMeals == Floor3Meals(rows, DayUtil.DayOfWeek(dayIndex), updatedAt)
  {
    allMeals := [];
    var day := DayUtil.DayOfWeek(dayIndex);
    for n := 0 to |rows|
      invariant allMeals == Floor3Meals(rows[..n], day, updatedAt)
    {
      assert rows[..n + 1][..n] == rows[..n];
      allMeals := PushRowMeals(allMeals, rows[n], day, updatedAt);
    }
    assert rows[..|rows|] == rows;
  }

  // ---------------------------------------------------------------------------
  // Properties

  /** The shape every floor-3 meal has. */
  predicate Floor3Meal(m: Meal, day: Day, updatedAt: string) {
    && Target(m.restaurant) && m.day == day && m.updatedAt == updatedAt
    && OpenIffItems(m) && (m.mealType == Lunch || m.mealType == Dinner)
    && (m.status == Open ==> m.notes.None? && forall it :: it in m.items.value ==> WellNamed(it))
    && (m.status != Open ==> m.items.None?)
    && (m.status == Unavailable ==> m.notes == Some(NoMenuNote))
  }

  /** A mapped row yields exactly a lunch meal and then a dinner meal; any other row yields none. */
  lemma RowMealsExactlyTwo(row: Row, day: Day, updatedAt: string)
    ensures RowCorner(row).None? ==> RowMeals(row, day, updatedAt) == []
    ensures RowCorner(row).Some? ==>
      |RowMeals(row, day, updatedAt)| == 2
      && RowMeals(row, day, updatedAt)[0].mealType == Lunch
      && RowMeals(row, day, updatedAt)[1].mealType == Dinner
  {
    if RowCorner(row).Some? {
      var r := RowCorner(row).value;
      var lunch, dinner := RowCellMeal(r, row, 1, day, Lunch, updatedAt), RowCellMeal(r, row, 2, day, Dinner, updatedAt);
      assert RowMeals(row, day, updatedAt) == lunch + dinner;
      assert |lunch| == 1 && |dinner| == 1;
      assert lunch[0] in lunch && dinner[0] in dinner;
    }
  }

  /** The meal of one cell of a mapped row has the floor-3 shape. */
  lemma RowCellMealShape(r: Restaurant, row: Row, k: nat, day: Day, mt: MealType, updatedAt: string)
    requires k < |row| && Target(r) && (mt == Lunch || mt == Dinner)
    ensures forall m :: m in RowCellMeal(r, row, k, day, mt, updatedAt) ==> Floor3Meal(m, day, updatedAt)
  {
    CellItemsShape(Trim(row[k].innerHtml), Third);
  }

  /** The meals a row contributes have the floor-3 shape. */
  lemma RowMealsShape(row: Row, day: Day, updatedAt: string)
    ensures forall m :: m in RowMeals(row, day, updatedAt) ==> Floor3Meal(m, day, updatedAt)
  {
    if RowCorner(row).Some? {
      var r := RowCorner(row).value;
      RowCellMealShape(r, row, 1, day, Lunch, updatedAt);
      RowCellMealShape(r, row, 2, day, Dinner, updatedAt);
      assert RowMeals(row, day, updatedAt)
        == RowCellMeal(r, row, 1, day, Lunch, updatedAt) + RowCellMeal(r, row, 2, day, Dinner, updatedAt);
    }
  }

  /** Every floor-3 meal has the floor-3 shape. */
  lemma {:induction false} Floor3MealsShape(rows: seq<Row>, day: Day, updatedAt: string)
    ensures forall m :: m in Floor3Meals(rows, day, updatedAt) ==> Floor3Meal(m, day, updatedAt)
  {
    if rows != [] {
      Floor3MealsShape(rows[..|rows| - 1], day, updatedAt);
      RowMealsShape(rows[|rows| - 1], day, updatedAt);
    }
  }

  /** The number of rows parsed for a corner. */
  function MappedRows(rows: seq<Row>): nat {
    if rows == [] then 0
    else MappedRows(rows[..|rows| - 1]) + (if RowCorner(rows[|rows| - 1]).Some? then 1 else 0)
  }

  /** Two meals per mapped row, whatever the cells hold. */
  lemma {:induction false} Floor3MealCount(rows: seq<Row>, day: Day, updatedAt: string)
    ensures |Floor3Meals(rows, day, updatedAt)| == 2 * MappedRows(rows)
  {
    if rows != [] {
      Floor3MealCount(rows[..|rows| - 1], day, updatedAt);
      RowMealsExactlyTwo(rows[|rows| - 1], day, updatedAt);
    }
  }

  /** A row whose cleaned header names no corner contributes nothing. */
  lemma UnmappedRowsContributeNothing(rows: seq<Row>, row: Row, day: Day, updatedAt: string)
    requires |row| < 3 || CornerOf(CornerName(row[0].text)).None?
    ensures Floor3Meals(rows + [row], day, updatedAt) == Floor3Meals(rows, day, updatedAt)
  {
    assert (rows + [row])[..|rows|] == rows;
    assert RowMeals(row, day, updatedAt) == [];
  }
}
