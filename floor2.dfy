/**
 * The floor-2 extractor (src/tasks/dgucoop/floor-2.ts): a table whose rows
 * are `corner | lunch cell | dinner cell`, for the 일품, 양식 and 뚝배기
 * corners.  Each non-empty cell is read with the shared cell grammar
 * (`CellGrammar`, floor-2 variant); a cell that yields items becomes an open
 * meal, any other cell yields no meal at all.
 */
module Floor2 {
  import opened Wrappers
  import opened Menu
  import opened Text
  import opened Tokens
  import opened CellGrammar
  import DayUtil

  /** `TARGET_RESTAURANTS_FLOOR2`. */
  predicate Target(r: Restaurant) {
    r == Ilpum || r == Yangsik || r == Ttukbaegi
  }

  /** `restaurantMapFloor2`: the corner a header text names. */
  function CornerOf(name: string): (r: Option<Restaurant>)
    ensures r == Some(Ilpum) <==> name == "일품"
    ensures r == Some(Yangsik) <==> name == "양식"
    ensures r == Some(Ttukbaegi) <==> name == "뚝배기"
    ensures r.Some? ==> Target(r.value)
  {
    if name == "일품" then Some(Ilpum)
    else if name == "양식" then Some(Yangsik)
    else if name == "뚝배기" then Some(Ttukbaegi)
    else None
  }

  /**
   * The corner a row is parsed for: it needs three cells, a header other than
   * `구분`, a non-empty trimmed header and a mapped, targeted corner.
   */
  function RowCorner(row: Row): (r: Option<Restaurant>)
    ensures r.Some? <==> |row| >= 3 && CornerOf(Trim(row[0].text)).Some?
    ensures r.Some? ==> r == CornerOf(Trim(row[0].text)) && Target(r.value)
  {
    if |row| < 3 || Trim(row[0].text) == "구분" then None
    else
      var cornerName := Trim(row[0].text);
      if cornerName == "" then None
      else match CornerOf(cornerName)
        case None => None
        case Some(r) => if Target(r) then Some(r) else None
  }

  /**
   * The meal one cell contributes, given its trimmed markup and the items the
   * grammar reads from it: an open meal of those items when the markup is
   * non-empty and there are items, and nothing otherwise.
   */
  function CellMeal(r: Restaurant, day: Day, mt: MealType, html: string, items: seq<MenuItem>, updatedAt: string): (ms: seq<Meal>)
    ensures |ms| <= 1
    ensures ms != [] <==> html != "" && items != []
    ensures forall m :: m in ms ==>
      m.restaurant == r && m.day == day && m.mealType == mt && m.updatedAt == updatedAt
      && m.status == Open && OpenIffItems(m) && m.notes.None? && m.items == Some(items)
  {
    if html == "" || items == [] then [] else [Meal(r, day, mt, Some(items), Open, None, updatedAt)]
  }

  /** The meal of the row's cell `k` (1 is lunch, 2 is dinner). */
  function RowCellMeal(r: Restaurant, row: Row, k: nat, day: Day, mt: MealType, updatedAt: string): seq<Meal>
    requires k < |row|
  {
    CellMeal(r, day, mt, Trim(row[k].innerHtml), ItemsOf(Trim(row[k].innerHtml), Second), updatedAt)
  }

  /** The meals one row contributes: its lunch meal, then its dinner meal. */
  function RowMeals(row: Row, day: Day, updatedAt: string): seq<Meal> {
    match RowCorner(row)
    case None => []
    case Some(r) => RowCellMeal(r, row, 1, day, Lunch, updatedAt) + RowCellMeal(r, row, 2, day, Dinner, updatedAt)
  }

  /** The meals of all rows, in row order. */
  function Floor2Meals(rows: seq<Row>, day: Day, updatedAt: string): seq<Meal> {
    if rows == [] then []
    else Floor2Meals(rows[..|rows| - 1], day, updatedAt) + RowMeals(rows[|rows| - 1], day, updatedAt)
  }

  /** `parseMenuCellFloor2`: the floor-2 reading of one cell. */
  method ParseMenuCellFloor2(cellHtml: string) returns (items: seq<MenuItem>)
    ensures items == ItemsOf(cellHtml, Second)
  {
    items := ParseCellItems(cellHtml, Second);
  }

  /** One cell's block of `parseFloor2Menu`, given its trimmed markup: push its meal when it has items. */
  method PushCellMeal(allMeals: seq<Meal>, r: Restaurant, day: Day, mt: MealType, cellHtml: string, updatedAt: string)
    returns (result: seq<Meal>)
    ensures result == allMeals + CellMeal(r, day, mt, cellHtml, ItemsOf(cellHtml, Second), updatedAt)
  {
    result := allMeals;
    if cellHtml != "" {
      var items := ParseMenuCellFloor2(cellHtml);
      if |items| > 0 {
        result := result + [Meal(r, day, mt, Some(items), Open, None, updatedAt)];
      }
    }
  }

  /** `parseFloor2Menu`: walk the rows and push each mapped corner's lunch and dinner meals. */
  method ParseFloor2Menu(rows: seq<Row>, dayIndex: nat, updatedAt: string) returns (allMeals: seq<Meal>)
    requires dayIndex < 7
    ensures allMeals == Floor2Meals(rows, DayUtil.DayOfWeek(dayIndex), updatedAt)
  {
    allMeals := [];
    var day := DayUtil.DayOfWeek(dayIndex);
    for n := 0 to |rows|
      invariant allMeals == Floor2Meals(rows[..n], day, updatedAt)
    {
      assert rows[..n + 1][..n] == rows[..n];
      var row := rows[n];
      if |row| < 3 || Trim(row[0].text) == "구분" {
        assert RowMeals(row, day, updatedAt) == [];
        continue;
      }
      var cornerName := Trim(row[0].text);
      if cornerName == "" {
        assert RowMeals(row, day, updatedAt) == [];
        continue;
      }
      var restaurant := CornerOf(cornerName);
      if restaurant.None? || !Target(restaurant.value) {
        assert RowMeals(row, day, updatedAt) == [];
        continue;
      }
      ghost var before := allMeals;
      allMeals := PushCellMeal(allMeals, restaurant.value, day, Lunch, Trim(row[1].innerHtml), updatedAt);
      allMeals := PushCellMeal(allMeals, restaurant.value, day, Dinner, Trim(row[2].innerHtml), updatedAt);
      AppendAssoc(before, RowCellMeal(restaurant.value, row, 1, day, Lunch, updatedAt),
        RowCellMeal(restaurant.value, row, 2, day, Dinner, updatedAt));
    }
    assert rows[..|rows|] == rows;
  }

  // ---------------------------------------------------------------------------
  // Properties

  /** The shape every floor-2 meal has. */
  predicate Floor2Meal(m: Meal, day: Day, updatedAt: string) {
    && Target(m.restaurant) && m.day == day && m.updatedAt == updatedAt
    && m.status == Open && OpenIffItems(m) && m.notes.None?
    && (m.mealType == Lunch || m.mealType == Dinner)
    && forall it :: it in m.items.value ==> WellNamed(it)
  }

  /** A row yields at most a lunch meal followed by a dinner meal, and only for a mapped corner. */
  lemma RowMealsOrder(row: Row, day: Day, updatedAt: string)
    ensures |RowMeals(row, day, updatedAt)| <= 2
    ensures RowCorner(row).None? ==> RowMeals(row, day, updatedAt) == []
    ensures var ms := RowMeals(row, day, updatedAt);
      |ms| == 2 ==> ms[0].mealType == Lunch && ms[1].mealType == Dinner
  {
    if RowCorner(row).Some? {
      var r := RowCorner(row).value;
      var lunch, dinner := RowCellMeal(r, row, 1, day, Lunch, updatedAt), RowCellMeal(r, row, 2, day, Dinner, updatedAt);
      assert RowMeals(row, day, updatedAt) == lunch + dinner;
      if |lunch + dinner| == 2 {
        assert lunch[0] in lunch && dinner[0] in dinner;
      }
    }
  }

  /** The meals a row contributes have the floor-2 shape. */
  lemma RowMealsShape(row: Row, day: Day, updatedAt: string)
    ensures forall m :: m in RowMeals(row, day, updatedAt) ==> Floor2Meal(m, day, updatedAt)
  {
    if RowCorner(row).Some? {
      var r := RowCorner(row).value;
      CellItemsShape(Trim(row[1].innerHtml), Second);
      CellItemsShape(Trim(row[2].innerHtml), Second);
      assert RowMeals(row, day, updatedAt)
        == RowCellMeal(r, row, 1, day, Lunch, updatedAt) + RowCellMeal(r, row, 2, day, Dinner, updatedAt);
    }
  }

  /** Every floor-2 meal is open with well-named items, for a targeted corner, day and timestamp. */
  lemma {:induction false} Floor2MealsShape(rows: seq<Row>, day: Day, updatedAt: string)
    ensures forall m :: m in Floor2Meals(rows, day, updatedAt) ==> Floor2Meal(m, day, updatedAt)
  {
    if rows != [] {
      Floor2MealsShape(rows[..|rows| - 1], day, updatedAt);
      RowMealsShape(rows[|rows| - 1], day, updatedAt);
    }
  }

  /** A row with fewer than three cells or an unmapped header contributes nothing. */
  lemma UnmappedRowsContributeNothing(rows: seq<Row>, row: Row, day: Day, updatedAt: string)
    requires |row| < 3 || CornerOf(Trim(row[0].text)).None?
    ensures Floor2Meals(rows + [row], day, updatedAt) == Floor2Meals(rows, day, updatedAt)
  {
    assert (rows + [row])[..|rows|] == rows;
    assert RowMeals(row, day, updatedAt) == [];
  }

  /**
   * A cell with a truthy `￦ n` set price (the 일품 style) yields a meal with
   * exactly one item, priced at the set price.
   */
  lemma SetCellMeal(r: Restaurant, row: Row, k: nat, day: Day, mt: MealType, updatedAt: string)
    requires k < |row| && SetPrice(Trim(row[k].innerHtml)).Truthy()
    ensures forall m :: m in RowCellMeal(r, row, k, day, mt, updatedAt) ==>
      |m.items.value| == 1 && m.items.value[0].price == SetPrice(Trim(row[k].innerHtml))
  {
    var html := Trim(row[k].innerHtml);
    CellItemsShape(html, Second);
    OneItemMeal(r, day, mt, html, ItemsOf(html, Second), SetPrice(html), updatedAt);
  }

  /** A meal built from at most one item, priced `price`, has exactly that item. */
  lemma OneItemMeal(r: Restaurant, day: Day, mt: MealType, html: string, items: seq<MenuItem>, price: Amount, updatedAt: string)
    requires |items| <= 1 && forall it :: it in items ==> it.price == price
    ensures forall m :: m in CellMeal(r, day, mt, html, items, updatedAt) ==>
      |m.items.value| == 1 && m.items.value[0].price == price
  {
    if items != [] {
      assert items[0] in items;
    }
  }
}
