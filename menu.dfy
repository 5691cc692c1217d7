/**
 * The records the menu extractors produce (src/types/meal.d.ts), extended with the
 * fields the extractors actually write: `status`, `notes` and a nullable `items`
 * on a meal, `openAndCloseTime` on a menu item.  A table cell is the part of a
 * DOM cell the extractors look at.
 */
module Menu {
  import opened Wrappers

  datatype Day = Sun | Mon | Tue | Wed | Thu | Fri | Sat

  /** The closed set of canonical dining venues. */
  datatype Restaurant =
    | Jipbap          // 상록원3층식당 - 집밥
    | Hangeureut      // 상록원3층식당 - 한그릇(한정판매)
    | Ilpum           // 상록원2층식당 - 일품코너
    | Yangsik         // 상록원2층식당 - 양식코너
    | Ttukbaegi       // 상록원2층식당 - 뚝배기코너
    | SotAndNoodle    // 솥앤누들
    | Bunsikdang      // 분식당
    | Nuriteo         // 누리터식당
    | NamsanDorm      // 남산학사 기숙사 식당
    | DFlex           // 경영관 D-flex

  datatype MealType = Breakfast | Lunch | Dinner

  datatype Status = Open | Closed | Unavailable

  /**
   * A JavaScript `number | undefined` produced by `parseInt`: `Absent` is
   * `undefined`, `NotANumber` is the `NaN` that `parseInt` returns for a
   * string without digits.
   */
  datatype Amount = Absent | NotANumber | Won(value: nat) {
    /** JavaScript truthiness: `undefined`, `NaN` and `0` are falsy. */
    predicate Truthy() { Won? && value != 0 }
  }

  datatype MenuItem = MenuItem(name: seq<string>, price: Amount, openAndCloseTime: Option<string>)

  datatype Meal = Meal(
    restaurant: Restaurant,
    day: Day,
    mealType: MealType,
    items: Option<seq<MenuItem>>,
    status: Status,
    notes: Option<string>,
    updatedAt: string)

  /** The inner HTML and text of a cell's content `<span style="color:#303030">`. */
  datatype ContentSpan = ContentSpan(text: string, innerHtml: string)

  /**
   * One `<td>`: its `textContent`, `innerHTML`, whether it has a `rowspan`
   * attribute, its `colspan` attribute, whether its class list holds
   * `menu_st`, and its content span (if any).
   */
  datatype Cell = Cell(
    text: string,
    innerHtml: string,
    hasRowspan: bool,
    colspan: Option<string>,
    isMenuSt: bool,
    contentSpan: Option<ContentSpan>)

  /** A `<tr>` as its sequence of cells; a table body is a sequence of rows. */
  type Row = seq<Cell>

  /** The `MenuItem` invariant: a name list that is non-empty and holds no empty name. */
  predicate WellNamed(item: MenuItem) {
    |item.name| > 0 && forall k :: 0 <= k < |item.name| ==> item.name[k] != ""
  }

  /** The `Meal` invariant: `open` exactly when the items are present and non-empty. */
  predicate OpenIffItems(m: Meal) {
    m.status == Open <==> (m.items.Some? && |m.items.value| > 0)
  }
}
