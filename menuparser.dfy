/**
 * The weekly-table parser (class `MenuParser`, src/tasks/menu-parser.ts): one
 * table lists a whole week, one row per corner and meal type and one column
 * per day.  A cell's content span is read as a set menu (one item naming every
 * line, priced by the cell's `￦ n`) or as a list of individually priced items;
 * the rows are walked by a small state machine that tracks the current
 * restaurant section and corner.
 */
module MenuParser {
  import opened Wrappers
  import opened Menu
  import opened Text
  import opened Tokens
  import opened Cleanup

  // ---------------------------------------------------------------------------
  // Prices

  /** `parsePrice`: the `￦ n` price of a text, else its first `n원` price, else `undefined`. */
  function ParsePrice(text: string): (r: Amount)
    ensures r == Absent <==> FirstWonSign(text, 0).None? && FirstWon(text, 0).None?
    ensures FirstWonSign(text, 0).Some? ==> r == ParseAmount(FirstWonSign(text, 0).value.group)
    ensures FirstWonSign(text, 0).None? && FirstWon(text, 0).Some? ==> r == ParseAmount(FirstWon(text, 0).value.group)
  {
    match FirstWonSign(text, 0)
    case Some(h) => ParseAmount(h.group)
    case None =>
      match FirstWon(text, 0)
      case Some(h) => ParseAmount(h.group)
      case None => Absent
  }

  /** A run of price characters reaches the end of the text or a character outside the run. */
  lemma RunToEnd(s: string, k: nat, e: nat)
    requires k <= e <= |s| && (e == |s| || !IsPriceChar(s[e]))
    requires forall j :: k <= j < e ==> IsPriceChar(s[j])
    ensures RunEnd(s, k) == e
  {
  }

  /** `￦` directly followed by a `[\d,]+` group is priced by that group, whatever follows it. */
  lemma ParsePriceOfSetPrice(g: string, rest: string)
    requires |g| > 0 && AllPriceChars(g)
    requires rest == [] || !IsPriceChar(rest[0])
    ensures ParsePrice([WonSign] + g + rest) == ParseAmount(g)
  {
    var s := [WonSign] + g + rest;
    assert s[1] == g[0];
    assert SkipSpaces(s, 1) == 1;
    RunToEnd(s, 1, 1 + |g|);
    assert s[1..1 + |g|] == g;
    assert WonSignAt(s, 0) == Some(PriceHit(0, g, 1 + |g|));
  }

  /** A text that is a bare `n원` price is priced by its digits. */
  lemma ParsePriceOfWon(g: string)
    requires |g| > 0 && AllPriceChars(g)
    ensures ParsePrice(g + "원") == ParseAmount(g)
  {
    var s := g + "원";
    assert forall k :: 0 <= k < |s| ==> s[k] != WonSign by {
      forall k | 0 <= k < |s| ensures s[k] != WonSign {
        if k < |g| {
          assert IsPriceChar(g[k]);
        }
      }
    }
    assert FirstWonSign(s, 0).None?;
    RunToEnd(s, 0, |g|);
    assert s[0..|g|] == g;
    assert WonAt(s, 0) == Some(PriceHit(0, g, |g| + 1));
  }

  /** The set price of `￦n` for a decimal `n` is `n`: printing then parsing a price round-trips. */
  lemma ParsePriceRoundTrip(n: nat)
    ensures ParsePrice([WonSign] + Decimal(n)) == Won(n)
  {
    ParseAmountOfDecimal(n);
    assert [WonSign] + Decimal(n) + [] == [WonSign] + Decimal(n);
    ParsePriceOfSetPrice(Decimal(n), []);
  }

  // ---------------------------------------------------------------------------
  // Lines of a content span

  /** `parts.map(clean).filter(keep)`. */
  function Lines(parts: seq<string>, clean: string -> string, keep: string -> bool): (r: seq<string>)
    ensures |r| <= |parts|
    ensures forall k :: 0 <= k < |r| ==> keep(r[k])
  {
    if parts == [] then []
    else
      var s := clean(parts[|parts| - 1]);
      Lines(parts[..|parts| - 1], clean, keep) + (if keep(s) then [s] else [])
  }

  /** A line survives exactly when it is the cleanup of some part that the filter keeps. */
  lemma {:induction false} LinesMembers(parts: seq<string>, clean: string -> string, keep: string -> bool, s: string)
    ensures s in Lines(parts, clean, keep) <==> exists j :: 0 <= j < |parts| && clean(parts[j]) == s && keep(s)
  {
    if parts != [] {
      var init := parts[..|parts| - 1];
      LinesMembers(init, clean, keep, s);
      if exists j :: 0 <= j < |init| && clean(init[j]) == s && keep(s) {
        var j :| 0 <= j < |init| && clean(init[j]) == s && keep(s);
        assert parts[j] == init[j];
      }
      if exists j :: 0 <= j < |parts| && clean(parts[j]) == s && keep(s) {
        var j :| 0 <= j < |parts| && clean(parts[j]) == s && keep(s);
        if j < |init| {
          assert clean(init[j]) == s;
        }
      }
    }
  }

  /** The set strategy's cleanup of one part: `&amp;` decoded, parentheses and tags removed, trimmed. */
  function SetLine(part: string): string {
    Apply(part, [Replace("&amp;", "&", false), DropParens, DropTags, TrimSpaces])
  }

  /** The set strategy keeps non-empty lines that are neither `**` notes nor `한정판매` notices. */
  predicate KeptSetLine(s: string) {
    s != "" && !StartsWith(s, "**") && !Contains(s, "한정판매")
  }

  /** The set strategy's `lines`. */
  function SetLines(parts: seq<string>): seq<string> {
    Lines(parts, SetLine, KeptSetLine)
  }

  /** Strategy 2's cleanup of one part: `&amp;` decoded, trimmed. */
  function RawLine(part: string): string {
    Apply(part, [Replace("&amp;", "&", false), TrimSpaces])
  }

  /** Strategy 2 keeps non-empty lines that are neither `****` banners nor hour ranges. */
  predicate KeptRawLine(s: string) {
    s != "" && !StartsWith(s, "****") && !Contains(s, "~")
  }

  /** Strategy 2's `rawLines`. */
  function RawLines(parts: seq<string>): seq<string> {
    Lines(parts, RawLine, KeptRawLine)
  }

  // ---------------------------------------------------------------------------
  // Strategy 2: individually priced lines

  /** The name of a strategy-2 item: `[NEW]`, parentheses and tags removed, trimmed. */
  function ItemName(line: string): string {
    Apply(line, [Replace("[NEW]", "", false), DropParens, DropTags, TrimSpaces])
  }

  /** The item a cleaned name yields: none when the name is empty. */
  function NamedItem(name: string, price: Amount): (r: Option<MenuItem>)
    ensures r.Some? <==> name != ""
    ensures r.Some? ==> |r.value.name| == 1 && WellNamed(r.value) && r.value.openAndCloseTime.None?
  {
    if name == "" then None else Some(MenuItem([name], price, None))
  }

  /**
   * One step of strategy 2 on a line and the line after it (`""` past the
   * end): the item it yields and whether the next line was consumed as the
   * item's price.  A bare `n원` next line wins over a price inside the line.
   */
  function RawStep(line: string, next: string): (r: (Option<MenuItem>, bool))
    ensures r.1 <==> line != "" && PriceOnly(next).Some?
    ensures r.0.Some? ==> line != "" && |r.0.value.name| == 1 && WellNamed(r.0.value) && r.0.value.openAndCloseTime.None?
    ensures r.0.Some? && r.1 ==> r.0.value.price == ParseAmount(PriceOnly(next).value)
    ensures r.0.Some? && !r.1 ==> (r.0.value.price == Absent <==> FirstWon(line, 0).None?)
    ensures r.0.Some? && !r.1 && FirstWon(line, 0).Some? ==> r.0.value.price == ParseAmount(FirstWon(line, 0).value.group)
    // the name is the cleaned line, with an inline price cut out when the next line did not supply one
    ensures r.0.Some? <==> line != "" && ItemName(if r.1 then line else CutWon(line)) != ""
    ensures r.0.Some? ==> r.0.value.name == [ItemName(if r.1 then line else CutWon(line))]
  {
    if line == "" then (None, false)
    else match PriceOnly(next)
      case Some(g) => (NamedItem(ItemName(line), ParseAmount(g)), true)
      case None =>
        match FirstWon(line, 0)
        case Some(h) => (NamedItem(ItemName(CutWon(line)), ParseAmount(h.group)), false)
        case None => (NamedItem(ItemName(line), Absent), false)
  }

  /** `acc` followed by the items of strategy 2 from line `i` on. */
  function RawFrom(lines: seq<string>, i: nat, acc: seq<MenuItem>): seq<MenuItem>
    decreases |lines| - i
  {
    if i >= |lines| then acc
    else
      var st := RawStep(lines[i], if i + 1 < |lines| then lines[i + 1] else "");
      RawFrom(lines, if st.1 then i + 2 else i + 1, if st.0.Some? then acc + [st.0.value] else acc)
  }

  /** The shape of a strategy-2 item. */
  predicate ListedItem(it: MenuItem) {
    |it.name| == 1 && WellNamed(it) && it.openAndCloseTime.None?
  }

  /** Adding an optional listed item keeps every item listed. */
  lemma AppendListed(acc: seq<MenuItem>, item: Option<MenuItem>)
    requires forall it :: it in acc ==> ListedItem(it)
    requires item.Some? ==> ListedItem(item.value)
    ensures forall it :: it in (if item.Some? then acc + [item.value] else acc) ==> ListedItem(it)
  {
  }

  /** Every item strategy 2 adds has one non-empty name and no hours. */
  lemma {:induction false} RawFromListed(lines: seq<string>, i: nat, acc: seq<MenuItem>)
    requires forall it :: it in acc ==> ListedItem(it)
    ensures forall it :: it in RawFrom(lines, i, acc) ==> ListedItem(it)
    decreases |lines| - i
  {
    if i < |lines| {
      var st := RawStep(lines[i], if i + 1 < |lines| then lines[i + 1] else "");
      AppendListed(acc, st.0);
      RawFromListed(lines, if st.1 then i + 2 else i + 1, if st.0.Some? then acc + [st.0.value] else acc);
    }
  }

  /** Strategy 2 keeps what it was given and adds at most one item per line. */
  lemma {:induction false} RawFromBounded(lines: seq<string>, i: nat, acc: seq<MenuItem>)
    requires i <= |lines|
    ensures |acc| <= |RawFrom(lines, i, acc)| <= |acc| + (|lines| - i)
    ensures RawFrom(lines, i, acc)[..|acc|] == acc
    decreases |lines| - i
  {
    if i < |lines| {
      var st := RawStep(lines[i], if i + 1 < |lines| then lines[i + 1] else "");
      var acc' := if st.0.Some? then acc + [st.0.value] else acc;
      assert acc'[..|acc|] == acc;
      RawFromBounded(lines, if st.1 then i + 2 else i + 1, acc');
    }
  }

  /** Strategy 2's loop body: read line `i` and, when it is a bare price, the next one. */
  method ReadRawItem(line: string, next: string) returns (item: Option<MenuItem>, consumed: bool)
    ensures (item, consumed) == RawStep(line, next)
  {
    item, consumed := None, false;
    if line == "" {
      return;
    }
    var price: Amount := Absent;
    var name := line;
    var priceOnlyMatch := PriceOnly(next);
    if priceOnlyMatch.Some? {
      price := ParseAmount(priceOnlyMatch.value);
      consumed := true;
    } else {
      var embeddedPriceMatch := FirstWon(line, 0);
      if embeddedPriceMatch.Some? {
        var h := embeddedPriceMatch.value;
        price := ParseAmount(h.group);
        name := Trim(RemoveHit(line, Hit(h.start, h.end)));
      }
    }
    name := ItemName(name);
    if name != "" {
      item := Some(MenuItem([name], price, None));
    }
  }

  /** Strategy 2's cursor loop over `rawLines`. */
  method ReadListedItems(rawLines: seq<string>) returns (menuItems: seq<MenuItem>)
    ensures menuItems == RawFrom(rawLines, 0, [])
  {
    menuItems := [];
    var i := 0;
    while i < |rawLines|
      invariant RawFrom(rawLines, i, menuItems) == RawFrom(rawLines, 0, [])
      decreases |rawLines| - i
    {
      var nextLine := if i + 1 < |rawLines| then rawLines[i + 1] else "";
      var item, consumed := ReadRawItem(rawLines[i], nextLine);
      if item.Some? {
        menuItems := menuItems + [item.value];
      }
      i := if consumed then i + 2 else i + 1;
    }
  }

  // ---------------------------------------------------------------------------
  // A whole cell

  /** What `parseMenuCell` returns. */
  datatype CellOutcome = CellOutcome(items: Option<seq<MenuItem>>, status: Status)

  /** The set strategy applies: a truthy set price, some lines, and no line carrying its own `n원`. */
  predicate SetStrategy(lines: seq<string>, setPrice: Amount) {
    setPrice.Truthy() && |lines| > 0 && forall k :: 0 <= k < |lines| ==> FirstWon(lines[k], 0).None?
  }

  /**
   * The outcome once strategy 2 produced `items`: those items; or, when there
   * are none, the single set line priced by the set price; or `unavailable`.
   */
  function ListOutcome(lines: seq<string>, setPrice: Amount, items: seq<MenuItem>): (o: CellOutcome)
    ensures o.status != Closed
    ensures o.status == Open <==> items != [] || (|lines| == 1 && setPrice.Truthy())
    ensures o.status == Open <==> o.items.Some?
    ensures items != [] ==> o.items == Some(items)
  {
    if items != [] then CellOutcome(Some(items), Open)
    else if |lines| == 1 && setPrice.Truthy() then CellOutcome(Some([MenuItem([lines[0]], setPrice, None)]), Open)
    else CellOutcome(None, Unavailable)
  }

  /** The outcome of a content span's markup, given the whole cell's set price. */
  function ContentOutcome(rawHtml: string, setPrice: Amount): CellOutcome {
    var parts := SplitBr(rawHtml);
    var lines := SetLines(parts);
    if SetStrategy(lines, setPrice) then CellOutcome(Some([MenuItem(lines, setPrice, None)]), Open)
    else ListOutcome(lines, setPrice, RawFrom(RawLines(parts), 0, []))
  }

  /** A cell whose content span is missing, blank or marked `휴무` is closed. */
  predicate ClosedCell(cell: Cell) {
    cell.contentSpan.None? || Trim(cell.contentSpan.value.text) == "" || Contains(cell.contentSpan.value.innerHtml, "휴무")
  }

  /** `parseMenuCell` as a function of the cell. */
  function WeeklyCell(cell: Cell): (o: CellOutcome)
    ensures o.status == Closed <==> ClosedCell(cell)
    ensures o.status == Closed ==> o.items.None?
  {
    if ClosedCell(cell) then CellOutcome(None, Closed)
    else
      var o := ContentOutcome(cell.contentSpan.value.innerHtml, ParsePrice(cell.text));
      assert o.status != Closed;
      o
  }

  /** The part of `parseMenuCell` after the closed checks: the two strategies on the span's markup. */
  method ReadContent(rawHtml: string, setPrice: Amount) returns (items: Option<seq<MenuItem>>, status: Status)
    ensures CellOutcome(items, status) == ContentOutcome(rawHtml, setPrice)
  {
    var parts := SplitBr(rawHtml);
    var lines := SetLines(parts);
    if setPrice.Truthy() && |lines| > 0 && !(exists k | 0 <= k < |lines| :: FirstWon(lines[k], 0).Some?) {
      return Some([MenuItem(lines, setPrice, None)]), Open;
    }
    var menuItems := ReadListedItems(RawLines(parts));
    if |menuItems| == 0 {
      if |lines| == 1 && setPrice.Truthy() {
        return Some([MenuItem([lines[0]], setPrice, None)]), Open;
      }
      return None, Unavailable;
    }
    return Some(menuItems), Open;
  }

  /** `parseMenuCell`. */
  method ParseMenuCell(cell: Cell) returns (items: Option<seq<MenuItem>>, status: Status)
    ensures CellOutcome(items, status) == WeeklyCell(cell)
  {
    if cell.contentSpan.None? || Trim(cell.contentSpan.value.text) == "" {
      return None, Closed;
    }
    var rawHtml := cell.contentSpan.value.innerHtml;
    var wholeCellText := cell.text;
    if Contains(rawHtml, "휴무") {
      return None, Closed;
    }
    var setPrice := ParsePrice(wholeCellText);
    items, status := ReadContent(rawHtml, setPrice);
  }

  // ---------------------------------------------------------------------------
  // Properties of a cell

  /** The outcome invariant: open exactly when there are items, which are then well named. */
  predicate Consistent(o: CellOutcome) {
    && (o.status == Open <==> o.items.Some? && |o.items.value| > 0)
    && (o.items.Some? ==> forall it :: it in o.items.value ==> WellNamed(it))
  }

  /** Strategy 2's outcome keeps the invariant when the set lines are well formed. */
  lemma ListOutcomeConsistent(lines: seq<string>, setPrice: Amount, items: seq<MenuItem>)
    requires forall k :: 0 <= k < |lines| ==> lines[k] != ""
    requires forall it :: it in items ==> ListedItem(it)
    ensures Consistent(ListOutcome(lines, setPrice, items))
  {
  }

  /** The outcome of a content span keeps the invariant. */
  lemma ContentOutcomeConsistent(rawHtml: string, setPrice: Amount)
    ensures Consistent(ContentOutcome(rawHtml, setPrice))
  {
    var parts := SplitBr(rawHtml);
    var lines := SetLines(parts);
    assert forall k :: 0 <= k < |lines| ==> KeptSetLine(lines[k]);
    RawFromListed(RawLines(parts), 0, []);
    ListOutcomeConsistent(lines, setPrice, RawFrom(RawLines(parts), 0, []));
  }

  /** Every outcome of a cell keeps the invariant. */
  lemma WeeklyCellConsistent(cell: Cell)
    ensures Consistent(WeeklyCell(cell))
  {
    if !ClosedCell(cell) {
      ContentOutcomeConsistent(cell.contentSpan.value.innerHtml, ParsePrice(cell.text));
    }
  }

  /**
   * When the set strategy applies the cell is one open item named by every
   * set line and priced by the set price.
   */
  lemma SetStrategyItem(cell: Cell)
    requires !ClosedCell(cell)
    requires SetStrategy(SetLines(SplitBr(cell.contentSpan.value.innerHtml)), ParsePrice(cell.text))
    ensures WeeklyCell(cell) == CellOutcome(Some([MenuItem(SetLines(SplitBr(cell.contentSpan.value.innerHtml)), ParsePrice(cell.text), None)]), Open)
  {
  }

  /**
   * When neither the set strategy nor strategy 2 finds anything, a cell is
   * open exactly when it has a single set line and a set price, and then
   * that line is its only item.
   */
  lemma NothingListed(cell: Cell)
    requires !ClosedCell(cell)
    requires !SetStrategy(SetLines(SplitBr(cell.contentSpan.value.innerHtml)), ParsePrice(cell.text))
    requires RawFrom(RawLines(SplitBr(cell.contentSpan.value.innerHtml)), 0, []) == []
    ensures var lines := SetLines(SplitBr(cell.contentSpan.value.innerHtml));
      WeeklyCell(cell).status == Open <==> |lines| == 1 && ParsePrice(cell.text).Truthy()
    ensures var lines := SetLines(SplitBr(cell.contentSpan.value.innerHtml));
      WeeklyCell(cell).status == Open ==> WeeklyCell(cell).items == Some([MenuItem([lines[0]], ParsePrice(cell.text), None)])
  {
  }

  // ---------------------------------------------------------------------------
  // Constant menus

  /** `TARGET_RESTAURANTS`. */
  predicate Target(r: Restaurant) {
    r == Jipbap || r == Hangeureut || r == Ilpum || r == Yangsik || r == Ttukbaegi
    || r == SotAndNoodle || r == Bunsikdang
  }

  /** The first cell at or after `start` whose trimmed text is non-empty. */
  function FirstFilled(row: Row, start: nat): (r: Option<nat>)
    ensures r.Some? ==> start <= r.value < |row| && Trim(row[r.value].text) != ""
    ensures r.Some? ==> forall j :: start <= j < r.value ==> Trim(row[j].text) == ""
    ensures r.None? ==> forall j :: start <= j < |row| ==> Trim(row[j].text) == ""
    decreases |row| - start
  {
    if start >= |row| then None
    else if Trim(row[start].text) != "" then Some(start)
    else FirstFilled(row, start + 1)
  }

  /** `targetDays`. */
  const Workdays: seq<Day> := [Mon, Tue, Wed, Thu, Fri]

  /** `targetMealTypes`. */
  const ServedMealTypes: seq<MealType> := [Lunch, Dinner]

  /** The meal a cell's outcome gives a restaurant on a day for a meal type. */
  function OutcomeMeal(r: Restaurant, day: Day, mt: MealType, o: CellOutcome, updatedAt: string): Meal {
    Meal(r, day, mt, o.items, o.status, None, updatedAt)
  }

  /** The lunch and dinner meals of each of `days`, in order, all with the same outcome. */
  function WeekMeals(r: Restaurant, o: CellOutcome, updatedAt: string, days: seq<Day>): (ms: seq<Meal>)
    ensures |ms| == 2 * |days|
  {
    if days == [] then []
    else
      var day := days[|days| - 1];
      WeekMeals(r, o, updatedAt, days[..|days| - 1])
        + [OutcomeMeal(r, day, Lunch, o, updatedAt), OutcomeMeal(r, day, Dinner, o, updatedAt)]
  }

  /** Meal `2 k + j` is day `k`'s meal of type `j`. */
  lemma {:induction false} WeekMealsAt(r: Restaurant, o: CellOutcome, updatedAt: string, days: seq<Day>, k: nat, j: nat)
    requires k < |days| && j < 2
    ensures WeekMeals(r, o, updatedAt, days)[2 * k + j] == OutcomeMeal(r, days[k], ServedMealTypes[j], o, updatedAt)
  {
    if k < |days| - 1 {
      WeekMealsAt(r, o, updatedAt, days[..|days| - 1], k, j);
    }
  }

  /** What `parseConstantMenu` appends: the week of the first filled cell from `start` on. */
  function ConstantMenu(row: Row, r: Restaurant, start: nat, updatedAt: string): seq<Meal> {
    if !Target(r) then []
    else match FirstFilled(row, start)
      case None => []
      case Some(i) => WeekMeals(r, WeeklyCell(row[i]), updatedAt, Workdays)
  }

  /** A week is ten meals: Monday to Friday, each lunch then dinner, all with the same outcome. */
  lemma WorkWeekMeals(r: Restaurant, o: CellOutcome, updatedAt: string)
    ensures |WeekMeals(r, o, updatedAt, Workdays)| == 10
    ensures forall k :: 0 <= k < 10 ==>
      WeekMeals(r, o, updatedAt, Workdays)[k] == OutcomeMeal(r, Workdays[k / 2], ServedMealTypes[k % 2], o, updatedAt)
  {
    forall k | 0 <= k < 10
      ensures WeekMeals(r, o, updatedAt, Workdays)[k] == OutcomeMeal(r, Workdays[k / 2], ServedMealTypes[k % 2], o, updatedAt)
    {
      WeekMealsAt(r, o, updatedAt, Workdays, k / 2, k % 2);
    }
  }

  /**
   * A constant menu is nothing, or ten meals: Monday to Friday, each lunch
   * then dinner, all sharing the first filled cell's items and status.
   */
  lemma ConstantMenuShape(row: Row, r: Restaurant, start: nat, updatedAt: string)
    ensures var ms := ConstantMenu(row, r, start, updatedAt);
      |ms| == 0 || |ms| == 10
    ensures |ConstantMenu(row, r, start, updatedAt)| == 10 <==> Target(r) && FirstFilled(row, start).Some?
    ensures Target(r) && FirstFilled(row, start).Some? ==>
      ConstantMenu(row, r, start, updatedAt) == WeekMeals(r, WeeklyCell(row[FirstFilled(row, start).value]), updatedAt, Workdays)
  {
  }

  /** The search for the data cell in `parseConstantMenu`. */
  method FindDataCell(row: Row, start: nat) returns (dataCell: Option<nat>)
    ensures dataCell == FirstFilled(row, start)
  {
    var i := start;
    while i < |row|
      invariant start <= i || |row| <= i
      invariant FirstFilled(row, start) == FirstFilled(row, i)
      decreases |row| - i
    {
      if Trim(row[i].text) != "" {
        return Some(i);
      }
      i := i + 1;
    }
    return None;
  }

  /** The nested `for` loops of `parseConstantMenu`: a lunch and a dinner meal per workday. */
  method PushWeek(allMeals: seq<Meal>, restaurant: Restaurant, items: Option<seq<MenuItem>>, status: Status, updatedAt: string)
    returns (result: seq<Meal>)
    ensures result == allMeals + WeekMeals(restaurant, CellOutcome(items, status), updatedAt, Workdays)
  {
    result := allMeals;
    ghost var o := CellOutcome(items, status);
    for d := 0 to |Workdays|
      invariant result == allMeals + WeekMeals(restaurant, o, updatedAt, Workdays[..d])
    {
      assert Workdays[..d + 1][..d] == Workdays[..d];
      ghost var before := result;
      ghost var pair := [OutcomeMeal(restaurant, Workdays[d], Lunch, o, updatedAt), OutcomeMeal(restaurant, Workdays[d], Dinner, o, updatedAt)];
      for m := 0 to |ServedMealTypes|
        invariant result == before + pair[..m]
      {
        assert pair[..m + 1] == pair[..m] + [pair[m]];
        result := result + [Meal(restaurant, Workdays[d], ServedMealTypes[m], items, status, None, updatedAt)];
      }
      assert pair[..2] == pair;
      AppendAssoc(allMeals, WeekMeals(restaurant, o, updatedAt, Workdays[..d]), pair);
    }
    assert Workdays[..|Workdays|] == Workdays;
  }

  /** `parseConstantMenu`: append the week of meals the row's first filled cell describes. */
  method ParseConstantMenu(allMeals: seq<Meal>, row: Row, restaurant: Restaurant, dataStartIndex: nat, updatedAt: string)
    returns (result: seq<Meal>)
    ensures result == allMeals + ConstantMenu(row, restaurant, dataStartIndex, updatedAt)
  {
    result := allMeals;
    if !Target(restaurant) {
      return;
    }
    var dataCell := FindDataCell(row, dataStartIndex);
    if dataCell.None? {
      return;
    }
    var items, status := ParseMenuCell(row[dataCell.value]);
    result := PushWeek(result, restaurant, items, status, updatedAt);
  }

  // ---------------------------------------------------------------------------
  // The day columns

  /** `dayOfWeekMap`. */
  function DayOfChar(c: char): (d: Option<Day>)
    ensures d == Some(Sun) <==> c == '일'
    ensures d == Some(Mon) <==> c == '월'
    ensures d == Some(Tue) <==> c == '화'
    ensures d == Some(Wed) <==> c == '수'
    ensures d == Some(Thu) <==> c == '목'
    ensures d == Some(Fri) <==> c == '금'
    ensures d == Some(Sat) <==> c == '토'
  {
    if c == '일' then Some(Sun)
    else if c == '월' then Some(Mon)
    else if c == '화' then Some(Tue)
    else if c == '수' then Some(Wed)
    else if c == '목' then Some(Thu)
    else if c == '금' then Some(Fri)
    else if c == '토' then Some(Sat)
    else None
  }

  /** The day header row: its fourth cell's markup holds `월<br>`. */
  predicate IsHeader(row: Row) {
    |row| > 3 && Contains(row[3].innerHtml, "월<br>")
  }

  /** `rows.find(...)`: the first header row at or after `from`. */
  function HeaderFrom(rows: seq<Row>, from: nat): (h: Option<nat>)
    ensures h.Some? ==> from <= h.value < |rows| && IsHeader(rows[h.value])
    ensures h.Some? ==> forall j :: from <= j < h.value ==> !IsHeader(rows[j])
    ensures h.None? ==> forall j :: from <= j < |rows| ==> !IsHeader(rows[j])
    decreases |rows| - from
  {
    if from >= |rows| then None
    else if IsHeader(rows[from]) then Some(from)
    else HeaderFrom(rows, from + 1)
  }

  /** The day header cell `i` names by its first character, if any. */
  function HeaderDay(header: Row, i: nat): Option<Day> {
    if i < |header| && Trim(header[i].text) != "" then DayOfChar(Trim(header[i].text)[0]) else None
  }

  /** The `dayColumnMap` entry of header cell `i`: none when it names no day. */
  function DayEntry(header: Row, i: nat): (e: seq<(nat, Day)>)
    ensures |e| <= 1
    ensures e == [] <==> HeaderDay(header, i).None?
    ensures e != [] ==> e == [(i, HeaderDay(header, i).value)]
  {
    match HeaderDay(header, i)
    case None => []
    case Some(d) => [(i, d)]
  }

  /** The `dayColumnMap` entries for the columns `2 .. n - 1`, in insertion order. */
  function DayColumnsBelow(header: Row, n: nat): (cols: seq<(nat, Day)>)
    ensures forall k :: 0 <= k < |cols| ==> 2 <= cols[k].0 < n
    decreases n
  {
    if n <= 2 then [] else DayColumnsBelow(header, n - 1) + DayEntry(header, n - 1)
  }

  /** `dayColumnMap` after the header loop over columns 2 to 8 (empty without a header row). */
  function DayColumns(rows: seq<Row>): seq<(nat, Day)> {
    match HeaderFrom(rows, 0)
    case None => []
    case Some(h) => DayColumnsBelow(rows[h], 9)
  }

  /** The map holds exactly the columns below `n` from 2 on whose header names a day, each with that day. */
  lemma {:induction false} DayColumnsExact(header: Row, n: nat, i: nat, d: Day)
    ensures (i, d) in DayColumnsBelow(header, n) <==> 2 <= i < n && HeaderDay(header, i) == Some(d)
    decreases n
  {
    if n > 2 {
      DayColumnsExact(header, n - 1, i, d);
      var init, e := DayColumnsBelow(header, n - 1), DayEntry(header, n - 1);
      assert DayColumnsBelow(header, n) == init + e;
      assert (i, d) in init + e <==> (i, d) in init || (i, d) in e;
      if e == [] {
        assert (i, d) !in e;
        assert HeaderDay(header, n - 1).None?;
      } else {
        assert e == [(n - 1, HeaderDay(header, n - 1).value)];
        assert (i, d) in e <==> i == n - 1 && HeaderDay(header, i) == Some(d);
      }
      assert (i, d) in DayColumnsBelow(header, n - 1) <==> 2 <= i < n - 1 && HeaderDay(header, i) == Some(d);
      assert (i, d) in DayColumnsBelow(header, n) <==> 2 <= i < n && HeaderDay(header, i) == Some(d);
    } else {
      assert DayColumnsBelow(header, n) == [];
    }
  }

  /** The map's columns increase in insertion order, so no column is entered twice. */
  lemma {:induction false} DayColumnsIncreasing(header: Row, n: nat)
    ensures forall k, l :: 0 <= k < l < |DayColumnsBelow(header, n)| ==>
      DayColumnsBelow(header, n)[k].0 < DayColumnsBelow(header, n)[l].0
    decreases n
  {
    if n > 2 {
      DayColumnsIncreasing(header, n - 1);
      var init := DayColumnsBelow(header, n - 1);
      var cols := DayColumnsBelow(header, n);
      assert cols == init + DayEntry(header, n - 1);
      forall k, l | 0 <= k < l < |cols| ensures cols[k].0 < cols[l].0 {
        if l >= |init| {
          assert cols[l].0 == n - 1;
          assert cols[k] == init[k];
        } else {
          assert cols[k] == init[k] && cols[l] == init[l];
        }
      }
    }
  }

  /** One pass of the header loop: the day the cell's first character names, if any. */
  method ReadHeaderCell(header: Row, i: nat) returns (day: Option<Day>)
    ensures day == HeaderDay(header, i)
  {
    day := None;
    if i < |header| {
      var text := Trim(header[i].text);
      if text != "" {
        var dayChar := text[0];
        day := DayOfChar(dayChar);
      }
    }
  }

  /** The header loop of `parseMenu`. */
  method BuildDayColumns(rows: seq<Row>) returns (dayColumnMap: seq<(nat, Day)>)
    ensures dayColumnMap == DayColumns(rows)
  {
    dayColumnMap := [];
    var headerRow := HeaderFrom(rows, 0);
    if headerRow.None? {
      return;
    }
    var header := rows[headerRow.value];
    for i := 2 to 9
      invariant dayColumnMap == DayColumnsBelow(header, i)
    {
      var day := ReadHeaderCell(header, i);
      if day.Some? {
        dayColumnMap := dayColumnMap + [(i, day.value)];
      }
    }
  }

  // ---------------------------------------------------------------------------
  // The row walk

  /** `currentRestaurantSection` and `currentCornerName`. */
  datatype Walk = Walk(section: string, corner: string)

  /** A date header row (`colspan="2"` and `코너` in its first cell): skipped. */
  predicate DateHeader(row: Row)
    requires |row| > 0
  {
    row[0].colspan == Some("2") && Contains(row[0].text, "코너")
  }

  /** The corner name a spanning first cell gives: its text without any white space. */
  function CornerText(cell: Cell): string {
    Trim(RemoveSpaces(cell.text))
  }

  /** The walk after a row. */
  function NextWalk(row: Row, st: Walk): Walk {
    if |row| == 0 then st
    else if row[0].isMenuSt then Walk(Trim(row[0].text), "")
    else if DateHeader(row) then st
    else if row[0].hasRowspan && CornerText(row[0]) != "석식" then Walk(st.section, CornerText(row[0]))
    else st
  }

  /** The rows of the `솥앤누들` section: only the `메뉴` corner's row with a recognisable Monday cell emits. */
  function SotSectionMeals(row: Row, corner: string, updatedAt: string): seq<Meal> {
    if corner != "메뉴" || |row| <= 3 then []
    else if Contains(row[3].text, "****분식당****") then ConstantMenu(row, Bunsikdang, 3, updatedAt)
    else if Contains(row[3].text, "삼겹살김치철판") then ConstantMenu(row, SotAndNoodle, 3, updatedAt)
    else []
  }

  /** `mealTypeMap`. */
  function MealTypeOf(s: string): (mt: Option<MealType>)
    ensures mt == Some(Lunch) <==> s == "중식"
    ensures mt == Some(Dinner) <==> s == "석식"
    ensures mt != Some(Breakfast)
  {
    if s == "중식" then Some(Lunch) else if s == "석식" then Some(Dinner) else None
  }

  /** `restaurantDTOMap`, keyed by `section-corner`. */
  function RestaurantOf(key: string): (r: Option<Restaurant>)
    ensures r == Some(Jipbap) <==> key == "상록원3층식당-집밥"
    ensures r == Some(Hangeureut) <==> key == "상록원3층식당-한그릇(한정판매)"
    ensures r == Some(Ilpum) <==> key == "상록원2층식당-일품코너"
    ensures r == Some(Yangsik) <==> key == "상록원2층식당-양식코너"
    ensures r == Some(Ttukbaegi) <==> key == "상록원2층식당-뚝배기코너"
    ensures r.Some? ==> Target(r.value)
  {
    if key == "상록원3층식당-집밥" then Some(Jipbap)
    else if key == "상록원3층식당-한그릇(한정판매)" then Some(Hangeureut)
    else if key == "상록원2층식당-일품코너" then Some(Ilpum)
    else if key == "상록원2층식당-양식코너" then Some(Yangsik)
    else if key == "상록원2층식당-뚝배기코너" then Some(Ttukbaegi)
    else None
  }

  /** The meal-type text of a row: cell 1 when the first cell spans rows, cell 0 otherwise. */
  function MealTypeText(row: Row): string
    requires |row| > 0
  {
    if row[0].hasRowspan then (if |row| > 1 then Trim(row[1].text) else "") else Trim(row[0].text)
  }

  /** The cell a day column reads: the column itself when the first cell spans rows, one to its left otherwise. */
  function DataIndex(col: nat, dataStart: nat): int {
    if dataStart == 2 then col else col - 1
  }

  /** `parseMenuCell` of every cell of a row, in order. */
  function RowOutcomes(row: Row): (os: seq<CellOutcome>)
    ensures |os| == |row|
  {
    if row == [] then [] else RowOutcomes(row[..|row| - 1]) + [WeeklyCell(row[|row| - 1])]
  }

  lemma {:induction false} RowOutcomesAt(row: Row, i: nat)
    requires i < |row|
    ensures RowOutcomes(row)[i] == WeeklyCell(row[i])
  {
    if i < |row| - 1 {
      RowOutcomesAt(row[..|row| - 1], i);
    }
  }

  /** The meal of one day column, given the outcomes of the row's cells: none when the row has no cell there. */
  function ColumnMeal(outcomes: seq<CellOutcome>, col: (nat, Day), dataStart: nat, r: Restaurant, mt: MealType, updatedAt: string): (ms: seq<Meal>)
    ensures |ms| <= 1
  {
    var idx := DataIndex(col.0, dataStart);
    if 0 <= idx < |outcomes| then [OutcomeMeal(r, col.1, mt, outcomes[idx], updatedAt)] else []
  }

  /** The meals of a general row, one per day column whose cell exists. */
  function DayMeals(outcomes: seq<CellOutcome>, cols: seq<(nat, Day)>, dataStart: nat, r: Restaurant, mt: MealType, updatedAt: string): (ms: seq<Meal>)
    ensures |ms| <= |cols|
  {
    if cols == [] then []
    else DayMeals(outcomes, cols[..|cols| - 1], dataStart, r, mt, updatedAt) + ColumnMeal(outcomes, cols[|cols| - 1], dataStart, r, mt, updatedAt)
  }

  /** The meals a general (`중식`/`석식`) row emits under the walk `st`. */
  function GeneralMeals(row: Row, st: Walk, cols: seq<(nat, Day)>, updatedAt: string): seq<Meal>
    requires |row| > 0
  {
    match MealTypeOf(MealTypeText(row))
    case None => []
    case Some(mt) =>
      match RestaurantOf(st.section + "-" + st.corner)
      case None => []
      case Some(r) => if Target(r) then DayMeals(RowOutcomes(row), cols, if row[0].hasRowspan then 2 else 1, r, mt, updatedAt) else []
  }

  /** The meals a row emits, given the walk after it. */
  function RowMeals(row: Row, st: Walk, cols: seq<(nat, Day)>, updatedAt: string): seq<Meal> {
    if |row| == 0 || row[0].isMenuSt || DateHeader(row) then []
    else if Contains(st.section, "솥앤누들") then SotSectionMeals(row, st.corner, updatedAt)
    else GeneralMeals(row, st, cols, updatedAt)
  }

  /** The walk and the meals after the rows, from an empty section and corner. */
  function Run(rows: seq<Row>, cols: seq<(nat, Day)>, updatedAt: string): (Walk, seq<Meal>) {
    if rows == [] then (Walk("", ""), [])
    else
      var before := Run(rows[..|rows| - 1], cols, updatedAt);
      var st := NextWalk(rows[|rows| - 1], before.0);
      (st, before.1 + RowMeals(rows[|rows| - 1], st, cols, updatedAt))
  }

  /** The meals of `parseMenu`. */
  function MenuMeals(rows: seq<Row>, updatedAt: string): seq<Meal> {
    Run(rows, DayColumns(rows), updatedAt).1
  }

  /** One pass of the day-column loop: read the column's cell, if the row has one. */
  method PushColumnMeal(allMeals: seq<Meal>, row: Row, col: (nat, Day), dataStart: nat, r: Restaurant, mt: MealType, updatedAt: string)
    returns (result: seq<Meal>)
    ensures result == allMeals + ColumnMeal(RowOutcomes(row), col, dataStart, r, mt, updatedAt)
  {
    result := allMeals;
    var (colIndex, day) := col;
    var idx := if dataStart == 2 then colIndex as int else colIndex as int - 1;
    if 0 <= idx < |row| {
      var items, status := ReadDataCell(row, idx);
      result := result + [Meal(r, day, mt, items, status, None, updatedAt)];
    }
  }

  /** `parseMenuCell(dataCell)` for the row's cell `idx`. */
  method ReadDataCell(row: Row, idx: nat) returns (items: Option<seq<MenuItem>>, status: Status)
    requires idx < |row|
    ensures CellOutcome(items, status) == RowOutcomes(row)[idx]
  {
    RowOutcomesAt(row, idx);
    items, status := ParseMenuCell(row[idx]);
  }

  /** The `for (const [colIndex, day] of dayColumnMap.entries())` loop. */
  method PushDayMeals(allMeals: seq<Meal>, row: Row, cols: seq<(nat, Day)>, dataStart: nat, r: Restaurant, mt: MealType, updatedAt: string)
    returns (result: seq<Meal>)
    ensures result == allMeals + DayMeals(RowOutcomes(row), cols, dataStart, r, mt, updatedAt)
  {
    result := allMeals;
    ghost var outcomes := RowOutcomes(row);
    for k := 0 to |cols|
      invariant result == allMeals + DayMeals(outcomes, cols[..k], dataStart, r, mt, updatedAt)
    {
      assert cols[..k + 1][..k] == cols[..k];
      result := PushColumnMeal(result, row, cols[k], dataStart, r, mt, updatedAt);
      AppendAssoc(allMeals, DayMeals(outcomes, cols[..k], dataStart, r, mt, updatedAt), ColumnMeal(outcomes, cols[k], dataStart, r, mt, updatedAt));
    }
    assert cols[..|cols|] == cols;
  }

  /** One pass of `parseMenu`'s row loop: update the walk and push what the row emits. */
  method ReadRow(allMeals: seq<Meal>, row: Row, section: string, corner: string, cols: seq<(nat, Day)>, updatedAt: string)
    returns (result: seq<Meal>, section': string, corner': string)
    ensures Walk(section', corner') == NextWalk(row, Walk(section, corner))
    ensures result == allMeals + RowMeals(row, Walk(section', corner'), cols, updatedAt)
  {
    result, section', corner' := allMeals, section, corner;
    if |row| == 0 {
      return;
    }
    var firstCell := row[0];
    if firstCell.isMenuSt {
      section', corner' := Trim(firstCell.text), "";
      return;
    }
    if firstCell.colspan == Some("2") && Contains(firstCell.text, "코너") {
      return;
    }
    if firstCell.hasRowspan {
      var firstCellText := CornerText(firstCell);
      if firstCellText != "석식" {
        corner' := firstCellText;
      }
    }
    if Contains(section', "솥앤누들") {
      if corner' == "메뉴" && |row| > 3 {
        var mondayCell := row[3];
        if Contains(mondayCell.text, "****분식당****") {
          result := ParseConstantMenu(result, row, Bunsikdang, 3, updatedAt);
        } else if Contains(mondayCell.text, "삼겹살김치철판") {
          result := ParseConstantMenu(result, row, SotAndNoodle, 3, updatedAt);
        }
      }
      return;
    }
    var mealTypeStr, dataStartIndex := Trim(firstCell.text), 1;
    if firstCell.hasRowspan {
      mealTypeStr := if |row| > 1 then Trim(row[1].text) else "";
      dataStartIndex := 2;
    }
    var mealType := MealTypeOf(mealTypeStr);
    if mealType.None? {
      return;
    }
    var restaurantName := RestaurantOf(section' + "-" + corner');
    if restaurantName.None? || !Target(restaurantName.value) {
      return;
    }
    result := PushDayMeals(result, row, cols, dataStartIndex, restaurantName.value, mealType.value, updatedAt);
  }

  /** `parseMenu`, on the table body's rows and the time of the run. */
  method ParseMenu(rows: seq<Row>, updatedAt: string) returns (allMeals: seq<Meal>)
    ensures allMeals == MenuMeals(rows, updatedAt)
  {
    allMeals := [];
    var dayColumnMap := BuildDayColumns(rows);
    var currentRestaurantSection, currentCornerName := "", "";
    for n := 0 to |rows|
      invariant (Walk(currentRestaurantSection, currentCornerName), allMeals) == Run(rows[..n], dayColumnMap, updatedAt)
    {
      assert rows[..n + 1][..n] == rows[..n];
      allMeals, currentRestaurantSection, currentCornerName :=
        ReadRow(allMeals, rows[n], currentRestaurantSection, currentCornerName, dayColumnMap, updatedAt);
    }
    assert rows[..|rows|] == rows;
  }

  // ---------------------------------------------------------------------------
  // Properties of the walk

  /** One more row: the walk moves on and the row's meals are appended. */
  lemma RunStep(rows: seq<Row>, row: Row, cols: seq<(nat, Day)>, updatedAt: string)
    ensures Run(rows + [row], cols, updatedAt).0 == NextWalk(row, Run(rows, cols, updatedAt).0)
    ensures Run(rows + [row], cols, updatedAt).1
      == Run(rows, cols, updatedAt).1 + RowMeals(row, NextWalk(row, Run(rows, cols, updatedAt).0), cols, updatedAt)
  {
    assert (rows + [row])[..|rows|] == rows;
  }

  /** A `menu_st` row opens a new section with no corner, and emits nothing. */
  lemma SectionRowResetsCorner(rows: seq<Row>, row: Row, cols: seq<(nat, Day)>, updatedAt: string)
    requires |row| > 0 && row[0].isMenuSt
    ensures Run(rows + [row], cols, updatedAt).0 == Walk(Trim(row[0].text), "")
    ensures Run(rows + [row], cols, updatedAt).1 == Run(rows, cols, updatedAt).1
  {
    RunStep(rows, row, cols, updatedAt);
    var ms := Run(rows, cols, updatedAt).1;
    assert RowMeals(row, Walk(Trim(row[0].text), ""), cols, updatedAt) == [];
    assert ms + [] == ms;
  }

  /** A spanning first cell that reads `석식` leaves the section and the corner as they were. */
  lemma DinnerRowKeepsCorner(rows: seq<Row>, row: Row, cols: seq<(nat, Day)>, updatedAt: string)
    requires |row| > 0 && !row[0].isMenuSt && row[0].hasRowspan && CornerText(row[0]) == "석식"
    ensures Run(rows + [row], cols, updatedAt).0 == Run(rows, cols, updatedAt).0
  {
    RunStep(rows, row, cols, updatedAt);
  }

  /** Any other spanning first cell names the corner; only a `menu_st` row changes the section. */
  lemma CornerRowSetsCorner(rows: seq<Row>, row: Row, cols: seq<(nat, Day)>, updatedAt: string)
    requires |row| > 0 && !row[0].isMenuSt && !DateHeader(row) && row[0].hasRowspan && CornerText(row[0]) != "석식"
    ensures Run(rows + [row], cols, updatedAt).0 == Walk(Run(rows, cols, updatedAt).0.section, CornerText(row[0]))
  {
    RunStep(rows, row, cols, updatedAt);
  }

  /**
   * When every day column has a cell, a general row emits exactly one meal per
   * column, in column order, read from the column itself when the first cell
   * spans rows and from the cell to its left otherwise (`RowOutcomesAt` says
   * that outcome `i` is cell `i` read by `parseMenuCell`).
   */
  lemma {:induction false} DayMealsAt(outcomes: seq<CellOutcome>, cols: seq<(nat, Day)>, dataStart: nat, r: Restaurant, mt: MealType, updatedAt: string)
    requires forall k :: 0 <= k < |cols| ==> 0 <= DataIndex(cols[k].0, dataStart) < |outcomes|
    ensures |DayMeals(outcomes, cols, dataStart, r, mt, updatedAt)| == |cols|
    ensures forall k :: 0 <= k < |cols| ==>
      DayMeals(outcomes, cols, dataStart, r, mt, updatedAt)[k]
        == OutcomeMeal(r, cols[k].1, mt, outcomes[DataIndex(cols[k].0, dataStart)], updatedAt)
  {
    if cols != [] {
      var init := cols[..|cols| - 1];
      DayMealsAt(outcomes, init, dataStart, r, mt, updatedAt);
      var head := DayMeals(outcomes, init, dataStart, r, mt, updatedAt);
      var ms := DayMeals(outcomes, cols, dataStart, r, mt, updatedAt);
      assert ms == head + ColumnMeal(outcomes, cols[|cols| - 1], dataStart, r, mt, updatedAt);
      forall k | 0 <= k < |cols|
        ensures ms[k] == OutcomeMeal(r, cols[k].1, mt, outcomes[DataIndex(cols[k].0, dataStart)], updatedAt)
      {
        if k < |init| {
          assert cols[k] == init[k] && ms[k] == head[k];
        }
      }
    }
  }

  /** The shape of every meal of the weekly table. */
  predicate WeeklyMeal(m: Meal, updatedAt: string) {
    && Target(m.restaurant) && m.mealType != Breakfast && m.notes.None? && m.updatedAt == updatedAt
    && Consistent(CellOutcome(m.items, m.status))
  }

  /** The outcomes of a row's cells all keep the invariant. */
  lemma RowOutcomesConsistent(row: Row)
    ensures forall i :: 0 <= i < |row| ==> Consistent(RowOutcomes(row)[i])
  {
    forall i | 0 <= i < |row| ensures Consistent(RowOutcomes(row)[i]) {
      RowOutcomesAt(row, i);
      WeeklyCellConsistent(row[i]);
    }
  }

  /** The meals of a general row are all for its meal type and its section's mapped corner. */
  lemma {:induction false} DayMealsShape(outcomes: seq<CellOutcome>, cols: seq<(nat, Day)>, dataStart: nat, r: Restaurant, mt: MealType, updatedAt: string)
    requires Target(r) && mt != Breakfast
    requires forall i :: 0 <= i < |outcomes| ==> Consistent(outcomes[i])
    ensures forall m :: m in DayMeals(outcomes, cols, dataStart, r, mt, updatedAt) ==>
      WeeklyMeal(m, updatedAt) && m.restaurant == r && m.mealType == mt
  {
    if cols != [] {
      DayMealsShape(outcomes, cols[..|cols| - 1], dataStart, r, mt, updatedAt);
    }
  }

  /**
   * Only a row whose meal-type cell reads `중식` or `석식`, under a mapped
   * section and corner, emits; its meals carry that meal type and restaurant.
   */
  lemma GeneralMealsShape(row: Row, st: Walk, cols: seq<(nat, Day)>, updatedAt: string)
    requires |row| > 0
    ensures GeneralMeals(row, st, cols, updatedAt) != [] ==>
      MealTypeText(row) in {"중식", "석식"} && RestaurantOf(st.section + "-" + st.corner).Some?
    ensures forall m :: m in GeneralMeals(row, st, cols, updatedAt) ==>
      && WeeklyMeal(m, updatedAt)
      && Some(m.mealType) == MealTypeOf(MealTypeText(row))
      && Some(m.restaurant) == RestaurantOf(st.section + "-" + st.corner)
  {
    var mt := MealTypeOf(MealTypeText(row));
    var r := RestaurantOf(st.section + "-" + st.corner);
    if mt.Some? && r.Some? {
      RowOutcomesConsistent(row);
      DayMealsShape(RowOutcomes(row), cols, if row[0].hasRowspan then 2 else 1, r.value, mt.value, updatedAt);
    }
  }

  /** The meals of a week share one outcome. */
  lemma {:induction false} WeekMealsShape(r: Restaurant, o: CellOutcome, updatedAt: string, days: seq<Day>)
    requires Target(r) && Consistent(o)
    ensures forall m :: m in WeekMeals(r, o, updatedAt, days) ==>
      WeeklyMeal(m, updatedAt) && m.restaurant == r && m.items == o.items && m.status == o.status
  {
    if days != [] {
      WeekMealsShape(r, o, updatedAt, days[..|days| - 1]);
    }
  }

  /** The meals of a constant menu have the weekly shape. */
  lemma ConstantMenuWeekly(row: Row, r: Restaurant, start: nat, updatedAt: string)
    ensures forall m :: m in ConstantMenu(row, r, start, updatedAt) ==> WeeklyMeal(m, updatedAt) && m.restaurant == r
  {
    if Target(r) && FirstFilled(row, start).Some? {
      var cell := row[FirstFilled(row, start).value];
      WeeklyCellConsistent(cell);
      WeekMealsShape(r, WeeklyCell(cell), updatedAt, Workdays);
    }
  }

  /** The meals of a row have the weekly shape. */
  lemma RowMealsShape(row: Row, st: Walk, cols: seq<(nat, Day)>, updatedAt: string)
    ensures forall m :: m in RowMeals(row, st, cols, updatedAt) ==> WeeklyMeal(m, updatedAt)
  {
    if |row| > 0 && !row[0].isMenuSt && !DateHeader(row) {
      if Contains(st.section, "솥앤누들") {
        if st.corner == "메뉴" && |row| > 3 {
          ConstantMenuWeekly(row, Bunsikdang, 3, updatedAt);
          ConstantMenuWeekly(row, SotAndNoodle, 3, updatedAt);
        }
      } else {
        GeneralMealsShape(row, st, cols, updatedAt);
      }
    }
  }

  /**
   * Every meal of the weekly table is for a targeted restaurant, at lunch or
   * dinner, stamped with the run's time, and open exactly when it has items.
   */
  lemma {:induction false} RunShape(rows: seq<Row>, cols: seq<(nat, Day)>, updatedAt: string)
    ensures forall m :: m in Run(rows, cols, updatedAt).1 ==> WeeklyMeal(m, updatedAt)
  {
    if rows != [] {
      var before := Run(rows[..|rows| - 1], cols, updatedAt);
      RunShape(rows[..|rows| - 1], cols, updatedAt);
      RowMealsShape(rows[|rows| - 1], NextWalk(rows[|rows| - 1], before.0), cols, updatedAt);
    }
  }

  /** The same for `parseMenu`'s result. */
  lemma MenuMealsShape(rows: seq<Row>, updatedAt: string)
    ensures forall m :: m in MenuMeals(rows, updatedAt) ==> WeeklyMeal(m, updatedAt) && OpenIffItems(m)
  {
    RunShape(rows, DayColumns(rows), updatedAt);
  }
}
