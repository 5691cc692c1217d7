/**
 * The menu-cell grammar shared by the floor-2 and floor-3 extractors
 * (`parseMenuCellFloor2` in src/tasks/dgucoop/floor-2.ts and the item part of
 * `parseMenuCellFloor3` in src/tasks/dgucoop/floor-3.ts).  A cell is read in
 * one of two ways: when it carries a truthy `￦ n` set price, every line
 * contributes component names to ONE set item; otherwise the lines are joined
 * into one line and every `name n원` pair becomes an item, with a line-by-line
 * fallback when no such pair exists.  The two floors differ only in a few
 * cleanups, selected by `Floor`.
 */
module CellGrammar {
  import opened Wrappers
  import opened Menu
  import opened Text
  import opened Tokens
  import opened Cleanup

  /** Which extractor's variant of the grammar applies. */
  datatype Floor = Second | Third

  /** `cellHtml.match(/￦\s*([\d,]+)/)` parsed with `parseInt`, or `undefined` without a match. */
  function SetPrice(cellHtml: string): (r: Amount)
    ensures r == Absent <==> FirstWonSign(cellHtml, 0).None?
    ensures r.Won? ==> FirstWonSign(cellHtml, 0).Some?
    ensures FirstWonSign(cellHtml, 0).Some? ==> r == ParseAmount(FirstWonSign(cellHtml, 0).value.group)
  {
    match FirstWonSign(cellHtml, 0)
    case None => Absent
    case Some(h) => ParseAmount(h.group)
  }

  // ---------------------------------------------------------------------------
  // Case 1: a set menu

  /** The cleanup applied to each line of a set-menu cell. */
  function CleanSetLine(line: string, f: Floor): string {
    Apply(line, [DropSpans, DropTags, DropParens, DropFirstTime, DropFirstSetPrice,
      Replace("*자율배식*", "", false), Replace("배추김치/단무지", "", false)]
      + (if f == Third then [Replace("**12시부터 한정판매", "", false)] else [])
      + [TrimSpaces])
  }

  /**
   * The component names one cleaned line contributes: its `*`-separated
   * pieces, on floor 3 otherwise its `&`-separated pieces, otherwise the line.
   */
  function LineNames(line: string, f: Floor): (r: seq<string>)
    ensures line == "" ==> r == []
    ensures forall k :: 0 <= k < |r| ==> r[k] != ""
    ensures '*' in line ==> r == NonEmptyTrims(Split(line, '*'))
    ensures '*' in line ==> forall k :: 0 <= k < |r| ==> '*' !in r[k]
    ensures f == Third && '*' !in line && '&' in line ==>
      r == NonEmptyTrims(Split(line, '&')) && forall k :: 0 <= k < |r| ==> '&' !in r[k]
    ensures line != "" && '*' !in line && (f == Second || '&' !in line) ==> r == [line]
  {
    if line == "" then []
    else if '*' in line then Pieces(line, '*')
    else if f == Third && '&' in line then Pieces(line, '&')
    else [line]
  }

  /** The names of the set item, line by line. */
  function SetNames(lines: seq<string>, f: Floor): (r: seq<string>)
    ensures forall k :: 0 <= k < |r| ==> r[k] != ""
  {
    if lines == [] then []
    else SetNames(lines[..|lines| - 1], f) + LineNames(CleanSetLine(lines[|lines| - 1], f), f)
  }

  /** One pass of the loop that collects `menuNames`: the names of one cleaned line. */
  method ReadSetLine(line: string, f: Floor) returns (names: seq<string>)
    ensures names == LineNames(line, f)
  {
    names := [];
    if line != "" {
      if '*' in line {
        names := Pieces(line, '*');
      } else if f == Third && '&' in line {
        names := Pieces(line, '&');
      } else {
        names := [line];
      }
    }
  }

  /** The `for (let line of lines)` loop that collects `menuNames`. */
  method CollectSetNames(lines: seq<string>, f: Floor) returns (menuNames: seq<string>)
    ensures menuNames == SetNames(lines, f)
  {
    menuNames := [];
    for k := 0 to |lines|
      invariant menuNames == SetNames(lines[..k], f)
    {
      assert lines[..k + 1][..k] == lines[..k];
      var names := ReadSetLine(CleanSetLine(lines[k], f), f);
      menuNames := menuNames + names;
    }
    assert lines[..|lines|] == lines;
  }

  // ---------------------------------------------------------------------------
  // Case 2: individually priced items

  /** The edits that make the cell one clean line. */
  const SingleLineChain: seq<Edit> :=
    [DropSpans, DropTags, DropFirstTime, Replace("-더진국-", "", false), Replace("&amp;", "&", false),
     CollapseWhitespace, TrimSpaces]

  /** The cell's lines joined by spaces and cleaned; `\s+` became single spaces. */
  function SingleLine(lines: seq<string>): string
    requires |lines| > 0
  {
    Apply(Join(lines, ' '), SingleLineChain)
  }

  /**
   * The joined line holds no line terminator: `\s+` became single spaces.  So
   * the lazy `(.*?)` of the match regex, which cannot cross a line terminator,
   * may start anywhere.
   */
  lemma SingleLineHasNoLineTerminator(lines: seq<string>)
    requires |lines| > 0
    ensures forall k :: 0 <= k < |SingleLine(lines)| ==> !IsLineTerminator(SingleLine(lines)[k])
  {
    var joined := Join(lines, ' ');
    var cleanups, tail := SingleLineChain[..5], [CollapseWhitespace, TrimSpaces];
    assert SingleLineChain == cleanups + tail;
    ApplyConcat(joined, cleanups, tail);
    CollapsedLine(Apply(joined, cleanups));
  }

  /** The name of one `(name)(n원)` match after its cleanups. */
  function MatchName(raw: string): string {
    Apply(raw, [TrimSpaces, DropParenRanges, Replace("(한정판매)", "", false), Replace("[NEW]", "", true), TrimSpaces])
  }

  /** One `/`-separated part of a match's name, `n.replace(/\[NEW\]/ig, '').trim()`. */
  function SubName(part: string): string {
    Apply(part, [Replace("[NEW]", "", true), TrimSpaces])
  }

  /** The non-empty sub-names of the parts, in order. */
  function SubNames(parts: seq<string>): (r: seq<string>)
    ensures |r| <= |parts|
    ensures forall k :: 0 <= k < |r| ==> r[k] != ""
  {
    if parts == [] then []
    else
      var n := SubName(parts[|parts| - 1]);
      SubNames(parts[..|parts| - 1]) + (if n == "" then [] else [n])
  }

  /** The item names one match yields: none, the `/`-separated sub-names, or the name. */
  function MatchNames(raw: string): (r: seq<string>)
    ensures forall k :: 0 <= k < |r| ==> r[k] != ""
    ensures '/' !in MatchName(raw) ==> r == (if MatchName(raw) == "" then [] else [MatchName(raw)])
  {
    var name := MatchName(raw);
    if name == "" then []
    else if '/' in name then SubNames(Split(name, '/'))
    else [name]
  }

  /** One single-name item per name, all at the match's price and the cell's hours. */
  function Priced(names: seq<string>, price: Amount, hours: Option<string>): (r: seq<MenuItem>)
    ensures |r| == |names|
  {
    if names == [] then [] else Priced(names[..|names| - 1], price, hours) + [MenuItem([names[|names| - 1]], price, hours)]
  }

  /** The `k`-th item is the `k`-th name at the match's price and the cell's hours. */
  lemma {:induction false} PricedAt(names: seq<string>, price: Amount, hours: Option<string>, k: nat)
    requires k < |names|
    ensures Priced(names, price, hours)[k] == MenuItem([names[k]], price, hours)
  {
    if k < |names| - 1 {
      PricedAt(names[..|names| - 1], price, hours, k);
    }
  }

  /**
   * `acc` followed by the items of every `/(.*?)([\d,]+원)/g` match from
   * `lastIndex` `p` on.  Since `s` holds no line terminator, the lazy name
   * group always starts at `p` and ends where the leftmost price does.
   */
  function ExecFrom(s: string, p: nat, hours: Option<string>, acc: seq<MenuItem>): seq<MenuItem>
    decreases |s| - p
  {
    match FirstWon(s, p)
    case None => acc
    case Some(h) =>
      ExecFrom(s, h.end, hours, acc + Priced(MatchNames(s[p..h.start]), ParseAmount(h.group), hours))
  }

  /** One more `/`-separated part adds its sub-name, when it is non-empty. */
  lemma PricedSubNamesStep(parts: seq<string>, k: nat, price: Amount, hours: Option<string>)
    requires k < |parts|
    ensures var n := SubName(parts[k]);
      Priced(SubNames(parts[..k + 1]), price, hours)
      == if n != "" then Priced(SubNames(parts[..k]), price, hours) + [MenuItem([n], price, hours)]
         else Priced(SubNames(parts[..k]), price, hours)
  {
    assert parts[..k + 1][..k] == parts[..k];
    var n := SubName(parts[k]);
    var a := SubNames(parts[..k]);
    if n != "" {
      assert SubNames(parts[..k + 1]) == a + [n];
      assert (a + [n])[..|a + [n]| - 1] == a;
    } else {
      assert SubNames(parts[..k + 1]) == a + [];
      assert a + [] == a;
    }
  }

  /** The `names.forEach` over the `/`-separated parts of one match's name. */
  method PushSubNames(items: seq<MenuItem>, parts: seq<string>, price: Amount, hours: Option<string>)
    returns (result: seq<MenuItem>)
    ensures result == items + Priced(SubNames(parts), price, hours)
  {
    result := items;
    for k := 0 to |parts|
      invariant result == items + Priced(SubNames(parts[..k]), price, hours)
    {
      var subName := SubName(parts[k]);
      PricedSubNamesStep(parts, k, price, hours);
      if subName != "" {
        AppendAssoc(items, Priced(SubNames(parts[..k]), price, hours), [MenuItem([subName], price, hours)]);
        result := result + [MenuItem([subName], price, hours)];
        continue;
      }
    }
    assert parts[..|parts|] == parts;
  }

  /** The inner body of the `exec` loop: the items of one match appended to `items`. */
  method PushMatch(items: seq<MenuItem>, raw: string, price: Amount, hours: Option<string>)
    returns (result: seq<MenuItem>)
    ensures result == items + Priced(MatchNames(raw), price, hours)
  {
    var name := MatchName(raw);
    if name == "" {
      result := items;
    } else if '/' in name {
      result := PushSubNames(items, Split(name, '/'), price, hours);
    } else {
      result := items + [MenuItem([name], price, hours)];
    }
  }

  /** The `while ((match = menuRegex.exec(singleLine)) !== null)` loop. */
  method ExecScan(singleLine: string, hours: Option<string>) returns (items: seq<MenuItem>, foundMatches: bool)
    ensures items == ExecFrom(singleLine, 0, hours, [])
    ensures foundMatches <==> FirstWon(singleLine, 0).Some?
  {
    items, foundMatches := [], false;
    var lastIndex := 0;
    var m := FirstWon(singleLine, 0);
    while m.Some?
      invariant lastIndex <= |singleLine|
      invariant m == FirstWon(singleLine, lastIndex)
      invariant ExecFrom(singleLine, lastIndex, hours, items) == ExecFrom(singleLine, 0, hours, [])
      invariant foundMatches <==> lastIndex > 0
      invariant lastIndex > 0 ==> FirstWon(singleLine, 0).Some?
      decreases |singleLine| - lastIndex
    {
      foundMatches := true;
      var h := m.value;
      items := PushMatch(items, singleLine[lastIndex..h.start], ParseAmount(h.group), hours);
      lastIndex := h.end;
      m := FirstWon(singleLine, lastIndex);
    }
  }

  /** The fallback's cleanup of a name line; floor 2 also drops `-더진국-`. */
  function FallbackLine(line: string, f: Floor): string {
    Apply(line, [DropTags, DropFirstTime] + (if f == Second then [Replace("-더진국-", "", false)] else []) + [TrimSpaces])
  }

  /** The fallback's name once a price line was found under it. */
  function FallbackName(nameLine: string): string {
    Apply(nameLine, [DropParens, Replace("[NEW]", "", true), TrimSpaces])
  }

  /**
   * One step of the fallback, given the cleaned name line and the raw next
   * line: the item it yields, and whether the next line was consumed.  A name
   * line yields an item only when a bare `n원` line follows it.
   */
  function FallbackStep(nameLine: string, nextLine: string, hours: Option<string>): (r: (Option<MenuItem>, bool))
    ensures r.1 <==> nameLine != "" && PriceOnly(Trim(nextLine)).Some?
    ensures r.0.Some? ==> r.1
    ensures r.1 ==> (r.0.Some? <==> FallbackName(nameLine) != "")
    ensures r.0.Some? ==>
      r.0.value == MenuItem([FallbackName(nameLine)], ParseAmount(PriceOnly(Trim(nextLine)).value), hours)
    ensures r.0.Some? ==> PricedItem(r.0.value, hours)
  {
    if nameLine == "" then (None, false)
    else match PriceOnly(Trim(nextLine))
      case None => (None, false)
      case Some(g) =>
        var name := FallbackName(nameLine);
        (if name == "" then None else Some(MenuItem([name], ParseAmount(g), hours)), true)
  }

  /** Every line of the cell through the fallback's cleanup. */
  function FallbackLines(lines: seq<string>, f: Floor): (r: seq<string>)
    ensures |r| == |lines|
  {
    if lines == [] then [] else FallbackLines(lines[..|lines| - 1], f) + [FallbackLine(lines[|lines| - 1], f)]
  }

  lemma {:induction false} FallbackLinesAt(lines: seq<string>, f: Floor, i: nat)
    requires i < |lines|
    ensures FallbackLines(lines, f)[i] == FallbackLine(lines[i], f)
  {
    if i < |lines| - 1 {
      FallbackLinesAt(lines[..|lines| - 1], f, i);
    }
  }

  /**
   * `acc` followed by the items of the fallback from line `i` on, where
   * `names` are the cleaned `lines` (`lines[i + 1] || ''` is the next line).
   */
  function FallbackFrom(names: seq<string>, lines: seq<string>, i: nat, hours: Option<string>, acc: seq<MenuItem>): seq<MenuItem>
    requires |names| == |lines|
    decreases |lines| - i
  {
    if i >= |lines| then acc
    else
      var st := FallbackStep(names[i], if i + 1 < |lines| then lines[i + 1] else "", hours);
      FallbackFrom(names, lines, if st.1 then i + 2 else i + 1, hours, if st.0.Some? then acc + [st.0.value] else acc)
  }

  /** The price-line block of the fallback's loop body, for a non-empty name line. */
  method ReadFallbackItem(nameLine: string, nextLine: string, hours: Option<string>)
    returns (item: Option<MenuItem>, consumed: bool)
    requires nameLine != ""
    ensures (item, consumed) == FallbackStep(nameLine, nextLine, hours)
  {
    item, consumed := None, false;
    var nextLinePriceMatch := PriceOnly(Trim(nextLine));
    if nextLinePriceMatch.Some? {
      var price := ParseAmount(nextLinePriceMatch.value);
      consumed := true;
      var name := FallbackName(nameLine);
      if name != "" {
        item := Some(MenuItem([name], price, hours));
      }
    }
  }

  /** The fallback's cursor loop. */
  method FallbackScan(lines: seq<string>, f: Floor, hours: Option<string>) returns (items: seq<MenuItem>)
    ensures items == FallbackFrom(FallbackLines(lines, f), lines, 0, hours, [])
  {
    ghost var names := FallbackLines(lines, f);
    items := [];
    var i := 0;
    while i < |lines|
      invariant FallbackFrom(names, lines, i, hours, items) == FallbackFrom(names, lines, 0, hours, [])
      decreases |lines| - i
    {
      var nameLine := FallbackLine(lines[i], f);
      FallbackLinesAt(lines, f, i);
      if nameLine == "" {
        i := i + 1;
        continue;
      }
      var nextLine := if i + 1 < |lines| then lines[i + 1] else "";
      var item, consumed := ReadFallbackItem(nameLine, nextLine, hours);
      if item.Some? {
        items := items + [item.value];
      }
      i := if consumed then i + 2 else i + 1;
    }
  }

  // ---------------------------------------------------------------------------
  // The whole cell

  /** The set path: one item carrying every component name, when there is one. */
  function SetItems(names: seq<string>, setPrice: Amount, hours: Option<string>): seq<MenuItem> {
    if names == [] then [] else [MenuItem(names, setPrice, hours)]
  }

  /** The individually priced paths: the `exec` loop, or the fallback when it found nothing. */
  function PricedItems(lines: seq<string>, f: Floor, hours: Option<string>): seq<MenuItem>
    requires |lines| > 0
  {
    var singleLine := SingleLine(lines);
    if FirstWon(singleLine, 0).Some? then ExecFrom(singleLine, 0, hours, [])
    else FallbackFrom(FallbackLines(lines, f), lines, 0, hours, [])
  }

  /** The items of a menu cell. */
  function ItemsOf(cellHtml: string, f: Floor): seq<MenuItem> {
    var hours := TimeText(cellHtml);
    var setPrice := SetPrice(cellHtml);
    var lines := SplitBr(cellHtml);
    if setPrice.Truthy() then SetItems(SetNames(lines, f), setPrice, hours)
    else PricedItems(lines, f, hours)
  }

  /** The item-building part of `parseMenuCellFloor2` / `parseMenuCellFloor3`. */
  method ParseCellItems(cellHtml: string, f: Floor) returns (items: seq<MenuItem>)
    ensures items == ItemsOf(cellHtml, f)
  {
    items := [];
    var operatingHours := TimeText(cellHtml);
    var setPrice := SetPrice(cellHtml);
    var lines := SplitBr(cellHtml);
    if setPrice.Truthy() {
      var menuNames := CollectSetNames(lines, f);
      if |menuNames| > 0 {
        items := items + [MenuItem(menuNames, setPrice, operatingHours)];
      }
    } else {
      var singleLine := SingleLine(lines);
      var foundMatches;
      items, foundMatches := ExecScan(singleLine, operatingHours);
      if !foundMatches {
        items := FallbackScan(lines, f, operatingHours);
      }
    }
  }

  // ---------------------------------------------------------------------------
  // Properties

  /** The shape every item of the individually priced paths has. */
  predicate PricedItem(it: MenuItem, hours: Option<string>) {
    |it.name| == 1 && WellNamed(it) && it.price != Absent && it.openAndCloseTime == hours
  }

  lemma {:induction false} PricedShape(names: seq<string>, price: Amount, hours: Option<string>)
    requires forall k :: 0 <= k < |names| ==> names[k] != ""
    requires price != Absent
    ensures forall it :: it in Priced(names, price, hours) ==> PricedItem(it, hours)
  {
    forall it | it in Priced(names, price, hours)
      ensures PricedItem(it, hours)
    {
      var k :| 0 <= k < |names| && Priced(names, price, hours)[k] == it;
      PricedAt(names, price, hours, k);
    }
  }

  /** Every item the `exec` loop yields has one non-empty name, a parsed price and the cell's hours. */
  lemma {:induction false} ExecShape(s: string, p: nat, hours: Option<string>, acc: seq<MenuItem>)
    requires forall it :: it in acc ==> PricedItem(it, hours)
    ensures forall it :: it in ExecFrom(s, p, hours, acc) ==> PricedItem(it, hours)
    decreases |s| - p
  {
    match FirstWon(s, p)
    case None =>
    case Some(h) =>
      var more := Priced(MatchNames(s[p..h.start]), ParseAmount(h.group), hours);
      PricedShape(MatchNames(s[p..h.start]), ParseAmount(h.group), hours);
      ExecShape(s, h.end, hours, acc + more);
  }

  /** Appending a priced item, if any, keeps every item priced. */
  lemma AppendPriced(acc: seq<MenuItem>, item: Option<MenuItem>, hours: Option<string>)
    requires forall it :: it in acc ==> PricedItem(it, hours)
    requires item.Some? ==> PricedItem(item.value, hours)
    ensures forall it :: it in (if item.Some? then acc + [item.value] else acc) ==> PricedItem(it, hours)
  {
  }

  /** The same for the fallback. */
  lemma {:induction false} FallbackShape(names: seq<string>, lines: seq<string>, i: nat, hours: Option<string>, acc: seq<MenuItem>)
    requires |names| == |lines|
    requires forall it :: it in acc ==> PricedItem(it, hours)
    ensures forall it :: it in FallbackFrom(names, lines, i, hours, acc) ==> PricedItem(it, hours)
    decreases |lines| - i
  {
    if i < |lines| {
      var st := FallbackStep(names[i], if i + 1 < |lines| then lines[i + 1] else "", hours);
      var acc' := if st.0.Some? then acc + [st.0.value] else acc;
      AppendPriced(acc, st.0, hours);
      FallbackShape(names, lines, if st.1 then i + 2 else i + 1, hours, acc');
    }
  }

  /** Every item of the individually priced paths has one non-empty name, a parsed price and the hours. */
  lemma PricedItemsShape(lines: seq<string>, f: Floor, hours: Option<string>)
    requires |lines| > 0
    ensures forall it :: it in PricedItems(lines, f, hours) ==> PricedItem(it, hours)
  {
    var singleLine := SingleLine(lines);
    if FirstWon(singleLine, 0).Some? {
      ExecShape(singleLine, 0, hours, []);
    } else {
      FallbackShape(FallbackLines(lines, f), lines, 0, hours, []);
    }
  }

  /**
   * What a cell yields: a truthy set price gives at most one item, carrying
   * every component name and that price; otherwise every item has a single
   * name and a price parsed from its own `n원`.  Either way every item is
   * well named and carries the cell's operating hours.
   */
  lemma CellItemsShape(cellHtml: string, f: Floor)
    ensures forall it :: it in ItemsOf(cellHtml, f) ==>
      WellNamed(it) && it.openAndCloseTime == TimeText(cellHtml)
    ensures SetPrice(cellHtml).Truthy() ==>
      |ItemsOf(cellHtml, f)| <= 1
      && forall it :: it in ItemsOf(cellHtml, f) ==> it.price == SetPrice(cellHtml)
    ensures !SetPrice(cellHtml).Truthy() ==>
      forall it :: it in ItemsOf(cellHtml, f) ==> |it.name| == 1 && it.price != Absent
  {
    var hours, price, lines := TimeText(cellHtml), SetPrice(cellHtml), SplitBr(cellHtml);
    if price.Truthy() {
      assert ItemsOf(cellHtml, f) == SetItems(SetNames(lines, f), price, hours);
    } else {
      PricedItemsShape(lines, f, hours);
      assert ItemsOf(cellHtml, f) == PricedItems(lines, f, hours);
    }
  }
}
