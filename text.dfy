/**
 * The JavaScript string operations the menu extractors apply to cell markup:
 * `trim`, `includes`, `startsWith`, `split`, `join`, literal and fixed-pattern
 * `replace(/.../g, ...)`, and the two greedy deletions `/<span.*<\/span>/gi` and
 * `/\(.*\)/g`.  Strings are sequences of characters; the patterns the source
 * uses contain only ASCII letters where case matters, so the `i` flag is
 * ASCII case folding.
 */
module Text {
  import opened Wrappers

  /** JavaScript's `\s` class; `String.prototype.trim` removes the same characters. */
  predicate IsSpace(c: char) {
    c == ' ' || c == '\t' || c == '\n' || c == '\U{B}' || c == '\U{C}' || c == '\r'
    || c == '\U{A0}' || c == '\U{1680}' || ('\U{2000}' <= c <= '\U{200A}')
    || c == '\U{2028}' || c == '\U{2029}' || c == '\U{202F}' || c == '\U{205F}'
    || c == '\U{3000}' || c == '\U{FEFF}'
  }

  /** The characters that `.` does not match in a JavaScript regular expression. */
  predicate IsLineTerminator(c: char) {
    c == '\n' || c == '\r' || c == '\U{2028}' || c == '\U{2029}'
  }

  function TrimStart(s: string): (r: string)
    ensures |r| <= |s|
    ensures r == [] || !IsSpace(r[0])
  {
    if s != [] && IsSpace(s[0]) then TrimStart(s[1..]) else s
  }

  /** What `TrimStart` keeps is a suffix, and all it drops is white space. */
  lemma {:induction false} TrimStartSuffix(s: string)
    ensures TrimStart(s) == s[|s| - |TrimStart(s)|..]
    ensures forall k :: 0 <= k < |s| - |TrimStart(s)| ==> IsSpace(s[k])
    decreases |s|
  {
    if s != [] && IsSpace(s[0]) {
      TrimStartSuffix(s[1..]);
    }
  }

  function TrimEnd(s: string): (r: string)
    ensures |r| <= |s|
    ensures r == [] || !IsSpace(r[|r| - 1])
  {
    if s != [] && IsSpace(s[|s| - 1]) then TrimEnd(s[..|s| - 1]) else s
  }

  /** What `TrimEnd` keeps is a prefix, and all it drops is white space. */
  lemma {:induction false} TrimEndPrefix(s: string)
    ensures TrimEnd(s) == s[..|TrimEnd(s)|]
    ensures forall k :: |TrimEnd(s)| <= k < |s| ==> IsSpace(s[k])
    decreases |s|
  {
    if s != [] && IsSpace(s[|s| - 1]) {
      TrimEndPrefix(s[..|s| - 1]);
    }
  }

  /** `String.prototype.trim`. */
  function Trim(s: string): (r: string)
    ensures |r| <= |s|
    ensures r == [] || (!IsSpace(r[0]) && !IsSpace(r[|r| - 1]))
    ensures s == [] || (!IsSpace(s[0]) && !IsSpace(s[|s| - 1])) ==> r == s
  {
    TrimEndPrefix(TrimStart(s));
    TrimEnd(TrimStart(s))
  }

  /** `trim` only drops characters: every character it keeps comes from its input. */
  lemma TrimKeeps(s: string)
    ensures forall c :: c in Trim(s) ==> c in s
  {
    TrimStartSuffix(s);
    TrimEndPrefix(TrimStart(s));
    forall c | c in Trim(s)
      ensures c in s
    {
      var k :| 0 <= k < |Trim(s)| && Trim(s)[k] == c;
      assert s[|s| - |TrimStart(s)| + k] == c;
    }
  }

  /** ASCII lower-casing, the case folding of the `i` flag for the source's patterns. */
  function Lower(c: char): char {
    if 'A' <= c <= 'Z' then (c as int + 32) as char else c
  }

  predicate SameChar(a: char, b: char, ci: bool) {
    if ci then Lower(a) == Lower(b) else a == b
  }

  /** `tok` occurs in `s` at index `i` (ASCII case-insensitively when `ci`). */
  predicate TokenAt(s: string, i: nat, tok: string, ci: bool) {
    i + |tok| <= |s| && forall k :: 0 <= k < |tok| ==> SameChar(s[i + k], tok[k], ci)
  }

  /** `tok` occurs somewhere in `s`. */
  predicate Occurs(s: string, tok: string, ci: bool)
    decreases |s|
  {
    TokenAt(s, 0, tok, ci) || (s != [] && Occurs(s[1..], tok, ci))
  }

  /** `String.prototype.includes`. */
  predicate Contains(s: string, p: string) {
    Occurs(s, p, false)
  }

  /** `String.prototype.startsWith`. */
  predicate StartsWith(s: string, p: string) {
    |p| <= |s| && s[..|p|] == p
  }

  /**
   * `s.replace(/tok/g, rep)` for a pattern that matches exactly the string `tok`:
   * occurrences are replaced left to right without overlap, and the text
   * produced by a replacement is not scanned again.
   */
  function ReplaceAll(s: string, tok: string, rep: string, ci: bool): (r: string)
    requires tok != []
    ensures !Occurs(s, tok, ci) ==> r == s
    decreases |s|
  {
    if s == [] then []
    else if TokenAt(s, 0, tok, ci) then rep + ReplaceAll(s[|tok|..], tok, rep, ci)
    else [s[0]] + ReplaceAll(s[1..], tok, rep, ci)
  }

  /** The first index at or after `from` that holds `c`. */
  function IndexOfChar(s: string, c: char, from: nat): (r: Option<nat>)
    ensures r.Some? ==> from <= r.value < |s| && s[r.value] == c
    ensures r.Some? ==> forall k :: from <= k < r.value ==> s[k] != c
    ensures r.None? ==> forall k :: from <= k < |s| ==> s[k] != c
    decreases |s| - from
  {
    if from >= |s| then None
    else if s[from] == c then Some(from)
    else IndexOfChar(s, c, from + 1)
  }

  /**
   * `s.replace(/<[^>]+>/g, '')`: a `<`, at least one character other than `>`
   * (line breaks included), and the first `>` after them are removed.
   */
  function StripTags(s: string): (r: string)
    ensures '<' !in s ==> r == s
    ensures |r| <= |s|
    decreases |s|
  {
    if s == [] then []
    else if s[0] == '<' && |s| > 1 && s[1] != '>' then
      match IndexOfChar(s, '>', 2)
      case Some(j) => StripTags(s[j + 1..])
      case None => [s[0]] + StripTags(s[1..])
    else [s[0]] + StripTags(s[1..])
  }

  /** The first line terminator at or after `from`, or the end of `s`. */
  function LineEnd(s: string, from: nat): (r: nat)
    requires from <= |s|
    ensures from <= r <= |s|
    ensures forall k :: from <= k < r ==> !IsLineTerminator(s[k])
    decreases |s| - from
  {
    if from == |s| || IsLineTerminator(s[from]) then from else LineEnd(s, from + 1)
  }

  /** The last index `k >= lo` where `tok` occurs in `s` and ends by `hi`. */
  function LastTokenAt(s: string, tok: string, ci: bool, lo: nat, hi: nat): (r: Option<nat>)
    requires hi <= |s|
    ensures r.Some? ==> lo <= r.value && r.value + |tok| <= hi && TokenAt(s, r.value, tok, ci)
    ensures r.Some? ==> forall k :: r.value < k && k + |tok| <= hi ==> !TokenAt(s, k, tok, ci)
    ensures r.None? ==> forall k :: lo <= k && k + |tok| <= hi ==> !TokenAt(s, k, tok, ci)
    decreases hi
  {
    if hi < lo + |tok| then None
    else if TokenAt(s, hi - |tok|, tok, ci) then Some(hi - |tok|)
    else LastTokenAt(s, tok, ci, lo, hi - 1)
  }

  /**
   * `s.replace(/open.*close/g, '')`: from an occurrence of `open`, the greedy
   * `.*` reaches the LAST occurrence of `close` before the next line
   * terminator, and all of it is removed; an `open` with no `close` after it
   * on its line stays.
   */
  function StripGreedy(s: string, open: string, close: string, ci: bool): (r: string)
    requires close != []
    ensures !Occurs(s, open, ci) ==> r == s
    ensures |r| <= |s|
    decreases |s|
  {
    if s == [] then []
    else if TokenAt(s, 0, open, ci) then
      match LastTokenAt(s, close, ci, |open|, LineEnd(s, |open|))
      case Some(k) => StripGreedy(s[k + |close|..], open, close, ci)
      case None => [s[0]] + StripGreedy(s[1..], open, close, ci)
    else [s[0]] + StripGreedy(s[1..], open, close, ci)
  }

  /** `s.replace(/<span.*<\/span>/gi, '')`: an origin-label span and its text. */
  function StripSpans(s: string): string {
    StripGreedy(s, "<span", "</span>", true)
  }

  /** `s.replace(/\(.*\)/g, '')`: a parenthesised note. */
  function StripParens(s: string): string {
    StripGreedy(s, "(", ")", false)
  }

  /** `s.replace(/\s+/g, ' ')`. */
  function CollapseSpaces(s: string): (r: string)
    ensures forall k :: 0 <= k < |r| && IsSpace(r[k]) ==> r[k] == ' '
    decreases |s|
  {
    if s == [] then []
    else if IsSpace(s[0]) then [' '] + CollapseSpaces(TrimStart(s))
    else [s[0]] + CollapseSpaces(s[1..])
  }

  /** Collapsing white space and then trimming leaves no line terminator. */
  lemma CollapseTrimHasNoLineTerminator(s: string)
    ensures forall k :: 0 <= k < |Trim(CollapseSpaces(s))| ==> !IsLineTerminator(Trim(CollapseSpaces(s))[k])
  {
    var collapsed := CollapseSpaces(s);
    var front := TrimStart(collapsed);
    var r := TrimEnd(front);
    TrimStartSuffix(collapsed);
    TrimEndPrefix(front);
    assert Trim(collapsed) == r;
    assert forall k :: 0 <= k < |r| ==> r[k] == collapsed[|collapsed| - |front| + k];
    SliceHasNoLineTerminator(collapsed, r, |collapsed| - |front|);
  }

  /** A slice of a string whose only white space is `' '` holds no line terminator. */
  lemma SliceHasNoLineTerminator(s: string, r: string, offset: nat)
    requires forall k :: 0 <= k < |s| && IsSpace(s[k]) ==> s[k] == ' '
    requires offset + |r| <= |s| && forall k :: 0 <= k < |r| ==> r[k] == s[offset + k]
    ensures forall k :: 0 <= k < |r| ==> !IsLineTerminator(r[k])
  {
    forall k | 0 <= k < |r|
      ensures !IsLineTerminator(r[k])
    {
      LineTerminatorIsSpace(s[offset + k]);
    }
  }

  lemma LineTerminatorIsSpace(c: char)
    ensures IsLineTerminator(c) ==> IsSpace(c) && c != ' '
  {
  }

  /** `s.replace(/\s+/g, '')`. */
  function RemoveSpaces(s: string): (r: string)
    ensures forall k :: 0 <= k < |r| ==> !IsSpace(r[k])
    ensures |s| == 1 ==> r == if IsSpace(s[0]) then [] else s
    decreases |s|
  {
    if s == [] then []
    else if IsSpace(s[0]) then RemoveSpaces(s[1..])
    else [s[0]] + RemoveSpaces(s[1..])
  }

  /** `RemoveSpaces` works character by character: it deletes white space and keeps the rest in order. */
  lemma {:induction false} RemoveSpacesConcat(a: string, b: string)
    ensures RemoveSpaces(a + b) == RemoveSpaces(a) + RemoveSpaces(b)
    decreases |a|
  {
    if a == [] {
      assert a + b == b;
    } else {
      var c, t := a[0], a[1..];
      assert a == [c] + t;
      assert a + b == [c] + (t + b);
      RemoveSpacesCons(c, t + b);
      RemoveSpacesCons(c, t);
      RemoveSpacesConcat(t, b);
      var rt, rb := RemoveSpaces(t), RemoveSpaces(b);
      if !IsSpace(c) {
        assert [c] + (rt + rb) == ([c] + rt) + rb;
      }
    }
  }

  /** Text without white space passes through `RemoveSpaces` unchanged. */
  lemma {:induction false} RemoveSpacesKeepsUnspaced(s: string)
    requires forall k :: 0 <= k < |s| ==> !IsSpace(s[k])
    ensures RemoveSpaces(s) == s
    decreases |s|
  {
    if s != [] {
      assert !IsSpace(s[0]);
      RemoveSpacesKeepsUnspaced(s[1..]);
      assert s == [s[0]] + s[1..];
    }
  }

  lemma RemoveSpacesCons(c: char, t: string)
    ensures RemoveSpaces([c] + t) == (if IsSpace(c) then [] else [c]) + RemoveSpaces(t)
  {
    assert ([c] + t)[1..] == t;
  }


  /** `Array.prototype.join(sep)` over a non-empty list. */
  function Join(parts: seq<string>, sep: char): string
    requires |parts| > 0
  {
    if |parts| == 1 then parts[0] else parts[0] + [sep] + Join(parts[1..], sep)
  }

  /** `s.split(sep)` for a one-character separator. */
  function Split(s: string, sep: char): (r: seq<string>)
    ensures |r| > 0
    ensures forall k :: 0 <= k < |r| ==> sep !in r[k]
    ensures Join(r, sep) == s
    decreases |s|
  {
    match IndexOfChar(s, sep, 0)
    case None => [s]
    case Some(i) =>
      var rest := Split(s[i + 1..], sep);
      assert s == s[..i] + [sep] + s[i + 1..];
      [s[..i]] + rest
  }

  /** `[Trim(s)]` when that is non-empty, else nothing: `.map(trim).filter(Boolean)` on one piece. */
  function NonEmptyTrim(s: string): (r: seq<string>)
    ensures |r| <= 1
    ensures forall k :: 0 <= k < |r| ==> r[k] != [] && r[k] == Trim(s)
    ensures forall k, c :: 0 <= k < |r| && c in r[k] ==> c in s
  {
    TrimKeeps(s);
    var t := Trim(s);
    if t == [] then [] else [t]
  }

  /** `parts.map(x => x.trim()).filter(Boolean)`. */
  function NonEmptyTrims(parts: seq<string>): seq<string> {
    if parts == [] then [] else NonEmptyTrim(parts[0]) + NonEmptyTrims(parts[1..])
  }

  /**
   * `s.split(sep).map(x => x.trim()).filter(Boolean)`: the non-empty trimmed
   * pieces between separators, in order, read off in one scan.
   */
  function Pieces(s: string, sep: char): (r: seq<string>)
    ensures r == NonEmptyTrims(Split(s, sep))
    ensures forall k :: 0 <= k < |r| ==> r[k] != [] && sep !in r[k]
    decreases |s|
  {
    match IndexOfChar(s, sep, 0)
    case None =>
      assert sep !in s;
      assert NonEmptyTrims([s]) == NonEmptyTrim(s) + NonEmptyTrims([]);
      NonEmptyTrim(s)
    case Some(i) =>
      assert sep !in s[..i];
      var parts := [s[..i]] + Split(s[i + 1..], sep);
      assert parts[0] == s[..i] && parts[1..] == Split(s[i + 1..], sep);
      NonEmptyTrim(s[..i]) + Pieces(s[i + 1..], sep)
  }

  /** The first index at or after `from` that is not a space, or the end of `s`. */
  function SkipSpaces(s: string, from: nat): (r: nat)
    requires from <= |s|
    ensures from <= r <= |s|
    ensures r < |s| ==> !IsSpace(s[r])
    ensures forall k :: from <= k < r ==> IsSpace(s[k])
    decreases |s| - from
  {
    if from == |s| || !IsSpace(s[from]) then from else SkipSpaces(s, from + 1)
  }

  /** The end of a `<br\s*\/?>` tag (any case) that starts at `i`, if one does. */
  function BrTagEnd(s: string, i: nat): (r: Option<nat>)
    ensures r.Some? ==> i + 4 <= r.value <= |s|
  {
    if TokenAt(s, i, "<br", true) then
      var j := SkipSpaces(s, i + 3);
      var j' := if j < |s| && s[j] == '/' then j + 1 else j;
      if j' < |s| && s[j'] == '>' then Some(j' + 1) else None
    else None
  }

  /** The leftmost line-break tag at or after `from`, as (start, end). */
  function FirstBr(s: string, from: nat): (r: Option<(nat, nat)>)
    ensures r.Some? ==> from <= r.value.0 && BrTagEnd(s, r.value.0) == Some(r.value.1)
    ensures r.Some? ==> forall k :: from <= k < r.value.0 ==> BrTagEnd(s, k).None?
    ensures r.None? ==> forall k :: from <= k ==> BrTagEnd(s, k).None?
    decreases |s| - from
  {
    if from >= |s| then None
    else match BrTagEnd(s, from)
      case Some(e) => Some((from, e))
      case None => FirstBr(s, from + 1)
  }

  /** `s.split(/<br\s*\/?>/gi)`: the lines of a cell's markup. */
  function SplitBr(s: string): (r: seq<string>)
    ensures |r| > 0
    decreases |s|
  {
    match FirstBr(s, 0)
    case None => [s]
    case Some((i, e)) => [s[..i]] + SplitBr(s[e..])
  }

  /** `parts.join('')`. */
  function Concat(parts: seq<string>): string {
    if parts == [] then [] else parts[0] + Concat(parts[1..])
  }

  /** `s.replace(/<br\s*\/?>/gi, '')`: the lines of `s` with the breaks dropped. */
  function RemoveBrTags(s: string): string {
    Concat(SplitBr(s))
  }
}
