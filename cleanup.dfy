/**
 * The extractors clean every cell line with a chain of `String.prototype`
 * calls such as `line.replace(/<[^>]+>/g, '').replace(/\(.*\)/g, '').trim()`.
 * A chain is modelled as a list of edits applied left to right, so that each
 * extractor states its chain exactly as the source writes it.
 */
module Cleanup {
  import opened Text
  import opened Tokens

  /** One `replace` or `trim` call of a cleanup chain. */
  datatype Edit =
    | DropSpans                                  // .replace(/<span.*<\/span>/gi, '')
    | DropTags                                   // .replace(/<[^>]+>/g, '')
    | DropParens                                 // .replace(/\(.*\)/g, '')
    | DropFirstTime                              // .replace(timeRegex, '')
    | DropFirstSetPrice                          // .replace(/￦\s*([\d,]+)/, '')
    | DropParenRanges                            // .replace(/\(\d{2}:\d{2}~\d{2}:\d{2}\)/g, '')
    | Replace(tok: string, rep: string, ci: bool) // .replace(/tok/g, rep), with the i flag when ci
    | CollapseWhitespace                         // .replace(/\s+/g, ' ')
    | DropBrTags                                 // .replace(/<br\s*\/?>/gi, '')
    | DropWhitespace                             // .replace(/\s+/g, '')
    | TrimSpaces                                 // .trim()

  /** The effect of one edit. */
  function ApplyEdit(s: string, e: Edit): string {
    match e
    case DropSpans => StripSpans(s)
    case DropTags => StripTags(s)
    case DropParens => StripParens(s)
    case DropFirstTime => RemoveFirstTime(s)
    case DropFirstSetPrice => RemoveFirstWonSign(s)
    case DropParenRanges => RemoveParenRanges(s)
    case Replace(tok, rep, ci) => if tok == [] then s else ReplaceAll(s, tok, rep, ci)
    case CollapseWhitespace => CollapseSpaces(s)
    case DropBrTags => RemoveBrTags(s)
    case DropWhitespace => RemoveSpaces(s)
    case TrimSpaces => Trim(s)
  }

  /** The edits of `chain` applied to `s` from left to right. */
  function Apply(s: string, chain: seq<Edit>): string
    decreases |chain|
  {
    if chain == [] then s else Apply(ApplyEdit(s, chain[0]), chain[1..])
  }

  /** Applying two chains one after the other is applying their concatenation. */
  lemma {:induction false} ApplyConcat(s: string, c1: seq<Edit>, c2: seq<Edit>)
    ensures Apply(Apply(s, c1), c2) == Apply(s, c1 + c2)
    decreases |c1|
  {
    if c1 != [] {
      assert (c1 + c2)[0] == c1[0] && (c1 + c2)[1..] == c1[1..] + c2;
      ApplyConcat(ApplyEdit(s, c1[0]), c1[1..], c2);
    } else {
      assert c1 + c2 == c2;
    }
  }

  /** `.replace(/\s+/g, ' ').trim()` leaves no line terminator. */
  lemma CollapsedLine(s: string)
    ensures forall k :: 0 <= k < |Apply(s, [CollapseWhitespace, TrimSpaces])| ==>
      !IsLineTerminator(Apply(s, [CollapseWhitespace, TrimSpaces])[k])
  {
    var collapsed := CollapseSpaces(s);
    var r := Trim(collapsed);
    assert [CollapseWhitespace, TrimSpaces][1..] == [TrimSpaces];
    assert Apply(collapsed, [TrimSpaces]) == Apply(r, []) == r;
    assert Apply(s, [CollapseWhitespace, TrimSpaces]) == r;
    CollapseTrimHasNoLineTerminator(s);
  }
}
