/** Extracting a JSON object from a model's answer. */
module JsonBlock {
  import opened Text

  datatype Result = Ok(value: string) | LlmJsonParseError

  const FENCE: string := "```"

  /** Up to and with the last occurrence of the character. */
  function UpToLast(s: string, c: char): string
    requires c in s
    ensures 0 < |UpToLast(s, c)| <= |s| && UpToLast(s, c) == s[..|UpToLast(s, c)|]
    ensures UpToLast(s, c)[|UpToLast(s, c)| - 1] == c && c !in s[|UpToLast(s, c)|..]
  {
    if s[|s| - 1] == c then s else UpToLast(s[..|s| - 1], c)
  }

  /** The leftmost, greedy match of `\{.*\}` where the dot also matches line breaks. */
  function Search(s: string): Result {
    if s == "" then LlmJsonParseError
    else if s[0] == '{' && '}' in s[1..] then Ok(UpToLast(s, '}'))
    else Search(s[1..])
  }

  /** The text of a fenced block without its first line, or the text itself. */
  function Body(raw: string): string {
    var text := Strip(raw);
    if FENCE <= text && '\n' in text then AfterFirst(text, '\n') else text
  }

  function WithoutClosingFence(raw: string): string {
    var body := Body(raw);
    if FENCE <= Strip(raw) && EndsWith(body, FENCE) then Strip(body[..|body| - 3]) else body
  }

  function ExtractJsonBlock(raw: string): Result {
    if raw == "" then LlmJsonParseError
    else
      var found := Search(WithoutClosingFence(raw));
      if found.LlmJsonParseError? || Strip(found.value) == "" then LlmJsonParseError else Ok(Strip(found.value))
  }

  /* ---------- What the search finds ---------- */

  predicate IsObject(s: string) {
    |s| >= 2 && s[0] == '{' && s[|s| - 1] == '}'
  }

  /** An object with no opening brace before it and no closing brace after it. */
  predicate IsWidest(before: string, block: string, after: string) {
    IsObject(block) && '{' !in before && '}' !in after
  }

  lemma {:induction false} UpToLastCovers(s: string, c: char, k: nat)
    requires k < |s| && s[k] == c
    ensures |UpToLast(s, c)| > k
  {
    if s[|s| - 1] != c {
      UpToLastCovers(s[..|s| - 1], c, k);
    }
  }

  lemma {:induction false} UpToLastPadded(s: string, c: char, after: string)
    requires c in s && c !in after
    ensures UpToLast(s + after, c) == UpToLast(s, c)
  {
    if after == "" {
      assert s + after == s;
    } else {
      var n := |after| - 1;
      assert (s + after)[|s + after| - 1] == after[n] && after[n] in after;
      assert (s + after)[..|s + after| - 1] == s + after[..n];
      UpToLastPadded(s, c, after[..n]);
    }
  }

  lemma FoundHere(s: string)
    requires s != "" && s[0] == '{' && '}' in s[1..]
    ensures var found := UpToLast(s, '}');
            s == found + s[|found|..] && IsWidest("", found, s[|found|..])
  {
    var k :| 0 <= k < |s[1..]| && s[1..][k] == '}';
    UpToLastCovers(s, '}', k + 1);
  }

  lemma {:induction false} SearchFinds(s: string) returns (before: string, after: string)
    requires Search(s).Ok?
    ensures s == before + Search(s).value + after && IsWidest(before, Search(s).value, after)
  {
    if s[0] == '{' && '}' in s[1..] {
      FoundHere(s);
      before, after := "", s[|UpToLast(s, '}')|..];
      assert s == before + Search(s).value + after;
    } else {
      var rest;
      rest, after := SearchFinds(s[1..]);
      FoundLater(s, rest, Search(s).value, after);
      before := [s[0]] + rest;
    }
  }

  lemma FoundLater(s: string, rest: string, found: string, after: string)
    requires s != "" && !(s[0] == '{' && '}' in s[1..])
    requires s[1..] == rest + found + after && IsWidest(rest, found, after)
    ensures s == [s[0]] + rest + found + after && IsWidest([s[0]] + rest, found, after)
  {
    assert '}' in found;
    assert '}' in s[1..];
    assert s == [s[0]] + s[1..];
    assert [s[0]] + (rest + found + after) == [s[0]] + rest + found + after;
  }

  lemma {:induction false} SearchPaddedLeft(before: string, s: string)
    requires '{' !in before
    ensures Search(before + s) == Search(s)
  {
    if before == "" {
      assert before + s == s;
    } else {
      assert (before + s)[0] == before[0] && before[0] in before;
      assert (before + s)[1..] == before[1..] + s;
      SearchPaddedLeft(before[1..], s);
    }
  }

  lemma {:induction false} NothingWithoutClosing(s: string)
    requires '}' !in s
    ensures Search(s).LlmJsonParseError?
  {
    if s != "" {
      NothingWithoutClosing(s[1..]);
    }
  }

  lemma {:induction false} SearchPaddedRight(s: string, after: string)
    requires '}' !in after
    ensures Search(s + after) == Search(s)
  {
    if s == "" {
      assert s + after == after;
      NothingWithoutClosing(after);
    } else {
      assert (s + after)[1..] == s[1..] + after;
      if s[0] == '{' && '}' in s[1..] {
        UpToLastPadded(s, '}', after);
      } else {
        SearchPaddedRight(s[1..], after);
      }
    }
  }

  /** Text without an opening brace before, or a closing one after, makes no difference to the search. */
  lemma SearchPadded(before: string, s: string, after: string)
    requires '{' !in before && '}' !in after
    ensures Search(before + s + after) == Search(s)
  {
    SearchPaddedRight(before + s, after);
    SearchPaddedLeft(before, s);
  }

  lemma SearchWhole(block: string)
    requires IsObject(block)
    ensures Search(block) == Ok(block)
  {
    assert block[1..][|block| - 2] == '}';
  }

  /** An opening brace with a closing one after it. */
  predicate OpensAt(s: string, i: int) {
    0 <= i < |s| && s[i] == '{' && '}' in s[i + 1..]
  }

  /** The search succeeds exactly when some opening brace has a closing one after it. */
  lemma {:induction false} SearchSucceeds(s: string)
    ensures Search(s).Ok? <==> exists i :: OpensAt(s, i)
  {
    if s != "" {
      SearchSucceeds(s[1..]);
      if i :| OpensAt(s, i) && i > 0 {
        assert s[1..][i..] == s[i + 1..];
        assert OpensAt(s[1..], i - 1);
      }
      if i :| OpensAt(s[1..], i) {
        assert s[1..][i + 1..] == s[i + 2..];
        assert OpensAt(s, i + 1);
      }
      assert OpensAt(s, 0) <==> s[0] == '{' && '}' in s[1..];
    }
  }

  lemma BlankHasNoBrace(s: string)
    requires IsBlank(s)
    ensures '{' !in s && '}' !in s
  {
  }

  lemma SearchStripped(s: string)
    ensures Search(Strip(s)) == Search(s)
  {
    var before, after := StripSplits(s);
    BlankHasNoBrace(before);
    BlankHasNoBrace(after);
    SearchPadded(before, Strip(s), after);
  }

  /* ---------- What is extracted ---------- */

  lemma ObjectIsTrim(block: string)
    requires IsObject(block)
    ensures Strip(block) == block
  {
    assert block == "" + block + "";
    StripIs("", block, "");
  }

  lemma ExtractIsSearch(raw: string)
    ensures ExtractJsonBlock(raw) == Search(Body(raw))
  {
    var body := Body(raw);
    if FENCE <= Strip(raw) && EndsWith(body, FENCE) {
      var open := body[..|body| - 3];
      SearchStripped(open);
      assert body == "" + open + FENCE;
      SearchPadded("", open, FENCE);
    }
    var found := Search(WithoutClosingFence(raw));
    if found.Ok? {
      var before, after := SearchFinds(WithoutClosingFence(raw));
      ObjectIsTrim(found.value);
    }
  }

  /**
    A result is the widest object of the text, a fence's first line aside; there is one exactly when a closing brace
    follows an opening one.
   */
  lemma Extracted(raw: string)
    ensures ExtractJsonBlock(raw).Ok? <==> exists i :: OpensAt(Body(raw), i)
    ensures ExtractJsonBlock(raw).Ok? ==>
              exists before, after :: Body(raw) == before + ExtractJsonBlock(raw).value + after
                                      && IsWidest(before, ExtractJsonBlock(raw).value, after)
  {
    ExtractIsSearch(raw);
    SearchSucceeds(Body(raw));
    if Search(Body(raw)).Ok? {
      var before, after := SearchFinds(Body(raw));
    }
  }

  lemma BodyIsSlice(raw: string) returns (before: string, after: string)
    ensures raw == before + Body(raw) + after
  {
    before, after := StripSplits(raw);
    var text := Strip(raw);
    var k := AfterFirstIsTail(text, '\n');
    if FENCE <= text && '\n' in text {
      assert text == text[..k] + text[k..];
      assert before + text + after == (before + text[..k]) + text[k..] + after;
      before := before + text[..k];
    }
  }

  /** A result is a contiguous slice of the answer. */
  lemma ExtractedSlice(raw: string) returns (i: nat, j: nat)
    requires ExtractJsonBlock(raw).Ok?
    ensures i <= j <= |raw| && raw[i..j] == ExtractJsonBlock(raw).value && IsObject(raw[i..j])
  {
    ExtractIsSearch(raw);
    var before, after := BodyIsSlice(raw);
    var left, right := SearchFinds(Body(raw));
    var found := ExtractJsonBlock(raw).value;
    Regrouped(before, left, found, right, after);
    i, j := MiddleSlice(before + left, found, right + after);
  }

  lemma Regrouped(a: string, b: string, c: string, d: string, e: string)
    ensures a + (b + c + d) + e == (a + b) + c + (d + e)
  {
  }

  lemma MiddleSlice(before: string, middle: string, after: string) returns (i: nat, j: nat)
    ensures i <= j <= |before + middle + after| && (before + middle + after)[i..j] == middle
  {
    i, j := |before|, |before| + |middle|;
  }

  /** Extracting from what was extracted gives it back. */
  lemma ExtractTwice(raw: string)
    requires ExtractJsonBlock(raw).Ok?
    ensures ExtractJsonBlock(ExtractJsonBlock(raw).value) == ExtractJsonBlock(raw)
  {
    ExtractIsSearch(raw);
    var before, after := SearchFinds(Body(raw));
    var block := ExtractJsonBlock(raw).value;
    ObjectIsTrim(block);
    ExtractIsSearch(block);
    SearchWhole(block);
  }

  /* ---------- Recovering an object ---------- */

  /** The widest object starts no later, and ends no earlier, than another in the same text. */
  lemma WidestReaches(before: string, block: string, after: string, left: string, middle: string, right: string)
    requires IsObject(block) && IsWidest(left, middle, right)
    requires before + block + after == left + middle + right
    ensures |left| <= |before| && |right| <= |after|
  {
    var s := before + block + after;
    assert s[|before|] == '{' && s[|before| + |block| - 1] == '}';
    forall k | 0 <= k < |left|
      ensures s[k] != '{'
    {
      assert s[k] == left[k] && left[k] in left;
    }
    forall k | |s| - |right| <= k < |s|
      ensures s[k] != '}'
    {
      var i := k - |left| - |middle|;
      assert s[k] == right[i] && right[i] in right;
    }
  }

  /** Around an object, only an opening brace before it or a closing one after it misleads the search. */
  lemma SearchIsObject(before: string, block: string, after: string)
    requires IsObject(block)
    ensures Search(before + block + after) == Ok(block) <==> '{' !in before && '}' !in after
  {
    var s := before + block + after;
    SearchWhole(block);
    if '{' !in before && '}' !in after {
      SearchPadded(before, block, after);
    }
    if Search(s) == Ok(block) {
      var left, right := SearchFinds(s);
      WidestReaches(before, block, after, left, block, right);
      assert before == s[..|before|] && left == s[..|left|];
      assert after == s[|s| - |after|..] && right == s[|s| - |right|..];
    }
  }

  /** In prose, an object is recovered if and only if no opening brace comes before it and no closing one after it. */
  lemma RecoveredFromProse(before: string, block: string, after: string)
    requires IsObject(block) && !(FENCE <= Strip(before + block + after))
    ensures ExtractJsonBlock(before + block + after) == Ok(block) <==> '{' !in before && '}' !in after
  {
    var raw := before + block + after;
    ExtractIsSearch(raw);
    SearchStripped(raw);
    SearchIsObject(before, block, after);
  }

  lemma FencedBody(line: string, inside: string)
    requires FENCE <= line && '\n' !in line && inside != "" && !IsSpace(inside[|inside| - 1])
    ensures Body(line + "\n" + inside) == inside
  {
    var raw := line + "\n" + inside;
    assert raw[0] == line[0] == FENCE[0] && raw[|raw| - 1] == inside[|inside| - 1];
    assert raw == "" + raw + "";
    StripIs("", raw, "");
    assert FENCE <= raw && raw[|line|] == '\n';
    AfterFirstIs(line, inside);
  }

  /**
    In a fenced block, whatever the info string and the text around it, an object is recovered under the same
    condition.
   */
  lemma RecoveredFromFence(info: string, before: string, block: string, after: string)
    requires IsObject(block) && '\n' !in info
    ensures ExtractJsonBlock(FENCE + info + "\n" + (before + block + (after + FENCE))) == Ok(block) <==>
          '{' !in before && '}' !in after
  {
    var inside := before + block + (after + FENCE);
    FencedBody(FENCE + info, inside);
    ExtractIsSearch(FENCE + info + "\n" + inside);
    SearchIsObject(before, block, after + FENCE);
  }
}
