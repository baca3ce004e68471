/** Python's white space and `str.strip`. */
module Text {
  predicate IsSpace(c: char) {
    var n := c as int;
    9 <= n <= 13 || 28 <= n <= 32 || n == 133 || n == 160 || n == 5760 || 8192 <= n <= 8202
    || n == 8232 || n == 8233 || n == 8239 || n == 8287 || n == 12288
  }

  function StripLeft(s: string): string {
    if s != "" && IsSpace(s[0]) then StripLeft(s[1..]) else s
  }

  function StripRight(s: string): string {
    if s != "" && IsSpace(s[|s| - 1]) then StripRight(s[..|s| - 1]) else s
  }

  function Strip(s: string): string {
    StripRight(StripLeft(s))
  }

  predicate IsBlank(s: string) {
    forall i :: 0 <= i < |s| ==> IsSpace(s[i])
  }

  /** Neither end is white space. */
  predicate IsTrim(s: string) {
    s == "" || (!IsSpace(s[0]) && !IsSpace(s[|s| - 1]))
  }

  lemma {:induction false} StripRightIs(core: string, pad: string)
    requires IsBlank(pad) && (core == "" || !IsSpace(core[|core| - 1]))
    ensures StripRight(core + pad) == core
    decreases |pad|
  {
    if pad != "" {
      assert (core + pad)[..|core + pad| - 1] == core + pad[..|pad| - 1];
      StripRightIs(core, pad[..|pad| - 1]);
    } else {
      assert core + pad == core;
    }
  }

  lemma {:induction false} StripLeftIs(pad: string, rest: string)
    requires IsBlank(pad) && (rest == "" || !IsSpace(rest[0]))
    ensures StripLeft(pad + rest) == rest
    decreases |pad|
  {
    if pad != "" {
      assert (pad + rest)[1..] == pad[1..] + rest;
      StripLeftIs(pad[1..], rest);
    } else {
      assert pad + rest == rest;
    }
  }

  /** Stripping removes the white space at both ends and nothing else; this determines the result. */
  lemma StripIs(before: string, core: string, after: string)
    requires IsBlank(before) && IsBlank(after) && IsTrim(core)
    ensures Strip(before + core + after) == core
  {
    if core == "" {
      assert before + core + after == (before + after) + "";
      StripLeftIs(before + after, "");
    } else {
      assert before + core + after == before + (core + after);
      StripLeftIs(before, core + after);
      StripRightIs(core, after);
    }
  }

  lemma {:induction false} StripLeftSplits(s: string) returns (before: string)
    ensures s == before + StripLeft(s) && IsBlank(before)
    ensures StripLeft(s) == "" || !IsSpace(StripLeft(s)[0])
    decreases |s|
  {
    if s != "" && IsSpace(s[0]) {
      var rest := StripLeftSplits(s[1..]);
      before := [s[0]] + rest;
      assert s == [s[0]] + s[1..];
    } else {
      before := "";
    }
  }

  lemma {:induction false} StripRightSplits(s: string) returns (after: string)
    ensures s == StripRight(s) + after && IsBlank(after)
    ensures StripRight(s) == "" || !IsSpace(StripRight(s)[|StripRight(s)| - 1])
    decreases |s|
  {
    if s != "" && IsSpace(s[|s| - 1]) {
      var rest := StripRightSplits(s[..|s| - 1]);
      after := rest + [s[|s| - 1]];
      assert s == s[..|s| - 1] + [s[|s| - 1]];
    } else {
      after := "";
    }
  }

  lemma StripSplits(s: string) returns (before: string, after: string)
    ensures s == before + Strip(s) + after && IsBlank(before) && IsBlank(after) && IsTrim(Strip(s))
  {
    before := StripLeftSplits(s);
    after := StripRightSplits(StripLeft(s));
    if Strip(s) != "" {
      assert StripLeft(s)[0] == Strip(s)[0];
    }
  }

  lemma StripTwice(s: string)
    ensures Strip(Strip(s)) == Strip(s)
  {
    var before, after := StripSplits(s);
    assert Strip(s) == "" + Strip(s) + "";
    StripIs("", Strip(s), "");
  }

  lemma StripBlank(s: string)
    ensures Strip(s) == "" <==> IsBlank(s)
  {
    var before, after := StripSplits(s);
    if IsBlank(s) {
      assert s == s + "" + "";
      StripIs(s, "", "");
    }
    if Strip(s) == "" {
      assert s == before + after;
    }
  }

  function AfterFirst(s: string, c: char): string {
    if s == "" then "" else if s[0] == c then s[1..] else AfterFirst(s[1..], c)
  }

  predicate EndsWith(s: string, suffix: string) {
    |suffix| <= |s| && s[|s| - |suffix|..] == suffix
  }

  lemma {:induction false} AfterFirstIsTail(s: string, c: char) returns (k: nat)
    ensures k <= |s| && AfterFirst(s, c) == s[k..] && (c in s ==> k > 0 && s[k - 1] == c && c !in s[..k - 1])
  {
    if s == "" {
      k := 0;
    } else if s[0] == c {
      k := 1;
    } else {
      var rest := AfterFirstIsTail(s[1..], c);
      k := rest + 1;
      assert s[1..][rest..] == s[k..];
      if c in s {
        assert c in s[1..];
        assert s[..k - 1] == [s[0]] + s[1..][..rest - 1];
      }
    }
  }

  lemma {:induction false} AfterFirstIs(line: string, rest: string)
    requires '\n' !in line
    ensures AfterFirst(line + "\n" + rest, '\n') == rest
    decreases |line|
  {
    var s := line + "\n" + rest;
    if line == "" {
      assert s[1..] == rest;
    } else {
      assert s[0] == line[0] && s[0] in line;
      assert s[1..] == line[1..] + "\n" + rest;
      AfterFirstIs(line[1..], rest);
    }
  }
}
