/**
  The few operations on Python `str` values that the agent relies on:
  `strip()`, `split(sep)`, `sep.join(...)`, `startswith`, `endswith`,
  `replace(old, "")`, `lower()`, `in` and decimal formatting of integers.
  Strings are sequences of Unicode scalar values, as Python 3 strings are.
*/
module Text {

  /** Python's `str.isspace()` for one character: the characters whose
      bidirectional class is WS, B or S, or whose category is Zs. */
  predicate IsSpace(c: char) {
    var n := c as int;
    || (0x09 <= n <= 0x0D) || (0x1C <= n <= 0x20)
    || n == 0x85 || n == 0xA0 || n == 0x1680
    || (0x2000 <= n <= 0x200A)
    || n == 0x2028 || n == 0x2029 || n == 0x202F || n == 0x205F || n == 0x3000
  }

  predicate AllSpace(s: string) {
    forall k | 0 <= k < |s| :: IsSpace(s[k])
  }

  /** `s.lstrip()`. */
  function StripLeft(s: string): (r: string)
    ensures |r| <= |s|
  {
    if |s| > 0 && IsSpace(s[0]) then StripLeft(s[1..]) else s
  }

  /** `s.rstrip()`. */
  function StripRight(s: string): (r: string)
    ensures |r| <= |s|
  {
    if |s| > 0 && IsSpace(s[|s| - 1]) then StripRight(s[..|s| - 1]) else s
  }

  /** `s.strip()`: `s` without its leading and trailing whitespace. */
  function Strip(s: string): (r: string)
    ensures |r| <= |s|
  {
    StripRight(StripLeft(s))
  }

  /** `lstrip()` keeps the longest suffix that does not start with whitespace:
      what it drops is all whitespace. */
  lemma {:induction false} StripLeftShape(s: string)
    ensures var r := StripLeft(s);
      && r == s[|s| - |r|..]
      && AllSpace(s[..|s| - |r|])
      && (r == [] || !IsSpace(r[0]))
    decreases |s|
  {
    if |s| > 0 && IsSpace(s[0]) {
      StripLeftShape(s[1..]);
      var r := StripLeft(s);
      assert s[..|s| - |r|] == [s[0]] + s[1..][..|s| - 1 - |r|];
    }
  }

  /** `rstrip()` keeps the longest prefix that does not end with whitespace:
      what it drops is all whitespace. */
  lemma {:induction false} StripRightShape(s: string)
    ensures var r := StripRight(s);
      && r == s[..|r|]
      && AllSpace(s[|r|..])
      && (r == [] || !IsSpace(r[|r| - 1]))
    decreases |s|
  {
    if |s| > 0 && IsSpace(s[|s| - 1]) {
      StripRightShape(s[..|s| - 1]);
      var r := StripRight(s);
      assert s[|r|..] == s[..|s| - 1][|r|..] + [s[|s| - 1]];
    }
  }

  /** A stripped string neither starts nor ends with whitespace. */
  lemma StripShape(s: string)
    ensures var r := Strip(s);
      r == [] || (!IsSpace(r[0]) && !IsSpace(r[|r| - 1]))
  {
    var l := StripLeft(s);
    StripLeftShape(s);
    StripRightShape(l);
    var r := StripRight(l);
    if r != [] {
      assert r[0] == l[0];
    }
  }

  /** A string that neither starts nor ends with whitespace is its own strip. */
  lemma StripTrimmed(s: string)
    requires s == [] || (!IsSpace(s[0]) && !IsSpace(s[|s| - 1]))
    ensures Strip(s) == s
  {
  }

  /** `strip()` is idempotent. */
  lemma StripIdempotent(s: string)
    ensures Strip(Strip(s)) == Strip(s)
  {
    StripShape(s);
    StripTrimmed(Strip(s));
  }

  /** Whitespace added around a string does not change its strip. */
  lemma {:induction false} StripPadded(pre: string, s: string, post: string)
    requires AllSpace(pre) && AllSpace(post)
    ensures Strip(pre + s + post) == Strip(s)
  {
    StripLeftPadded(pre, s + post);
    assert pre + s + post == pre + (s + post);
    StripLeftAppend(s, post);
    StripRightPadded(StripLeft(s), post);
  }

  lemma {:induction false} StripLeftPadded(pre: string, s: string)
    requires AllSpace(pre)
    ensures StripLeft(pre + s) == StripLeft(s)
    decreases |pre|
  {
    if |pre| > 0 {
      assert (pre + s)[0] == pre[0];
      assert (pre + s)[1..] == pre[1..] + s;
      StripLeftPadded(pre[1..], s);
    } else {
      assert pre + s == s;
    }
  }

  /** Stripping on the left does not reach trailing text once something
      non-blank precedes it; when `s` is blank, the trailing blanks remain
      and are stripped later on the right. */
  lemma {:induction false} StripLeftAppend(s: string, post: string)
    requires AllSpace(post)
    ensures StripRight(StripLeft(s + post)) == StripRight(StripLeft(s) + post)
    decreases |s|
  {
    if |s| == 0 {
      assert s + post == post;
      StripLeftOfBlank(post);
      StripRightOfBlank(post);
    } else if IsSpace(s[0]) {
      assert (s + post)[1..] == s[1..] + post;
      StripLeftAppend(s[1..], post);
    } else {
      assert (s + post)[0] == s[0];
    }
  }

  lemma StripLeftOfBlank(s: string)
    requires AllSpace(s)
    ensures StripLeft(s) == []
  {
  }

  lemma {:induction false} StripRightOfBlank(s: string)
    requires AllSpace(s)
    ensures StripRight(s) == []
    decreases |s|
  {
    if |s| > 0 {
      StripRightOfBlank(s[..|s| - 1]);
    }
  }

  lemma {:induction false} StripRightPadded(s: string, post: string)
    requires AllSpace(post)
    ensures StripRight(s + post) == StripRight(s)
    decreases |post|
  {
    if |post| > 0 {
      assert (s + post)[..|s + post| - 1] == s + post[..|post| - 1];
      StripRightPadded(s, post[..|post| - 1]);
    } else {
      assert s + post == s;
    }
  }

  predicate StartsWith(s: string, prefix: string) {
    |prefix| <= |s| && s[..|prefix|] == prefix
  }

  predicate EndsWith(s: string, suffix: string) {
    |suffix| <= |s| && s[|s| - |suffix|..] == suffix
  }

  /** Python's `t in s` for strings. */
  predicate Contains(s: string, t: string) {
    exists i | 0 <= i <= |s| :: StartsWith(s[i..], t)
  }

  lemma ContainsWitness(s: string, t: string, i: nat)
    requires i + |t| <= |s| && s[i..i + |t|] == t
    ensures Contains(s, t)
  {
    assert StartsWith(s[i..], t);
  }

  /** Both halves of a concatenation occur in it. */
  lemma ContainsConcat(a: string, b: string)
    ensures Contains(a + b, a) && Contains(a + b, b)
  {
    ContainsWitness(a + b, a, 0);
    ContainsWitness(a + b, b, |a|);
  }

  lemma ContainsMiddle(a: string, b: string, c: string)
    ensures Contains(a + b + c, b)
  {
    assert (a + b + c)[|a|..|a| + |b|] == b;
    ContainsWitness(a + b + c, b, |a|);
  }

  /** Occurring in an occurrence is occurring. */
  lemma ContainsTransitive(s: string, t: string, u: string)
    requires Contains(s, t) && Contains(t, u)
    ensures Contains(s, u)
  {
    var i :| 0 <= i <= |s| && StartsWith(s[i..], t);
    var j :| 0 <= j <= |t| && StartsWith(t[j..], u);
    assert s[i..i + |t|] == t;
    assert t[j..j + |u|] == u;
    forall k | 0 <= k < |u|
      ensures s[i + j + k] == u[k]
    {
      assert s[i + j + k] == s[i..i + |t|][j + k] == t[j + k];
      assert t[j + k] == t[j..j + |u|][k];
    }
    assert s[i + j..i + j + |u|] == u;
    ContainsWitness(s, u, i + j);
  }

  /** `s.replace(pat, "")`: every occurrence of `pat`, scanning from the left
      without overlap, removed. */
  function RemoveAll(s: string, pat: string): (r: string)
    requires |pat| > 0
    ensures |r| <= |s|
    decreases |s|
  {
    if |s| == 0 then ""
    else if StartsWith(s, pat) then RemoveAll(s[|pat|..], pat)
    else [s[0]] + RemoveAll(s[1..], pat)
  }

  /** `sep.join(parts)`. */
  function Join(parts: seq<string>, sep: string): string
  {
    if |parts| == 0 then ""
    else if |parts| == 1 then parts[0]
    else parts[0] + sep + Join(parts[1..], sep)
  }

  /** Every part occurs in the joined string. */
  lemma {:induction false} JoinContains(parts: seq<string>, sep: string, i: nat)
    requires i < |parts|
    ensures Contains(Join(parts, sep), parts[i])
    decreases |parts|
  {
    if |parts| == 1 {
      ContainsWitness(parts[0], parts[0], 0);
    } else {
      var rest := Join(parts[1..], sep);
      assert Join(parts, sep) == (parts[0] + sep) + rest;
      ContainsConcat(parts[0] + sep, rest);
      if i == 0 {
        assert Join(parts, sep) == parts[0] + (sep + rest);
        ContainsConcat(parts[0], sep + rest);
      } else {
        JoinContains(parts[1..], sep, i - 1);
        ContainsTransitive(Join(parts, sep), rest, parts[i]);
      }
    }
  }

  /** `s.split(sep)` for a one-character separator: the maximal pieces
      between separators, at least one, joined back they give `s`. */
  function Split(s: string, sep: char): (r: seq<string>)
    ensures |r| >= 1
    ensures forall i | 0 <= i < |r| :: sep !in r[i]
    ensures Join(r, [sep]) == s
    decreases |s|
  {
    if |s| == 0 then [""]
    else if s[0] == sep then
      var rest := Split(s[1..], sep);
      assert [""] + rest == [""] + rest;
      [""] + rest
    else
      var rest := Split(s[1..], sep);
      var r := [[s[0]] + rest[0]] + rest[1..];
      assert r[1..] == rest[1..];
      assert |rest| > 1 ==> Join(rest, [sep]) == rest[0] + [sep] + Join(rest[1..], [sep]);
      assert s == [s[0]] + s[1..];
      r
  }

  /** Splitting what was joined gives the pieces back, when no piece holds
      the separator. */
  lemma {:induction false} SplitJoin(parts: seq<string>, sep: char)
    requires |parts| >= 1
    requires forall i | 0 <= i < |parts| :: sep !in parts[i]
    ensures Split(Join(parts, [sep]), sep) == parts
    decreases |parts|, |parts[0]|
  {
    var s := Join(parts, [sep]);
    if |parts[0]| == 0 {
      if |parts| == 1 {
        assert s == "";
      } else {
        assert s == [sep] + Join(parts[1..], [sep]);
        assert s[1..] == Join(parts[1..], [sep]);
        SplitJoin(parts[1..], sep);
        assert parts == [""] + parts[1..];
      }
    } else {
      var c := parts[0][0];
      var shorter := [parts[0][1..]] + parts[1..];
      assert shorter[1..] == parts[1..];
      assert forall i | 0 <= i < |shorter| :: sep !in shorter[i] by {
        forall i | 0 <= i < |shorter| ensures sep !in shorter[i] {
          if i > 0 {
            assert shorter[i] == parts[i];
          } else {
            assert parts[0] == [c] + parts[0][1..];
          }
        }
      }
      if |parts| == 1 {
        assert s == parts[0];
        assert Join(shorter, [sep]) == parts[0][1..];
      } else {
        assert s == parts[0] + [sep] + Join(parts[1..], [sep]);
        assert Join(shorter, [sep]) == parts[0][1..] + [sep] + Join(parts[1..], [sep]);
      }
      assert s == [c] + Join(shorter, [sep]);
      assert s[0] == c && c != sep;
      assert s[1..] == Join(shorter, [sep]);
      SplitJoin(shorter, sep);
      assert shorter[0] == parts[0][1..];
      assert [c] + shorter[0] == parts[0];
      assert parts == [[c] + shorter[0]] + shorter[1..];
    }
  }

  /** ASCII case folding; Python's `lower()` also folds the rest of Unicode. */
  function LowerChar(c: char): char {
    if 'A' <= c <= 'Z' then (c as int + 32) as char else c
  }

  function Lower(s: string): string {
    seq(|s|, i requires 0 <= i < |s| => LowerChar(s[i]))
  }

  predicate IsUpper(c: char) {
    'A' <= c <= 'Z'
  }

  /** Lower-casing leaves no upper-case letter, changes a string exactly
      when it has one, and so is idempotent. */
  lemma LowerFolds(s: string)
    ensures |Lower(s)| == |s|
    ensures forall i | 0 <= i < |s| :: !IsUpper(Lower(s)[i])
    ensures Lower(s) == s <==> forall i | 0 <= i < |s| :: !IsUpper(s[i])
    ensures Lower(Lower(s)) == Lower(s)
  {
    if forall i | 0 <= i < |s| :: !IsUpper(s[i]) {
      assert Lower(s) == s;
    } else {
      var i :| 0 <= i < |s| && IsUpper(s[i]);
      assert Lower(s)[i] != s[i];
    }
    assert Lower(Lower(s)) == Lower(s);
  }

  predicate IsDigit(c: char) {
    '0' <= c <= '9'
  }

  /** The number a string of decimal digits stands for, most significant
      digit first. */
  function DecimalValue(s: string): int {
    if |s| == 0 then 0 else 10 * DecimalValue(s[..|s| - 1]) + (s[|s| - 1] as int - '0' as int)
  }

  /** `str(n)` for a natural number: its decimal digits, without leading
      zeros, standing for `n`. */
  function NatToString(n: nat): (r: string)
    ensures |r| >= 1
    ensures forall i | 0 <= i < |r| :: IsDigit(r[i])
    ensures |r| > 1 ==> r[0] != '0'
    ensures DecimalValue(r) == n
  {
    if n < 10 then
      var r := [('0' as int + n) as char];
      assert r[..0] == [];
      r
    else
      var r := NatToString(n / 10) + [('0' as int + n % 10) as char];
      assert r[..|r| - 1] == NatToString(n / 10);
      r
  }
}
