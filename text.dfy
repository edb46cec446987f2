/**
 * String operations the account code relies on: the shape of a generated
 * token (32 lower-case hex digits, the output of md5), PHP's `strpos` used as
 * a substring test, and PHP's `str_replace` used to fill in mail templates.
 */
module Text {

  const HexDigits: string := "0123456789abcdef"

  /** A string made only of lower-case hex digits. */
  predicate IsHex(s: string) {
    forall i :: 0 <= i < |s| ==> s[i] in HexDigits
  }

  /** The shape of `md5(...)` output: 32 lower-case hex digits. */
  predicate IsHex32(s: string) {
    |s| == 32 && IsHex(s)
  }

  /** `sub` occurs in `s` starting at position `i`. */
  predicate OccursAt(s: string, sub: string, i: nat) {
    i + |sub| <= |s| && s[i..i + |sub|] == sub
  }

  /** `strpos(s, sub) !== FALSE`: `sub` occurs somewhere in `s`. */
  predicate Contains(s: string, sub: string) {
    exists i: nat | i <= |s| :: OccursAt(s, sub, i)
  }

  /** A string that starts with `pre` contains it. */
  lemma PrefixIsContained(pre: string, rest: string)
    ensures Contains(pre + rest, pre)
  {
    assert (pre + rest)[0..|pre|] == pre;
    assert OccursAt(pre + rest, pre, 0);
  }

  /** No hex string contains "reset": its letter 'r' is not a hex digit. */
  lemma HexHasNoReset(s: string)
    requires IsHex(s)
    ensures !Contains(s, "reset")
  {
    forall i: nat | i <= |s|
      ensures !OccursAt(s, "reset", i)
    {
      if i + 5 <= |s| {
        assert s[i..i + 5][0] == s[i] != 'r';
      }
    }
  }

  /**
   * `str_replace(p, r, s)`: scans `s` from the left and replaces every
   * non-overlapping occurrence of `p` by `r`; an empty `p` changes nothing.
   */
  function Replace(s: string, p: string, r: string): string
    decreases |s|
  {
    if |p| == 0 || |s| < |p| then s
    else if s[..|p|] == p then r + Replace(s[|p|..], p, r)
    else [s[0]] + Replace(s[1..], p, r)
  }

  /** `parts` glued together with `sep` between neighbours. */
  function Join(parts: seq<string>, sep: string): string
  {
    if |parts| == 0 then ""
    else if |parts| == 1 then parts[0]
    else parts[0] + sep + Join(parts[1..], sep)
  }

  /** Text that cannot start an occurrence of `p` passes through `Replace` unchanged. */
  lemma {:induction false} ReplaceSkipsPrefix(x: string, y: string, p: string, r: string)
    requires |p| > 0 && p[0] !in x
    ensures Replace(x + y, p, r) == x + Replace(y, p, r)
  {
    if x == [] {
      assert x + y == y;
    } else if |x + y| < |p| {
      assert Replace(y, p, r) == y;
    } else {
      var s := x + y;
      assert s[..|p|][0] == x[0] != p[0];
      assert s[1..] == x[1..] + y;
      ReplaceSkipsPrefix(x[1..], y, p, r);
      assert [x[0]] + x[1..] == x;
    }
  }

  /**
   * Filling a template: when the placeholder's first character appears in no
   * literal part, every placeholder is replaced by `r` and the literal parts
   * are kept as they are.
   */
  lemma {:induction false} ReplaceFillsTemplate(parts: seq<string>, p: string, r: string)
    requires |p| > 0
    requires forall k :: 0 <= k < |parts| ==> p[0] !in parts[k]
    ensures Replace(Join(parts, p), p, r) == Join(parts, r)
  {
    if |parts| == 0 {
    } else if |parts| == 1 {
      ReplaceSkipsPrefix(parts[0], "", p, r);
      assert parts[0] + "" == parts[0];
    } else {
      var rest := Join(parts[1..], p);
      assert Join(parts, p) == parts[0] + (p + rest);
      ReplaceSkipsPrefix(parts[0], p + rest, p, r);
      assert (p + rest)[..|p|] == p;
      assert (p + rest)[|p|..] == rest;
      ReplaceFillsTemplate(parts[1..], p, r);
      assert Join(parts, r) == parts[0] + (r + Join(parts[1..], r));
    }
  }
}
