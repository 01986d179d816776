/** The three string tests the login routes apply to configuration values:
    `String.prototype.includes`, `String.prototype.endsWith` and the regular
    expression `/^\d+$/`. */
module JsString {

  /** `\d` without the `u` flag: exactly the ten ASCII digits. */
  predicate IsAsciiDigit(c: char) {
    '0' <= c <= '9'
  }

  /** `/^\d+$/.test(s)`: one or more digits and nothing else (`$` without the
      `m` flag anchors at the very end, so no trailing newline is allowed). */
  predicate IsDigitString(s: string) {
    |s| > 0 && forall i :: 0 <= i < |s| ==> IsAsciiDigit(s[i])
  }

  /** `sub` starts at index `i` of `s`. */
  predicate OccursAt(s: string, sub: string, i: int) {
    0 <= i && i + |sub| <= |s| && s[i..i + |sub|] == sub
  }

  /** `s.includes(sub)`, scanning from the front. */
  function Includes(s: string, sub: string): bool
    decreases |s|
  {
    if |s| < |sub| then false
    else s[..|sub|] == sub || Includes(s[1..], sub)
  }

  /** `s.endsWith(suffix)`. */
  predicate EndsWith(s: string, suffix: string) {
    |suffix| <= |s| && s[|s| - |suffix|..] == suffix
  }

  /** The scan finds `sub` exactly when it occurs at some index. */
  lemma {:induction false} IncludesIffOccurs(s: string, sub: string)
    ensures Includes(s, sub) <==> exists i :: OccursAt(s, sub, i)
    decreases |s|
  {
    if |s| < |sub| {
      assert forall i :: !OccursAt(s, sub, i);
    } else if s[..|sub|] == sub {
      assert OccursAt(s, sub, 0);
    } else {
      IncludesIffOccurs(s[1..], sub);
      if Includes(s[1..], sub) {
        var i :| OccursAt(s[1..], sub, i);
        assert s[1..][i..i + |sub|] == s[i + 1..i + 1 + |sub|];
        assert OccursAt(s, sub, i + 1);
      }
      if exists i :: OccursAt(s, sub, i) {
        var i :| OccursAt(s, sub, i);
        assert i != 0;
        assert s[1..][i - 1..i - 1 + |sub|] == s[i..i + |sub|];
        assert OccursAt(s[1..], sub, i - 1);
      }
    }
  }

  /** A string that ends with `suffix` includes it, so `endsWith` adds nothing
      to an `includes` test of the same text. */
  lemma {:induction false} EndsWithIncludes(s: string, suffix: string)
    requires EndsWith(s, suffix)
    ensures Includes(s, suffix)
  {
    assert OccursAt(s, suffix, |s| - |suffix|);
    IncludesIffOccurs(s, suffix);
  }
}
