/**
 * The few JavaScript string operations the wizard and its generation client rely on:
 * truthiness of a nullable string, `includes`, `trim` and `substring(0, n)`.
 * Strings are sequences of characters (see README for the UTF-16 caveat).
 */
module JsStrings {
  import opened Wrappers

  /** Truthiness of a `string | null`: present and not the empty string. */
  predicate Truthy(s: Option<string>)
  {
    s.Some? && s.value != ""
  }

  /** `sub` occurs in `s` starting at index `i`. */
  predicate OccursAt(s: string, sub: string, i: nat)
  {
    i + |sub| <= |s| && s[i..i + |sub|] == sub
  }

  /** `s.includes(sub)`, computed by trying each start position from the left. */
  function Includes(s: string, sub: string): (r: bool)
    ensures r <==> exists i: nat :: i <= |s| && OccursAt(s, sub, i)
    decreases |s|
  {
    if sub <= s then
      assert OccursAt(s, sub, 0);
      true
    else if |s| == 0 then
      false
    else
      ShiftOccurrence(s, sub);
      Includes(s[1..], sub)
  }

  /** When `sub` is not a prefix of `s`, its occurrences in `s` are those in `s[1..]`, shifted by one. */
  lemma ShiftOccurrence(s: string, sub: string)
    requires |s| > 0 && !(sub <= s)
    ensures (exists i: nat :: i <= |s| && OccursAt(s, sub, i))
        <==> (exists i: nat :: i <= |s[1..]| && OccursAt(s[1..], sub, i))
  {
    var t := s[1..];
    forall i: nat | i + |sub| <= |t|
      ensures OccursAt(s, sub, i + 1) <==> OccursAt(t, sub, i)
    {
      var a, b := s[i + 1..i + 1 + |sub|], t[i..i + |sub|];
      forall k | 0 <= k < |a| ensures a[k] == b[k] {
        assert a[k] == s[i + 1 + k] && b[k] == t[i + k];
      }
      assert a == b;
    }
    if exists i: nat :: i <= |s| && OccursAt(s, sub, i) {
      var i: nat :| i <= |s| && OccursAt(s, sub, i);
      assert s[..|sub|] == s[0..0 + |sub|];
      assert i != 0;
      assert OccursAt(t, sub, i - 1);
    }
    if exists i: nat :: i <= |t| && OccursAt(t, sub, i) {
      var i: nat :| i <= |t| && OccursAt(t, sub, i);
      assert OccursAt(s, sub, i + 1);
    }
  }

  /** Whatever surrounds it, a string includes itself. */
  lemma IncludesInfix(a: string, sub: string, b: string)
    ensures Includes(a + sub + b, sub)
  {
    assert (a + sub + b)[|a|..|a| + |sub|] == sub;
    assert OccursAt(a + sub + b, sub, |a|);
  }

  /** A string occurs at the start of anything it begins. */
  lemma OccursAtStart(sub: string, back: string)
    ensures OccursAt(sub + back, sub, 0)
  {
    assert (sub + back)[..|sub|] == sub;
  }

  /** Text put in front of a string moves its occurrences right by the text's length. */
  lemma OccursShift(front: string, s: string, sub: string, i: nat)
    requires OccursAt(s, sub, i)
    ensures OccursAt(front + s, sub, |front| + i)
  {
    assert (front + s)[|front| + i..|front| + i + |sub|] == s[i..i + |sub|];
  }

  /**
   * The characters `String.prototype.trim` removes: the ECMAScript WhiteSpace
   * (tab, vertical tab, form feed, space, no-break space, byte-order mark and the
   * Unicode space separators) and LineTerminator code points.
   */
  predicate IsTrimmable(c: char)
  {
    c == '\t' || c == '\U{000B}' || c == '\U{000C}' || c == ' ' || c == '\U{00A0}' || c == '\U{FEFF}'
    || c == '\U{1680}' || ('\U{2000}' <= c <= '\U{200A}') || c == '\U{202F}' || c == '\U{205F}'
    || c == '\U{3000}' || IsLineTerminator(c)
  }

  /** ECMAScript LineTerminator code points; the regular-expression `.` matches none of them. */
  predicate IsLineTerminator(c: char)
  {
    c == '\n' || c == '\r' || c == '\U{2028}' || c == '\U{2029}'
  }

  /** `s` with its leading trimmable characters removed. */
  function TrimStart(s: string): (r: string)
    ensures |r| <= |s| && r == s[|s| - |r|..]
    ensures r == [] || !IsTrimmable(r[0])
    ensures forall i :: 0 <= i < |s| - |r| ==> IsTrimmable(s[i])
  {
    if |s| > 0 && IsTrimmable(s[0]) then TrimStart(s[1..]) else s
  }

  /** `s` with its trailing trimmable characters removed. */
  function TrimEnd(s: string): (r: string)
    ensures |r| <= |s| && r == s[..|r|]
    ensures r == [] || !IsTrimmable(r[|r| - 1])
    ensures forall i :: |r| <= i < |s| ==> IsTrimmable(s[i])
  {
    if |s| > 0 && IsTrimmable(s[|s| - 1]) then TrimEnd(s[..|s| - 1]) else s
  }

  /** `s.trim()`. */
  function Trim(s: string): string
  {
    TrimEnd(TrimStart(s))
  }

  /** `s.trim()` is the empty string exactly when every character of `s` is trimmable. */
  lemma TrimEmptyIffBlank(s: string)
    ensures Trim(s) == "" <==> forall i :: 0 <= i < |s| ==> IsTrimmable(s[i])
  {
  }

  /** `s.substring(0, n)`: the first `n` characters, or all of `s` when it is shorter. */
  function Prefix(s: string, n: nat): (r: string)
    ensures |r| <= n && r <= s
    ensures |s| >= n ==> |r| == n
    ensures |s| < n ==> r == s
  {
    if |s| <= n then s else s[..n]
  }
}
