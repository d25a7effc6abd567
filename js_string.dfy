/**
 * The two JavaScript string built-ins the bot applies to an incoming text
 * before matching it against its commands: `String.prototype.trim` and
 * `String.prototype.toLowerCase` (the latter only for ASCII letters).
 */
module JsString {

  /** A code point that ECMAScript's String.prototype.trim strips: a WhiteSpace
      (TAB, VT, FF, ZWNBSP and every space separator of category Zs) or a
      LineTerminator (LF, CR, LS, PS). */
  predicate IsTrimmable(c: char) {
    c == '\t' || c == '\U{000B}' || c == '\U{000C}' || c == '\U{FEFF}' ||
    c == ' ' || c == '\U{00A0}' || c == '\U{1680}' || ('\U{2000}' <= c <= '\U{200A}') ||
    c == '\U{202F}' || c == '\U{205F}' || c == '\U{3000}' ||
    c == '\n' || c == '\r' || c == '\U{2028}' || c == '\U{2029}'
  }

  predicate AllTrimmable(s: string) {
    forall i :: 0 <= i < |s| ==> IsTrimmable(s[i])
  }

  /** The first index at or after `i` that holds a code point trim keeps
      (|s| when there is none). */
  function SkipForward(s: string, i: nat): (k: nat)
    requires i <= |s|
    ensures i <= k <= |s|
    ensures forall j :: i <= j < k ==> IsTrimmable(s[j])
    ensures k < |s| ==> !IsTrimmable(s[k])
    decreases |s| - i
  {
    if i < |s| && IsTrimmable(s[i]) then SkipForward(s, i + 1) else i
  }

  /** The last end at or before `e`, and not below `lo`, that follows a code
      point trim keeps (`lo` when there is none). */
  function SkipBackward(s: string, lo: nat, e: nat): (k: nat)
    requires lo <= e <= |s|
    ensures lo <= k <= e
    ensures forall j :: k <= j < e ==> IsTrimmable(s[j])
    ensures k > lo ==> !IsTrimmable(s[k - 1])
    decreases e
  {
    if e > lo && IsTrimmable(s[e - 1]) then SkipBackward(s, lo, e - 1) else e
  }

  /** Where String.prototype.trim cuts `s`: everything before the first bound
      and from the second bound on is trimmable, and what lies between starts
      and ends with a kept code point. */
  function TrimBounds(s: string): (b: (nat, nat))
    ensures b.0 <= b.1 <= |s|
    ensures forall j :: 0 <= j < b.0 ==> IsTrimmable(s[j])
    ensures forall j :: b.1 <= j < |s| ==> IsTrimmable(s[j])
    ensures b.0 < b.1 ==> !IsTrimmable(s[b.0]) && !IsTrimmable(s[b.1 - 1])
  {
    var start := SkipForward(s, 0);
    var end := SkipBackward(s, start, |s|);
    assert start < |s| ==> end > start;
    (start, end)
  }

  /** String.prototype.trim: the middle of `s` once the trimmable code points
      are removed from both ends. */
  function Trim(s: string): (r: string)
    ensures |r| <= |s|
    ensures r == [] || (!IsTrimmable(r[0]) && !IsTrimmable(r[|r| - 1]))
  {
    var b := TrimBounds(s);
    s[b.0..b.1]
  }

  lemma {:induction false} SkipForwardOverPadding(s: string, i: nat, n: nat)
    requires i <= n <= |s|
    requires forall j :: i <= j < n ==> IsTrimmable(s[j])
    requires n < |s| ==> !IsTrimmable(s[n])
    ensures SkipForward(s, i) == n
    decreases n - i
  {
    if i < n {
      SkipForwardOverPadding(s, i + 1, n);
    }
  }

  lemma {:induction false} SkipBackwardOverPadding(s: string, lo: nat, e: nat, n: nat)
    requires lo <= n <= e <= |s|
    requires forall j :: n <= j < e ==> IsTrimmable(s[j])
    requires n > lo ==> !IsTrimmable(s[n - 1])
    ensures SkipBackward(s, lo, e) == n
    decreases e
  {
    if n < e {
      SkipBackwardOverPadding(s, lo, e - 1, n);
    }
  }

  /** Trim is determined by its contract: whatever text without trimmable ends
      is padded by trimmable code points, trimming gives that text back. */
  lemma TrimOfPadded(a: string, r: string, b: string)
    requires AllTrimmable(a) && AllTrimmable(b)
    requires r == [] || (!IsTrimmable(r[0]) && !IsTrimmable(r[|r| - 1]))
    ensures Trim(a + r + b) == r
  {
    var s := a + r + b;
    if r == [] {
      SkipForwardOverPadding(s, 0, |s|);
      SkipBackwardOverPadding(s, |s|, |s|, |s|);
    } else {
      assert s[|a|] == r[0] && s[|a| + |r| - 1] == r[|r| - 1];
      SkipForwardOverPadding(s, 0, |a|);
      SkipBackwardOverPadding(s, |a|, |s|, |a| + |r|);
      assert s[|a|..|a| + |r|] == r;
    }
  }

  /** Trimming twice is trimming once. */
  lemma TrimIdempotent(s: string)
    ensures Trim(Trim(s)) == Trim(s)
  {
    var r := Trim(s);
    var none: string := [];
    TrimOfPadded(none, r, none);
    assert none + r + none == r;
  }

  /** String.prototype.toLowerCase restricted to ASCII: 'A'..'Z' map to 'a'..'z'. */
  function LowerChar(c: char): char {
    if 'A' <= c <= 'Z' then (c as int + 32) as char else c
  }

  /** Lower-cases the ASCII capitals 'A'..'Z' to 'a'..'z' and leaves every
      other code point as it is. */
  function ToLower(s: string): (r: string)
    ensures |r| == |s|
    ensures forall i :: 0 <= i < |s| && 'A' <= s[i] <= 'Z' ==> r[i] as int == s[i] as int + 32
    ensures forall i :: 0 <= i < |s| && !('A' <= s[i] <= 'Z') ==> r[i] == s[i]
  {
    seq(|s|, i requires 0 <= i < |s| => LowerChar(s[i]))
  }

  /** No ASCII letter, upper or lower case, occurs in `t`. */
  predicate NoAsciiLetters(t: string) {
    forall i :: 0 <= i < |t| ==> !('A' <= t[i] <= 'Z') && !('a' <= t[i] <= 'z')
  }

  /** Lower-casing a text and comparing it with a keyword that has no ASCII
      letters is the same as comparing the text itself. */
  lemma {:induction false} LowerEqualsCaselessKeyword(s: string, t: string)
    requires NoAsciiLetters(t)
    ensures ToLower(s) == t <==> s == t
  {
    if s == t {
      assert forall i :: 0 <= i < |s| ==> LowerChar(s[i]) == s[i];
    }
    if ToLower(s) == t {
      forall i | 0 <= i < |s| ensures s[i] == t[i] {
        assert LowerChar(s[i]) == t[i];
      }
    }
  }
}
