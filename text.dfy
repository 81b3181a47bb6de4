/**
 * The few pieces of Python string semantics the tools rely on:
 * `str.strip()`, `str.rstrip(ch)`, `str.lower()`, and truthiness of an
 * optional configuration string.
 */
module Text {
  import opened Wrappers

  /** The characters for which Python's `str.isspace()` holds; `str.strip()` removes these. */
  predicate IsSpace(c: char) {
    c == ' ' || c == '\t' || c == '\n' || c == '\r'
    || c == '\U{000B}' || c == '\U{000C}'
    || ('\U{001C}' <= c <= '\U{001F}')
    || c == '\U{0085}' || c == '\U{00A0}' || c == '\U{1680}'
    || ('\U{2000}' <= c <= '\U{200A}')
    || c == '\U{2028}' || c == '\U{2029}' || c == '\U{202F}' || c == '\U{205F}' || c == '\U{3000}'
  }

  predicate AllSpace(s: string) {
    forall i :: 0 <= i < |s| ==> IsSpace(s[i])
  }

  /** Neither end of `s` is whitespace (the empty string qualifies). */
  predicate Trimmed(s: string) {
    s == [] || (!IsSpace(s[0]) && !IsSpace(s[|s| - 1]))
  }

  /** `s.lstrip()`: the suffix left after dropping leading whitespace. */
  function StripLeft(s: string): (r: string)
    ensures |r| <= |s| && r == s[|s| - |r|..]
    ensures forall i :: 0 <= i < |s| - |r| ==> IsSpace(s[i])
    ensures r == [] || !IsSpace(r[0])
  {
    if |s| > 0 && IsSpace(s[0]) then
      var r := StripLeft(s[1..]);
      assert s[1..][|s| - 1 - |r|..] == s[|s| - |r|..];
      assert forall i :: 1 <= i < |s| - |r| ==> s[1..][i - 1] == s[i];
      r
    else
      s
  }

  /** `s.rstrip()`: the prefix left after dropping trailing whitespace. */
  function StripRight(s: string): (r: string)
    ensures |r| <= |s| && r == s[..|r|]
    ensures AllSpace(s[|r|..])
    ensures r == [] || !IsSpace(r[|r| - 1])
  {
    if |s| > 0 && IsSpace(s[|s| - 1]) then StripRight(s[..|s| - 1]) else s
  }

  /** `s.strip()`. */
  function Strip(s: string): (r: string)
    ensures Trimmed(r)
    ensures |r| <= |s|
  {
    StripLeft(StripRight(s))
  }

  /** `StripLeft` is determined by its contract: it removes exactly a whitespace prefix. */
  lemma {:induction false} StripLeftOf(p: string, m: string)
    requires AllSpace(p)
    requires m == [] || !IsSpace(m[0])
    ensures StripLeft(p + m) == m
  {
    if p != [] {
      assert (p + m)[1..] == p[1..] + m;
      StripLeftOf(p[1..], m);
    } else {
      assert p + m == m;
    }
  }

  /** `StripRight` is determined by its contract: it removes exactly a whitespace suffix. */
  lemma {:induction false} StripRightOf(m: string, q: string)
    requires AllSpace(q)
    requires m == [] || !IsSpace(m[|m| - 1])
    ensures StripRight(m + q) == m
  {
    if q != [] {
      assert (m + q)[..|m + q| - 1] == m + q[..|q| - 1];
      StripRightOf(m, q[..|q| - 1]);
    } else {
      assert m + q == m;
    }
  }

  /**
   * `Strip` removes exactly the surrounding whitespace: whatever trimmed text
   * `m` is padded with on either side, stripping gives back `m`.
   */
  lemma StripOf(p: string, m: string, q: string)
    requires AllSpace(p) && AllSpace(q) && Trimmed(m)
    ensures Strip(p + m + q) == m
  {
    if m == [] {
      assert p + m + q == [] + (p + q);
      StripRightOf([], p + q);
      assert StripLeft([]) == [];
    } else {
      assert p + m + q == (p + m) + q;
      StripRightOf(p + m, q);
      StripLeftOf(p, m);
    }
  }

  /** Stripping twice is stripping once. */
  lemma StripIdempotent(s: string)
    ensures Strip(Strip(s)) == Strip(s)
  {
    var m := Strip(s);
    assert [] + m + [] == m;
    StripOf([], m, []);
  }

  /** `Strip(s)` is empty exactly when `s` is all whitespace. */
  lemma StripEmptyIff(s: string)
    ensures Strip(s) == [] <==> AllSpace(s)
  {
    if AllSpace(s) {
      assert s + [] + [] == s;
      StripOf(s, [], []);
    } else {
      var i :| 0 <= i < |s| && !IsSpace(s[i]);
      var rs := StripRight(s);
      forall k | |rs| <= k < |s| ensures IsSpace(s[k]) {
        assert s[|rs|..][k - |rs|] == s[k];
      }
      assert i < |rs| && rs[i] == s[i];
      var r := StripLeft(rs);
    }
  }

  /** Text between a fixed lead and a fixed tail can be read back from the whole. */
  lemma MiddleCancels(lead: string, x: string, y: string, mid: string, tail: string)
    requires lead + x + mid + tail == lead + y + mid + tail
    ensures x == y
  {
    var rx, ry := lead + x + mid + tail, lead + y + mid + tail;
    assert |x| == |y| by {
      assert |rx| == |lead| + |x| + |mid| + |tail|;
      assert |ry| == |lead| + |y| + |mid| + |tail|;
    }
    forall k | 0 <= k < |x| ensures x[k] == y[k] {
      assert rx[|lead| + k] == x[k];
      assert ry[|lead| + k] == y[k];
    }
  }

  /** `s.rstrip(c)`: drop every trailing occurrence of `c`. */
  function StripRightChar(s: string, c: char): (r: string)
    ensures |r| <= |s| && r == s[..|r|]
    ensures forall i :: |r| <= i < |s| ==> s[i] == c
    ensures r == [] || r[|r| - 1] != c
  {
    if |s| > 0 && s[|s| - 1] == c then StripRightChar(s[..|s| - 1], c) else s
  }

  /** Any run of `c` appended to `s` is dropped again by `rstrip(c)`. */
  lemma {:induction false} StripRightCharAppended(s: string, c: char, tail: string)
    requires forall i :: 0 <= i < |tail| ==> tail[i] == c
    ensures StripRightChar(s + tail, c) == StripRightChar(s, c)
  {
    if tail != [] {
      var shorter := tail[..|tail| - 1];
      assert (s + tail)[..|s + tail| - 1] == s + shorter;
      StripRightCharAppended(s, c, shorter);
    } else {
      assert s + tail == s;
    }
  }

  /** `c.lower()` for the ASCII letters; every other character is left as it is. */
  function LowerChar(c: char): (r: char)
    ensures !('A' <= r <= 'Z')
    ensures !('A' <= c <= 'Z') ==> r == c
    ensures 'A' <= c <= 'Z' ==> 'a' <= r <= 'z' && r as int - 'a' as int == c as int - 'A' as int
  {
    if 'A' <= c <= 'Z' then (c as int + 32) as char else c
  }

  /** `s.lower()`, character by character. */
  function Lower(s: string): (r: string)
    ensures |r| == |s|
    ensures forall i :: 0 <= i < |s| ==> r[i] == LowerChar(s[i])
  {
    seq(|s|, i requires 0 <= i < |s| => LowerChar(s[i]))
  }

  /** Lower-casing is idempotent, so comparisons of `Lower(x)` ignore case once and for all. */
  lemma LowerIdempotent(s: string)
    ensures Lower(Lower(s)) == Lower(s)
  {
  }

  /** Python truthiness of an optional string: set and not empty. */
  predicate Filled(o: Option<string>) {
    o.Some? && o.value != ""
  }
}
