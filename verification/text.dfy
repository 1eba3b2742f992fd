/** The parts of Python's `str` used by the wizard and the colour label: `strip()`,
    `startswith()` and splitting on a separator character. */
module Text {

  /** Python's `str.isspace()` for one character. */
  predicate IsSpace(c: char) {
    var n := c as int;
    || (0x09 <= n <= 0x0D)
    || (0x1C <= n <= 0x20)
    || n == 0x85 || n == 0xA0 || n == 0x1680
    || (0x2000 <= n <= 0x200A)
    || n == 0x2028 || n == 0x2029 || n == 0x202F || n == 0x205F || n == 0x3000
  }

  predicate AllSpace(s: string) {
    forall i | 0 <= i < |s| :: IsSpace(s[i])
  }

  function StripLeft(s: string): (t: string)
    ensures |t| <= |s| && t == s[|s| - |t|..]
    ensures AllSpace(s[..|s| - |t|])
    ensures t == [] || !IsSpace(t[0])
  {
    if |s| > 0 && IsSpace(s[0]) then StripLeft(s[1..]) else s
  }

  function StripRight(s: string): (t: string)
    ensures |t| <= |s| && t == s[..|t|]
    ensures AllSpace(s[|t|..])
    ensures t == [] || !IsSpace(t[|t| - 1])
  {
    if |s| > 0 && IsSpace(s[|s| - 1]) then
      var u := s[..|s| - 1];
      var t := StripRight(u);
      assert s[|t|..] == u[|t|..] + [s[|s| - 1]];
      t
    else s
  }

  /** `s.strip()`: whitespace removed from both ends. */
  function Strip(s: string): (t: string)
    ensures t == [] || (!IsSpace(t[0]) && !IsSpace(t[|t| - 1]))
  {
    var l := StripLeft(s);
    var t := StripRight(l);
    assert t == [] || t[0] == l[0];
    t
  }

  /** Where the result of `Strip` begins inside `s`. */
  function StripStart(s: string): nat {
    |s| - |StripLeft(s)|
  }

  lemma SuffixSlices(s: string, i: nat, n: nat)
    requires i + n <= |s|
    ensures s[i..][..n] == s[i..i + n] && s[i..][n..] == s[i + n..]
  {
  }

  /** The result of `Strip` is the infix of `s` at `StripStart(s)`. */
  lemma StripInfix(s: string)
    ensures StripStart(s) + |Strip(s)| <= |s|
    ensures s[StripStart(s)..StripStart(s) + |Strip(s)|] == Strip(s)
  {
    var l := StripLeft(s);
    var t := StripRight(l);
    var i := |s| - |l|;
    assert Strip(s) == t && StripStart(s) == i;
    assert l == s[i..] && t == l[..|t|];
    SuffixSlices(s, i, |t|);
  }

  lemma SuffixTail(s: string, l: string, n: nat)
    requires |l| <= |s| && l == s[|s| - |l|..] && n <= |l|
    ensures s[|s| - |l| + n..] == l[n..]
  {
  }

  /** Everything after the result of `Strip` is whitespace. */
  lemma StripTailSpace(s: string)
    ensures StripStart(s) + |Strip(s)| <= |s|
    ensures AllSpace(s[StripStart(s) + |Strip(s)|..])
  {
    var l := StripLeft(s);
    var t := StripRight(l);
    assert Strip(s) == t && StripStart(s) == |s| - |l|;
    SuffixTail(s, l, |t|);
  }

  /** What `Strip` cuts away is whitespace, from the two ends only: the result is the infix
      of `s` at `StripStart(s)`, with nothing but whitespace before and after it. */
  lemma StripCutsSpace(s: string)
    ensures StripStart(s) + |Strip(s)| <= |s|
    ensures s[StripStart(s)..StripStart(s) + |Strip(s)|] == Strip(s)
    ensures AllSpace(s[..StripStart(s)]) && AllSpace(s[StripStart(s) + |Strip(s)|..])
  {
    StripInfix(s);
    StripTailSpace(s);
  }

  /** A string without surrounding whitespace is left as it is. */
  lemma StripTrimmed(s: string)
    requires s == [] || (!IsSpace(s[0]) && !IsSpace(s[|s| - 1]))
    ensures Strip(s) == s
  {
  }

  /** `s.startswith(p)`. */
  predicate StartsWith(s: string, p: string) {
    p <= s
  }

  /** `s.split(d)` for a single separator character. */
  function SplitOn(s: string, d: char): (parts: seq<string>)
    ensures 0 < |parts|
    ensures forall i | 0 <= i < |parts| :: d !in parts[i]
  {
    if |s| == 0 then [""]
    else if s[0] == d then [""] + SplitOn(s[1..], d)
    else
      var rest := SplitOn(s[1..], d);
      [[s[0]] + rest[0]] + rest[1..]
  }

  lemma {:induction false} SplitOnNoSeparator(a: string, d: char)
    requires d !in a
    ensures SplitOn(a, d) == [a]
  {
    if |a| > 0 {
      assert d !in a[1..];
      SplitOnNoSeparator(a[1..], d);
      assert a[0] != d;
      assert [a[0]] + a[1..] == a;
    }
  }

  lemma {:induction false} SplitOnFirstSeparator(a: string, d: char, b: string)
    requires d !in a
    ensures SplitOn(a + [d] + b, d) == [a] + SplitOn(b, d)
  {
    var s := a + [d] + b;
    if |a| == 0 {
      assert s[1..] == b;
    } else {
      assert s[1..] == a[1..] + [d] + b;
      assert d !in a[1..];
      SplitOnFirstSeparator(a[1..], d, b);
      assert [a[0]] + a[1..] == a;
    }
  }
}
