/**
 * The few Python `str` operations the pure pieces of the fake-data generator
 * rely on: `isspace`, `strip()`, `replace(" ", "_")`, `sep.join(items)` and
 * `lower()` on ASCII labels.
 */
module PyStr {

  /** The characters Python's `str.isspace` accepts: the Unicode White_Space
      set together with the ASCII separators U+001C..U+001F. */
  const Whitespace: set<char> := {
    ' ', '\t', '\n', '\r', '\U{0B}', '\U{0C}',
    '\U{1C}', '\U{1D}', '\U{1E}', '\U{1F}', '\U{85}', '\U{A0}', '\U{1680}',
    '\U{2000}', '\U{2001}', '\U{2002}', '\U{2003}', '\U{2004}', '\U{2005}',
    '\U{2006}', '\U{2007}', '\U{2008}', '\U{2009}', '\U{200A}',
    '\U{2028}', '\U{2029}', '\U{202F}', '\U{205F}', '\U{3000}'
  }

  /** Python's `str.isspace` on one character. */
  predicate IsSpace(c: char) {
    c in Whitespace
  }

  /** Every character is whitespace; `s.strip()` is then falsy. */
  predicate Blank(s: string) {
    forall i :: 0 <= i < |s| ==> IsSpace(s[i])
  }

  /** Neither end of `t` is whitespace. */
  predicate Unpadded(t: string) {
    t == [] || (!IsSpace(t[0]) && !IsSpace(t[|t| - 1]))
  }

  /** The index of the first non-whitespace character at or after `i`, or
      `|s|`: the forward scan of Python's `strip()`. */
  function SkipLeading(s: string, i: nat): (k: nat)
    requires i <= |s|
    ensures i <= k <= |s|
    ensures forall j :: i <= j < k ==> IsSpace(s[j])
    ensures k == |s| || !IsSpace(s[k])
    decreases |s| - i
  {
    if i < |s| && IsSpace(s[i]) then SkipLeading(s, i + 1) else i
  }

  /** The end of the text once the whitespace before `j` is dropped, never
      going below `lo`: the backward scan of Python's `strip()`. */
  function SkipTrailing(s: string, lo: nat, j: nat): (k: nat)
    requires lo <= j <= |s|
    ensures lo <= k <= j
    ensures forall m :: k <= m < j ==> IsSpace(s[m])
    ensures k == lo || !IsSpace(s[k - 1])
    decreases j - lo
  {
    if j > lo && IsSpace(s[j - 1]) then SkipTrailing(s, lo, j - 1) else j
  }

  /** How many leading characters `strip()` removes. */
  function LeadingBlanks(s: string): nat
    ensures LeadingBlanks(s) <= |s|
  {
    SkipLeading(s, 0)
  }

  /** Python's `s.strip()`: drop leading and trailing whitespace. */
  function Strip(s: string): (r: string)
    ensures |r| <= |s|
    ensures Unpadded(r)
    ensures r == [] <==> Blank(s)
  {
    var a := SkipLeading(s, 0);
    var b := SkipTrailing(s, a, |s|);
    assert Blank(s[a..b]) ==> a == b by {
      if a < b {
        assert s[a..b][0] == s[a];
      }
    }
    s[a..b]
  }

  /** The forward scan stops exactly at the first non-blank index `k`. */
  lemma {:induction false} SkipLeadingAt(s: string, i: nat, k: nat)
    requires i <= k <= |s|
    requires forall j :: i <= j < k ==> IsSpace(s[j])
    requires k == |s| || !IsSpace(s[k])
    ensures SkipLeading(s, i) == k
    decreases k - i
  {
    if i < k {
      SkipLeadingAt(s, i + 1, k);
    }
  }

  /** The backward scan stops exactly after the last non-blank index. */
  lemma {:induction false} SkipTrailingAt(s: string, lo: nat, j: nat, k: nat)
    requires lo <= k <= j <= |s|
    requires forall m :: k <= m < j ==> IsSpace(s[m])
    requires k == lo || !IsSpace(s[k - 1])
    ensures SkipTrailing(s, lo, j) == k
    decreases j - k
  {
    if k < j {
      SkipTrailingAt(s, lo, j - 1, k);
    }
  }

  /** `s` splits into a blank prefix, `Strip(s)`, and a blank suffix. */
  lemma StripDecomposes(s: string)
    ensures var k, r := LeadingBlanks(s), Strip(s);
      k + |r| <= |s|
        && s == s[..k] + r + s[k + |r|..]
        && Blank(s[..k]) && Blank(s[k + |r|..])
  {
    var a := SkipLeading(s, 0);
    var b := SkipTrailing(s, a, |s|);
    assert s == s[..a] + s[a..b] + s[b..];
  }

  /** Strip is the unique unpadded middle between two blank ends: together
      with `StripDecomposes`, the full specification of Python's `strip()`. */
  lemma StripUnique(p: string, t: string, q: string)
    requires Blank(p) && Blank(q) && Unpadded(t)
    ensures Strip(p + t + q) == t
  {
    var s := p + t + q;
    var a, b := |p|, |p| + |t|;
    if t == [] {
      assert forall j :: 0 <= j < |s| ==> s[j] == (if j < a then p[j] else q[j - a]);
    } else {
      assert forall j :: 0 <= j < a ==> s[j] == p[j];
      assert s[a] == t[0];
      SkipLeadingAt(s, 0, a);
      assert forall m :: b <= m < |s| ==> s[m] == q[m - b];
      assert s[b - 1] == t[|t| - 1];
      SkipTrailingAt(s, a, |s|, b);
      assert s[a..b] == t;
    }
  }

  /** A string without surrounding whitespace is its own strip. */
  lemma StripUnpadded(x: string)
    requires Unpadded(x)
    ensures Strip(x) == x
  {
    StripUnique([], x, []);
    assert [] + x + [] == x;
  }

  /** Stripping twice is stripping once. */
  lemma StripIdempotent(s: string)
    ensures Strip(Strip(s)) == Strip(s)
  {
    StripUnique([], Strip(s), []);
    assert [] + Strip(s) + [] == Strip(s);
  }

  /** Python's `s.replace(" ", "_")`. */
  function ReplaceSpaces(s: string): (r: string)
    ensures |r| == |s|
    ensures ' ' !in r
    ensures forall i :: 0 <= i < |s| ==> r[i] == (if s[i] == ' ' then '_' else s[i])
  {
    if s == [] then []
    else [if s[0] == ' ' then '_' else s[0]] + ReplaceSpaces(s[1..])
  }

  /** `sep.join(items)`: nothing for no items; otherwise it starts with the
      first item. */
  function Join(sep: string, items: seq<string>): (r: string)
    ensures items == [] ==> r == []
    ensures items != [] ==> items[0] <= r
  {
    if |items| == 0 then ""
    else if |items| == 1 then items[0]
    else
      var r := items[0] + sep + Join(sep, items[1..]);
      assert r[..|items[0]|] == items[0];
      r
  }

  /** A non-empty join ends with the last item. */
  lemma {:induction false} JoinEndsWithLast(sep: string, items: seq<string>)
    requires items != []
    ensures var r, last := Join(sep, items), items[|items| - 1];
      |last| <= |r| && r[|r| - |last|..] == last
  {
    if |items| > 1 {
      JoinEndsWithLast(sep, items[1..]);
      var rest := Join(sep, items[1..]);
      var r := items[0] + sep + rest;
      assert r[|r| - |rest|..] == rest;
    }
  }

  /** Sum of the lengths of `items`. */
  function TotalLength(items: seq<string>): nat {
    if items == [] then 0 else |items[0]| + TotalLength(items[1..])
  }

  /** Joining appends one separator between each neighbouring pair. */
  lemma {:induction false} JoinLength(sep: string, items: seq<string>)
    requires items != []
    ensures |Join(sep, items)| == TotalLength(items) + (|items| - 1) * |sep|
  {
    if |items| > 1 {
      JoinLength(sep, items[1..]);
    }
  }

  /** Joining a longer list extends the joined string by a separator and the new item. */
  lemma {:induction false} JoinSnoc(sep: string, items: seq<string>, x: string)
    requires items != []
    ensures Join(sep, items + [x]) == Join(sep, items) + sep + x
  {
    if |items| == 1 {
      assert (items + [x])[1..] == [x];
    } else {
      assert (items + [x])[1..] == items[1..] + [x];
      JoinSnoc(sep, items[1..], x);
    }
  }

  /** With a non-empty separator, the join is empty exactly when there is
      nothing to join or the only item is empty. */
  lemma JoinEmptyIff(sep: string, items: seq<string>)
    requires sep != []
    ensures Join(sep, items) == [] <==> items == [] || (|items| == 1 && items[0] == [])
  {
  }

  /** `c.lower()` for an ASCII character; other characters are kept. */
  function LowerChar(c: char): char {
    if 'A' <= c <= 'Z' then (c as int + 32) as char else c
  }

  /** ASCII `str.lower()`; the labels it is applied to are ASCII. */
  function Lower(s: string): (r: string)
    ensures |r| == |s|
    ensures forall i :: 0 <= i < |s| ==> r[i] == LowerChar(s[i])
  {
    seq(|s|, i requires 0 <= i < |s| => LowerChar(s[i]))
  }
}
