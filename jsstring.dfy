/** The JavaScript string built-ins the client and the server rely on:
    `String.prototype.trim`, `Array.prototype.join` over strings, and the
    lexicographic order in which strings compare (the order IndexedDB uses
    for string keys). Characters are compared as code points, where
    JavaScript compares UTF-16 code units; the two orders differ only for
    characters outside the Basic Multilingual Plane. */
module JsString {

  /** WhiteSpace and LineTerminator code points of ECMAScript: what `trim`
      removes from either end. */
  predicate IsWhitespace(c: char) {
    c == '\t' || c == '\n' || c == '\U{000B}' || c == '\U{000C}' || c == '\r' ||
    c == ' ' || c == '\U{00A0}' || c == '\U{1680}' ||
    ('\U{2000}' <= c <= '\U{200A}') ||
    c == '\U{2028}' || c == '\U{2029}' || c == '\U{202F}' || c == '\U{205F}' ||
    c == '\U{3000}' || c == '\U{FEFF}'
  }

  /** Every character of `s` is whitespace (the empty string included). */
  predicate IsBlank(s: string) {
    forall i | 0 <= i < |s| :: IsWhitespace(s[i])
  }

  /** `s` with its leading whitespace removed. */
  function TrimStart(s: string): (r: string)
    ensures |r| <= |s| && r == s[|s| - |r|..]
    ensures forall i | 0 <= i < |s| - |r| :: IsWhitespace(s[i])
    ensures r == [] || !IsWhitespace(r[0])
  {
    if s != [] && IsWhitespace(s[0]) then TrimStart(s[1..]) else s
  }

  /** `s` with its trailing whitespace removed. */
  function TrimEnd(s: string): (r: string)
    ensures |r| <= |s| && r == s[..|r|]
    ensures forall i | |r| <= i < |s| :: IsWhitespace(s[i])
    ensures r == [] || !IsWhitespace(r[|r| - 1])
  {
    if s != [] && IsWhitespace(s[|s| - 1]) then TrimEnd(s[..|s| - 1]) else s
  }

  /** `s.trim()`: a middle slice of `s`, empty exactly when `s` consists of
      whitespace only. */
  function Trim(s: string): (r: string)
    ensures |r| <= |s|
    ensures r == "" <==> IsBlank(s)
  {
    TrimEnd(TrimStart(s))
  }

  /** `xs.join(sep)`: empty for no elements, the element itself for one, and
      in general the layout `JoinPlacesElement` states. */
  function Join(xs: seq<string>, sep: string): (r: string)
    ensures xs == [] ==> r == ""
    ensures |xs| == 1 ==> r == xs[0]
  {
    if |xs| == 0 then ""
    else if |xs| == 1 then xs[0]
    else xs[0] + sep + Join(xs[1..], sep)
  }

  /** Where the `i`-th element starts in `Join(xs, sep)`: the lengths of the
      elements before it, each followed by one separator. */
  function JoinOffset(xs: seq<string>, sep: string, i: nat): nat
    requires i <= |xs|
  {
    if i == 0 then 0 else |xs[0]| + |sep| + JoinOffset(xs[1..], sep, i - 1)
  }

  /** `Join` lays the elements out in order: element `i` sits at
      `JoinOffset(xs, sep, i)`, followed by a separator when another element
      comes after it, and the next element starts just past that separator. */
  lemma {:induction false} JoinPlacesElement(xs: seq<string>, sep: string, i: nat)
    requires i < |xs|
    ensures i + 1 < |xs| ==> JoinOffset(xs, sep, i + 1) == JoinOffset(xs, sep, i) + |xs[i]| + |sep|
    ensures JoinOffset(xs, sep, i) + |xs[i]| + (if i + 1 < |xs| then |sep| else 0) <= |Join(xs, sep)|
    ensures Join(xs, sep)[JoinOffset(xs, sep, i)..JoinOffset(xs, sep, i) + |xs[i]|] == xs[i]
    ensures i + 1 < |xs| ==>
      Join(xs, sep)[JoinOffset(xs, sep, i) + |xs[i]|..JoinOffset(xs, sep, i) + |xs[i]| + |sep|] == sep
    ensures i + 1 == |xs| ==> JoinOffset(xs, sep, i) + |xs[i]| == |Join(xs, sep)|
  {
    if i == 0 {
      if |xs| > 1 {
        SliceOfConcat(xs[0], sep, Join(xs[1..], sep));
      }
    } else {
      var tail := xs[1..];
      JoinPlacesElement(tail, sep, i - 1);
      var pre := xs[0] + sep;
      var off := JoinOffset(tail, sep, i - 1);
      assert Join(xs, sep) == pre + Join(tail, sep);
      assert tail[i - 1] == xs[i];
      SliceAfterPrefix(pre, Join(tail, sep), off, off + |xs[i]|);
      if i + 1 < |xs| {
        SliceAfterPrefix(pre, Join(tail, sep), off + |xs[i]|, off + |xs[i]| + |sep|);
      }
    }
  }

  lemma SliceAfterPrefix(pre: string, s: string, x: nat, y: nat)
    requires x <= y <= |s|
    ensures (pre + s)[|pre| + x..|pre| + y] == s[x..y]
  {
  }

  lemma SliceOfConcat(a: string, b: string, c: string)
    ensures (a + b + c)[..|a|] == a && (a + b + c)[|a|..|a| + |b|] == b
  {
  }

  /** The same placement behind a fixed prefix. */
  lemma PrefixedJoinPlacesElement(prefix: string, xs: seq<string>, sep: string, i: nat)
    requires i < |xs|
    ensures var at := |prefix| + JoinOffset(xs, sep, i);
      at + |xs[i]| <= |prefix + Join(xs, sep)| && (prefix + Join(xs, sep))[at..at + |xs[i]|] == xs[i]
  {
    JoinPlacesElement(xs, sep, i);
    var off := JoinOffset(xs, sep, i);
    assert (prefix + Join(xs, sep))[|prefix| + off..|prefix| + off + |xs[i]|] == Join(xs, sep)[off..off + |xs[i]|];
  }

  /** JavaScript's `a < b` on strings, which is also IndexedDB's order on
      string keys: lexicographic by character, a proper prefix first. */
  predicate Less(a: string, b: string)
  {
    if a == [] then b != []
    else if b == [] then false
    else if a[0] != b[0] then a[0] < b[0]
    else Less(a[1..], b[1..])
  }

  /** Two strings that agree on their first `k` characters are ordered by
      what follows: the one that ends there sorts first, and otherwise the
      characters at position `k` decide. */
  lemma {:induction false} LessByFirstDifference(a: string, b: string, k: nat)
    requires k <= |a| && k <= |b| && a[..k] == b[..k]
    ensures k == |a| < |b| ==> Less(a, b)
    ensures k == |b| ==> !Less(a, b)
    ensures k < |a| && k < |b| && a[k] != b[k] ==> (Less(a, b) <==> a[k] < b[k])
  {
    if k > 0 {
      assert a[0] == a[..k][0] == b[..k][0] == b[0];
      assert a[1..][..k - 1] == a[..k][1..] == b[..k][1..] == b[1..][..k - 1];
      LessByFirstDifference(a[1..], b[1..], k - 1);
    }
  }

  lemma {:induction false} LessIrreflexive(a: string)
    ensures !Less(a, a)
  {
    if a != [] {
      LessIrreflexive(a[1..]);
    }
  }

  lemma {:induction false} LessAsymmetric(a: string, b: string)
    ensures !(Less(a, b) && Less(b, a))
  {
    if a != [] && b != [] && a[0] == b[0] {
      LessAsymmetric(a[1..], b[1..]);
    }
  }

  lemma {:induction false} LessTotal(a: string, b: string)
    ensures a == b || Less(a, b) || Less(b, a)
  {
    if a != [] && b != [] && a[0] == b[0] {
      LessTotal(a[1..], b[1..]);
      if a[1..] == b[1..] {
        assert a == [a[0]] + a[1..] && b == [b[0]] + b[1..];
      }
    }
  }

  lemma {:induction false} LessTransitive(a: string, b: string, c: string)
    requires Less(a, b) && Less(b, c)
    ensures Less(a, c)
  {
    if a != [] && a[0] == b[0] && b[0] == c[0] {
      LessTransitive(a[1..], b[1..], c[1..]);
    }
  }
}
