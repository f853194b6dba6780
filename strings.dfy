/** Character-level helpers shared by the template parser and the header
    renderer: the longest run of characters outside a stop set (what a negated
    character class `[^...]+` consumes greedily), `str.split` on one
    character, and `str.join`. */
module Strings {

  ghost predicate Avoids(s: string, stop: set<char>) {
    forall i :: 0 <= i < |s| ==> s[i] !in stop
  }

  /** Length of the longest prefix of `s` made of characters outside `stop`. */
  function Span(s: string, stop: set<char>): (n: nat)
    ensures n <= |s|
    ensures Avoids(s[..n], stop)
    ensures n < |s| ==> s[n] in stop
  {
    if s == [] || s[0] in stop then 0
    else
      var n := 1 + Span(s[1..], stop);
      assert s[..n] == [s[0]] + s[1..][..n - 1];
      n
  }

  /** A run that avoids the stop set is consumed whole. */
  lemma {:induction false} SpanAppend(a: string, b: string, stop: set<char>)
    requires Avoids(a, stop)
    ensures Span(a + b, stop) == |a| + Span(b, stop)
  {
    if a == [] {
      assert a + b == b;
    } else {
      assert (a + b)[0] == a[0] && (a + b)[1..] == a[1..] + b;
      assert a[0] !in stop;
      SpanAppend(a[1..], b, stop);
    }
  }

  /** A run stops at the first occurrence of its only stop character. */
  lemma SpanTo(a: string, c: char, b: string)
    requires c !in a
    ensures Span(a + [c] + b, {c}) == |a|
    ensures (a + [c] + b)[..|a|] == a && (a + [c] + b)[|a| + 1..] == b
  {
    assert a + [c] + b == a + ([c] + b);
    SpanAppend(a, [c] + b, {c});
  }

  /** A character absent from a suffix is absent from each of its positions. */
  lemma NotInSuffix(s: string, k: nat, c: char)
    requires k <= |s| && c !in s[k..]
    ensures forall i :: k <= i < |s| ==> s[i] != c
  {
    forall i | k <= i < |s| ensures s[i] != c {
      assert s[i] == s[k..][i - k];
    }
  }

  /** `sep.join(parts)`. */
  function Join(parts: seq<string>, sep: string): string
  {
    if parts == [] then ""
    else if |parts| == 1 then parts[0]
    else parts[0] + sep + Join(parts[1..], sep)
  }

  /** `s.split(c)`: the maximal pieces between occurrences of `c`. */
  function Split(s: string, c: char): (parts: seq<string>)
    ensures |parts| >= 1
    ensures forall i :: 0 <= i < |parts| ==> c !in parts[i]
  {
    if s == [] then [""]
    else if s[0] == c then [""] + Split(s[1..], c)
    else
      var r := Split(s[1..], c);
      [[s[0]] + r[0]] + r[1..]
  }

  /** The first part opens the joined string. */
  lemma JoinCovers(parts: seq<string>, sep: string)
    ensures parts != [] ==> |Join(parts, sep)| >= |parts[0]|
  {
  }

  /** Splitting and joining with the same separator gives the string back. */
  lemma {:induction false} JoinSplit(s: string, c: char)
    ensures Join(Split(s, c), [c]) == s
  {
    if s != [] {
      JoinSplit(s[1..], c);
      var r := Split(s[1..], c);
      if s[0] == c {
        assert Split(s, c)[1..] == r;
      } else {
        var parts := Split(s, c);
        assert parts[1..] == r[1..];
        if |r| > 1 {
          assert Join(r, [c]) == r[0] + [c] + Join(r[1..], [c]);
        }
        assert s == [s[0]] + s[1..];
      }
    }
  }

  lemma {:induction false} JoinSnoc(xs: seq<string>, y: string, sep: string)
    requires xs != []
    ensures Join(xs + [y], sep) == Join(xs, sep) + sep + y
  {
    if |xs| > 1 {
      assert (xs + [y])[1..] == xs[1..] + [y];
      JoinSnoc(xs[1..], y, sep);
    }
  }

  /** Python's `s[:-1]`: every element but the last (nothing for an empty sequence). */
  function DropLast<T>(s: seq<T>): (r: seq<T>)
    ensures |r| == if s == [] then 0 else |s| - 1
    ensures forall i :: 0 <= i < |r| ==> r[i] == s[i]
  {
    if s == [] then [] else s[..|s| - 1]
  }

  /** Concatenation regroups freely. */
  lemma AppendAssoc<T>(a: seq<T>, b: seq<T>, c: seq<T>)
    ensures (a + b) + c == a + (b + c)
  {
  }
}
