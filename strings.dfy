/**
 * JavaScript's `String.prototype.split` with a one-character separator and
 * `Array.prototype.join`, as the route handlers use them to take a file
 * extension and a storage path apart.
 */
module Strings {

  /** `s.split(sep)`: the maximal pieces of `s` between occurrences of `sep`. */
  function Split(s: string, sep: char): (parts: seq<string>)
    ensures |parts| >= 1
    ensures forall i :: 0 <= i < |parts| ==> sep !in parts[i]
    decreases |s|
  {
    if |s| == 0 then [""]
    else
      var rest := Split(s[1..], sep);
      if s[0] == sep then [""] + rest
      else [[s[0]] + rest[0]] + rest[1..]
  }

  /** `parts.join(sep)`. */
  function Join(parts: seq<string>, sep: char): string
    decreases |parts|
  {
    if |parts| == 0 then ""
    else if |parts| == 1 then parts[0]
    else parts[0] + [sep] + Join(parts[1..], sep)
  }

  /** `parts.pop()` on a non-empty array: its last element. */
  function Last(parts: seq<string>): string
    requires |parts| >= 1
  {
    parts[|parts| - 1]
  }

  /** Text cut at the first occurrence of a character: both sides are determined. */
  lemma SplitAtFirst(a1: string, b1: string, a2: string, b2: string, c: char)
    requires c !in a1 && c !in a2
    requires a1 + [c] + b1 == a2 + [c] + b2
    ensures a1 == a2 && b1 == b2
  {
    var s := a1 + [c] + b1;
    assert s[|a1|] == c;
    assert s[|a2|] == c;
    assert a1 == s[..|a1|] == a2;
    assert b1 == s[|a1| + 1..] == b2;
  }

  /** Joining a tail of the pieces gives a suffix of joining them all. */
  lemma {:induction false} JoinSuffix(parts: seq<string>, k: nat, sep: char)
    requires k < |parts|
    ensures var whole, tail := Join(parts, sep), Join(parts[k..], sep);
      |tail| <= |whole| && whole[|whole| - |tail|..] == tail
    decreases k
  {
    if k > 0 {
      JoinSuffix(parts[1..], k - 1, sep);
      assert parts[1..][k - 1..] == parts[k..];
      var whole, rest, tail := Join(parts, sep), Join(parts[1..], sep), Join(parts[k..], sep);
      assert whole == parts[0] + [sep] + rest;
      assert whole[|whole| - |rest|..] == rest;
      assert whole[|whole| - |tail|..] == rest[|rest| - |tail|..];
    }
  }

  /** Splitting and joining again gives back the original text. */
  lemma {:induction false} JoinSplit(s: string, sep: char)
    ensures Join(Split(s, sep), sep) == s
    decreases |s|
  {
    if |s| > 0 {
      var rest := Split(s[1..], sep);
      JoinSplit(s[1..], sep);
      if s[0] == sep {
        assert s == [sep] + s[1..];
      } else if |rest| == 1 {
        assert s == [s[0]] + s[1..];
      } else {
        assert Join(rest, sep) == rest[0] + [sep] + Join(rest[1..], sep);
        assert s == [s[0]] + s[1..];
      }
    }
  }

  /** Text without a separator splits into itself alone. */
  lemma {:induction false} SplitNoSeparator(s: string, sep: char)
    requires sep !in s
    ensures Split(s, sep) == [s]
    decreases |s|
  {
    if |s| > 0 {
      SplitNoSeparator(s[1..], sep);
      assert s == [s[0]] + s[1..];
    }
  }

  /** Splitting at one separator splits each side independently. */
  lemma {:induction false} SplitConcat(a: string, b: string, sep: char)
    ensures Split(a + [sep] + b, sep) == Split(a, sep) + Split(b, sep)
    decreases |a|
  {
    if |a| == 0 {
      assert a + [sep] + b == [sep] + b;
      assert (a + [sep] + b)[1..] == b;
    } else {
      var s := a + [sep] + b;
      assert s[0] == a[0];
      assert s[1..] == a[1..] + [sep] + b;
      SplitConcat(a[1..], b, sep);
    }
  }

  /**
   * The last piece of a split is the text after the last separator: a
   * suffix of `s` without `sep`, preceded by `sep` unless it is all of `s`,
   * and it is all of `s` exactly when `s` has no separator.
   */
  lemma {:induction false} SplitLastIsSuffix(s: string, sep: char)
    ensures var l := Last(Split(s, sep));
      && |l| <= |s| && s[|s| - |l|..] == l && sep !in l
      && (|l| < |s| ==> s[|s| - |l| - 1] == sep)
      && (|l| == |s| <==> sep !in s)
    decreases |s|
  {
    if |s| > 0 {
      var rest := Split(s[1..], sep);
      SplitLastIsSuffix(s[1..], sep);
      if sep !in s[1..] {
        SplitNoSeparator(s[1..], sep);
      }
      if s[0] != sep && |rest| == 1 {
        JoinSplit(s[1..], sep);
        assert rest[0] == s[1..];
        assert s == [s[0]] + s[1..];
      }
    }
  }
}
