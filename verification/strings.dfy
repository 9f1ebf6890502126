/** The Python string operations the sinks rely on: left-justified padding in a
    format spec and `sep.join`. Splitting at a separator and trimming trailing
    spaces are not done by the sinks; they are the readings that invert the
    join and the padding, used to state round trips. */
module Strings {
  import opened Options

  /** k copies of c: the fill of a padded field. */
  function Repeat(c: char, k: nat): (s: string)
    ensures |s| == k && forall i :: 0 <= i < k ==> s[i] == c
  {
    seq(k, _ => c)
  }

  /** `f"{s:{width}}"` for a str: s left-aligned and filled with spaces up to
      `width` columns; a longer s is kept whole, never truncated. */
  function LeftJustify(s: string, width: nat): (r: string)
    ensures |r| == if |s| < width then width else |s|
    ensures r[..|s|] == s
    ensures forall i :: |s| <= i < |r| ==> r[i] == ' '
  {
    s + Repeat(' ', if |s| < width then width - |s| else 0)
  }

  /** `sep.join(parts)`: the parts in order with one separator between
      neighbours, none before the first or after the last. */
  function Join(parts: seq<string>, sep: char): string
  {
    if |parts| == 0 then ""
    else if |parts| == 1 then parts[0]
    else parts[0] + [sep] + Join(parts[1..], sep)
  }

  /** The text before the first `sep` and the text after it, if `sep` occurs. */
  function SplitAt(s: string, sep: char): (r: Option<(string, string)>)
    ensures r.None? <==> sep !in s
    ensures r.Some? ==> s == r.value.0 + [sep] + r.value.1 && sep !in r.value.0
  {
    if s == [] then None
    else if s[0] == sep then Some(([], s[1..]))
    else match SplitAt(s[1..], sep)
      case None => None
      case Some((a, b)) => Some(([s[0]] + a, b))
  }

  /** Reads a joined text back (it behaves as Python's `s.split(sep)`): the
      maximal pieces of s that do not contain `sep`. */
  function Split(s: string, sep: char): (parts: seq<string>)
    ensures |parts| >= 1
    decreases |s|
  {
    match SplitAt(s, sep)
    case None => [s]
    case Some((a, b)) => [a] + Split(b, sep)
  }

  /** Splitting at the separator finds the first occurrence, whatever follows it. */
  lemma {:induction false} SplitAtFirst(a: string, sep: char, b: string)
    requires sep !in a
    ensures SplitAt(a + [sep] + b, sep) == Some((a, b))
  {
    var s := a + [sep] + b;
    if a == [] {
      assert s[1..] == b;
    } else {
      assert s[0] == a[0] && s[1..] == a[1..] + [sep] + b;
      SplitAtFirst(a[1..], sep, b);
      assert [a[0]] + a[1..] == a;
    }
  }

  /** Joining pieces that contain no separator and splitting again gives the
      pieces back: the join loses nothing and adds no separator of its own. */
  lemma {:induction false} SplitJoin(parts: seq<string>, sep: char)
    requires |parts| >= 1
    requires forall i :: 0 <= i < |parts| ==> sep !in parts[i]
    ensures Split(Join(parts, sep), sep) == parts
  {
    if |parts| > 1 {
      SplitAtFirst(parts[0], sep, Join(parts[1..], sep));
      SplitJoin(parts[1..], sep);
    }
  }

  /** Splitting and joining again gives back any string. */
  lemma {:induction false} JoinSplit(s: string, sep: char)
    ensures Join(Split(s, sep), sep) == s
    decreases |s|
  {
    match SplitAt(s, sep)
    case None =>
    case Some((a, b)) =>
      JoinSplit(b, sep);
      var rest := Split(b, sep);
      assert Split(s, sep) == [a] + rest;
      assert ([a] + rest)[1..] == rest;
  }

  /** Removing one trailing part of a join leaves the join of the others. */
  lemma {:induction false} JoinSnoc(parts: seq<string>, sep: char, last: string)
    requires |parts| >= 1
    ensures Join(parts + [last], sep) == Join(parts, sep) + [sep] + last
  {
    if |parts| > 1 {
      assert (parts + [last])[1..] == parts[1..] + [last];
      JoinSnoc(parts[1..], sep, last);
    }
  }

  /** Reads a padded field back (it behaves as Python's `s.rstrip(" ")`): s
      without its trailing spaces. */
  function TrimRight(s: string): (r: string)
    ensures |r| <= |s| && r == s[..|r|]
    ensures r == [] || r[|r| - 1] != ' '
    ensures forall i :: |r| <= i < |s| ==> s[i] == ' '
  {
    if s != [] && s[|s| - 1] == ' ' then TrimRight(s[..|s| - 1]) else s
  }

  /** Trimming undoes left-justification of text that does not end in a space. */
  lemma {:induction false} TrimLeftJustified(s: string, width: nat)
    requires s == [] || s[|s| - 1] != ' '
    ensures TrimRight(LeftJustify(s, width)) == s
  {
  }
}
