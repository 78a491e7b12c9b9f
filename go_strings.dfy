/**
 * The parts of Go's string library that the facade relies on: strings.Join,
 * which builds the combined save error, and the order `<` that sort.Strings
 * uses. Go compares strings byte by byte; Dafny's `char` is a Unicode
 * scalar value, and UTF-8 preserves the order of code points, so comparing
 * characters gives the same order for every string that is valid UTF-8.
 */
module GoStrings {

  /** strings.Join: the elements in order, with `sep` between each adjacent pair. */
  function Join(elems: seq<string>, sep: string): string
  {
    if |elems| == 0 then ""
    else if |elems| == 1 then elems[0]
    else elems[0] + sep + Join(elems[1..], sep)
  }

  /**
   * strings.Split for a one-character separator: the pieces of `s` between
   * the occurrences of `sep`. There is always at least one piece.
   */
  function Split(s: string, sep: char): (pieces: seq<string>)
    ensures |pieces| > 0
  {
    if |s| == 0 then [""]
    else
      var rest := Split(s[1..], sep);
      if s[0] == sep then [""] + rest
      else [[s[0]] + rest[0]] + rest[1..]
  }

  /** A piece without separators glues onto the first piece of what follows it. */
  lemma {:induction false} SplitPrefix(m: string, rest: string, sep: char)
    requires sep !in m
    ensures Split(m + rest, sep) == [m + Split(rest, sep)[0]] + Split(rest, sep)[1..]
  {
    if |m| == 0 {
      var r := Split(rest, sep);
      assert m + rest == rest && m + r[0] == r[0];
      assert r == [r[0]] + r[1..];
    } else {
      assert (m + rest)[0] == m[0];
      assert (m + rest)[1..] == m[1..] + rest;
      SplitPrefix(m[1..], rest, sep);
      assert [m[0]] + (m[1..] + Split(rest, sep)[0]) == m + Split(rest, sep)[0];
    }
  }

  /**
   * Joining messages that contain no separator can be undone: splitting the
   * joined text at the separator gives back exactly the messages, in order.
   */
  lemma {:induction false} SplitJoin(ms: seq<string>, sep: char)
    requires |ms| > 0
    requires forall i :: 0 <= i < |ms| ==> sep !in ms[i]
    ensures Split(Join(ms, [sep]), sep) == ms
  {
    if |ms| == 1 {
      SplitPrefix(ms[0], "", sep);
      assert ms[0] + "" == ms[0];
    } else {
      var tail := Join(ms[1..], [sep]);
      SplitJoin(ms[1..], sep);
      assert Join(ms, [sep]) == ms[0] + ([sep] + tail);
      SplitPrefix(ms[0], [sep] + tail, sep);
      assert ([sep] + tail)[1..] == tail;
      assert Split([sep] + tail, sep) == [""] + ms[1..];
      assert ms[0] + "" == ms[0];
      assert ms == [ms[0]] + ms[1..];
    }
  }

  /** Go's `a <= b` on strings: lexicographic, a proper prefix first. */
  predicate LessEq(a: string, b: string)
  {
    if |a| == 0 then true
    else if |b| == 0 then false
    else if a[0] != b[0] then a[0] < b[0]
    else LessEq(a[1..], b[1..])
  }

  lemma {:induction false} LessEqReflexive(a: string)
    ensures LessEq(a, a)
  {
    if |a| > 0 {
      LessEqReflexive(a[1..]);
    }
  }

  lemma {:induction false} LessEqAntisymmetric(a: string, b: string)
    requires LessEq(a, b) && LessEq(b, a)
    ensures a == b
  {
    if |a| > 0 && |b| > 0 {
      LessEqAntisymmetric(a[1..], b[1..]);
      assert a == [a[0]] + a[1..] && b == [b[0]] + b[1..];
    }
  }

  lemma {:induction false} LessEqTransitive(a: string, b: string, c: string)
    requires LessEq(a, b) && LessEq(b, c)
    ensures LessEq(a, c)
  {
    if |a| > 0 && |b| > 0 && |c| > 0 && a[0] == b[0] && b[0] == c[0] {
      LessEqTransitive(a[1..], b[1..], c[1..]);
    }
  }

  lemma {:induction false} LessEqTotal(a: string, b: string)
    ensures LessEq(a, b) || LessEq(b, a)
  {
    if |a| > 0 && |b| > 0 && a[0] == b[0] {
      LessEqTotal(a[1..], b[1..]);
    }
  }
}
