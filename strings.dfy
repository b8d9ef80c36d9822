/**
 * Joining strings with a separator and splitting them back into fields.
 * `Join` is how query strings and script call texts are assembled; `Fields` is
 * the reference reading of such a text, used to state what was assembled.
 */
module Strings {

  /** The strings of `xs` with `sep` between consecutive ones. */
  function Join(xs: seq<string>, sep: string): string
  {
    if |xs| == 0 then ""
    else if |xs| == 1 then xs[0]
    else xs[0] + sep + Join(xs[1..], sep)
  }

  /** The pieces of `s` between occurrences of `sep`, in order, empty pieces kept. */
  function Fields(s: string, sep: char): (r: seq<string>)
    ensures |r| >= 1
    ensures forall i :: 0 <= i < |r| ==> sep !in r[i]
    decreases |s|
  {
    if |s| == 0 then [""]
    else
      var rest := Fields(s[1..], sep);
      if s[0] == sep then [""] + rest
      else [[s[0]] + rest[0]] + rest[1..]
  }

  /** `xs` with `pad` put in front of every element but the first. */
  function Padded(xs: seq<string>, pad: string): (r: seq<string>)
    requires |xs| >= 1
    ensures |r| == |xs| && r[0] == xs[0]
    ensures forall i :: 1 <= i < |xs| ==> r[i] == pad + xs[i]
  {
    [xs[0]] + seq(|xs| - 1, i requires 0 <= i < |xs| - 1 => pad + xs[i + 1])
  }

  /** A string without the separator is a single field. */
  lemma {:induction false} FieldsOfPlain(a: string, sep: char)
    requires sep !in a
    ensures Fields(a, sep) == [a]
    decreases |a|
  {
    if |a| > 0 {
      FieldsOfPlain(a[1..], sep);
      assert [a[0]] + a[1..] == a;
    }
  }

  /** Splitting at the first separator peels off the text before it. */
  lemma {:induction false} FieldsAfter(a: string, sep: char, b: string)
    requires sep !in a
    ensures Fields(a + [sep] + b, sep) == [a] + Fields(b, sep)
    decreases |a|
  {
    var s := a + [sep] + b;
    if |a| == 0 {
      assert s[1..] == b;
    } else {
      assert s[1..] == a[1..] + [sep] + b;
      FieldsAfter(a[1..], sep, b);
      assert [a[0]] + a[1..] == a;
    }
  }

  /** Splitting a joined list gives the list back, when no element holds the separator. */
  lemma {:induction false} FieldsOfJoin(xs: seq<string>, sep: char)
    requires |xs| >= 1
    requires forall i :: 0 <= i < |xs| ==> sep !in xs[i]
    ensures Fields(Join(xs, [sep]), sep) == xs
    decreases |xs|
  {
    if |xs| == 1 {
      FieldsOfPlain(xs[0], sep);
    } else {
      FieldsAfter(xs[0], sep, Join(xs[1..], [sep]));
      FieldsOfJoin(xs[1..], sep);
      assert [xs[0]] + xs[1..] == xs;
    }
  }

  /** Joining the fields of a string gives the string back. */
  lemma {:induction false} JoinOfFields(s: string, sep: char)
    ensures Join(Fields(s, sep), [sep]) == s
    decreases |s|
  {
    if |s| > 0 {
      var rest := Fields(s[1..], sep);
      JoinOfFields(s[1..], sep);
      if s[0] == sep {
        assert ([""] + rest)[1..] == rest;
        assert s == [sep] + s[1..];
      } else {
        var r := [[s[0]] + rest[0]] + rest[1..];
        if |rest| == 1 {
          assert s == [s[0]] + s[1..];
        } else {
          assert r[1..] == rest[1..];
          assert Join(rest, [sep]) == rest[0] + [sep] + Join(rest[1..], [sep]);
          assert s == [s[0]] + s[1..];
        }
      }
    }
  }

  /** Putting `p` in front of the first element puts it in front of the joined text. */
  lemma {:induction false} JoinPrefixFirst(p: string, x: string, rest: seq<string>, sep: string)
    ensures Join([p + x] + rest, sep) == p + Join([x] + rest, sep)
  {
    if |rest| > 0 {
      assert ([p + x] + rest)[1..] == rest;
      assert ([x] + rest)[1..] == rest;
    }
  }

  /**
   * Joining with a separator of several characters is joining with its first
   * character after padding every element but the first with the others.
   */
  lemma {:induction false} JoinWideSeparator(xs: seq<string>, c: char, pad: string)
    requires |xs| >= 1
    ensures Join(xs, [c] + pad) == Join(Padded(xs, pad), [c])
    decreases |xs|
  {
    if |xs| > 1 {
      var padded := Padded(xs, pad);
      var tail := Padded(xs[1..], pad);
      JoinWideSeparator(xs[1..], c, pad);
      assert padded[1..] == [pad + xs[1]] + tail[1..];
      assert tail == [xs[1]] + tail[1..];
      JoinPrefixFirst(pad, xs[1], tail[1..], [c]);
      calc {
        Join(padded, [c]);
        padded[0] + [c] + Join(padded[1..], [c]);
        xs[0] + [c] + (pad + Join(tail, [c]));
        xs[0] + ([c] + pad) + Join(tail, [c]);
        xs[0] + ([c] + pad) + Join(xs[1..], [c] + pad);
      }
    }
  }
}
