/** String operations with Python's meaning. The chat pipeline itself uses
    slicing `s[:n]` (`Take`) and `sep.join(parts)` (`Join`). `s.split(sep)`
    (`Split`) and `x in s` (`Occurs`) are not called by the pipeline: they
    are here only to state what a joined text contains, and the lemmas below
    say when splitting a joined string gives the parts back. */
module Text {

  /** The first `n` elements of `s`, or all of them when there are fewer
      (Python's `s[:n]`, and the `limit(n)` of a database cursor). */
  function Take<T>(s: seq<T>, n: nat): (r: seq<T>)
    ensures |r| == if |s| <= n then |s| else n
    ensures r <= s
    ensures r == s <==> |s| <= n
  {
    if |s| <= n then s else s[..n]
  }

  /** Python's `sep.join(parts)`. */
  function Join(sep: string, parts: seq<string>): (r: string)
    ensures |parts| == 0 ==> r == ""
    ensures |parts| > 0 ==> parts[0] <= r
    decreases |parts|
  {
    if |parts| == 0 then ""
    else if |parts| == 1 then parts[0]
    else parts[0] + sep + Join(sep, parts[1..])
  }

  /** Python's `x in s`: `x` is a contiguous piece of `s`. */
  predicate Occurs(x: string, s: string)
    decreases |s|
  {
    |x| <= |s| && (s[..|x|] == x || (|s| > 0 && Occurs(x, s[1..])))
  }

  /** Python's `s.split(sep)` for a non-empty separator: scanning from the
      left, `s` is cut at every occurrence of `sep`, which is dropped. */
  function Split(s: string, sep: string): (r: seq<string>)
    requires |sep| > 0
    ensures |r| >= 1
    decreases |s|
  {
    if |s| < |sep| then [s]
    else if s[..|sep|] == sep then [""] + Split(s[|sep|..], sep)
    else
      var t := Split(s[1..], sep);
      [[s[0]] + t[0]] + t[1..]
  }

  /** The pieces of a split at line breaks hold no line break. */
  lemma {:induction false} SplitLinesHaveNoBreak(s: string)
    ensures forall k :: 0 <= k < |Split(s, "\n")| ==> '\n' !in Split(s, "\n")[k]
    decreases |s|
  {
    if |s| >= 1 {
      SplitLinesHaveNoBreak(s[1..]);
      if s[..1] != "\n" {
        assert s[0] != '\n' by { assert s[..1] == [s[0]]; }
        var t := Split(s[1..], "\n");
        var r := Split(s, "\n");
        assert r == [[s[0]] + t[0]] + t[1..];
        forall k | 0 <= k < |r|
          ensures '\n' !in r[k]
        {
          if k > 0 {
            assert r[k] == t[k];
          }
        }
      }
    }
  }

  /** `p` can be told apart from a following `sep`: no occurrence of `sep`
      starts inside `p`, not even one that runs on into the separator. */
  predicate Separable(p: string, sep: string)
    requires |sep| > 0
  {
    !Occurs(sep, p + sep[..|sep| - 1])
  }

  lemma {:induction false} OccursInMiddle(x: string, a: string, b: string)
    ensures Occurs(x, a + x + b)
    decreases |a|
  {
    if |a| > 0 {
      assert (a + x + b)[1..] == a[1..] + x + b;
      OccursInMiddle(x, a[1..], b);
    } else {
      assert (a + x + b)[..|x|] == x;
    }
  }

  lemma {:induction false} OccursExtends(x: string, s: string, t: string)
    requires Occurs(x, s)
    ensures Occurs(x, s + t)
    decreases |s|
  {
    if (s + t)[..|x|] != x {
      assert s[..|x|] == (s + t)[..|x|];
      assert (s + t)[1..] == s[1..] + t;
      OccursExtends(x, s[1..], t);
    }
  }

  lemma {:induction false} OccursPrefixed(x: string, a: string, s: string)
    requires Occurs(x, s)
    ensures Occurs(x, a + s)
    decreases |a|
  {
    if |a| > 0 {
      assert (a + s)[1..] == a[1..] + s;
      OccursPrefixed(x, a[1..], s);
    } else {
      assert a + s == s;
    }
  }

  lemma OccursInItself(x: string)
    ensures Occurs(x, x)
  {
    assert x[..|x|] == x;
  }

  /** Every element of an occurrence of `x` in `s` is an element of `s`. */
  lemma {:induction false} OccurrenceInside(x: string, s: string, c: char)
    requires Occurs(x, s) && c in x
    ensures c in s
    decreases |s|
  {
    if s[..|x|] != x {
      OccurrenceInside(x, s[1..], c);
    }
  }

  /** What occurs in a part of a joined string occurs in the joined string. */
  lemma OccursInJoin(x: string, sep: string, parts: seq<string>, k: nat)
    requires k < |parts|
    requires Occurs(x, parts[k])
    ensures Occurs(x, Join(sep, parts))
  {
    var before, after := JoinHasPart(sep, parts, k);
    OccursPrefixed(x, before, parts[k]);
    OccursExtends(x, before + parts[k], after);
  }

  /** A string in which `sep` does not occur splits into itself alone. */
  lemma {:induction false} SplitWithoutSeparator(s: string, sep: string)
    requires |sep| > 0
    requires !Occurs(sep, s)
    ensures Split(s, sep) == [s]
    decreases |s|
  {
    if |s| >= |sep| {
      SplitWithoutSeparator(s[1..], sep);
      assert [s[0]] + s[1..] == s;
    }
  }

  /** Splitting stops at the separator that follows a separable piece. */
  lemma {:induction false} SplitAtFirst(p: string, sep: string, rest: string)
    requires |sep| > 0
    requires Separable(p, sep)
    ensures Split(p + sep + rest, sep) == [p] + Split(rest, sep)
    decreases |p|
  {
    var s := p + sep + rest;
    var q := p + sep[..|sep| - 1];
    if |p| == 0 {
      assert s[..|sep|] == sep;
      assert s[|sep|..] == rest;
    } else {
      assert s[..|sep|] == q[..|sep|];
      assert q[1..] == p[1..] + sep[..|sep| - 1];
      assert s[1..] == p[1..] + sep + rest;
      SplitAtFirst(p[1..], sep, rest);
      assert [p[0]] + p[1..] == p;
    }
  }

  /** Round trip: splitting a join of separable parts gives the parts back. */
  lemma {:induction false} SplitJoin(sep: string, parts: seq<string>)
    requires |sep| > 0
    requires |parts| > 0
    requires forall i :: 0 <= i < |parts| ==> Separable(parts[i], sep)
    ensures Split(Join(sep, parts), sep) == parts
    decreases |parts|
  {
    if |parts| == 1 {
      if Occurs(sep, parts[0]) {
        OccursExtends(sep, parts[0], sep[..|sep| - 1]);
      }
      SplitWithoutSeparator(parts[0], sep);
    } else {
      SplitAtFirst(parts[0], sep, Join(sep, parts[1..]));
      SplitJoin(sep, parts[1..]);
    }
  }

  /** Every part stands whole inside the joined string. */
  lemma {:induction false} JoinHasPart(sep: string, parts: seq<string>, k: nat)
    returns (before: string, after: string)
    requires k < |parts|
    ensures Join(sep, parts) == before + parts[k] + after
    decreases k
  {
    if k == 0 {
      before := "";
      after := if |parts| == 1 then "" else sep + Join(sep, parts[1..]);
    } else {
      var b, a := JoinHasPart(sep, parts[1..], k - 1);
      before, after := parts[0] + sep + b, a;
    }
  }

  /** Every part occurs in the joined string. */
  lemma JoinContainsParts(sep: string, parts: seq<string>)
    ensures forall k :: 0 <= k < |parts| ==> Occurs(parts[k], Join(sep, parts))
  {
    forall k | 0 <= k < |parts|
      ensures Occurs(parts[k], Join(sep, parts))
    {
      OccursInItself(parts[k]);
      OccursInJoin(parts[k], sep, parts, k);
    }
  }

  /** A join of parts whose first part is non-empty starts with that part's
      first character. */
  lemma {:induction false} JoinStartsWith(sep: string, parts: seq<string>)
    requires |parts| > 0 && |parts[0]| > 0
    ensures |Join(sep, parts)| > 0 && Join(sep, parts)[0] == parts[0][0]
  {
    if |parts| > 1 {
      assert Join(sep, parts) == parts[0] + (sep + Join(sep, parts[1..]));
    }
  }

  /** `s` does not end in a line break. */
  predicate EndsOpen(s: string)
  {
    |s| == 0 || s[|s| - 1] != '\n'
  }

  /** `s` holds no blank line (no two line breaks in a row) and does not end
      in a line break, so a following line break cannot start one either. */
  predicate Tidy(s: string)
  {
    !Occurs("\n\n", s) && EndsOpen(s)
  }

  /** A string without line breaks is tidy. */
  lemma {:induction false} NoBreakIsTidy(s: string)
    requires '\n' !in s
    ensures Tidy(s)
    decreases |s|
  {
    if |s| > 0 {
      assert s[0] != '\n';
      NoBreakIsTidy(s[1..]);
    }
  }

  /** Two strings without a blank line give none when written one after the
      other, unless the first ends and the second starts with a line break. */
  lemma {:induction false} NoBlankLineInConcat(a: string, b: string)
    requires !Occurs("\n\n", a) && !Occurs("\n\n", b)
    requires EndsOpen(a) || |b| == 0 || b[0] != '\n'
    ensures !Occurs("\n\n", a + b)
    decreases |a|
  {
    var s := a + b;
    if |a| == 0 {
      assert s == b;
    } else {
      if |a| >= 2 {
        assert s[..2] == a[..2];
      } else if |s| >= 2 {
        assert s[..2] == [a[0], b[0]];
      }
      assert s[1..] == a[1..] + b;
      NoBlankLineInConcat(a[1..], b);
    }
  }

  lemma TidyConcat(a: string, b: string)
    requires Tidy(a) && Tidy(b)
    ensures Tidy(a + b)
  {
    NoBlankLineInConcat(a, b);
    if |b| > 0 {
      assert (a + b)[|a + b| - 1] == b[|b| - 1];
    } else {
      assert a + b == a;
    }
  }

  /** Text without a blank line, followed by tidy text that does not start
      with a line break, is tidy even if the first part ends in one. */
  lemma TidyAfterOpen(a: string, b: string)
    requires !Occurs("\n\n", a) && Tidy(b)
    requires |b| > 0 && b[0] != '\n'
    ensures Tidy(a + b)
  {
    NoBlankLineInConcat(a, b);
    assert (a + b)[|a + b| - 1] == b[|b| - 1];
  }

  /** One tidy line, a line break and text that has no blank line and does
      not start with a line break hold no blank line. */
  lemma LineBeforeText(line: string, y: string)
    requires Tidy(line)
    requires !Occurs("\n\n", y) && (|y| == 0 || y[0] != '\n')
    ensures !Occurs("\n\n", line + "\n" + y)
  {
    assert !Occurs("\n\n", "\n");
    NoBlankLineInConcat(line, "\n");
    NoBlankLineInConcat(line + "\n", y);
  }

  /** Tidy non-empty lines that do not start with a line break, joined by
      line breaks and followed by one more, contain no blank line. */
  lemma {:induction false} JoinedLinesHaveNoBlankLine(lines: seq<string>)
    requires |lines| > 0
    requires forall i :: 0 <= i < |lines| ==> |lines[i]| > 0 && lines[i][0] != '\n' && Tidy(lines[i])
    ensures !Occurs("\n\n", Join("\n", lines) + "\n")
    decreases |lines|
  {
    if |lines| == 1 {
      LineBeforeText(lines[0], "");
      assert Join("\n", lines) + "\n" == lines[0] + "\n" + "";
    } else {
      var rest := lines[1..];
      var j := Join("\n", rest);
      JoinedLinesHaveNoBlankLine(rest);
      JoinStartsWith("\n", rest);
      LineBeforeText(lines[0], j + "\n");
      assert Join("\n", lines) + "\n" == lines[0] + "\n" + (j + "\n");
    }
  }

  /** A string without line breaks is separable for the line-break
      separator. */
  lemma {:induction false} LineIsSeparable(s: string)
    requires '\n' !in s
    ensures Separable(s, "\n")
    decreases |s|
  {
    assert s + "\n"[..0] == s;
    if |s| > 0 {
      assert s[0] != '\n';
      assert s[1..] + "\n"[..0] == s[1..];
      LineIsSeparable(s[1..]);
    }
  }
}
