/**
 * Row-major enumeration of a rectangle of integer cells, the shape of the
 * nested `for y ... for x ... append` loops that build the generated maps.
 */
module Grids {

  /** The cells `f(y, x)` for `x` in `[x0, x1)`, in increasing `x`. */
  function Line<T>(y: int, x0: int, x1: int, f: (int, int) -> T): seq<T>
    decreases x1 - x0
  {
    if x1 <= x0 then [] else Line(y, x0, x1 - 1, f) + [f(y, x1 - 1)]
  }

  /** The lines for `y` in `[y0, y1)`, each over `[x0, x1)`, concatenated. */
  function Grid<T>(y0: int, y1: int, x0: int, x1: int, f: (int, int) -> T): seq<T>
    decreases y1 - y0
  {
    if y1 <= y0 then [] else Grid(y0, y1 - 1, x0, x1, f) + Line(y1 - 1, x0, x1, f)
  }

  /** No two distinct cells of the plane share a value. */
  ghost predicate Injective<T>(f: (int, int) -> T)
  {
    forall y1, x1, y2, x2 :: f(y1, x1) == f(y2, x2) ==> y1 == y2 && x1 == x2
  }

  ghost predicate Distinct<T>(s: seq<T>)
  {
    forall i, j :: 0 <= i < j < |s| ==> s[i] != s[j]
  }

  lemma {:induction false} LineShape<T>(y: int, x0: int, x1: int, f: (int, int) -> T)
    requires x0 <= x1
    ensures |Line(y, x0, x1, f)| == x1 - x0
    ensures forall j :: 0 <= j < x1 - x0 ==> Line(y, x0, x1, f)[j] == f(y, x0 + j)
    decreases x1 - x0
  {
    if x1 > x0 {
      LineShape(y, x0, x1 - 1, f);
    }
  }

  lemma {:induction false} GridLength<T>(y0: int, y1: int, x0: int, x1: int, f: (int, int) -> T)
    requires y0 <= y1 && x0 <= x1
    ensures |Grid(y0, y1, x0, x1, f)| == (y1 - y0) * (x1 - x0)
    decreases y1 - y0
  {
    if y1 > y0 {
      GridLength(y0, y1 - 1, x0, x1, f);
      LineShape(y1 - 1, x0, x1, f);
      assert (y1 - 1 - y0) * (x1 - x0) + (x1 - x0) == (y1 - y0) * (x1 - x0);
    }
  }

  /** A grid from the origin has rows times columns cells. */
  lemma GridSize<T>(rows: int, cols: int, f: (int, int) -> T)
    requires rows >= 0 && cols >= 0
    ensures |Grid(0, rows, 0, cols, f)| == rows * cols
  {
    GridLength(0, rows, 0, cols, f);
    assert (rows - 0) * (cols - 0) == rows * cols;
  }

  lemma {:induction false} LineMembership<T>(y: int, x0: int, x1: int, f: (int, int) -> T, v: T)
    ensures v in Line(y, x0, x1, f) <==> exists x :: x0 <= x < x1 && v == f(y, x)
    decreases x1 - x0
  {
    if x1 > x0 {
      LineMembership(y, x0, x1 - 1, f, v);
    }
  }

  /** Every cell of the rectangle appears, and nothing else does. */
  lemma {:induction false} GridMembership<T>(y0: int, y1: int, x0: int, x1: int, f: (int, int) -> T, v: T)
    ensures v in Grid(y0, y1, x0, x1, f) <==>
      exists y, x :: y0 <= y < y1 && x0 <= x < x1 && v == f(y, x)
    decreases y1 - y0
  {
    if y1 > y0 {
      GridMembership(y0, y1 - 1, x0, x1, f, v);
      LineMembership(y1 - 1, x0, x1, f, v);
      if exists y, x :: y0 <= y < y1 && x0 <= x < x1 && v == f(y, x) {
        var y, x :| y0 <= y < y1 && x0 <= x < x1 && v == f(y, x);
        if y == y1 - 1 {
          assert v in Line(y1 - 1, x0, x1, f);
        }
      }
    }
  }

  lemma {:induction false} LineDistinct<T>(y: int, x0: int, x1: int, f: (int, int) -> T)
    requires Injective(f)
    ensures Distinct(Line(y, x0, x1, f))
    decreases x1 - x0
  {
    if x1 > x0 {
      LineDistinct(y, x0, x1 - 1, f);
      LineMembership(y, x0, x1 - 1, f, f(y, x1 - 1));
    }
  }

  /** An injective cell function enumerates pairwise distinct values. */
  lemma {:induction false} GridDistinct<T>(y0: int, y1: int, x0: int, x1: int, f: (int, int) -> T)
    requires Injective(f)
    ensures Distinct(Grid(y0, y1, x0, x1, f))
    decreases y1 - y0
  {
    if y1 > y0 {
      GridDistinct(y0, y1 - 1, x0, x1, f);
      LineDistinct(y1 - 1, x0, x1, f);
      var a, b := Grid(y0, y1 - 1, x0, x1, f), Line(y1 - 1, x0, x1, f);
      forall i, j | 0 <= i < |a| && 0 <= j < |b|
        ensures a[i] != b[j]
      {
        GridMembership(y0, y1 - 1, x0, x1, f, a[i]);
        LineMembership(y1 - 1, x0, x1, f, b[j]);
      }
      assert Grid(y0, y1, x0, x1, f) == a + b;
    }
  }

  /** A sequence without repetitions has as many distinct elements as entries. */
  lemma {:induction false} DistinctCardinality<T>(s: seq<T>)
    requires Distinct(s)
    ensures |set x | x in s| == |s|
    decreases |s|
  {
    if |s| > 0 {
      var prefix := s[..|s| - 1];
      assert Distinct(prefix) by {
        forall i, j | 0 <= i < j < |prefix| ensures prefix[i] != prefix[j] {
          assert prefix[i] == s[i] && prefix[j] == s[j];
        }
      }
      DistinctCardinality(prefix);
      var last := s[|s| - 1];
      assert last !in prefix;
      assert (set x | x in s) == (set x | x in prefix) + {last} by {
        forall x ensures x in s <==> x in prefix || x == last {
          if x in s {
            var i :| 0 <= i < |s| && s[i] == x;
            if i < |prefix| { assert prefix[i] == x; }
          }
          if x in prefix {
            var i :| 0 <= i < |prefix| && prefix[i] == x;
            assert s[i] == x;
          }
        }
      }
    }
  }

  /** `f` applied to every element of `s`, in order: the records a generation loop appends. */
  function MapSeq<A, B>(f: A -> B, s: seq<A>): (r: seq<B>)
    ensures |r| == |s|
  {
    seq(|s|, i requires 0 <= i < |s| => f(s[i]))
  }

  lemma MapSeqAppend<A, B>(f: A -> B, a: seq<A>, b: seq<A>)
    ensures MapSeq(f, a + b) == MapSeq(f, a) + MapSeq(f, b)
  {
    var l, r := MapSeq(f, a + b), MapSeq(f, a) + MapSeq(f, b);
    assert |l| == |r|;
    forall i | 0 <= i < |l|
      ensures l[i] == r[i]
    {
      if i < |a| {
        assert (a + b)[i] == a[i];
      } else {
        assert (a + b)[i] == b[i - |a|];
      }
    }
  }
}
