// Python's ordering of `str` values (lexicographic on code points, a proper prefix
// first) and `list.sort()` on a list of strings.
module StringOrder {

  /** Python's `a < b` on strings. */
  predicate LexLess(a: string, b: string)
  {
    if |a| == 0 then |b| > 0
    else if |b| == 0 then false
    else if a[0] != b[0] then a[0] < b[0]
    else LexLess(a[1..], b[1..])
  }

  lemma {:induction false} LexLessIrreflexive(a: string)
    ensures !LexLess(a, a)
  {
    if |a| > 0 {
      LexLessIrreflexive(a[1..]);
    }
  }

  lemma {:induction false} LexLessTransitive(a: string, b: string, c: string)
    requires LexLess(a, b) && LexLess(b, c)
    ensures LexLess(a, c)
  {
    if |a| > 0 && |b| > 0 && |c| > 0 && a[0] == b[0] && b[0] == c[0] {
      LexLessTransitive(a[1..], b[1..], c[1..]);
    }
  }

  /** Any two different strings are ordered one way or the other. */
  lemma {:induction false} LexLessTotal(a: string, b: string)
    ensures a == b || LexLess(a, b) || LexLess(b, a)
  {
    if |a| > 0 && |b| > 0 && a[0] == b[0] {
      LexLessTotal(a[1..], b[1..]);
      if a[1..] == b[1..] {
        assert a == [a[0]] + a[1..] && b == [b[0]] + b[1..];
      }
    }
  }

  /** Non-decreasing in Python's order. */
  predicate Sorted(q: seq<string>)
  {
    forall i, j :: 0 <= i < j < |q| ==> !LexLess(q[j], q[i])
  }

  /** x placed in front of the first element not smaller than it. */
  function Insert(q: seq<string>, x: string): (r: seq<string>)
    ensures multiset(r) == multiset(q) + multiset{x}
  {
    if q == [] || !LexLess(q[0], x) then [x] + q
    else
      assert q == [q[0]] + q[1..];
      [q[0]] + Insert(q[1..], x)
  }

  lemma {:induction false} InsertSorted(q: seq<string>, x: string)
    requires Sorted(q)
    ensures Sorted(Insert(q, x))
  {
    var r := Insert(q, x);
    if q == [] || !LexLess(q[0], x) {
      forall j | 1 <= j < |r|
        ensures !LexLess(r[j], r[0])
      {
        // r[j] == q[j - 1] and q[0] <= q[j - 1], x <= q[0]
        if LexLess(r[j], x) {
          LexLessTotal(q[0], x);
          if j - 1 > 0 {
            LexLessTotal(q[0], q[j - 1]);
            if LexLess(q[0], q[j - 1]) {
              LexLessTransitive(q[0], q[j - 1], x);
            }
          }
        }
      }
    } else {
      InsertSorted(q[1..], x);
      var tail := Insert(q[1..], x);
      assert r == [q[0]] + tail;
      forall j | 0 <= j < |tail|
        ensures !LexLess(tail[j], q[0])
      {
        assert tail[j] in multiset(q[1..]) + multiset{x};
        if tail[j] == x {
          LexLessTotal(q[0], x);
          if LexLess(x, q[0]) {
            LexLessTransitive(x, q[0], x);
            LexLessIrreflexive(x);
          }
        } else {
          assert tail[j] in q[1..];
        }
      }
    }
  }

  /** `list.sort()`: sorts the list, here by insertion. */
  function SortStrings(q: seq<string>): (r: seq<string>)
    ensures multiset(r) == multiset(q)
    ensures Sorted(r)
  {
    if q == [] then []
    else
      assert q == q[..|q| - 1] + [q[|q| - 1]];
      InsertSorted(SortStrings(q[..|q| - 1]), q[|q| - 1]);
      Insert(SortStrings(q[..|q| - 1]), q[|q| - 1])
  }

  /** The first element of a sorted list is not above any element of it. */
  lemma {:induction false} SortedHead(q: seq<string>, x: string)
    requires Sorted(q) && q != [] && x in q
    ensures !LexLess(x, q[0])
  {
    if x == q[0] {
      LexLessIrreflexive(x);
    }
  }
}
