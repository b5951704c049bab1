/**
 * Ordering lessons by their raw time string, as `lessons.sort(key=lambda x:
 * x.get('time', '00:00'))` does: Python compares strings code point by code
 * point, and its sort is stable.
 */
module TimeOrder {
  import opened Wrappers
  import opened Lessons

  /** Python's `a <= b` on strings: lexicographic by code point, a proper prefix first. */
  predicate LexLe(a: string, b: string) {
    a == [] || (b != [] && (a[0] < b[0] || (a[0] == b[0] && LexLe(a[1..], b[1..]))))
  }

  lemma {:induction false} LexLeRefl(a: string)
    ensures LexLe(a, a)
  {
    if a != [] {
      LexLeRefl(a[1..]);
    }
  }

  lemma {:induction false} LexLeTotal(a: string, b: string)
    ensures LexLe(a, b) || LexLe(b, a)
  {
    if a != [] && b != [] && a[0] == b[0] {
      LexLeTotal(a[1..], b[1..]);
    }
  }

  lemma {:induction false} LexLeTrans(a: string, b: string, c: string)
    requires LexLe(a, b) && LexLe(b, c)
    ensures LexLe(a, c)
  {
    if a != [] && a[0] == b[0] && b[0] == c[0] {
      LexLeTrans(a[1..], b[1..], c[1..]);
    }
  }

  /** The sort key: the time string, '00:00' when the record has none. */
  function TimeKey(l: Lesson): string {
    l.time.GetOr("00:00")
  }

  /** Puts x before the first element whose key is not smaller, so before any equal key. */
  function Insert(x: Lesson, r: seq<Lesson>): seq<Lesson> {
    if r == [] then [x]
    else if LexLe(TimeKey(x), TimeKey(r[0])) then [x] + r
    else [r[0]] + Insert(x, r[1..])
  }

  /** The stable sort of a day's lessons by time string. */
  function SortByTime(s: seq<Lesson>): seq<Lesson> {
    if s == [] then [] else Insert(s[0], SortByTime(s[1..]))
  }

  ghost predicate SortedByTime(r: seq<Lesson>) {
    forall i, j :: 0 <= i < j < |r| ==> LexLe(TimeKey(r[i]), TimeKey(r[j]))
  }

  /** The lessons whose key is k, in order. */
  function WithTime(s: seq<Lesson>, k: string): seq<Lesson> {
    if s == [] then []
    else (if TimeKey(s[0]) == k then [s[0]] else []) + WithTime(s[1..], k)
  }

  lemma {:induction false} InsertPermutes(x: Lesson, r: seq<Lesson>)
    ensures multiset(Insert(x, r)) == multiset(r) + multiset{x}
  {
    if r != [] && !LexLe(TimeKey(x), TimeKey(r[0])) {
      InsertPermutes(x, r[1..]);
      assert r == [r[0]] + r[1..];
    }
  }

  /** A key no greater than x and than every element of r is no greater than anything in the result. */
  lemma {:induction false} InsertLowerBound(x: Lesson, r: seq<Lesson>, k: string)
    requires LexLe(k, TimeKey(x))
    requires forall i :: 0 <= i < |r| ==> LexLe(k, TimeKey(r[i]))
    ensures forall i :: 0 <= i < |Insert(x, r)| ==> LexLe(k, TimeKey(Insert(x, r)[i]))
  {
    if r != [] && !LexLe(TimeKey(x), TimeKey(r[0])) {
      InsertLowerBound(x, r[1..], k);
      var q := Insert(x, r);
      forall i | 0 <= i < |q|
        ensures LexLe(k, TimeKey(q[i]))
      {
        if i > 0 {
          assert q[i] == Insert(x, r[1..])[i - 1];
        }
      }
    }
  }

  lemma {:induction false} InsertSorted(x: Lesson, r: seq<Lesson>)
    requires SortedByTime(r)
    ensures SortedByTime(Insert(x, r))
  {
    if r == [] {
    } else if LexLe(TimeKey(x), TimeKey(r[0])) {
      var q := [x] + r;
      forall i, j | 0 <= i < j < |q|
        ensures LexLe(TimeKey(q[i]), TimeKey(q[j]))
      {
        if i == 0 && j > 1 {
          LexLeTrans(TimeKey(x), TimeKey(r[0]), TimeKey(r[j - 1]));
        }
      }
    } else {
      var rest := r[1..];
      var t := Insert(x, rest);
      assert SortedByTime(rest) by {
        forall i, j | 0 <= i < j < |rest|
          ensures LexLe(TimeKey(rest[i]), TimeKey(rest[j]))
        {
          assert rest[i] == r[i + 1] && rest[j] == r[j + 1];
        }
      }
      InsertSorted(x, rest);
      LexLeTotal(TimeKey(x), TimeKey(r[0]));
      InsertLowerBound(x, rest, TimeKey(r[0]));
      var q := [r[0]] + t;
      assert Insert(x, r) == q;
      forall i, j | 0 <= i < j < |q|
        ensures LexLe(TimeKey(q[i]), TimeKey(q[j]))
      {
        if i == 0 {
          assert q[j] == t[j - 1];
        } else {
          assert q[i] == t[i - 1] && q[j] == t[j - 1];
        }
      }
    }
  }

  /** Inserting x puts it ahead of every element with the same key. */
  lemma {:induction false} InsertStable(x: Lesson, r: seq<Lesson>, k: string)
    ensures WithTime(Insert(x, r), k) == (if TimeKey(x) == k then [x] else []) + WithTime(r, k)
  {
    if r == [] {
    } else if LexLe(TimeKey(x), TimeKey(r[0])) {
      assert ([x] + r)[1..] == r;
    } else {
      var t := Insert(x, r[1..]);
      InsertStable(x, r[1..], k);
      LexLeRefl(TimeKey(x));
      assert TimeKey(r[0]) != TimeKey(x);
      var head: seq<Lesson> := if TimeKey(r[0]) == k then [r[0]] else [];
      assert ([r[0]] + t)[1..] == t;
      assert WithTime(Insert(x, r), k) == head + WithTime(t, k);
      assert WithTime(r, k) == head + WithTime(r[1..], k);
      if TimeKey(x) == k {
        assert head == [];
        assert WithTime(Insert(x, r), k) == WithTime(t, k);
      } else {
        assert WithTime(t, k) == WithTime(r[1..], k);
      }
    }
  }

  /** The sorted lessons are in non-decreasing time order and are the same lessons. */
  lemma {:induction false} SortByTimeCorrect(s: seq<Lesson>)
    ensures SortedByTime(SortByTime(s))
    ensures multiset(SortByTime(s)) == multiset(s)
  {
    if s != [] {
      SortByTimeCorrect(s[1..]);
      InsertSorted(s[0], SortByTime(s[1..]));
      InsertPermutes(s[0], SortByTime(s[1..]));
      assert s == [s[0]] + s[1..];
    }
  }

  /** The sort is stable: lessons with equal time strings keep their input order. */
  lemma {:induction false} SortByTimeStable(s: seq<Lesson>, k: string)
    ensures WithTime(SortByTime(s), k) == WithTime(s, k)
  {
    if s != [] {
      SortByTimeStable(s[1..], k);
      InsertStable(s[0], SortByTime(s[1..]), k);
    }
  }

  lemma SortByTimeLength(s: seq<Lesson>)
    ensures |SortByTime(s)| == |s|
  {
    SortByTimeCorrect(s);
    assert |multiset(SortByTime(s))| == |multiset(s)|;
  }
}
