/**
 * Subgroups in the message layer: the marker appended to a lesson line and
 * the partition of a day's lessons into the groups '1', '2' and 'all'.
 */
module Subgroups {
  import opened Wrappers
  import opened Lessons

  /** The three keys of the `grouped` dict. */
  datatype Bucket = All | One | Two

  /** The group a lesson is filed under: a missing or unrecognised subgroup counts as 'all'. */
  function BucketOf(l: Lesson): Bucket {
    var sg := SubgroupOf(l);
    if sg == "1" then One else if sg == "2" then Two else All
  }

  /** The mark after a lesson line: the subgroup number in brackets for '1' or '2', nothing otherwise (messages.py:135-141). */
  function SubgroupMark(subgroup: string): (r: string)
    ensures r != [] <==> subgroup == "1" || subgroup == "2"
    ensures r != [] ==> r == " [" + subgroup + "]"
  {
    if subgroup == "1" then " [1]"
    else if subgroup == "2" then " [2]"
    else ""
  }

  /** The lessons of `s` filed under `b`, in input order. */
  function InBucket(s: seq<Lesson>, b: Bucket): seq<Lesson> {
    if s == [] then []
    else InBucket(s[..|s| - 1], b) + (if BucketOf(s[|s| - 1]) == b then [s[|s| - 1]] else [])
  }

  /** The dict `{'1': [...], '2': [...], 'all': [...]}` of `_format_lessons_by_subgroup`. */
  datatype Groups = Groups(one: seq<Lesson>, two: seq<Lesson>, all: seq<Lesson>)

  method GroupBySubgroup(lessons: seq<Lesson>) returns (g: Groups)
    ensures g.one == InBucket(lessons, One)
    ensures g.two == InBucket(lessons, Two)
    ensures g.all == InBucket(lessons, All)
  {
    g := Groups([], [], []);
    for i := 0 to |lessons|
      invariant g.one == InBucket(lessons[..i], One)
      invariant g.two == InBucket(lessons[..i], Two)
      invariant g.all == InBucket(lessons[..i], All)
    {
      var lesson := lessons[i];
      assert lessons[..i + 1][..i] == lessons[..i];
      var subgroup := SubgroupOf(lesson);
      if subgroup == "1" {
        g := g.(one := g.one + [lesson]);
      } else if subgroup == "2" {
        g := g.(two := g.two + [lesson]);
      } else {
        g := g.(all := g.all + [lesson]);
      }
    }
    assert lessons[..|lessons|] == lessons;
  }

  /** Filing keeps the input order: it distributes over concatenation. */
  lemma {:induction false} InBucketConcat(a: seq<Lesson>, c: seq<Lesson>, b: Bucket)
    ensures InBucket(a + c, b) == InBucket(a, b) + InBucket(c, b)
    decreases |c|
  {
    if c == [] {
      assert a + c == a;
    } else {
      assert (a + c)[..|a + c| - 1] == a + c[..|c| - 1];
      InBucketConcat(a, c[..|c| - 1], b);
    }
  }

  /** A group holds exactly the input lessons filed under it. */
  lemma {:induction false} InBucketMembers(s: seq<Lesson>, b: Bucket)
    ensures forall l :: l in InBucket(s, b) <==> l in s && BucketOf(l) == b
  {
    if s != [] {
      InBucketMembers(s[..|s| - 1], b);
      assert s == s[..|s| - 1] + [s[|s| - 1]];
    }
  }

  /** The 'all' group is where lessons without a subgroup, or with one other than '1' and '2', end up. */
  lemma AllGroupMembers(s: seq<Lesson>)
    ensures forall l :: l in InBucket(s, All) <==>
      l in s && (l.subgroup.None? || (l.subgroup.value != "1" && l.subgroup.value != "2"))
  {
    InBucketMembers(s, All);
  }

  /** Every lesson is filed under exactly one group. */
  lemma {:induction false} GroupSizes(s: seq<Lesson>)
    ensures |InBucket(s, All)| + |InBucket(s, One)| + |InBucket(s, Two)| == |s|
  {
    if s != [] {
      GroupSizes(s[..|s| - 1]);
    }
  }

  /** A group holds each lesson filed under it as often as the input does, and no other. */
  lemma {:induction false} InBucketCount(s: seq<Lesson>, b: Bucket, l: Lesson)
    ensures multiset(InBucket(s, b))[l] == if BucketOf(l) == b then multiset(s)[l] else 0
  {
    if s != [] {
      var init, last := s[..|s| - 1], s[|s| - 1];
      InBucketCount(init, b, l);
      assert s == init + [last];
    }
  }

  /** The three groups together hold exactly the input lessons. */
  lemma GroupsPartition(s: seq<Lesson>)
    ensures multiset(InBucket(s, All)) + multiset(InBucket(s, One)) + multiset(InBucket(s, Two)) == multiset(s)
  {
    var u := multiset(InBucket(s, All)) + multiset(InBucket(s, One)) + multiset(InBucket(s, Two));
    forall l
      ensures u[l] == multiset(s)[l]
    {
      InBucketCount(s, All, l);
      InBucketCount(s, One, l);
      InBucketCount(s, Two, l);
    }
  }
}
