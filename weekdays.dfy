/** The canonical weekday names (`DAYS_FULL`) and listings ordered by them. */
module Weekdays {

  /** Monday to Sunday, as the bot writes them. */
  const DaysFull: seq<string> := ["Понедельник", "Вторник", "Среда", "Четверг", "Пятница", "Суббота", "Воскресенье"]

  lemma DaysFullDistinct(i: nat, j: nat)
    requires i < j < |DaysFull|
    ensures DaysFull[i] != DaysFull[j]
  {
  }

  /** Position of a canonical day in the week, Monday being 0. */
  function WeekdayIndex(d: string): (i: nat)
    requires d in DaysFull
    ensures i < |DaysFull| && DaysFull[i] == d
  {
    if d == DaysFull[0] then 0
    else if d == DaysFull[1] then 1
    else if d == DaysFull[2] then 2
    else if d == DaysFull[3] then 3
    else if d == DaysFull[4] then 4
    else if d == DaysFull[5] then 5
    else 6
  }

  lemma WeekdayIndexOf(i: nat)
    requires i < |DaysFull|
    ensures WeekdayIndex(DaysFull[i]) == i
  {
    var k := WeekdayIndex(DaysFull[i]);
    if k < i {
      DaysFullDistinct(k, i);
    } else if i < k {
      DaysFullDistinct(i, k);
    }
  }

  /** Canonical days only, each later one further on in the week (so also no day twice). */
  ghost predicate InWeekOrder(days: seq<string>) {
    && (forall i :: 0 <= i < |days| ==> days[i] in DaysFull)
    && (forall i, j :: 0 <= i < j < |days| ==> WeekdayIndex(days[i]) < WeekdayIndex(days[j]))
  }

  /** The days among the first n of the week that are in `present`, in week order. */
  function WeekdaysUpTo(n: nat, present: set<string>): seq<string>
    requires n <= |DaysFull|
  {
    if n == 0 then []
    else WeekdaysUpTo(n - 1, present) + (if DaysFull[n - 1] in present then [DaysFull[n - 1]] else [])
  }

  /** The canonical days that are in `present`, Monday to Sunday (messages.py:305). */
  function WeekdaysIn(present: set<string>): seq<string> {
    WeekdaysUpTo(|DaysFull|, present)
  }

  lemma {:induction false} WeekdaysUpToMembers(n: nat, present: set<string>)
    requires n <= |DaysFull|
    ensures forall d :: d in WeekdaysUpTo(n, present) <==> d in DaysFull[..n] && d in present
  {
    if n > 0 {
      WeekdaysUpToMembers(n - 1, present);
      assert DaysFull[..n] == DaysFull[..n - 1] + [DaysFull[n - 1]];
    }
  }

  /** The positions in the week of the days WeekdaysUpTo(n, present) keeps. */
  function PositionsUpTo(n: nat, present: set<string>): seq<nat>
    requires n <= |DaysFull|
  {
    if n == 0 then []
    else PositionsUpTo(n - 1, present) + (if DaysFull[n - 1] in present then [n - 1] else [])
  }

  /** The kept days are the days at the kept positions, and the positions ascend below n. */
  lemma {:induction false} PositionsUpToFacts(n: nat, present: set<string>)
    requires n <= |DaysFull|
    ensures |PositionsUpTo(n, present)| == |WeekdaysUpTo(n, present)|
    ensures forall k :: 0 <= k < |PositionsUpTo(n, present)| ==>
      PositionsUpTo(n, present)[k] < n && WeekdaysUpTo(n, present)[k] == DaysFull[PositionsUpTo(n, present)[k]]
    ensures forall k, m :: 0 <= k < m < |PositionsUpTo(n, present)| ==>
      PositionsUpTo(n, present)[k] < PositionsUpTo(n, present)[m]
  {
    if n > 0 {
      PositionsUpToFacts(n - 1, present);
    }
  }

  lemma WeekdaysUpToOrder(n: nat, present: set<string>)
    requires n <= |DaysFull|
    ensures InWeekOrder(WeekdaysUpTo(n, present))
  {
    var r, ps := WeekdaysUpTo(n, present), PositionsUpTo(n, present);
    PositionsUpToFacts(n, present);
    forall k | 0 <= k < |r|
      ensures r[k] in DaysFull && WeekdayIndex(r[k]) == ps[k]
    {
      WeekdayIndexOf(ps[k]);
    }
  }

  /** The week listing holds exactly the canonical days that are present, Monday to Sunday. */
  lemma WeekdaysInOrder(present: set<string>)
    ensures InWeekOrder(WeekdaysIn(present))
    ensures forall d :: d in WeekdaysIn(present) <==> d in DaysFull && d in present
  {
    WeekdaysUpToOrder(|DaysFull|, present);
    WeekdaysUpToMembers(|DaysFull|, present);
    assert DaysFull[..|DaysFull|] == DaysFull;
  }
}
