/**
 * The schedule formatters of the message layer. Each returns a structured
 * view of the message instead of its text: which lessons are listed, in which
 * order, under which headings, with which counts, and the escaped fields of
 * each line. Emoji and the fixed wording around them are not part of the view.
 */
module Messages {
  import opened Wrappers
  import opened Lessons
  import opened Markdown
  import opened Subgroups
  import opened Weekdays
  import opened TimeOrder

  // ---------------------------------------------------------------- lines

  /** `time - subject mark`, the short line of a lesson; time and subject escaped. */
  datatype LessonLine = LessonLine(time: string, subject: string, mark: string)

  /** `number. time - subject`, a numbered line of a day's schedule; time and subject escaped. */
  datatype NumberedLine = NumberedLine(number: nat, time: string, subject: string)

  /** The short line of a lesson, with the defaults the caller uses for a missing time or subject. */
  function ShortLine(l: Lesson, timeDefault: string, subjectDefault: string): LessonLine {
    LessonLine(Escaped(l.time.GetOr(timeDefault)), Escaped(l.subject.GetOr(subjectDefault)),
      SubgroupMark(SubgroupOf(l)))
  }

  function ShortLinesOf(ls: seq<Lesson>, timeDefault: string, subjectDefault: string): seq<LessonLine> {
    seq(|ls|, k requires 0 <= k < |ls| => ShortLine(ls[k], timeDefault, subjectDefault))
  }

  /** The lines of an `enumerate(group, 1)` loop of format_day_schedule. */
  function NumberedLines(g: seq<Lesson>): seq<NumberedLine> {
    seq(|g|, k requires 0 <= k < |g| =>
      NumberedLine(k + 1, Escaped(g[k].time.GetOr("--:--")), Escaped(g[k].subject.GetOr("Без названия"))))
  }

  /** One short line per lesson, in the order given. */
  method ShortLines(lessons: seq<Lesson>, timeDefault: string, subjectDefault: string)
    returns (lines: seq<LessonLine>)
    ensures |lines| == |lessons|
    ensures forall k :: 0 <= k < |lessons| ==>
      lines[k].time == Escaped(lessons[k].time.GetOr(timeDefault)) &&
      lines[k].subject == Escaped(lessons[k].subject.GetOr(subjectDefault)) &&
      lines[k].mark == SubgroupMark(SubgroupOf(lessons[k]))
    ensures lines == ShortLinesOf(lessons, timeDefault, subjectDefault)
  {
    lines := [];
    for i := 0 to |lessons|
      invariant |lines| == i
      invariant forall k :: 0 <= k < i ==> lines[k] == ShortLine(lessons[k], timeDefault, subjectDefault)
    {
      var lesson := lessons[i];
      var time := EscapeMarkdownV2(lesson.time.GetOr(timeDefault));
      var subject := EscapeMarkdownV2(lesson.subject.GetOr(subjectDefault));
      lines := lines + [LessonLine(time, subject, SubgroupMark(SubgroupOf(lesson)))];
    }
  }

  /** Numbers a group's lessons from 1, in the order given. */
  method NumberLines(group: seq<Lesson>) returns (lines: seq<NumberedLine>)
    ensures |lines| == |group|
    ensures forall k :: 0 <= k < |group| ==>
      lines[k].number == k + 1 &&
      lines[k].time == Escaped(group[k].time.GetOr("--:--")) &&
      lines[k].subject == Escaped(group[k].subject.GetOr("Без названия"))
    ensures lines == NumberedLines(group)
  {
    lines := [];
    for i := 0 to |group|
      invariant |lines| == i
      invariant forall k :: 0 <= k < i ==> lines[k] == NumberedLines(group)[k]
    {
      var lesson := group[i];
      var time := EscapeMarkdownV2(lesson.time.GetOr("--:--"));
      var subject := EscapeMarkdownV2(lesson.subject.GetOr("Без названия"));
      lines := lines + [NumberedLine(i + 1, time, subject)];
    }
  }

  // ---------------------------------------------------------------- counts

  /** One entry of a "distribution" line: a group and how many lessons it has. */
  datatype Count = Count(bucket: Bucket, n: nat)

  /** One `if grouped[key]: counts.append(...)`: an entry only for a non-empty group. */
  function CountPart(b: Bucket, n: nat): seq<Count> {
    if n > 0 then [Count(b, n)] else []
  }

  /** The non-empty groups with their sizes: 'all' first, then '1', then '2'. */
  function Distribution(nAll: nat, nOne: nat, nTwo: nat): seq<Count> {
    CountPart(All, nAll) + CountPart(One, nOne) + CountPart(Two, nTwo)
  }

  function DistributionOf(s: seq<Lesson>): seq<Count> {
    Distribution(|InBucket(s, All)|, |InBucket(s, One)|, |InBucket(s, Two)|)
  }

  function CountTotal(cs: seq<Count>): nat {
    if cs == [] then 0 else CountTotal(cs[..|cs| - 1]) + cs[|cs| - 1].n
  }

  lemma {:induction false} CountTotalConcat(a: seq<Count>, b: seq<Count>)
    ensures CountTotal(a + b) == CountTotal(a) + CountTotal(b)
    decreases |b|
  {
    if b == [] {
      assert a + b == a;
    } else {
      assert (a + b)[..|a + b| - 1] == a + b[..|b| - 1];
      CountTotalConcat(a, b[..|b| - 1]);
    }
  }

  lemma CountTotalOne(c: Count)
    ensures CountTotal([c]) == c.n
  {
    assert [c][..0] == [];
  }

  lemma DistributionSum(a: nat, o: nat, t: nat)
    ensures CountTotal(Distribution(a, o, t)) == a + o + t
    ensures forall k :: 0 <= k < |Distribution(a, o, t)| ==> Distribution(a, o, t)[k].n > 0
  {
    var pa, po, pt := CountPart(All, a), CountPart(One, o), CountPart(Two, t);
    CountTotalConcat(pa + po, pt);
    CountTotalConcat(pa, po);
    if a > 0 { CountTotalOne(Count(All, a)); }
    if o > 0 { CountTotalOne(Count(One, o)); }
    if t > 0 { CountTotalOne(Count(Two, t)); }
  }

  /** The distribution adds up to the number of lessons and lists only non-empty groups. */
  lemma DistributionTotal(s: seq<Lesson>)
    ensures CountTotal(DistributionOf(s)) == |s|
    ensures forall k :: 0 <= k < |DistributionOf(s)| ==> DistributionOf(s)[k].n > 0
  {
    GroupSizes(s);
    DistributionSum(|InBucket(s, All)|, |InBucket(s, One)|, |InBucket(s, Two)|);
  }

  // ---------------------------------------------------------------- format_day_schedule

  /** One subgroup block of a day's schedule: its heading is set by `bucket`. */
  datatype Section = Section(bucket: Bucket, lines: seq<NumberedLine>)

  /** The message of format_day_schedule; `day` is the escaped day name of the heading. */
  datatype DayView =
    | NoLessonsOnDay(day: string)
    | DaySchedule(day: string, sections: seq<Section>, total: nat, distribution: seq<Count>)

  function SectionFor(s: seq<Lesson>, b: Bucket): seq<Section> {
    var g := InBucket(s, b);
    if g == [] then [] else [Section(b, NumberedLines(g))]
  }

  /** The blocks for 'all', '1' and '2', in that order, each present only if its group has lessons. */
  function DaySections(s: seq<Lesson>): seq<Section> {
    SectionFor(s, All) + SectionFor(s, One) + SectionFor(s, Two)
  }

  /** One `if grouped[key]:` block of format_day_schedule: a section and its count when the group has lessons. */
  method AddSection(sections: seq<Section>, total: nat, group: seq<Lesson>, b: Bucket)
    returns (sections': seq<Section>, total': nat)
    ensures sections' == sections + (if group == [] then [] else [Section(b, NumberedLines(group))])
    ensures total' == total + |group|
  {
    sections', total' := sections, total;
    if group != [] {
      var lines := NumberLines(group);
      sections' := sections' + [Section(b, lines)];
      total' := total' + |group|;
    }
  }

  method FormatDaySchedule(day: string, lessons: seq<Lesson>) returns (v: DayView)
    ensures lessons == [] ==> v == NoLessonsOnDay(Escaped(day))
    ensures lessons != [] ==> v == DaySchedule(Escaped(day), DaySections(lessons), |lessons|, DistributionOf(lessons))
  {
    var safeDay := EscapeMarkdownV2(day);
    if lessons == [] {
      return NoLessonsOnDay(safeDay);
    }
    var grouped := GroupBySubgroup(lessons);
    var sections: seq<Section> := [];
    var total := 0;
    sections, total := AddSection(sections, total, grouped.all, All);
    sections, total := AddSection(sections, total, grouped.one, One);
    sections, total := AddSection(sections, total, grouped.two, Two);
    SectionsOfGroups(lessons, grouped);
    GroupSizes(lessons);
    var counts := Distribution(|grouped.all|, |grouped.one|, |grouped.two|);
    assert sections == DaySections(lessons);
    assert total == |lessons|;
    assert counts == DistributionOf(lessons);
    v := DaySchedule(safeDay, sections, total, counts);
  }

  lemma SectionsOfGroups(s: seq<Lesson>, g: Groups)
    requires g.all == InBucket(s, All) && g.one == InBucket(s, One) && g.two == InBucket(s, Two)
    ensures DaySections(s) == [] + (if g.all == [] then [] else [Section(All, NumberedLines(g.all))])
      + (if g.one == [] then [] else [Section(One, NumberedLines(g.one))])
      + (if g.two == [] then [] else [Section(Two, NumberedLines(g.two))])
  {
  }

  /**
   * The day's counts agree: one distribution entry per block, with as many
   * lessons as the block has lines, and all blocks together list every lesson.
   */
  lemma DayScheduleCounts(s: seq<Lesson>)
    ensures |DaySections(s)| == |DistributionOf(s)|
    ensures forall k :: 0 <= k < |DaySections(s)| ==>
      DaySections(s)[k].bucket == DistributionOf(s)[k].bucket &&
      |DaySections(s)[k].lines| == DistributionOf(s)[k].n
    ensures CountTotal(DistributionOf(s)) == |s|
  {
    var sa, so, st := SectionFor(s, All), SectionFor(s, One), SectionFor(s, Two);
    var ca, co, ct := CountPart(All, |InBucket(s, All)|), CountPart(One, |InBucket(s, One)|), CountPart(Two, |InBucket(s, Two)|);
    assert Matches(sa, ca) && Matches(so, co) && Matches(st, ct);
    MatchesConcat(sa, ca, so, co);
    MatchesConcat(sa + so, ca + co, st, ct);
    assert DaySections(s) == sa + so + st && DistributionOf(s) == ca + co + ct;
    DistributionTotal(s);
  }

  /** Sections and count entries agree one to one: same group, as many lines as the count. */
  ghost predicate Matches(secs: seq<Section>, cs: seq<Count>) {
    |secs| == |cs| && forall k :: 0 <= k < |secs| ==> secs[k].bucket == cs[k].bucket && |secs[k].lines| == cs[k].n
  }

  lemma MatchesConcat(x1: seq<Section>, y1: seq<Count>, x2: seq<Section>, y2: seq<Count>)
    requires Matches(x1, y1) && Matches(x2, y2)
    ensures Matches(x1 + x2, y1 + y2)
  {
    forall k | 0 <= k < |x1 + x2|
      ensures (x1 + x2)[k].bucket == (y1 + y2)[k].bucket && |(x1 + x2)[k].lines| == (y1 + y2)[k].n
    {
      if k < |x1| {
        assert (x1 + x2)[k] == x1[k] && (y1 + y2)[k] == y1[k];
      } else {
        assert (x1 + x2)[k] == x2[k - |x1|] && (y1 + y2)[k] == y2[k - |x1|];
      }
    }
  }

  // ---------------------------------------------------------------- format_full_schedule_by_days

  /** One day of the week schedule: its per-group counts and one short line per lesson. */
  datatype DaySummary = DaySummary(day: string, counts: seq<Count>, lines: seq<LessonLine>)

  /** The message of format_full_schedule_by_days. */
  datatype WeekSchedule =
    | EmptySchedule
    | WeekSchedule(days: seq<DaySummary>, total: nat, totals: seq<Count>)

  function Summary(day: string, ls: seq<Lesson>): (r: DaySummary)
    ensures |r.lines| == |ls|
  {
    DaySummary(day, DistributionOf(ls), ShortLinesOf(ls, "--:--", "Без названия"))
  }

  /** The canonical days whose list of lessons is present and non-empty. */
  function FilledDays(data: map<string, seq<Lesson>>): set<string> {
    set d | d in data && data[d] != []
  }

  /** The days of the week schedule, Monday to Sunday. */
  function ScheduledDays(data: map<string, seq<Lesson>>): seq<string> {
    WeekdaysIn(FilledDays(data))
  }

  function SummariesUpTo(data: map<string, seq<Lesson>>, n: nat): seq<DaySummary>
    requires n <= |DaysFull|
  {
    if n == 0 then []
    else
      var d := DaysFull[n - 1];
      SummariesUpTo(data, n - 1) + (if d in data && data[d] != [] then [Summary(d, data[d])] else [])
  }

  /** The lessons the week schedule lists, day after day. */
  function LessonsUpTo(data: map<string, seq<Lesson>>, n: nat): seq<Lesson>
    requires n <= |DaysFull|
  {
    if n == 0 then []
    else
      var d := DaysFull[n - 1];
      LessonsUpTo(data, n - 1) + (if d in data && data[d] != [] then data[d] else [])
  }

  function ScheduledLessons(data: map<string, seq<Lesson>>): seq<Lesson> {
    LessonsUpTo(data, |DaysFull|)
  }

  /** The counting loop of format_full_schedule_by_days: adds a day's lessons to the running subgroup totals. */
  method TallySubgroups(nAll: nat, nOne: nat, nTwo: nat, lessons: seq<Lesson>)
    returns (nAll': nat, nOne': nat, nTwo': nat)
    ensures nAll' == nAll + |InBucket(lessons, All)|
    ensures nOne' == nOne + |InBucket(lessons, One)|
    ensures nTwo' == nTwo + |InBucket(lessons, Two)|
  {
    nAll', nOne', nTwo' := nAll, nOne, nTwo;
    for j := 0 to |lessons|
      invariant nAll' == nAll + |InBucket(lessons[..j], All)|
      invariant nOne' == nOne + |InBucket(lessons[..j], One)|
      invariant nTwo' == nTwo + |InBucket(lessons[..j], Two)|
    {
      assert lessons[..j + 1][..j] == lessons[..j];
      var subgroup := SubgroupOf(lessons[j]);
      if subgroup == "1" {
        nOne' := nOne' + 1;
      } else if subgroup == "2" {
        nTwo' := nTwo' + 1;
      } else {
        nAll' := nAll' + 1;
      }
    }
    assert lessons[..|lessons|] == lessons;
  }

  method FormatFullScheduleByDays(daysData: map<string, seq<Lesson>>) returns (v: WeekSchedule)
    ensures (forall d :: d in daysData ==> daysData[d] == []) ==> v == EmptySchedule
    ensures (exists d :: d in daysData && daysData[d] != []) ==>
      v == WeekSchedule(SummariesUpTo(daysData, |DaysFull|), |ScheduledLessons(daysData)|,
        DistributionOf(ScheduledLessons(daysData)))
  {
    if forall d | d in daysData :: daysData[d] == [] {
      return EmptySchedule;
    }
    var summaries: seq<DaySummary> := [];
    var total := 0;
    var nAll, nOne, nTwo := 0, 0, 0;
    ghost var seen: seq<Lesson> := [];
    for i := 0 to |DaysFull|
      invariant summaries == SummariesUpTo(daysData, i)
      invariant seen == LessonsUpTo(daysData, i)
      invariant total == |seen|
      invariant nAll == |InBucket(seen, All)| && nOne == |InBucket(seen, One)| && nTwo == |InBucket(seen, Two)|
    {
      var day := DaysFull[i];
      if day in daysData && daysData[day] != [] {
        var lessons := daysData[day];
        nAll, nOne, nTwo := TallySubgroups(nAll, nOne, nTwo, lessons);
        InBucketConcat(seen, lessons, All);
        InBucketConcat(seen, lessons, One);
        InBucketConcat(seen, lessons, Two);
        total := total + |lessons|;
        var grouped := GroupBySubgroup(lessons);
        var lines := ShortLines(lessons, "--:--", "Без названия");
        summaries := summaries + [DaySummary(day, Distribution(|grouped.all|, |grouped.one|, |grouped.two|), lines)];
        seen := seen + lessons;
      }
    }
    v := WeekSchedule(summaries, total, Distribution(nAll, nOne, nTwo));
  }

  lemma {:induction false} SummariesFollowDays(data: map<string, seq<Lesson>>, n: nat)
    requires n <= |DaysFull|
    ensures |SummariesUpTo(data, n)| == |WeekdaysUpTo(n, FilledDays(data))|
    ensures forall k :: 0 <= k < |SummariesUpTo(data, n)| ==>
      var d := WeekdaysUpTo(n, FilledDays(data))[k];
      d in data && SummariesUpTo(data, n)[k] == Summary(d, data[d])
  {
    if n > 0 {
      SummariesFollowDays(data, n - 1);
    }
  }

  lemma {:induction false} LessonsUpToLines(data: map<string, seq<Lesson>>, n: nat)
    requires n <= |DaysFull|
    ensures |LessonsUpTo(data, n)| == LineCount(SummariesUpTo(data, n))
  {
    if n > 0 {
      LessonsUpToLines(data, n - 1);
      var d := DaysFull[n - 1];
      var last: seq<DaySummary> := if d in data && data[d] != [] then [Summary(d, data[d])] else [];
      LineCountConcat(SummariesUpTo(data, n - 1), last);
      if d in data && data[d] != [] {
        LineCountOne(Summary(d, data[d]));
      }
    }
  }

  /** The number of lesson lines of the week schedule. */
  function LineCount(days: seq<DaySummary>): nat {
    if days == [] then 0 else LineCount(days[..|days| - 1]) + |days[|days| - 1].lines|
  }

  lemma {:induction false} LineCountConcat(a: seq<DaySummary>, b: seq<DaySummary>)
    ensures LineCount(a + b) == LineCount(a) + LineCount(b)
    decreases |b|
  {
    if b == [] {
      assert a + b == a;
    } else {
      assert (a + b)[..|a + b| - 1] == a + b[..|b| - 1];
      LineCountConcat(a, b[..|b| - 1]);
    }
  }

  lemma LineCountOne(d: DaySummary)
    ensures LineCount([d]) == |d.lines|
  {
    assert [d][..0] == [];
  }

  /**
   * The week schedule visits Monday to Sunday and lists exactly the canonical
   * days that have lessons, each with its own lessons in the given order.
   */
  lemma WeekScheduleDays(data: map<string, seq<Lesson>>)
    ensures InWeekOrder(ScheduledDays(data))
    ensures forall d :: d in ScheduledDays(data) <==> d in DaysFull && d in data && data[d] != []
    ensures |SummariesUpTo(data, |DaysFull|)| == |ScheduledDays(data)|
    ensures forall k :: 0 <= k < |ScheduledDays(data)| ==>
      var d := ScheduledDays(data)[k];
      d in data && SummariesUpTo(data, |DaysFull|)[k] == Summary(d, data[d])
  {
    WeekdaysInOrder(FilledDays(data));
    SummariesFollowDays(data, |DaysFull|);
  }

  /**
   * The week totals agree: the grand total is the number of lines listed, and
   * the per-subgroup totals (an unknown subgroup counted under 'all') add up to it.
   */
  lemma WeekScheduleTotals(data: map<string, seq<Lesson>>)
    ensures |ScheduledLessons(data)| == LineCount(SummariesUpTo(data, |DaysFull|))
    ensures CountTotal(DistributionOf(ScheduledLessons(data))) == |ScheduledLessons(data)|
  {
    LessonsUpToLines(data, |DaysFull|);
    DistributionTotal(ScheduledLessons(data));
  }

  /** Canonical day names have no special characters, so escaping leaves them as they are. */
  lemma WeekdayNamesNeedNoEscaping(d: string)
    requires d in DaysFull
    ensures Escaped(d) == d
  {
    var i := WeekdayIndex(d);
    if i == 0 { CyrillicNeedsNoEscaping(DaysFull[0]); }
    else if i == 1 { CyrillicNeedsNoEscaping(DaysFull[1]); }
    else if i == 2 { CyrillicNeedsNoEscaping(DaysFull[2]); }
    else if i == 3 { CyrillicNeedsNoEscaping(DaysFull[3]); }
    else if i == 4 { CyrillicNeedsNoEscaping(DaysFull[4]); }
    else if i == 5 { CyrillicNeedsNoEscaping(DaysFull[5]); }
    else { CyrillicNeedsNoEscaping(DaysFull[6]); }
  }

  /** Text made of characters from the Cyrillic block upwards has nothing to escape. */
  lemma CyrillicNeedsNoEscaping(s: string)
    requires forall k :: 0 <= k < |s| ==> s[k] >= 'А'
    ensures Escaped(s) == s
  {
    forall k | 0 <= k < |s|
      ensures !IsSpecial(s[k])
    {
    }
    EscapedPlain(s);
  }

  // ---------------------------------------------------------------- format_week_overview

  /** The message of format_week_overview. */
  datatype WeekOverview =
    | NoLessonsThisWeek
    | WeekOverview(days: seq<string>, daysWithLessons: nat)

  function FormatWeekOverview(daysWithLessons: seq<string>): (v: WeekOverview)
    ensures v.NoLessonsThisWeek? <==> daysWithLessons == []
    ensures v.WeekOverview? ==> InWeekOrder(v.days)
    ensures v.WeekOverview? ==> forall d :: d in v.days <==> d in DaysFull && d in daysWithLessons
    ensures v.WeekOverview? ==> v.daysWithLessons == |daysWithLessons|
  {
    if daysWithLessons == [] then NoLessonsThisWeek
    else
      var present := set d | d in daysWithLessons;
      WeekdaysInOrder(present);
      WeekOverview(WeekdaysIn(present), |daysWithLessons|)
  }

  // ---------------------------------------------------------------- format_all_lessons_message

  /** One day of the full listing: the day's lessons sorted by time, and their lines. */
  datatype DayBlock = DayBlock(day: string, lessons: seq<Lesson>, lines: seq<LessonLine>)

  /** The message of format_all_lessons_message. */
  datatype AllLessonsView =
    | NoLessonsInDatabase
    | AllLessons(blocks: seq<DayBlock>, total: nat)

  /** The day a lesson is grouped under; a record without one goes under 'Неизвестно' (messages.py:417). */
  function DayOf(l: Lesson): string {
    l.day.GetOr("Неизвестно")
  }

  /** The keys of `lessons_by_day` in insertion order: the days in order of first appearance. */
  function SeenDays(s: seq<Lesson>): seq<string> {
    if s == [] then []
    else
      var p := SeenDays(s[..|s| - 1]);
      var d := DayOf(s[|s| - 1]);
      if d in p then p else p + [d]
  }

  /** The lessons on day d, in input order. */
  function OnDay(s: seq<Lesson>, d: string): seq<Lesson> {
    if s == [] then []
    else OnDay(s[..|s| - 1], d) + (if DayOf(s[|s| - 1]) == d then [s[|s| - 1]] else [])
  }

  /** The days of `keys` that are not canonical, in the order of `keys`. */
  function OtherDays(keys: seq<string>): seq<string> {
    if keys == [] then []
    else OtherDays(keys[..|keys| - 1]) + (if keys[|keys| - 1] !in DaysFull then [keys[|keys| - 1]] else [])
  }

  /** The listing's day order: canonical days present, Monday to Sunday, then the others as they first appear. */
  function DayOrder(s: seq<Lesson>): seq<string> {
    WeekdaysIn(set d | d in SeenDays(s)) + OtherDays(SeenDays(s))
  }

  function Block(s: seq<Lesson>, d: string): DayBlock {
    var sorted := SortByTime(OnDay(s, d));
    DayBlock(d, sorted, ShortLinesOf(sorted, "??:??", "Неизвестно"))
  }

  /** The lessons of the given days, day after day, each day's lessons in input order. */
  function OnDays(s: seq<Lesson>, days: seq<string>): seq<Lesson> {
    if days == [] then [] else OnDays(s, days[..|days| - 1]) + OnDay(s, days[|days| - 1])
  }

  /** The lessons of the listing in the order they are shown. */
  function Listed(blocks: seq<DayBlock>): seq<Lesson> {
    if blocks == [] then [] else Listed(blocks[..|blocks| - 1]) + blocks[|blocks| - 1].lessons
  }

  ghost predicate Distinct(xs: seq<string>) {
    forall i, j :: 0 <= i < j < |xs| ==> xs[i] != xs[j]
  }

  /** The blocks of the listing, one per day of `days`, in that order. */
  function Blocks(s: seq<Lesson>, days: seq<string>): (r: seq<DayBlock>)
    ensures |r| == |days|
    ensures forall k :: 0 <= k < |days| ==> r[k] == Block(s, days[k])
  {
    if days == [] then [] else Blocks(s, days[..|days| - 1]) + [Block(s, days[|days| - 1])]
  }

  /**
   * The grouping loop of format_all_lessons_message: `lessonsByDay` is the
   * dict, `days` its keys in insertion order.
   */
  method GroupByDay(allLessons: seq<Lesson>) returns (lessonsByDay: map<string, seq<Lesson>>, days: seq<string>)
    ensures days == SeenDays(allLessons)
    ensures forall d :: d in lessonsByDay <==> d in days
    ensures forall d :: d in lessonsByDay ==> lessonsByDay[d] == OnDay(allLessons, d)
  {
    lessonsByDay, days := map[], [];
    for i := 0 to |allLessons|
      invariant days == SeenDays(allLessons[..i])
      invariant forall d :: d in lessonsByDay <==> d in days
      invariant forall d :: d in lessonsByDay ==> lessonsByDay[d] == OnDay(allLessons[..i], d)
    {
      var lesson := allLessons[i];
      var day := DayOf(lesson);
      assert allLessons[..i + 1][..i] == allLessons[..i];
      if day !in lessonsByDay {
        UnseenDayIsEmpty(allLessons[..i], day);
        lessonsByDay := lessonsByDay[day := []];
        days := days + [day];
      }
      lessonsByDay := lessonsByDay[day := lessonsByDay[day] + [lesson]];
    }
    assert allLessons[..|allLessons|] == allLessons;
  }

  /** The two day-ordering loops: the canonical keys Monday to Sunday, then the other keys in insertion order. */
  method SortDays(days: seq<string>) returns (sortedDays: seq<string>)
    requires Distinct(days)
    ensures sortedDays == WeekdaysIn(set d | d in days) + OtherDays(days)
  {
    sortedDays := CanonicalDays(days);
    sortedDays := AppendOtherDays(sortedDays, days);
  }

  /** The first ordering loop (messages.py:424-426): walks the week and keeps each canonical day that is a key. */
  method CanonicalDays(days: seq<string>) returns (sortedDays: seq<string>)
    ensures sortedDays == WeekdaysIn(set d | d in days)
  {
    ghost var present := set d | d in days;
    sortedDays := [];
    for j := 0 to |DaysFull|
      invariant sortedDays == WeekdaysUpTo(j, present)
    {
      assert (DaysFull[j] in days) == (DaysFull[j] in present);
      if DaysFull[j] in days {
        sortedDays := sortedDays + [DaysFull[j]];
      }
    }
  }

  /** The second ordering loop (messages.py:427-429): appends each key not yet listed, in key order. */
  method AppendOtherDays(canonical: seq<string>, days: seq<string>) returns (sortedDays: seq<string>)
    requires Distinct(days)
    requires canonical == WeekdaysIn(set d | d in days)
    ensures sortedDays == canonical + OtherDays(days)
  {
    WeekdaysInOrder(set d | d in days);
    sortedDays := canonical;
    for j := 0 to |days|
      invariant sortedDays == canonical + OtherDays(days[..j])
    {
      var day := days[j];
      assert days[..j + 1][..j] == days[..j];
      OtherDayIsNew(days, j);
      assert day in canonical <==> day in DaysFull;
      if day !in sortedDays {
        sortedDays := sortedDays + [day];
      }
    }
    assert days[..|days|] == days;
  }

  /** In distinct keys, a key is not among the non-canonical keys before it. */
  lemma OtherDayIsNew(days: seq<string>, j: nat)
    requires Distinct(days) && j < |days|
    ensures days[j] !in OtherDays(days[..j])
  {
    OtherDaysMembers(days[..j]);
    forall i | 0 <= i < j
      ensures days[..j][i] != days[j]
    {
      assert days[..j][i] == days[i];
    }
  }

  /** The output loop: per day, its lessons sorted by time and their lines, and the running total. */
  method ListDays(allLessons: seq<Lesson>, lessonsByDay: map<string, seq<Lesson>>, sortedDays: seq<string>)
    returns (blocks: seq<DayBlock>, total: nat)
    requires forall d :: d in sortedDays ==> d in lessonsByDay && lessonsByDay[d] == OnDay(allLessons, d)
    ensures blocks == Blocks(allLessons, sortedDays)
    ensures total == |OnDays(allLessons, sortedDays)|
  {
    blocks, total := [], 0;
    for k := 0 to |sortedDays|
      invariant blocks == Blocks(allLessons, sortedDays[..k])
      invariant total == |OnDays(allLessons, sortedDays[..k])|
    {
      var day := sortedDays[k];
      assert day in sortedDays;
      var lessons := lessonsByDay[day];
      assert sortedDays[..k + 1][..k] == sortedDays[..k];
      total := total + |lessons|;
      var sorted := SortByTime(lessons);
      var lines := ShortLines(sorted, "??:??", "Неизвестно");
      blocks := blocks + [DayBlock(day, sorted, lines)];
    }
    assert sortedDays[..|sortedDays|] == sortedDays;
  }

  method FormatAllLessonsMessage(allLessons: seq<Lesson>) returns (v: AllLessonsView)
    ensures allLessons == [] ==> v == NoLessonsInDatabase
    ensures allLessons != [] ==> v == AllLessons(Blocks(allLessons, DayOrder(allLessons)), |allLessons|)
  {
    if allLessons == [] {
      return NoLessonsInDatabase;
    }
    var lessonsByDay, days := GroupByDay(allLessons);
    SeenDaysDistinct(allLessons);
    var sortedDays := SortDays(days);
    OtherDaysMembers(days);
    WeekdaysInOrder(set d | d in days);
    var blocks, total := ListDays(allLessons, lessonsByDay, sortedDays);
    DayOrderCoversDays(allLessons);
    OnDaysCover(allLessons, sortedDays);
    v := AllLessons(blocks, total);
  }

  lemma {:induction false} UnseenDayIsEmpty(s: seq<Lesson>, d: string)
    requires d !in SeenDays(s)
    ensures OnDay(s, d) == []
  {
    if s != [] {
      UnseenDayIsEmpty(s[..|s| - 1], d);
    }
  }

  /** A day is among the keys exactly when some lesson is on it. */
  lemma {:induction false} SeenDaysMembers(s: seq<Lesson>)
    ensures forall k :: 0 <= k < |s| ==> DayOf(s[k]) in SeenDays(s)
    ensures forall d :: d in SeenDays(s) ==> exists k :: 0 <= k < |s| && DayOf(s[k]) == d
  {
    if s != [] {
      var init := s[..|s| - 1];
      SeenDaysMembers(init);
      forall k | 0 <= k < |s|
        ensures DayOf(s[k]) in SeenDays(s)
      {
        if k < |init| {
          assert init[k] == s[k];
        }
      }
      forall d | d in SeenDays(s)
        ensures exists k :: 0 <= k < |s| && DayOf(s[k]) == d
      {
        if d in SeenDays(init) {
          var k :| 0 <= k < |init| && DayOf(init[k]) == d;
          assert s[k] == init[k];
        } else {
          assert DayOf(s[|s| - 1]) == d;
        }
      }
    }
  }

  lemma {:induction false} SeenDaysDistinct(s: seq<Lesson>)
    ensures Distinct(SeenDays(s))
  {
    if s != [] {
      SeenDaysDistinct(s[..|s| - 1]);
    }
  }

  lemma {:induction false} OtherDaysMembers(keys: seq<string>)
    ensures forall d :: d in OtherDays(keys) <==> d in keys && d !in DaysFull
  {
    if keys != [] {
      OtherDaysMembers(keys[..|keys| - 1]);
      assert keys == keys[..|keys| - 1] + [keys[|keys| - 1]];
    }
  }

  lemma {:induction false} OtherDaysDistinct(keys: seq<string>)
    requires Distinct(keys)
    ensures Distinct(OtherDays(keys))
  {
    if keys != [] {
      var init := keys[..|keys| - 1];
      assert Distinct(init) by {
        forall i, j | 0 <= i < j < |init|
          ensures init[i] != init[j]
        {
          assert init[i] == keys[i] && init[j] == keys[j];
        }
      }
      OtherDaysDistinct(init);
      OtherDaysMembers(init);
      assert keys[|keys| - 1] !in init;
    }
  }

  /** Picking the non-canonical days distributes over concatenation, so it keeps the order of the keys. */
  lemma {:induction false} OtherDaysConcat(a: seq<string>, b: seq<string>)
    ensures OtherDays(a + b) == OtherDays(a) + OtherDays(b)
  {
    if b == [] {
      assert a + b == a;
    } else {
      var init := b[..|b| - 1];
      OtherDaysConcat(a, init);
      assert (a + b)[..|a + b| - 1] == a + init;
      assert (a + b)[|a + b| - 1] == b[|b| - 1];
    }
  }

  /** Of two non-canonical days, the one listed first comes first among the keys. */
  lemma {:induction false} OtherDaysInKeyOrder(keys: seq<string>, i: nat, j: nat)
    requires i < j < |OtherDays(keys)|
    ensures exists p, q :: 0 <= p < q < |keys| && keys[p] == OtherDays(keys)[i] && keys[q] == OtherDays(keys)[j]
  {
    var init := keys[..|keys| - 1];
    var o := OtherDays(init);
    if j < |o| {
      OtherDaysInKeyOrder(init, i, j);
      var p, q :| 0 <= p < q < |init| && init[p] == o[i] && init[q] == o[j];
      assert keys[p] == init[p] && keys[q] == init[q];
    } else {
      OtherDaysMembers(init);
      assert o[i] in init;
      var p :| 0 <= p < |init| && init[p] == o[i];
      assert keys[p] == init[p];
      assert OtherDays(keys)[j] == keys[|keys| - 1];
    }
  }

  /**
   * After the canonical days, the listing's days follow first appearance: for two of them, some
   * lesson on the earlier one comes before every lesson on the later one.
   */
  lemma OtherDaysFollowFirstAppearance(s: seq<Lesson>, i: nat, j: nat)
    requires i < j < |OtherDays(SeenDays(s))|
    ensures exists a :: 0 <= a < |s| && DayOf(s[a]) == OtherDays(SeenDays(s))[i] &&
                        (forall b :: 0 <= b <= a ==> DayOf(s[b]) != OtherDays(SeenDays(s))[j])
  {
    var keys := SeenDays(s);
    OtherDaysInKeyOrder(keys, i, j);
    var p, q :| 0 <= p < q < |keys| && keys[p] == OtherDays(keys)[i] && keys[q] == OtherDays(keys)[j];
    SeenDaysFirstAppearance(s, p, q);
  }

  /** Canonical days in week order followed by distinct non-canonical days are all distinct. */
  lemma WeekThenOthersDistinct(w: seq<string>, o: seq<string>)
    requires InWeekOrder(w) && Distinct(o)
    requires forall d :: d in o ==> d !in DaysFull
    ensures Distinct(w + o)
  {
    forall i, j | 0 <= i < j < |w + o|
      ensures (w + o)[i] != (w + o)[j]
    {
      if j < |w| {
        assert WeekdayIndex(w[i]) < WeekdayIndex(w[j]);
      } else if i >= |w| {
        assert (w + o)[i] == o[i - |w|] && (w + o)[j] == o[j - |w|];
      } else {
        assert (w + o)[i] == w[i] && w[i] in DaysFull;
        assert (w + o)[j] == o[j - |w|] && o[j - |w|] in o;
      }
    }
  }

  /** The listing's days: each day that has a lesson, exactly once; canonical days first, Monday to Sunday. */
  lemma DayOrderCoversDays(s: seq<Lesson>)
    ensures Distinct(DayOrder(s))
    ensures forall k :: 0 <= k < |s| ==> DayOf(s[k]) in DayOrder(s)
    ensures forall d :: d in DayOrder(s) ==> exists k :: 0 <= k < |s| && DayOf(s[k]) == d
    ensures InWeekOrder(WeekdaysIn(set d | d in SeenDays(s)))
    ensures forall d :: d in OtherDays(SeenDays(s)) ==> d !in DaysFull
  {
    var present := set d | d in SeenDays(s);
    SeenDaysMembers(s);
    SeenDaysDistinct(s);
    WeekdaysInOrder(present);
    OtherDaysMembers(SeenDays(s));
    OtherDaysDistinct(SeenDays(s));
    WeekThenOthersDistinct(WeekdaysIn(present), OtherDays(SeenDays(s)));
    DayOrderMembers(s);
  }

  /** A day is in the listing order exactly when it is a key of the grouping. */
  lemma DayOrderMembers(s: seq<Lesson>)
    ensures forall d :: d in DayOrder(s) <==> d in SeenDays(s)
  {
    var present := set d | d in SeenDays(s);
    WeekdaysInOrder(present);
    OtherDaysMembers(SeenDays(s));
    forall d
      ensures d in DayOrder(s) <==> d in SeenDays(s)
    {
      assert d in DayOrder(s) <==> d in WeekdaysIn(present) || d in OtherDays(SeenDays(s));
    }
  }

  /** The non-canonical days follow the order in which they first appear. */
  lemma {:induction false} SeenDaysFirstAppearance(s: seq<Lesson>, i: nat, j: nat)
    requires i < j < |SeenDays(s)|
    ensures exists a :: 0 <= a < |s| && DayOf(s[a]) == SeenDays(s)[i] &&
                        (forall b :: 0 <= b <= a ==> DayOf(s[b]) != SeenDays(s)[j])
  {
    var init := s[..|s| - 1];
    var p := SeenDays(init);
    if j < |p| {
      SeenDaysFirstAppearance(init, i, j);
      var a :| 0 <= a < |init| && DayOf(init[a]) == p[i] && forall b :: 0 <= b <= a ==> DayOf(init[b]) != p[j];
      assert s[a] == init[a];
      forall b | 0 <= b <= a
        ensures DayOf(s[b]) != SeenDays(s)[j]
      {
        assert s[b] == init[b];
      }
    } else {
      SeenDaysMembers(init);
      var d := DayOf(s[|s| - 1]);
      assert SeenDays(s) == p + [d] && SeenDays(s)[j] == d && d !in p;
      assert p[i] in p;
      var a :| 0 <= a < |init| && DayOf(init[a]) == p[i];
      assert s[a] == init[a];
      forall b | 0 <= b <= a
        ensures DayOf(s[b]) != d
      {
        assert s[b] == init[b];
      }
    }
  }

  /** A day's list holds each lesson on that day as often as the input does, and no other. */
  lemma {:induction false} OnDayCount(s: seq<Lesson>, d: string, l: Lesson)
    ensures multiset(OnDay(s, d))[l] == if DayOf(l) == d then multiset(s)[l] else 0
  {
    if s != [] {
      var init, last := s[..|s| - 1], s[|s| - 1];
      OnDayCount(init, d, l);
      assert s == init + [last];
    }
  }

  /** Distinct days pick up each lesson on one of them as often as the input holds it, and no other. */
  lemma {:induction false} OnDaysCount(s: seq<Lesson>, days: seq<string>, l: Lesson)
    requires Distinct(days)
    ensures multiset(OnDays(s, days))[l] == if DayOf(l) in days then multiset(s)[l] else 0
  {
    if days != [] {
      var init, d := days[..|days| - 1], days[|days| - 1];
      assert Distinct(init) by {
        forall i, j | 0 <= i < j < |init|
          ensures init[i] != init[j]
        {
          assert init[i] == days[i] && init[j] == days[j];
        }
      }
      OnDaysCount(s, init, l);
      OnDayCount(s, d, l);
      assert days == init + [d];
      assert d !in init;
    }
  }

  /** Distinct days that cover every lesson's day pick up every lesson exactly once. */
  lemma OnDaysCover(s: seq<Lesson>, days: seq<string>)
    requires Distinct(days)
    requires forall k :: 0 <= k < |s| ==> DayOf(s[k]) in days
    ensures multiset(OnDays(s, days)) == multiset(s)
    ensures |OnDays(s, days)| == |s|
  {
    forall l
      ensures multiset(OnDays(s, days))[l] == multiset(s)[l]
    {
      OnDaysCount(s, days, l);
      if l in s {
        var k :| 0 <= k < |s| && s[k] == l;
      }
    }
    assert multiset(OnDays(s, days)) == multiset(s);
    assert |multiset(OnDays(s, days))| == |multiset(s)|;
  }

  lemma {:induction false} ListedBlocks(s: seq<Lesson>, days: seq<string>)
    ensures multiset(Listed(Blocks(s, days))) == multiset(OnDays(s, days))
  {
    if days != [] {
      var init := days[..|days| - 1];
      ListedBlocks(s, init);
      assert Blocks(s, days)[..|days| - 1] == Blocks(s, init);
      SortByTimeCorrect(OnDay(s, days[|days| - 1]));
    }
  }

  /** Every lesson of the database appears exactly once in the listing. */
  lemma AllLessonsListedOnce(s: seq<Lesson>)
    ensures multiset(Listed(Blocks(s, DayOrder(s)))) == multiset(s)
  {
    DayOrderCoversDays(s);
    OnDaysCover(s, DayOrder(s));
    ListedBlocks(s, DayOrder(s));
  }

  /** Within a day the lessons are sorted by time string, stably: equal times keep their input order. */
  lemma BlockSortedStable(s: seq<Lesson>, d: string)
    ensures SortedByTime(Block(s, d).lessons)
    ensures multiset(Block(s, d).lessons) == multiset(OnDay(s, d))
    ensures forall t :: WithTime(Block(s, d).lessons, t) == WithTime(OnDay(s, d), t)
  {
    SortByTimeCorrect(OnDay(s, d));
    forall t
      ensures WithTime(Block(s, d).lessons, t) == WithTime(OnDay(s, d), t)
    {
      SortByTimeStable(OnDay(s, d), t);
    }
  }
}
