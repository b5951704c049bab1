# study-schedule-bot: the lesson store and the message helpers

study-schedule-bot is a Telegram bot that keeps a class timetable. Lessons are stored as JSON records with a subject, a time, a weekday, a subgroup ('1', '2' or 'all'), an id and a creation timestamp. This project models two parts of the bot in Dafny and proves properties of them:

- **The lesson store** (`ScheduleDatabase` in `database.py`). This is the class `Database.ScheduleDatabase`. Its field `file` holds the parsed JSON document and is `None` while the file does not exist. Loading and saving the file become reading and assigning that field. Methods: `EnsureDbExists`, `AddLesson`, `DeleteLesson`, `GetAllLessons`, `GetLessonById`.
- **The message helpers** of `messages.py`:
  - the MarkdownV2 escaper (module `Markdown`);
  - the subgroup marker and the subgroup partition (`Subgroups`);
  - the weekday ordering (`Weekdays`);
  - the stable sort by time string (`TimeOrder`);
  - the ordering and counting parts of the four schedule formatters (`Messages`);
  - the template lookups of the success and error replies (`Replies`).

  Each formatter returns a *view* instead of text. A view records which lessons are listed, in which order, under which headings, with which counts, and the escaped fields of each line. Emoji and fixed wording are left out of views.

A lesson (`Lessons.Lesson`) is a JSON dict. The source reads every field with `dict.get(key, default)`, so every field is an `Option`, and each formatter applies its own default (`"--:--"`, `"??:??"`, `"Без названия"`, `"Неизвестно"`, `"all"`, `"00:00"`).

Behaviour of the code worth knowing, all of it modelled as the code does it:

- **Ids.** `add_lesson` assigns `id = len(schedule) + 1` (`database.py:33`), not the largest id plus one. Ids are therefore reused after a delete. `Database.IdCollisionAfterDelete` shows two records ending up with id 2.
- **Delete result.** `delete_lesson` returns `True` whether or not a record was removed.
- **Subgroup on add.** `add_lesson` does not default a missing `subgroup`; only the message layer reads a missing one as 'all'.
- **Listing order.** `get_all_lessons` returns the records in stored order, not sorted by id.
- **Missing `schedule` key.** A document without a `schedule` key makes `add_lesson` and `delete_lesson` raise `KeyError`. This is modelled as `Failure(MissingScheduleKey)`, with the document unchanged. `get_all_lessons` returns `[]` for such a document.

Time stamps (`datetime.now().isoformat()`) are the parameter `now`.

## Model

| member | source | states |
|---|---|---|
| Database.Ensured | database.py:12-19 | an existing file is kept as it is; a missing file is replaced by a document with an empty schedule and `created_at` metadata |
| Database.ScheduleDatabase.constructor | database.py:8-10 | the store opens on what is on disk, then ensure_db_exists runs |
| Database.ScheduleDatabase.EnsureDbExists | database.py:12-19 | the file becomes the ensured document and nothing else changes |
| Database.FreshStoreIsEmpty | database.py:12-19 | a store created without a file has an empty schedule; running ensure_db_exists again changes nothing |
| Database.WithAdded | database.py:31-38 | the schedule grows by one; earlier records are unchanged; the new record is last, has id = old length + 1 and `created_at` = now, and keeps the caller's other fields |
| Database.Stamped | database.py:34-35 | the stored record has id and created_at written in; subject, time, day and subgroup are the caller's |
| Database.ScheduleDatabase.AddLesson | database.py:31-38 | a missing `schedule` key fails and leaves the file as it was; otherwise the reply is success with id = old length + 1, and only the schedule changes (to `WithAdded`) |
| Database.AddKeepsIdsSequential | database.py:33 | if the record at index i has id i+1 before an add, the same holds after it |
| Database.AddsKeepIdsSequential | database.py:33 | any run of adds keeps ids sequential |
| Database.AddsFromEmpty | database.py:33 | from an empty store, adds alone give the record at index i the id i+1 |
| Database.AddAllLength | database.py:31-38 | each add grows the schedule by exactly one |
| Database.SequentialIdsLookup | database.py:31-53 | with sequential ids, ids are unique and get_lesson_by_id(k+1) finds the record at index k |
| Database.IdCollisionAfterDelete | database.py:31-53 | add, add, delete 1, add leaves two records with id 2, and get_lesson_by_id(2) returns the older one |
| Database.WithoutId | database.py:42 | the filter never lengthens the schedule |
| Database.ScheduleDatabase.DeleteLesson | database.py:40-43 | a missing `schedule` key fails and leaves the file as it was; otherwise the result is always `True` and only the schedule changes, to the records whose id differs |
| Database.WithoutIdMembers | database.py:42 | after delete_lesson(x), a record is kept iff it was present and its id is not x |
| Database.WithoutIdConcat | database.py:42 | the filter keeps the original order (it distributes over concatenation) |
| Database.WithoutAbsentId | database.py:42 | deleting an id that no record has leaves the schedule unchanged |
| Database.DeleteIdempotent | database.py:40-43 | deleting the same id twice gives the same schedule as deleting it once |
| Database.DeleteThenGet | database.py:40-53 | after delete_lesson(x), get_lesson_by_id(x) finds nothing |
| Database.DeleteKeepsOtherLookups | database.py:40-53 | deleting x does not change the lookup of any other id |
| Database.ScheduleDatabase.GetAllLessons | database.py:45-47 | returns the stored list, or `[]` when the document has no `schedule` key |
| Database.ScheduleDatabase.GetLessonById | database.py:49-53 | the scan loop returns the first-match lookup over all lessons |
| Database.FirstWithId | database.py:50-53 | a record it returns is in the schedule and carries the requested id; FirstWithIdIsFirstMatch adds that it is None only when no record has the id, and that no earlier record has the id |
| Database.FirstWithIdIsFirstMatch | database.py:49-53 | the lookup returns None iff no record has the id; otherwise it returns a record with the id that no earlier record has |
| Markdown.EscapeMarkdownV2 | messages.py:2-9 | empty text gives `""`; applying the 18 `replace` calls in order gives the same result as escaping each character separately |
| Markdown.Replaced | messages.py:8 | text without the pattern character is returned unchanged, and a replacement without that character removes it from the text; ReplacedConcat adds that it works character by character |
| Markdown.Escaped | messages.py:2-9 | the lemmas beside it state the meaning: each special character gets one backslash before it and nothing else changes (EscapedConcat, EscapedLength, EscapedPlain, SpecialsArePrefixed), and UnescapeEscaped reads it back losslessly |
| Markdown.EscapeCharsFresh | messages.py:6-7 | the characters of `escape_chars` are all different and none is a backslash |
| Markdown.ReplaceEscapesOneMore | messages.py:7-8 | one more `replace` of a new, non-backslash special character extends the escaping to that character without touching the earlier escapes |
| Markdown.ReplacedConcat | messages.py:8 | `str.replace` with a one-character pattern distributes over concatenation |
| Markdown.EscapedByNothing | messages.py:4-8 | before any replacement the text is unchanged |
| Markdown.EscapedConcat | messages.py:2-9 | escaping is a per-character map |
| Markdown.EscapedLength | messages.py:2-9 | output length = input length + number of special characters |
| Markdown.EscapedPlain | messages.py:2-9 | text with no special characters comes out unchanged |
| Markdown.SpecialsArePrefixed | messages.py:2-9 | every special character in the output comes right after a backslash |
| Markdown.EscapedStart | messages.py:2-9 | escaped text never starts with a special character |
| Markdown.UnescapeEscaped | messages.py:2-9 | reading the escapes back gives the original text, so nothing is lost or reordered |
| Subgroups.SubgroupMark | messages.py:135-141 | the mark is non-empty exactly for '1' and '2', and is then `" [" + subgroup + "]"` |
| Subgroups.BucketOf | messages.py:148-152 | the group a lesson is filed under; AllGroupMembers and InBucketMembers state that '1' and '2' go to their own groups and a missing or other subgroup goes to 'all' |
| Lessons.SubgroupOf | messages.py:148 | a missing subgroup reads as 'all'; AllGroupMembers states the filing that follows from it |
| Subgroups.GroupBySubgroup | messages.py:144-153 | each of the three groups is the input's lessons filed under it, in input order |
| Subgroups.InBucketConcat | messages.py:147-153 | filing keeps input order (it distributes over concatenation) |
| Subgroups.InBucketMembers | messages.py:146-153 | a group holds exactly the input lessons filed under it |
| Subgroups.AllGroupMembers | messages.py:148-153 | 'all' holds exactly the lessons whose subgroup is missing or is neither '1' nor '2' |
| Subgroups.InBucketCount | messages.py:146-153 | a group holds each lesson filed under it as many times as the input does, and no other lesson |
| Subgroups.GroupSizes | messages.py:144-153 | the group sizes add up to the input length |
| Subgroups.GroupsPartition | messages.py:144-153 | together the groups are the input multiset: no lesson is lost or duplicated |
| Weekdays.DaysFullDistinct | messages.py:18 | the seven canonical day names are distinct |
| Weekdays.WeekdayIndex | messages.py:18 | a canonical day's position in the week |
| Weekdays.WeekdayIndexOf | messages.py:18 | the position of the i-th day is i |
| Weekdays.WeekdaysUpToMembers | messages.py:305 | walking the first n days keeps exactly those of them that are present |
| Weekdays.PositionsUpToFacts | messages.py:305 | the days kept among the first n are the days at ascending positions below n |
| Weekdays.WeekdaysUpToOrder | messages.py:305 | walking the first n days lists canonical days in week order |
| Weekdays.WeekdaysInOrder | messages.py:305 | the listing is in week order (hence no repeats) and holds exactly the canonical days that are present |
| Weekdays.WeekdaysIn | messages.py:305 | WeekdaysInOrder states that it lists exactly the canonical days present, each once, Monday to Sunday |
| TimeOrder.LexLeRefl | messages.py:442 | string `<=` is reflexive |
| TimeOrder.LexLeTotal | messages.py:442 | string `<=` is total |
| TimeOrder.LexLeTrans | messages.py:442 | string `<=` is transitive |
| TimeOrder.InsertPermutes | messages.py:442 | insertion adds exactly the new element |
| TimeOrder.InsertLowerBound | messages.py:442 | a lower bound of the list and of the new element bounds the list after insertion |
| TimeOrder.InsertSorted | messages.py:442 | inserting into a sorted list keeps it sorted |
| TimeOrder.InsertStable | messages.py:442 | the inserted element goes before every element with the same key |
| TimeOrder.SortByTimeCorrect | messages.py:442 | the sorted list is non-decreasing by time string (default '00:00') and is a permutation of the input |
| TimeOrder.SortByTimeStable | messages.py:442 | for every time string, lessons with that time keep their input order |
| TimeOrder.SortByTimeLength | messages.py:442 | sorting keeps the length |
| TimeOrder.SortByTime | messages.py:442 | SortByTimeCorrect states that the result is ordered by time string (missing time as '00:00') and is a permutation; SortByTimeStable that equal times keep input order |
| Messages.ShortLines | messages.py:174-178 | one line per lesson, in order, holding its escaped time and subject (with the caller's defaults) and its subgroup mark |
| Messages.ShortLine | messages.py:174-178 | ShortLines states that each lesson's line has its escaped time and subject, with the caller's defaults, and its subgroup mark |
| Messages.NumberLines | messages.py:197-200 | line k carries number k+1 and the escaped time and subject (defaults `--:--`, `Без названия`) of the k-th lesson |
| Messages.AddSection | messages.py:195-201 | an empty group adds no section; a non-empty group adds its numbered section and adds its size to the total |
| Messages.FormatDaySchedule | messages.py:182-239 | no lessons gives the "no lessons" view; otherwise the sections are 'all', '1', '2' (only the non-empty ones), the total is the number of lessons, and the distribution lists the non-empty groups' sizes |
| Messages.SectionsOfGroups | messages.py:195-223 | the day's sections are determined by the three groups |
| Messages.CountTotalConcat | messages.py:228-237 | a count list's total distributes over concatenation |
| Messages.CountTotalOne | messages.py:228-237 | the total of a single entry is its count |
| Messages.DistributionSum | messages.py:228-237 | the listed counts add up to the sum of the three counters, and no listed count is zero |
| Messages.DistributionTotal | messages.py:192-237 | a day's distribution adds up to its number of lessons |
| Messages.MatchesConcat | messages.py:195-234 | sections and count entries that agree one to one still agree after both are extended in step |
| Messages.DayScheduleCounts | messages.py:192-237 | one distribution entry per section, with that section's group and line count; the entries add up to the number of lessons |
| Messages.TallySubgroups | messages.py:256-261 | the counting loop adds the sizes of the day's three groups to the running totals; unknown subgroups count as 'all' |
| Messages.FormatFullScheduleByDays | messages.py:242-297 | an empty schedule gives the empty view; otherwise there is one summary per canonical day with lessons, Monday to Sunday, and the totals are the count and distribution of those lessons |
| Messages.Summary | messages.py:266-281 | a day's summary has one line per lesson of the day |
| Messages.SummariesFollowDays | messages.py:251-281 | the n-th summary belongs to the n-th listed day and holds that day's counts and lines |
| Messages.LessonsUpToLines | messages.py:263-281 | the lessons counted equal the lines printed |
| Messages.LineCountConcat | messages.py:280-281 | the line count of two runs of days is the sum of their line counts |
| Messages.LineCountOne | messages.py:280-281 | one day's line count is its number of lines |
| Messages.WeekScheduleDays | messages.py:251-252 | the days run Monday to Sunday and are exactly the canonical keys with a non-empty list; keys outside the week are skipped |
| Messages.WeekScheduleTotals | messages.py:248-294 | the grand total equals the number of lines listed, and the subgroup totals add up to it |
| Messages.CyrillicNeedsNoEscaping | messages.py:2-9 | text made of characters from the Cyrillic block upwards is unchanged by escaping |
| Messages.WeekdayNamesNeedNoEscaping | messages.py:309-310 | a canonical day name is unchanged by escaping |
| Messages.FormatWeekOverview | messages.py:300-314 | no days gives the "no lessons" view; otherwise the days listed are exactly the canonical days in the input, in week order, and the count is the input's length |
| Messages.Blocks | messages.py:435-450 | one block per day, in the given order |
| Messages.GroupByDay | messages.py:414-420 | the dict's keys are the days in order of first appearance (default 'Неизвестно'); each day's list is its lessons in input order |
| Messages.DayOf | messages.py:417 | a record without a day is grouped under 'Неизвестно'; SeenDaysMembers and OnDayCount state the grouping by it |
| Messages.SeenDays | messages.py:414-420 | the keys of the grouping in insertion order: SeenDaysMembers (a day is a key iff some lesson is on it), SeenDaysDistinct (no key twice) and SeenDaysFirstAppearance (an earlier key first appears earlier) |
| Messages.SortDays | messages.py:422-429 | the day order is the canonical days present, Monday to Sunday, then the other keys in insertion order |
| Messages.CanonicalDays | messages.py:423-426 | the first loop collects the canonical days present, Monday to Sunday |
| Messages.AppendOtherDays | messages.py:427-429 | the second loop appends the non-canonical keys in insertion order, each once |
| Messages.OtherDayIsNew | messages.py:427-429 | with distinct keys, no key is already among the non-canonical keys before it |
| Messages.ListDays | messages.py:432-450 | the blocks are the days' time-sorted lessons with their lines; the total counts the lessons of those days |
| Messages.FormatAllLessonsMessage | messages.py:409-453 | no lessons gives the empty view; otherwise the blocks follow the day order, and the total is the number of lessons |
| Messages.UnseenDayIsEmpty | messages.py:417-420 | a day that is not yet a key has no lessons so far |
| Messages.SeenDaysMembers | messages.py:414-420 | a day is a key iff some lesson is on it |
| Messages.SeenDaysDistinct | messages.py:414-420 | no key is repeated |
| Messages.OtherDaysMembers | messages.py:427-429 | the days after the week are exactly the non-canonical keys |
| Messages.OtherDaysDistinct | messages.py:427-429 | the days after the week are not repeated |
| Messages.OtherDaysConcat | messages.py:427-429 | picking the non-canonical keys distributes over concatenation, so it keeps their order |
| Messages.OtherDaysInKeyOrder | messages.py:427-429 | of two non-canonical days, the one listed first is the earlier key |
| Messages.OtherDaysFollowFirstAppearance | messages.py:414-429 | the days listed after the week follow first appearance: some lesson on the earlier one comes before every lesson on the later one |
| Messages.WeekThenOthersDistinct | messages.py:423-429 | canonical days in week order, then distinct non-canonical days, contain no repeats |
| Messages.DayOrderCoversDays | messages.py:414-429 | every lesson's day is listed once; only days with lessons are listed; the canonical ones come first in week order |
| Messages.DayOrderMembers | messages.py:422-429 | a day is in the order iff it is a key of the grouping |
| Messages.SeenDaysFirstAppearance | messages.py:414-429 | a key listed before another first appears in the input before the other first appears |
| Messages.OnDayCount | messages.py:414-420 | a day's list holds each lesson on that day as many times as the input does, and no other lesson |
| Messages.OnDaysCount | messages.py:414-437 | distinct days pick up each lesson whose day is among them as many times as the input holds it, and no other lesson |
| Messages.OnDaysCover | messages.py:414-437 | distinct days covering every lesson's day pick up each lesson once, so the total is the number of lessons |
| Messages.ListedBlocks | messages.py:435-442 | the blocks together list the lessons of their days; the sort changes order only |
| Messages.AllLessonsListedOnce | messages.py:409-450 | every lesson in the database appears exactly once in the listing |
| Messages.BlockSortedStable | messages.py:442 | within a day, lessons are non-decreasing by time string, are that day's lessons, and keep their input order when times are equal |
| Replies.FormatErrorMessage | messages.py:392-406 | the details are escaped; a known key selects its own template; any other template is chosen only by its own key, so anything else falls back to 'unknown' |
| Replies.ErrorKeyRoundTrip | messages.py:395-405 | every error template is reached through its own key |
| Replies.UnknownErrorFallback | messages.py:406 | a type that is no key gets the 'unknown' template, with the details attached |
| Replies.FormatSuccessMessage | messages.py:378-389 | a known action selects its own template; the generic message is used for any other action; the details are escaped and absent only from the cache template |
| Replies.SuccessKeyRoundTrip | messages.py:381-386 | each action with a template gets that template |
| Replies.UnknownActionFallback | messages.py:389 | any other action gets the generic message, with the escaped details |

## Left out

- File and JSON persistence (`open`, `json.load`, `json.dump`, `os.path.exists`, database.py:14-28). The file is the field `file`. A file removed or corrupted by someone else after construction is not modelled.
- `datetime.now()`: the time stamp is the parameter `now`; the clock is not modelled.
- Database.ScheduleDatabase.AddLesson: writes `id` and `created_at` into a copy of the caller's record. The source writes them into the caller's own dict, so the caller sees them too. That aliasing is not modelled.
- Python objects of unexpected types (a non-string subgroup, a non-integer id) are not modelled. Fields are typed by what the source means them to hold.
- The text of messages: emoji, fixed wording, line breaks and separators, and the `*...*` of `safe_markdown_bold` (messages.py:12-14). Views keep the structure and the escaped fields only. `str(i)` of numbers and counts is kept as the number.
- Messages.FormatAllLessonsMessage: the day heading is the raw day name. The source prints `day.upper()`, and Unicode case mapping is not modelled.
- Messages.FormatAllLessonsMessage: `lessons.sort` sorts the grouping's own list in place. The model sorts with the value-level `SortByTime`, a stable insertion sort; the in-place update of that list is not modelled.
- Messages.FormatWeekOverview: modelled as a function; the source's loop over `sorted_days` (messages.py:308-310) only prints each day.
- Per-day emoji tables `DAY_EMOJIS` and `DAY_NUMBER_EMOJIS`, and `SUBGROUP_TEXTS` (messages.py:29-43): presentation only.
- format_lesson_message, format_day_command_response, format_subgroup_changed_message, format_delete_confirmation_message, format_add_instruction_message, get_help_message, get_welcome_message, get_days_list_message and get_subgroups_list_message (messages.py:47-131, 157-171, 318-374): fixed text around escaped fields, with no ordering or counting.
- keyboards.py (Telegram keyboard objects from a foreign library) and bot.py (asynchronous Telegram handlers, token loading, polling) are not part of this model.
