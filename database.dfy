/**
 * The lesson store (`ScheduleDatabase`). The JSON file is abstracted to one
 * field holding the parsed document; loading and saving become reading and
 * assigning that field.
 */
module Database {
  import opened Wrappers
  import opened Lessons

  /**
   * The parsed JSON document. `schedule` is None when the document has no
   * 'schedule' key; `metadata` is carried along untouched.
   */
  datatype Document = Document(schedule: Option<seq<Lesson>>, metadata: map<string, string>)

  /** `data['schedule']` on a document without that key raises KeyError. */
  datatype StoreError = MissingScheduleKey

  /** The dict `{'success': ..., 'lesson_id': ...}` that add_lesson returns. */
  datatype AddReply = AddReply(success: bool, lessonId: int)

  /** The document ensure_db_exists writes when there is no file. */
  function DefaultDocument(now: string): Document {
    Document(Some([]), map["created_at" := now])
  }

  /** The document present after ensure_db_exists, given what was on disk. */
  function Ensured(file: Option<Document>, now: string): (d: Document)
    ensures file.Some? ==> d == file.value
    ensures file.None? ==> d.schedule == Some([]) && d.metadata == map["created_at" := now]
  {
    if file.None? then DefaultDocument(now) else file.value
  }

  /** The record add_lesson stores: the caller's data with `id` and `created_at` written in. */
  function Stamped(l: Lesson, id: int, now: string): (r: Lesson)
    ensures r.id == Some(id) && r.createdAt == Some(now)
    ensures r.subject == l.subject && r.time == l.time && r.day == l.day && r.subgroup == l.subgroup
  {
    l.(id := Some(id), createdAt := Some(now))
  }

  /** The schedule after add_lesson: the new id is the old length plus one, not the largest id plus one. */
  function WithAdded(s: seq<Lesson>, l: Lesson, now: string): (r: seq<Lesson>)
    ensures |r| == |s| + 1
    ensures r[..|s|] == s
    ensures r[|s|].id == Some(|s| + 1) && r[|s|].createdAt == Some(now)
    ensures r[|s|].subject == l.subject && r[|s|].time == l.time
    ensures r[|s|].day == l.day && r[|s|].subgroup == l.subgroup
  {
    s + [Stamped(l, |s| + 1, now)]
  }

  /** The list comprehension of delete_lesson: every record whose id differs from `x`. */
  function WithoutId(s: seq<Lesson>, x: int): (r: seq<Lesson>)
    ensures |r| <= |s|
  {
    if s == [] then []
    else (if s[0].id == Some(x) then [] else [s[0]]) + WithoutId(s[1..], x)
  }

  /** The first-match scan of get_lesson_by_id. */
  function FirstWithId(s: seq<Lesson>, x: int): (r: Option<Lesson>)
    ensures r.Some? ==> r.value in s && r.value.id == Some(x)
  {
    if s == [] then None
    else if s[0].id == Some(x) then Some(s[0])
    else FirstWithId(s[1..], x)
  }

  /** The record at index i carries id i + 1. */
  ghost predicate IdsSequential(s: seq<Lesson>) {
    forall i :: 0 <= i < |s| ==> s[i].id == Some(i + 1)
  }

  /** A run of add_lesson calls, each with its lesson data and its timestamp. */
  function AddAll(s: seq<Lesson>, batch: seq<(Lesson, string)>): seq<Lesson>
    decreases |batch|
  {
    if batch == [] then s
    else AddAll(WithAdded(s, batch[0].0, batch[0].1), batch[1..])
  }

  class ScheduleDatabase {
    /** The backing file: None while it does not exist. */
    var file: Option<Document>

    ghost predicate Valid()
      reads this
    {
      file.Some?
    }

    /** What get_all_lessons returns: the stored list, or [] without a 'schedule' key. */
    function AllLessons(): seq<Lesson>
      reads this
      requires Valid()
    {
      file.value.schedule.GetOr([])
    }

    /** `__init__`: opens the store on whatever is on disk and runs ensure_db_exists. */
    constructor (stored: Option<Document>, now: string)
      ensures Valid()
      ensures file == Some(Ensured(stored, now))
    {
      file := stored;
      new;
      EnsureDbExists(now);
    }

    /** Writes the default document when there is no file; otherwise leaves the file alone. */
    method EnsureDbExists(now: string)
      modifies this
      ensures Valid()
      ensures file == Some(Ensured(old(file), now))
    {
      if file.None? {
        file := Some(DefaultDocument(now));
      }
    }

    method AddLesson(lessonData: Lesson, now: string) returns (r: Result<AddReply, StoreError>)
      requires Valid()
      modifies this
      ensures Valid()
      ensures old(file.value.schedule).None? ==>
        r == Failure(MissingScheduleKey) && file == old(file)
      ensures old(file.value.schedule).Some? ==>
        var s := old(file.value.schedule.value);
        r == Success(AddReply(true, |s| + 1)) &&
        file == Some(old(file.value).(schedule := Some(WithAdded(s, lessonData, now))))
    {
      var data := file.value;
      if data.schedule.None? {
        return Failure(MissingScheduleKey);
      }
      var lessonId := |data.schedule.value| + 1;
      var stored := Stamped(lessonData, lessonId, now);
      data := data.(schedule := Some(data.schedule.value + [stored]));
      file := Some(data);
      r := Success(AddReply(true, lessonId));
    }

    method DeleteLesson(lessonId: int) returns (r: Result<bool, StoreError>)
      requires Valid()
      modifies this
      ensures Valid()
      ensures old(file.value.schedule).None? ==>
        r == Failure(MissingScheduleKey) && file == old(file)
      ensures old(file.value.schedule).Some? ==>
        r == Success(true) &&
        file == Some(old(file.value).(schedule := Some(WithoutId(old(file.value.schedule.value), lessonId))))
    {
      var data := file.value;
      if data.schedule.None? {
        return Failure(MissingScheduleKey);
      }
      data := data.(schedule := Some(WithoutId(data.schedule.value, lessonId)));
      file := Some(data);
      r := Success(true);
    }

    method GetAllLessons() returns (r: seq<Lesson>)
      requires Valid()
      ensures file.value.schedule.Some? ==> r == file.value.schedule.value
      ensures file.value.schedule.None? ==> r == []
    {
      var data := file.value;
      r := if data.schedule.Some? then data.schedule.value else [];
    }

    method GetLessonById(lessonId: int) returns (r: Option<Lesson>)
      requires Valid()
      ensures r == FirstWithId(AllLessons(), lessonId)
    {
      var lessons := GetAllLessons();
      var i := 0;
      while i < |lessons|
        invariant 0 <= i <= |lessons|
        invariant FirstWithId(lessons, lessonId) == FirstWithId(lessons[i..], lessonId)
      {
        if lessons[i].id == Some(lessonId) {
          return Some(lessons[i]);
        }
        assert lessons[i..][1..] == lessons[i + 1..];
        i := i + 1;
      }
      r := None;
    }
  }

  /**
   * Ids can repeat once a record has been deleted: two adds, a delete of id 1
   * and a third add leave two records with id 2, and get_lesson_by_id(2) then
   * finds the older one.
   */
  method IdCollisionAfterDelete(a: Lesson, b: Lesson, c: Lesson, now: string)
    returns (found: Option<Lesson>, all: seq<Lesson>)
    ensures |all| == 2 && all[0].id == Some(2) && all[1].id == Some(2)
    ensures found == Some(Stamped(b, 2, now))
  {
    var db := new ScheduleDatabase(None, now);
    var r1 := db.AddLesson(a, now);
    var r2 := db.AddLesson(b, now);
    var d := db.DeleteLesson(1);
    var r3 := db.AddLesson(c, now);
    assert r3 == Success(AddReply(true, 2));
    all := db.GetAllLessons();
    found := db.GetLessonById(2);
  }

  /** A store created where no file exists starts with an empty schedule. */
  lemma FreshStoreIsEmpty(now: string)
    ensures Ensured(None, now).schedule == Some([])
    ensures Ensured(Some(Ensured(None, now)), now) == Ensured(None, now)
  {
  }

  /** What delete_lesson keeps: exactly the records whose id is not x. */
  lemma {:induction false} WithoutIdMembers(s: seq<Lesson>, x: int)
    ensures forall l :: l in WithoutId(s, x) <==> l in s && l.id != Some(x)
  {
    if s != [] {
      WithoutIdMembers(s[1..], x);
      assert s == [s[0]] + s[1..];
    }
  }

  /** The filter keeps the original order: it distributes over concatenation. */
  lemma {:induction false} WithoutIdConcat(a: seq<Lesson>, b: seq<Lesson>, x: int)
    ensures WithoutId(a + b, x) == WithoutId(a, x) + WithoutId(b, x)
  {
    if a == [] {
      assert a + b == b;
    } else {
      assert (a + b)[0] == a[0] && (a + b)[1..] == a[1..] + b;
      WithoutIdConcat(a[1..], b, x);
    }
  }

  /** Deleting an id no record carries changes nothing. */
  lemma {:induction false} WithoutAbsentId(s: seq<Lesson>, x: int)
    requires forall k :: 0 <= k < |s| ==> s[k].id != Some(x)
    ensures WithoutId(s, x) == s
  {
    if s != [] {
      WithoutAbsentId(s[1..], x);
    }
  }

  /** Deleting the same id twice leaves the same schedule as deleting it once. */
  lemma {:induction false} DeleteIdempotent(s: seq<Lesson>, x: int)
    ensures WithoutId(WithoutId(s, x), x) == WithoutId(s, x)
  {
    WithoutIdMembers(s, x);
    var r := WithoutId(s, x);
    forall k | 0 <= k < |r|
      ensures r[k].id != Some(x)
    {
      assert r[k] in r;
    }
    WithoutAbsentId(r, x);
  }

  /** get_lesson_by_id returns the first record with the id, and None exactly when there is none. */
  lemma {:induction false} FirstWithIdIsFirstMatch(s: seq<Lesson>, x: int)
    ensures FirstWithId(s, x).None? <==> forall k :: 0 <= k < |s| ==> s[k].id != Some(x)
    ensures FirstWithId(s, x).Some? ==>
      exists k :: 0 <= k < |s| && s[k] == FirstWithId(s, x).value && s[k].id == Some(x) &&
        forall j :: 0 <= j < k ==> s[j].id != Some(x)
  {
    if s != [] && s[0].id != Some(x) {
      FirstWithIdIsFirstMatch(s[1..], x);
      if FirstWithId(s[1..], x).Some? {
        var k :| 0 <= k < |s[1..]| && s[1..][k] == FirstWithId(s[1..], x).value && s[1..][k].id == Some(x) &&
          forall j :: 0 <= j < k ==> s[1..][j].id != Some(x);
        assert s[k + 1] == s[1..][k];
        forall j | 0 <= j < k + 1
          ensures s[j].id != Some(x)
        {
          if j > 0 { assert s[j] == s[1..][j - 1]; }
        }
      } else {
        forall k | 0 <= k < |s|
          ensures s[k].id != Some(x)
        {
          if k > 0 { assert s[k] == s[1..][k - 1]; }
        }
      }
    }
  }

  /** After delete_lesson(x), get_lesson_by_id(x) finds nothing. */
  lemma DeleteThenGet(s: seq<Lesson>, x: int)
    ensures FirstWithId(WithoutId(s, x), x) == None
  {
    var r := WithoutId(s, x);
    WithoutIdMembers(s, x);
    forall k | 0 <= k < |r|
      ensures r[k].id != Some(x)
    {
      assert r[k] in r;
    }
    FirstWithIdIsFirstMatch(r, x);
  }

  /** Deleting x does not change what get_lesson_by_id finds for any other id. */
  lemma {:induction false} DeleteKeepsOtherLookups(s: seq<Lesson>, x: int, y: int)
    requires x != y
    ensures FirstWithId(WithoutId(s, x), y) == FirstWithId(s, y)
  {
    if s != [] {
      DeleteKeepsOtherLookups(s[1..], x, y);
      if s[0].id == Some(x) {
        assert WithoutId(s, x) == WithoutId(s[1..], x);
      } else {
        assert WithoutId(s, x) == [s[0]] + WithoutId(s[1..], x);
        assert ([s[0]] + WithoutId(s[1..], x))[1..] == WithoutId(s[1..], x);
      }
    }
  }

  /** add_lesson keeps the ids sequential. */
  lemma AddKeepsIdsSequential(s: seq<Lesson>, l: Lesson, now: string)
    requires IdsSequential(s)
    ensures IdsSequential(WithAdded(s, l, now))
  {
    var r := WithAdded(s, l, now);
    forall i | 0 <= i < |r|
      ensures r[i].id == Some(i + 1)
    {
      if i < |s| { assert r[i] == r[..|s|][i]; }
    }
  }

  /** Only add_lesson calls, starting from sequential ids (an empty store, say), keep them sequential. */
  lemma {:induction false} AddsKeepIdsSequential(s: seq<Lesson>, batch: seq<(Lesson, string)>)
    requires IdsSequential(s)
    ensures IdsSequential(AddAll(s, batch))
    decreases |batch|
  {
    if batch != [] {
      AddKeepsIdsSequential(s, batch[0].0, batch[0].1);
      AddsKeepIdsSequential(WithAdded(s, batch[0].0, batch[0].1), batch[1..]);
    }
  }

  /** From an empty store, a run of adds gives the record at index i the id i + 1. */
  lemma AddsFromEmpty(batch: seq<(Lesson, string)>)
    ensures |AddAll([], batch)| == |batch|
    ensures IdsSequential(AddAll([], batch))
  {
    AddsKeepIdsSequential([], batch);
    AddAllLength([], batch);
  }

  lemma {:induction false} AddAllLength(s: seq<Lesson>, batch: seq<(Lesson, string)>)
    ensures |AddAll(s, batch)| == |s| + |batch|
    decreases |batch|
  {
    if batch != [] {
      AddAllLength(WithAdded(s, batch[0].0, batch[0].1), batch[1..]);
    }
  }

  /** With sequential ids, ids are unique and get_lesson_by_id(k + 1) finds the record at index k. */
  lemma {:induction false} SequentialIdsLookup(s: seq<Lesson>, k: nat)
    requires IdsSequential(s)
    requires k < |s|
    ensures forall j :: 0 <= j < |s| && s[j].id == s[k].id ==> j == k
    ensures FirstWithId(s, k + 1) == Some(s[k])
  {
    FirstWithIdIsFirstMatch(s, k + 1);
  }
}
