/**
 * A lesson record as the bot stores it: a JSON object whose fields are all read
 * with a default, so every field is optional here.
 */
module Lessons {
  import opened Wrappers

  datatype Lesson = Lesson(
    subject: Option<string>,
    time: Option<string>,
    day: Option<string>,
    subgroup: Option<string>,
    id: Option<int>,
    createdAt: Option<string>)

  /** The subgroup of a lesson; a record without one belongs to 'all' (messages.py:148). */
  function SubgroupOf(l: Lesson): string {
    l.subgroup.GetOr("all")
  }
}
