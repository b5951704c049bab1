/**
 * The success and error replies: a dict of templates looked up by key with a
 * default. The template wording is opaque here; a reply is the template it
 * picks and the escaped details it embeds.
 */
module Replies {
  import opened Wrappers
  import opened Markdown

  // ---------------------------------------------------------------- format_error_message

  /** The templates of the `errors` dict. */
  datatype ErrorKind =
    | TimeFormat | MissingArgs | LessonNotFound | DbError
    | InvalidDay | NoLessons | InvalidSubgroup | UnknownError

  /** The dict key of each template. */
  function ErrorKey(k: ErrorKind): string {
    match k
    case TimeFormat => "time_format"
    case MissingArgs => "missing_args"
    case LessonNotFound => "lesson_not_found"
    case DbError => "db_error"
    case InvalidDay => "invalid_day"
    case NoLessons => "no_lessons"
    case InvalidSubgroup => "invalid_subgroup"
    case UnknownError => "unknown"
  }

  /** An error reply: the template chosen and the escaped details every template ends with. */
  datatype ErrorReply = ErrorReply(kind: ErrorKind, details: string)

  /** Picks the template whose key is the error type, falling back to 'unknown' (messages.py:392-406). */
  function FormatErrorMessage(errorType: string, details: string): (r: ErrorReply)
    ensures r.details == Escaped(details)
    ensures forall k :: ErrorKey(k) == errorType ==> r.kind == k
    ensures r.kind != UnknownError ==> ErrorKey(r.kind) == errorType
  {
    var kind :=
      if errorType == "time_format" then TimeFormat
      else if errorType == "missing_args" then MissingArgs
      else if errorType == "lesson_not_found" then LessonNotFound
      else if errorType == "db_error" then DbError
      else if errorType == "invalid_day" then InvalidDay
      else if errorType == "no_lessons" then NoLessons
      else if errorType == "invalid_subgroup" then InvalidSubgroup
      else UnknownError;
    ErrorReply(kind, Escaped(details))
  }

  /** Every template is reached through its own key. */
  lemma ErrorKeyRoundTrip(k: ErrorKind, details: string)
    ensures FormatErrorMessage(ErrorKey(k), details) == ErrorReply(k, Escaped(details))
  {
  }

  /** A type that is no key of the dict gets the 'unknown' template, with the details still attached. */
  lemma UnknownErrorFallback(errorType: string, details: string)
    requires forall k :: ErrorKey(k) != errorType
    ensures FormatErrorMessage(errorType, details) == ErrorReply(UnknownError, Escaped(details))
  {
  }

  // ---------------------------------------------------------------- format_success_message

  /** The templates of the `messages` dict, and the generic message used for any other action. */
  datatype SuccessKind = LessonAdded | LessonDeleted | SubgroupChanged | CacheCleared | ActionDone

  /** The dict key of each template; the generic message has none. */
  function SuccessKey(k: SuccessKind): Option<string> {
    match k
    case LessonAdded => Some("add")
    case LessonDeleted => Some("delete")
    case SubgroupChanged => Some("subgroup_changed")
    case CacheCleared => Some("cache_cleared")
    case ActionDone => None
  }

  /** A success reply: the template chosen and the escaped details, absent from the cache template. */
  datatype SuccessReply = SuccessReply(kind: SuccessKind, details: Option<string>)

  /** Picks the template whose key is the action, falling back to the generic message (messages.py:378-389). */
  function FormatSuccessMessage(action: string, details: string): (r: SuccessReply)
    ensures forall k :: SuccessKey(k) == Some(action) ==> r.kind == k
    ensures r.kind != ActionDone ==> SuccessKey(r.kind) == Some(action)
    ensures r.details == if r.kind == CacheCleared then None else Some(Escaped(details))
  {
    var kind :=
      if action == "add" then LessonAdded
      else if action == "delete" then LessonDeleted
      else if action == "subgroup_changed" then SubgroupChanged
      else if action == "cache_cleared" then CacheCleared
      else ActionDone;
    SuccessReply(kind, if kind == CacheCleared then None else Some(Escaped(details)))
  }

  /** Each action with a template of its own is answered with that template. */
  lemma SuccessKeyRoundTrip(k: SuccessKind, details: string)
    requires SuccessKey(k).Some?
    ensures FormatSuccessMessage(SuccessKey(k).value, details).kind == k
  {
  }

  /** Any other action gets the generic message, with the details attached. */
  lemma UnknownActionFallback(action: string, details: string)
    requires forall k :: SuccessKey(k) != Some(action)
    ensures FormatSuccessMessage(action, details) == SuccessReply(ActionDone, Some(Escaped(details)))
  {
  }
}
