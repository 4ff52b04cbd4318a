/**
  Types shared by the three stages of the attendance pipeline: the raw punch
  the device emits, and the content of the staging file that the poller
  writes and the ingestor and the daily reducer read.
 */
module Punches {

  datatype Option<+T> = None | Some(value: T)

  /** A field of a staged JSON record: absent (`undefined` once read),
      `null`, or a value. JavaScript keeps the three apart: as an object key
      they become "undefined", "null" and the value's text. */
  datatype Field<+T> = Absent | Null | Present(value: T)

  /** One attendance event as the device reports it and as it is staged.
      `recordTime` keeps the text the staging file holds, before any parsing. */
  datatype Punch = Punch(sn: int, userId: Field<int>, recordTime: Field<string>, ip: Field<string>)

  /** No element occurs twice. */
  predicate NoDuplicates<T(==)>(s: seq<T>)
  {
    forall i, j :: 0 <= i < j < |s| ==> s[i] != s[j]
  }

  /** What reading and parsing the staging file yields. `Unreadable` stands for
      a failed read or a failed JSON parse; `NotAList` for content that parsed
      but is not an array of records. */
  datatype StagedContent = Unreadable | NotAList | PunchList(items: seq<Punch>)

  /** The instant a `record_time` text denotes, as `new Date(text)` computes
      it, in milliseconds; `None` is an invalid date. JavaScript's date parser
      is not part of this model, so every stage takes it as a parameter. */
  type DateParser = string -> Option<int>
}
