# Attendance pipeline: device poller, ingestor and daily reducer

This project models the three stages of a small ZKTeco attendance pipeline.
The stages talk to each other through one staging file,
`last_10_attendance_logs.txt`.

- **Device poller** (`index2.js`, module `Poller`). A poll asks the device for
  its attendance buffer and accepts either a bare array or an object whose
  `data` field is an array. It keeps the last five punches (the comment says
  ten; the code slices five). It reports the punches whose `sn` the previous
  poll's tail did not carry, and keeps the new tail as the cursor for the next
  poll. When something is new, it rewrites the staging file with the whole
  tail. The poller is the class `Poller.DevicePoller`, and its field
  `lastRetrievedLogs` is the source's closure variable.
- **Ingestor** (`index.js`, module `Ingestor`). It reads the staged records in
  order and skips any record whose `user_id` or `record_time` is falsy. It
  maps `user_id` to the user's SSN through `tbl_user` and skips unknown users.
  It then calls `insertAttendanceLog` with (SSN, CHECKTIME). That call skips a
  pair the log already holds and otherwise INSERTs it. `UNIQUE(SSN, CHECKTIME)`
  and the foreign key to `tbl_user(SSN)` are the table's invariants. The store
  is the class `Ingestor.Store`: `tbl_user` is a map from id to SSN, and
  `tbl_checkinout` is the field `rows`, which the methods reassign.
- **Daily reducer** (`index3.js`, module `Reducer`). It groups the staged
  records by (`user_id`, local calendar date). It sorts each group's times and
  emits one summary per group. A summary has the group's `sn` list, `user_id`,
  the `ip` of the record that opened the group, the sorted times, CHECKIN (the
  earliest time) and CHECKOUT (the latest, or CHECKIN when the group has one
  record).

Each state-changing operation is a method whose contract ties the new state
to a pure specification function:

- The poll ties its result to `Poller.NewPunches` and `Poller.Tail`; it runs no loop itself.
- The ingestor's per-record loop is tied to `Ingestor.Ingest`.
- The reducer's grouping and summary loops are tied to `Reducer.Reduces`.

Lemmas then prove what the pipeline promises about those functions.

A staged record tells an absent field, a `null` one and a value apart. The
difference matters in two places:

- The reducer files its records under `groupedLogsByDate[userId]`. JavaScript
  turns that key into the strings "undefined", "null" or the id's digits, so
  the three give separate groups.
- `new Date(null)` is the epoch, whereas `new Date(undefined)` is the invalid
  date.

The JavaScript runtime services are parameters of the model:

- `new Date(text)` is a `DateParser` that maps text to milliseconds, or to
  `None` for an Invalid Date.
- `toDateString()` is a day function inside `Reducer.Clock`.
- The device response, the outcome of the file read and JSON parse
  (`StagedContent`), and whether the file write succeeds are plain values.

Where the code and its description disagree, the model follows the code:

- **A bad date stops the ingestor's batch.** A punch that passes the falsy
  check but carries an unparseable `record_time` throws a `RangeError` in
  `toISOString` at `index.js:154`. That line is outside `insertAttendanceLog`'s
  own `try`. The exception escapes the loop and is caught at `index.js:159`,
  so the rest of the batch is abandoned. The model returns early there
  (`Ingestor.Action.Abort`); it does not skip to the next record.
- **There is no date field in the summary.** The summary spreads the group
  object, which holds `sn`, `user_id`, `record_time` and `ip`, so no date is
  emitted.
- **The tail is five punches, not ten.**

## Model

| member | source | states |
|---|---|---|
| Poller.Normalize | index2.js:19-28 | A bare array, or an object whose `data` is an array, yields that list. Any other shape yields `None`. |
| Poller.SliceFrom | index2.js:31 | `slice(start)` with a negative start keeps the last `min(-start, n)` elements; a start inside the list drops that many. The result is always a suffix. |
| Poller.Tail | index2.js:30-31 | The tail is the last `min(5, n)` punches of the buffer, in order. |
| Poller.Seen | index2.js:34 | Whether some cursor punch has the `sn` (`lastRetrievedLogs.some(...)`). Its meaning for the filter is stated by NewPunches and the lemmas below. |
| Poller.NewPunches | index2.js:33-34 | A punch is reported iff it is in the tail and no punch of the cursor has its `sn`. Reported punches keep the tail's order and are never more than the tail. |
| Poller.NewPunchesAppend | index2.js:34 | The filter distributes over concatenation of tails. |
| Poller.NewPunchesAllSeen | index2.js:34 | Nothing is reported when every tail punch is in the cursor. |
| Poller.NothingNewTwice | index2.js:34-37 | Polling an unchanged buffer right after a poll reports nothing new. |
| Poller.NewPunchesNoneSeen | index2.js:34 | When no tail `sn` is in the cursor, the whole tail is reported. |
| Poller.ArrivalsUnseen | index2.js:31-37 | With distinct `sn`s, no punch that arrived after a poll shares an `sn` with the tail that poll kept. |
| Poller.TailOfAppend | index2.js:31 | The tail of a grown buffer is the last five arrivals, or the newest old punches followed by every arrival. |
| Poller.PollReportsArrivals | index2.js:30-37 | With distinct `sn`s, the second of two polls reports exactly the last five punches that arrived between them, in order. A burst of more than five loses the older ones. |
| Poller.DevicePoller.constructor | index2.js:6 | The cursor starts empty and nothing has been written yet. |
| Poller.DevicePoller.FetchAttendanceLogs | index2.js:14-53 | A thrown fetch or an unexpected shape changes nothing. Otherwise the poll returns `NewPunches(tail, old cursor)` and the cursor becomes the tail. The staging snapshot becomes the tail exactly when something was new and the write succeeded. |
| Ingestor.Truthy | index.js:142 | The validation passes iff `user_id` is present and non-zero and `record_time` is present and non-empty (absent, `null`, 0 and "" are falsy). Its effect is stated by ActionFor. |
| Ingestor.SsnOf | index.js:148-151 | The lookup finds an SSN iff the id is in `tbl_user`, and that SSN is the user's. |
| Ingestor.ActionFor | index.js:138-157 | A falsy `user_id` or `record_time` is skipped. So is an unknown user. A known user with a valid date offers (SSN, instant), and that SSN is a user's. A record aborts the batch iff it passes validation, its user is known and its date does not parse. |
| Ingestor.Insert | index.js:106-122 | A duplicate is skipped, and a row whose SSN no user has is rejected by the foreign key. Otherwise the row is appended. The result holds the row iff it was there or its SSN belongs to a user. Uniqueness and the foreign key are preserved. |
| Ingestor.Processed | index.js:138-159 | The records handled before the batch is abandoned: a prefix with no aborting record, followed in the batch by the aborting record, if there is one. |
| Ingestor.Ingest | index.js:138-158 | The log after the per-record loop: a batch only appends rows, and at most one per record. IngestKeepsConstraints, IngestStoresOffered, IngestProvenance, IngestStopsAtAbort, IngestIdempotent and IngestIgnoresSkipped describe it further. |
| Ingestor.IngestStep | index.js:138-157 | Processing from record `i` is that record's action followed by processing from `i + 1`. |
| Ingestor.IngestStopsAtAbort | index.js:154-161 | The records after the first aborting one have no effect: the batch acts as its processed prefix. |
| Ingestor.IngestKeepsConstraints | index.js:41-47 | `UNIQUE(SSN, CHECKTIME)` and the foreign key to `tbl_user(SSN)` hold after a batch if they held before. |
| Ingestor.IngestStoresOffered | index.js:150-154 | Every row offered before the batch is abandoned is in the log afterwards. |
| Ingestor.IngestProvenance | index.js:142-154 | Every new row comes from a staged record processed before any abort that passes validation, whose user exists, and whose time parses to that row's CHECKTIME. |
| Ingestor.IngestCoveredIsFixpoint | index.js:106-113 | A batch whose offered rows are all already logged leaves the log unchanged. |
| Ingestor.IngestIdempotent | index.js:94-122 | Processing the same staging file twice adds nothing the first run did not. |
| Ingestor.IngestIgnoresSkipped | index.js:141-145 | Removing a record that is skipped (falsy fields or unknown user) does not change the result. |
| Ingestor.Store.constructor | index.js:40-48 | A store starts from any tables that satisfy their declared constraints. |
| Ingestor.Store.IsDuplicateLog | index.js:94-103 | The count of matching rows is positive iff (SSN, CHECKTIME) is in the log. |
| Ingestor.Store.InsertAttendanceLog | index.js:106-122 | The log becomes `Insert(old log, (SSN, CHECKTIME))`, and the table constraints are kept. |
| Ingestor.Store.FetchLogsFromFile | index.js:125-163 | An unreadable or non-list file leaves the log unchanged. A list leaves it as `Ingest(old log, records)`, and the run completes iff no record aborts. |
| Reducer.MomentOf | index3.js:33 | `new Date(record_time)`: an absent time is the invalid date, `null` is the epoch, and a text gives what the parser gives, or the invalid date if it does not parse. |
| Reducer.KeyOf | index3.js:32-33 | A punch is filed under its own `user_id` (absent, `null` and each id are distinct) and the local day of its time; the day is missing exactly when the time is invalid. |
| Reducer.InsertSorted | index3.js:62 | Inserting into a sorted list keeps it sorted and adds exactly that element. |
| Reducer.SortMoments | index3.js:62 | The times come back sorted ascending and are a permutation of the input. |
| Reducer.MembersAreKeyed | index3.js:31-51 | A group holds exactly the punches whose (user, date) is its key. |
| Reducer.KeysAreDistinctKeysOfPunches | index3.js:36-46 | The group keys are distinct and are exactly the keys of the punches. Each key has a non-empty group. |
| Reducer.Opened | index3.js:39-46 | An existing group is left alone. A new key gets a group with no `sn`, no time, and the punch's `user_id` and `ip`, and every other group is kept. |
| Reducer.Pushed | index3.js:48-50 | The group of the key gets the punch's `sn` and time appended; its user and `ip` and every other group are kept. |
| Reducer.OtherGroupKept | index3.js:48-50 | A punch leaves every other group unchanged. |
| Reducer.OwnGroupPushed | index3.js:48-50 | A punch whose group exists appends its `sn` and its time to that group. |
| Reducer.OwnGroupOpened | index3.js:39-46 | A punch with a new key opens a group with its `user_id` and `ip` that holds only itself. |
| Reducer.GroupedExtended | index3.js:31-51 | One `forEach` step keeps the groups equal to the groups of the prefix seen so far. |
| Reducer.GroupPunches | index3.js:28-51 | After the pass, the keys are the distinct keys in first-appearance order. Each group is the `sn`s, times, user and opening `ip` of its members. |
| Reducer.Summarise | index3.js:59-83 | A summary holds the group's `sn`s, `user_id` and `ip`, and its sorted times. CHECKIN is the first time; CHECKOUT is the last, or CHECKIN when the group has one time. |
| Reducer.FetchAttendanceLogsFromFile | index3.js:9-85 | An unreadable file or bad JSON yields nothing. Non-array content yields no summaries. An array yields one summary per distinct (user, date) key. |
| Reducer.SnsFollowInput | index3.js:49-50 | A summary's `sn` list holds the group's sequence numbers in input order, one per time. |
| Reducer.EveryPunchInOneGroup | index3.js:31-51 | Every punch is in exactly one group, and that group's key is among the emitted keys. |
| Reducer.GroupSizesSumToInput | index3.js:31-51 | The group sizes add up to the number of staged records. |
| Reducer.SummaryTimesAreGroupTimes | index3.js:50 | A summary's times are exactly the times of its group's punches. |
| Reducer.CheckInEarliestCheckOutLatest | index3.js:62-75 | CHECKIN is a time of the group and no later than any of them. CHECKOUT is a time of the group and no earlier than any. CHECKIN is not after CHECKOUT. |
| Reducer.SinglePunchDay | index3.js:71-72 | A group with one punch has CHECKOUT equal to CHECKIN. |
| Reducer.CheckInOutIgnoreOrder | index3.js:62-75 | CHECKIN and CHECKOUT do not depend on the order of the staged records. |

## Left out

- The device client and its socket (`createSocket`, `getAttendances`) are left out. Each poll takes the response, or a thrown error, as a value.
- The MySQL connection, the table DDL and the demo seeding in `setupDatabase` are left out. The tables are values, and their DDL constraints are stated as predicates.
- `fetchData` is left out because it only prints the tables. All console logging is left out too.
- `fs.readFile`, `fs.writeFile` and `JSON.parse`/`JSON.stringify` are left out. The staging content is a `StagedContent` value, and whether a write succeeds is a parameter. The poller's snapshot stands for the file written, with no ordering between the write callback and the next poll.
- `setInterval` scheduling is left out. Each poll and each reducer run is one call.
- `new Date(text)` and `toDateString()` with the local time zone are parameters and are not modelled.
- The ingestor's CHECKTIME is the parsed instant. The model omits the `toISOString` text and the conversion to a one-second MySQL `DATETIME`, so two instants within one second count as distinct rows.
- MySQL errors other than a duplicate or a foreign-key violation (a lost connection, an SSN longer than 20 characters) are not modelled.
- A record that is not an object, a missing `sn`, and a `user_id` that is not an integer are not modelled. A string `user_id` such as "5" is one example; it would share a group key with the number 5. A string staged as the whole file content is also not modelled, although JavaScript would iterate over it.
- Reducer.FetchAttendanceLogsFromFile: emits summaries in first-appearance order of (user, date). JavaScript's `Object.keys` puts integer-like user ids in ascending numeric order first, and the model does not reproduce that order.
- Reducer.SortMoments: sorts a sequence value, not the group's array in place. The sort order puts an invalid date first, but a group never mixes invalid and valid dates because the date is part of its key.
- Reducer.Summarise: keeps CHECKIN and CHECKOUT as instants and leaves out the `Date.prototype.toString` text the source stores.
