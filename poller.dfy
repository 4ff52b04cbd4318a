/**
  The device poller of index2.js: one poll asks the device for its buffer,
  keeps the last five punches, finds those whose `sn` the previous poll did
  not see, remembers the tail for the next poll and rewrites the staging
  file with the whole tail when something is new.
 */
module Poller {
  import opened Punches

  /** How many of the most recent punches one poll looks at. */
  const TailLength: nat := 5

  /** The value `getAttendances()` resolves to: an array of punches, an object
      whose `data` field holds some value, or anything else. */
  datatype Response = PunchArray(items: seq<Punch>) | Wrapper(data: Response) | Other

  /** The outcome of asking the device: a response, or a thrown error. */
  datatype Fetch = Fetched(response: Response) | FetchFailed

  /** The list of punches a response carries; `None` when its shape is not
      one of the two the poller accepts. */
  function Normalize(r: Response): (logs: Option<seq<Punch>>)
    ensures r.PunchArray? ==> logs == Some(r.items)
    ensures r.Wrapper? && r.data.PunchArray? ==> logs == Some(r.data.items)
    ensures logs.Some? <==> r.PunchArray? || (r.Wrapper? && r.data.PunchArray?)
  {
    match r
    case PunchArray(items) => Some(items)
    case Wrapper(PunchArray(items)) => Some(items)
    case _ => None
  }

  function Min(a: int, b: int): int { if a <= b then a else b }

  /** `s.slice(start)` of JavaScript: a negative start counts from the end,
      and a start outside the sequence is clamped to it. */
  function SliceFrom<T>(s: seq<T>, start: int): (r: seq<T>)
    ensures start < 0 ==> |r| == Min(-start, |s|)
    ensures 0 <= start ==> |r| == (if start <= |s| then |s| - start else 0)
    ensures r == s[|s| - |r|..]
  {
    var from := if start < 0 then (if |s| + start < 0 then 0 else |s| + start)
                else (if start > |s| then |s| else start);
    s[from..]
  }

  /** The tail one poll observes: `logsArray.slice(-5)`. */
  function Tail(logs: seq<Punch>): (t: seq<Punch>)
    ensures |t| == Min(TailLength, |logs|)
    ensures t == logs[|logs| - |t|..]
  {
    SliceFrom(logs, -(TailLength as int))
  }

  /** Whether some punch of `cursor` carries sequence number `sn`. */
  predicate Seen(cursor: seq<Punch>, sn: int)
  {
    exists q :: q in cursor && q.sn == sn
  }

  /** `a` is `b` with some elements left out, in order. */
  predicate IsSubsequence<T(==)>(a: seq<T>, b: seq<T>)
    decreases |b|
  {
    a == [] ||
    (b != [] && ((a[0] == b[0] && IsSubsequence(a[1..], b[1..])) || IsSubsequence(a, b[1..])))
  }

  /** The punches of `tail` whose `sn` no punch of `cursor` carries:
      `tail.filter(log => !cursor.some(last => last.sn === log.sn))`. */
  function NewPunches(tail: seq<Punch>, cursor: seq<Punch>): (unseen: seq<Punch>)
    ensures forall p :: p in unseen <==> p in tail && !Seen(cursor, p.sn)
    ensures IsSubsequence(unseen, tail)
    ensures |unseen| <= |tail|
  {
    if tail == [] then []
    else
      var rest := NewPunches(tail[1..], cursor);
      if Seen(cursor, tail[0].sn) then rest else [tail[0]] + rest
  }

  /** No two punches of `s` share a sequence number. */
  predicate DistinctSns(s: seq<Punch>)
  {
    forall i, j :: 0 <= i < j < |s| ==> s[i].sn != s[j].sn
  }

  lemma {:induction false} NewPunchesAppend(a: seq<Punch>, b: seq<Punch>, cursor: seq<Punch>)
    ensures NewPunches(a + b, cursor) == NewPunches(a, cursor) + NewPunches(b, cursor)
  {
    if a != [] {
      assert (a + b)[0] == a[0] && (a + b)[1..] == a[1..] + b;
      NewPunchesAppend(a[1..], b, cursor);
    } else {
      assert a + b == b;
    }
  }

  lemma {:induction false} NewPunchesAllSeen(a: seq<Punch>, cursor: seq<Punch>)
    requires forall p :: p in a ==> p in cursor
    ensures NewPunches(a, cursor) == []
  {
    if a != [] {
      assert Seen(cursor, a[0].sn);
      NewPunchesAllSeen(a[1..], cursor);
    }
  }

  /** Polling a buffer whose tail the cursor already holds finds nothing new. */
  lemma NothingNewTwice(tail: seq<Punch>)
    ensures NewPunches(tail, tail) == []
  {
    NewPunchesAllSeen(tail, tail);
  }

  lemma {:induction false} NewPunchesNoneSeen(a: seq<Punch>, cursor: seq<Punch>)
    requires forall p, q :: p in a && q in cursor ==> p.sn != q.sn
    ensures NewPunches(a, cursor) == a
  {
    if a != [] {
      assert !Seen(cursor, a[0].sn);
      NewPunchesNoneSeen(a[1..], cursor);
    }
  }

  /** With distinct sequence numbers, no punch that arrived after a poll
      shares its `sn` with the tail that poll kept. */
  lemma ArrivalsUnseen(before: seq<Punch>, arrived: seq<Punch>)
    requires DistinctSns(before + arrived)
    ensures forall p, q :: p in arrived && q in Tail(before) ==> p.sn != q.sn
  {
    var all := before + arrived;
    var cursor := Tail(before);
    forall p, q | p in arrived && q in cursor ensures p.sn != q.sn {
      var i :| 0 <= i < |arrived| && arrived[i] == p;
      var j :| 0 <= j < |cursor| && cursor[j] == q;
      assert q == all[|before| - |cursor| + j];
      assert p == all[|before| + i];
    }
  }

  /** The tail after new arrivals: the last five arrivals when five or more
      came, otherwise the most recent old punches followed by all arrivals. */
  lemma TailOfAppend(before: seq<Punch>, arrived: seq<Punch>)
    ensures |arrived| >= TailLength ==> Tail(before + arrived) == Tail(arrived)
    ensures |arrived| < TailLength ==>
              Tail(before + arrived) == before[|before| - Min(TailLength - |arrived|, |before|)..] + arrived &&
              Tail(arrived) == arrived
  {
  }

  /** Two consecutive polls: the buffer held `before` at the first and
      `before + arrived` at the second, and sequence numbers are distinct.
      The second poll reports exactly the last five arrivals, in order: every
      arrival when at most five came, and never more than the last five when
      a larger burst came between the polls. */
  lemma PollReportsArrivals(before: seq<Punch>, arrived: seq<Punch>)
    requires DistinctSns(before + arrived)
    ensures NewPunches(Tail(before + arrived), Tail(before)) == Tail(arrived)
  {
    var cursor := Tail(before);
    ArrivalsUnseen(before, arrived);
    TailOfAppend(before, arrived);
    if |arrived| >= TailLength {
      NewPunchesNoneSeen(Tail(arrived), cursor);
    } else {
      var kept := before[|before| - Min(TailLength - |arrived|, |before|)..];
      assert forall p :: p in kept ==> p in cursor;
      NewPunchesAppend(kept, arrived, cursor);
      NewPunchesAllSeen(kept, cursor);
      NewPunchesNoneSeen(arrived, cursor);
    }
  }

  /** The device poller. `lastRetrievedLogs` is the cursor of the source;
      `snapshot` is what this poller last wrote to the staging file (`None`
      before its first write). */
  class DevicePoller {
    var lastRetrievedLogs: seq<Punch>
    var snapshot: Option<seq<Punch>>

    constructor ()
      ensures lastRetrievedLogs == [] && snapshot == None
    {
      lastRetrievedLogs := [];
      snapshot := None;
    }

    /** One poll, `fetchAttendanceLogs`. `fetch` is what the device call
        produced and `writeOk` whether the file write would succeed. Returns
        the new punches, or `None` when the poll was abandoned. */
    method FetchAttendanceLogs(fetch: Fetch, writeOk: bool) returns (newLogs: Option<seq<Punch>>)
      modifies this
      ensures fetch.FetchFailed? || Normalize(fetch.response).None? ==>
                newLogs == None && lastRetrievedLogs == old(lastRetrievedLogs) && snapshot == old(snapshot)
      ensures fetch.Fetched? && Normalize(fetch.response).Some? ==>
                var tail := Tail(Normalize(fetch.response).value);
                && newLogs == Some(NewPunches(tail, old(lastRetrievedLogs)))
                && lastRetrievedLogs == tail
                && snapshot == (if newLogs.value != [] && writeOk then Some(tail) else old(snapshot))
    {
      if fetch.FetchFailed? {
        return None;
      }
      var logsArray := Normalize(fetch.response);
      if logsArray.None? {
        return None;
      }
      var tail := Tail(logsArray.value);
      var unseen := NewPunches(tail, lastRetrievedLogs);
      lastRetrievedLogs := tail;
      if |unseen| > 0 && writeOk {
        snapshot := Some(tail);
      }
      newLogs := Some(unseen);
    }
  }
}
