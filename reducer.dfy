/**
  The daily reducer of index3.js: it groups the staged punches by user id
  and calendar date, sorts the times of each group and reports, per group,
  the earliest time as CHECKIN and the latest as CHECKOUT.
 */
module Reducer {
  import opened Punches

  /** A JavaScript `Date` as the reducer holds it: a valid instant in
      milliseconds, or the invalid date (whose time value is NaN). */
  datatype Moment = Invalid | At(ms: int)

  /** The order of `(a, b) => a - b` on the moments of one group. A group
      holds only invalid dates or only valid ones (its key carries the date),
      so placing the invalid date first decides nothing the source decides. */
  predicate Le(a: Moment, b: Moment)
  {
    a.Invalid? || (b.At? && a.ms <= b.ms)
  }

  /** The two runtime services the reducer relies on: `new Date(text)` and
      the local calendar day `toDateString()` names, as a day number. */
  datatype Clock = Clock(parse: DateParser, dayOf: int -> int)

  /** The key a punch is grouped under: its `user_id` (absent, `null` and
      each id are distinct keys) and its local date; a `None` day is the
      "Invalid Date" of a time that does not parse. */
  datatype Key = Key(user: Field<int>, day: Option<int>)

  /** One entry of `groupedLogsByDate[userId][logDate]`. */
  datatype Group = Group(sn: seq<int>, userId: Field<int>, recordTime: seq<Moment>, ip: Field<string>)

  /** One entry of `resultArray`: the group's fields and CHECKIN, CHECKOUT. */
  datatype Summary = Summary(sn: seq<int>, userId: Field<int>, recordTime: seq<Moment>, ip: Field<string>,
                             checkIn: Moment, checkOut: Moment)

  /** `new Date(log.record_time)`: an absent time is the invalid date, a
      `null` one is the epoch, and a text is what the parser makes of it. */
  function MomentOf(c: Clock, p: Punch): (m: Moment)
    ensures m.Invalid? <==> p.recordTime.Absent? || (p.recordTime.Present? && c.parse(p.recordTime.value).None?)
    ensures p.recordTime.Null? ==> m == At(0)
    ensures p.recordTime.Present? && m.At? ==> c.parse(p.recordTime.value) == Some(m.ms)
  {
    match p.recordTime
    case Absent => Invalid
    case Null => At(0)
    case Present(text) =>
      match c.parse(text)
      case None => Invalid
      case Some(ms) => At(ms)
  }

  /** The pair `[userId][logDate]` a punch is filed under. */
  function KeyOf(c: Clock, p: Punch): (k: Key)
    ensures k.user == p.userId
    ensures k.day.None? <==> MomentOf(c, p).Invalid?
    ensures MomentOf(c, p).At? ==> k.day == Some(c.dayOf(MomentOf(c, p).ms))
  {
    match MomentOf(c, p)
    case Invalid => Key(p.userId, None)
    case At(ms) => Key(p.userId, Some(c.dayOf(ms)))
  }

  /** The punches grouped under `k`, in input order. */
  function Members(c: Clock, ps: seq<Punch>, k: Key): seq<Punch>
  {
    if ps == [] then []
    else
      var last := ps[|ps| - 1];
      Members(c, ps[..|ps| - 1], k) + (if KeyOf(c, last) == k then [last] else [])
  }

  /** The `sn` of each punch, in order. */
  function Sns(m: seq<Punch>): (r: seq<int>)
    ensures |r| == |m|
  {
    if m == [] then [] else Sns(m[..|m| - 1]) + [m[|m| - 1].sn]
  }

  /** The moment of each punch, in order. */
  function Moments(c: Clock, m: seq<Punch>): (r: seq<Moment>)
    ensures |r| == |m|
  {
    if m == [] then [] else Moments(c, m[..|m| - 1]) + [MomentOf(c, m[|m| - 1])]
  }

  /** The distinct keys of the punches, in the order they first appear. */
  function KeysOf(c: Clock, ps: seq<Punch>): seq<Key>
  {
    if ps == [] then []
    else
      var keys := KeysOf(c, ps[..|ps| - 1]);
      var k := KeyOf(c, ps[|ps| - 1]);
      if k in keys then keys else keys + [k]
  }

  /** The group the source has built for `k` once it has seen `ps`. */
  function GroupFor(c: Clock, ps: seq<Punch>, k: Key): Group
    requires Members(c, ps, k) != []
  {
    var m := Members(c, ps, k);
    Group(Sns(m), k.user, Moments(c, m), m[0].ip)
  }

  predicate Sorted(s: seq<Moment>)
  {
    forall i, j :: 0 <= i < j < |s| ==> Le(s[i], s[j])
  }

  /** `s` with `x` placed before the first element it does not exceed. */
  function InsertSorted(s: seq<Moment>, x: Moment): (r: seq<Moment>)
    requires Sorted(s)
    ensures Sorted(r)
    ensures multiset(r) == multiset(s) + multiset{x}
  {
    if s == [] then [x]
    else if Le(x, s[0]) then [x] + s
    else
      var rest := InsertSorted(s[1..], x);
      assert s == [s[0]] + s[1..];
      InsertedBehindHead(s, x, rest);
      [s[0]] + rest
  }

  lemma InsertedBehindHead(s: seq<Moment>, x: Moment, rest: seq<Moment>)
    requires Sorted(s) && s != [] && !Le(x, s[0])
    requires Sorted(rest) && multiset(rest) == multiset(s[1..]) + multiset{x}
    ensures Sorted([s[0]] + rest)
  {
    forall j | 0 <= j < |rest| ensures Le(s[0], rest[j]) {
      assert rest[j] in multiset(rest);
      if rest[j] != x {
        assert rest[j] in multiset(s[1..]);
        var k :| 0 <= k < |s[1..]| && s[1..][k] == rest[j];
        assert s[k + 1] == rest[j];
      }
    }
    var r := [s[0]] + rest;
    forall i, j | 0 <= i < j < |r| ensures Le(r[i], r[j]) {
      assert r[j] == rest[j - 1];
      if i > 0 {
        assert r[i] == rest[i - 1];
      }
    }
  }

  /** `userLogs.record_time.sort((a, b) => a - b)`, on a value. */
  method SortMoments(s: seq<Moment>) returns (r: seq<Moment>)
    ensures Sorted(r)
    ensures multiset(r) == multiset(s)
  {
    r := [];
    for i := 0 to |s|
      invariant Sorted(r)
      invariant multiset(r) == multiset(s[..i])
    {
      assert s[..i + 1] == s[..i] + [s[i]];
      r := InsertSorted(r, s[i]);
    }
    assert s[..|s|] == s;
  }

  /** What the source promises of the summary it emits for key `k`: the
      group's `sn` in input order, its user id, the `ip` of the punch that
      opened it, its times sorted (a permutation of the group's times), and
      the first and last of them as CHECKIN and CHECKOUT. */
  ghost predicate Summarises(c: Clock, ps: seq<Punch>, k: Key, s: Summary)
  {
    var m := Members(c, ps, k);
    && m != []
    && s.sn == Sns(m)
    && s.userId == k.user
    && s.ip == m[0].ip
    && Sorted(s.recordTime)
    && multiset(s.recordTime) == multiset(Moments(c, m))
    && |s.recordTime| > 0
    && s.checkIn == s.recordTime[0]
    && s.checkOut == s.recordTime[|s.recordTime| - 1]
  }

  /** One summary per distinct key, in the order of the keys. */
  ghost predicate Reduces(c: Clock, ps: seq<Punch>, out: seq<Summary>)
  {
    var keys := KeysOf(c, ps);
    |out| == |keys| && forall i :: 0 <= i < |out| ==> Summarises(c, ps, keys[i], out[i])
  }

  lemma MembersOfExtended(c: Clock, ps: seq<Punch>, p: Punch, k: Key)
    ensures Members(c, ps + [p], k) == Members(c, ps, k) + (if KeyOf(c, p) == k then [p] else [])
  {
    assert (ps + [p])[..|ps|] == ps;
  }

  lemma AppendMember(c: Clock, m: seq<Punch>, p: Punch)
    ensures Sns(m + [p]) == Sns(m) + [p.sn]
    ensures Moments(c, m + [p]) == Moments(c, m) + [MomentOf(c, p)]
  {
    assert (m + [p])[..|m|] == m;
  }

  /** A group holds exactly the punches whose key is its own. */
  lemma {:induction false} MembersAreKeyed(c: Clock, ps: seq<Punch>, k: Key)
    ensures forall p :: p in Members(c, ps, k) <==> p in ps && KeyOf(c, p) == k
  {
    if ps != [] {
      var init := ps[..|ps| - 1];
      assert ps == init + [ps[|ps| - 1]];
      MembersAreKeyed(c, init, k);
    }
  }

  /** The keys are distinct and are exactly the keys of the punches; a key
      has a non-empty group exactly when it is one of them. */
  lemma {:induction false} KeysAreDistinctKeysOfPunches(c: Clock, ps: seq<Punch>)
    ensures NoDuplicates(KeysOf(c, ps))
    ensures forall k :: k in KeysOf(c, ps) <==> exists p :: p in ps && KeyOf(c, p) == k
    ensures forall k :: k in KeysOf(c, ps) <==> Members(c, ps, k) != []
  {
    if ps != [] {
      var init := ps[..|ps| - 1];
      var last := ps[|ps| - 1];
      assert ps == init + [last];
      KeysAreDistinctKeysOfPunches(c, init);
      forall k ensures k in KeysOf(c, ps) <==> Members(c, ps, k) != [] {
        MembersAreKeyed(c, init, k);
        MembersAreKeyed(c, ps, k);
        if Members(c, init, k) != [] {
          assert Members(c, init, k)[0] in Members(c, init, k);
        }
      }
    }
  }

  /** `keys` and `groups` are what the grouping pass holds after `ps`. */
  ghost predicate Grouped(c: Clock, ps: seq<Punch>, keys: seq<Key>, groups: map<Key, Group>)
  {
    && keys == KeysOf(c, ps)
    && (forall k :: k in groups <==> k in keys)
    && (forall k :: k in groups ==> Members(c, ps, k) != [] && groups[k] == GroupFor(c, ps, k))
  }

  /** `groups` with a group opened for `k` by `p` unless one exists: the
      group starts with no `sn` and no time, and `p`'s user id and `ip`. */
  function Opened(groups: map<Key, Group>, k: Key, p: Punch): (r: map<Key, Group>)
    ensures k in r
    ensures k in groups ==> r == groups
    ensures k !in groups ==> r[k] == Group([], p.userId, [], p.ip) && r.Keys == groups.Keys + {k}
    ensures forall k' :: k' in groups ==> r[k'] == groups[k']
  {
    if k in groups then groups else groups[k := Group([], p.userId, [], p.ip)]
  }

  /** `groups` with `p`'s `sn` and time pushed onto the group of `k`. */
  function Pushed(c: Clock, groups: map<Key, Group>, k: Key, p: Punch): (r: map<Key, Group>)
    requires k in groups
    ensures r.Keys == groups.Keys
    ensures forall k' :: k' in groups && k' != k ==> r[k'] == groups[k']
    ensures r[k].sn == groups[k].sn + [p.sn] && r[k].recordTime == groups[k].recordTime + [MomentOf(c, p)]
    ensures r[k].userId == groups[k].userId && r[k].ip == groups[k].ip
  {
    groups[k := groups[k].(sn := groups[k].sn + [p.sn], recordTime := groups[k].recordTime + [MomentOf(c, p)])]
  }

  /** A punch leaves the groups of other keys as they were. */
  lemma OtherGroupKept(c: Clock, pre: seq<Punch>, p: Punch, k: Key)
    requires KeyOf(c, p) != k && Members(c, pre, k) != []
    ensures Members(c, pre + [p], k) != [] && GroupFor(c, pre + [p], k) == GroupFor(c, pre, k)
  {
    MembersOfExtended(c, pre, p, k);
    assert Members(c, pre, k) + [] == Members(c, pre, k);
  }

  /** A punch whose key has a group is pushed onto it. */
  lemma OwnGroupPushed(c: Clock, pre: seq<Punch>, p: Punch, g: Group)
    requires Members(c, pre, KeyOf(c, p)) != [] && g == GroupFor(c, pre, KeyOf(c, p))
    ensures Members(c, pre + [p], KeyOf(c, p)) != []
    ensures GroupFor(c, pre + [p], KeyOf(c, p)) == g.(sn := g.sn + [p.sn], recordTime := g.recordTime + [MomentOf(c, p)])
  {
    var before := Members(c, pre, KeyOf(c, p));
    MembersOfExtended(c, pre, p, KeyOf(c, p));
    AppendMember(c, before, p);
    assert (before + [p])[0] == before[0];
  }

  /** A punch whose key has no group opens one holding only itself. */
  lemma OwnGroupOpened(c: Clock, pre: seq<Punch>, p: Punch)
    requires Members(c, pre, KeyOf(c, p)) == []
    ensures Members(c, pre + [p], KeyOf(c, p)) == [p]
    ensures GroupFor(c, pre + [p], KeyOf(c, p)) == Group([p.sn], p.userId, [MomentOf(c, p)], p.ip)
  {
    MembersOfExtended(c, pre, p, KeyOf(c, p));
    AppendMember(c, [], p);
    assert [] + [p] == [p];
  }

  lemma KeysOfExtended(c: Clock, pre: seq<Punch>, p: Punch)
    ensures KeysOf(c, pre + [p]) ==
            if KeyOf(c, p) in KeysOf(c, pre) then KeysOf(c, pre) else KeysOf(c, pre) + [KeyOf(c, p)]
  {
    assert (pre + [p])[..|pre|] == pre;
  }

  /** One step of the grouping pass keeps `Grouped`. */
  lemma GroupedExtended(c: Clock, ps: seq<Punch>, i: nat, keys: seq<Key>, groups: map<Key, Group>)
    requires i < |ps| && Grouped(c, ps[..i], keys, groups)
    ensures var k := KeyOf(c, ps[i]);
            Grouped(c, ps[..i + 1], if k in groups then keys else keys + [k],
                    Pushed(c, Opened(groups, k, ps[i]), k, ps[i]))
  {
    var pre, p := ps[..i], ps[i];
    var k := KeyOf(c, p);
    var keys' := if k in groups then keys else keys + [k];
    var groups' := Pushed(c, Opened(groups, k, p), k, p);
    assert ps[..i + 1] == pre + [p];
    KeysOfExtended(c, pre, p);
    assert keys' == KeysOf(c, pre + [p]);
    assert forall k' :: k' in groups' <==> k' in keys';
    KeysAreDistinctKeysOfPunches(c, pre);
    if k in groups {
      OwnGroupPushed(c, pre, p, groups[k]);
    } else {
      OwnGroupOpened(c, pre, p);
    }
    forall k' | k' in groups' && k' != k
      ensures Members(c, pre + [p], k') != [] && groups'[k'] == GroupFor(c, pre + [p], k')
    {
      OtherGroupKept(c, pre, p, k');
    }
    assert Grouped(c, pre + [p], keys', groups');
  }

  /** The grouping pass, `logsArray.forEach(...)`: the keys in first-appearance
      order, and for each key the group of its punches. */
  method GroupPunches(c: Clock, ps: seq<Punch>) returns (keys: seq<Key>, groups: map<Key, Group>)
    ensures Grouped(c, ps, keys, groups)
  {
    keys := [];
    groups := map[];
    var i := 0;
    while i < |ps|
      invariant 0 <= i <= |ps|
      invariant Grouped(c, ps[..i], keys, groups)
    {
      var log := ps[i];
      var key := KeyOf(c, log);
      GroupedExtended(c, ps, i, keys, groups);
      if key !in groups {
        groups := groups[key := Group([], log.userId, [], log.ip)];
        keys := keys + [key];
      }
      groups := Pushed(c, groups, key, log);
      i := i + 1;
    }
    assert ps[..|ps|] == ps;
  }

  /** The summary of one group, the body of the inner `forEach`: sort its
      times, take the first as CHECKIN and, unless it is the only one, the
      last as CHECKOUT. */
  method Summarise(c: Clock, ps: seq<Punch>, k: Key, userLogs: Group) returns (s: Summary)
    requires Members(c, ps, k) != [] && userLogs == GroupFor(c, ps, k)
    ensures Summarises(c, ps, k, s)
  {
    var sorted := SortMoments(userLogs.recordTime);
    assert |sorted| == |multiset(sorted)| == |userLogs.recordTime|;
    var checkIn := sorted[0];
    var checkOut := if |sorted| == 1 then checkIn else sorted[|sorted| - 1];
    s := Summary(userLogs.sn, userLogs.userId, sorted, userLogs.ip, checkIn, checkOut);
  }

  /** `out` holds the summaries of the first `|out|` keys. */
  ghost predicate SummarisedUpTo(c: Clock, ps: seq<Punch>, keys: seq<Key>, out: seq<Summary>)
  {
    |out| <= |keys| && forall i :: 0 <= i < |out| ==> Summarises(c, ps, keys[i], out[i])
  }

  lemma SummarisedExtended(c: Clock, ps: seq<Punch>, keys: seq<Key>, out: seq<Summary>, s: Summary)
    requires SummarisedUpTo(c, ps, keys, out) && |out| < |keys| && Summarises(c, ps, keys[|out|], s)
    ensures SummarisedUpTo(c, ps, keys, out + [s])
  {
    forall i | 0 <= i < |out| + 1 ensures Summarises(c, ps, keys[i], (out + [s])[i]) {
      if i < |out| {
        assert (out + [s])[i] == out[i];
      }
    }
  }

  /** `fetchAttendanceLogsFromFile` after the file is read and parsed: no
      output when the file cannot be read or parsed, no summaries when its
      content is not an array, and otherwise one summary per (user, date). */
  method FetchAttendanceLogsFromFile(c: Clock, content: StagedContent) returns (result: Option<seq<Summary>>)
    ensures content.Unreadable? ==> result == None
    ensures content.NotAList? ==> result == Some([])
    ensures content.PunchList? ==> result.Some? && Reduces(c, content.items, result.value)
  {
    if content.Unreadable? {
      return None;
    }
    var logsArray := if content.PunchList? then content.items else [];
    var keys, groups := GroupPunches(c, logsArray);
    var out: seq<Summary> := [];
    var j := 0;
    while j < |keys|
      invariant 0 <= j <= |keys|
      invariant |out| == j
      invariant SummarisedUpTo(c, logsArray, keys, out)
    {
      var summary := Summarise(c, logsArray, keys[j], groups[keys[j]]);
      SummarisedExtended(c, logsArray, keys, out, summary);
      out := out + [summary];
      j := j + 1;
    }
    result := Some(out);
  }
  lemma {:induction false} MomentsAt(c: Clock, m: seq<Punch>)
    ensures forall i :: 0 <= i < |m| ==> Moments(c, m)[i] == MomentOf(c, m[i])
  {
    if m != [] {
      MomentsAt(c, m[..|m| - 1]);
    }
  }

  lemma {:induction false} SnsAt(m: seq<Punch>)
    ensures forall i :: 0 <= i < |m| ==> Sns(m)[i] == m[i].sn
  {
    if m != [] {
      SnsAt(m[..|m| - 1]);
    }
  }

  /** The `sn` list of a summary is the group's sequence numbers in input
      order (it is not sorted with the times), and holds one per punch. */
  lemma SnsFollowInput(c: Clock, ps: seq<Punch>, k: Key, s: Summary)
    requires Summarises(c, ps, k, s)
    ensures |s.sn| == |s.recordTime| == |Members(c, ps, k)|
    ensures forall i :: 0 <= i < |s.sn| ==> s.sn[i] == Members(c, ps, k)[i].sn
  {
    SnsAt(Members(c, ps, k));
    assert |s.recordTime| == |multiset(s.recordTime)|;
  }

  /** Every punch lies in the group of exactly one key, and that key is one
      of the keys summarised. */
  lemma EveryPunchInOneGroup(c: Clock, ps: seq<Punch>, i: nat)
    requires i < |ps|
    ensures KeyOf(c, ps[i]) in KeysOf(c, ps)
    ensures forall k :: ps[i] in Members(c, ps, k) <==> k == KeyOf(c, ps[i])
  {
    KeysAreDistinctKeysOfPunches(c, ps);
    forall k ensures ps[i] in Members(c, ps, k) <==> k == KeyOf(c, ps[i]) {
      MembersAreKeyed(c, ps, k);
    }
  }

  /** The sizes of the groups of `keys`, added up. */
  function GroupSizes(c: Clock, ps: seq<Punch>, keys: seq<Key>): nat
  {
    if keys == [] then 0
    else GroupSizes(c, ps, keys[..|keys| - 1]) + |Members(c, ps, keys[|keys| - 1])|
  }

  lemma {:induction false} GroupSizesExtended(c: Clock, pre: seq<Punch>, p: Punch, keys: seq<Key>)
    requires NoDuplicates(keys)
    ensures GroupSizes(c, pre + [p], keys) == GroupSizes(c, pre, keys) + (if KeyOf(c, p) in keys then 1 else 0)
  {
    if keys != [] {
      var init, last := keys[..|keys| - 1], keys[|keys| - 1];
      assert keys == init + [last];
      assert NoDuplicates(init);
      assert last !in init;
      GroupSizesExtended(c, pre, p, init);
      MembersOfExtended(c, pre, p, last);
    }
  }

  /** The groups partition the input: their sizes add up to its length. */
  lemma {:induction false} GroupSizesSumToInput(c: Clock, ps: seq<Punch>)
    ensures GroupSizes(c, ps, KeysOf(c, ps)) == |ps|
  {
    if ps != [] {
      var pre, p := ps[..|ps| - 1], ps[|ps| - 1];
      var k := KeyOf(c, p);
      assert ps == pre + [p];
      GroupSizesSumToInput(c, pre);
      KeysAreDistinctKeysOfPunches(c, pre);
      KeysOfExtended(c, pre, p);
      GroupSizesExtended(c, pre, p, KeysOf(c, pre));
      if k !in KeysOf(c, pre) {
        var keys := KeysOf(c, pre) + [k];
        assert keys[..|keys| - 1] == KeysOf(c, pre);
        MembersOfExtended(c, pre, p, k);
        assert Members(c, pre, k) == [];
      }
    }
  }

  /** The times of a summary are exactly the times of its group's punches. */
  lemma SummaryTimesAreGroupTimes(c: Clock, ps: seq<Punch>, k: Key, s: Summary)
    requires Summarises(c, ps, k, s)
    ensures forall x :: x in s.recordTime <==> exists p :: p in ps && KeyOf(c, p) == k && MomentOf(c, p) == x
  {
    var m := Members(c, ps, k);
    MembersAreKeyed(c, ps, k);
    MomentsAt(c, m);
    forall x ensures x in s.recordTime <==> exists p :: p in ps && KeyOf(c, p) == k && MomentOf(c, p) == x {
      assert x in s.recordTime <==> x in multiset(Moments(c, m));
      if x in Moments(c, m) {
        var j :| 0 <= j < |m| && Moments(c, m)[j] == x;
        assert m[j] in ps && KeyOf(c, m[j]) == k;
      }
      if exists p :: p in ps && KeyOf(c, p) == k && MomentOf(c, p) == x {
        var p :| p in ps && KeyOf(c, p) == k && MomentOf(c, p) == x;
        var j :| 0 <= j < |m| && m[j] == p;
        assert Moments(c, m)[j] == x;
      }
    }
  }

  /** CHECKIN is the earliest and CHECKOUT the latest time among the
      punches of the group, both are times of such punches, and so
      CHECKIN is not after CHECKOUT. */
  lemma CheckInEarliestCheckOutLatest(c: Clock, ps: seq<Punch>, k: Key, s: Summary)
    requires Summarises(c, ps, k, s)
    ensures forall p :: p in ps && KeyOf(c, p) == k ==> Le(s.checkIn, MomentOf(c, p)) && Le(MomentOf(c, p), s.checkOut)
    ensures exists p :: p in ps && KeyOf(c, p) == k && MomentOf(c, p) == s.checkIn
    ensures exists p :: p in ps && KeyOf(c, p) == k && MomentOf(c, p) == s.checkOut
    ensures Le(s.checkIn, s.checkOut)
  {
    var rt := s.recordTime;
    SummaryTimesAreGroupTimes(c, ps, k, s);
    forall p | p in ps && KeyOf(c, p) == k
      ensures Le(s.checkIn, MomentOf(c, p)) && Le(MomentOf(c, p), s.checkOut)
    {
      assert MomentOf(c, p) in rt;
      var t :| 0 <= t < |rt| && rt[t] == MomentOf(c, p);
      if 0 < t { assert Le(rt[0], rt[t]); }
      if t < |rt| - 1 { assert Le(rt[t], rt[|rt| - 1]); }
    }
    assert rt[0] in rt && rt[|rt| - 1] in rt;
  }

  /** A day with a single punch has CHECKOUT equal to CHECKIN. */
  lemma SinglePunchDay(c: Clock, ps: seq<Punch>, k: Key, s: Summary)
    requires Summarises(c, ps, k, s) && |Members(c, ps, k)| == 1
    ensures s.checkOut == s.checkIn
  {
    assert |s.recordTime| == |multiset(s.recordTime)| == 1;
  }

  /** CHECKIN and CHECKOUT of a (user, date) group do not depend on the
      order of the input punches. */
  lemma CheckInOutIgnoreOrder(c: Clock, ps: seq<Punch>, qs: seq<Punch>, k: Key, s: Summary, t: Summary)
    requires multiset(ps) == multiset(qs)
    requires Summarises(c, ps, k, s) && Summarises(c, qs, k, t)
    ensures s.checkIn == t.checkIn && s.checkOut == t.checkOut
  {
    CheckInEarliestCheckOutLatest(c, ps, k, s);
    CheckInEarliestCheckOutLatest(c, qs, k, t);
    forall p ensures p in ps <==> p in qs {
      assert p in ps <==> p in multiset(ps);
      assert p in qs <==> p in multiset(qs);
    }
    var a :| a in ps && KeyOf(c, a) == k && MomentOf(c, a) == s.checkIn;
    var b :| b in qs && KeyOf(c, b) == k && MomentOf(c, b) == t.checkIn;
    assert Le(t.checkIn, s.checkIn) && Le(s.checkIn, t.checkIn);
    var d :| d in ps && KeyOf(c, d) == k && MomentOf(c, d) == s.checkOut;
    var e :| e in qs && KeyOf(c, e) == k && MomentOf(c, e) == t.checkOut;
    assert Le(s.checkOut, t.checkOut) && Le(t.checkOut, s.checkOut);
  }
}
