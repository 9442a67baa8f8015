/** The supervisor's round-robin scan and its fairness (packages/cli/src/demoSupervisor.ts:142-153).

    Registrations are named by their place in the listed row, 0 to n - 1; an offset counts places from the
    cursor onwards, cyclically. */
module Scheduler {
  import opened Runs

  /** What a scan reads and writes. `busy` are the keys that hold a slot. */
  datatype Slots = Slots(busy: set<string>, due: map<string, int>, cursor: nat)

  function DueAt(due: map<string, int>, key: string): int {
    if key in due then due[key] else 0
  }

  predicate IsDue(s: Slots, key: string, now: int) {
    key !in s.busy && now >= DueAt(s.due, key)
  }

  function StartAt(keys: seq<string>, cursor: nat): nat {
    if keys == [] then 0 else cursor % |keys|
  }

  function PlaceOf(keys: seq<string>, cursor: nat, offset: nat): (place: nat)
    requires keys != []
    ensures place < |keys|
  {
    (StartAt(keys, cursor) + offset) % |keys|
  }

  predicate Distinct(keys: seq<string>) {
    forall i, j :: 0 <= i < j < |keys| ==> keys[i] != keys[j]
  }

  ghost predicate Rising(offsets: seq<nat>, below: nat) {
    && (forall i, j :: 0 <= i < j < |offsets| ==> offsets[i] < offsets[j])
    && (forall i :: 0 <= i < |offsets| ==> offsets[i] < below)
  }

  /** The keys at these offsets. */
  function KeysAt(keys: seq<string>, cursor: nat, offsets: seq<nat>): set<string>
    requires offsets != [] ==> keys != []
  {
    set o | o in offsets :: keys[PlaceOf(keys, cursor, o)]
  }

  function CursorAfter(keys: seq<string>, cursor: nat, offsets: seq<nat>): nat
    requires offsets != [] ==> keys != []
  {
    if offsets == [] then cursor else PlaceOf(keys, cursor, offsets[|offsets| - 1]) + 1
  }

  /** Launching exactly these: each takes a slot, is due again an interval later, and the cursor is past the last. */
  ghost predicate Moved(s: Slots, launched: set<string>, due: int, cursor: nat, t: Slots) {
    && t.busy == s.busy + launched
    && (forall key :: DueAt(t.due, key) == if key in launched then due else DueAt(s.due, key))
    && t.cursor == cursor
  }

  /** One scan: the due registrations in cyclic order from the cursor, until the slots run out. A due one is
      left waiting only behind a full house, and only if nothing after it was launched. */
  ghost predicate Scanned(s: Slots, keys: seq<string>, now: int, interval: nat, limit: nat, offsets: seq<nat>,
                          t: Slots) {
    && Rising(offsets, |keys|) && (keys == [] ==> offsets == [])
    && (forall o :: o in offsets ==> IsDue(s, keys[PlaceOf(keys, s.cursor, o)], now))
    && Moved(s, KeysAt(keys, s.cursor, offsets), now + interval, CursorAfter(keys, s.cursor, offsets), t)
    && (forall o :: 0 <= o < |keys| && o !in offsets && IsDue(s, keys[PlaceOf(keys, s.cursor, o)], now) ==>
          |t.busy| >= limit && forall p :: p in offsets ==> p < o)
  }

  // ---------------------------------------------------------------- one scan, step by step

  /** The scan after `looked` places. */
  ghost predicate ScanSoFar(s: Slots, keys: seq<string>, now: int, interval: nat, offsets: seq<nat>, t: Slots,
                            looked: nat) {
    && looked <= |keys|
    && Rising(offsets, looked) && (keys == [] ==> offsets == [])
    && (forall o :: 0 <= o < looked ==> (o in offsets <==> IsDue(s, keys[PlaceOf(keys, s.cursor, o)], now)))
    && Moved(s, KeysAt(keys, s.cursor, offsets), now + interval, CursorAfter(keys, s.cursor, offsets), t)
  }

  /** Different offsets are different places. */
  lemma PlacesDiffer(keys: seq<string>, cursor: nat, o: nat, p: nat)
    requires Distinct(keys) && o < p < |keys|
    ensures keys[PlaceOf(keys, cursor, o)] != keys[PlaceOf(keys, cursor, p)]
  {
    var at := StartAt(keys, cursor);
    Wraps(|keys|, at + o);
    Wraps(|keys|, at + p);
  }

  /** A place not yet looked at is as due as it was at the start. */
  lemma NotYetTouched(s: Slots, keys: seq<string>, now: int, interval: nat, offsets: seq<nat>, t: Slots, looked: nat)
    requires ScanSoFar(s, keys, now, interval, offsets, t, looked) && Distinct(keys) && looked < |keys|
    ensures
      var key := keys[PlaceOf(keys, s.cursor, looked)];
      && (key in t.busy <==> key in s.busy)
      && (IsDue(t, key, now) <==> IsDue(s, key, now))
  {
    forall o | o in offsets ensures keys[PlaceOf(keys, s.cursor, o)] != keys[PlaceOf(keys, s.cursor, looked)] {
      PlacesDiffer(keys, s.cursor, o, looked);
    }
  }

  lemma SkipExtends(s: Slots, keys: seq<string>, now: int, interval: nat, offsets: seq<nat>, t: Slots, looked: nat)
    requires ScanSoFar(s, keys, now, interval, offsets, t, looked) && Distinct(keys) && looked < |keys|
    requires !IsDue(t, keys[PlaceOf(keys, s.cursor, looked)], now)
    ensures ScanSoFar(s, keys, now, interval, offsets, t, looked + 1)
  {
    NotYetTouched(s, keys, now, interval, offsets, t, looked);
  }

  function AfterLaunch(t: Slots, key: string, due: int, cursor: nat): Slots {
    Slots(t.busy + {key}, t.due[key := due], cursor)
  }

  lemma LaunchExtends(s: Slots, keys: seq<string>, now: int, interval: nat, offsets: seq<nat>, t: Slots, looked: nat)
    requires ScanSoFar(s, keys, now, interval, offsets, t, looked) && Distinct(keys) && looked < |keys|
    requires IsDue(t, keys[PlaceOf(keys, s.cursor, looked)], now)
    ensures
      var place := PlaceOf(keys, s.cursor, looked);
      ScanSoFar(s, keys, now, interval, offsets + [looked], AfterLaunch(t, keys[place], now + interval, place + 1),
                looked + 1)
  {
    NotYetTouched(s, keys, now, interval, offsets, t, looked);
    hide IsDue;
    var more := offsets + [looked];
    assert forall o :: o in more <==> o in offsets || o == looked;
    assert KeysAt(keys, s.cursor, more) == KeysAt(keys, s.cursor, offsets) + {keys[PlaceOf(keys, s.cursor, looked)]};
  }

  lemma ScanStarts(s: Slots, keys: seq<string>, now: int, interval: nat)
    ensures ScanSoFar(s, keys, now, interval, [], s, 0)
  {
  }

  lemma ScanEnds(s: Slots, keys: seq<string>, now: int, interval: nat, limit: nat, offsets: seq<nat>, t: Slots,
                 looked: nat)
    requires ScanSoFar(s, keys, now, interval, offsets, t, looked)
    requires looked == |keys| || |t.busy| >= limit
    ensures Scanned(s, keys, now, interval, limit, offsets, t)
  {
    forall o | 0 <= o < |keys| && o !in offsets && IsDue(s, keys[PlaceOf(keys, s.cursor, o)], now)
      ensures |t.busy| >= limit && forall p :: p in offsets ==> p < o
    {
      assert o >= looked;
    }
  }

  // ---------------------------------------------------------------- cyclic distance

  /** How many places the cursor still has to pass before it reaches place x. */
  function Distance(n: nat, cursor: nat, x: nat): (d: nat)
    requires x < n
    ensures d < n
  {
    (x + n - cursor % n) % n
  }

  lemma Wraps(n: nat, a: nat)
    requires 0 < n && a < 2 * n
    ensures a % n == if a < n then a else a - n
  {
    if a < n {
      assert a % n == a;
    } else {
      assert a == 1 * n + (a - n);
      assert a % n == a - n;
    }
  }

  /** The place at distance d from the cursor is the place it was measured to. */
  lemma DistanceIsOffset(keys: seq<string>, cursor: nat, x: nat)
    requires x < |keys|
    ensures PlaceOf(keys, cursor, Distance(|keys|, cursor, x)) == x
  {
    var n, at := |keys|, cursor % |keys|;
    Wraps(n, x + n - at);
    Wraps(n, at + Distance(n, cursor, x));
  }

  /** Moving the cursor just past an offset before x brings it that much closer. */
  lemma CloserBy(keys: seq<string>, cursor: nat, o: nat, x: nat)
    requires x < |keys| && o < Distance(|keys|, cursor, x)
    ensures Distance(|keys|, PlaceOf(keys, cursor, o) + 1, x) == Distance(|keys|, cursor, x) - o - 1
  {
    var n, at := |keys|, cursor % |keys|;
    var d := Distance(n, cursor, x);
    Wraps(n, x + n - at);
    Wraps(n, at + o);
    var next := PlaceOf(keys, cursor, o) + 1;
    Wraps(n, next);
    Wraps(n, x + n - next % n);
  }

  lemma {:induction false} RisingLeavesRoom(offsets: seq<nat>, below: nat)
    requires Rising(offsets, below) && offsets != []
    ensures offsets[|offsets| - 1] >= |offsets| - 1
  {
    if |offsets| > 1 {
      RisingLeavesRoom(offsets[..|offsets| - 1], below);
    }
  }

  // ---------------------------------------------------------------- fairness

  /** A scan that passes over a due registration comes closer to it by at least the launches it made,
      and leaves it due. */
  lemma PassingOverComesCloser(s: Slots, keys: seq<string>, now: int, interval: nat, limit: nat, offsets: seq<nat>,
                               t: Slots, x: nat)
    requires Scanned(s, keys, now, interval, limit, offsets, t) && Distinct(keys) && x < |keys|
    requires IsDue(s, keys[x], now) && keys[x] !in t.busy
    ensures Distance(|keys|, t.cursor, x) + |offsets| <= Distance(|keys|, s.cursor, x)
    ensures forall later :: later >= now ==> IsDue(t, keys[x], later)
    ensures |t.busy| >= limit
  {
    var d := Distance(|keys|, s.cursor, x);
    DistanceIsOffset(keys, s.cursor, x);
    assert keys[PlaceOf(keys, s.cursor, d)] == keys[x];
    assert d !in offsets;
    if offsets != [] {
      var last := offsets[|offsets| - 1];
      assert last in offsets;
      RisingLeavesRoom(offsets, |keys|);
      CloserBy(keys, s.cursor, last, x);
    }
  }

  /** Between two scans slots may be given back, and nothing else moves. */
  ghost predicate Released(s: Slots, t: Slots) {
    t.busy <= s.busy && t.due == s.due && t.cursor == s.cursor
  }

  datatype Poll = Poll(keys: seq<string>, before: Slots, now: int, offsets: seq<nat>, after: Slots)

  ghost predicate Follows(first: Poll, second: Poll) {
    Released(first.after, second.before) && first.now <= second.now
  }

  /** The second of two polls follows the first if it was given the same list. */
  ghost predicate FollowsOnRepeat(first: Poll, second: Poll) {
    first.keys == second.keys ==> Follows(first, second)
  }

  function Launches(polls: seq<Poll>): nat {
    if polls == [] then 0 else |polls[0].offsets| + Launches(polls[1..])
  }

  ghost predicate IsScan(p: Poll, interval: nat, limit: nat) {
    Distinct(p.keys) && Scanned(p.before, p.keys, p.now, interval, limit, p.offsets, p.after)
  }

  /** Over any stretch of polls of one list that keeps passing over a due registration, the launches of all
      the others are fewer than the list is long. */
  lemma {:induction false} WaitingIsBounded(polls: seq<Poll>, keys: seq<string>, interval: nat, limit: nat, x: nat)
    requires polls != [] && x < |keys| && Linked(Follows, polls)
    requires forall i :: 0 <= i < |polls| ==>
      polls[i].keys == keys && IsScan(polls[i], interval, limit) && keys[x] !in polls[i].after.busy
    requires IsDue(polls[0].before, keys[x], polls[0].now)
    ensures Launches(polls) <= Distance(|keys|, polls[0].before.cursor, x) <= |keys| - 1
    decreases |polls|
  {
    hide Scanned;
    var p := polls[0];
    PassingOverComesCloser(p.before, keys, p.now, interval, limit, p.offsets, p.after, x);
    if |polls| == 1 {
      assert polls[1..] == [];
    } else {
      assert LinkedAt(Follows, polls, 0);
      assert Released(p.after, polls[1].before) && IsDue(p.after, keys[x], polls[1].now);
      forall i | 0 <= i < |polls| - 2 ensures LinkedAt(Follows, polls[1..], i) {
        assert LinkedAt(Follows, polls, i + 1);
      }
      WaitingIsBounded(polls[1..], keys, interval, limit, x);
    }
  }

  // ---------------------------------------------------------------- a recorded history of polls

  /** Every poll was a scan of a list without repeats, after which nothing unlisted waits; on a repeated list
      one poll follows the other; and since the last one only slots were given back. */
  ghost predicate Recorded(polls: seq<Poll>, s: Slots, time: int, interval: nat, limit: nat) {
    && (forall i :: 0 <= i < |polls| ==>
          IsScan(polls[i], interval, limit) && polls[i].after.due.Keys <= KeySetOf(polls[i].keys))
    && Linked(FollowsOnRepeat, polls)
    && (polls != [] ==> Released(polls[|polls| - 1].after, s) && polls[|polls| - 1].now <= time)
  }

  function KeySetOf(keys: seq<string>): set<string> {
    set key | key in keys
  }

  function Pruned(due: map<string, int>, listed: set<string>): map<string, int> {
    map key | key in due && key in listed :: due[key]
  }

  /** A list that is repeated prunes nothing. */
  lemma RepeatedListPrunesNothing(due: map<string, int>, listed: set<string>)
    requires due.Keys <= listed
    ensures Pruned(due, listed) == due
  {
  }

  /** One more poll, begun by pruning what is no longer listed, keeps the history: pruning leaves the slots of a
      repeated list as they were. */
  lemma PollIsRecorded(polls: seq<Poll>, s: Slots, time: int, p: Poll, interval: nat, limit: nat)
    requires Recorded(polls, s, time, interval, limit) && time <= p.now
    requires p.before == Slots(s.busy, Pruned(s.due, KeySetOf(p.keys)), s.cursor)
    requires IsScan(p, interval, limit) && p.after.due.Keys <= KeySetOf(p.keys)
    ensures Recorded(polls + [p], p.after, p.now, interval, limit)
  {
    hide IsScan;
    var more := polls + [p];
    if polls != [] {
      var last := polls[|polls| - 1];
      if last.keys == p.keys {
        RepeatedListPrunesNothing(s.due, KeySetOf(p.keys));
      }
      assert FollowsOnRepeat(last, p);
    }
    forall i | 0 <= i < |more| - 1 ensures LinkedAt(FollowsOnRepeat, more, i) {
      if i < |polls| - 1 {
        assert LinkedAt(FollowsOnRepeat, polls, i);
      }
    }
  }

  lemma ReleaseIsRecorded(polls: seq<Poll>, s: Slots, t: Slots, time: int, interval: nat, limit: nat)
    requires Recorded(polls, s, time, interval, limit) && Released(s, t)
    ensures Recorded(polls, t, time, interval, limit)
  {
    hide IsScan;
  }

  /** In a recorded history: while one list is polled again and again, a registration that is due and passed
      over each time waits for at most n - 1 launches of others. */
  lemma DueWaitsAtMost(polls: seq<Poll>, s: Slots, time: int, interval: nat, limit: nat, from: nat, to: nat,
                       keys: seq<string>, x: nat)
    requires Recorded(polls, s, time, interval, limit) && from < to <= |polls| && x < |keys|
    requires forall i :: from <= i < to ==> polls[i].keys == keys && keys[x] !in polls[i].after.busy
    requires IsDue(polls[from].before, keys[x], polls[from].now)
    ensures Launches(polls[from..to]) <= |keys| - 1
  {
    hide IsScan;
    var stretch := polls[from..to];
    forall i | 0 <= i < |stretch| - 1 ensures LinkedAt(Follows, stretch, i) {
      assert LinkedAt(FollowsOnRepeat, polls, from + i);
    }
    WaitingIsBounded(stretch, keys, interval, limit, x);
  }
}
