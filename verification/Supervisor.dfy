/** The supervisor: a few slots, each held until its operation really ends, even past its deadline
    (packages/cli/src/demoSupervisor.ts:23-164).

    Each method is one turn of the event loop: a poll, or one callback of a flight. */
module Supervisor {
  import opened Outcomes
  import opened Scheduler

  datatype Registration = Registration(key: string, content: string)

  /** `id` numbers the launches; `decided` says the flight's outcome is settled, though its slot may not be. */
  datatype Flight = Flight(id: nat, registration: Registration, decided: bool)

  datatype Receipt = Completed | ReceiptInvalid | CycleFailed

  datatype Entry = Listing(keys: set<string>) | Launched(key: string, time: int)

  const LIST_LIMIT := 32
  const MAX_SAFE := 9007199254740991

  function Keys(rows: seq<Registration>): (keys: seq<string>)
    ensures |keys| == |rows|
    ensures forall i :: 0 <= i < |rows| ==> keys[i] == rows[i].key
  {
    seq(|rows|, i requires 0 <= i < |rows| => rows[i].key)
  }

  function KeySet(rows: seq<Registration>): set<string> {
    KeySetOf(Keys(rows))
  }

  lemma ListedKey(rows: seq<Registration>, i: nat)
    requires i < |rows|
    ensures rows[i].key in KeySet(rows)
  {
    assert Keys(rows)[i] == rows[i].key;
  }

  predicate IsAdmissible(rows: Result<seq<Registration>>) {
    rows.Success? && |rows.value| <= LIST_LIMIT && Distinct(Keys(rows.value))
  }

  /** The list was read, has at most 32 entries, and names no scope twice. */
  ghost predicate IsList(rows: Result<seq<Registration>>) {
    && rows.Success? && |rows.value| <= 32
    && forall i, j :: 0 <= i < j < |rows.value| ==> rows.value[i].key != rows.value[j].key
  }

  lemma ListMeans(rows: Result<seq<Registration>>)
    ensures IsAdmissible(rows) <==> IsList(rows)
  {
    if rows.Success? && Distinct(Keys(rows.value)) {
      forall i, j | 0 <= i < j < |rows.value| ensures rows.value[i].key != rows.value[j].key {
        assert Keys(rows.value)[i] != Keys(rows.value)[j];
      }
    }
  }

  /** Flights whose registration is no longer listed as it was launched. */
  function Revoked(flights: map<string, Flight>, listed: seq<Registration>): set<string> {
    set key | key in flights && flights[key].registration !in listed
  }

  // ---------------------------------------------------------------- the interval between launches

  /** Every list since entry i named the key. */
  ghost predicate ListedSince(log: seq<Entry>, i: nat, key: string) {
    forall m :: i < m < |log| && log[m].Listing? ==> key in log[m].keys
  }

  ghost predicate DueAfter(log: seq<Entry>, due: map<string, int>, interval: nat) {
    forall i :: 0 <= i < |log| && log[i].Launched? && ListedSince(log, i, log[i].key) ==>
      log[i].key in due && due[log[i].key] >= log[i].time + interval
  }

  /** Two launches of a key that stayed listed in between are an interval apart. */
  ghost predicate Spaced(log: seq<Entry>, interval: nat) {
    forall i, j ::
      (0 <= i < j < |log| && log[i].Launched? && log[j].Launched? && log[i].key == log[j].key
       && ListedSince(log[..j], i, log[i].key))
      ==> log[j].time >= log[i].time + interval
  }

  lemma ListingKeeps(log: seq<Entry>, due: map<string, int>, interval: nat, listed: set<string>)
    requires Timed(log, due, interval)
    ensures Timed(log + [Listing(listed)], Pruned(due, listed), interval)
  {
    var more := log + [Listing(listed)];
    forall i | 0 <= i < |more| && more[i].Launched? && ListedSince(more, i, more[i].key)
      ensures more[i].key in Pruned(due, listed) && Pruned(due, listed)[more[i].key] >= more[i].time + interval
    {
      assert more[|log|] == Listing(listed);
      assert forall m :: i < m < |log| ==> more[m] == log[m];
      assert ListedSince(log, i, log[i].key);
    }
    assert forall j :: 0 <= j <= |log| ==> more[..j] == log[..j];
  }

  lemma LaunchKeeps(log: seq<Entry>, due: map<string, int>, interval: nat, key: string, now: int)
    requires Timed(log, due, interval) && now >= DueAt(due, key)
    ensures Timed(log + [Launched(key, now)], due[key := now + interval], interval)
  {
    var more := log + [Launched(key, now)];
    assert forall j :: 0 <= j <= |log| ==> more[..j] == log[..j];
    assert log[..|log|] == log;
    forall i | 0 <= i < |log| && log[i].Launched? && ListedSince(more, i, log[i].key)
      ensures log[i].key in due && due[log[i].key] >= log[i].time + interval
    {
      assert forall m :: i < m < |log| ==> more[m] == log[m];
      assert ListedSince(log, i, log[i].key);
    }
  }

  // ---------------------------------------------------------------- observations

  /** An observation names the launch it reports, or none for a list that could not be read. */
  ghost predicate ReportedOnce(seen: seq<Option<nat>>, launches: nat) {
    && (forall i, j :: 0 <= i < j < |seen| && seen[i].Some? ==> seen[i] != seen[j])
    && (forall i :: 0 <= i < |seen| && seen[i].Some? ==> seen[i].value < launches)
  }

  ghost predicate FlightsFit(flights: map<string, Flight>, seen: seq<Option<nat>>, launches: nat) {
    && (forall key :: key in flights ==> flights[key].id < launches && flights[key].registration.key == key)
    && (forall a, b :: a in flights && b in flights && flights[a].id == flights[b].id ==> a == b)
    && (forall key :: key in flights && !flights[key].decided ==> Some(flights[key].id) !in seen)
  }

  function Decide(flights: map<string, Flight>, keys: set<string>): (decided: map<string, Flight>)
    ensures decided.Keys == flights.Keys && |decided| == |flights|
  {
    var decided := map key | key in flights :: if key in keys then flights[key].(decided := true) else flights[key];
    assert decided.Keys == flights.Keys;
    decided
  }

  lemma DecideMeans(flights: map<string, Flight>, keys: set<string>)
    ensures forall key :: key in flights ==>
              Decide(flights, keys)[key] == flights[key].(decided := flights[key].decided || key in keys)
  {
  }

  ghost predicate AllDecided(flights: map<string, Flight>) {
    forall key :: key in flights ==> flights[key].decided
  }

  /** Slots and reports agree: at most `limit` flights, one observation each at most, all of them counted. */
  ghost predicate Accounted(flights: map<string, Flight>, seen: seq<Option<nat>>, launches: nat, counted: nat,
                            limit: nat) {
    && |flights| <= limit && counted == |seen|
    && FlightsFit(flights, seen, launches) && ReportedOnce(seen, launches)
  }

  ghost predicate Timed(log: seq<Entry>, due: map<string, int>, interval: nat) {
    DueAfter(log, due, interval) && Spaced(log, interval)
  }

  lemma DecidingKeeps(flights: map<string, Flight>, keys: set<string>, seen: seq<Option<nat>>, launches: nat,
                      counted: nat, limit: nat)
    requires Accounted(flights, seen, launches, counted, limit)
    ensures Accounted(Decide(flights, keys), seen, launches, counted, limit)
    ensures AllDecided(flights) || flights.Keys <= keys ==> AllDecided(Decide(flights, keys))
    ensures forall key :: key in flights && (key in keys || flights[key].decided) ==> Decide(flights, keys)[key].decided
  {
  }

  /** Reporting a flight as it is decided. */
  lemma ReportKeeps(flights: map<string, Flight>, key: string, seen: seq<Option<nat>>, launches: nat, counted: nat,
                    limit: nat)
    requires Accounted(flights, seen, launches, counted, limit) && key in flights && !flights[key].decided
    ensures Accounted(Decide(flights, {key}), seen + [Some(flights[key].id)], launches, counted + 1, limit)
  {
    var id, more := Some(flights[key].id), seen + [Some(flights[key].id)];
    assert ReportedOnce(more, launches);
    forall other | other in flights && !flights[other].decided && other != key
      ensures Some(flights[other].id) !in more
    {
      assert flights[other].id != flights[key].id;
    }
  }

  /** A list that cannot be read is reported under no launch. */
  lemma RegistryReportKeeps(flights: map<string, Flight>, seen: seq<Option<nat>>, launches: nat, counted: nat,
                            limit: nat)
    requires Accounted(flights, seen, launches, counted, limit)
    ensures Accounted(flights, seen + [None], launches, counted + 1, limit)
  {
  }

  lemma SettlingKeeps(flights: map<string, Flight>, key: string, seen: seq<Option<nat>>, launches: nat, counted: nat,
                      limit: nat)
    requires Accounted(flights, seen, launches, counted, limit) && key in flights
    ensures Accounted(flights - {key}, seen, launches, counted, limit)
    ensures AllDecided(flights) ==> AllDecided(flights - {key})
  {
    assert (flights - {key}).Keys == flights.Keys - {key};
    assert |(flights - {key}).Keys| == |flights.Keys| - 1;
  }

  lemma LaunchFits(flights: map<string, Flight>, seen: seq<Option<nat>>, launches: nat, counted: nat, limit: nat,
                   row: Registration)
    requires Accounted(flights, seen, launches, counted, limit) && row.key !in flights && |flights| < limit
    ensures Accounted(flights[row.key := Flight(launches, row, false)], seen, launches + 1, counted, limit)
  {
    var flight := Flight(launches, row, false);
    assert flights[row.key := flight].Keys == flights.Keys + {row.key};
    assert forall i :: 0 <= i < |seen| ==> seen[i] != Some(launches);
  }

  /** The slots held before are held unchanged; the new ones run registrations of the list. */
  ghost predicate OnlyAdded(before: map<string, Flight>, after: map<string, Flight>, rows: seq<Registration>) {
    && (forall key :: key in before ==> key in after && after[key] == before[key])
    && (forall key :: key in after && key !in before ==> after[key].registration in rows && !after[key].decided)
  }

  ghost predicate KeptOrStopped(before: map<string, Flight>, after: map<string, Flight>, listed: seq<Registration>) {
    && (forall key :: key in before ==>
          && key in after
          && after[key] == before[key].(decided := before[key].decided || before[key].registration !in listed))
    && (forall key :: key in after && key !in before ==> after[key].registration in listed && !after[key].decided)
  }

  lemma AddedMeans(before: map<string, Flight>, after: map<string, Flight>, listed: seq<Registration>)
    requires OnlyAdded(Decide(before, Revoked(before, listed)), after, listed)
    ensures KeptOrStopped(before, after, listed)
  {
  }

  lemma NothingAdded(flights: map<string, Flight>, rows: seq<Registration>)
    ensures OnlyAdded(flights, flights, rows)
  {
  }

  lemma AddingKeeps(before: map<string, Flight>, flights: map<string, Flight>, rows: seq<Registration>, flight: Flight)
    requires OnlyAdded(before, flights, rows) && flight.registration in rows && !flight.decided
    ensures flight.registration.key !in flights ==> OnlyAdded(before, flights[flight.registration.key := flight], rows)
  {
  }

  class Supervisor {
    const interval: nat
    const concurrency: nat
    var flights: map<string, Flight>
    var nextEligible: map<string, int>
    var lastTime: int
    var cursor: nat
    var completed: nat
    var failures: nat
    var launches: nat
    var observationFailed: bool
    var aborted: bool
    ghost var observations: seq<Option<nat>>
    ghost var log: seq<Entry>
    ghost var polls: seq<Scheduler.Poll>

    constructor (interval: nat, concurrency: nat)
      requires 15000 <= interval <= 300000 && 1 <= concurrency <= 32
      ensures Valid() && this.interval == interval && this.concurrency == concurrency
      ensures flights == map[] && observations == [] && log == [] && polls == [] && IsRecorded()
      ensures !IsOver() && completed == failures == launches == 0
    {
      this.interval, this.concurrency := interval, concurrency;
      flights, nextEligible, lastTime, cursor := map[], map[], 0, 0;
      completed, failures, launches, observationFailed, aborted := 0, 0, 0, false, false;
      observations, log, polls := [], [], [];
    }

    ghost predicate Valid()
      reads this
    {
      && Accounted(flights, observations, launches, completed + failures, concurrency)
      && Timed(log, nextEligible, interval)
      && (IsOver() ==> AllDecided(flights))
    }

    /** The polls so far, and how the slots stand since the last of them. */
    ghost predicate IsRecorded()
      reads this
    {
      Recorded(polls, Snapshot(), lastTime, interval, concurrency)
    }

    function Snapshot(): Slots
      reads this
    {
      Slots(flights.Keys, nextEligible, cursor)
    }

    predicate IsOver()
      reads this
    {
      aborted || observationFailed
    }

    /** Aborting decides flights without an observation; their slots stay taken. */
    method Abort(keys: set<string>)
      requires Valid()
      modifies `flights
      ensures Valid() && flights == Decide(old(flights), keys)
    {
      hide Accounted, Timed, AllDecided, Decide;
      DecidingKeeps(flights, keys, observations, launches, completed + failures, concurrency);
      flights := Decide(flights, keys);
    }

    /** Reports. A sink that throws ends the run and aborts every flight. */
    method Observe(id: Option<nat>, throws: bool)
      requires Accounted(flights, observations + [id], launches, completed + failures, concurrency)
      requires Timed(log, nextEligible, interval) && (IsOver() ==> AllDecided(flights))
      modifies `flights, `observations, `observationFailed
      ensures Valid() && observations == old(observations) + [id]
      ensures observationFailed == (old(observationFailed) || throws)
      ensures flights ==
              if observationFailed && !old(observationFailed) then Decide(old(flights), old(flights.Keys))
              else old(flights)
      ensures flights.Keys == old(flights.Keys)
      ensures forall key :: key in flights && old(flights)[key].decided ==> flights[key].decided
    {
      hide Accounted, Timed, AllDecided, Decide;
      observations := observations + [id];
      if throws && !observationFailed {
        DecidingKeeps(flights, flights.Keys, observations, launches, completed + failures, concurrency);
        observationFailed := true;
        flights := Decide(flights, flights.Keys);
      }
    }

    /** Decides an undecided flight, with its one observation. */
    method Finish(key: string, won: bool, throws: bool)
      requires Valid() && key in flights && !flights[key].decided
      modifies `flights, `observations, `observationFailed, `completed, `failures
      ensures Valid() && flights.Keys == old(flights.Keys) && flights[key].decided
      ensures observations == old(observations) + [Some(old(flights)[key].id)]
      ensures completed == old(completed) + (if won then 1 else 0)
      ensures failures == old(failures) + (if won then 0 else 1)
      ensures observationFailed == (old(observationFailed) || throws)
      ensures forall other :: other in flights && other != key ==>
        var was := old(flights)[other];
        flights[other] == was.(decided := was.decided || (throws && !old(observationFailed)))
    {
      hide Accounted, Timed, AllDecided, Decide;
      ReportKeeps(flights, key, observations, launches, completed + failures, concurrency);
      DecidingKeeps(flights, {key}, observations, launches, completed + failures, concurrency);
      var id := flights[key].id;
      flights := Decide(flights, {key});
      if won {
        completed := completed + 1;
      } else {
        failures := failures + 1;
      }
      DecideMeans(old(flights), {key});
      DecideMeans(flights, flights.Keys);
      Observe(Some(id), throws);
    }

    /** The operation of a flight ended; what it says counts only if nothing decided the flight before. */
    method OnResult(key: string, receipt: Receipt, throws: bool)
      requires Valid() && key in flights
      modifies `flights, `observations, `observationFailed, `completed, `failures
      ensures Valid() && Snapshot() == old(Snapshot()) && (old(IsRecorded()) ==> IsRecorded())
      ensures old(flights)[key].decided ==> observations == old(observations) && flights == old(flights)
      ensures !old(flights)[key].decided ==>
        && observations == old(observations) + [Some(old(flights)[key].id)]
        && completed == old(completed) + (if receipt.Completed? then 1 else 0)
        && failures == old(failures) + (if receipt.Completed? then 0 else 1)
        && flights[key].decided && observationFailed == (old(observationFailed) || throws)
      ensures old(flights)[key].decided ==> unchanged(`completed, `failures, `observationFailed)
    {
      hide Accounted, Timed, AllDecided, Decide;
      if !flights[key].decided {
        Finish(key, receipt.Completed?, throws);
      }
    }

    /** The deadline passed: a failure is reported and the operation told to stop, but the slot is kept. */
    method OnTimeout(key: string, throws: bool)
      requires Valid() && key in flights && !flights[key].decided
      modifies `flights, `observations, `observationFailed, `completed, `failures
      ensures Valid() && Snapshot() == old(Snapshot()) && (old(IsRecorded()) ==> IsRecorded())
      ensures flights[key].decided
      ensures observations == old(observations) + [Some(old(flights)[key].id)]
      ensures failures == old(failures) + 1 && completed == old(completed)
      ensures observationFailed == (old(observationFailed) || throws)
    {
      hide Accounted, Timed, AllDecided, Decide;
      Finish(key, false, throws);
    }

    /** Only the end of the operation itself gives the slot back. */
    method OnSettled(key: string)
      requires Valid() && key in flights && flights[key].decided
      modifies `flights
      ensures Valid() && flights == old(flights) - {key}
      ensures Released(old(Snapshot()), Snapshot()) && (old(IsRecorded()) ==> IsRecorded())
    {
      hide Accounted, Timed, AllDecided, Recorded;
      SettlingKeeps(flights, key, observations, launches, completed + failures, concurrency);
      ghost var after := Slots(flights.Keys - {key}, nextEligible, cursor);
      if Recorded(polls, Snapshot(), lastTime, interval, concurrency) {
        ReleaseIsRecorded(polls, Snapshot(), after, lastTime, interval, concurrency);
      }
      assert (flights - {key}).Keys == flights.Keys - {key};
      flights := flights - {key};
    }

    /** The caller's signal. */
    method OnAbort()
      requires Valid()
      modifies `flights, `aborted
      ensures Valid() && aborted && flights == Decide(old(flights), old(flights.Keys))
      ensures Snapshot() == old(Snapshot()) && (old(IsRecorded()) ==> IsRecorded())
    {
      DecidingKeeps(flights, flights.Keys, observations, launches, completed + failures, concurrency);
      hide Accounted, Timed, AllDecided, Decide;
      Abort(flights.Keys);
      aborted := true;
    }

    // -------------------------------------------------------------- polls

    /** Fairness of this supervisor: while one list is polled again and again, whatever callbacks come between, a
        registration that is due and passed over each time waits for at most n - 1 launches of others. */
    lemma DueWaits(from: nat, to: nat, keys: seq<string>, x: nat)
      requires IsRecorded() && from < to <= |polls| && x < |keys|
      requires forall i :: from <= i < to ==> polls[i].keys == keys && keys[x] !in polls[i].after.busy
      requires IsDue(polls[from].before, keys[x], polls[from].now)
      ensures Launches(polls[from..to]) <= |keys| - 1
    {
      hide Recorded;
      DueWaitsAtMost(polls, Snapshot(), lastTime, interval, concurrency, from, to, keys, x);
    }

    method Launch(row: Registration, now: int, place: nat)
      requires Valid() && !IsOver() && row.key !in flights && |flights| < concurrency
      requires now >= DueAt(nextEligible, row.key)
      modifies `flights, `nextEligible, `cursor, `launches, `log
      ensures Valid()
      ensures Snapshot() == AfterLaunch(old(Snapshot()), row.key, now + interval, place + 1)
      ensures flights == old(flights)[row.key := Flight(old(launches), row, false)]
      ensures log == old(log) + [Launched(row.key, now)]
    {
      hide Accounted, Timed, AllDecided, Decide;
      var flight, due := Flight(launches, row, false), now + interval;
      LaunchKeeps(log, nextEligible, interval, row.key, now);
      LaunchFits(flights, observations, launches, completed + failures, concurrency, row);
      assert flights[row.key := flight].Keys == flights.Keys + {row.key};
      hide DueAt;
      log, launches, cursor := log + [Launched(row.key, now)], launches + 1, place + 1;
      flights, nextEligible := flights[row.key := flight], nextEligible[row.key := due];
    }

    /** Looks at one place of the scan. */
    method Consider(row: Registration, now: int, place: nat, ghost rows: seq<Registration>, ghost start: Slots,
                    looked: nat, ghost offsets: seq<nat>, ghost before: map<string, Flight>, ghost listed: set<string>)
      returns (ghost more: seq<nat>)
      requires Valid() && !IsOver() && |flights| < concurrency && Distinct(Keys(rows)) && looked < |rows|
      requires place == PlaceOf(Keys(rows), start.cursor, looked) && rows[place] == row
      requires ScanSoFar(start, Keys(rows), now, interval, offsets, Snapshot(), looked)
      requires OnlyAdded(before, flights, rows) && nextEligible.Keys <= listed && row.key in listed
      modifies `flights, `nextEligible, `cursor, `launches, `log
      ensures Valid() && ScanSoFar(start, Keys(rows), now, interval, more, Snapshot(), looked + 1)
      ensures OnlyAdded(before, flights, rows) && nextEligible.Keys <= listed
    {
      hide Accounted, Timed, AllDecided, ScanSoFar, OnlyAdded, Distinct, Decide, PlaceOf;
      if row.key !in flights && now >= DueAt(nextEligible, row.key) {
        LaunchExtends(start, Keys(rows), now, interval, offsets, Snapshot(), looked);
        AddingKeeps(before, flights, rows, Flight(launches, row, false));
        Launch(row, now, place);
        more := offsets + [looked];
      } else {
        SkipExtends(start, Keys(rows), now, interval, offsets, Snapshot(), looked);
        more := offsets;
      }
    }

    /** The round-robin scan. */
    method Scan(rows: seq<Registration>, now: int) returns (ghost offsets: seq<nat>)
      requires Valid() && !IsOver() && Distinct(Keys(rows)) && nextEligible.Keys <= KeySet(rows)
      modifies `flights, `nextEligible, `cursor, `launches, `log
      ensures Valid()
      ensures Scanned(old(Snapshot()), Keys(rows), now, interval, concurrency, offsets, Snapshot())
      ensures nextEligible.Keys <= KeySet(rows)
      ensures OnlyAdded(old(flights), flights, rows)
    {
      hide Valid, PlaceOf, ScanSoFar, Scanned, OnlyAdded, Distinct, KeySet;
      ghost var start, listed := Snapshot(), KeySet(rows);
      var from, looked := cursor, 0;
      offsets := [];
      NothingAdded(flights, rows);
      ScanStarts(start, Keys(rows), now, interval);
      while looked < |rows| && |flights| < concurrency
        invariant looked <= |rows| && Valid()
        invariant ScanSoFar(start, Keys(rows), now, interval, offsets, Snapshot(), looked)
        invariant OnlyAdded(old(flights), flights, rows) && nextEligible.Keys <= listed
      {
        var place := PlaceOf(Keys(rows), from, looked);
        ListedKey(rows, place);
        offsets := Consider(rows[place], now, place, rows, start, looked, offsets, old(flights), listed);
        looked := looked + 1;
      }
      ScanEnds(start, Keys(rows), now, interval, concurrency, offsets, Snapshot(), looked);
    }

    /** A list that could not be read, is too long or names a scope twice counts as empty, and is reported. */
    method Admit(rows: Result<seq<Registration>>, throws: bool) returns (listed: seq<Registration>)
      requires Valid() && !IsOver()
      modifies `flights, `observations, `observationFailed, `failures
      ensures Valid() && Distinct(Keys(listed)) && flights.Keys == old(flights.Keys)
      ensures !observationFailed ==> flights == old(flights)
      ensures
        if IsAdmissible(rows) then
          && listed == rows.value && flights == old(flights)
          && unchanged(`observations, `failures, `observationFailed)
        else
          && listed == [] && observations == old(observations) + [None] && failures == old(failures) + 1
          && (observationFailed <==> throws)
    {
      hide Accounted, Timed, AllDecided, Decide;
      if IsAdmissible(rows) {
        return rows.value;
      }
      RegistryReportKeeps(flights, observations, launches, completed + failures, concurrency);
      failures := failures + 1;
      Observe(None, throws);
      return [];
    }

    /** Forgets the waiting times of what is no longer listed, and stops what is gone or changed. */
    method Refresh(listed: seq<Registration>)
      requires Valid()
      modifies `flights, `nextEligible, `log
      ensures Valid() && nextEligible == Pruned(old(nextEligible), KeySet(listed))
      ensures nextEligible.Keys <= KeySet(listed)
      ensures log == old(log) + [Listing(KeySet(listed))]
      ensures flights == Decide(old(flights), Revoked(old(flights), listed))
    {
      ListingKeeps(log, nextEligible, interval, KeySet(listed));
      assert Pruned(nextEligible, KeySet(listed)).Keys <= KeySet(listed);
      hide Accounted, Timed, AllDecided, Decide, Pruned, Revoked, KeySet;
      nextEligible := Pruned(nextEligible, KeySet(listed));
      log := log + [Listing(KeySet(listed))];
      Abort(Revoked(flights, listed));
    }

    /** What a poll of this list begins with: the waiting times of unlisted registrations forgotten. */
    function Opening(listed: seq<Registration>): Slots
      reads this
    {
      Slots(flights.Keys, Pruned(nextEligible, KeySet(listed)), cursor)
    }

    /** One turn of the loop. It fails only on a clock that is not finite, goes back or is out of range. Every
        scan it makes goes into the history of polls. */
    method Poll(rows: Result<seq<Registration>>, now: Option<int>, throws: bool)
      returns (r: Result<()>, ghost listed: seq<Registration>, ghost offsets: seq<nat>)
      requires Valid() && !IsOver()
      modifies this
      ensures Valid() && listed == (if IsList(rows) then rows.value else [])
      // A list that cannot be taken is reported as a failure of no flight, and nothing is reported otherwise.
      ensures observations == old(observations) + (if IsList(rows) then [] else [None])
      ensures failures == old(failures) + (if IsList(rows) then 0 else 1) && completed == old(completed)
      ensures observationFailed <==> !IsList(rows) && throws
      // Flights stay, told to stop if they are no longer listed as they were launched; new ones are of the list.
      ensures r.Success? && !observationFailed ==> KeptOrStopped(old(flights), flights, listed)
      ensures r.Success? && !observationFailed ==>
        && now.Some? && old(lastTime) <= now.value == lastTime
        && polls == old(polls) + [Scheduler.Poll(Keys(listed), old(Opening(listed)), now.value, offsets, Snapshot())]
        && IsScan(polls[|polls| - 1], interval, concurrency)
        && nextEligible.Keys <= KeySet(listed)
        && OnlyAdded(Decide(old(flights), Revoked(old(flights), listed)), flights, listed)
      ensures !(r.Success? && !observationFailed) ==> polls == old(polls) && Snapshot() == old(Snapshot())
      ensures old(IsRecorded()) ==> IsRecorded()
      ensures r.Success? <==>
        observationFailed || (now.Some? && old(lastTime) <= now.value <= 9_007_199_254_740_991 - interval)
    {
      hide Valid, Scanned, OnlyAdded, Distinct, KeySetOf, Decide, Revoked, Pruned, Recorded;
      offsets := [];
      ListMeans(rows);
      var admitted := Admit(rows, throws);
      listed := admitted;
      if observationFailed {
        return Success(()), listed, offsets;
      }
      if now.None? || now.value < lastTime || now.value > MAX_SAFE - interval {
        return Failure("clock_not_monotonic"), listed, offsets;
      }
      ghost var s, time := Snapshot(), lastTime;
      SetTime(now.value);
      Refresh(admitted);
      offsets := Scan(admitted, now.value);
      AddedMeans(old(flights), flights, admitted);
      ghost var p := Scheduler.Poll(Keys(admitted), old(Opening(admitted)), now.value, offsets, Snapshot());
      Record(s, time, p);
      r := Success(());
    }

    ghost method Record(s: Slots, time: int, p: Scheduler.Poll)
      requires Valid() && time <= p.now == lastTime && p.after == Snapshot()
      requires p.before == Slots(s.busy, Pruned(s.due, KeySetOf(p.keys)), s.cursor)
      requires IsScan(p, interval, concurrency) && nextEligible.Keys <= KeySetOf(p.keys)
      modifies `polls
      ensures Valid() && polls == old(polls) + [p]
      ensures Recorded(old(polls), s, time, interval, concurrency) ==> IsRecorded()
    {
      hide Accounted, Timed, AllDecided, Recorded, IsScan, Pruned, KeySetOf;
      if Recorded(polls, s, time, interval, concurrency) {
        PollIsRecorded(polls, s, time, p, interval, concurrency);
      }
      polls := polls + [p];
    }

    method SetTime(now: int)
      requires Valid()
      modifies `lastTime
      ensures Valid() && lastTime == now
    {
      hide Accounted, Timed, AllDecided;
      lastTime := now;
    }
  }
}
