/** Whole runs of the learning study: what holds whatever sequence of calls is made, with whatever clock
    readings (packages/cli/src/finiteLearningStudy.ts:76-198). */
module StudyRuns {
  import opened CohortOrder
  import opened Outcomes
  import opened StudyLedger

  datatype Call =
    | Record(record: RecordInput, now: Option<int>, later: Option<int>)
    | Reserve(reserve: ReserveInput, now: Option<int>)
    | Settle(settle: SettleInput)
    | Stop(reason: string)

  function Step(c: Configuration, db: Db, call: Call): (Db, Decision) {
    match call
    case Record(input, now, later) => Recorded(c, db, input, now, later)
    case Reserve(input, now) => Reserving(c, db, input, now)
    case Settle(input) => Settling(c, db, input)
    case Stop(reason) => (Stopping(db, reason), Yes("stopped"))
  }

  function After(c: Configuration, db: Db, calls: seq<Call>): Db
    decreases |calls|
  {
    if calls == [] then db else After(c, Step(c, db, calls[0]).0, calls[1..])
  }

  // ---------------------------------------------------------------- the ledger invariant

  lemma StepKeeps(c: Configuration, db: Db, call: Call)
    requires Inv(c, db)
    ensures Inv(c, Step(c, db, call).0)
  {
    hide Recorded, Reserving, Settling;
    match call
    case Record(input, now, later) => RecordKeeps(c, db, input, now, later);
    case Reserve(input, now) => ReserveKeeps(c, db, input, now);
    case Settle(input) => SettleKeeps(c, db, input);
    case Stop(_) =>
  }

  lemma {:induction false} RunKeeps(c: Configuration, db: Db, calls: seq<Call>)
    requires Inv(c, db)
    ensures Inv(c, After(c, db, calls))
    decreases |calls|
  {
    hide Inv, Step;
    if calls != [] {
      StepKeeps(c, db, calls[0]);
      RunKeeps(c, Step(c, db, calls[0]).0, calls[1..]);
    }
  }

  /** The whole promise, spelled out for every state any run can reach. */
  lemma ReachableStates(c: Configuration, calls: seq<Call>)
    ensures
      var db := After(c, Initial(), calls);
      && |db.trajectories| <= 100 && |db.backlog| <= 100
      && DistinctIds(db.trajectories + db.backlog)
      && InFlight(db.requests) <= 1
      && (db.state == Collecting ==> |db.trajectories| < 100 && db.requests == [])
      && (db.state == Ready ==>
            && |db.trajectories| == 100 && db.window == Some(c.digest(Cohort(db.trajectories)))
            && Liability(db.requests) <= c.maximumCents
            && forall i :: 0 <= i < |db.requests| ==> IsPaid(db.requests[i]) || db.requests[i].state == Reserved)
      && (db.state == Complete ==>
            && (forall phase :: phase in c.phaseCaps ==>
                  exists i :: 0 <= i < |db.requests| && db.requests[i].input.phase == phase && IsPaid(db.requests[i]))
            && ActualCosts(db.requests) <= c.maximumCents)
  {
    RunKeeps(c, Initial(), calls);
    var db := After(c, Initial(), calls);
    if db.state == Complete {
      CostsAreActual(db.requests);
      forall phase | phase in c.phaseCaps
        ensures exists i :: 0 <= i < |db.requests| && db.requests[i].input.phase == phase && IsPaid(db.requests[i])
      {
        assert HasSucceeded(db.requests, phase);
        var i :| 0 <= i < |db.requests| && db.requests[i].input.phase == phase && db.requests[i].state == Succeeded;
        assert WithinMaximum(db.requests[i]);
      }
    }
  }

  /** The request succeeded at a known cost not above what was reserved for it. */
  ghost predicate IsPaid(r: Request) {
    r.state == Succeeded && r.actual.Some? && r.actual.value <= r.input.maximumCents
  }

  /** What the settled requests really cost. */
  function ActualCosts(rs: seq<Request>): int {
    if rs == [] then 0 else
      ActualCosts(rs[..|rs| - 1]) + (match rs[|rs| - 1].actual case Some(cents) => cents case None => 0)
  }

  lemma {:induction false} CostsAreActual(rs: seq<Request>)
    requires forall i :: 0 <= i < |rs| ==> WithinMaximum(rs[i])
    ensures Liability(rs) == ActualCosts(rs)
  {
    if rs != [] {
      var rest := rs[..|rs| - 1];
      forall i | 0 <= i < |rest| ensures WithinMaximum(rest[i]) {
        assert rest[i] == rs[i];
      }
      CostsAreActual(rest);
    }
  }

  // ---------------------------------------------------------------- grants

  predicate IsLive(db: Db) {
    db.state == Collecting || db.state == Ready
  }

  predicate Grants(c: Configuration, db: Db, call: Call) {
    Step(c, db, call).1.execute
  }

  lemma StepStaysOver(c: Configuration, db: Db, call: Call)
    requires !IsLive(db)
    ensures !IsLive(Step(c, db, call).0) && !Grants(c, db, call)
  {
    hide Filed, Granting, RowOf, Liability, AllSucceeded;
  }

  /** Once the study has left collecting and ready, it never returns, and nothing is granted again. */
  lemma {:induction false} OverIsOver(c: Configuration, db: Db, calls: seq<Call>, call: Call)
    requires !IsLive(db)
    ensures !IsLive(After(c, db, calls)) && !Grants(c, After(c, db, calls), call)
    decreases |calls|
  {
    hide IsLive, Step;
    if calls == [] {
      StepStaysOver(c, db, call);
    } else {
      StepStaysOver(c, db, calls[0]);
      OverIsOver(c, Step(c, db, calls[0]).0, calls[1..], call);
    }
  }

  /** A grant is a new row, made in time: its key and phase were unused, its fence is the next one, nothing else is
      in flight, and even the full price of everything reserved stays within the cap. */
  lemma GrantMeans(c: Configuration, db: Db, call: Call)
    requires Inv(c, db) && Grants(c, db, call)
    ensures call.Reserve? && IsLive(db)
    ensures call.now.Some? && db.lastObserved <= call.now.value < c.expiresAt
    ensures
      var (next, decision) := Step(c, db, call);
      && next.requests == db.requests + [Request(call.reserve, Reserved, None, None)]
      && decision.fence == |db.requests| + 1
      && InFlight(db.requests) == 0
      && Liability(next.requests) <= c.maximumCents
      && call.reserve.maximumCents <= c.phaseCaps[call.reserve.phase]
      && db.window == Some(call.reserve.windowHash)
    ensures forall i :: 0 <= i < |db.requests| ==>
      db.requests[i].input.key != call.reserve.key && db.requests[i].input.phase != call.reserve.phase
  {
    hide Recorded, Settling, WindowFits, StateFits;
    GuardKeeps(c, db, call.now);
    assert (db.requests + [Request(call.reserve, Reserved, None, None)])[..|db.requests|] == db.requests;
  }

  /** Rows are never removed and never change what they were granted for. */
  ghost predicate RowsPersist(before: seq<Request>, after: seq<Request>) {
    && |before| <= |after|
    && forall i :: 0 <= i < |before| ==> after[i].input == before[i].input
  }

  lemma StepPersists(c: Configuration, db: Db, call: Call)
    ensures RowsPersist(db.requests, Step(c, db, call).0.requests)
  {
    hide Recorded, Guarded, RowOf, Liability, InFlight, Claimed, AllSucceeded;
  }

  lemma {:induction false} RunPersists(c: Configuration, db: Db, calls: seq<Call>)
    ensures RowsPersist(db.requests, After(c, db, calls).requests)
    decreases |calls|
  {
    hide Step;
    if calls != [] {
      StepPersists(c, db, calls[0]);
      RunPersists(c, Step(c, db, calls[0]).0, calls[1..]);
    }
  }

  /** Any two grants of a run are for different keys and different phases, under rising fences. */
  lemma GrantsDiffer(c: Configuration, db: Db, first: Call, between: seq<Call>, second: Call)
    requires Inv(c, db) && Grants(c, db, first)
    requires Grants(c, After(c, Step(c, db, first).0, between), second)
    ensures first.Reserve? && second.Reserve?
    ensures first.reserve.key != second.reserve.key && first.reserve.phase != second.reserve.phase
    ensures Step(c, db, first).1.fence < Step(c, After(c, Step(c, db, first).0, between), second).1.fence
  {
    hide Step, Inv;
    GrantMeans(c, db, first);
    var next := Step(c, db, first).0;
    StepKeeps(c, db, first);
    RunKeeps(c, next, between);
    RunPersists(c, next, between);
    GrantMeans(c, After(c, next, between), second);
    assert next.requests[|db.requests|].input == first.reserve;
  }

  // ---------------------------------------------------------------- sealing ignores arrival order

  /** Every call records something and is told it was taken. */
  predicate AllTaken(c: Configuration, db: Db, calls: seq<Call>)
    decreases |calls|
  {
    calls != [] ==>
      calls[0].Record? && Step(c, db, calls[0]).1.ok && AllTaken(c, Step(c, db, calls[0]).0, calls[1..])
  }

  function Sent(calls: seq<Call>): set<CohortOrder.Record> {
    set call | call in calls && call.Record? && call.record.endedAt.Some? :: RowFor(call.record)
  }

  lemma TakenIsFiled(c: Configuration, db: Db, call: Call)
    requires Inv(c, db) && db.backlog == [] && call.Record? && Step(c, db, call).1.ok
    ensures call.record.endedAt.Some?
    ensures
      var next := Step(c, db, call).0;
      next.backlog == [] && Records(next.trajectories) == Records(db.trajectories) + {RowFor(call.record)}
  {
    hide RequestsFit, StateFits, Cohort;
    assert db.trajectories + db.backlog == db.trajectories;
  }

  lemma {:induction false} TakenAreFiled(c: Configuration, db: Db, calls: seq<Call>)
    requires Inv(c, db) && db.backlog == [] && AllTaken(c, db, calls)
    ensures Records(After(c, db, calls).trajectories) == Records(db.trajectories) + Sent(calls)
    decreases |calls|
  {
    hide Inv, Step;
    if calls != [] {
      TakenIsFiled(c, db, calls[0]);
      StepKeeps(c, db, calls[0]);
      TakenAreFiled(c, Step(c, db, calls[0]).0, calls[1..]);
      assert calls == [calls[0]] + calls[1..];
      assert Sent(calls) == {RowFor(calls[0].record)} + Sent(calls[1..]);
    }
  }

  /** Two runs that sent the same records, in any order and with any repeats, and both sealed: the windows
      have the same hash. */
  lemma SealingIgnoresOrder(c: Configuration, one: seq<Call>, other: seq<Call>)
    requires AllTaken(c, Initial(), one) && AllTaken(c, Initial(), other) && Sent(one) == Sent(other)
    requires After(c, Initial(), one).window.Some? && After(c, Initial(), other).window.Some?
    ensures After(c, Initial(), one).window == After(c, Initial(), other).window
    ensures Records(After(c, Initial(), one).trajectories) == Sent(one)
  {
    hide After, AllTaken;
    TakenAreFiled(c, Initial(), one);
    TakenAreFiled(c, Initial(), other);
    RunKeeps(c, Initial(), one);
    RunKeeps(c, Initial(), other);
    var a, b := After(c, Initial(), one), After(c, Initial(), other);
    FrontIsDistinct(a.trajectories, a.backlog);
    FrontIsDistinct(b.trajectories, b.backlog);
    CohortIgnoresArrival(a.trajectories, b.trajectories);
  }

  lemma FrontIsDistinct(front: seq<CohortOrder.Record>, back: seq<CohortOrder.Record>)
    requires DistinctIds(front + back)
    ensures DistinctIds(front)
  {
    forall i, j | 0 <= i < j < |front| ensures front[i].id != front[j].id {
      assert (front + back)[i] == front[i] && (front + back)[j] == front[j];
    }
  }
}
