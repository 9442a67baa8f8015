/** Exactly which calls of the learning study are granted, taken, settled or turned away, and what ends the study:
    stated on the tables and the input, without the order in which the program looks at them
    (packages/cli/src/finiteLearningStudy.ts:82-194). */
module StudyDecisions {
  import opened CohortOrder
  import opened Outcomes
  import opened StudyLedger
  import opened StudyRuns

  // ---------------------------------------------------------------- the clock

  /** The clock reads a time, not before the last one, and the study has not run out. */
  ghost predicate InTime(c: Configuration, db: Db, now: Option<int>) {
    now.Some? && db.lastObserved <= now.value < c.expiresAt
  }

  /** What every call that looks at the clock does first. A study that is live and in time goes on with the new time;
      any other is over, for good. */
  lemma GuardMeans(c: Configuration, db: Db, now: Option<int>)
    ensures Guarded(c, db, now).1.None? <==> IsLive(db) && InTime(c, db, now)
    ensures IsLive(Guarded(c, db, now).0) <==> IsLive(db) && InTime(c, db, now)
    ensures IsLive(db) && InTime(c, db, now) ==> Guarded(c, db, now).0 == db.(lastObserved := now.value)
    ensures Guarded(c, db, now).1.Some? ==> !Guarded(c, db, now).1.value.ok && !Guarded(c, db, now).1.value.execute
    ensures now.Some? && db.lastObserved <= now.value && c.expiresAt <= now.value ==>
              Guarded(c, db, now).0.state == Stopped
    ensures now.None? || now.value < db.lastObserved ==> Guarded(c, db, now).0.state == Blocked
  {
  }

  // ---------------------------------------------------------------- reservations

  ghost predicate ValidRequest(c: Configuration, input: ReserveInput) {
    && c.isHash(input.windowHash) && c.isHash(input.payloadHash) && c.isId(input.key)
    && input.executor in {"local", "roomote", "gemini"}
    && 1 <= input.maximumCents <= 9_007_199_254_740_991
  }

  /** The sealed window, a phase with room under its own cap, nothing under this key or phase, nothing unfinished, and
      room under the total. */
  ghost predicate HasRoom(c: Configuration, db: Db, input: ReserveInput) {
    && db.window == Some(input.windowHash)
    && input.phase in c.phaseCaps && input.maximumCents <= c.phaseCaps[input.phase]
    && (forall i :: 0 <= i < |db.requests| ==>
          && db.requests[i].input.key != input.key && db.requests[i].input.phase != input.phase
          && db.requests[i].state !in {Reserved, Unknown})
    && Liability(db.requests) + input.maximumCents <= c.maximumCents
  }

  lemma {:induction false} NothingInFlight(rs: seq<Request>)
    ensures InFlight(rs) == 0 <==> forall i :: 0 <= i < |rs| ==> rs[i].state !in {Reserved, Unknown}
  {
    if rs != [] {
      NothingInFlight(rs[..|rs| - 1]);
      if i :| 0 <= i < |rs| && rs[i].state in {Reserved, Unknown} {
        OpenIsCounted(rs, i);
      }
    }
  }

  /** A reservation is granted exactly then, for the next fence, and its row is all that it adds. */
  lemma GrantExactly(c: Configuration, db: Db, input: ReserveInput, now: Option<int>)
    ensures Grants(c, db, Reserve(input, now)) <==>
            ValidRequest(c, input) && IsLive(db) && InTime(c, db, now) && HasRoom(c, db, input)
    ensures Grants(c, db, Reserve(input, now)) ==>
              Step(c, db, Reserve(input, now)) ==
              (db.(lastObserved := now.value, requests := db.requests + [Request(input, Reserved, None, None)]),
               Decision(true, "reserved", true, |db.requests| + 1, false))
  {
    hide Liability;
    NothingInFlight(db.requests);
    GuardMeans(c, db, now);
    hide Guarded;
    if HasRoom(c, db, input) {
      assert RowOf(db.requests, input.key) == |db.requests|;
    }
  }

  /** A key seen before is answered from its row, at any time and in any state: the same request with its fence, any
      other with a conflict; never a second grant. */
  lemma ReplayExactly(c: Configuration, db: Db, input: ReserveInput, now: Option<int>, i: nat)
    requires DistinctRequests(db.requests) && ValidRequest(c, input)
    requires i < |db.requests| && db.requests[i].input.key == input.key
    ensures Step(c, db, Reserve(input, now)) ==
            (db, if db.requests[i].input == input then Decision(true, "reconciled_request", false, i + 1, false)
                 else Decision(false, "idempotency_conflict", false, 0, false))
  {
    hide Granting, Guarded;
    assert RowOf(db.requests, input.key) == i;
  }

  lemma InvalidIsRefused(c: Configuration, db: Db, input: ReserveInput, now: Option<int>)
    requires !ValidRequest(c, input)
    ensures Step(c, db, Reserve(input, now)) == (db, Decision(false, "invalid_request", false, 0, false))
  {
    hide Granting, Guarded;
  }

  /** A valid request under a new key that is not granted is refused, and changes nothing but the clock unless the
      study is over. */
  lemma RefusalChangesNothing(c: Configuration, db: Db, input: ReserveInput, now: Option<int>)
    requires ValidRequest(c, input) && forall i :: 0 <= i < |db.requests| ==> db.requests[i].input.key != input.key
    requires !Grants(c, db, Reserve(input, now))
    ensures !Step(c, db, Reserve(input, now)).1.ok
    ensures Step(c, db, Reserve(input, now)).0 ==
            if IsLive(db) && InTime(c, db, now) then db.(lastObserved := now.value) else Guarded(c, db, now).0
  {
    hide Liability, InFlight;
    GuardMeans(c, db, now);
    hide Guarded;
  }

  // ---------------------------------------------------------------- records

  ghost predicate ValidRecord(c: Configuration, input: RecordInput) {
    && input.identity == c.identity && input.state == "completed" && input.admissible
    && c.isId(input.id) && c.isHash(input.receipt) && input.endedAt.Some?
  }

  /** The record's own time is not after the second reading of the clock. */
  ghost predicate NotFuture(input: RecordInput, later: Option<int>) {
    input.endedAt.Some? && later.Some? ==> input.endedAt.value <= later.value
  }

  ghost predicate HoldsRow(db: Db, row: Record) {
    row in db.trajectories || row in db.backlog
  }

  ghost predicate HoldsId(db: Db, id: string) {
    exists row :: HoldsRow(db, row) && row.id == id
  }

  /** The record is valid, in time and looked at. */
  ghost predicate Considered(c: Configuration, db: Db, input: RecordInput, now: Option<int>, later: Option<int>) {
    ValidRecord(c, input) && IsLive(db) && InTime(c, db, now) && NotFuture(input, later)
  }

  /** What becomes of a record that is looked at: it opens or fills the window, waits in the backlog, repeats a row, or
      contradicts one. */
  lemma RecordExactly(c: Configuration, db: Db, input: RecordInput, now: Option<int>, later: Option<int>)
    requires DistinctIds(db.trajectories + db.backlog) && Considered(c, db, input, now, later)
    ensures
      var (next, decision) := Step(c, db, Call.Record(input, now, later));
      var row := RowFor(input);
      var seen := db.(lastObserved := now.value);
      if HoldsRow(db, row) then next == seen && decision == Decision(true, "duplicate", false, 0, false)
      else if HoldsId(db, row.id) then
        next == seen.(state := Blocked, reason := "trajectory_conflict") && !decision.ok
      else if db.window.Some? then
        if |db.backlog| >= 100 then next == seen && !decision.ok && !decision.retained
        else next == seen.(backlog := db.backlog + [row]) && !decision.ok && decision.retained
      else if |db.trajectories| == 99 then
        && next == seen.(trajectories := db.trajectories + [row], state := Ready,
                         window := Some(c.digest(Cohort(db.trajectories + [row]))))
        && decision == Decision(true, "window_sealed", false, 0, false)
      else
        && next == seen.(trajectories := db.trajectories + [row])
        && decision == Decision(true, "recorded", false, 0, false)
  {
    hide Cohort;
    GuardMeans(c, db, now);
    FoundRow(db, RowFor(input));
    hide Guarded, Find, DistinctIds, HoldsId, HoldsRow;
  }

  lemma FoundRow(db: Db, row: Record)
    requires DistinctIds(db.trajectories + db.backlog)
    ensures var prior := Find(db.trajectories + db.backlog, row.id);
            && (prior.Some? <==> HoldsId(db, row.id))
            && (prior == Some(row) <==> HoldsRow(db, row))
            && (HoldsRow(db, row) ==> HoldsId(db, row.id))
  {
    var all := db.trajectories + db.backlog;
    assert forall x :: x in all <==> HoldsRow(db, x);
    if HoldsRow(db, row) {
      var i :| 0 <= i < |all| && all[i] == row;
      var found := Find(all, row.id).value;
      var j :| 0 <= j < |all| && all[j] == found;
    }
  }

  /** A record that is not valid changes nothing; one that is valid but untimely changes the clock alone, or finds
      the study over. */
  lemma RecordRefused(c: Configuration, db: Db, input: RecordInput, now: Option<int>, later: Option<int>)
    requires !Considered(c, db, input, now, later)
    ensures !Step(c, db, Call.Record(input, now, later)).1.ok
    ensures Step(c, db, Call.Record(input, now, later)).0 ==
            if !ValidRecord(c, input) then db
            else if IsLive(db) && InTime(c, db, now) then db.(lastObserved := now.value)
            else Guarded(c, db, now).0
  {
    hide Cohort, Find;
    GuardMeans(c, db, now);
    hide Guarded;
  }

  // ---------------------------------------------------------------- settlements

  ghost predicate ValidSettlement(c: Configuration, input: SettleInput) {
    && c.isId(input.key) && c.isHash(input.receipt) && 1 <= input.fence <= 9_007_199_254_740_991
    && (|| (input.state == "unknown" && input.actual.None?)
        || (input.state in {"succeeded", "failed"} && input.actual.Some?
            && 0 <= input.actual.value <= 9_007_199_254_740_991))
  }

  /** The row that a settlement speaks of, under its fence. */
  ghost predicate Names(rs: seq<Request>, input: SettleInput) {
    1 <= input.fence <= |rs| && rs[input.fence - 1].input.key == input.key
  }

  function NewState(input: SettleInput): RequestState {
    match input.state
    case "succeeded" => Succeeded
    case "failed" => Failed
    case _ => Unknown
  }

  /** The row as the settlement leaves it. */
  function SettledRow(row: Request, input: SettleInput): Request {
    Request(row.input, NewState(input), input.actual, Some(input.receipt))
  }

  /** Every admitted phase has a request that succeeded. */
  ghost predicate EveryPhaseDone(c: Configuration, rs: seq<Request>) {
    forall phase :: phase in c.phaseCaps ==>
      exists i :: 0 <= i < |rs| && rs[i].input.phase == phase && rs[i].state == Succeeded
  }

  /** A settlement closes the unfinished row it names; success within its own maximum and the total keeps the study
      going, or completes it with the last phase; anything else blocks it. */
  lemma SettleExactly(c: Configuration, db: Db, input: SettleInput)
    requires DistinctRequests(db.requests) && ValidSettlement(c, input) && Names(db.requests, input)
    ensures
      var i := input.fence - 1;
      var row := db.requests[i];
      var (next, decision) := Step(c, db, Settle(input));
      var rs := db.requests[i := SettledRow(row, input)];
      if row.state in {Succeeded, Failed} then
        next == db && !decision.execute && (decision.ok <==> SettledRow(row, input) == row)
      else
        && decision == Decision(true, "settled", false, 0, false)
        && next.requests == rs
        && next == db.(requests := rs, state := next.state, reason := next.reason)
        && var good := input.state == "succeeded" && input.actual.value <= row.input.maximumCents
                       && Liability(rs) <= c.maximumCents;
           && next.state == (if !good then Blocked
                             else if db.state == Ready && EveryPhaseDone(c, rs) then Complete
                             else db.state)
           && next.reason == (if good then db.reason
                              else if input.state == "unknown" then "unknown_liability"
                              else "failed_or_overrun")
  {
    hide Liability;
    var i := input.fence - 1;
    assert RowOf(db.requests, input.key) == i;
    assert Settled(db.requests[i], input) == SettledRow(db.requests[i], input);
    PhasesDone(c, db.requests[i := SettledRow(db.requests[i], input)]);
    hide AllSucceeded, EveryPhaseDone, RowOf;
  }

  lemma PhasesDone(c: Configuration, rs: seq<Request>)
    ensures AllSucceeded(c, rs) <==> EveryPhaseDone(c, rs)
  {
    if EveryPhaseDone(c, rs) {
      forall phase | phase in c.phaseCaps ensures HasSucceeded(rs, phase) {
      }
    }
    if AllSucceeded(c, rs) {
      forall phase | phase in c.phaseCaps
        ensures exists i :: 0 <= i < |rs| && rs[i].input.phase == phase && rs[i].state == Succeeded
      {
        assert HasSucceeded(rs, phase);
      }
    }
  }

  /** Any other settlement is refused and changes nothing. */
  lemma SettlementRefused(c: Configuration, db: Db, input: SettleInput)
    requires DistinctRequests(db.requests)
    requires !(ValidSettlement(c, input) && Names(db.requests, input))
    ensures Step(c, db, Settle(input)).0 == db && !Step(c, db, Settle(input)).1.ok
  {
  }

  // ---------------------------------------------------------------- the end of a study

  /** The call looks at the clock: a valid record, or a valid request under a key not seen before. */
  ghost predicate LooksAtClock(c: Configuration, db: Db, call: Call) {
    match call
    case Record(input, _, _) => ValidRecord(c, input)
    case Reserve(input, _) =>
      ValidRequest(c, input) && forall i :: 0 <= i < |db.requests| ==> db.requests[i].input.key != input.key
    case _ => false
  }

  /** A study whose clock fails, goes back or reaches its end at such a call grants nothing from then on. */
  lemma OutOfTimeIsOver(c: Configuration, db: Db, call: Call, calls: seq<Call>, next: Call)
    requires LooksAtClock(c, db, call)
    requires !InTime(c, db, match call case Record(_, now, _) => now case Reserve(_, now) => now case _ => None)
    ensures !Grants(c, db, call)
    ensures !IsLive(After(c, Step(c, db, call).0, calls))
    ensures !Grants(c, After(c, Step(c, db, call).0, calls), next)
  {
    hide Granting, Filed, After;
    match call {
      case Record(_, now, _) => GuardMeans(c, db, now);
      case Reserve(input, now) =>
        GuardMeans(c, db, now);
        assert RowOf(db.requests, input.key) == |db.requests|;
      case _ =>
    }
    hide Guarded;
    var over := Step(c, db, call).0;
    assert !IsLive(over);
    OverIsOver(c, over, calls, next);
  }
}
