/** The finite learning study: one sealed cohort of 100 records, and a budget spent one request at a time
    (packages/cli/src/finiteLearningStudy.ts).

    The tables are fields of `Ledger`; `Db` is their value inside one transaction. A request's fence is its
    row number, because rows are never deleted. */
module StudyLedger {
  import opened Outcomes
  import opened CohortOrder

  const BATCH := 100
  const BACKLOG := 100
  const SAFE := 9007199254740991

  datatype State = Collecting | Ready | Blocked | Stopped | Complete

  datatype RequestState = Reserved | Succeeded | Failed | Unknown

  /** `digest` and the format checks are whatever the deployment uses; nothing is assumed of them. */
  datatype Configuration = Configuration(
    identity: string, expiresAt: int, maximumCents: nat, phaseCaps: map<string, int>,
    isId: string -> bool, isHash: string -> bool, digest: seq<Record> -> string)

  datatype ReserveInput = ReserveInput(
    windowHash: string, phase: string, executor: string, key: string, payloadHash: string, maximumCents: int)

  /** The request hash is injective, so a row keeps the whole input. */
  datatype Request = Request(input: ReserveInput, state: RequestState, actual: Option<int>, receipt: Option<string>)

  datatype RecordInput = RecordInput(
    identity: string, id: string, state: string, admissible: bool, receipt: string, endedAt: Option<int>)

  datatype SettleInput = SettleInput(key: string, fence: int, state: string, actual: Option<int>, receipt: string)

  datatype Decision = Decision(ok: bool, code: string, execute: bool, fence: int, retained: bool)

  datatype Db = Db(
    state: State, reason: string, lastObserved: int, window: Option<string>,
    trajectories: seq<Record>, backlog: seq<Record>, requests: seq<Request>)

  function Yes(code: string): Decision {
    Decision(true, code, false, 0, false)
  }

  function No(code: string): Decision {
    Decision(false, code, false, 0, false)
  }

  function Initial(): Db {
    Db(Collecting, "", 0, None, [], [], [])
  }

  // ---------------------------------------------------------------- queries over the tables

  predicate IsCents(x: int) {
    0 <= x <= SAFE
  }

  predicate IsOpen(r: Request) {
    r.state == Reserved || r.state == Unknown
  }

  function Cost(r: Request): int {
    match r.actual
    case Some(cents) => cents
    case None => r.input.maximumCents
  }

  function Liability(rs: seq<Request>): int {
    if rs == [] then 0 else Liability(rs[..|rs| - 1]) + Cost(rs[|rs| - 1])
  }

  function InFlight(rs: seq<Request>): nat {
    if rs == [] then 0 else InFlight(rs[..|rs| - 1]) + if IsOpen(rs[|rs| - 1]) then 1 else 0
  }

  /** The row with this idempotency key, or the number of rows. */
  function RowOf(rs: seq<Request>, key: string): (i: nat)
    ensures i <= |rs|
    ensures i < |rs| ==> rs[i].input.key == key
    ensures i == |rs| <==> forall j :: 0 <= j < |rs| ==> rs[j].input.key != key
  {
    if rs == [] then 0 else
      var i := RowOf(rs[..|rs| - 1], key);
      if i < |rs| - 1 || rs[|rs| - 1].input.key == key then i else |rs|
  }

  predicate Claimed(rs: seq<Request>, phase: string) {
    exists i :: 0 <= i < |rs| && rs[i].input.phase == phase
  }

  predicate HasSucceeded(rs: seq<Request>, phase: string) {
    exists i :: 0 <= i < |rs| && rs[i].input.phase == phase && rs[i].state == Succeeded
  }

  predicate AllSucceeded(c: Configuration, rs: seq<Request>) {
    forall phase :: phase in c.phaseCaps ==> HasSucceeded(rs, phase)
  }

  // ---------------------------------------------------------------- one transaction on the tables' values

  function Block(db: Db, reason: string): Db {
    db.(state := Blocked, reason := reason)
  }

  /** Every call but a settlement first passes the clock and the state. */
  function Guarded(c: Configuration, db: Db, now: Option<int>): (r: (Db, Option<Decision>))
    ensures r.0.requests == db.requests && (r.1.Some? ==> !r.1.value.execute)
  {
    if now.None? || now.value < db.lastObserved then (Block(db, "clock_regressed"), Some(No("clock_regressed")))
    else
      var seen := db.(lastObserved := now.value);
      if now.value >= c.expiresAt then (seen.(state := Stopped, reason := "expired"), Some(No("expired")))
      else if db.state != Collecting && db.state != Ready then (seen, Some(No(CodeOf(db.state))))
      else (seen, None)
  }

  function CodeOf(state: State): string {
    match state
    case Collecting => "collecting"
    case Ready => "ready"
    case Blocked => "blocked"
    case Stopped => "stopped"
    case Complete => "complete"
  }

  function Find(rows: seq<Record>, id: string): (r: Option<Record>)
    ensures r.Some? ==> r.value in rows && r.value.id == id
    ensures r.None? <==> !HasId(rows, id)
  {
    if rows == [] then None
    else if rows[0].id == id then Some(rows[0])
    else Find(rows[1..], id)
  }

  function Recorded(c: Configuration, db: Db, input: RecordInput, now: Option<int>, later: Option<int>)
    : (r: (Db, Decision))
    ensures !r.1.execute && r.0.requests == db.requests
  {
    if input.identity != c.identity then (db, No("identity_mismatch"))
    else if input.state != "completed" || !input.admissible then (db, No("not_eligible"))
    else if !c.isId(input.id) || !c.isHash(input.receipt) || input.endedAt.None? then (db, No("invalid_trajectory"))
    else
      var (seen, denied) := Guarded(c, db, now);
      if denied.Some? then (seen, denied.value) else Filed(c, seen, RowFor(input), later)
  }

  function RowFor(input: RecordInput): Record
    requires input.endedAt.Some?
  {
    Record(input.id, input.receipt, input.endedAt.value)
  }

  function Filed(c: Configuration, db: Db, row: Record, later: Option<int>): (Db, Decision) {
    var prior := Find(db.trajectories + db.backlog, row.id);
    if later.Some? && row.endedAt > later.value then (db, No("future_trajectory"))
    else if prior.Some? && prior.value != row then (Block(db, "trajectory_conflict"), No("trajectory_conflict"))
    else if prior.Some? then (db, Yes("duplicate"))
    else if db.window.Some? then
      if |db.backlog| >= BACKLOG then (db, No("backlog_capacity"))
      else (db.(backlog := db.backlog + [row]), No("window_full").(retained := true))
    else
      var rows := db.trajectories + [row];
      if |rows| == BATCH then
        (db.(trajectories := rows, window := Some(c.digest(Cohort(rows))), state := Ready), Yes("window_sealed"))
      else (db.(trajectories := rows), Yes("recorded"))
  }

  predicate IsRequest(c: Configuration, input: ReserveInput) {
    && c.isHash(input.windowHash) && c.isHash(input.payloadHash) && c.isId(input.key)
    && input.executor in ["local", "roomote", "gemini"]
    && IsCents(input.maximumCents) && input.maximumCents >= 1
  }

  function Reserving(c: Configuration, db: Db, input: ReserveInput, now: Option<int>): (Db, Decision) {
    var row := RowOf(db.requests, input.key);
    if !IsRequest(c, input) then (db, No("invalid_request"))
    else if row < |db.requests| then
      (db, if db.requests[row].input == input then Yes("reconciled_request").(fence := row + 1)
           else No("idempotency_conflict"))
    else
      var (seen, denied) := Guarded(c, db, now);
      if denied.Some? then (seen, denied.value) else Granting(c, seen, input)
  }

  function Granting(c: Configuration, db: Db, input: ReserveInput): (Db, Decision) {
    if db.window.None? then (db, No("window_not_ready"))
    else if input.windowHash != db.window.value then (db, No("window_mismatch"))
    else if input.phase !in c.phaseCaps then (db, No("phase_not_admitted"))
    else if input.maximumCents > c.phaseCaps[input.phase] then (db, No("phase_budget"))
    else if Claimed(db.requests, input.phase) then (db, No("phase_already_claimed"))
    else if InFlight(db.requests) > 0 then (db, No("in_flight"))
    else if Liability(db.requests) + input.maximumCents > c.maximumCents then (db, No("total_budget"))
    else
      (db.(requests := db.requests + [Request(input, Reserved, None, None)]),
       Decision(true, "reserved", true, |db.requests| + 1, false))
  }

  predicate IsSettlement(c: Configuration, input: SettleInput) {
    && c.isId(input.key) && 1 <= input.fence <= SAFE && c.isHash(input.receipt)
    && input.state in ["succeeded", "failed", "unknown"]
    && if input.state == "unknown" then input.actual.None? else input.actual.Some? && IsCents(input.actual.value)
  }

  function StateOf(text: string): RequestState {
    if text == "succeeded" then Succeeded else if text == "failed" then Failed else Unknown
  }

  function Settled(r: Request, input: SettleInput): Request {
    r.(state := StateOf(input.state), actual := input.actual, receipt := Some(input.receipt))
  }

  function Settling(c: Configuration, db: Db, input: SettleInput): (r: (Db, Decision))
    ensures !r.1.execute && |r.0.requests| == |db.requests|
  {
    var i := RowOf(db.requests, input.key);
    if !IsSettlement(c, input) then (db, No("invalid_settlement"))
    else if i == |db.requests| then (db, No("request_missing"))
    else if input.fence != i + 1 then (db, No("fence_mismatch"))
    else if !IsOpen(db.requests[i]) then
      (db, if Settled(db.requests[i], input) == db.requests[i] then Yes("duplicate_settlement")
           else No("settlement_conflict"))
    else (Paid(c, db, i, input), Yes("settled"))
  }

  function Paid(c: Configuration, db: Db, i: nat, input: SettleInput): Db
    requires i < |db.requests| && IsSettlement(c, input)
  {
    var rs := db.requests[i := Settled(db.requests[i], input)];
    var next := db.(requests := rs);
    if input.state != "succeeded" || input.actual.value > db.requests[i].input.maximumCents
       || Liability(rs) > c.maximumCents then
      Block(next, if input.state == "unknown" then "unknown_liability" else "failed_or_overrun")
    else if AllSucceeded(c, rs) && db.state == Ready then next.(state := Complete)
    else next
  }

  function Stopping(db: Db, reason: string): Db {
    db.(state := Stopped, reason := reason)
  }

  // ---------------------------------------------------------------- the invariant

  predicate WithinMaximum(r: Request) {
    r.state == Succeeded && r.actual.Some? && r.actual.value <= r.input.maximumCents
  }

  ghost predicate DistinctRequests(rs: seq<Request>) {
    forall i, j :: 0 <= i < j < |rs| ==>
      rs[i].input.key != rs[j].input.key && rs[i].input.phase != rs[j].input.phase
  }

  ghost predicate RequestsFit(c: Configuration, rs: seq<Request>) {
    && DistinctRequests(rs)
    && (forall i :: 0 <= i < |rs| ==> rs[i].input.phase in c.phaseCaps)
    && (forall i :: 0 <= i < |rs| ==> (rs[i].actual.None? <==> IsOpen(rs[i])))
    && InFlight(rs) <= 1
  }

  ghost predicate WindowFits(c: Configuration, db: Db) {
    && DistinctIds(db.trajectories + db.backlog)
    && |db.trajectories| <= BATCH && |db.backlog| <= BACKLOG
    && (db.window.Some? <==> |db.trajectories| == BATCH)
    && (db.window.Some? ==> db.window.value == c.digest(Cohort(db.trajectories)))
    && (db.window.None? ==> db.backlog == [] && db.requests == [])
  }

  ghost predicate StateFits(c: Configuration, db: Db) {
    match db.state
    case Collecting => db.window.None?
    case Ready =>
      && db.window.Some? && Liability(db.requests) <= c.maximumCents
      && forall i :: 0 <= i < |db.requests| ==> WithinMaximum(db.requests[i]) || db.requests[i].state == Reserved
    case Complete =>
      && db.window.Some? && Liability(db.requests) <= c.maximumCents && AllSucceeded(c, db.requests)
      && forall i :: 0 <= i < |db.requests| ==> WithinMaximum(db.requests[i])
    case _ => true
  }

  ghost predicate Inv(c: Configuration, db: Db) {
    RequestsFit(c, db.requests) && WindowFits(c, db) && StateFits(c, db)
  }

  // ---------------------------------------------------------------- sums over the request table

  lemma {:induction false} Replaced(rs: seq<Request>, i: nat, r: Request)
    requires i < |rs|
    ensures Liability(rs[i := r]) == Liability(rs) - Cost(rs[i]) + Cost(r)
    ensures InFlight(rs[i := r]) == InFlight(rs) - (if IsOpen(rs[i]) then 1 else 0) + if IsOpen(r) then 1 else 0
  {
    var last := |rs| - 1;
    if i < last {
      Replaced(rs[..last], i, r);
      assert rs[i := r][..last] == rs[..last][i := r];
    } else {
      assert rs[i := r][..last] == rs[..last];
    }
  }

  lemma {:induction false} OpenIsCounted(rs: seq<Request>, i: nat)
    requires i < |rs| && IsOpen(rs[i])
    ensures InFlight(rs) >= 1
  {
    if i < |rs| - 1 {
      OpenIsCounted(rs[..|rs| - 1], i);
    }
  }

  lemma {:induction false} OthersAreSettled(rs: seq<Request>, i: nat, j: nat)
    requires i < |rs| && j < |rs| && i != j && IsOpen(rs[i]) && InFlight(rs) <= 1
    ensures !IsOpen(rs[j])
  {
    if IsOpen(rs[j]) {
      var last := |rs| - 1;
      if i < last && j < last {
        OthersAreSettled(rs[..last], i, j);
      } else {
        OpenIsCounted(rs[..last], if i < last then i else j);
      }
    }
  }

  // ---------------------------------------------------------------- every call keeps the invariant

  lemma GuardKeeps(c: Configuration, db: Db, now: Option<int>)
    requires Inv(c, db)
    ensures Inv(c, Guarded(c, db, now).0)
    ensures Guarded(c, db, now).1.None? ==>
      Guarded(c, db, now).0 == db.(lastObserved := now.value) && (db.state == Collecting || db.state == Ready)
  {
  }

  lemma NewIdStaysDistinct(rows: seq<Record>, row: Record)
    requires DistinctIds(rows) && Find(rows, row.id).None?
    ensures DistinctIds(rows + [row])
  {
    forall i | 0 <= i < |rows| ensures rows[i].id != row.id {
      assert rows[i] in rows;
    }
  }

  lemma FilingFits(c: Configuration, db: Db, row: Record, later: Option<int>)
    requires WindowFits(c, db)
    ensures WindowFits(c, Filed(c, db, row, later).0)
  {
    hide Cohort, DistinctIds;
    var all := db.trajectories + db.backlog;
    if Find(all, row.id).None? {
      NewIdStaysDistinct(all, row);
      assert db.trajectories + (db.backlog + [row]) == all + [row];
      if db.window.None? {
        assert (db.trajectories + [row]) + db.backlog == all + [row];
      }
    }
  }

  lemma FilingKeeps(c: Configuration, db: Db, row: Record, later: Option<int>)
    requires Inv(c, db) && (db.state == Collecting || db.state == Ready)
    ensures Inv(c, Filed(c, db, row, later).0)
  {
    FilingFits(c, db, row, later);
    hide RequestsFit, DistinctIds, Cohort, Find, AllSucceeded;
  }

  lemma RecordKeeps(c: Configuration, db: Db, input: RecordInput, now: Option<int>, later: Option<int>)
    requires Inv(c, db)
    ensures Inv(c, Recorded(c, db, input, now, later).0)
  {
    GuardKeeps(c, db, now);
    var seen := Guarded(c, db, now).0;
    if Guarded(c, db, now).1.None? && input.endedAt.Some? {
      FilingKeeps(c, seen, RowFor(input), later);
    }
  }

  lemma GrantKeeps(c: Configuration, db: Db, input: ReserveInput)
    requires Inv(c, db) && (db.state == Collecting || db.state == Ready)
    requires RowOf(db.requests, input.key) == |db.requests|
    ensures Inv(c, Granting(c, db, input).0)
  {
    var next := Granting(c, db, input).0;
    if next != db {
      var r := Request(input, Reserved, None, None);
      assert next.requests[..|db.requests|] == db.requests;
      assert Liability(next.requests) == Liability(db.requests) + input.maximumCents;
      assert InFlight(next.requests) == 1;
      assert forall i :: 0 <= i < |db.requests| ==> next.requests[i] == db.requests[i];
      assert DistinctRequests(next.requests);
    }
  }

  lemma ReserveKeeps(c: Configuration, db: Db, input: ReserveInput, now: Option<int>)
    requires Inv(c, db)
    ensures Inv(c, Reserving(c, db, input, now).0)
  {
    GuardKeeps(c, db, now);
    var seen := Guarded(c, db, now).0;
    if Guarded(c, db, now).1.None? && RowOf(db.requests, input.key) == |db.requests| {
      GrantKeeps(c, seen, input);
    }
  }

  /** Settling one open row leaves no open row but, at most, that one. */
  lemma SettlingFits(c: Configuration, rs: seq<Request>, i: nat, input: SettleInput)
    requires RequestsFit(c, rs) && i < |rs| && IsOpen(rs[i]) && IsSettlement(c, input)
    ensures RequestsFit(c, rs[i := Settled(rs[i], input)])
    ensures forall j :: 0 <= j < |rs| && j != i ==> !IsOpen(rs[j])
  {
    Replaced(rs, i, Settled(rs[i], input));
    forall j | 0 <= j < |rs| && j != i ensures !IsOpen(rs[j]) {
      OthersAreSettled(rs, i, j);
    }
  }

  lemma PaymentFits(c: Configuration, db: Db, i: nat, input: SettleInput)
    requires StateFits(c, db) && i < |db.requests| && IsOpen(db.requests[i]) && IsSettlement(c, input)
    requires forall j :: 0 <= j < |db.requests| && j != i ==> !IsOpen(db.requests[j])
    requires db.state == Collecting ==> db.requests == []
    ensures StateFits(c, Paid(c, db, i, input))
  {
    hide AllSucceeded, Liability;
  }

  lemma SettleKeeps(c: Configuration, db: Db, input: SettleInput)
    requires Inv(c, db)
    ensures Inv(c, Settling(c, db, input).0)
  {
    hide StateFits;
    var i := RowOf(db.requests, input.key);
    if IsSettlement(c, input) && i < |db.requests| && input.fence == i + 1 && IsOpen(db.requests[i]) {
      if db.state == Collecting {
        CollectingIsEmpty(c, db);
      }
      SettlingFits(c, db.requests, i, input);
      PaymentFits(c, db, i, input);
      hide RequestsFit, Liability, AllSucceeded;
    }
  }

  lemma CollectingIsEmpty(c: Configuration, db: Db)
    requires Inv(c, db) && db.state == Collecting
    ensures db.requests == [] && |db.trajectories| < BATCH
  {
  }
}
