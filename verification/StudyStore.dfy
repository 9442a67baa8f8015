/** The ledger object: the four tables, updated in place inside one transaction a call
    (packages/cli/src/finiteLearningStudy.ts:43-200). `StudyLedger` says what each call makes of them, and
    `StudyRuns` what follows for every run. */
module StudyStore {
  import opened CohortOrder
  import opened Outcomes
  import opened StudyLedger
  import opened StudyRuns
  import opened StudyDecisions

  class Ledger {
    const c: Configuration
    var state: State
    var reason: string
    var lastObserved: int
    var window: Option<string>
    var trajectories: seq<Record>
    var backlog: seq<Record>
    var requests: seq<Request>

    constructor (c: Configuration)
      ensures this.c == c && Tables() == Initial() && Inv(c, Tables())
    {
      this.c := c;
      state, reason, lastObserved, window := Collecting, "", 0, None;
      trajectories, backlog, requests := [], [], [];
    }

    function Tables(): Db
      reads this
    {
      Db(state, reason, lastObserved, window, trajectories, backlog, requests)
    }

    method Guard(now: Option<int>) returns (denied: Option<Decision>)
      modifies this
      ensures (Tables(), denied) == Guarded(c, old(Tables()), now)
      ensures denied.None? <==> IsLive(old(Tables())) && InTime(c, old(Tables()), now)
      ensures denied.None? ==> now.Some? && old(lastObserved) <= now.value < c.expiresAt
      ensures denied.Some? ==> !IsLive(Tables())
    {
      if now.None? || now.value < lastObserved {
        SetBlocked("clock_regressed");
        return Some(No("clock_regressed"));
      }
      lastObserved := now.value;
      if now.value >= c.expiresAt {
        state, reason := Stopped, "expired";
        return Some(No("expired"));
      }
      return if state == Collecting || state == Ready then None else Some(No(CodeOf(state)));
    }

    method SetBlocked(why: string)
      modifies this
      ensures Tables() == Block(old(Tables()), why)
    {
      state, reason := Blocked, why;
    }

    /** The clock is read twice: once for the guard, once for the record's own time. */
    method RecordCompleted(input: RecordInput, now: Option<int>, later: Option<int>) returns (d: Decision)
      requires Inv(c, Tables())
      modifies this
      ensures (Tables(), d) == Recorded(c, old(Tables()), input, now, later) && Inv(c, Tables())
    {
      RecordKeeps(c, Tables(), input, now, later);
      hide Inv, Cohort;
      if input.identity != c.identity {
        return No("identity_mismatch");
      }
      if input.state != "completed" || !input.admissible {
        return No("not_eligible");
      }
      if !c.isId(input.id) || !c.isHash(input.receipt) || input.endedAt.None? {
        return No("invalid_trajectory");
      }
      var denied := Guard(now);
      if denied.Some? {
        return denied.value;
      }
      var row := RowFor(input);
      if later.Some? && row.endedAt > later.value {
        return No("future_trajectory");
      }
      var prior := Find(trajectories + backlog, row.id);
      if prior.Some? {
        if prior.value != row {
          SetBlocked("trajectory_conflict");
          return No("trajectory_conflict");
        }
        return Yes("duplicate");
      }
      if window.Some? {
        if |backlog| >= BACKLOG {
          return No("backlog_capacity");
        }
        backlog := backlog + [row];
        return No("window_full").(retained := true);
      }
      trajectories := trajectories + [row];
      if |trajectories| == BATCH {
        window, state := Some(c.digest(Cohort(trajectories))), Ready;
        return Yes("window_sealed");
      }
      return Yes("recorded");
    }

    method Reserve(input: ReserveInput, now: Option<int>) returns (d: Decision)
      requires Inv(c, Tables())
      modifies this
      ensures (Tables(), d) == Reserving(c, old(Tables()), input, now) && Inv(c, Tables())
      // The request may be executed exactly when it is valid, in time and within every limit; then it is on record.
      ensures d.execute <==>
        && ValidRequest(c, input) && IsLive(old(Tables())) && InTime(c, old(Tables()), now)
        && HasRoom(c, old(Tables()), input)
      ensures d.execute ==> now.Some? && old(lastObserved) <= now.value < c.expiresAt
      ensures requests == old(requests) + if d.execute then [Request(input, Reserved, None, None)] else []
    {
      ReserveKeeps(c, Tables(), input, now);
      GrantExactly(c, Tables(), input, now);
      hide ValidRequest, IsLive, InTime, HasRoom;
      hide Inv, Liability, InFlight;
      if !IsRequest(c, input) {
        return No("invalid_request");
      }
      var row := RowOf(requests, input.key);
      if row < |requests| {
        return if requests[row].input == input then Yes("reconciled_request").(fence := row + 1)
               else No("idempotency_conflict");
      }
      var denied := Guard(now);
      if denied.Some? {
        return denied.value;
      }
      if window.None? {
        return No("window_not_ready");
      }
      if input.windowHash != window.value {
        return No("window_mismatch");
      }
      if input.phase !in c.phaseCaps {
        return No("phase_not_admitted");
      }
      if input.maximumCents > c.phaseCaps[input.phase] {
        return No("phase_budget");
      }
      if Claimed(requests, input.phase) {
        return No("phase_already_claimed");
      }
      if InFlight(requests) > 0 {
        return No("in_flight");
      }
      if Liability(requests) + input.maximumCents > c.maximumCents {
        return No("total_budget");
      }
      requests := requests + [Request(input, Reserved, None, None)];
      return Decision(true, "reserved", true, |requests|, false);
    }

    method Settle(input: SettleInput) returns (d: Decision)
      requires Inv(c, Tables())
      modifies this
      ensures (Tables(), d) == Settling(c, old(Tables()), input) && Inv(c, Tables())
    {
      SettleKeeps(c, Tables(), input);
      hide Inv, Liability, AllSucceeded, RowOf, IsOpen, StateOf;
      if !IsSettlement(c, input) {
        return No("invalid_settlement");
      }
      var i := RowOf(requests, input.key);
      if i == |requests| {
        return No("request_missing");
      }
      if input.fence != i + 1 {
        return No("fence_mismatch");
      }
      var row := requests[i];
      if !IsOpen(row) {
        return if row.state == StateOf(input.state) && row.actual == input.actual && row.receipt == Some(input.receipt)
               then Yes("duplicate_settlement") else No("settlement_conflict");
      }
      requests := requests[i := Settled(row, input)];
      if input.state != "succeeded" || input.actual.value > row.input.maximumCents
         || Liability(requests) > c.maximumCents {
        SetBlocked(if input.state == "unknown" then "unknown_liability" else "failed_or_overrun");
      } else if AllSucceeded(c, requests) && state == Ready {
        state := Complete;
      }
      return Yes("settled");
    }

    method Stop(why: string)
      requires Inv(c, Tables())
      modifies this
      ensures Tables() == Stopping(old(Tables()), why) && Inv(c, Tables())
    {
      state, reason := Stopped, why;
    }
  }
}
