/** Waiting for a setup session: polls that stop short of their deadline, in two phases
    (packages/cli/src/codexSetupSessionHandoff.ts:71-173).

    The clock never goes back and a timer never fires early; apart from that, when and what each poll sees is
    arbitrary. */
module PollLoop {
  import opened Outcomes

  const RESERVE := 25
  const STEP := 1000

  /** What the vault shows: a stamp is absent when it is missing or not a canonical time. */
  datatype Observation =
    | Withdrawn
    | Shown(isAccepted: bool, acceptedAt: Option<int>, hasResult: bool, recordedAt: Option<int>)

  datatype Confirmed = Confirmed(acceptedAt: int, recordedAt: int, observedAt: int)

  function Earlier(a: int, b: int): int {
    if a < b then a else b
  }

  /** How long to wait when `remaining` is left before the deadline. */
  function Delay(remaining: int): (delay: nat)
    requires remaining > 0
    ensures delay < remaining
    ensures remaining >= 2 ==> delay > 0
  {
    if remaining > RESERVE then Earlier(STEP, remaining - RESERVE) else remaining / 2
  }

  /** The most polls that can still be made when the next one has this much left: none waits twice with nothing
      to wait for. */
  function Budget(remaining: int, immediate: bool): (polls: nat)
    ensures polls >= 1
    decreases if remaining > 0 then remaining else 0, !immediate
  {
    if remaining <= 0 then 1
    else if Delay(remaining) > 0 then 1 + Budget(remaining - Delay(remaining), immediate)
    else if immediate then 1
    else 1 + Budget(remaining, true)
  }

  lemma RestIsMonotone(less: int, more: int)
    requires 1 <= less <= more
    ensures less - Delay(less) <= more - Delay(more)
  {
  }

  lemma {:induction false} ImmediateIsFewer(remaining: int)
    ensures Budget(remaining, true) <= Budget(remaining, false)
    decreases if remaining > 0 then remaining else 0
  {
    hide Delay;
    if remaining >= 2 {
      ImmediateIsFewer(remaining - Delay(remaining));
    }
  }

  lemma {:induction false} LessLeftFewerPolls(less: int, more: int, immediate: bool)
    requires less <= more
    ensures Budget(less, immediate) <= Budget(more, immediate)
    ensures Budget(less, true) <= Budget(less, false)
    decreases if more > 0 then more else 0
  {
    ImmediateIsFewer(less);
    if more >= 2 && less < more {
      hide Delay;
      if less >= 2 {
        RestIsMonotone(less, more);
        LessLeftFewerPolls(less - Delay(less), more - Delay(more), immediate);
      } else {
        LessLeftFewerPolls(less, more - Delay(more), immediate);
      }
    }
  }

  /** One poll a second, and seven for the last second and less. */
  function Bound(remaining: int): int {
    if remaining <= RESERVE then 7 else 7 + (remaining - RESERVE + STEP - 1) / STEP
  }

  lemma {:induction false} BudgetIsBounded(remaining: int)
    ensures Budget(remaining, false) <= Bound(remaining)
    decreases if remaining > 0 then remaining else 0
  {
    if remaining > RESERVE + STEP {
      BudgetIsBounded(remaining - STEP);
    } else if remaining > RESERVE {
      SmallBudget(RESERVE);
    } else if remaining > 0 {
      SmallBudget(remaining);
    }
  }

  lemma SmallBudget(remaining: int)
    requires 0 < remaining <= RESERVE
    ensures Budget(remaining, false) <=
            (if remaining == 1 then 2 else if remaining == 2 then 3 else if remaining <= 4 then 4
             else if remaining <= 8 then 5 else if remaining <= 16 then 6 else 7)
  {
    if remaining > 1 {
      SmallBudget(remaining - remaining / 2);
    } else {
      assert Budget(1, true) == 1;
    }
  }

  /** The clock's next reading. */
  method ReadClock(floor: int) returns (t: int)
    ensures t >= floor
  {
    t := *;
    t := if t < floor then floor else t;
  }

  /** The checks on one accepted observation; `known` is the acceptance seen before. */
  predicate AcceptanceFits(seen: Observation, issuedAt: int, expiresAt: int, observedAt: int, known: Option<int>) {
    && seen.Shown? && seen.isAccepted && seen.acceptedAt.Some?
    && issuedAt <= seen.acceptedAt.value < expiresAt && seen.acceptedAt.value <= observedAt
    && (known.Some? ==> known == seen.acceptedAt)
  }

  predicate ResultFits(seen: Observation, expiresAt: int, observedAt: int)
    requires seen.Shown? && seen.acceptedAt.Some?
  {
    && seen.recordedAt.Some?
    && seen.acceptedAt.value <= seen.recordedAt.value < expiresAt && seen.recordedAt.value <= observedAt
  }

  /** The phase a wait is in: what has been accepted, if anything, and until when it waits. */
  datatype Phase = Phase(acceptedAt: Option<int>, deadline: int)

  ghost predicate PhaseFits(p: Phase, issuedAt: int, limit: int, expiresAt: int, acceptedWaitMs: nat) {
    match p.acceptedAt
    case None => p.deadline == limit
    case Some(at) => issuedAt <= at <= limit && p.deadline == Earlier(at + acceptedWaitMs, expiresAt)
  }

  ghost predicate ConfirmedFits(c: Confirmed, issuedAt: int, limit: int, expiresAt: int, acceptedWaitMs: nat) {
    && issuedAt <= c.acceptedAt <= limit
    && c.acceptedAt <= c.recordedAt <= c.observedAt
    && c.observedAt < Earlier(c.acceptedAt + acceptedWaitMs, expiresAt)
  }

  function Unconfirmed(sawAccepted: bool): string {
    if sawAccepted then "setup_session_accepted_unconfirmed" else "setup_session_receiver_timeout"
  }

  datatype Verdict = Broken | TimedOut | Done(confirmed: Confirmed) | KeepWaiting(phase: Phase)

  // ---------------------------------------------------------------- what an observation means

  /** The request is gone, or shows an acceptance that cannot be: withdrawn, in the future, before it was issued, not
      the one seen before; or shows stamps without an acceptance. */
  ghost predicate AcceptanceContradicts(seen: Observation, phase: Phase, issuedAt: int, expiresAt: int, at: int) {
    match seen
    case Withdrawn => true
    case Shown(true, acceptedAt, _, _) =>
      && at < expiresAt
      && !(acceptedAt.Some? && issuedAt <= acceptedAt.value <= at && phase.acceptedAt in {None, acceptedAt})
    case Shown(false, acceptedAt, hasResult, recordedAt) =>
      phase.acceptedAt.Some? || (at < expiresAt && (acceptedAt.Some? || hasResult || recordedAt.Some?))
  }

  /** A result without a time, recorded before the acceptance or in the future; or a time without a result. */
  ghost predicate ResultContradicts(seen: Observation, at: int)
    requires seen.Shown?
  {
    if seen.hasResult then
      !(seen.recordedAt.Some? && seen.acceptedAt.Some? && seen.acceptedAt.value <= seen.recordedAt.value <= at)
    else seen.recordedAt.Some?
  }

  /** The first acceptance, made or seen too late. */
  ghost predicate ComesLate(seen: Observation, phase: Phase, limit: int, at: int) {
    && phase.acceptedAt.None? && seen.Shown? && seen.isAccepted
    && (at >= limit || (seen.acceptedAt.Some? && seen.acceptedAt.value > limit))
  }

  /** An acceptance starts the second phase: its deadline counts from the acceptance, however late it is seen. */
  ghost function PhaseAfter(seen: Observation, phase: Phase, expiresAt: int, acceptedWaitMs: nat): Phase {
    if phase.acceptedAt.None? && seen.Shown? && seen.isAccepted && seen.acceptedAt.Some? then
      var allowed := seen.acceptedAt.value + acceptedWaitMs;
      Phase(seen.acceptedAt, if allowed <= expiresAt then allowed else expiresAt)
    else phase
  }

  ghost predicate IsVerdict(v: Verdict, seen: Observation, phase: Phase, issuedAt: int, limit: int, expiresAt: int,
                            acceptedWaitMs: nat, at: int)
  {
    var next := PhaseAfter(seen, phase, expiresAt, acceptedWaitMs);
    if AcceptanceContradicts(seen, phase, issuedAt, expiresAt, at) then v == Broken
    else if at >= expiresAt || ComesLate(seen, phase, limit, at) then v == TimedOut
    else if ResultContradicts(seen, at) then v == Broken
    else if at >= next.deadline then v == TimedOut
    else if seen.recordedAt.Some? && seen.recordedAt.value <= next.deadline then
      v == Done(Confirmed(seen.acceptedAt.value, seen.recordedAt.value, at))
    else v == KeepWaiting(next)
  }

  /** What one observation means. */
  method Judge(seen: Observation, phase: Phase, issuedAt: int, limit: int, expiresAt: int, acceptedWaitMs: nat,
               observedAt: int)
    returns (v: Verdict)
    requires PhaseFits(phase, issuedAt, limit, expiresAt, acceptedWaitMs)
    ensures IsVerdict(v, seen, phase, issuedAt, limit, expiresAt, acceptedWaitMs, observedAt)
    ensures v.Done? ==>
      && v.confirmed.observedAt == observedAt
      && ConfirmedFits(v.confirmed, issuedAt, limit, expiresAt, acceptedWaitMs)
    ensures v.KeepWaiting? ==>
      && PhaseFits(v.phase, issuedAt, limit, expiresAt, acceptedWaitMs) && observedAt < v.phase.deadline
      && (phase.acceptedAt.Some? ==> v.phase == phase)
      && (v.phase.acceptedAt.Some? ==> v.phase.acceptedAt.value <= observedAt)
  {
    if !seen.Shown? || (phase.acceptedAt.Some? && !seen.isAccepted) {
      return Broken;
    }
    if observedAt >= expiresAt {
      return TimedOut;
    }
    var next := phase;
    if seen.isAccepted {
      if !AcceptanceFits(seen, issuedAt, expiresAt, observedAt, phase.acceptedAt) {
        return Broken;
      }
      var at := seen.acceptedAt.value;
      if phase.acceptedAt.None? {
        if at > limit || observedAt >= limit {
          return TimedOut;
        }
        next := Phase(Some(at), Earlier(at + acceptedWaitMs, expiresAt));
      }
      if seen.hasResult {
        if !ResultFits(seen, expiresAt, observedAt) {
          return Broken;
        }
        if seen.recordedAt.value <= next.deadline && observedAt < next.deadline {
          return Done(Confirmed(at, seen.recordedAt.value, observedAt));
        }
      } else if seen.recordedAt.Some? {
        return Broken;
      }
    } else if seen.acceptedAt.Some? || seen.hasResult || seen.recordedAt.Some? {
      return Broken;
    }
    return if observedAt >= next.deadline then TimedOut else KeepWaiting(next);
  }

  // ---------------------------------------------------------------- whole waits

  /** One poll: what was seen, when, in which phase, what it meant, and how long the program then waited. */
  datatype Poll = Poll(seen: Observation, at: int, phase: Phase, verdict: Verdict, delay: nat)

  /** A second, or what leaves a little to read in, or half of what is left. */
  ghost predicate IsDelay(delay: nat, remaining: int) {
    if remaining >= 1025 then delay == 1000
    else if remaining > 25 then delay == remaining - 25
    else 2 * delay <= remaining <= 2 * delay + 1
  }

  /** The poll `p` waits, to before its deadline, and `q` is made in the phase it left. */
  ghost predicate Follows(p: Poll, q: Poll) {
    && p.verdict == KeepWaiting(q.phase)
    && IsDelay(p.delay, q.phase.deadline - p.at) && p.at + p.delay < q.phase.deadline
    && p.at + p.delay <= q.at
  }

  ghost predicate IsFollowed(polls: seq<Poll>, i: int)
    requires 0 <= i < |polls| - 1
  {
    Follows(polls[i], polls[i + 1])
  }

  ghost predicate IsJudged(p: Poll, issuedAt: int, limit: int, expiresAt: int, acceptedWaitMs: nat) {
    IsVerdict(p.verdict, p.seen, p.phase, issuedAt, limit, expiresAt, acceptedWaitMs, p.at)
  }

  /** A row of polls, the first with nothing accepted, each judged, and each but the last followed by the next. */
  ghost predicate IsWait(polls: seq<Poll>, issuedAt: int, limit: int, expiresAt: int, acceptedWaitMs: nat) {
    && (polls != [] ==> polls[0].phase == Phase(None, limit))
    && (forall i :: 0 <= i < |polls| ==> IsJudged(polls[i], issuedAt, limit, expiresAt, acceptedWaitMs))
    && (forall i :: 0 <= i < |polls| - 1 ==> IsFollowed(polls, i))
  }

  /** Polls made with nothing accepted, and polls that saw the request accepted. */
  ghost function Pending(polls: seq<Poll>): nat {
    if polls == [] then 0 else
      Pending(polls[..|polls| - 1]) + if polls[|polls| - 1].phase.acceptedAt.None? then 1 else 0
  }

  ghost function AfterAcceptance(polls: seq<Poll>): nat {
    if polls == [] then 0 else
      var last := polls[|polls| - 1];
      AfterAcceptance(polls[..|polls| - 1])
      + if last.phase.acceptedAt.Some? || (last.verdict.KeepWaiting? && last.verdict.phase.acceptedAt.Some?) then 1
        else 0
  }

  ghost predicate SawAccepted(polls: seq<Poll>, expiresAt: int) {
    exists i :: 0 <= i < |polls| && polls[i].seen.Shown? && polls[i].seen.isAccepted && polls[i].at < expiresAt
  }

  /** The answer to a row of polls: the last verdict's, and if that is none, whether an acceptance was ever seen. */
  ghost predicate IsAnswer(r: Result<Confirmed>, polls: seq<Poll>, expiresAt: int) {
    if polls != [] && polls[|polls| - 1].verdict.Done? then r == Success(polls[|polls| - 1].verdict.confirmed)
    else if polls != [] && polls[|polls| - 1].verdict.Broken? then r == Failure("setup_session_scope_changed")
    else if SawAccepted(polls, expiresAt) then r == Failure("setup_session_accepted_unconfirmed")
    else r == Failure("setup_session_receiver_timeout")
  }

  /** It ends on a verdict, or with the clock at the expiry, or having polled twice with nothing left to wait for. */
  ghost predicate IsOver(polls: seq<Poll>, clock: int, expiresAt: int) {
    || clock >= expiresAt
    || (polls != [] && !polls[|polls| - 1].verdict.KeepWaiting?)
    || (polls != [] && polls[|polls| - 1].delay == 0
        && exists i :: 0 <= i < |polls| - 1 && polls[i].delay == 0)
  }

  /** Polls so far and polls still possible, in the phase it is in. */
  ghost predicate PollsFit(phase: Phase, floor: int, immediate: bool, pendingPolls: nat, acceptedPolls: nat,
                           waitMs: nat, acceptedWaitMs: nat) {
    var left := Budget(phase.deadline - floor, immediate);
    if phase.acceptedAt.None? then acceptedPolls == 0 && pendingPolls + left <= Bound(waitMs)
    else pendingPolls <= Bound(waitMs) && acceptedPolls + left <= Bound(acceptedWaitMs)
  }

  ghost function Left(phase: Phase, floor: int, immediate: bool): nat {
    Budget(phase.deadline - floor, immediate)
  }

  /** A poll that waits on leaves one poll fewer, or starts the second phase. */
  lemma PollSpendsBudget(phase: Phase, floor: int, immediate: bool, pendingPolls: nat, acceptedPolls: nat, waitMs: nat,
                         acceptedWaitMs: nat, observedAt: int, next: Phase, delay: nat, floorNext: int)
    requires PollsFit(phase, floor, immediate, pendingPolls, acceptedPolls, waitMs, acceptedWaitMs)
    requires floor <= observedAt < next.deadline && delay == Delay(next.deadline - observedAt)
    requires phase.acceptedAt.Some? || next.acceptedAt.None? ==> next == phase
    requires next.acceptedAt.Some? ==> next.deadline - observedAt <= acceptedWaitMs
    requires floorNext >= observedAt + delay
    ensures
      var turned := next != phase;
      var was := immediate && !turned;
      delay > 0 || !was ==>
        && PollsFit(next, floorNext, was || delay == 0,
                    if phase.acceptedAt.None? then pendingPolls + 1 else pendingPolls,
                    if next.acceptedAt.Some? then acceptedPolls + 1 else 0, waitMs, acceptedWaitMs)
        && (!turned ==> Left(next, floorNext, was || delay == 0) < Left(phase, floor, immediate))
  {
    hide Bound, Delay;
    var was := immediate && next == phase;
    LessLeftFewerPolls(phase.deadline - observedAt, phase.deadline - floor, immediate);
    LessLeftFewerPolls(next.deadline - floorNext, next.deadline - observedAt - delay, was || delay == 0);
    if next != phase {
      LessLeftFewerPolls(next.deadline - observedAt, acceptedWaitMs, false);
      BudgetIsBounded(acceptedWaitMs);
    }
  }

  /** One poll more than none is always within the bound. */
  lemma LastPollFits(phase: Phase, floor: int, immediate: bool, pendingPolls: nat, acceptedPolls: nat, waitMs: nat,
                     acceptedWaitMs: nat)
    requires PollsFit(phase, floor, immediate, pendingPolls, acceptedPolls, waitMs, acceptedWaitMs)
    ensures phase.acceptedAt.None? ==> pendingPolls + 1 <= Bound(waitMs) && acceptedPolls + 1 <= Bound(acceptedWaitMs)
    ensures phase.acceptedAt.Some? ==> pendingPolls <= Bound(waitMs) && acceptedPolls + 1 <= Bound(acceptedWaitMs)
  {
  }

  lemma PollAdded(polls: seq<Poll>, p: Poll, issuedAt: int, limit: int, expiresAt: int, acceptedWaitMs: nat)
    requires IsWait(polls, issuedAt, limit, expiresAt, acceptedWaitMs)
    requires IsJudged(p, issuedAt, limit, expiresAt, acceptedWaitMs)
    requires if polls == [] then p.phase == Phase(None, limit) else Follows(polls[|polls| - 1], p)
    ensures IsWait(polls + [p], issuedAt, limit, expiresAt, acceptedWaitMs)
    ensures Pending(polls + [p]) == Pending(polls) + if p.phase.acceptedAt.None? then 1 else 0
    ensures AfterAcceptance(polls + [p]) ==
            AfterAcceptance(polls)
            + if p.phase.acceptedAt.Some? || (p.verdict.KeepWaiting? && p.verdict.phase.acceptedAt.Some?) then 1 else 0
    ensures SawAccepted(polls + [p], expiresAt) <==>
            SawAccepted(polls, expiresAt) || (p.seen.Shown? && p.seen.isAccepted && p.at < expiresAt)
  {
    hide IsJudged, Follows;
    var more := polls + [p];
    assert more[..|more| - 1] == polls;
    forall i | 0 <= i < |more| - 1 ensures IsFollowed(more, i) {
      if i < |polls| - 1 {
        assert IsFollowed(polls, i);
      }
    }
    if SawAccepted(polls, expiresAt) {
      var i :| 0 <= i < |polls| && polls[i].seen.Shown? && polls[i].seen.isAccepted && polls[i].at < expiresAt;
      assert more[i] == polls[i];
    }
    if p.seen.Shown? && p.seen.isAccepted && p.at < expiresAt {
      assert more[|polls|] == p;
    }
  }

  lemma DelayIs(remaining: int)
    requires remaining > 0
    ensures IsDelay(Delay(remaining), remaining)
  {
  }

  /** Between two polls: what has been polled so far, and the phase, clock and flags that go on from it. */
  ghost predicate Ongoing(polls: seq<Poll>, phase: Phase, floor: int, immediate: bool, sawAccepted: bool, start: int,
                          issuedAt: int, limit: int, expiresAt: int, acceptedWaitMs: nat)
  {
    && IsWait(polls, issuedAt, limit, expiresAt, acceptedWaitMs) && start <= floor
    && (if polls == [] then phase == Phase(None, limit)
        else
          var last := polls[|polls| - 1];
          && start <= polls[0].at
          && last.verdict == KeepWaiting(phase) && IsDelay(last.delay, phase.deadline - last.at)
          && last.at + last.delay < phase.deadline && last.at + last.delay <= floor)
    && (immediate ==> exists i :: 0 <= i < |polls| && polls[i].delay == 0)
    && (sawAccepted <==> SawAccepted(polls, expiresAt))
  }

  lemma NoPolls(limit: int, floor: int, start: int, issuedAt: int, expiresAt: int, acceptedWaitMs: nat)
    requires start <= floor
    ensures Ongoing([], Phase(None, limit), floor, false, false, start, issuedAt, limit, expiresAt, acceptedWaitMs)
    ensures Pending([]) == AfterAcceptance([]) == 0
  {
  }

  /** One more poll in this phase. */
  lemma PollMade(polls: seq<Poll>, p: Poll, floor: int, immediate: bool, sawAccepted: bool, start: int, issuedAt: int,
                 limit: int, expiresAt: int, acceptedWaitMs: nat)
    requires Ongoing(polls, p.phase, floor, immediate, sawAccepted, start, issuedAt, limit, expiresAt, acceptedWaitMs)
    requires IsJudged(p, issuedAt, limit, expiresAt, acceptedWaitMs) && floor <= p.at
    ensures IsWait(polls + [p], issuedAt, limit, expiresAt, acceptedWaitMs) && start <= (polls + [p])[0].at
    ensures Pending(polls + [p]) == Pending(polls) + if p.phase.acceptedAt.None? then 1 else 0
    ensures AfterAcceptance(polls + [p]) ==
            AfterAcceptance(polls)
            + if p.phase.acceptedAt.Some? || (p.verdict.KeepWaiting? && p.verdict.phase.acceptedAt.Some?) then 1 else 0
    ensures SawAccepted(polls + [p], expiresAt) <==>
            sawAccepted || (p.seen.Shown? && p.seen.isAccepted && p.at < expiresAt)
    ensures immediate && p.delay == 0 && p.verdict.KeepWaiting? ==> IsOver(polls + [p], p.at, expiresAt)
  {
    hide IsJudged, IsWait, SawAccepted, Pending, AfterAcceptance, IsDelay;
    PollAdded(polls, p, issuedAt, limit, expiresAt, acceptedWaitMs);
    var more := polls + [p];
    if immediate {
      var i :| 0 <= i < |polls| && polls[i].delay == 0;
      assert more[i].delay == 0;
    }
  }

  lemma PollGoesOn(polls: seq<Poll>, p: Poll, floor: int, immediate: bool, sawAccepted: bool, start: int,
                   issuedAt: int, limit: int, expiresAt: int, acceptedWaitMs: nat, resumed: int, next: Phase)
    requires Ongoing(polls, p.phase, floor, immediate, sawAccepted, start, issuedAt, limit, expiresAt, acceptedWaitMs)
    requires IsJudged(p, issuedAt, limit, expiresAt, acceptedWaitMs) && floor <= p.at
    requires p.verdict == KeepWaiting(next) && p.at < next.deadline
    requires p.delay == Delay(next.deadline - p.at) && p.at + p.delay <= resumed
    ensures Ongoing(polls + [p], next, resumed, (immediate && next == p.phase) || p.delay == 0,
                    sawAccepted || (p.seen.Shown? && p.seen.isAccepted && p.at < expiresAt), start, issuedAt, limit,
                    expiresAt, acceptedWaitMs)
  {
    hide IsJudged, IsWait, SawAccepted, Pending, AfterAcceptance, IsDelay, Delay;
    PollMade(polls, p, floor, immediate, sawAccepted, start, issuedAt, limit, expiresAt, acceptedWaitMs);
    DelayIs(next.deadline - p.at);
    var more := polls + [p];
    assert more[|more| - 1] == p;
    if immediate {
      var i :| 0 <= i < |polls| && polls[i].delay == 0;
      assert more[i].delay == 0;
    }
  }

  /** A poll that waits keeps the budget, and leaves less of it or starts the second phase. */
  lemma TurnGoesOn(polls: seq<Poll>, p: Poll, floor: int, immediate: bool, sawAccepted: bool, start: int,
                   issuedAt: int, limit: int, expiresAt: int, waitMs: nat, acceptedWaitMs: nat, resumed: int,
                   next: Phase)
    requires Ongoing(polls, p.phase, floor, immediate, sawAccepted, start, issuedAt, limit, expiresAt, acceptedWaitMs)
    requires PollsFit(p.phase, floor, immediate, Pending(polls), AfterAcceptance(polls), waitMs, acceptedWaitMs)
    requires IsJudged(p, issuedAt, limit, expiresAt, acceptedWaitMs) && floor <= p.at
    requires PhaseFits(p.phase, issuedAt, limit, expiresAt, acceptedWaitMs)
    requires PhaseFits(next, issuedAt, limit, expiresAt, acceptedWaitMs)
    requires p.verdict == KeepWaiting(next) && p.at < next.deadline
    requires p.phase.acceptedAt.Some? ==> next == p.phase
    requires next.acceptedAt.Some? ==> next.acceptedAt.value <= p.at
    requires p.delay == Delay(next.deadline - p.at) && p.at + p.delay <= resumed
    requires p.delay > 0 || !(immediate && next == p.phase)
    ensures var again := (immediate && next == p.phase) || p.delay == 0;
            && Ongoing(polls + [p], next, resumed, again,
                       sawAccepted || (p.seen.Shown? && p.seen.isAccepted && p.at < expiresAt), start, issuedAt, limit,
                       expiresAt, acceptedWaitMs)
            && PollsFit(next, resumed, again, Pending(polls + [p]), AfterAcceptance(polls + [p]), waitMs,
                        acceptedWaitMs)
            && (next == p.phase ==> Left(next, resumed, again) < Left(p.phase, floor, immediate))
            && (next != p.phase ==> p.phase.acceptedAt.None? && next.acceptedAt.Some?)
  {
    hide Budget, Bound, Delay, IsVerdict, IsWait, Pending, AfterAcceptance, SawAccepted, IsJudged;
    PollMade(polls, p, floor, immediate, sawAccepted, start, issuedAt, limit, expiresAt, acceptedWaitMs);
    PollGoesOn(polls, p, floor, immediate, sawAccepted, start, issuedAt, limit, expiresAt, acceptedWaitMs, resumed,
               next);
    hide Ongoing;
    PollSpendsBudget(p.phase, floor, immediate, Pending(polls), AfterAcceptance(polls), waitMs, acceptedWaitMs, p.at,
                     next, p.delay, resumed);
  }

  function Answer(v: Verdict, sawAccepted: bool): Result<Confirmed> {
    match v
    case Done(c) => Success(c)
    case Broken => Failure("setup_session_scope_changed")
    case _ => Failure(Unconfirmed(sawAccepted))
  }

  lemma AnswerOnVerdict(polls: seq<Poll>, p: Poll, saw: bool, expiresAt: int)
    requires SawAccepted(polls + [p], expiresAt) <==> saw
    ensures IsAnswer(Answer(p.verdict, saw), polls + [p], expiresAt)
    ensures !p.verdict.KeepWaiting? ==> IsOver(polls + [p], p.at, expiresAt)
  {
  }

  /** Everything the wait promises of its polls. */
  ghost predicate Waited(polls: seq<Poll>, start: int, clock: int, issuedAt: int, limit: int, expiresAt: int,
                         waitMs: nat, acceptedWaitMs: nat)
  {
    && IsWait(polls, issuedAt, limit, expiresAt, acceptedWaitMs) && (polls != [] ==> start <= polls[0].at)
    && IsOver(polls, clock, expiresAt)
    && Pending(polls) <= Bound(waitMs) && AfterAcceptance(polls) <= Bound(acceptedWaitMs)
  }

  /** A poll that ends the wait. */
  lemma TurnEnds(polls: seq<Poll>, p: Poll, floor: int, immediate: bool, sawAccepted: bool, start: int, issuedAt: int,
                 limit: int, expiresAt: int, waitMs: nat, acceptedWaitMs: nat)
    requires Ongoing(polls, p.phase, floor, immediate, sawAccepted, start, issuedAt, limit, expiresAt, acceptedWaitMs)
    requires PollsFit(p.phase, floor, immediate, Pending(polls), AfterAcceptance(polls), waitMs, acceptedWaitMs)
    requires IsJudged(p, issuedAt, limit, expiresAt, acceptedWaitMs) && floor <= p.at
    requires p.verdict.KeepWaiting? ==> immediate && p.delay == 0
    ensures Waited(polls + [p], start, p.at, issuedAt, limit, expiresAt, waitMs, acceptedWaitMs)
    ensures var saw := sawAccepted || (p.seen.Shown? && p.seen.isAccepted && p.at < expiresAt);
            IsAnswer(Answer(p.verdict, saw), polls + [p], expiresAt)
  {
    hide Ongoing, Budget, Bound, IsVerdict, IsWait, Pending, AfterAcceptance, SawAccepted, IsJudged, PollsFit;
    PollMade(polls, p, floor, immediate, sawAccepted, start, issuedAt, limit, expiresAt, acceptedWaitMs);
    LastPollFits(p.phase, floor, immediate, Pending(polls), AfterAcceptance(polls), waitMs, acceptedWaitMs);
    AnswerOnVerdict(polls, p, sawAccepted || (p.seen.Shown? && p.seen.isAccepted && p.at < expiresAt), expiresAt);
  }

  method Await(issuedAt: int, expiresAt: int, waitMs: nat, acceptedWaitMs: nat)
    returns (r: Result<Confirmed>, ghost start: int, ghost polls: seq<Poll>, ghost clock: int)
    requires 1 <= waitMs <= 30000 && 1 <= acceptedWaitMs <= 120000
    // The answer is that of a row of polls, each judged on its own and each but the last waiting for the next.
    ensures var limit := if start + waitMs <= expiresAt then start + waitMs else expiresAt;
            && Waited(polls, start, clock, issuedAt, limit, expiresAt, waitMs, acceptedWaitMs)
            && (r.Success? ==> ConfirmedFits(r.value, issuedAt, limit, expiresAt, acceptedWaitMs))
    ensures IsAnswer(r, polls, expiresAt)
    ensures r.Success? ==>
      && issuedAt <= r.value.acceptedAt <= r.value.recordedAt <= r.value.observedAt
      && r.value.observedAt < Earlier(r.value.acceptedAt + acceptedWaitMs, expiresAt)
  {
    var started := ReadClock(0);
    var pendingDeadline := Earlier(started + waitMs, expiresAt);
    var phase, immediate := Phase(None, pendingDeadline), false;
    start, polls := started, [];
    var floor := ReadClock(started);
    clock := floor;
    var sawAccepted := false;
    BudgetIsBounded(waitMs);
    LessLeftFewerPolls(pendingDeadline - floor, waitMs, false);
    NoPolls(pendingDeadline, floor, started, issuedAt, expiresAt, acceptedWaitMs);
    hide Budget, Bound, Delay, Left, IsVerdict, IsWait, Pending, AfterAcceptance, SawAccepted, Ongoing, IsAnswer,
      IsOver, Unconfirmed, IsDelay, Waited;
    while floor < expiresAt
      invariant clock == floor && start == started
      invariant Ongoing(polls, phase, floor, immediate, sawAccepted, start, issuedAt, pendingDeadline, expiresAt,
                        acceptedWaitMs)
      invariant PhaseFits(phase, issuedAt, pendingDeadline, expiresAt, acceptedWaitMs)
      invariant PollsFit(phase, floor, immediate, Pending(polls), AfterAcceptance(polls), waitMs, acceptedWaitMs)
      decreases phase.acceptedAt.None?, Left(phase, floor, immediate)
    {
      hide PollsFit, PhaseFits;
      var seen: Observation := *;
      var observedAt := ReadClock(floor);
      var v := Judge(seen, phase, issuedAt, pendingDeadline, expiresAt, acceptedWaitMs, observedAt);
      var saw := sawAccepted || (seen.Shown? && seen.isAccepted && observedAt < expiresAt);
      var delay := if v.KeepWaiting? then Delay(v.phase.deadline - observedAt) else 0;
      ghost var poll := Poll(seen, observedAt, phase, v, delay);
      if !v.KeepWaiting? || (delay == 0 && immediate && v.phase == phase) {
        TurnEnds(polls, poll, floor, immediate, sawAccepted, start, issuedAt, pendingDeadline, expiresAt, waitMs,
                 acceptedWaitMs);
        return Answer(v, saw), start, polls + [poll], observedAt;
      }
      var next := v.phase;
      var resumed := ReadClock(observedAt + delay);
      TurnGoesOn(polls, poll, floor, immediate, sawAccepted, start, issuedAt, pendingDeadline, expiresAt, waitMs,
                 acceptedWaitMs, resumed, next);
      immediate := (immediate && next == phase) || delay == 0;
      polls := polls + [poll];
      phase, floor, sawAccepted, clock := next, resumed, saw, resumed;
    }
    AnswerAtExpiry(polls, phase, floor, immediate, sawAccepted, start, issuedAt, pendingDeadline, expiresAt, waitMs,
                   acceptedWaitMs);
    r := Failure(Unconfirmed(sawAccepted));
  }

  lemma AnswerAtExpiry(polls: seq<Poll>, phase: Phase, floor: int, immediate: bool, sawAccepted: bool, start: int,
                       issuedAt: int, limit: int, expiresAt: int, waitMs: nat, acceptedWaitMs: nat)
    requires Ongoing(polls, phase, floor, immediate, sawAccepted, start, issuedAt, limit, expiresAt, acceptedWaitMs)
    requires PollsFit(phase, floor, immediate, Pending(polls), AfterAcceptance(polls), waitMs, acceptedWaitMs)
    requires floor >= expiresAt
    ensures Waited(polls, start, floor, issuedAt, limit, expiresAt, waitMs, acceptedWaitMs)
    ensures IsAnswer(Failure(Unconfirmed(sawAccepted)), polls, expiresAt)
  {
    LastPollFits(phase, floor, immediate, Pending(polls), AfterAcceptance(polls), waitMs, acceptedWaitMs);
    hide IsWait, Pending, AfterAcceptance, SawAccepted, PollsFit;
  }
}
