/** The cooperative question/answer session: it takes one offer at a time, hands it out for an answer once,
    and delivers the answer however often it takes
    (packages/cli/src/cooperativeInboxSession.ts, packages/cli/src/providerSessionReplyRecovery.ts).

    A crash is an effect that fails and is never followed by another; a restart is a new `Session` over the
    same `World`. */
module CooperativeSession {
  import opened Outcomes
  import opened Runs
  import opened SessionLedger

  datatype Observation = Accepted | Answered(answer: string) | Expired | NotAnswered

  datatype Outcome =
    | Idle
    | BudgetDenied(q: string)
    | HandedOff(offer: Offer, attemptId: string)
    | CheckpointPending(offer: Offer, attemptId: string)
    | OfferRecoveryRequired(q: string)
    | ReplyPending(q: string)
    | Delivered(q: string)
    | FailureReported(q: string)
    | Reconciled(q: string)
    | ReplyQuarantined(q: string)

  /** What an effect may do between two states: the record stays valid and grows, and only `granted`
      questions may have been handed out. */
  ghost predicate Keeps(before: Durable, after: Durable, granted: set<string>) {
    && Valid(after)
    && Grows(before, after)
    && forall q :: Granted(q) in after.trace && q !in granted ==> Granted(q) in before.trace
  }

  lemma KeepsNext(before: Durable, middle: Durable, after: Durable, granted: set<string>)
    requires Keeps(before, middle, granted) && Valid(after) && Grows(middle, after) && SameGrants(middle, after)
    ensures Keeps(before, after, granted)
    ensures forall e :: e in middle.trace ==> e in after.trace
  {
    hide Valid;
    GrowsCompose(before, middle, after);
  }

  lemma KeepsIsValid(before: Durable, after: Durable, granted: set<string>)
    requires Keeps(before, after, granted)
    ensures Valid(after)
  {
    hide Valid, Grows;
  }

  lemma KeepsFromStart(d: Durable, granted: set<string>)
    requires Valid(d)
    ensures Keeps(d, d, granted)
  {
  }

  lemma KeepsRemembers(before: Durable, after: Durable, granted: set<string>)
    requires Keeps(before, after, granted)
    ensures forall e :: e in before.trace ==> e in after.trace
  {
    hide Valid;
    assert after.trace[..|before.trace|] == before.trace;
  }

  /** Every delivery outcome says what is now on record about its question. */
  ghost predicate Settles(d: Durable, o: Outcome) {
    match o
    case Delivered(q) =>
      IsAcknowledged(d, q) && ReceiptSeen(q, d.replies[q].completion.answer) in d.trace
    case Reconciled(q) =>
      IsAcknowledged(d, q) && ReceiptSeen(q, d.replies[q].completion.answer) in d.trace
    case ReplyQuarantined(q) => q in d.dispositions && ExpirySeen(q) in d.trace
    case ReplyPending(q) => q in d.replies
    case HandedOff(offer, attemptId) => Holds(d, offer, Some(attemptId))
    case CheckpointPending(offer, attemptId) => Holds(d, offer, Some(attemptId))
    case OfferRecoveryRequired(q) => IsUnsettled(d, q)
    case _ => true
  }

  ghost predicate IsAcknowledged(d: Durable, q: string) {
    q in d.replies && d.replies[q].acknowledged
  }

  ghost predicate IsStagedAs(d: Durable, c: Completion) {
    c.questionId in d.replies && d.replies[c.questionId].completion == c
  }

  ghost predicate IsStaged(d: Durable, q: string, answer: string) {
    q in d.replies && d.replies[q].completion.answer == answer
  }

  /** The offer was handed out, and is the one on record; a hand-off attempt is recorded too. */
  ghost predicate Holds(d: Durable, offer: Offer, attempt: Option<string>) {
    var q := offer.questionId;
    && Granted(q) in d.trace
    && q in d.checkpoints && d.checkpoints[q].offer == offer
    && (attempt.Some? ==> q in d.handoffs && d.handoffs[q] == attempt.value)
  }

  function CompletionFor(offer: Offer, answer: string, attempt: Option<string>, now: int): Completion {
    Completion(offer.questionId, offer.taskId, answer,
               if attempt.Some? then Some(Handoff(offer, attempt.value, now)) else None)
  }

  /** The completion is of this offer and answer, and of this attempt if there is one. */
  ghost predicate IsAnswerTo(c: Completion, offer: Offer, answer: string, attempt: Option<string>) {
    && (c.questionId, c.taskId, c.answer) == (offer.questionId, offer.taskId, answer)
    && (attempt.None? <==> c.handoff.None?)
    && (c.handoff.Some? ==> c.handoff.value.offer == offer && attempt == Some(c.handoff.value.attemptId))
  }

  lemma CompletionIsLinked(d: Durable, offer: Offer, answer: string, attempt: Option<string>, now: int)
    requires Holds(d, offer, attempt)
    ensures
      var c := CompletionFor(offer, answer, attempt, now);
      && c.questionId == offer.questionId && c.answer == answer && IsAnswerTo(c, offer, answer, attempt)
      && Granted(c.questionId) in d.trace && c.questionId in d.checkpoints && LinkedTo(d.checkpoints, d.handoffs, c)
  {
  }

  lemma StagedAnswer(d: Durable, c: Completion)
    requires IsStagedAs(d, c)
    ensures IsStaged(d, c.questionId, c.answer) && Settles(d, ReplyPending(c.questionId))
  {
  }

  lemma StagedIsThere(d: Durable, c: Completion)
    requires IsStagedAs(d, c)
    ensures c.questionId in d.replies && d.replies[c.questionId].completion == c
  {
  }

  lemma HoldsOn(before: Durable, after: Durable, offer: Offer, attempt: Option<string>)
    requires Holds(before, offer, attempt) && Grows(before, after)
    ensures Holds(after, offer, attempt)
  {
    assert after.trace[..|before.trace|] == before.trace;
  }

  /** The offer is on record as it is and unsettled, or is new and every other offer is settled. */
  ghost predicate MayCheckpoint(d: Durable, offer: Offer) {
    if offer.questionId in d.checkpoints then d.checkpoints[offer.questionId] == Checkpoint(offer, None)
    else forall q :: q in d.checkpoints ==> d.checkpoints[q].settled.Some?
  }

  /** The offer is on record and unsettled, no answer is staged, and no other attempt has it. */
  ghost predicate MayHandOff(d: Durable, offer: Offer, attemptId: string) {
    var q := offer.questionId;
    && q in d.checkpoints && d.checkpoints[q] == Checkpoint(offer, None) && q !in d.replies
    && (q in d.handoffs ==> d.handoffs[q] == attemptId)
  }

  /** The answer is the one staged, not quarantined, and the offer the one on record, open or settled by it. */
  ghost predicate MayAcknowledge(d: Durable, offer: Offer, c: Completion) {
    var q := c.questionId;
    && q in d.replies && d.replies[q].completion == c && q !in d.dispositions
    && q in d.checkpoints && d.checkpoints[q].offer == offer && d.checkpoints[q].settled in {None, Some(c)}
  }

  /** The answer is the one staged and not acknowledged. */
  ghost predicate MayQuarantine(d: Durable, c: Completion) {
    c.questionId in d.replies && d.replies[c.questionId] == StagedReply(c, false)
  }

  ghost predicate AwaitsAcknowledgment(d: Durable, offer: Offer, c: Completion) {
    var q := c.questionId;
    IsPending(d, q) && d.replies[q].completion == c && q in d.checkpoints && d.checkpoints[q] == Checkpoint(offer, None)
  }

  /** The vault, the replay claims and the channel. On a healthy one every effect completes. */
  class World {
    var state: Durable
    const healthy: bool
    /** The points of the record at which a session was seen to own its binding. */
    ghost var checkedAt: set<nat>

    /** Nothing was recorded since ownership was last checked. Taking an offer, and staging or failing an answer, may
        only go on from there. */
    ghost predicate Owned()
      reads this
    {
      |state.trace| in checkedAt
    }

    constructor (state: Durable, healthy: bool)
      requires Valid(state)
      ensures this.state == state && this.healthy == healthy && checkedAt == {}
    {
      this.state := state;
      this.healthy := healthy;
      checkedAt := {};
    }

    method Fails() returns (fails: bool)
      ensures healthy ==> !fails
    {
      fails := *;
      fails := fails && !healthy;
    }

    /** An effect that only leaves a mark in the trace. */
    method Note(e: Event, ghost since: Durable, ghost granted: set<string>)
      requires Keeps(since, state, granted) && IsNote(e) && Allowed(state.trace, e) && (e.Granted? ==> e.q in granted)
      requires NeedsOwner(e) ==> Owned()
      modifies `state
      ensures Keeps(since, state, granted) && state == Log(old(state), e)
      ensures forall e :: e in old(state).trace ==> e in state.trace
      ensures e in state.trace
    {
      hide Valid, Grows, Allowed;
      NoteKeeps(state, e);
      GrowsCompose(since, state, Log(state, e));
      state := Log(state, e);
    }

    /** Whether the question's content may be handed out. */
    method Authorize(q: string, ghost since: Durable, ghost granted: set<string>) returns (r: Result<bool>)
      requires Keeps(since, state, granted)
      requires Owned()
      modifies `state
      ensures Keeps(since, state, granted)
      ensures forall e :: e in old(state).trace ==> e in state.trace
      ensures r == Success(true) ==> Authorized(q) in state.trace
      ensures state == if r == Success(true) then Log(old(state), Authorized(q)) else old(state)
      ensures healthy ==> r.Success?
    {
      var unknown := Fails();
      if unknown {
        return Failure("cooperative_session_content_denied");
      }
      var authorized: bool := *;
      if authorized {
        Note(Authorized(q), since, granted);
      }
      return Success(authorized);
    }

    method Reserve(q: string, ghost since: Durable, ghost granted: set<string>) returns (r: Result<bool>)
      requires Keeps(since, state, granted)
      requires Owned()
      modifies `state
      ensures Keeps(since, state, granted)
      ensures forall e :: e in old(state).trace ==> e in state.trace
      ensures r == Success(true) ==> Reserved(q) in state.trace
      ensures state in {old(state), Log(old(state), Reserved(q))}
      ensures r.Success? ==> state == if r.value then Log(old(state), Reserved(q)) else old(state)
      ensures healthy ==> r.Success?
    {
      var lost := Fails();
      if lost {
        return Failure("budget_unavailable");
      }
      var reserved: bool := *;
      if reserved {
        Note(Reserved(q), since, granted);
      }
      var unconfirmed := Fails();
      return if unconfirmed then Failure("budget_unavailable") else Success(reserved);
    }

    method StageCheckpoint(offer: Offer, ghost since: Durable, ghost granted: set<string>) returns (r: Result<()>)
      requires Keeps(since, state, granted)
      requires Owned()
      modifies `state
      ensures Keeps(since, state, granted)
      ensures forall e :: e in old(state).trace ==> e in state.trace
      ensures r.Success? ==>
        && Checkpointed(offer.questionId) in state.trace
        && offer.questionId in state.checkpoints && state.checkpoints[offer.questionId] == Checkpoint(offer, None)
      // An offer is put on record while no other is unsettled, or is on record already, unchanged and unsettled.
      ensures r.Success? ==> MayCheckpoint(old(state), offer) && state == WithCheckpoint(old(state), offer)
      ensures state in {old(state), WithCheckpoint(old(state), offer)}
      ensures healthy && MayCheckpoint(old(state), offer) ==> r.Success?
    {
      hide Valid, Grows;
      var q := offer.questionId;
      if q in state.checkpoints {
        if state.checkpoints[q].offer != offer {
          return Failure("provider_session_offer_conflict");
        }
        if state.checkpoints[q].settled.Some? {
          return Failure("provider_session_offer_settled");
        }
      } else if exists other :: other in state.checkpoints && Unsettled(state.checkpoints, other) {
        return Failure("provider_session_offer_busy");
      }
      var lost := Fails();
      if lost {
        return Failure("provider_session_vault_unavailable");
      }
      CheckpointKeeps(state, offer);
      KeepsNext(since, state, WithCheckpoint(state, offer), granted);
      state := WithCheckpoint(state, offer);
      var unconfirmed := Fails();
      return if unconfirmed then Failure("provider_session_vault_unavailable") else Success(());
    }

    method Accept(q: string, ghost since: Durable, ghost granted: set<string>) returns (r: Result<()>)
      requires Keeps(since, state, granted)
      requires Owned()
      modifies `state
      ensures Keeps(since, state, granted)
      ensures forall e :: e in old(state).trace ==> e in state.trace
      ensures state in {old(state), Log(old(state), AcceptConfirmed(q))}
      ensures r.Success? ==> state == Log(old(state), AcceptConfirmed(q)) && AcceptConfirmed(q) in state.trace
      ensures healthy ==> r.Success?
    {
      var lost := Fails();
      if lost {
        return Failure("provider_session_channel_uncertain");
      }
      Note(AcceptConfirmed(q), since, granted);
      return Success(());
    }

    /** The one-shot replay claim: at most one call ever answers true for a question. */
    method Consume(q: string, ghost since: Durable, ghost granted: set<string>) returns (r: Result<bool>)
      requires Keeps(since, state, granted)
      requires Owned()
      modifies `state
      ensures Keeps(since, state, granted)
      ensures forall e :: e in old(state).trace ==> e in state.trace
      ensures state in {old(state), WithClaim(old(state), q)}
      ensures r.Success? ==> r.value == (q !in old(state).claims)
      ensures r.Success? ==> state == if r.value then WithClaim(old(state), q) else old(state)
      ensures healthy ==> r.Success?
      ensures r == Success(true) ==> q !in old(state).claims && Consumed(q) in state.trace && Granted(q) !in state.trace
    {
      hide Valid, Grows;
      var lost := Fails();
      if lost {
        return Failure("claim_unavailable");
      }
      if q in state.claims {
        return Success(false);
      }
      ClaimKeeps(state, q);
      KeepsNext(since, state, WithClaim(state, q), granted);
      state := WithClaim(state, q);
      var unconfirmed := Fails();
      return if unconfirmed then Failure("claim_unavailable") else Success(true);
    }

    method RecordHandoff(offer: Offer, attemptId: string, ghost since: Durable, ghost granted: set<string>)
      returns (r: Result<()>)
      requires Keeps(since, state, granted)
      requires Owned()
      modifies `state
      ensures Keeps(since, state, granted)
      ensures state in {old(state), WithHandoff(old(state), offer.questionId, attemptId)}
      ensures r.Success? ==>
        MayHandOff(old(state), offer, attemptId) && state == WithHandoff(old(state), offer.questionId, attemptId)
      ensures r.Success? ==> offer.questionId in state.handoffs && state.handoffs[offer.questionId] == attemptId
      ensures healthy && MayHandOff(old(state), offer, attemptId) ==> r.Success?
    {
      hide Valid, Grows;
      var q := offer.questionId;
      if q !in state.checkpoints || state.checkpoints[q] != Checkpoint(offer, None) || q in state.replies {
        return Failure("provider_session_handoff_conflict");
      }
      var lost := Fails();
      if lost {
        return Failure("provider_session_vault_unavailable");
      }
      HandoffKeeps(state, q, attemptId);
      KeepsNext(since, state, WithHandoff(state, q, attemptId), granted);
      state := WithHandoff(state, q, attemptId);
      var unconfirmed := Fails();
      if unconfirmed || state.handoffs[q] != attemptId {
        return Failure("provider_session_handoff_conflict");
      }
      return Success(());
    }

    /** Whatever is staged for a question first stays: a different answer is a conflict. */
    method StageReply(c: Completion, ghost since: Durable, ghost granted: set<string>) returns (r: Result<()>)
      requires Keeps(since, state, granted)
      requires Owned()
      requires Granted(c.questionId) in state.trace && c.questionId in state.checkpoints
      requires LinkedTo(state.checkpoints, state.handoffs, c)
      modifies `state
      ensures Keeps(since, state, granted)
      ensures r.Success? ==> IsStagedAs(state, c)
      ensures c.questionId in old(state).replies ==>
        state == old(state) && (r.Success? <==> old(state).replies[c.questionId].completion == c)
      ensures c.questionId !in old(state).replies ==>
        && state in {old(state), WithReply(old(state), c)}
        && (r.Success? ==> state == WithReply(old(state), c)) && (healthy ==> r.Success?)
    {
      hide Valid;
      var q := c.questionId;
      if q in state.replies {
        return if state.replies[q].completion != c then Failure("provider_session_reply_conflict") else Success(());
      }
      var lost := Fails();
      if lost {
        return Failure("provider_session_vault_unavailable");
      }
      ReplyKeeps(state, c);
      KeepsNext(since, state, WithReply(state, c), granted);
      state := WithReply(state, c);
      var unconfirmed := Fails();
      return if unconfirmed then Failure("provider_session_vault_unavailable") else Success(());
    }

    /** Puts a staged answer on the wire; success is the signed receipt for exactly this answer. */
    method Reply(c: Completion, ghost since: Durable, ghost granted: set<string>) returns (r: Result<()>)
      requires Keeps(since, state, granted)
      requires IsStagedAs(state, c)
      modifies `state
      ensures Keeps(since, state, granted)
      ensures state == old(state).(trace := state.trace)
      ensures state.trace in {old(state).trace, old(state).trace + [Replied(c.questionId, c.answer)],
                              old(state).trace + Sent(c)}
      ensures r.Success? ==>
        state.trace == old(state).trace + Sent(c) && ReceiptSeen(c.questionId, c.answer) in state.trace
      ensures healthy ==> r.Success?
    {
      hide Obeys, TablesAgree, Grows;
      var blocked := Fails();
      if blocked {
        return Failure("provider_session_channel_input");
      }
      assert Staged(c.questionId, c.answer) in state.trace;
      Note(Replied(c.questionId, c.answer), since, granted);
      var unconfirmed := Fails();
      if unconfirmed {
        return Failure("provider_session_channel_uncertain");
      }
      Note(ReceiptSeen(c.questionId, c.answer), since, granted);
      assert state.trace == old(state).trace + Sent(c);
      return Success(());
    }

    method Read(q: string, ghost since: Durable, ghost granted: set<string>) returns (r: Result<Observation>)
      requires Keeps(since, state, granted)
      modifies `state
      ensures Keeps(since, state, granted)
      ensures state == if r.Success? then Log(old(state), Seen(q, r.value)) else old(state)
      ensures r.Success? ==> Seen(q, r.value) in state.trace
      ensures healthy ==> r.Success?
    {
      var lost := Fails();
      if lost {
        return Failure("provider_session_channel_uncertain");
      }
      var seen: Observation := *;
      Note(Seen(q, seen), since, granted);
      return Success(seen);
    }

    /** Acknowledges the reply and settles its offer, both or neither. */
    method AcknowledgeOffer(offer: Offer, c: Completion, ghost since: Durable, ghost granted: set<string>)
      returns (r: Result<()>)
      requires Keeps(since, state, granted) && c.questionId == offer.questionId
      requires ReceiptSeen(c.questionId, c.answer) in state.trace
      modifies `state
      ensures Keeps(since, state, granted)
      ensures forall e :: e in old(state).trace ==> e in state.trace
      ensures r.Success? ==> IsAcknowledged(state, c.questionId) && state.replies[c.questionId].completion == c
      ensures IsStagedAs(old(state), c) ==> IsStagedAs(state, c)
      // Exactly for the staged answer and the offer on record; both are written, or neither.
      ensures r.Success? ==> MayAcknowledge(old(state), offer, c)
      ensures state != old(state) ==>
        MayAcknowledge(old(state), offer, c) && state == WithAcknowledgment(old(state), c.questionId)
      ensures r.Success? ==> state == WithAcknowledgment(old(state), c.questionId)
      ensures healthy && MayAcknowledge(old(state), offer, c) ==> r.Success?
    {
      hide Grows, Obeys, Recorded;
      var q := c.questionId;
      if q !in state.replies || state.replies[q].completion != c {
        return Failure("provider_session_reply_conflict");
      }
      if q in state.dispositions {
        return Failure("provider_session_reply_quarantined");
      }
      if q !in state.checkpoints || state.checkpoints[q].offer != offer
         || (state.checkpoints[q].settled.Some? && state.checkpoints[q].settled.value != c) {
        return Failure("provider_session_offer_conflict");
      }
      var lost := Fails();
      if lost {
        return Failure("provider_session_vault_unavailable");
      }
      AcknowledgmentKeeps(state, q);
      KeepsNext(since, state, WithAcknowledgment(state, q), granted);
      state := WithAcknowledgment(state, q);
      var unconfirmed := Fails();
      return if unconfirmed then Failure("provider_session_vault_unavailable") else Success(());
    }

    method Quarantine(c: Completion, ghost since: Durable, ghost granted: set<string>) returns (r: Result<()>)
      requires Keeps(since, state, granted) && ExpirySeen(c.questionId) in state.trace
      modifies `state
      ensures Keeps(since, state, granted)
      ensures forall e :: e in old(state).trace ==> e in state.trace
      ensures r.Success? ==> MayQuarantine(old(state), c) && c.questionId in state.dispositions
      ensures c.questionId in old(state).dispositions ==> state == old(state)
      ensures state in {old(state), WithQuarantine(old(state), c.questionId)}
      ensures healthy && MayQuarantine(old(state), c) ==> r.Success?
    {
      hide Valid, Grows;
      var q := c.questionId;
      if q !in state.replies || state.replies[q].completion != c || state.replies[q].acknowledged {
        return Failure("provider_session_reply_conflict");
      }
      if q in state.dispositions {
        return Success(());
      }
      var lost := Fails();
      if lost {
        return Failure("provider_session_vault_unavailable");
      }
      QuarantineKeeps(state, q);
      KeepsNext(since, state, WithQuarantine(state, q), granted);
      state := WithQuarantine(state, q);
      var unconfirmed := Fails();
      return if unconfirmed then Failure("provider_session_vault_unavailable") else Success(());
    }

    method FirstPendingReply() returns (r: Result<Option<Completion>>)
      requires Valid(state)
      ensures r == Success(None) ==> forall q :: !IsPending(state, q)
      ensures r.Success? && r.value.Some? ==>
        var q := r.value.value.questionId;
        && IsPending(state, q) && state.replies[q].completion == r.value.value
        && IsUnsettled(state, q) && LinkedTo(state.checkpoints, state.handoffs, r.value.value)
      ensures healthy ==> r.Success?
    {
      var lost := Fails();
      if lost {
        return Failure("provider_session_binding_unavailable");
      }
      if q :| q in state.replies && IsPending(state, q) {
        return Success(Some(state.replies[q].completion));
      }
      return Success(None);
    }

    method FirstUnsettled() returns (r: Result<Option<Offer>>)
      requires Valid(state)
      ensures r == Success(None) ==> forall q :: !IsUnsettled(state, q)
      ensures r.Success? && r.value.Some? ==>
        var q := r.value.value.questionId;
        IsUnsettled(state, q) && state.checkpoints[q].offer == r.value.value
      ensures healthy ==> r.Success?
    {
      var lost := Fails();
      if lost {
        return Failure("provider_session_binding_unavailable");
      }
      if q :| q in state.checkpoints && Unsettled(state.checkpoints, q) {
        return Success(Some(state.checkpoints[q].offer));
      }
      return Success(None);
    }

    method Inbox() returns (r: Result<Option<Offer>>)
      ensures healthy ==> r.Success?
    {
      var lost := Fails();
      if lost {
        return Failure("provider_session_channel_uncertain");
      }
      var offer: Option<Offer> := *;
      return Success(offer);
    }
  }

  /** The answer on the wire and the receipt for exactly this answer. */
  function Sent(c: Completion): seq<Event> {
    [Replied(c.questionId, c.answer), ReceiptSeen(c.questionId, c.answer)]
  }

  /** What a read of a question's state leaves in the trace. */
  function Seen(q: string, o: Observation): Event {
    match o
    case Accepted => AcceptedSeen(q)
    case Answered(answer) => ReceiptSeen(q, answer)
    case Expired => ExpirySeen(q)
    case NotAnswered => UnansweredSeen(q)
  }

  /** A hand-off whose answer was staged before the offer or the binding ran out. */
  predicate InTime(c: Completion, bindingExpiresAt: int) {
    c.handoff.Some? ==> c.handoff.value.createdAt < Earlier(c.handoff.value.offer.expiresAt, bindingExpiresAt)
  }

  function Earlier(a: int, b: int): int {
    if a < b then a else b
  }

  /** A hand-off's answer may still be sent; any other answer may be sent at any time. */
  predicate StillTime(c: Completion, bindingExpiresAt: int, now: int) {
    c.handoff.Some? ==> now < Earlier(c.handoff.value.offer.expiresAt, bindingExpiresAt)
  }

  /** Both the offer and the binding were still alive at a moment, for the answer to a hand-off. */
  ghost predicate AliveAt(c: Completion, bindingExpiresAt: int, at: int) {
    c.handoff.Some? ==> at < c.handoff.value.offer.expiresAt && at < bindingExpiresAt
  }

  /** A staged answer's exchange with the server: a read; and while that shows the answer awaited, and there is still
      time, the answer itself and a second read. */
  function Exchange(c: Completion, inTime: bool, first: Observation, second: Observation): seq<Event> {
    var q := c.questionId;
    if first.Accepted? && inTime then [Seen(q, first)] + Sent(c) + [Seen(q, second)] else [Seen(q, first)]
  }

  function LastSeen(inTime: bool, first: Observation, second: Observation): Observation {
    if first.Accepted? && inTime then second else first
  }

  /** Asks for the question's state, sends the staged answer when it is still awaited, and asks again. */
  method SendAndObserve(world: World, c: Completion, bindingExpiresAt: int, now: int, ghost since: Durable,
                        ghost granted: set<string>)
    returns (r: Result<Observation>, ghost first: Observation, ghost second: Observation)
    requires Keeps(since, world.state, granted)
    requires IsStagedAs(world.state, c)
    modifies world
    ensures Keeps(since, world.state, granted) && world.state == old(world.state).(trace := world.state.trace)
    ensures r.Success? ==>
      && r.value == LastSeen(AliveAt(c, bindingExpiresAt, now), first, second)
      && world.state.trace == old(world.state).trace + Exchange(c, AliveAt(c, bindingExpiresAt, now), first, second)
      && Seen(c.questionId, r.value) in world.state.trace
    // Cut short anywhere, it has done the first part of this.
    ensures world.state.trace <= old(world.state).trace + Exchange(c, AliveAt(c, bindingExpiresAt, now), first, second)
    ensures world.healthy ==> r.Success?
  {
    hide Keeps;
    first, second := NotAnswered, NotAnswered;
    var start :- world.Read(c.questionId, since, granted);
    first := start;
    if start != Accepted || !StillTime(c, bindingExpiresAt, now) {
      return Success(start), first, second;
    }
    var _ :- world.Reply(c, since, granted);
    var again :- world.Read(c.questionId, since, granted);
    return Success(again), first, again;
  }

  /** What an observation makes of a staged answer. */
  function Disposed(d: Durable, c: Completion, observed: Observation): (Durable, Outcome)
    requires c.questionId in d.replies && c.questionId in d.checkpoints
  {
    match observed
    case Expired => (WithQuarantine(d, c.questionId), ReplyQuarantined(c.questionId))
    case Answered(answer) =>
      if answer == c.answer then (WithAcknowledgment(d, c.questionId), Reconciled(c.questionId))
      else (d, ReplyPending(c.questionId))
    case _ => (d, ReplyPending(c.questionId))
  }

  method Dispose(world: World, offer: Offer, c: Completion, observed: Observation, ghost since: Durable,
                 ghost granted: set<string>)
    returns (r: Result<Outcome>)
    requires Keeps(since, world.state, granted) && AwaitsAcknowledgment(world.state, offer, c)
    requires c.questionId == offer.questionId && Seen(c.questionId, observed) in world.state.trace
    modifies world
    ensures Keeps(since, world.state, granted)
    ensures r.Success? ==> Settles(world.state, r.value)
    ensures r.Success? ==> (world.state, r.value) == Disposed(old(world.state), c, observed)
    ensures world.state in {old(world.state), Disposed(old(world.state), c, observed).0}
    ensures world.healthy ==> r.Success?
  {
    hide Keeps;
    if observed.Expired? {
      var _ :- world.Quarantine(c, since, granted);
      return Success(ReplyQuarantined(c.questionId));
    }
    if observed != Answered(c.answer) {
      return Success(ReplyPending(c.questionId));
    }
    var _ :- world.AcknowledgeOffer(offer, c, since, granted);
    return Success(Reconciled(c.questionId));
  }

  /** The exchange has run to its end, and its last observation was acted on. */
  ghost predicate Exchanged(before: Durable, after: Durable, o: Outcome, bindingExpiresAt: int, now: int) {
    && (o.Reconciled? || o.ReplyQuarantined? || o.ReplyPending?)
    && IsPending(before, o.q) && o.q in before.checkpoints
    && exists first, second :: ExchangedAs(before, after, before.replies[o.q].completion, o, first, second,
                                           AliveAt(before.replies[o.q].completion, bindingExpiresAt, now))
  }

  ghost predicate ExchangedAs(before: Durable, after: Durable, c: Completion, o: Outcome, first: Observation,
                              second: Observation, inTime: bool)
  {
    && c.questionId in before.replies && c.questionId in before.checkpoints
    && (after, o) == Disposed(before.(trace := before.trace + Exchange(c, inTime, first, second)), c,
                              LastSeen(inTime, first, second))
  }

  /** One staged answer: asked about, sent if that can still help, and settled by what was seen last. A failure that
      the program recognises leaves it pending. */
  method Settle(world: World, offer: Offer, c: Completion, bindingExpiresAt: int, now: int, ghost since: Durable,
                ghost granted: set<string>)
    returns (r: Result<Outcome>)
    requires Keeps(since, world.state, granted) && AwaitsAcknowledgment(world.state, offer, c)
    requires c.questionId == offer.questionId
    modifies world
    ensures Keeps(since, world.state, granted)
    ensures r.Success? ==> Settles(world.state, r.value)
    ensures r.Success? ==>
      r.value in {Reconciled(c.questionId), ReplyQuarantined(c.questionId), ReplyPending(c.questionId)}
    ensures r == Success(ReplyPending(c.questionId)) ==> IsPending(world.state, c.questionId)
    ensures r.Success? && (world.healthy || !r.value.ReplyPending?) ==>
      Exchanged(old(world.state), world.state, r.value, bindingExpiresAt, now)
    ensures world.healthy ==> r.Success?
  {
    hide Keeps, Exchanged, Exchange, AliveAt, LastSeen;
    var observed, first, second := SendAndObserve(world, c, bindingExpiresAt, now, since, granted);
    if observed.Failure? {
      var recognised: bool := *;
      return if recognised then Success(ReplyPending(c.questionId)) else Failure(observed.reason);
    }
    ghost var asked := world.state;
    r := Dispose(world, offer, c, observed.value, since, granted);
    if r.Success? {
      ExchangeIsDone(old(world.state), asked, world.state, c, r.value, first, second, bindingExpiresAt, now);
    }
  }

  lemma ExchangeIsDone(before: Durable, asked: Durable, after: Durable, c: Completion, o: Outcome, first: Observation,
                       second: Observation, bindingExpiresAt: int, now: int)
    requires IsPending(before, c.questionId) && before.replies[c.questionId].completion == c
    requires c.questionId in before.checkpoints
    requires var inTime := AliveAt(c, bindingExpiresAt, now);
             && asked == before.(trace := before.trace + Exchange(c, inTime, first, second))
             && (after, o) == Disposed(asked, c, LastSeen(inTime, first, second))
    ensures Exchanged(before, after, o, bindingExpiresAt, now)
  {
    hide Exchange, AliveAt, LastSeen;
    assert ExchangedAs(before, after, c, o, first, second, AliveAt(c, bindingExpiresAt, now));
  }

  ghost predicate IsOnRecord(d: Durable, h: Handoff, q: string) {
    && q in d.handoffs && d.handoffs[q] == h.attemptId
    && q in d.checkpoints && d.checkpoints[q].offer == h.offer
  }

  lemma LinkedIsOnRecord(d: Durable, c: Completion)
    requires LinkedTo(d.checkpoints, d.handoffs, c) && c.handoff.Some?
    ensures IsOnRecord(d, c.handoff.value, c.questionId) && c.handoff.value.offer.taskId == c.taskId
  {
  }

  /** The restart half of the protocol: settles one staged answer, and never asks for a new one. */
  method Reconcile(world: World, bindingExpiresAt: int, now: int, ghost since: Durable, ghost granted: set<string>)
    returns (r: Result<Option<Outcome>>)
    requires Keeps(since, world.state, granted)
    modifies world
    ensures Keeps(since, world.state, granted) && Valid(world.state)
    ensures r == Success(None) ==> world.state == old(world.state) && forall q :: !IsPending(world.state, q)
    ensures r.Success? && r.value.Some? ==>
      && (r.value.value.Reconciled? || r.value.value.ReplyQuarantined? || r.value.value.ReplyPending?)
      && Settles(world.state, r.value.value)
      && IsPending(old(world.state), r.value.value.q)
      && (r.value.value.ReplyPending? ==> IsPending(world.state, r.value.value.q))
    // Only an answer that was staged in time, for the offer and the attempt on record, is taken up.
    ensures r.Success? && r.value.Some? ==>
      var c := old(world.state).replies[r.value.value.q].completion;
      c.handoff.Some? ==>
        && AliveAt(c, bindingExpiresAt, c.handoff.value.createdAt)
        && IsOnRecord(old(world.state), c.handoff.value, r.value.value.q) && c.handoff.value.offer.taskId == c.taskId
    // An answer that is settled, or that waits on a healthy world, was asked about, and sent if that could still help.
    ensures r.Success? && r.value.Some? && (world.healthy || !r.value.value.ReplyPending?) ==>
      Exchanged(old(world.state), world.state, r.value.value, bindingExpiresAt, now)
    ensures (world.healthy
             && forall q :: IsPending(old(world.state), q) ==>
                  var c := old(world.state).replies[q].completion;
                  c.handoff.Some? ==> AliveAt(c, bindingExpiresAt, c.handoff.value.createdAt))
            ==> r.Success?
  {
    hide Keeps, LinkedTo, Exchanged, Settles;
    KeepsIsValid(since, world.state, granted);
    hide SessionLedger.Valid;
    var pending :- world.FirstPendingReply();
    if pending.None? {
      return Success(None);
    }
    var c := pending.value;
    var q := c.questionId;
    if !LinkedTo(world.state.checkpoints, world.state.handoffs, c) || !InTime(c, bindingExpiresAt) {
      return Failure("provider_session_completion_handoff_mismatch");
    }
    if c.handoff.Some? {
      LinkedIsOnRecord(world.state, c);
    }
    hide IsOnRecord;
    var offer := world.state.checkpoints[q].offer;
    var settled := Settle(world, offer, c, bindingExpiresAt, now, since, granted);
    KeepsIsValid(since, world.state, granted);
    if settled.Failure? {
      return Failure(settled.reason);
    }
    return Success(Some(settled.value));
  }

  /** The effects of taking an offer and of staging or failing an answer. */
  ghost predicate NeedsOwner(e: Event) {
    || e.Authorized? || e.Reserved? || e.Checkpointed? || e.AcceptConfirmed? || e.Consumed? || e.HandoffRecorded?
    || e.Granted? || e.Staged? || e.FailureSent?
  }

  datatype Held = Held(offer: Offer, attemptId: string)

  datatype Submission = Submission(questionId: string, taskId: string, nonce: string, offer: Offer, attemptId: string,
                                   answer: string)

  datatype Mode = HandOff(attemptId: string) | Submit(submission: Submission) | RunNext

  class Session {
    const world: World
    const acceptable: string -> bool
    const bindingExpiresAt: int
    var stopped: bool
    var running: bool
    var handedOff: Option<Held>
    constructor (world: World, acceptable: string -> bool, bindingExpiresAt: int)
      requires SessionLedger.Valid(world.state)
      ensures this.world == world && Valid() && !stopped && !running && handedOff.None?
      ensures this.acceptable == acceptable && this.bindingExpiresAt == bindingExpiresAt
    {
      this.world := world;
      this.acceptable := acceptable;
      this.bindingExpiresAt := bindingExpiresAt;
      stopped, running, handedOff := false, false, None;
    }

    ghost predicate Valid()
      reads this, world
    {
      && SessionLedger.Valid(world.state)
      && (handedOff.Some? ==> Holds(world.state, handedOff.value.offer, Some(handedOff.value.attemptId)))
    }

    /** Lease, live context, dispatch window and the offer's own checks: each may fail at any moment. */
    method Live() returns (r: Result<()>)
      modifies world`checkedAt
      ensures r.Success? ==> world.Owned()
      ensures world.healthy ==> r.Success?
    {
      var lost := world.Fails();
      if lost {
        return Failure("cooperative_session_owner_lost");
      }
      world.checkedAt := world.checkedAt + {|world.state.trace|};
      return Success(());
    }

    /** A staged answer sent, received and settled. */
    ghost function Answered(d: Durable, c: Completion): Durable
      requires c.questionId in d.replies
    {
      if c.questionId in d.checkpoints then WithAcknowledgment(d.(trace := d.trace + Sent(c)), c.questionId) else d
    }

    /** Sends a staged answer and, on its receipt, acknowledges it. Whatever goes wrong leaves it pending. */
    method Deliver(offer: Offer, c: Completion, ghost since: Durable, ghost granted: set<string>)
      returns (r: Result<Outcome>)
      requires Keeps(since, world.state, granted) && c.questionId == offer.questionId
      requires IsStagedAs(world.state, c)
      requires world.Owned()
      modifies this, world
      ensures Keeps(since, world.state, granted)
      ensures running == old(running)
      ensures r in {Success(Delivered(c.questionId)), Success(ReplyPending(c.questionId))}
      ensures Settles(world.state, r.value) && IsStagedAs(world.state, c)
      ensures r.value.ReplyPending? ==> stopped && handedOff == old(handedOff)
      ensures r.value.Delivered? ==> stopped == old(stopped) && handedOff.None?
      ensures r.value.Delivered? ==> world.state == Answered(old(world.state), c)
      ensures world.healthy && MayAcknowledge(old(world.state), offer, c) ==> r.value.Delivered?
    {
      hide Keeps;
      var sent := world.Reply(c, since, granted);
      if sent.Success? {
        var acknowledged := world.AcknowledgeOffer(offer, c, since, granted);
        if acknowledged.Success? {
          handedOff := None;
          return Success(Delivered(c.questionId));
        }
      }
      stopped := true;
      return Success(ReplyPending(c.questionId));
    }

    /** A hand-off is the attempt on record, and its offer is unsettled. */
    ghost predicate StillHeld(d: Durable, offer: Offer, attempt: Option<string>) {
      var q := offer.questionId;
      attempt.Some? ==>
        && q in d.handoffs && d.handoffs[q] == attempt.value
        && q in d.checkpoints && d.checkpoints[q] == Checkpoint(offer, None)
    }

    /** A staged hand-off answer goes out only while the hand-off is still the one on record. */
    method StillHeldThenDeliver(offer: Offer, c: Completion, attempt: Option<string>, ghost since: Durable,
                                ghost granted: set<string>)
      returns (r: Result<Outcome>)
      requires Keeps(since, world.state, granted) && c.questionId == offer.questionId
      requires IsStagedAs(world.state, c)
      modifies this, world
      ensures Keeps(since, world.state, granted)
      ensures running == old(running)
      ensures r.Success? ==> r in {Success(Delivered(c.questionId)), Success(ReplyPending(c.questionId))}
      ensures r.Success? ==> Settles(world.state, r.value) && IsStagedAs(world.state, c)
      ensures r.Success? && r.value.ReplyPending? ==> stopped && handedOff == old(handedOff)
      ensures r.Success? && r.value.Delivered? ==> stopped == old(stopped) && handedOff.None?
      ensures r.Failure? ==> world.state == old(world.state) && handedOff == old(handedOff) && stopped == old(stopped)
      ensures r.Success? ==> StillHeld(old(world.state), offer, attempt)
      ensures r.Success? && r.value.Delivered? ==> world.state == Answered(old(world.state), c)
      ensures world.healthy && StillHeld(old(world.state), offer, attempt) && MayAcknowledge(old(world.state), offer, c)
        ==> r == Success(Delivered(c.questionId))
    {
      hide Keeps, Settles, IsStagedAs;
      var q := c.questionId;
      var _ :- Live();
      if attempt.Some?
         && (Lookup(world.state.handoffs, q) != attempt
             || Lookup(world.state.checkpoints, q) != Some(Checkpoint(offer, None))) {
        return Failure("cooperative_session_submission_mismatch");
      }
      r := Deliver(offer, c, since, granted);
    }

    /** The offer is on record and unsettled, and nothing is staged for it. */
    ghost predicate IsOpen(d: Durable, offer: Offer) {
      var q := offer.questionId;
      q in d.checkpoints && d.checkpoints[q] == Checkpoint(offer, None) && q !in d.replies && q !in d.dispositions
    }

    lemma StagedIsDeliverable(d: Durable, offer: Offer, answer: string, attempt: Option<string>, now: int)
      requires Holds(d, offer, attempt) && IsOpen(d, offer)
      ensures var c := CompletionFor(offer, answer, attempt, now);
              && c.questionId !in d.replies
              && StillHeld(WithReply(d, c), offer, attempt) && MayAcknowledge(WithReply(d, c), offer, c)
    {
    }

    /** Stages the answer, sends it, and acknowledges it on the receipt. */
    method Complete(offer: Offer, answer: string, attempt: Option<string>, ghost since: Durable,
                    ghost granted: set<string>)
      returns (r: Result<Outcome>)
      requires Keeps(since, world.state, granted) && Holds(world.state, offer, attempt)
      modifies this, world
      ensures Keeps(since, world.state, granted)
      ensures running == old(running)
      ensures r.Success? ==> r.value in {Delivered(offer.questionId), ReplyPending(offer.questionId)}
      ensures r.Success? ==> Settles(world.state, r.value)
      ensures r.Success? ==> acceptable(answer) && IsStaged(world.state, offer.questionId, answer)
      ensures r.Success? ==> offer.questionId in world.state.replies
                             && IsAnswerTo(world.state.replies[offer.questionId].completion, offer, answer, attempt)
      ensures r.Success? && r.value.ReplyPending? ==> stopped && handedOff == old(handedOff)
      ensures r.Success? && r.value.Delivered? ==> stopped == old(stopped) && handedOff.None?
      ensures r.Failure? ==> handedOff == old(handedOff) && stopped == old(stopped)
      ensures !acceptable(answer) ==> world.state == old(world.state)
      ensures world.healthy && acceptable(answer) && IsOpen(old(world.state), offer) ==>
        r == Success(Delivered(offer.questionId))
    {
      hide Keeps, Settles, IsStagedAs, LinkedTo, Holds, CompletionFor, StillHeld, MayAcknowledge, IsOpen;
      var q := offer.questionId;
      var _ :- Live();
      if !acceptable(answer) {
        return Failure("cooperative_session_answer_invalid");
      }
      var now: int := *;
      var c := CompletionFor(offer, answer, attempt, now);
      CompletionIsLinked(world.state, offer, answer, attempt, now);
      if IsOpen(world.state, offer) {
        StagedIsDeliverable(world.state, offer, answer, attempt, now);
      }
      var _ :- world.StageReply(c, since, granted);
      var interrupted := world.Fails();
      StagedAnswer(world.state, c);
      if interrupted {
        stopped := true;
        return Success(ReplyPending(q));
      }
      r := StillHeldThenDeliver(offer, c, attempt, since, granted);
      if r.Success? {
        StagedAnswer(world.state, c);
        assert world.state.replies[q].completion == c by { StagedIsThere(world.state, c); }
      }
    }

    /** The submission names the hand-off that the session holds, and its offer in every part. */
    ghost predicate IsForHeld(s: Submission, held: Option<Held>) {
      && held == Some(Held(s.offer, s.attemptId))
      && (s.questionId, s.taskId, s.nonce) == (s.offer.questionId, s.offer.taskId, s.offer.nonce)
    }

    /** A submission for anything but the open hand-off as it is on record, or not acceptable, is refused and changes
        nothing; on a healthy world the answer to the open hand-off is delivered. */
    ghost predicate SubmissionJudged(before: Durable, after: Durable, held: Option<Held>, s: Submission,
                                     r: Result<Outcome>)
    {
      && (!IsForHeld(s, held) || !acceptable(s.answer) || !StillHeld(before, s.offer, Some(s.attemptId)) ==>
            r.Failure? && after == before)
      && (world.healthy && IsForHeld(s, held) && acceptable(s.answer) && IsOpen(before, s.offer) ==>
            r == Success(Delivered(s.questionId)))
    }

    /** The answer to the hand-off this session made, and to no other. */
    method SubmitHeld(s: Submission, ghost since: Durable) returns (r: Result<Outcome>)
      requires Valid() && since == world.state
      modifies this, world
      ensures Keeps(since, world.state, {}) && Valid() && running == old(running)
      ensures r.Success? ==> Settles(world.state, r.value) && (r.value.Delivered? || (r.value.ReplyPending? && stopped))
      ensures r.Success? ==>
        && IsForHeld(s, old(handedOff)) && r.value.q == s.questionId
        && acceptable(s.answer) && IsStaged(world.state, s.questionId, s.answer)
      ensures r.Success? && r.value.Delivered? ==> handedOff.None? && stopped == old(stopped)
      ensures r.Success? && r.value.ReplyPending? ==> handedOff == old(handedOff)
      ensures r.Failure? ==> handedOff == old(handedOff) && stopped == old(stopped)
      ensures SubmissionJudged(old(world.state), world.state, old(handedOff), s, r)
    {
      hide Keeps, Settles, StillHeld, IsOpen, Holds, IsStaged, IsAnswerTo, SessionLedger.Valid;
      HeldIsThere(handedOff, since);
      if handedOff.None? || handedOff.value != Held(s.offer, s.attemptId)
         || s.questionId != s.offer.questionId || s.taskId != s.offer.taskId || s.nonce != s.offer.nonce {
        return Failure("cooperative_session_submission_mismatch");
      }
      var _ :- Live();
      if Lookup(world.state.checkpoints, s.questionId) != Some(Checkpoint(s.offer, None))
         || Lookup(world.state.handoffs, s.questionId) != Some(s.attemptId) {
        return Failure("cooperative_session_submission_mismatch");
      }
      r := Complete(s.offer, s.answer, Some(s.attemptId), since, {});
      KeptHolds(since, world.state, {}, s.offer, Some(s.attemptId));
    }

    lemma HeldIsThere(held: Option<Held>, d: Durable)
      requires SessionLedger.Valid(d)
      requires held.Some? ==> Holds(d, held.value.offer, Some(held.value.attemptId))
      ensures Keeps(d, d, {})
      ensures held.Some? && IsOpen(d, held.value.offer) ==>
                StillHeld(d, held.value.offer, Some(held.value.attemptId))
      ensures held.Some? ==>
        var offer := held.value.offer;
        StillHeld(d, offer, Some(held.value.attemptId)) <==>
          && Lookup(d.checkpoints, offer.questionId) == Some(Checkpoint(offer, None))
          && Lookup(d.handoffs, offer.questionId) == Some(held.value.attemptId)
    {
      KeepsFromStart(d, {});
    }

    lemma KeptHolds(before: Durable, after: Durable, granted: set<string>, offer: Offer, attempt: Option<string>)
      requires Keeps(before, after, granted) && Holds(before, offer, attempt)
      ensures SessionLedger.Valid(after) && Holds(after, offer, attempt)
    {
      hide SessionLedger.Valid;
      HoldsOn(before, after, offer, attempt);
    }

    /** The agent answers inside the call, or fails to; a failure is reported without an answer. */
    method AnswerNow(offer: Offer, ghost since: Durable, ghost granted: set<string>) returns (r: Result<Outcome>)
      requires Keeps(since, world.state, granted) && Holds(world.state, offer, None) && handedOff.None?
      modifies this, world
      ensures Keeps(since, world.state, granted) && handedOff.None? && running == old(running)
      ensures r.Success? ==>
        r.value in {Delivered(offer.questionId), ReplyPending(offer.questionId), FailureReported(offer.questionId)}
      ensures r.Success? ==> Settles(world.state, r.value)
      ensures r.Success? && r.value.ReplyPending? ==> stopped
      ensures r.Success? && !r.value.ReplyPending? ==> stopped == old(stopped)
      ensures r.Success? && r.value.FailureReported? ==>
        world.state == Log(old(world.state), FailureSent(offer.questionId))
      ensures world.healthy && IsOpen(old(world.state), offer) && r.Success? ==> !r.value.ReplyPending?
      // On a healthy world only an answer that is not acceptable fails.
      ensures world.healthy && IsOpen(old(world.state), offer) && (forall answer :: acceptable(answer)) ==> r.Success?
    {
      hide Keeps, IsOpen;
      var failed: bool, answer: string := *, *;
      if failed {
        var _ :- Live();
        world.Note(FailureSent(offer.questionId), since, granted);
        var unconfirmed := world.Fails();
        return if unconfirmed then Failure("cooperative_session_failure_delivery_unconfirmed")
               else Success(FailureReported(offer.questionId));
      }
      r := Complete(offer, answer, None, since, granted);
    }

    /** The record of an admission: authorized, reserved, checkpointed, accepted and claimed, in this order. */
    ghost function Admitted(d: Durable, offer: Offer): Durable {
      var q := offer.questionId;
      WithClaim(Log(WithCheckpoint(Log(Log(d, Authorized(q)), Reserved(q)), offer), AcceptConfirmed(q)), q)
    }

    /** Authorize, reserve, checkpoint, accept, claim. Only a true answer lets the question be handed out. */
    method Admit(offer: Offer, ghost since: Durable, ghost granted: set<string>) returns (r: Result<bool>)
      requires Keeps(since, world.state, granted)
      modifies world
      ensures Keeps(since, world.state, granted)
      ensures r == Success(true) ==>
        && Allowed(world.state.trace, Granted(offer.questionId)) && Granted(offer.questionId) !in since.trace
        && Lookup(world.state.checkpoints, offer.questionId) == Some(Checkpoint(offer, None))
        && MayCheckpoint(old(world.state), offer) && offer.questionId !in old(world.state).claims
        && world.state == Admitted(old(world.state), offer)
      ensures r == Success(false) ==> world.state == Log(old(world.state), Authorized(offer.questionId))
      ensures (&& world.healthy
               && MayCheckpoint(old(world.state), offer) && offer.questionId !in old(world.state).claims)
              ==> r.Success? || (r == Failure("cooperative_session_content_denied") && world.state == old(world.state))
    {
      hide Keeps, MayCheckpoint, Allowed, WithCheckpoint, WithClaim, Lookup;
      var q := offer.questionId;
      var _ :- Live();
      var authorized :- world.Authorize(q, since, granted);
      if !authorized {
        return Failure("cooperative_session_content_denied");
      }
      var _ :- Live();
      var reserved :- world.Reserve(q, since, granted);
      var _ :- Live();
      if !reserved {
        return Success(false);
      }
      ReservedMayCheckpoint(old(world.state), offer);
      var _ :- world.StageCheckpoint(offer, since, granted);
      var _ :- Live();
      var _ :- world.Accept(q, since, granted);
      var _ :- Live();
      CheckpointKeepsClaims(Log(Log(old(world.state), Authorized(q)), Reserved(q)), offer);
      var claimed :- world.Consume(q, since, granted);
      if !claimed {
        return Failure("cooperative_session_replayed");
      }
      KeepsRemembers(since, world.state, granted);
      ClaimAllowsGrant(world.state.trace, q);
      AdmittedIsRecorded(old(world.state), offer);
      return Success(true);
    }

    lemma ClaimAllowsGrant(trace: seq<Event>, q: string)
      requires Granted(q) !in trace && Consumed(q) in trace && Authorized(q) in trace && Reserved(q) in trace
      requires Checkpointed(q) in trace && AcceptConfirmed(q) in trace
      ensures Allowed(trace, Granted(q))
    {
      assert Consumed(q) in multiset(trace) && Granted(q) !in multiset(trace);
    }

    lemma CheckpointKeepsClaims(d: Durable, offer: Offer)
      ensures WithCheckpoint(d, offer).claims == d.claims
    {
    }

    lemma AdmittedIsRecorded(d: Durable, offer: Offer)
      ensures MayCheckpoint(d, offer) ==>
                Lookup(Admitted(d, offer).checkpoints, offer.questionId) == Some(Checkpoint(offer, None))
    {
    }

    lemma ReservedMayCheckpoint(d: Durable, offer: Offer)
      ensures MayCheckpoint(Log(Log(d, Authorized(offer.questionId)), Reserved(offer.questionId)), offer) <==>
              MayCheckpoint(d, offer)
    {
    }

    /** The record of a hand-out, to an attempt that will answer later or to nobody in particular. */
    ghost function HandedOut(d: Durable, offer: Offer, attempt: Option<string>): Durable {
      var q := offer.questionId;
      Log(if attempt.Some? then WithHandoff(d, q, attempt.value) else d, Granted(q))
    }

    ghost function Failed(d: Durable, offer: Offer): Durable {
      Log(HandedOut(d, offer, None), FailureSent(offer.questionId))
    }

    lemma GrantedStaysOpen(d: Durable, offer: Offer)
      ensures IsOpen(Log(d, Granted(offer.questionId)), offer) <==> IsOpen(d, offer)
    {
    }

    /** Hands out an admitted question: to a caller who will submit the answer later, or to one who answers now. */
    method HandOut(offer: Offer, mode: Mode, ghost since: Durable, ghost granted: set<string>)
      returns (r: Result<Outcome>)
      requires Keeps(since, world.state, granted) && offer.questionId in granted && handedOff.None? && !mode.Submit?
      requires Allowed(world.state.trace, Granted(offer.questionId))
      requires Lookup(world.state.checkpoints, offer.questionId) == Some(Checkpoint(offer, None))
      modifies this, world
      ensures Keeps(since, world.state, granted) && running == old(running)
      ensures r.Success? ==> Settles(world.state, r.value)
      ensures r.Success? && r.value.HandedOff? ==> mode.HandOff? && r.value == HandedOff(offer, mode.attemptId)
      ensures handedOff == if r.Success? && r.value.HandedOff? then Some(Held(offer, mode.attemptId)) else None
      ensures r.Success? && r.value.ReplyPending? ==> stopped
      ensures r.Success? && !mode.HandOff? ==>
        r.value in {Delivered(offer.questionId), ReplyPending(offer.questionId), FailureReported(offer.questionId)}
      ensures r.Success? && mode.HandOff? ==> r.value.HandedOff?
      ensures r.Success? && r.value.HandedOff? ==>
        && MayHandOff(old(world.state), offer, mode.attemptId)
        && world.state == HandedOut(old(world.state), offer, Some(mode.attemptId))
      ensures r.Success? && !r.value.ReplyPending? ==> stopped == old(stopped)
      ensures r.Success? && r.value.FailureReported? ==> world.state == Failed(old(world.state), offer)
      ensures world.healthy && mode.HandOff? && MayHandOff(old(world.state), offer, mode.attemptId) ==> r.Success?
      ensures world.healthy && mode.RunNext? && IsOpen(old(world.state), offer) && (forall answer :: acceptable(answer))
        ==> r.Success? && !r.value.ReplyPending?
    {
      hide Keeps, MayHandOff, IsOpen;
      var q := offer.questionId;
      var _ :- Live();
      if mode.HandOff? {
        var _ :- world.RecordHandoff(offer, mode.attemptId, since, granted);
        var _ :- Live();
        world.Note(Granted(q), since, granted);
        handedOff := Some(Held(offer, mode.attemptId));
        return Success(HandedOff(offer, mode.attemptId));
      }
      GrantedStaysOpen(world.state, offer);
      world.Note(Granted(q), since, granted);
      r := AnswerNow(offer, since, granted);
    }

    /** Nothing on record stands against the offer: it can be checkpointed, and nobody claimed it, has it or answered
        it. */
    ghost predicate IsNew(d: Durable, offer: Offer) {
      var q := offer.questionId;
      && MayCheckpoint(d, offer)
      && q !in d.claims && q !in d.handoffs && q !in d.replies && q !in d.dispositions
    }

    lemma AdmittedIsOpen(d: Durable, offer: Offer, attemptId: string)
      requires IsNew(d, offer)
      ensures MayHandOff(Admitted(d, offer), offer, attemptId) && IsOpen(Admitted(d, offer), offer)
    {
    }

    /** What taking an offer comes to on a healthy world that has nothing against it: content or budget denied and no
        more done, a hand-off, or an answer or failure delivered at once. */
    ghost predicate Taken(before: Durable, after: Durable, offer: Offer, mode: Mode, r: Result<Outcome>) {
      || (r == Failure("cooperative_session_content_denied") && after == before)
      || (r == Success(BudgetDenied(offer.questionId)) && after == Log(before, Authorized(offer.questionId)))
      || (mode.HandOff? && r == Success(HandedOff(offer, mode.attemptId))
          && after == HandedOut(Admitted(before, offer), offer, Some(mode.attemptId)))
      || (mode.RunNext? && r == Success(Delivered(offer.questionId)))
      || (mode.RunNext? && r == Success(FailureReported(offer.questionId))
          && after == Failed(Admitted(before, offer), offer))
    }

    method Take(offer: Offer, mode: Mode, ghost since: Durable, ghost granted: set<string>) returns (r: Result<Outcome>)
      requires Keeps(since, world.state, granted) && offer.questionId in granted && handedOff.None? && !mode.Submit?
      modifies this, world
      ensures Keeps(since, world.state, granted) && running == old(running)
      ensures r.Success? ==> Settles(world.state, r.value)
      ensures r.Success? && r.value.HandedOff? ==> mode.HandOff? && r.value == HandedOff(offer, mode.attemptId)
      ensures handedOff == if r.Success? && r.value.HandedOff? then Some(Held(offer, mode.attemptId)) else None
      ensures r.Success? ==>
        r.value.BudgetDenied? || r.value.HandedOff? || r.value.Delivered? || r.value.ReplyPending?
        || r.value.FailureReported?
      ensures r.Success? && r.value.HandedOff? ==> Granted(offer.questionId) !in since.trace
      ensures r.Success? && (r.value.ReplyPending? || r.value.OfferRecoveryRequired?) ==> stopped
      ensures r.Success? && !r.value.ReplyPending? ==>
        stopped == old(stopped) && Taken(old(world.state), world.state, offer, mode, r)
      ensures (&& world.healthy && IsNew(old(world.state), offer)
               && (mode.HandOff? || forall answer :: acceptable(answer)))
              ==> Taken(old(world.state), world.state, offer, mode, r)
    {
      hide Keeps, Allowed, IsNew, IsOpen, MayHandOff, MayCheckpoint, HandedOut, Admitted, WithClaim;
      ghost var before := world.state;
      if IsNew(before, offer) {
        NewMayCheckpoint(before, offer);
        AdmittedIsOpen(before, offer, if mode.HandOff? then mode.attemptId else "");
      }
      var admitted :- Admit(offer, since, granted);
      if !admitted {
        return Success(BudgetDenied(offer.questionId));
      }
      r := HandOut(offer, mode, since, granted);
    }

    lemma NewMayCheckpoint(d: Durable, offer: Offer)
      requires IsNew(d, offer)
      ensures MayCheckpoint(d, offer) && offer.questionId !in d.claims
    {
    }

    /** Every answer that waits was staged while its offer and the binding were alive. */
    ghost predicate PendingInTime(d: Durable) {
      forall q :: IsPending(d, q) ==>
        var c := d.replies[q].completion;
        c.handoff.Some? ==> AliveAt(c, bindingExpiresAt, c.handoff.value.createdAt)
    }

    ghost function Open(held: Held): Outcome {
      CheckpointPending(held.offer, held.attemptId)
    }

    /** What one call with no hand-off open comes to on a healthy world: a waiting answer is settled or waits on; or an
        unsettled offer is reported; or the offer of the inbox is taken, if there is one. */
    ghost predicate Driven(before: Durable, after: Durable, offered: Option<Offer>, mode: Mode, now: int,
                           r: Result<Outcome>)
    {
      if exists q :: IsPending(before, q) then
        r.Success? && Exchanged(before, after, r.value, bindingExpiresAt, now)
      else if exists q :: IsUnsettled(before, q) then
        after == before && exists q :: IsUnsettled(before, q) && r == Success(OfferRecoveryRequired(q))
      else
        match offered
        case None => after == before && r == Success(Idle)
        case Some(offer) =>
          IsNew(before, offer) && (mode.HandOff? || forall answer :: acceptable(answer)) ==>
            Taken(before, after, offer, mode, r)
    }

    /** The body of one call, in the order the effects happen. `granted` is the one question it may hand out. */
    method Attempt(mode: Mode, now: int)
      returns (r: Result<Outcome>, ghost granted: set<string>, ghost offered: Option<Offer>)
      requires Valid() && running && (handedOff.None? || !mode.RunNext?)
      modifies this, world
      ensures Keeps(old(world.state), world.state, granted) && Valid() && running == old(running)
      ensures granted == {} || exists q :: granted == {q}
      ensures granted != {} ==> IsQuiet(old(world.state)) && old(handedOff).None? && !mode.Submit?
      ensures r.Success? ==> Settles(world.state, r.value)
      ensures r.Success? && (r.value.ReplyPending? || r.value.OfferRecoveryRequired?) ==> stopped
      ensures r.Success? && r.value.HandedOff? ==>
        && mode.HandOff? && granted == {r.value.offer.questionId}
        && Granted(r.value.offer.questionId) !in old(world.state).trace
      ensures r.Success? && !r.value.ReplyPending? && !r.value.OfferRecoveryRequired? ==> stopped == old(stopped)
      // What is told without doing more is told by an owner.
      ensures (&& r.Success?
               && (|| r.value.CheckpointPending? || r.value.Reconciled? || r.value.ReplyQuarantined? || r.value.Idle?
                   || r.value.OfferRecoveryRequired?))
              ==> world.Owned()
      // A submission is judged by the hand-off that is open; without one a call reports it, or drives on.
      ensures mode.Submit? ==> SubmissionJudged(old(world.state), world.state, old(handedOff), mode.submission, r)
      ensures !mode.Submit? && old(handedOff).Some? ==>
        && world.state == old(world.state)
        && (world.healthy ==> r == Success(Open(old(handedOff).value)))
      ensures !mode.Submit? && old(handedOff).None? && world.healthy && PendingInTime(old(world.state)) ==>
        Driven(old(world.state), world.state, offered, mode, now, r)
      ensures offered.Some? <==> granted != {}
      ensures offered.Some? ==> granted == {offered.value.questionId}
    {
      hide Keeps, Grows, SessionLedger.Valid, Exchanged, Taken, IsNew, IsOpen;
      offered := None;
      ghost var since := world.state;
      KeepsFromStart(since, {});
      granted := {};
      var _ :- Live();
      if mode.Submit? {
        r := SubmitHeld(mode.submission, since);
        return;
      }
      if handedOff.Some? {
        return Success(CheckpointPending(handedOff.value.offer, handedOff.value.attemptId)), {}, None;
      }
      var recovered :- Reconcile(world, bindingExpiresAt, now, since, {});
      KeepsIsValid(since, world.state, {});
      if recovered.Some? && recovered.value.ReplyPending? {
        stopped := true;
        return Success(recovered.value), {}, None;
      }
      var _ :- Live();
      if recovered.Some? {
        return Success(recovered.value), {}, None;
      }
      var unsettled :- world.FirstUnsettled();
      if unsettled.Some? {
        stopped := true;
        return Success(OfferRecoveryRequired(unsettled.value.questionId)), {}, None;
      }
      var inbox :- world.Inbox();
      if inbox.None? {
        return Success(Idle), {}, None;
      }
      offered := inbox;
      granted := {inbox.value.questionId};
      KeepsFromStart(since, granted);
      r := Take(inbox.value, mode, since, granted);
      KeepsIsValid(since, world.state, granted);
    }

    /** One call. A call that fails ends the session; one refused at the door changes nothing. */
    method Drive(mode: Mode, now: int)
      returns (r: Result<Outcome>, ghost granted: set<string>, ghost offered: Option<Offer>)
      requires Valid()
      modifies this, world
      ensures Keeps(old(world.state), world.state, granted) && Valid() && running == old(running)
      ensures granted == {} || exists q :: granted == {q}
      ensures granted != {} ==> IsQuiet(old(world.state)) && old(handedOff).None? && !old(stopped) && !mode.Submit?
      ensures r.Success? ==> Settles(world.state, r.value)
      ensures r.Success? && r.value.HandedOff? ==>
        && mode.HandOff? && granted == {r.value.offer.questionId}
        && Granted(r.value.offer.questionId) !in old(world.state).trace
      ensures old(stopped) || old(running) || (old(handedOff).Some? && mode.RunNext?) ==>
        r.Failure? && world.state == old(world.state) && stopped == old(stopped)
      ensures !old(running) && !(old(handedOff).Some? && mode.RunNext?) && r.Failure? ==> stopped
      ensures r.Success? ==> (stopped <==> r.value.ReplyPending? || r.value.OfferRecoveryRequired?)
      // A call that is let in does what it is for.
      ensures !old(stopped) && !old(running) && mode.Submit? ==>
        SubmissionJudged(old(world.state), world.state, old(handedOff), mode.submission, r)
      ensures !old(stopped) && !old(running) && mode.HandOff? && old(handedOff).Some? ==>
        && world.state == old(world.state)
        && (world.healthy ==> r == Success(Open(old(handedOff).value)))
      ensures (&& !old(stopped) && !old(running) && !mode.Submit? && old(handedOff).None?
               && world.healthy && PendingInTime(old(world.state)))
              ==> Driven(old(world.state), world.state, offered, mode, now, r)
      ensures offered.Some? ==> granted == {offered.value.questionId}
    {
      hide Keeps, SessionLedger.Valid, SubmissionJudged, Driven, PendingInTime;
      granted, offered := {}, None;
      KeepsFromStart(world.state, {});
      if stopped {
        return Failure("cooperative_session_unavailable"), {}, None;
      }
      if running {
        return Failure("cooperative_session_busy"), {}, None;
      }
      if handedOff.Some? && mode.RunNext? {
        return Failure("cooperative_session_handoff_pending"), {}, None;
      }
      running := true;
      r, granted, offered := Attempt(mode, now);
      if r.Failure? {
        stopped := true;
      }
      running := false;
    }
  }

  // ---------------------------------------------------------------- whole runs

  /** One call, finished or cut short by a crash, or any other effect on the record: it keeps a valid record
      valid, and undoes nothing. */
  ghost predicate Call(before: Durable, after: Durable) {
    (Valid(before) ==> Valid(after)) && Grows(before, after)
  }

  /** Whatever the methods above promise of an outcome is such a call. */
  lemma KeepsIsCall(before: Durable, after: Durable, granted: set<string>)
    requires Keeps(before, after, granted)
    ensures Call(before, after)
  {
    hide Valid, Grows;
  }

  lemma {:induction false} RunKeeps(run: seq<Durable>)
    requires run != [] && Valid(run[0]) && Linked(Call, run)
    ensures Valid(run[|run| - 1]) && Grows(run[0], run[|run| - 1])
    decreases |run|
  {
    hide Valid, Grows;
    if |run| == 1 {
      KeepsFromStart(run[0], {});
      KeepsIsCall(run[0], run[0], {});
    } else {
      assert LinkedAt(Call, run, 0);
      forall i | 0 <= i < |run| - 2 ensures LinkedAt(Call, run[1..], i) {
        assert LinkedAt(Call, run, i + 1);
      }
      RunKeeps(run[1..]);
      GrowsCompose(run[0], run[1], run[|run| - 1]);
    }
  }

  /** Over any number of calls, crashes and restarts: a question is handed out at most once, and only after
      authorization, reserve, checkpoint, confirmed accept and claim; every answer ever sent for it is the one staged
      first; and
      what was staged at any moment is staged unchanged at the end. */
  lemma AnsweredAtMostOnce(run: seq<Durable>, q: string)
    requires run != [] && Valid(run[0]) && Linked(Call, run)
    ensures
      var end := run[|run| - 1];
      && multiset(end.trace)[Granted(q)] <= 1
      && (Granted(q) in end.trace ==>
            && Authorized(q) in end.trace && Reserved(q) in end.trace && Checkpointed(q) in end.trace
            && AcceptConfirmed(q) in end.trace && Consumed(q) in end.trace)
      && (forall a :: Replied(q, a) in end.trace ==> Granted(q) in end.trace && IsStaged(end, q, a))
      && (forall a :: IsStaged(run[0], q, a) ==> IsStaged(end, q, a))
  {
    hide TablesAgree, Obeys;
    RunKeeps(run);
    var end := run[|run| - 1];
    GrantsSpendClaims(end.trace, q);
    if Granted(q) in end.trace {
      GrantFollows(end.trace, q);
    }
    forall a | Replied(q, a) in end.trace ensures Granted(q) in end.trace && IsStaged(end, q, a) {
      var i :| 0 <= i < |end.trace| && end.trace[i] == Replied(q, a);
      ReplyWasStaged(end.trace, q, a, i);
      assert Staged(q, a) in end.trace;
    }
  }
}
