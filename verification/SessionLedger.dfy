/** What survives a crash of a cooperative session: the vault's tables, the one-shot replay claims, and the
    order in which effects became visible (packages/local-vault/src/index.ts,
    packages/cli/src/providerSessionChannel.ts).

    `Allowed` is the protocol: which effect may follow which. `Valid` says the effects so far obey it and
    the tables agree with them. Hashes are injective, so an offer or a completion stands for its own hash. */
module SessionLedger {
  import opened Outcomes

  datatype Offer = Offer(questionId: string, taskId: string, nonce: string, text: string, expiresAt: int)

  datatype Handoff = Handoff(offer: Offer, attemptId: string, createdAt: int)

  datatype Completion = Completion(questionId: string, taskId: string, answer: string, handoff: Option<Handoff>)

  datatype Checkpoint = Checkpoint(offer: Offer, settled: Option<Completion>)

  datatype StagedReply = StagedReply(completion: Completion, acknowledged: bool)

  datatype Event =
    | Authorized(q: string)                  // the question's content may be handed out
    | Reserved(q: string)
    | Checkpointed(q: string)
    | AcceptConfirmed(q: string)
    | Consumed(q: string)
    | HandoffRecorded(q: string)
    | Granted(q: string)                     // the question is handed to the agent that computes the answer
    | Staged(q: string, answer: string)
    | Replied(q: string, answer: string)     // an answered reply is put on the wire
    | FailureSent(q: string)                 // a failure is reported in place of an answer
    | ReceiptSeen(q: string, answer: string) // a reply receipt, or a remote read showing this answer
    | ExpirySeen(q: string)
    | AcceptedSeen(q: string)                // a remote read showing that the answer is still awaited
    | UnansweredSeen(q: string)              // a remote read showing anything else
    | Acknowledged(q: string)
    | Quarantined(q: string)

  datatype Durable = Durable(
    checkpoints: map<string, Checkpoint>,
    handoffs: map<string, string>,
    replies: map<string, StagedReply>,
    dispositions: set<string>,
    claims: set<string>,
    trace: seq<Event>)

  // ---------------------------------------------------------------- the protocol

  ghost predicate Allowed(past: seq<Event>, e: Event) {
    match e
    case Consumed(q) => e !in past
    case Granted(q) =>
      // Each grant spends a claim of its own; that there is only one claim is the claim's business.
      && multiset(past)[Granted(q)] < multiset(past)[Consumed(q)]
      && Authorized(q) in past && Reserved(q) in past && Checkpointed(q) in past && AcceptConfirmed(q) in past
    case Staged(q, answer) => Granted(q) in past && forall other :: Staged(q, other) in past ==> other == answer
    case Replied(q, answer) => Staged(q, answer) in past
    case Acknowledged(q) => exists answer :: Staged(q, answer) in past && ReceiptSeen(q, answer) in past
    case Quarantined(q) => ExpirySeen(q) in past && Acknowledged(q) !in past
    case _ => true
  }

  ghost predicate Obeys(trace: seq<Event>) {
    forall i :: 0 <= i < |trace| ==> Allowed(trace[..i], trace[i])
  }

  predicate IsPending(d: Durable, q: string) {
    q in d.replies && !d.replies[q].acknowledged && q !in d.dispositions
  }

  predicate IsUnsettled(d: Durable, q: string) {
    Unsettled(d.checkpoints, q)
  }

  predicate Unsettled(checkpoints: map<string, Checkpoint>, q: string) {
    q in checkpoints && checkpoints[q].settled.None?
  }

  /** No answer waits for delivery and no offer waits for an answer. */
  ghost predicate IsQuiet(d: Durable) {
    forall q :: !IsPending(d, q) && !IsUnsettled(d, q)
  }

  /** An answer to a hand-off names the hand-off and the offer on record. */
  predicate LinkedTo(checkpoints: map<string, Checkpoint>, handoffs: map<string, string>, c: Completion) {
    c.handoff.Some? ==>
      && c.questionId in handoffs && handoffs[c.questionId] == c.handoff.value.attemptId
      && c.questionId in checkpoints && checkpoints[c.questionId].offer == c.handoff.value.offer
      && c.handoff.value.offer.taskId == c.taskId
  }

  ghost predicate CheckpointsRecorded(trace: seq<Event>, checkpoints: map<string, Checkpoint>) {
    forall q :: Checkpointed(q) in trace ==> q in checkpoints
  }

  ghost predicate ClaimsRecorded(trace: seq<Event>, claims: set<string>) {
    forall q :: Consumed(q) in trace ==> q in claims
  }

  ghost predicate RepliesRecorded(trace: seq<Event>, replies: map<string, StagedReply>) {
    && (forall q, a :: Staged(q, a) in trace <==> q in replies && replies[q].completion.answer == a)
    && (forall q :: Acknowledged(q) in trace <==> q in replies && replies[q].acknowledged)
  }

  ghost predicate DispositionsRecorded(trace: seq<Event>, dispositions: set<string>) {
    forall q :: Quarantined(q) in trace <==> q in dispositions
  }

  ghost predicate Recorded(d: Durable) {
    && CheckpointsRecorded(d.trace, d.checkpoints) && ClaimsRecorded(d.trace, d.claims)
    && RepliesRecorded(d.trace, d.replies) && DispositionsRecorded(d.trace, d.dispositions)
  }

  ghost predicate OneUnsettled(checkpoints: map<string, Checkpoint>) {
    && (forall q :: q in checkpoints ==> checkpoints[q].offer.questionId == q)
    && (forall q, r :: Unsettled(checkpoints, q) && Unsettled(checkpoints, r) ==> q == r)
  }

  ghost predicate RepliesAgreeWith(checkpoints: map<string, Checkpoint>, handoffs: map<string, string>,
                                   replies: map<string, StagedReply>) {
    forall q :: q in replies ==>
      && replies[q].completion.questionId == q && q in checkpoints
      && LinkedTo(checkpoints, handoffs, replies[q].completion)
  }

  ghost predicate SettledTogether(checkpoints: map<string, Checkpoint>, replies: map<string, StagedReply>) {
    && (forall q :: q in checkpoints && checkpoints[q].settled.Some? ==>
          q in replies && replies[q] == StagedReply(checkpoints[q].settled.value, true))
    && (forall q :: q in replies && replies[q].acknowledged ==> q in checkpoints && checkpoints[q].settled.Some?)
  }

  ghost predicate DispositionsAgree(replies: map<string, StagedReply>, dispositions: set<string>) {
    forall q :: q in dispositions ==> q in replies && !replies[q].acknowledged
  }

  ghost predicate TablesAgree(d: Durable) {
    && OneUnsettled(d.checkpoints)
    && RepliesAgreeWith(d.checkpoints, d.handoffs, d.replies)
    && SettledTogether(d.checkpoints, d.replies)
    && DispositionsAgree(d.replies, d.dispositions)
  }

  ghost predicate Valid(d: Durable) {
    Obeys(d.trace) && Recorded(d) && TablesAgree(d)
  }

  /** Nothing durable is undone: effects, claims and records only accumulate, and a staged answer never changes. */
  ghost predicate Grows(before: Durable, after: Durable) {
    && before.trace <= after.trace
    && before.claims <= after.claims
    && before.dispositions <= after.dispositions
    && (forall q :: q in before.handoffs ==> q in after.handoffs && after.handoffs[q] == before.handoffs[q])
    && (forall q :: q in before.checkpoints ==>
          q in after.checkpoints && after.checkpoints[q].offer == before.checkpoints[q].offer)
    && (forall q :: q in before.replies ==>
          q in after.replies && after.replies[q].completion == before.replies[q].completion)
  }

  /** No question was handed out between the two. */
  ghost predicate SameGrants(before: Durable, after: Durable) {
    forall q :: Granted(q) in after.trace ==> Granted(q) in before.trace
  }

  lemma GrowsCompose(a: Durable, b: Durable, c: Durable)
    requires Grows(a, b) && Grows(b, c)
    ensures Grows(a, c)
    ensures forall e :: e in a.trace ==> e in c.trace
  {
    assert a.trace <= c.trace;
    assert c.trace[..|a.trace|] == a.trace;
  }

  // ---------------------------------------------------------------- one effect at a time

  function Log(d: Durable, e: Event): Durable {
    d.(trace := d.trace + [e])
  }

  function WithCheckpoint(d: Durable, offer: Offer): Durable {
    var q := offer.questionId;
    Log(if q in d.checkpoints then d else d.(checkpoints := d.checkpoints[q := Checkpoint(offer, None)]),
        Checkpointed(q))
  }

  function WithClaim(d: Durable, q: string): Durable {
    Log(d.(claims := d.claims + {q}), Consumed(q))
  }

  function WithHandoff(d: Durable, q: string, attemptId: string): Durable {
    Log(if q in d.handoffs then d else d.(handoffs := d.handoffs[q := attemptId]), HandoffRecorded(q))
  }

  function WithReply(d: Durable, c: Completion): Durable {
    Log(d.(replies := d.replies[c.questionId := StagedReply(c, false)]), Staged(c.questionId, c.answer))
  }

  /** Acknowledging the reply and settling the checkpoint is one transaction. */
  function WithAcknowledgment(d: Durable, q: string): Durable
    requires q in d.replies && q in d.checkpoints
  {
    var c := d.replies[q].completion;
    Log(d.(replies := d.replies[q := StagedReply(c, true)],
           checkpoints := d.checkpoints[q := Checkpoint(d.checkpoints[q].offer, Some(c))]),
        Acknowledged(q))
  }

  function WithQuarantine(d: Durable, q: string): Durable {
    Log(d.(dispositions := d.dispositions + {q}), Quarantined(q))
  }

  lemma ObeysNext(trace: seq<Event>, e: Event)
    requires Obeys(trace) && Allowed(trace, e)
    ensures Obeys(trace + [e])
  {
    forall i | 0 <= i < |trace| + 1 ensures Allowed((trace + [e])[..i], (trace + [e])[i]) {
      if i < |trace| {
        assert (trace + [e])[..i] == trace[..i];
      } else {
        assert (trace + [e])[..i] == trace;
      }
    }
  }

  /** Effects that touch no table. */
  predicate IsNote(e: Event) {
    e.Reserved? || e.AcceptConfirmed? || e.Granted? || e.Replied? || e.ReceiptSeen? || e.ExpirySeen?
    || e.AcceptedSeen? || e.UnansweredSeen? || e.Authorized? || e.HandoffRecorded? || e.FailureSent?
  }

  lemma NoteRecords(d: Durable, e: Event)
    requires Recorded(d) && IsNote(e)
    ensures Recorded(Log(d, e))
  {
    var more := d.trace + [e];
    assert forall x :: x != e ==> (x in more <==> x in d.trace);
  }

  lemma NoteKeeps(d: Durable, e: Event)
    requires Valid(d) && IsNote(e) && Allowed(d.trace, e)
    ensures Valid(Log(d, e)) && Grows(d, Log(d, e))
    ensures e.Granted? || SameGrants(d, Log(d, e))
  {
    hide Allowed, Obeys, Recorded, OneUnsettled, RepliesAgreeWith, SettledTogether, DispositionsAgree;
    ObeysNext(d.trace, e);
    NoteRecords(d, e);
  }

  lemma CheckpointAgrees(d: Durable, offer: Offer)
    requires TablesAgree(d)
    requires offer.questionId in d.checkpoints || forall q :: !Unsettled(d.checkpoints, q)
    ensures TablesAgree(WithCheckpoint(d, offer))
  {
    var e := WithCheckpoint(d, offer);
    assert forall q :: Unsettled(e.checkpoints, q) ==> Unsettled(d.checkpoints, q) || q == offer.questionId;
  }

  lemma CheckpointKeeps(d: Durable, offer: Offer)
    requires Valid(d)
    requires offer.questionId in d.checkpoints || forall q :: !Unsettled(d.checkpoints, q)
    ensures Valid(WithCheckpoint(d, offer))
    ensures Grows(d, WithCheckpoint(d, offer)) && SameGrants(d, WithCheckpoint(d, offer))
  {
    hide Obeys, TablesAgree;
    ObeysNext(d.trace, Checkpointed(offer.questionId));
    CheckpointAgrees(d, offer);
  }

  lemma ClaimKeeps(d: Durable, q: string)
    requires Valid(d) && q !in d.claims
    ensures Valid(WithClaim(d, q)) && Grows(d, WithClaim(d, q)) && SameGrants(d, WithClaim(d, q))
    ensures Granted(q) !in WithClaim(d, q).trace
  {
    hide OneUnsettled, RepliesAgreeWith, SettledTogether, DispositionsAgree;
    ObeysNext(d.trace, Consumed(q));
    if Granted(q) in d.trace {
      GrantFollows(d.trace, q);
    }
  }

  lemma HandoffAgrees(d: Durable, q: string, attemptId: string)
    requires Valid(d) && q !in d.handoffs
    ensures Valid(d.(handoffs := d.handoffs[q := attemptId]))
  {
    hide Obeys;
  }

  lemma HandoffKeeps(d: Durable, q: string, attemptId: string)
    requires Valid(d)
    ensures Valid(WithHandoff(d, q, attemptId)) && Grows(d, WithHandoff(d, q, attemptId))
    ensures SameGrants(d, WithHandoff(d, q, attemptId))
  {
    hide Valid;
    if q !in d.handoffs {
      HandoffAgrees(d, q, attemptId);
    }
    NoteKeeps(if q in d.handoffs then d else d.(handoffs := d.handoffs[q := attemptId]), HandoffRecorded(q));
  }

  lemma ReplyRecorded(trace: seq<Event>, replies: map<string, StagedReply>, c: Completion)
    requires RepliesRecorded(trace, replies) && c.questionId !in replies
    ensures RepliesRecorded(trace + [Staged(c.questionId, c.answer)], replies[c.questionId := StagedReply(c, false)])
  {
  }

  lemma ReplyAgrees(d: Durable, c: Completion)
    requires TablesAgree(d) && c.questionId !in d.replies
    requires c.questionId in d.checkpoints && LinkedTo(d.checkpoints, d.handoffs, c)
    ensures TablesAgree(WithReply(d, c))
  {
    assert d.checkpoints[c.questionId].settled.None?;
  }

  lemma ReplyKeeps(d: Durable, c: Completion)
    requires Valid(d) && c.questionId !in d.replies
    requires Granted(c.questionId) in d.trace && c.questionId in d.checkpoints
    requires LinkedTo(d.checkpoints, d.handoffs, c)
    ensures Valid(WithReply(d, c)) && Grows(d, WithReply(d, c)) && SameGrants(d, WithReply(d, c))
  {
    hide Obeys, RepliesRecorded, TablesAgree, LinkedTo;
    ReplyFollows(d, c);
    ObeysNext(d.trace, Staged(c.questionId, c.answer));
    ReplyRecorded(d.trace, d.replies, c);
    ReplyAgrees(d, c);
  }

  lemma ReplyFollows(d: Durable, c: Completion)
    requires RepliesRecorded(d.trace, d.replies) && c.questionId !in d.replies && Granted(c.questionId) in d.trace
    ensures Allowed(d.trace, Staged(c.questionId, c.answer))
  {
  }

  lemma AcknowledgmentRecorded(trace: seq<Event>, replies: map<string, StagedReply>, q: string)
    requires RepliesRecorded(trace, replies) && q in replies
    ensures RepliesRecorded(trace + [Acknowledged(q)], replies[q := StagedReply(replies[q].completion, true)])
  {
    var more, renewed := trace + [Acknowledged(q)], replies[q := StagedReply(replies[q].completion, true)];
    forall r, a ensures Staged(r, a) in more <==> r in renewed && renewed[r].completion.answer == a {
      assert Staged(r, a) in more <==> Staged(r, a) in trace;
    }
    forall r ensures Acknowledged(r) in more <==> r in renewed && renewed[r].acknowledged {
      assert Acknowledged(r) in more <==> Acknowledged(r) in trace || r == q;
    }
  }

  lemma AcknowledgmentSettles(d: Durable, q: string)
    requires TablesAgree(d) && q in d.replies && q !in d.dispositions && q in d.checkpoints
    ensures TablesAgree(WithAcknowledgment(d, q))
  {
    var e := WithAcknowledgment(d, q);
    assert forall r :: Unsettled(e.checkpoints, r) ==> Unsettled(d.checkpoints, r);
    assert OneUnsettled(e.checkpoints);
    assert RepliesAgreeWith(e.checkpoints, e.handoffs, e.replies);
  }

  lemma AcknowledgmentFollows(d: Durable, q: string)
    requires RepliesRecorded(d.trace, d.replies) && q in d.replies
    requires ReceiptSeen(q, d.replies[q].completion.answer) in d.trace
    ensures Allowed(d.trace, Acknowledged(q))
  {
    assert Staged(q, d.replies[q].completion.answer) in d.trace;
  }

  lemma AcknowledgmentKeeps(d: Durable, q: string)
    requires Valid(d) && q in d.replies && q !in d.dispositions && q in d.checkpoints
    requires ReceiptSeen(q, d.replies[q].completion.answer) in d.trace
    ensures Valid(WithAcknowledgment(d, q))
    ensures Grows(d, WithAcknowledgment(d, q)) && SameGrants(d, WithAcknowledgment(d, q))
  {
    hide Allowed, Obeys, RepliesRecorded, TablesAgree;
    AcknowledgmentFollows(d, q);
    ObeysNext(d.trace, Acknowledged(q));
    AcknowledgmentRecorded(d.trace, d.replies, q);
    AcknowledgmentSettles(d, q);
  }

  lemma QuarantineRecords(d: Durable, q: string)
    requires Recorded(d)
    ensures Recorded(WithQuarantine(d, q))
  {
    var more := d.trace + [Quarantined(q)];
    assert forall x :: x != Quarantined(q) ==> (x in more <==> x in d.trace);
  }

  lemma QuarantineFollows(d: Durable, q: string)
    requires RepliesRecorded(d.trace, d.replies) && q in d.replies && !d.replies[q].acknowledged
    requires ExpirySeen(q) in d.trace
    ensures Allowed(d.trace, Quarantined(q))
  {
  }

  lemma QuarantineKeeps(d: Durable, q: string)
    requires Valid(d) && q in d.replies && !d.replies[q].acknowledged && ExpirySeen(q) in d.trace
    ensures Valid(WithQuarantine(d, q)) && Grows(d, WithQuarantine(d, q)) && SameGrants(d, WithQuarantine(d, q))
  {
    hide Allowed, Obeys, CheckpointsRecorded, ClaimsRecorded, RepliesRecorded, DispositionsRecorded, RepliesAgreeWith,
      SettledTogether, OneUnsettled;
    QuarantineFollows(d, q);
    ObeysNext(d.trace, Quarantined(q));
    QuarantineRecords(d, q);
  }

  // ---------------------------------------------------------------- what obeying it means

  /** No grant without a claim of its own, and no second claim: a question is handed out at most once. */
  lemma {:induction false} GrantsSpendClaims(trace: seq<Event>, q: string)
    requires Obeys(trace)
    ensures multiset(trace)[Granted(q)] <= multiset(trace)[Consumed(q)] <= 1
  {
    hide Obeys, Allowed;
    if trace != [] {
      var last := |trace| - 1;
      ObeysAt(trace, last);
      ObeysFront(trace, last);
      GrantsSpendClaims(trace[..last], q);
      OneMoreSpends(trace[..last], trace[last], q);
      assert trace == trace[..last] + [trace[last]];
    }
  }

  lemma OneMoreSpends(past: seq<Event>, e: Event, q: string)
    requires Allowed(past, e) && multiset(past)[Granted(q)] <= multiset(past)[Consumed(q)] <= 1
    ensures multiset(past + [e])[Granted(q)] <= multiset(past + [e])[Consumed(q)] <= 1
  {
    assert multiset(past + [e]) == multiset(past) + multiset{e};
    if e == Consumed(q) {
      assert multiset(past)[Consumed(q)] == 0;
    }
  }

  lemma GrantFollows(trace: seq<Event>, q: string)
    requires Obeys(trace) && Granted(q) in trace
    ensures Authorized(q) in trace && Reserved(q) in trace && Checkpointed(q) in trace && AcceptConfirmed(q) in trace
    ensures Consumed(q) in trace
  {
    var i :| 0 <= i < |trace| && trace[i] == Granted(q);
    ObeysAt(trace, i);
    assert forall x :: x in trace[..i] ==> x in trace;
    assert Consumed(q) in multiset(trace[..i]);
  }

  lemma ObeysFront(trace: seq<Event>, n: nat)
    requires Obeys(trace) && n <= |trace|
    ensures Obeys(trace[..n])
  {
    forall i | 0 <= i < n ensures Allowed(trace[..n][..i], trace[..n][i]) {
      assert trace[..n][..i] == trace[..i];
    }
  }

  lemma ObeysAt(trace: seq<Event>, i: nat)
    requires Obeys(trace) && i < |trace|
    ensures Allowed(trace[..i], trace[i])
  {
  }

  lemma StagedAgree(trace: seq<Event>, q: string, first: string, second: string)
    requires Obeys(trace) && Staged(q, first) in trace && Staged(q, second) in trace
    ensures first == second
  {
    var i :| 0 <= i < |trace| && trace[i] == Staged(q, first);
    var j :| 0 <= j < |trace| && trace[j] == Staged(q, second);
    var later := if i < j then j else i;
    assert Allowed(trace[..later], trace[later]);
    assert i < later ==> trace[..later][i] == Staged(q, first);
    assert j < later ==> trace[..later][j] == Staged(q, second);
  }

  /** Every answer on the wire was staged first, after the one grant, and is the only one ever sent. */
  lemma RepliesAgree(trace: seq<Event>, q: string, first: string, second: string, i: nat, j: nat)
    requires Obeys(trace) && i < |trace| && j < |trace|
    requires trace[i] == Replied(q, first) && trace[j] == Replied(q, second)
    ensures first == second
    ensures Staged(q, first) in trace[..i] && Granted(q) in trace[..i]
  {
    ReplyWasStaged(trace, q, first, i);
    ReplyWasStaged(trace, q, second, j);
    StagedAgree(trace, q, first, second);
  }

  lemma ReplyWasStaged(trace: seq<Event>, q: string, answer: string, i: nat)
    requires Obeys(trace) && i < |trace| && trace[i] == Replied(q, answer)
    ensures Staged(q, answer) in trace[..i] && Granted(q) in trace[..i] && Staged(q, answer) in trace
  {
    hide Obeys;
    ObeysAt(trace, i);
    var k :| 0 <= k < i && trace[k] == Staged(q, answer);
    ObeysAt(trace, k);
    assert Granted(q) in trace[..k];
    assert forall x :: x in trace[..k] ==> x in trace[..i];
  }

  /** A staged answer is pending until it is acknowledged on a receipt for that very answer, or quarantined
      on an observed expiry; and it is never both. */
  lemma PendingUntilSettled(d: Durable, q: string, answer: string)
    requires Valid(d) && Staged(q, answer) in d.trace
    ensures IsPending(d, q) <==> Acknowledged(q) !in d.trace && Quarantined(q) !in d.trace
    ensures Acknowledged(q) in d.trace ==> ReceiptSeen(q, answer) in d.trace && Quarantined(q) !in d.trace
    ensures Quarantined(q) in d.trace ==> ExpirySeen(q) in d.trace
  {
    if Acknowledged(q) in d.trace {
      var i :| 0 <= i < |d.trace| && d.trace[i] == Acknowledged(q);
      assert Allowed(d.trace[..i], d.trace[i]);
      var other :| Staged(q, other) in d.trace[..i] && ReceiptSeen(q, other) in d.trace[..i];
      assert Staged(q, other) in d.trace;
    }
    if Quarantined(q) in d.trace {
      var i :| 0 <= i < |d.trace| && d.trace[i] == Quarantined(q);
      assert Allowed(d.trace[..i], d.trace[i]);
    }
  }

  /** A quarantined answer leaves its offer unsettled for good: from then on no further offer can be
      checkpointed, in this run or any later one. */
  lemma QuarantineBlocks(before: Durable, after: Durable, q: string)
    requires Valid(before) && Valid(after) && Grows(before, after)
    requires q in before.dispositions
    ensures IsUnsettled(after, q)
    ensures forall r :: r in after.checkpoints && r != q ==> after.checkpoints[r].settled.Some?
    ensures !IsQuiet(after)
  {
    hide Obeys, Recorded;
    assert q in after.dispositions && Unsettled(after.checkpoints, q);
    forall r | r in after.checkpoints && r != q ensures after.checkpoints[r].settled.Some? {
      assert !Unsettled(after.checkpoints, r);
    }
  }
}
