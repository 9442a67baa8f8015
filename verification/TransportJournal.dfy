/** The transport continuity journal: which certificate is current, across crashes
    (packages/cli/src/demoTransportState.ts).

    An acceptance writes a journal, then the main account, then clears the journal. The question
    the protocol answers is what the next successful restore will find; `Decided` names it. */
module TransportJournal {
  import opened Outcomes
  import opened Runs
  import opened SecureStorage

  const STATE_BYTES := 65_536
  const JOURNAL_BYTES := 140_000
  const LONGEST_CERTIFICATE := 600_000

  // ---------------------------------------------------------------- data

  datatype Identity = Identity(organizationId: string, repositoryId: string, deviceId: string,
                               installationId: string, publicKey: string, enrollmentOrigin: string)

  datatype Key = Key(version: string, publicKey: string, isActive: bool, notBefore: string, notAfter: string)

  /** Canonical JSON is injective, so a keyset stands for its own text and its own hash. */
  datatype Keyset = Keyset(organizationId: string, generation: int, keys: seq<Key>, signedBy: string,
                           issuedAt: string, expiresAt: string, signature: string)

  /** A timestamp as an instant and as it was spelled. */
  datatype Stamp = Stamp(ms: int, spelling: string)

  datatype Certificate = Certificate(identity: Identity, transportOrigin: string, requestNonce: string,
                                     policyRevision: int, trustGeneration: int, installedKeyset: Keyset,
                                     issuedAt: Stamp, expiresAt: Stamp, signature: string)

  datatype State = State(certificate: Certificate, verifiedKeyset: Keyset, acceptedAt: int)

  /** SHA-256 is injective: a digest is the text it was taken of. */
  datatype Digest = Sha256(text: Raw)

  datatype Journal = Journal(previousState: Option<Raw>, previousStateHash: Digest, nextState: Raw)

  /** Stored text: the canonical form of a state or of a journal, or any other text. */
  datatype Raw = StateText(state: State) | JournalText(journal: Journal) | OtherText(text: string)

  datatype Account = MainAccount(owner: Identity) | JournalAccount(owner: Identity) | Unrelated(name: string)

  datatype Binding = Binding(identity: Identity, protectedKeyset: Keyset, minimumPolicyRevision: int)

  datatype Expected = Expected(transportOrigin: string, requestNonce: string)

  datatype Resolution =
    | Original(origin: string)
    | Ready(certificate: Certificate)
    | RefreshRequired(lastOrigin: string, policyRevision: int)

  datatype Acceptance = Acceptance(certificate: Certificate, duplicate: bool)

  /** What the model leaves open: schemas, signatures, key lifetimes and the length of a text. */
  datatype Checks = Checks(
    head: (Binding, int) -> bool,
    authority: (Keyset, Identity, int) -> bool,
    certificate: (Certificate, Keyset) -> bool,
    bytes: Raw -> nat)

  type Store = map<Account, Raw>

  function EmptyIfNull(raw: Option<Raw>): Raw {
    match raw
    case None => OtherText("")
    case Some(text) => text
  }

  // ---------------------------------------------------------------- plain checks

  predicate Follows(previous: Certificate, next: Certificate) {
    && previous.policyRevision <= next.policyRevision
    && (previous.policyRevision == next.policyRevision ==> previous.transportOrigin == next.transportOrigin)
  }

  predicate KeysetFollows(previous: Keyset, next: Keyset) {
    && previous.generation <= next.generation
    && (previous.generation == next.generation ==> previous == next)
  }

  predicate Verifies(checks: Checks, certificate: Certificate, binding: Binding, expected: Expected,
                     previous: Option<Certificate>, now: int)
  {
    && checks.authority(binding.protectedKeyset, binding.identity, now)
    && certificate.identity == binding.identity
    && certificate.transportOrigin == expected.transportOrigin
    && certificate.requestNonce == expected.requestNonce
    && certificate.trustGeneration == binding.protectedKeyset.generation
    && certificate.installedKeyset == binding.protectedKeyset
    && binding.minimumPolicyRevision <= certificate.policyRevision
    && (previous.Some? ==> Follows(previous.value, certificate))
    && certificate.issuedAt.ms <= now < certificate.expiresAt.ms
    && certificate.expiresAt.ms - certificate.issuedAt.ms <= LONGEST_CERTIFICATE
    && checks.certificate(certificate, binding.protectedKeyset)
  }

  predicate TransitionAllowed(previous: Option<State>, next: State) {
    previous.Some? ==>
      && Follows(previous.value.certificate, next.certificate)
      && KeysetFollows(previous.value.verifiedKeyset, next.verifiedKeyset)
  }

  function VerifiedState(checks: Checks, raw: Raw, binding: Binding, now: int): (r: Result<State>)
    ensures r.Success? <==> Stands(checks, raw, binding, now)
    ensures r.Success? ==> raw == StateText(r.value)
  {
    if !raw.StateText? || checks.bytes(raw) > STATE_BYTES then Failure("state_invalid")
    else
      var State(c, keyset, acceptedAt) := raw.state;
      if acceptedAt > now then Failure("state_invalid")
      else if !Verifies(checks, c, Binding(binding.identity, keyset, 1), Expected(c.transportOrigin, c.requestNonce),
                        None, acceptedAt) then
        Failure("continuity_rejected")
      else if keyset.generation > binding.protectedKeyset.generation then Failure("protected_generation_rollback")
      else if keyset.generation == binding.protectedKeyset.generation && keyset != binding.protectedKeyset then
        Failure("protected_generation_conflict")
      else Success(raw.state)
  }

  predicate JournalReadable(checks: Checks, raw: Raw) {
    && checks.bytes(raw) <= JOURNAL_BYTES
    && raw.JournalText?
    && raw.journal.previousStateHash == Sha256(EmptyIfNull(raw.journal.previousState))
  }

  /** The main account may hold either end of the journal, or nothing at all while it is replaced. */
  predicate MainIsInvolved(main: Option<Raw>, journal: Journal) {
    main.None? || main == journal.previousState || main == Some(journal.nextState)
  }

  predicate HeadValid(checks: Checks, binding: Binding, now: int) {
    binding.minimumPolicyRevision >= 1 && checks.head(binding, now)
  }

  // ---------------------------------------------------------------- what the checks are for

  /** A certificate answers a request at one moment: it is of this device, to this origin and nonce, made under the
      protected keyset, not below the minimum or what is decided, alive, and not for longer than ten minutes. */
  ghost predicate Answers(checks: Checks, c: Certificate, binding: Binding, expected: Expected, decided: Option<Raw>,
                          now: int)
  {
    && c.identity == binding.identity
    && Expected(c.transportOrigin, c.requestNonce) == expected
    && c.installedKeyset == binding.protectedKeyset && c.trustGeneration == c.installedKeyset.generation
    && c.policyRevision >= binding.minimumPolicyRevision
    && (decided.Some? && decided.value.StateText? ==> Supersedes(decided.value.state.certificate, c))
    && c.issuedAt.ms <= now < c.expiresAt.ms <= c.issuedAt.ms + 600_000
    && checks.authority(binding.protectedKeyset, binding.identity, now)
    && checks.certificate(c, binding.protectedKeyset)
  }

  /** A higher revision, or the same one to the same origin. */
  ghost predicate Supersedes(previous: Certificate, next: Certificate) {
    || previous.policyRevision < next.policyRevision
    || (previous.policyRevision == next.policyRevision && previous.transportOrigin == next.transportOrigin)
  }

  ghost predicate NotAhead(keyset: Keyset, protectedKeyset: Keyset) {
    keyset.generation < protectedKeyset.generation || keyset == protectedKeyset
  }

  ghost predicate Succeeds(previous: State, next: State) {
    Supersedes(previous.certificate, next.certificate) && NotAhead(previous.verifiedKeyset, next.verifiedKeyset)
  }

  /** A state whose certificate answered a request when it was accepted; no later clock or keyset can change that. */
  ghost predicate Vouched(checks: Checks, owner: Identity, raw: Raw) {
    && raw.StateText? && checks.bytes(raw) <= 65_536
    && var State(c, keyset, acceptedAt) := raw.state;
       Answers(checks, c, Binding(owner, keyset, 1), Expected(c.transportOrigin, c.requestNonce), None, acceptedAt)
  }

  /** Such a state, not accepted in the future and not under a keyset ahead of the protected one. */
  ghost predicate Stands(checks: Checks, raw: Raw, binding: Binding, now: int) {
    && Vouched(checks, binding.identity, raw)
    && raw.state.acceptedAt <= now
    && NotAhead(raw.state.verifiedKeyset, binding.protectedKeyset)
  }

  lemma VerifiesMeans(checks: Checks, c: Certificate, binding: Binding, expected: Expected, decided: Option<Raw>,
                      now: int)
    ensures Verifies(checks, c, binding, expected, CurrentCertificate(decided), now) <==>
            Answers(checks, c, binding, expected, decided, now)
  {
  }

  lemma AnswersOnItsOwn(checks: Checks, c: Certificate, binding: Binding, expected: Expected, decided: Option<Raw>,
                        now: int)
    requires Answers(checks, c, binding, expected, decided, now)
    ensures Answers(checks, c, binding, expected, None, now)
  {
  }

  /** The certificate answered the request at some moment between the two, on a host whose clock can be trusted. */
  ghost predicate Answered(checks: Checks, c: Certificate, binding: Binding, expected: Expected, decided: Option<Raw>,
                           healthy: bool, from: int, to: int)
  {
    exists t :: (healthy ==> from <= t <= to) && Answers(checks, c, binding, expected, decided, t)
  }

  ghost predicate HeadSeen(checks: Checks, binding: Binding, healthy: bool, from: int, to: int) {
    binding.minimumPolicyRevision >= 1 && exists t :: (healthy ==> from <= t <= to) && checks.head(binding, t)
  }

  lemma SeenStill(checks: Checks, binding: Binding, healthy: bool, from: int, to: int, later: int)
    requires HeadSeen(checks, binding, healthy, from, to) && (healthy ==> to <= later)
    ensures HeadSeen(checks, binding, healthy, from, later)
  {
  }

  // ---------------------------------------------------------------- what a store means

  /** The state the next successful restore yields: the journal's new state once a journal is durable. */
  ghost function Decided(store: Store, owner: Identity): Option<Raw> {
    if JournalAccount(owner) in store && store[JournalAccount(owner)].JournalText? then
      Some(store[JournalAccount(owner)].journal.nextState)
    else
      Lookup(store, MainAccount(owner))
  }

  ghost predicate JournalConsistent(checks: Checks, owner: Identity, main: Option<Raw>, raw: Raw) {
    && raw.JournalText?
    && var j := raw.journal;
       && j.previousStateHash == Sha256(EmptyIfNull(j.previousState))
       && Vouched(checks, owner, j.nextState)
       && (j.previousState.Some? ==>
             && Vouched(checks, owner, j.previousState.value)
             && Succeeds(j.previousState.value.state, j.nextState.state))
       && main in {None, j.previousState, Some(j.nextState)}
  }

  /** Holds of an empty store and after every call, finished or not. */
  ghost predicate Consistent(checks: Checks, store: Store, owner: Identity) {
    if JournalAccount(owner) in store then
      JournalConsistent(checks, owner, Lookup(store, MainAccount(owner)), store[JournalAccount(owner)])
    else
      MainAccount(owner) in store ==> Vouched(checks, owner, store[MainAccount(owner)])
  }

  ghost predicate OnlyThisAccount(before: Store, after: Store, owner: Identity) {
    before - {MainAccount(owner), JournalAccount(owner)} == after - {MainAccount(owner), JournalAccount(owner)}
  }

  ghost predicate EndsStand(checks: Checks, journal: Journal, binding: Binding, now: int) {
    && Stands(checks, journal.nextState, binding, now)
    && (journal.previousState.Some? ==>
          && Stands(checks, journal.previousState.value, binding, now)
          && Succeeds(journal.previousState.value.state, journal.nextState.state))
  }

  /** Everything `restoredState` looks at besides the head check and the store's own failures. */
  ghost predicate Restorable(checks: Checks, store: Store, binding: Binding, now: int) {
    var owner := binding.identity;
    && JournalUsable(checks, store, owner)
    && if JournalAccount(owner) in store then EndsStand(checks, store[JournalAccount(owner)].journal, binding, now)
       else MainAccount(owner) in store ==> Stands(checks, store[MainAccount(owner)], binding, now)
  }

  ghost predicate HeadHolds(checks: Checks, binding: Binding, from: int, to: int) {
    binding.minimumPolicyRevision >= 1 && forall t :: from <= t <= to ==> checks.head(binding, t)
  }

  /** The store's journal is one that `restoredState` can take up at all: short enough, a journal, of what it says it
      is, and with the main account at either of its ends or removed. */
  ghost predicate JournalUsable(checks: Checks, store: Store, owner: Identity) {
    JournalAccount(owner) in store ==>
      var raw := store[JournalAccount(owner)];
      && checks.bytes(raw) <= 140_000 && raw.JournalText?
      && raw.journal.previousStateHash == Sha256(EmptyIfNull(raw.journal.previousState))
      && Lookup(store, MainAccount(owner)) in {None, raw.journal.previousState, Some(raw.journal.nextState)}
  }

  /** The state an acceptance may decide on in place of `before`. */
  ghost predicate Advances(checks: Checks, owner: Identity, before: Option<Raw>, after: Option<Raw>) {
    && after.Some? && Vouched(checks, owner, after.value)
    && (before.Some? && before.value.StateText? ==> Succeeds(before.value.state, after.value.state))
  }

  ghost predicate NewState(decided: Option<Raw>, candidate: Certificate, binding: Binding) {
    && decided.Some? && decided.value.StateText?
    && decided.value.state.certificate == candidate
    && decided.value.state.verifiedKeyset == binding.protectedKeyset
  }

  /** What every write of a restore keeps, wherever it stops. */
  ghost predicate Keeps(checks: Checks, owner: Identity, before: Store, after: Store) {
    && OnlyThisAccount(before, after, owner)
    && Decided(after, owner) == Decided(before, owner)
    && (Consistent(checks, before, owner) ==> Consistent(checks, after, owner))
  }

  lemma ReplacingMainKeeps(checks: Checks, owner: Identity, before: Store, journal: Journal, after: Store)
    requires Lookup(before, JournalAccount(owner)) == Some(JournalText(journal))
    requires PutLeaves(before, MainAccount(owner), journal.nextState, after)
    ensures Keeps(checks, owner, before, after)
    ensures Lookup(after, JournalAccount(owner)) == Some(JournalText(journal))
  {
    assert OnlyThisAccount(before, after, owner);
  }

  lemma ClearingJournalKeeps(checks: Checks, owner: Identity, before: Store, journal: Journal, after: Store)
    requires Lookup(before, JournalAccount(owner)) == Some(JournalText(journal))
    requires Lookup(before, MainAccount(owner)) == Some(journal.nextState)
    requires after == before || after == before - {JournalAccount(owner)}
    ensures Keeps(checks, owner, before, after)
    ensures Lookup(after, MainAccount(owner)) == Some(journal.nextState)
  {
    assert OnlyThisAccount(before, after, owner);
  }

  /** What any call, finished or interrupted, does to a store. */
  ghost predicate CallEffect(checks: Checks, owner: Identity, before: Store, after: Store) {
    && OnlyThisAccount(before, after, owner)
    && (Consistent(checks, before, owner) ==> Consistent(checks, after, owner))
    && (|| Decided(after, owner) == Decided(before, owner)
        || Advances(checks, owner, Decided(before, owner), Decided(after, owner)))
  }

  /** Everything an acceptance needs of the candidate while the clock runs from `from` to `to`. */
  ghost predicate CandidateHolds(checks: Checks, candidate: Certificate, binding: Binding, expected: Expected,
                                 decided: Option<Raw>, from: int, to: int)
  {
    forall t :: from <= t <= to ==>
         && Answers(checks, candidate, binding, expected, decided, t)
         && checks.bytes(NextState(candidate, binding, t)) <= STATE_BYTES
  }

  ghost predicate JournalFits(checks: Checks, decided: Option<Raw>, candidate: Certificate, binding: Binding,
                              from: int, to: int)
  {
    forall t :: from <= t <= to ==>
      checks.bytes(JournalFor(decided, NextState(candidate, binding, t))) <= JOURNAL_BYTES
  }

  ghost predicate JournalNeverFits(checks: Checks, decided: Option<Raw>, candidate: Certificate, binding: Binding,
                                   from: int, to: int)
  {
    forall t :: from <= t <= to ==>
      checks.bytes(JournalFor(decided, NextState(candidate, binding, t))) > JOURNAL_BYTES
  }

  /** Nothing but the store's health and the journal's length is left to decide the acceptance. */
  ghost predicate Due(checks: Checks, store: Store, candidate: Certificate, binding: Binding, expected: Expected,
                      from: int, to: int)
  {
    && HeadHolds(checks, binding, from, to)
    && Restorable(checks, store, binding, from)
    && CandidateHolds(checks, candidate, binding, expected, Decided(store, binding.identity), from, to)
  }

  function CurrentCertificate(decided: Option<Raw>): Option<Certificate> {
    if decided.Some? && decided.value.StateText? then Some(decided.value.state.certificate) else None
  }

  function NextState(candidate: Certificate, binding: Binding, acceptedAt: int): Raw {
    StateText(State(candidate, binding.protectedKeyset, acceptedAt))
  }

  ghost predicate HoldsCertificate(decided: Option<Raw>, certificate: Certificate) {
    decided.Some? && decided.value.StateText? && decided.value.state.certificate == certificate
  }

  // ---------------------------------------------------------------- the calls

  method ReplaceMain(host: Host<Account, Raw>, ghost checks: Checks, owner: Identity, journal: Journal)
    returns (r: Result<()>)
    requires Lookup(host.contents, JournalAccount(owner)) == Some(JournalText(journal))
    requires host.Ticks()
    modifies host`contents, host`wroteAt
    ensures host.Ticks()
    ensures Keeps(checks, owner, old(host.contents), host.contents)
    ensures Lookup(host.contents, JournalAccount(owner)) == Some(JournalText(journal))
    ensures r.Success? ==> Lookup(host.contents, MainAccount(owner)) == Some(journal.nextState)
    ensures host.healthy ==> r.Success?
  {
    r := host.ConfirmedPut(MainAccount(owner), journal.nextState, "secure_store_write_unconfirmed");
    ReplacingMainKeeps(checks, owner, old(host.contents), journal, host.contents);
  }

  method ClearJournal(host: Host<Account, Raw>, ghost checks: Checks, owner: Identity, ghost journal: Journal)
    returns (r: Result<()>)
    requires Lookup(host.contents, JournalAccount(owner)) == Some(JournalText(journal))
    requires Lookup(host.contents, MainAccount(owner)) == Some(journal.nextState)
    requires host.Ticks()
    modifies host`contents, host`wroteAt
    ensures host.Ticks()
    ensures Keeps(checks, owner, old(host.contents), host.contents)
    ensures r.Success? ==> JournalAccount(owner) !in host.contents
    ensures r.Success? ==> Lookup(host.contents, MainAccount(owner)) == Some(journal.nextState)
    ensures host.healthy ==> r.Success?
  {
    var deleted := host.Delete(JournalAccount(owner));
    ClearingJournalKeeps(checks, owner, old(host.contents), journal, host.contents);
    if deleted.Failure? {
      return deleted;
    }
    var left :- host.Fresh(JournalAccount(owner));
    if left != None {
      return Failure("secure_store_write_unconfirmed");
    }
    return Success(());
  }

  /** Everything checked before a journal is acted on; writes nothing. */
  method CheckJournal(host: Host<Account, Raw>, checks: Checks, binding: Binding, journal: Journal)
    returns (r: Result<()>)
    requires host.Ticks()
    modifies host`time
    ensures host.Ticks() && (host.healthy ==> old(host.time) <= host.time)
    ensures r.Success? ==> Vouched(checks, binding.identity, journal.nextState)
    ensures r.Success? && host.healthy ==> EndsStand(checks, journal, binding, host.time)
    ensures host.healthy && EndsStand(checks, journal, binding, old(host.time)) ==> r.Success?
  {
    var previous: Option<State> := None;
    if journal.previousState.Some? {
      var at := host.Now();
      var verified :- VerifiedState(checks, journal.previousState.value, binding, at);
      previous := Some(verified);
    }
    var now := host.Now();
    var next :- VerifiedState(checks, journal.nextState, binding, now);
    if !TransitionAllowed(previous, next) {
      return Failure("policy_revision_conflict");
    }
    return Success(());
  }

  /** The journal half of `restoredState`. */
  method FinishJournal(host: Host<Account, Raw>, checks: Checks, binding: Binding,
                       pending: Raw, current: Option<Raw>) returns (r: Result<Raw>)
    requires host.Ticks()
    requires Lookup(host.contents, JournalAccount(binding.identity)) == Some(pending)
    requires Lookup(host.contents, MainAccount(binding.identity)) == current
    modifies host`contents, host`wroteAt, host`time
    ensures host.Ticks() && (host.healthy ==> old(host.time) <= host.time)
    ensures Keeps(checks, binding.identity, old(host.contents), host.contents)
    ensures r.Success? ==>
              && JournalAccount(binding.identity) !in host.contents
              && Some(r.value) == Decided(old(host.contents), binding.identity)
              && Some(r.value) == Lookup(host.contents, MainAccount(binding.identity))
              && Vouched(checks, binding.identity, r.value)
              && (host.healthy ==> Restorable(checks, old(host.contents), binding, host.time))
    ensures !JournalUsable(checks, old(host.contents), binding.identity) ==>
              r.Failure? && host.contents == old(host.contents)
    ensures (host.healthy && Restorable(checks, old(host.contents), binding, old(host.time))) ==> r.Success?
  {
    var owner := binding.identity;
    if !JournalReadable(checks, pending) {
      return Failure("journal_invalid");
    }
    var journal := pending.journal;
    if !MainIsInvolved(current, journal) {
      return Failure("journal_conflict");
    }
    var _ :- CheckJournal(host, checks, binding, journal);
    var pendingAgain :- host.Fresh(JournalAccount(owner));
    if pendingAgain != Some(pending) {
      return Failure("journal_conflict");
    }
    var rechecked :- host.Fresh(MainAccount(owner));
    if rechecked != current {
      return Failure("journal_conflict");
    }
    if current != Some(journal.nextState) {
      var _ :- ReplaceMain(host, checks, owner, journal);
    }
    var _ :- ClearJournal(host, checks, owner, journal);
    return Success(journal.nextState);
  }

  method RestoredState(host: Host<Account, Raw>, checks: Checks, binding: Binding)
    returns (r: Result<Option<Raw>>)
    requires host.Ticks()
    modifies host`contents, host`wroteAt, host`time
    ensures host.Ticks() && (host.healthy ==> old(host.time) <= host.time)
    // Neither a finished restore nor an interrupted one changes what is decided.
    ensures Keeps(checks, binding.identity, old(host.contents), host.contents)
    // A restore that answers has finished the journal and answers what was decided.
    ensures r.Success? ==>
              && JournalAccount(binding.identity) !in host.contents
              && r.value == Decided(old(host.contents), binding.identity)
              && r.value == Lookup(host.contents, MainAccount(binding.identity))
              && (r.value.Some? ==> Stands(checks, r.value.value, binding, host.time))
    ensures r.Success? && host.healthy ==> Restorable(checks, old(host.contents), binding, host.time)
    // Nothing is done, and nothing answered, under a head that was not valid.
    ensures r.Success? || host.contents != old(host.contents) ==>
              HeadSeen(checks, binding, host.healthy, old(host.time), host.time)
    // With no journal there is nothing to do, so running it again changes nothing.
    ensures JournalAccount(binding.identity) !in old(host.contents) ==> host.contents == old(host.contents)
    // A journal that cannot be read, or a main account that belongs to neither end, is refused and kept.
    ensures !JournalUsable(checks, old(host.contents), binding.identity) ==>
              r.Failure? && host.contents == old(host.contents)
    // A healthy host with a valid head never refuses a restorable store.
    ensures (host.healthy && HeadHolds(checks, binding, old(host.time), host.horizon)
              && Restorable(checks, old(host.contents), binding, old(host.time))) ==> r.Success?
  {
    var owner := binding.identity;
    var at := host.Now();
    if !HeadValid(checks, binding, at) {
      return Failure("protected_authority_invalid");
    }
    var pending :- host.Fresh(JournalAccount(owner));
    var current :- host.Fresh(MainAccount(owner));
    if pending.Some? {
      var finished :- FinishJournal(host, checks, binding, pending.value, current);
      current := Some(finished);
    }
    if current.Some? {
      at := host.Now();
      var _ :- VerifiedState(checks, current.value, binding, at);
    }
    return Success(current);
  }

  ghost function Later(a: int, b: int): int {
    if a < b then b else a
  }

  /** The decided state cannot be used any more: another generation, a revision below the minimum, or run out. */
  ghost predicate Outdated(s: State, binding: Binding, now: int) {
    || s.verifiedKeyset.generation != binding.protectedKeyset.generation
    || s.certificate.policyRevision < binding.minimumPolicyRevision
    || s.certificate.expiresAt.ms <= now
  }

  /** What resolving answers on a healthy host, from a restorable store and under a valid head. */
  ghost predicate ResolvedAs(checks: Checks, binding: Binding, decided: Option<Raw>, from: int, to: int,
                             r: Result<Resolution>)
  {
    match decided
    case None => r == Success(Original(binding.identity.enrollmentOrigin))
    case Some(raw) =>
      raw.StateText? &&
      var c := raw.state.certificate;
      && (Outdated(raw.state, binding, from) ==>
            r == Success(RefreshRequired(c.transportOrigin, c.policyRevision)))
      && (StaysReady(checks, binding, raw.state, from, to) ==> r == Success(Ready(c)))
  }

  ghost predicate StaysReady(checks: Checks, binding: Binding, s: State, from: int, to: int) {
    forall t :: from <= t <= to ==> ReadyAt(checks, binding, s, t)
  }

  ghost predicate ReadyAt(checks: Checks, binding: Binding, s: State, now: int) {
    && !Outdated(s, binding, now)
    && Answers(checks, s.certificate, binding, Expected(s.certificate.transportOrigin, s.certificate.requestNonce),
               None, now)
  }

  method ResolveDemoTransport(host: Host<Account, Raw>, checks: Checks, binding: Binding)
    returns (r: Result<Resolution>)
    requires host.Ticks()
    modifies host`contents, host`wroteAt, host`time
    ensures host.Ticks() && (host.healthy ==> old(host.time) <= host.time)
    ensures Keeps(checks, binding.identity, old(host.contents), host.contents)
    ensures !JournalUsable(checks, old(host.contents), binding.identity) ==>
              r.Failure? && host.contents == old(host.contents)
    // A healthy host answers every restorable store.
    ensures (&& host.healthy && HeadHolds(checks, binding, old(host.time), host.horizon)
             && Restorable(checks, old(host.contents), binding, old(host.time)))
            ==> ResolvedAs(checks, binding, Decided(old(host.contents), binding.identity), old(host.time),
                           host.horizon, r)
    // The answer is about what was decided, and was checked after the last write.
    ensures r.Success? ==> HeadSeen(checks, binding, host.healthy, host.wroteAt, host.time)
    ensures r.Success? ==>
              var decided := Decided(old(host.contents), binding.identity);
              match r.value
              case Original(origin) => decided.None? && origin == binding.identity.enrollmentOrigin
              case Ready(certificate) =>
                && NewState(decided, certificate, binding)
                && Answered(checks, certificate, binding,
                            Expected(certificate.transportOrigin, certificate.requestNonce), None, host.healthy,
                            Later(host.wroteAt, old(host.time)), host.time)
              case RefreshRequired(origin, revision) =>
                && decided.Some? && decided.value.StateText?
                && origin == decided.value.state.certificate.transportOrigin
                && revision == decided.value.state.certificate.policyRevision
                && (|| decided.value.state.verifiedKeyset != binding.protectedKeyset
                    || revision < binding.minimumPolicyRevision
                    || (host.healthy ==> decided.value.state.certificate.expiresAt.ms <= host.time))
  {
    var raw :- RestoredState(host, checks, binding);
    var at := host.Now();
    if !HeadValid(checks, binding, at) {
      return Failure("protected_authority_invalid");
    }
    if raw.None? {
      return Success(Original(binding.identity.enrollmentOrigin));
    }
    var state := raw.value.state;
    at := host.Now();
    assert StaysReady(checks, binding, state, old(host.time), host.horizon) && host.healthy ==>
             ReadyAt(checks, binding, state, at);
    if state.verifiedKeyset.generation != binding.protectedKeyset.generation
       || state.certificate.policyRevision < binding.minimumPolicyRevision
       || state.certificate.expiresAt.ms <= at {
      return Success(RefreshRequired(state.certificate.transportOrigin, state.certificate.policyRevision));
    }
    at := host.Now();
    assert StaysReady(checks, binding, state, old(host.time), host.horizon) && host.healthy ==>
             ReadyAt(checks, binding, state, at);
    VerifiesMeans(checks, state.certificate, binding,
                  Expected(state.certificate.transportOrigin, state.certificate.requestNonce), None, at);
    if !Verifies(checks, state.certificate, binding,
                 Expected(state.certificate.transportOrigin, state.certificate.requestNonce), None, at) {
      return Failure("continuity_rejected");
    }
    return Success(Ready(state.certificate));
  }

  lemma WritingJournalDecides(checks: Checks, owner: Identity, before: Store, next: Raw, after: Store)
    requires JournalAccount(owner) !in before
    requires PutLeaves(before, JournalAccount(owner), JournalFor(Lookup(before, MainAccount(owner)), next), after)
    ensures OnlyThisAccount(before, after, owner)
    ensures if JournalAccount(owner) in after then Decided(after, owner) == Some(next) else after == before
    ensures Consistent(checks, before, owner) && Advances(checks, owner, Decided(before, owner), Some(next)) ==>
              Consistent(checks, after, owner)
  {
    assert before - {JournalAccount(owner)} == before;
  }

  function JournalFor(previous: Option<Raw>, next: Raw): Raw {
    JournalText(Journal(previous, Sha256(EmptyIfNull(previous)), next))
  }

  /** The writing half of an acceptance: the journal is the commit point, the restore does the rest. */
  method Commit(host: Host<Account, Raw>, checks: Checks, binding: Binding, original: Option<Raw>, next: Raw)
    returns (r: Result<()>)
    requires host.Ticks()
    requires Lookup(host.contents, MainAccount(binding.identity)) == original
    requires JournalAccount(binding.identity) !in host.contents
    requires Advances(checks, binding.identity, original, Some(next))
    modifies host`contents, host`wroteAt, host`time
    ensures host.Ticks() && (host.healthy ==> old(host.time) <= host.time)
    ensures OnlyThisAccount(old(host.contents), host.contents, binding.identity)
    ensures Consistent(checks, old(host.contents), binding.identity) ==>
              Consistent(checks, host.contents, binding.identity)
    // Until the journal is durable the store is as it was; from then on the new state is decided.
    ensures JournalAccount(binding.identity) in host.contents ==>
              Decided(host.contents, binding.identity) == Some(next)
    ensures JournalAccount(binding.identity) !in host.contents ==>
              host.contents == old(host.contents) || Lookup(host.contents, MainAccount(binding.identity)) == Some(next)
    ensures r.Success? ==> Decided(host.contents, binding.identity) == Some(next)
                           && JournalAccount(binding.identity) !in host.contents
    // On a healthy host the outcome turns on the length of the journal alone.
    ensures (host.healthy && HeadHolds(checks, binding, old(host.time), host.horizon)
              && (original.Some? ==> Stands(checks, original.value, binding, old(host.time)))
              && Stands(checks, next, binding, old(host.time))) ==>
              (r.Success? <==> checks.bytes(JournalFor(original, next)) <= JOURNAL_BYTES)
    // Too long a journal is written all the same, and stays.
    ensures (host.healthy && checks.bytes(JournalFor(original, next)) > JOURNAL_BYTES) ==>
              host.contents == old(host.contents)[JournalAccount(binding.identity) := JournalFor(original, next)]
  {
    var written := host.ConfirmedPut(JournalAccount(binding.identity), JournalFor(original, next),
                                     "secure_store_write_unconfirmed");
    WritingJournalDecides(checks, binding.identity, old(host.contents), next, host.contents);
    if written.Failure? {
      return written;
    }
    var _ :- RestoredState(host, checks, binding);
    return Success(());
  }

  /** Builds the candidate's state and passes it through the check every later restore will make. */
  method PrepareState(host: Host<Account, Raw>, checks: Checks, candidate: Certificate, binding: Binding,
                      ghost expected: Expected, original: Option<Raw>) returns (r: Result<Raw>)
    requires host.Ticks()
    requires original.Some? ==> Vouched(checks, binding.identity, original.value)
    modifies host`time
    ensures host.Ticks() && (host.healthy ==> old(host.time) <= host.time)
    ensures r.Success? ==>
              && r.value.StateText?
              && r.value == NextState(candidate, binding, r.value.state.acceptedAt)
              && Stands(checks, r.value, binding, host.time)
              && Advances(checks, binding.identity, original, Some(r.value))
              && (host.healthy ==> old(host.time) <= r.value.state.acceptedAt)
    ensures (&& host.healthy && binding.minimumPolicyRevision >= 1
             && (original.Some? ==> Stands(checks, original.value, binding, old(host.time)))
             && CandidateHolds(checks, candidate, binding, expected, original, old(host.time), host.horizon))
            ==> r.Success?
  {
    var acceptedAt := host.Now();
    var nextState := NextState(candidate, binding, acceptedAt);
    var at := host.Now();
    var next :- VerifiedState(checks, nextState, binding, at);
    if !TransitionAllowed(if original.Some? then Some(original.value.state) else None, next) {
      return Failure("policy_revision_conflict");
    }
    return Success(nextState);
  }

  /** An acceptance after its restore, for a certificate that is not the current one. */
  method AcceptNew(host: Host<Account, Raw>, checks: Checks, candidate: Certificate, binding: Binding,
                   expected: Expected, original: Option<Raw>) returns (r: Result<Acceptance>)
    requires host.Ticks()
    requires Lookup(host.contents, MainAccount(binding.identity)) == original
    requires JournalAccount(binding.identity) !in host.contents
    requires original.Some? ==> Vouched(checks, binding.identity, original.value)
    requires original.Some? && host.healthy ==> Stands(checks, original.value, binding, host.time)
    requires binding.minimumPolicyRevision >= 1
    modifies host`contents, host`wroteAt, host`time
    ensures host.Ticks() && (host.healthy ==> old(host.time) <= host.time)
    ensures CallEffect(checks, binding.identity, old(host.contents), host.contents)
    ensures Decided(host.contents, binding.identity) == original
            || NewState(Decided(host.contents, binding.identity), candidate, binding)
    ensures r.Success? ==>
              && r.value == Acceptance(candidate, false)
              && JournalAccount(binding.identity) !in host.contents
              && HoldsCertificate(Decided(host.contents, binding.identity), candidate)
    ensures r.Success? ==>
              && HeadSeen(checks, binding, host.healthy, host.wroteAt, host.time)
              && Answered(checks, candidate, binding, expected, None, host.healthy, host.wroteAt, host.time)
    ensures (&& host.healthy && HeadHolds(checks, binding, old(host.time), host.horizon)
             && CandidateHolds(checks, candidate, binding, expected, original, old(host.time), host.horizon)
             && JournalFits(checks, original, candidate, binding, old(host.time), host.horizon))
            ==> r.Success?
    ensures (&& host.healthy && HeadHolds(checks, binding, old(host.time), host.horizon)
             && CandidateHolds(checks, candidate, binding, expected, original, old(host.time), host.horizon)
             && JournalNeverFits(checks, original, candidate, binding, old(host.time), host.horizon))
            ==> r.Failure? && !JournalUsable(checks, host.contents, binding.identity)
  {
    var owner := binding.identity;
    var next :- PrepareState(host, checks, candidate, binding, expected, original);
    var main :- host.Fresh(MainAccount(owner));
    var pending :- host.Fresh(JournalAccount(owner));
    if main != original || pending != None {
      return Failure("journal_conflict");
    }
    var _ :- Commit(host, checks, binding, original, next);
    var at := host.Now();
    if !HeadValid(checks, binding, at) {
      return Failure("protected_authority_invalid");
    }
    at := host.Now();
    VerifiesMeans(checks, candidate, binding, expected, None, at);
    if !Verifies(checks, candidate, binding, expected, None, at) {
      return Failure("continuity_rejected");
    }
    return Success(Acceptance(candidate, false));
  }

  method AcceptDemoTransport(host: Host<Account, Raw>, checks: Checks, candidate: Certificate,
                             binding: Binding, expected: Expected) returns (r: Result<Acceptance>)
    requires host.Ticks()
    modifies host`contents, host`wroteAt, host`time
    ensures host.Ticks() && (host.healthy ==> old(host.time) <= host.time)
    // Whatever the outcome, what is decided is the old state or exactly the new one.
    ensures CallEffect(checks, binding.identity, old(host.contents), host.contents)
    ensures Decided(host.contents, binding.identity) == Decided(old(host.contents), binding.identity)
            || NewState(Decided(host.contents, binding.identity), candidate, binding)
    // Nothing is accepted or decided but a certificate that answered this very request, under a valid head.
    ensures r.Success? || Decided(host.contents, binding.identity) != Decided(old(host.contents), binding.identity) ==>
              && Answered(checks, candidate, binding, expected, Decided(old(host.contents), binding.identity),
                          host.healthy, old(host.time), host.time)
              && HeadSeen(checks, binding, host.healthy, old(host.time), host.time)
    // An answer was checked once more after the last write.
    ensures r.Success? ==>
              Answered(checks, candidate, binding, expected, None, host.healthy, host.wroteAt, host.time)
    // An answer means the candidate is decided and nothing is left to recover.
    ensures r.Success? ==>
              && r.value.certificate == candidate
              && JournalAccount(binding.identity) !in host.contents
              && HoldsCertificate(Decided(host.contents, binding.identity), candidate)
    // The answer is a duplicate exactly when the candidate was current already, and decides nothing.
    ensures HoldsCertificate(Decided(old(host.contents), binding.identity), candidate) ==>
              Decided(host.contents, binding.identity) == Decided(old(host.contents), binding.identity)
    ensures r.Success? ==>
              (r.value.duplicate <==> HoldsCertificate(Decided(old(host.contents), binding.identity), candidate))
    ensures !JournalUsable(checks, old(host.contents), binding.identity) ==>
              r.Failure? && host.contents == old(host.contents)
    // A healthy host accepts what it should, unless the journal outgrows the limit it is read back under.
    ensures (&& host.healthy
             && Due(checks, old(host.contents), candidate, binding, expected, old(host.time), host.horizon)
             && JournalFits(checks, Decided(old(host.contents), binding.identity), candidate, binding,
                            old(host.time), host.horizon))
            ==> r.Success?
    ensures (&& host.healthy
             && Due(checks, old(host.contents), candidate, binding, expected, old(host.time), host.horizon)
             && JournalNeverFits(checks, Decided(old(host.contents), binding.identity), candidate, binding,
                                 old(host.time), host.horizon)
             && !HoldsCertificate(Decided(old(host.contents), binding.identity), candidate))
            ==> r.Failure? && !JournalUsable(checks, host.contents, binding.identity)
  {
    var owner := binding.identity;
    var original :- RestoredState(host, checks, binding);
    var at := host.Now();
    VerifiesMeans(checks, candidate, binding, expected, original, at);
    if !Verifies(checks, candidate, binding, expected, CurrentCertificate(original), at) {
      return Failure("continuity_rejected");
    }
    AnswersOnItsOwn(checks, candidate, binding, expected, original, at);
    if original.Some? && candidate == original.value.state.certificate {
      return Success(Acceptance(candidate, true));
    }
    ghost var verified := host.time;
    r := AcceptNew(host, checks, candidate, binding, expected, original);
    SeenStill(checks, binding, host.healthy, old(host.time), verified, host.time);
  }

  // ---------------------------------------------------------------- whole runs

  /** A run: the stores between calls of any kind, each call finished or cut short. */
  ghost predicate IsRun(checks: Checks, owner: Identity, run: seq<Store>) {
    && run != [] && Consistent(checks, run[0], owner)
    && Linked(Calls(checks, owner), run)
  }

  ghost function Calls(checks: Checks, owner: Identity): (Store, Store) -> bool {
    (before, after) => CallEffect(checks, owner, before, after)
  }

  /** What stands between an earlier decided state and a later one. */
  ghost predicate NeverBack(earlier: Option<Raw>, later: Option<Raw>) {
    earlier.Some? && earlier.value.StateText? ==>
      && later.Some? && later.value.StateText?
      && Succeeds(earlier.value.state, later.value.state)
  }

  lemma {:induction false} RunStaysConsistent(checks: Checks, owner: Identity, run: seq<Store>, i: nat)
    requires IsRun(checks, owner, run) && i < |run|
    ensures Consistent(checks, run[i], owner)
    ensures Decided(run[i], owner).Some? ==> Vouched(checks, owner, Decided(run[i], owner).value)
  {
    if i > 0 {
      RunStaysConsistent(checks, owner, run, i - 1);
      assert LinkedAt(Calls(checks, owner), run, i - 1);
    }
  }

  /** Over any run an accepted state is never lost, revision and generation never go down, an equal
      revision keeps its origin and an equal generation its keyset. */
  lemma {:induction false} RunNeverGoesBack(checks: Checks, owner: Identity, run: seq<Store>, i: nat, j: nat)
    requires IsRun(checks, owner, run) && i <= j < |run|
    ensures NeverBack(Decided(run[i], owner), Decided(run[j], owner))
  {
    if i < j {
      RunNeverGoesBack(checks, owner, run, i, j - 1);
      RunStaysConsistent(checks, owner, run, j - 1);
      assert LinkedAt(Calls(checks, owner), run, j - 1);
    }
  }

  /** From any consistent store, with neither clock nor protected keyset behind what is stored, a restore
      can be refused for one reason only: a journal longer than the limit it is read back under. */
  lemma RecoveryProgress(checks: Checks, store: Store, binding: Binding, now: int)
    requires Consistent(checks, store, binding.identity)
    requires var d := Decided(store, binding.identity);
             d.Some? ==> NotAhead(d.value.state.verifiedKeyset, binding.protectedKeyset)
    requires forall k :: k in store ==> NothingLaterThan(store[k], now)
    ensures Restorable(checks, store, binding, now) <==>
            (JournalAccount(binding.identity) in store ==>
               checks.bytes(store[JournalAccount(binding.identity)]) <= JOURNAL_BYTES)
  {
    if JournalAccount(binding.identity) in store {
      assert NothingLaterThan(store[JournalAccount(binding.identity)], now);
    } else if MainAccount(binding.identity) in store {
      assert NothingLaterThan(store[MainAccount(binding.identity)], now);
    }
  }

  ghost predicate NothingLaterThan(raw: Raw, now: int) {
    match raw
    case StateText(s) => s.acceptedAt <= now
    case JournalText(j) =>
      && (j.nextState.StateText? ==> j.nextState.state.acceptedAt <= now)
      && (j.previousState.Some? && j.previousState.value.StateText? ==>
            j.previousState.value.state.acceptedAt <= now)
    case OtherText(_) => true
  }
}
