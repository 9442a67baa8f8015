/** Replacing expired signing trust after a browser-approved re-enrolment, and resuming it
    (packages/cli/src/demoSigningTrust.ts, `recoverDemoSigningEnrollment`).

    Four confirmed writes: archive the old anchor, record the approval, write the journal, replace the
    anchor. Each is a removal and an addition, and each can be where a run stops. */
module TrustRecovery {
  import opened Outcomes
  import opened Runs
  import opened SecureStorage
  import opened KeyRotation
  import opened SigningTrust

  datatype Trust = Trust(pin: Option<string>, keyset: Option<Keyset>)

  /** What is left to do once every check has passed. */
  datatype Plan = Plan(previous: Text, recovery: Recovery, updated: Config)

  // ---------------------------------------------------------------- the checks

  predicate ApprovalInScope(config: Config, approval: Approval, now: int) {
    && approval.organizationId == config.binding.device.organizationId
    && approval.repositoryId == config.binding.device.repositoryId
    && approval.deviceId == config.binding.device.deviceId
    && approval.publicKey == config.binding.device.publicKey
    && approval.approvedAt.ms <= now + 30_000
    && now < approval.expiresAt.ms
    && approval.approvedAt.ms < approval.expiresAt.ms <= approval.approvedAt.ms + 15 * MINUTE
  }

  predicate RetainedKeysUnchanged(head: Keyset, trusted: Keyset) {
    forall prior :: prior in head.keys && Find(trusted.keys, prior.version).Some? ==>
      SameWindow(prior, Find(trusted.keys, prior.version).value)
  }

  /** The replacement follows an expired head, under the new pin, a later generation and a bounded life. */
  predicate ReplacementAllowed(checks: Checks, organizationId: string, head: Keyset, headPin: Option<string>,
                               trusted: Keyset, trustedPin: string, approval: Approval, now: int)
  {
    && head.expiresAt <= now
    && head.expiresAt < approval.approvedAt.ms
    && KeysetValid(checks.keys, head, organizationId, head.expiresAt - 1, headPin)
    && KeysetValid(checks.keys, trusted, organizationId, now, Some(trustedPin))
    && RetainedKeysUnchanged(head, trusted)
    && head.generation < trusted.generation
    && now + 10 * MINUTE < trusted.expiresAt
    && trusted.expiresAt - trusted.issuedAt <= 29 * DAY
  }

  predicate SameRecipient(prior: Approval, renewed: Approval) {
    && prior.organizationId == renewed.organizationId && prior.repositoryId == renewed.repositoryId
    && prior.participantId == renewed.participantId && prior.deviceId == renewed.deviceId
    && prior.publicKey == renewed.publicKey
  }

  /** A missing anchor is resumed from a confirmed journal: the archived anchor stands in for it. */
  function ResumedAnchor(checks: Checks, store: Store, config: Config, trust: Trust, approval: Approval,
                         prior: Recovery, now: int): Result<Text>
  {
    var replacesExpired :=
      && prior.approval.enrollmentId != approval.enrollmentId
      && prior.approval.expiresAt.ms <= now
      && prior.approval.expiresAt.ms < approval.approvedAt.ms
      && SameRecipient(prior.approval, approval);
    if (prior.approval != approval && !replacesExpired)
       || Lookup(store, ApprovalAccount(prior.approval.enrollmentId)) != Some(RecoveryText(prior)) then
      Failure("approval_replayed_or_conflicting")
    else if HistoryAccount(prior.previousAnchorHash) !in store then Failure("protected_anchor_binding_mismatch")
    else
      var previous := store[HistoryAccount(prior.previousAnchorHash)];
      if Sha256(previous) != prior.previousAnchorHash then Failure("protected_anchor_binding_mismatch")
      else
        var archived :- ParseAnchor(checks, previous);
        if archived.binding != config.binding then Failure("protected_anchor_binding_mismatch")
        else if replacesExpired then
          var pending :- ParseAnchor(checks, prior.replacementAnchor);
          if trust.keyset.None? || pending.binding.(pin := config.binding.pin) != config.binding then
            Failure("protected_anchor_binding_mismatch")
          else if !DiskHeadAllowed(checks, Some(pending.head.keyset), trust.keyset.value) then
            Failure("protected_anchor_conflict")
          else Success(previous)
        else Success(previous)
  }

  /** Everything before the first write. */
  function PlanRecovery(checks: Checks, store: Store, config: Config, trust: Trust, approval: Approval,
                        now: int): Result<Plan> {
    if !checks.approval(approval) then Failure("fresh_approval_required")
    else if !ApprovalInScope(config, approval, now) then Failure("approval_scope_or_expiry_invalid")
    else
      var prior :- ParseJournal(checks, store);
      var existing :- ExistingAnchor(checks, store, config, trust, approval, prior, now);
      PlanFrom(checks, store, config, trust, approval, prior, existing, now)
  }

  /** The plan, once it is known which anchor is to be replaced, if any. */
  function PlanFrom(checks: Checks, store: Store, config: Config, trust: Trust, approval: Approval,
                    prior: Option<Recovery>, existing: Option<Text>, now: int): Result<Plan>
  {
    var bound :- BindIfAny(checks, config, existing, store);
    var head := if bound.Some? then Some(bound.value.anchor.head.keyset) else config.keyset;
    if head.None? || trust.keyset.None? || trust.pin.None? then Failure("missing_enrollment_trust")
    else if !ReplacementAllowed(checks, config.binding.device.organizationId, head.value,
                                if existing.Some? then None else config.binding.pin,
                                trust.keyset.value, trust.pin.value, approval, now) then
      Failure("replacement_refused")
    else
      var plan := MakePlan(config, trust, approval, head.value, existing);
      if prior.Some?
         && (|| prior.value.approval.participantId != approval.participantId
             || (prior.value.approval.enrollmentId == approval.enrollmentId && prior.value != plan.recovery)) then
        Failure("approval_replayed_or_conflicting")
      else if Lookup(store, HistoryAccount(Sha256(plan.previous))) !in {None, Some(plan.previous)} then
        Failure("protected_history_conflict")
      else if Lookup(store, ApprovalAccount(approval.enrollmentId)) !in {None, Some(RecoveryText(plan.recovery))} then
        Failure("approval_replayed_or_conflicting")
      else Success(plan)
  }

  function ParseJournal(checks: Checks, store: Store): Result<Option<Recovery>> {
    if RecoveryAccount !in store then Success(None)
    else
      var prior :- ParseRecovery(checks, store[RecoveryAccount]);
      Success(Some(prior))
  }

  function ExistingAnchor(checks: Checks, store: Store, config: Config, trust: Trust, approval: Approval,
                          prior: Option<Recovery>, now: int): Result<Option<Text>>
  {
    if AnchorAccount in store then Success(Some(store[AnchorAccount]))
    else if prior.Some? && prior.value.previousWasProtected then
      var previous :- ResumedAnchor(checks, store, config, trust, approval, prior.value, now);
      Success(Some(previous))
    else Success(None)
  }

  function BindIfAny(checks: Checks, config: Config, existing: Option<Text>, store: Store): Result<Option<Bound>> {
    if existing.None? then Success(None)
    else
      var bound :- BindAnchor(checks, config, existing.value, store);
      Success(Some(bound))
  }

  /** A legacy device without an anchor archives a labelled snapshot of its disk head instead. */
  function MakePlan(config: Config, trust: Trust, approval: Approval, head: Keyset, existing: Option<Text>): Plan
    requires trust.keyset.Some?
  {
    var updated := Config(config.binding.(pin := trust.pin), trust.keyset);
    var previous := if existing.Some? then existing.value else AnchorText(Anchor(config.binding, Head(head, None)));
    Plan(previous, Recovery(Sha256(previous), existing.Some?, MigratedAnchor(updated), approval), updated)
  }

  // ---------------------------------------------------------------- exactly what is planned

  /** The approval is of this device and repository, not from the future, and alive for a quarter of an hour at most. */
  ghost predicate ApprovesDevice(checks: Checks, config: Config, approval: Approval, now: int) {
    && checks.approval(approval)
    && (approval.organizationId, approval.repositoryId, approval.deviceId, approval.publicKey) ==
       (config.binding.device.organizationId, config.binding.device.repositoryId, config.binding.device.deviceId,
        config.binding.device.publicKey)
    && approval.approvedAt.ms <= now + 30_000 && now < approval.expiresAt.ms
    && 0 < approval.expiresAt.ms - approval.approvedAt.ms <= 900_000
  }

  /** The head ran out before the approval and was trusted to the last; the replacement is trusted under the new pin,
      is of a later generation, keeps the windows of the keys it keeps, and lives for ten minutes to 29 days. */
  ghost predicate Replaces(checks: Checks, organizationId: string, head: Keyset, headPin: Option<string>,
                           trusted: Keyset, pin: string, approval: Approval, now: int)
  {
    && head.expiresAt <= now && head.expiresAt < approval.approvedAt.ms
    && Trusted(checks.keys, head, organizationId, head.expiresAt - 1, headPin)
    && Trusted(checks.keys, trusted, organizationId, now, Some(pin))
    && head.generation < trusted.generation
    && now + 600_000 < trusted.expiresAt <= trusted.issuedAt + 29 * 86_400_000
    && forall v :: v in Roles(head.keys) && v in Roles(trusted.keys) ==>
         SameWindow(Roles(head.keys)[v], Roles(trusted.keys)[v])
  }

  lemma RetainedMeans(head: Keyset, trusted: Keyset)
    requires Distinct(head.keys) && Distinct(trusted.keys)
    ensures RetainedKeysUnchanged(head, trusted) <==>
            forall v :: v in Roles(head.keys) && v in Roles(trusted.keys) ==>
              SameWindow(Roles(head.keys)[v], Roles(trusted.keys)[v])
  {
    RolesAre(head.keys);
    forall k | k in head.keys
      ensures Find(trusted.keys, k.version) ==
              if k.version in Roles(trusted.keys) then Some(Roles(trusted.keys)[k.version]) else None
    {
      FindRole(trusted.keys, k.version);
    }
    hide Roles;
  }

  lemma ReplacementMeans(checks: Checks, organizationId: string, head: Keyset, headPin: Option<string>,
                         trusted: Keyset, pin: string, approval: Approval, now: int)
    ensures ReplacementAllowed(checks, organizationId, head, headPin, trusted, pin, approval, now) <==>
            Replaces(checks, organizationId, head, headPin, trusted, pin, approval, now)
  {
    hide KeysetValid, Trusted, RetainedKeysUnchanged, Distinct, Roles, SameWindow;
    KeysetValidMeans(checks.keys, head, organizationId, head.expiresAt - 1, headPin);
    KeysetValidMeans(checks.keys, trusted, organizationId, now, Some(pin));
    TrustedIsDistinct(checks.keys, head, organizationId, head.expiresAt - 1, headPin);
    TrustedIsDistinct(checks.keys, trusted, organizationId, now, Some(pin));
    if Distinct(head.keys) && Distinct(trusted.keys) {
      RetainedMeans(head, trusted);
    }
  }

  lemma TrustedIsDistinct(checks: KeyChecks, keyset: Keyset, organizationId: string, now: int, pin: Option<string>)
    ensures Trusted(checks, keyset, organizationId, now, pin) ==> Distinct(keyset.keys)
  {
  }

  lemma ScopeMeans(checks: Checks, config: Config, approval: Approval, now: int)
    ensures checks.approval(approval) && ApprovalInScope(config, approval, now) <==>
            ApprovesDevice(checks, config, approval, now)
  {
  }

  /** With the anchor missing, what an earlier journal lets the recovery take up: its approval is this one, or ran out
      before this one was given to the same recipient; its own record and archive are in place, and the archived
      anchor is of this configuration. An approval that takes over also needs the pending replacement to be of this
      device and not ahead of the new trust. */
  ghost predicate TakenUp(checks: Checks, store: Store, config: Config, trust: Trust, approval: Approval,
                          prior: Recovery, now: int, previous: Anchor)
  {
    && Lookup(store, ApprovalAccount(prior.approval.enrollmentId)) == Some(RecoveryText(prior))
    && prior.previousAnchorHash == Sha256(AnchorText(previous))
    && Lookup(store, HistoryAccount(Sha256(AnchorText(previous)))) == Some(AnchorText(previous))
    && checks.keys.schema(previous.head.keyset) && previous.binding == config.binding
    && if RanOutBefore(prior.approval, approval, now) then
         && trust.keyset.Some? && prior.replacementAnchor.AnchorText?
         && var pending := prior.replacementAnchor.anchor;
            && checks.keys.schema(pending.head.keyset) && pending.binding.device == config.binding.device
            && Behind(checks, Some(pending.head.keyset), trust.keyset.value)
       else prior.approval == approval
  }

  ghost predicate RanOutBefore(prior: Approval, renewed: Approval, now: int) {
    && prior.enrollmentId != renewed.enrollmentId
    && prior.expiresAt.ms <= now && prior.expiresAt.ms < renewed.approvedAt.ms
    && (prior.organizationId, prior.repositoryId, prior.participantId, prior.deviceId, prior.publicKey) ==
       (renewed.organizationId, renewed.repositoryId, renewed.participantId, renewed.deviceId, renewed.publicKey)
  }

  lemma ResumedExactly(checks: Checks, store: Store, config: Config, trust: Trust, approval: Approval, prior: Recovery,
                       now: int, text: Text)
    ensures ResumedAnchor(checks, store, config, trust, approval, prior, now) == Success(text) <==>
            text.AnchorText? && TakenUp(checks, store, config, trust, approval, prior, now, text.anchor)
  {
  }

  /** The configuration is bound to the anchor, directly or across a pin replacement. */
  ghost predicate IsBound(checks: Checks, config: Config, store: Store, anchor: Anchor) {
    && checks.keys.schema(anchor.head.keyset)
    && exists bound: Bound :: bound.anchor == anchor
         && (BoundDirectly(checks, config, bound) || BoundAcross(checks, config, bound, store))
  }

  lemma BoundMeans(checks: Checks, config: Config, store: Store, text: Text)
    ensures BindAnchor(checks, config, text, store).Success? <==>
            text.AnchorText? && IsBound(checks, config, store, text.anchor)
    ensures BindAnchor(checks, config, text, store).Success? ==>
            text == AnchorText(BindAnchor(checks, config, text, store).value.anchor)
  {
    hide BindAnchor, BoundDirectly, BoundAcross;
    forall bound: Bound
      ensures BindAnchor(checks, config, text, store) == Success(bound) <==>
              && text == AnchorText(bound.anchor) && checks.keys.schema(bound.anchor.head.keyset)
              && (BoundDirectly(checks, config, bound) || BoundAcross(checks, config, bound, store))
    {
      BindExactly(checks, config, text, store, bound);
    }
    if BindAnchor(checks, config, text, store).Success? {
      var bound := BindAnchor(checks, config, text, store).value;
      assert BindAnchor(checks, config, text, store) == Success(bound);
    }
  }

  /** What there is to replace: the anchor; or, with an earlier journal of a protected one, what that lets it take up;
      or nothing but the disk's keyset. */
  ghost predicate IsExisting(checks: Checks, store: Store, config: Config, trust: Trust, approval: Approval, now: int,
                             existing: Option<Text>)
  {
    if AnchorAccount in store then existing == Some(store[AnchorAccount])
    else if RecoveryAccount in store && store[RecoveryAccount].RecoveryText?
            && store[RecoveryAccount].recovery.previousWasProtected then
      && existing.Some? && existing.value.AnchorText?
      && TakenUp(checks, store, config, trust, approval, store[RecoveryAccount].recovery, now, existing.value.anchor)
    else existing == None
  }

  /** What is replaced, by what, and what stands in the accounts to be written: the journal of no other participant and
      no other record of this enrolment, and free or equal slots. */
  ghost predicate PlannedFrom(checks: Checks, store: Store, config: Config, trust: Trust, approval: Approval,
                              prior: Option<Recovery>, existing: Option<Text>, now: int, plan: Plan)
  {
    && trust.pin.Some? && trust.keyset.Some?
    && plan.updated == Config(config.binding.(pin := trust.pin), trust.keyset)
    && plan.recovery == Recovery(Sha256(plan.previous), existing.Some?, MigratedAnchor(plan.updated), approval)
    && plan.previous.AnchorText?
    && (match existing
        case Some(text) => plan.previous == text && IsBound(checks, config, store, text.anchor)
        case None => config.keyset.Some? && plan.previous == MigratedAnchor(config))
    && Replaces(checks, config.binding.device.organizationId, plan.previous.anchor.head.keyset,
                if existing.Some? then None else config.binding.pin, trust.keyset.value, trust.pin.value, approval, now)
    && Lookup(store, HistoryAccount(Sha256(plan.previous))) in {None, Some(plan.previous)}
    && Lookup(store, ApprovalAccount(approval.enrollmentId)) in {None, Some(RecoveryText(plan.recovery))}
    && (prior.Some? ==>
          && prior.value.approval.participantId == approval.participantId
          && (prior.value.approval.enrollmentId == approval.enrollmentId ==> prior.value == plan.recovery))
  }

  lemma PlanFromExactly(checks: Checks, store: Store, config: Config, trust: Trust, approval: Approval,
                        prior: Option<Recovery>, existing: Option<Text>, now: int, plan: Plan)
    ensures PlanFrom(checks, store, config, trust, approval, prior, existing, now) == Success(plan) <==>
            PlannedFrom(checks, store, config, trust, approval, prior, existing, now, plan)
  {
    hide KeysetValid, Trusted, RetainedKeysUnchanged, ReplacementAllowed, Replaces, BindAnchor, IsBound;
    if existing.Some? {
      BoundMeans(checks, config, store, existing.value);
    }
    if trust.keyset.Some? && trust.pin.Some? && plan.previous.AnchorText? {
      ReplacementMeans(checks, config.binding.device.organizationId, plan.previous.anchor.head.keyset,
                       if existing.Some? then None else config.binding.pin, trust.keyset.value, trust.pin.value,
                       approval, now);
    }
  }

  lemma ExistingExactly(checks: Checks, store: Store, config: Config, trust: Trust, approval: Approval, now: int,
                        existing: Option<Text>)
    requires ParseJournal(checks, store).Success?
    ensures var found := ExistingAnchor(checks, store, config, trust, approval, ParseJournal(checks, store).value, now);
            found == Success(existing) <==> IsExisting(checks, store, config, trust, approval, now, existing)
  {
    hide ResumedAnchor, TakenUp;
    if RecoveryAccount in store && existing.Some? {
      ResumedExactly(checks, store, config, trust, approval, store[RecoveryAccount].recovery, now, existing.value);
    }
  }

  /** An earlier journal can be read, and is of an approval. */
  ghost predicate JournalReadable(checks: Checks, store: Store) {
    RecoveryAccount in store ==>
      store[RecoveryAccount].RecoveryText? && checks.approval(store[RecoveryAccount].recovery.approval)
  }

  function JournalOf(store: Store): Option<Recovery> {
    if RecoveryAccount in store && store[RecoveryAccount].RecoveryText? then Some(store[RecoveryAccount].recovery)
    else None
  }

  /** A recovery is planned exactly for a good approval, over a readable journal, from what there is to replace. */
  lemma PlanExactly(checks: Checks, store: Store, config: Config, trust: Trust, approval: Approval, now: int,
                    plan: Plan)
    ensures PlanRecovery(checks, store, config, trust, approval, now) == Success(plan) <==>
            && ApprovesDevice(checks, config, approval, now)
            && JournalReadable(checks, store)
            && exists existing :: IsExisting(checks, store, config, trust, approval, now, existing)
                 && PlannedFrom(checks, store, config, trust, approval, JournalOf(store), existing, now, plan)
  {
    hide PlanFrom, PlannedFrom, ExistingAnchor, IsExisting, ApprovesDevice, ApprovalInScope;
    ScopeMeans(checks, config, approval, now);
    if ParseJournal(checks, store).Success? {
      forall existing: Option<Text>
        ensures ExistingAnchor(checks, store, config, trust, approval, JournalOf(store), now) == Success(existing) <==>
                IsExisting(checks, store, config, trust, approval, now, existing)
        ensures PlanFrom(checks, store, config, trust, approval, JournalOf(store), existing, now) == Success(plan) <==>
                PlannedFrom(checks, store, config, trust, approval, JournalOf(store), existing, now, plan)
      {
        ExistingExactly(checks, store, config, trust, approval, now, existing);
        PlanFromExactly(checks, store, config, trust, approval, JournalOf(store), existing, now, plan);
      }
    }
  }

  lemma MadePlan(checks: Checks, store: Store, config: Config, trust: Trust, approval: Approval, now: int)
    requires PlanRecovery(checks, store, config, trust, approval, now).Success?
    ensures PlanRecovery(checks, store, config, trust, approval, now).value.updated ==
            Config(config.binding.(pin := trust.pin), trust.keyset)
  {
    hide PlanRecovery, IsExisting, ApprovesDevice;
    PlanExactly(checks, store, config, trust, approval, now,
                PlanRecovery(checks, store, config, trust, approval, now).value);
  }

  /** What any plan says: the new trust is trusted under its own pin and follows the head that it replaces, which ran
      out before the approval; and the new anchor is just that trust. */
  lemma PlanIsTrusted(checks: Checks, store: Store, config: Config, trust: Trust, approval: Approval, now: int)
    requires PlanRecovery(checks, store, config, trust, approval, now).Success?
    ensures ApprovesDevice(checks, config, approval, now)
    ensures trust.pin.Some? && trust.keyset.Some?
    ensures Trusted(checks.keys, trust.keyset.value, config.binding.device.organizationId, now, trust.pin)
    ensures var plan := PlanRecovery(checks, store, config, trust, approval, now).value;
            && plan.recovery.replacementAnchor ==
               AnchorText(Anchor(config.binding.(pin := trust.pin), Head(trust.keyset.value, None)))
            && plan.previous.AnchorText?
            && var head := plan.previous.anchor.head.keyset;
               && head.expiresAt <= now && head.expiresAt < approval.approvedAt.ms
               && head.generation < trust.keyset.value.generation
  {
    hide PlanRecovery, Trusted, IsExisting, ApprovesDevice;
    PlanExactly(checks, store, config, trust, approval, now,
                PlanRecovery(checks, store, config, trust, approval, now).value);
  }

  // ---------------------------------------------------------------- how far a recovery has come

  /** The plan for one protected previous anchor; it does not depend on the time. */
  function ProtectedPlan(config: Config, trust: Trust, approval: Approval, previous: Text): Plan
    requires trust.keyset.Some?
  {
    MakePlan(config, trust, approval, trust.keyset.value, Some(previous))
  }

  ghost predicate OnlyRecoveryAccounts(plan: Plan, base: Store, store: Store) {
    var touched := {AnchorAccount, RecoveryAccount, HistoryAccount(Sha256(plan.previous)),
                    ApprovalAccount(plan.recovery.approval.enrollmentId)};
    base - touched == store - touched
  }

  ghost predicate Archived(plan: Plan, store: Store) {
    && Lookup(store, HistoryAccount(Sha256(plan.previous))) == Some(plan.previous)
    && Lookup(store, ApprovalAccount(plan.recovery.approval.enrollmentId)) == Some(RecoveryText(plan.recovery))
  }

  /** The old anchor is still in place. `base` is the store the first attempt found. */
  ghost predicate Started(plan: Plan, base: Store, store: Store) {
    && OnlyRecoveryAccounts(plan, base, store)
    && Lookup(store, AnchorAccount) == Some(plan.previous)
    && Lookup(store, HistoryAccount(Sha256(plan.previous))) in {None, Some(plan.previous)}
    && Lookup(store, ApprovalAccount(plan.recovery.approval.enrollmentId)) in {None, Some(RecoveryText(plan.recovery))}
    && (|| Lookup(store, RecoveryAccount) == Lookup(base, RecoveryAccount)
        || (Archived(plan, store) && Lookup(store, RecoveryAccount) in {None, Some(RecoveryText(plan.recovery))}))
  }

  /** The old anchor is gone, the new one is not there, and the journal says what to do. */
  ghost predicate Interrupted(plan: Plan, base: Store, store: Store) {
    && OnlyRecoveryAccounts(plan, base, store) && Archived(plan, store)
    && AnchorAccount !in store
    && Lookup(store, RecoveryAccount) == Some(RecoveryText(plan.recovery))
  }

  /** Neither an anchor nor a journal. */
  ghost predicate Lost(plan: Plan, base: Store, store: Store) {
    && OnlyRecoveryAccounts(plan, base, store) && Archived(plan, store)
    && AnchorAccount !in store && RecoveryAccount !in store
  }

  /** The replacement is in place and the old anchor is archived under its hash. */
  ghost predicate Done(plan: Plan, base: Store, store: Store) {
    && OnlyRecoveryAccounts(plan, base, store) && Archived(plan, store)
    && Lookup(store, AnchorAccount) == Some(plan.recovery.replacementAnchor)
    && Lookup(store, RecoveryAccount) == Some(RecoveryText(plan.recovery))
  }

  /** The plan's replacement outlives its approval, as every replacement that was allowed does. */
  ghost predicate Outlives(plan: Plan) {
    && plan.recovery.replacementAnchor.AnchorText?
    && plan.recovery.approval.approvedAt.ms <= plan.recovery.replacementAnchor.anchor.head.keyset.expiresAt
  }

  /** The approval and trust are still good for replacing `previous`, to which the disk is directly bound. */
  ghost predicate Eligible(checks: Checks, config: Config, trust: Trust, approval: Approval, previous: Text, now: int) {
    && checks.approval(approval) && ApprovalInScope(config, approval, now)
    && trust.keyset.Some? && trust.pin.Some?
    && var anchor := ParseAnchor(checks, previous);
       && anchor.Success? && anchor.value.binding == config.binding
       && DiskHeadAllowed(checks, config.keyset, anchor.value.head.keyset)
       && ReplacementAllowed(checks, config.binding.device.organizationId, anchor.value.head.keyset, None,
                             trust.keyset.value, trust.pin.value, approval, now)
  }

  /** No earlier journal stands against this approval. */
  ghost predicate PriorAllows(checks: Checks, plan: Plan, base: Store) {
    RecoveryAccount in base ==>
      var prior := ParseRecovery(checks, base[RecoveryAccount]);
      && prior.Success?
      && prior.value.approval.participantId == plan.recovery.approval.participantId
      && (prior.value.approval.enrollmentId == plan.recovery.approval.enrollmentId ==> prior.value == plan.recovery)
  }

  // ---------------------------------------------------------------- what the checks find in each phase

  lemma PlannedFromAnchor(checks: Checks, store: Store, config: Config, trust: Trust, approval: Approval, now: int)
    requires AnchorAccount in store && PlanRecovery(checks, store, config, trust, approval, now).Success?
    ensures trust.keyset.Some? && trust.pin.Some?
    ensures PlanRecovery(checks, store, config, trust, approval, now) ==
            Success(ProtectedPlan(config, trust, approval, store[AnchorAccount]))
    ensures Outlives(PlanRecovery(checks, store, config, trust, approval, now).value)
  {
    hide KeysetValid, BindAnchor, RetainedKeysUnchanged;
  }

  lemma PlannedFromJournal(checks: Checks, plan: Plan, base: Store, store: Store, config: Config, trust: Trust,
                           approval: Approval, now: int)
    requires trust.keyset.Some? && plan == ProtectedPlan(config, trust, approval, plan.previous)
    requires Interrupted(plan, base, store) && PlanRecovery(checks, store, config, trust, approval, now).Success?
    ensures PlanRecovery(checks, store, config, trust, approval, now) == Success(plan)
    ensures Outlives(plan)
  {
    hide KeysetValid, BindAnchor, RetainedKeysUnchanged;
  }

  lemma EligibleIsPlanned(checks: Checks, plan: Plan, base: Store, store: Store, config: Config, trust: Trust,
                          approval: Approval, now: int)
    requires Eligible(checks, config, trust, approval, plan.previous, now)
    requires plan == ProtectedPlan(config, trust, approval, plan.previous)
    requires (Started(plan, base, store) && PriorAllows(checks, plan, base)) || Interrupted(plan, base, store)
    ensures PlanRecovery(checks, store, config, trust, approval, now) == Success(plan)
  {
    hide KeysetValid, RetainedKeysUnchanged;
  }

  /** With both the anchor and the journal gone, the same approval is refused. */
  lemma LostIsRefused(checks: Checks, plan: Plan, base: Store, store: Store, config: Config, trust: Trust,
                      approval: Approval, now: int)
    requires trust.keyset.Some? && plan == ProtectedPlan(config, trust, approval, plan.previous)
    requires Lost(plan, base, store)
    ensures PlanRecovery(checks, store, config, trust, approval, now).Failure?
  {
    hide KeysetValid, BindAnchor, RetainedKeysUnchanged;
  }

  /** A finished recovery is not repeated: its approval does not follow the new trust's expiry. */
  lemma DoneIsRefused(checks: Checks, plan: Plan, base: Store, store: Store, config: Config, trust: Trust,
                      approval: Approval, now: int)
    requires trust.keyset.Some? && plan == ProtectedPlan(config, trust, approval, plan.previous)
    requires Done(plan, base, store) && Outlives(plan)
    ensures PlanRecovery(checks, store, config, trust, approval, now).Failure?
  {
    hide KeysetValid, RetainedKeysUnchanged;
  }

  // ---------------------------------------------------------------- the writes

  ghost function WithArchive(plan: Plan, store: Store): Store {
    store[HistoryAccount(plan.recovery.previousAnchorHash) := plan.previous]
  }

  ghost function WithApproval(plan: Plan, store: Store): Store {
    WithArchive(plan, store)[ApprovalAccount(plan.recovery.approval.enrollmentId) := RecoveryText(plan.recovery)]
  }

  ghost function WithJournal(plan: Plan, store: Store): Store {
    WithApproval(plan, store)[RecoveryAccount := RecoveryText(plan.recovery)]
  }

  ghost function WithAnchor(plan: Plan, store: Store): Store {
    WithJournal(plan, store)[AnchorAccount := plan.recovery.replacementAnchor]
  }

  /** Every store the four writes can leave behind. The first two are made only where nothing is yet, so
      they have no half-way state of their own; the other two replace whatever is there. */
  ghost predicate WritesLeave(plan: Plan, before: Store, after: Store) {
    || after in {before, WithArchive(plan, before), WithApproval(plan, before)}
    || PutLeaves(WithApproval(plan, before), RecoveryAccount, RecoveryText(plan.recovery), after)
    || PutLeaves(WithJournal(plan, before), AnchorAccount, plan.recovery.replacementAnchor, after)
  }

  method WriteRecovery(host: Host<Account, Text>, plan: Plan) returns (r: Result<Config>)
    requires Lookup(host.contents, HistoryAccount(plan.recovery.previousAnchorHash)) in {None, Some(plan.previous)}
    requires Lookup(host.contents, ApprovalAccount(plan.recovery.approval.enrollmentId)) in
             {None, Some(RecoveryText(plan.recovery))}
    modifies host`contents, host`wroteAt
    ensures WritesLeave(plan, old(host.contents), host.contents)
    ensures r.Success? ==> r.value == plan.updated && host.contents == WithAnchor(plan, old(host.contents))
    ensures host.healthy ==> r.Success?
  {
    var archive := HistoryAccount(plan.recovery.previousAnchorHash);
    var approvalAccount := ApprovalAccount(plan.recovery.approval.enrollmentId);
    var archived :- host.Fresh(archive);
    var seen :- host.Fresh(approvalAccount);
    if archived.None? {
      assert host.contents - {archive} == host.contents;
      var _ :- host.ConfirmedPut(archive, plan.previous, "secure_store_write_not_confirmed");
    }
    assert host.contents == WithArchive(plan, old(host.contents));
    if seen.None? {
      assert host.contents - {approvalAccount} == host.contents;
      var _ :- host.ConfirmedPut(approvalAccount, RecoveryText(plan.recovery), "secure_store_write_not_confirmed");
    }
    assert host.contents == WithApproval(plan, old(host.contents));
    var _ :- host.ConfirmedPut(RecoveryAccount, RecoveryText(plan.recovery), "secure_store_write_not_confirmed");
    var _ :- host.ConfirmedPut(AnchorAccount, plan.recovery.replacementAnchor, "secure_store_write_not_confirmed");
    return Success(plan.updated);
  }

  /** What one attempt, finished or not, does to a store. */
  ghost predicate Attempt(checks: Checks, config: Config, trust: Trust, approval: Approval, now: int,
                          before: Store, after: Store)
  {
    var plan := PlanRecovery(checks, before, config, trust, approval, now);
    if plan.Failure? then after == before else WritesLeave(plan.value, before, after)
  }

  method RecoverDemoSigningEnrollment(host: Host<Account, Text>, checks: Checks, config: Config, trust: Trust,
                                      approval: Approval, now: int) returns (r: Result<Config>)
    modifies host`contents, host`wroteAt
    ensures Attempt(checks, config, trust, approval, now, old(host.contents), host.contents)
    ensures r.Success? ==>
              var plan := PlanRecovery(checks, old(host.contents), config, trust, approval, now);
              && plan.Success?
              && r.value == plan.value.updated
              && host.contents == WithAnchor(plan.value, old(host.contents))
    ensures host.healthy ==>
              (r.Success? <==> PlanRecovery(checks, old(host.contents), config, trust, approval, now).Success?)
    // Nothing is written or answered but under a good approval, with trust that holds under its own pin and follows an
    // archived head that ran out before the approval.
    ensures r.Success? || host.contents != old(host.contents) ==>
              && ApprovesDevice(checks, config, approval, now)
              && trust.pin.Some? && trust.keyset.Some?
              && Trusted(checks.keys, trust.keyset.value, config.binding.device.organizationId, now, trust.pin)
              && var plan := PlanRecovery(checks, old(host.contents), config, trust, approval, now);
                 && plan.Success? && plan.value.previous.AnchorText?
                 && var head := plan.value.previous.anchor.head.keyset;
                    && head.expiresAt <= now && head.expiresAt < approval.approvedAt.ms
                    && head.generation < trust.keyset.value.generation
    ensures r.Success? ==> r.value.keyset == trust.keyset && r.value.binding == config.binding.(pin := trust.pin)
  {
    hide PlanRecovery, Trusted, ApprovesDevice;
    var store := host.ReadAll();
    if store.Failure? {
      assert WritesNothing(checks, config, trust, approval, now, host.contents);
      return Failure(store.reason);
    }
    var plan :- PlanRecovery(checks, store.value, config, trust, approval, now);
    PlannedAccounts(checks, store.value, config, trust, approval, now);
    PlanIsTrusted(checks, store.value, config, trust, approval, now);
    MadePlan(checks, store.value, config, trust, approval, now);
    r := WriteRecovery(host, plan);
  }

  ghost predicate WritesNothing(checks: Checks, config: Config, trust: Trust, approval: Approval, now: int,
                                store: Store) {
    Attempt(checks, config, trust, approval, now, store, store)
  }

  lemma PlannedAccounts(checks: Checks, store: Store, config: Config, trust: Trust, approval: Approval, now: int)
    requires PlanRecovery(checks, store, config, trust, approval, now).Success?
    ensures var plan := PlanRecovery(checks, store, config, trust, approval, now).value;
            && plan.recovery.previousAnchorHash == Sha256(plan.previous)
            && Lookup(store, HistoryAccount(plan.recovery.previousAnchorHash)) in {None, Some(plan.previous)}
            && Lookup(store, ApprovalAccount(plan.recovery.approval.enrollmentId)) in
               {None, Some(RecoveryText(plan.recovery))}
  {
    hide KeysetValid, BindAnchor, RetainedKeysUnchanged, ReplacementAllowed;
  }

  // ---------------------------------------------------------------- phases

  lemma WritesFromStarted(plan: Plan, base: Store, before: Store, after: Store)
    requires plan.recovery.previousAnchorHash == Sha256(plan.previous)
    requires Started(plan, base, before) && WritesLeave(plan, before, after)
    ensures Started(plan, base, after) || Interrupted(plan, base, after) || Done(plan, base, after)
  {
    assert OnlyRecoveryAccounts(plan, base, after);
  }

  lemma WritesFromInterrupted(plan: Plan, base: Store, before: Store, after: Store)
    requires plan.recovery.previousAnchorHash == Sha256(plan.previous)
    requires Interrupted(plan, base, before) && WritesLeave(plan, before, after)
    ensures Interrupted(plan, base, after) || Lost(plan, base, after) || Done(plan, base, after)
  {
    assert OnlyRecoveryAccounts(plan, base, after);
  }

  /** The phase an attempt can leave, by the phase it found. */
  ghost predicate PhaseAllowed(plan: Plan, base: Store, before: Store, after: Store) {
    && (Started(plan, base, before) ==>
          Started(plan, base, after) || Interrupted(plan, base, after) || Done(plan, base, after))
    && (Interrupted(plan, base, before) ==>
          Interrupted(plan, base, after) || Lost(plan, base, after) || Done(plan, base, after))
    && (Lost(plan, base, before) || Done(plan, base, before) ==> after == before)
  }

  /** An attempt at any time, stopped anywhere: only from an interrupted replacement can it lose the journal,
      so no single crash loses anything. */
  lemma AttemptsMovePhases(checks: Checks, config: Config, trust: Trust, approval: Approval, now: int,
                           previous: Text, base: Store, before: Store, after: Store)
    requires trust.keyset.Some? && Outlives(ProtectedPlan(config, trust, approval, previous))
    requires Attempt(checks, config, trust, approval, now, before, after)
    ensures PhaseAllowed(ProtectedPlan(config, trust, approval, previous), base, before, after)
  {
    hide PlanRecovery;
    var plan := ProtectedPlan(config, trust, approval, previous);
    var found := PlanRecovery(checks, before, config, trust, approval, now);
    if Started(plan, base, before) && found.Success? {
      PlannedFromAnchor(checks, before, config, trust, approval, now);
      WritesFromStarted(plan, base, before, after);
    }
    if Interrupted(plan, base, before) && found.Success? {
      PlannedFromJournal(checks, plan, base, before, config, trust, approval, now);
      WritesFromInterrupted(plan, base, before, after);
    }
    if Lost(plan, base, before) {
      LostIsRefused(checks, plan, base, before, config, trust, approval, now);
    }
    if Done(plan, base, before) {
      DoneIsRefused(checks, plan, base, before, config, trust, approval, now);
    }
  }

  /** The stores between attempts with one approval and one replacement trust, at any times. */
  ghost function Attempts(checks: Checks, config: Config, trust: Trust, approval: Approval): (Store, Store) -> bool {
    (before, after) => exists now :: Attempt(checks, config, trust, approval, now, before, after)
  }

  /** Over any number of stopped attempts the store stays in one of the four phases, and is `Lost` only
      after an earlier attempt had already left it `Interrupted`. */
  lemma {:induction false} RunsStayInPhase(checks: Checks, config: Config, trust: Trust, approval: Approval,
                                           previous: Text, run: seq<Store>, i: nat)
    requires trust.keyset.Some? && Outlives(ProtectedPlan(config, trust, approval, previous))
    requires run != [] && Started(ProtectedPlan(config, trust, approval, previous), run[0], run[0])
    requires Linked(Attempts(checks, config, trust, approval), run) && i < |run|
    ensures var plan := ProtectedPlan(config, trust, approval, previous);
            || Started(plan, run[0], run[i])
            || Interrupted(plan, run[0], run[i])
            || Done(plan, run[0], run[i])
            || (Lost(plan, run[0], run[i]) && exists j: nat :: j < i && Interrupted(plan, run[0], run[j]))
  {
    if i > 0 {
      RunsStayInPhase(checks, config, trust, approval, previous, run, i - 1);
      assert LinkedAt(Attempts(checks, config, trust, approval), run, i - 1);
      var now :| Attempt(checks, config, trust, approval, now, run[i - 1], run[i]);
      AttemptsMovePhases(checks, config, trust, approval, now, previous, run[0], run[i - 1], run[i]);
    }
  }

  /** With the approval and trust still good, repeating the recovery finishes it from every phase but the lost
      one: the condition is that the anchor or the journal is there. */
  lemma ResumesUnlessLost(checks: Checks, config: Config, trust: Trust, approval: Approval, now: int,
                          previous: Text, base: Store, store: Store)
    requires Eligible(checks, config, trust, approval, previous, now)
    requires var plan := ProtectedPlan(config, trust, approval, previous);
             && PriorAllows(checks, plan, base)
             && (Started(plan, base, store) || Interrupted(plan, base, store) || Lost(plan, base, store))
    ensures var plan := ProtectedPlan(config, trust, approval, previous);
            && (PlanRecovery(checks, store, config, trust, approval, now).Success? <==>
                  AnchorAccount in store || RecoveryAccount in store)
            && (PlanRecovery(checks, store, config, trust, approval, now).Success? ==>
                  && PlanRecovery(checks, store, config, trust, approval, now).value == plan
                  && Done(plan, base, WithAnchor(plan, store)))
  {
    hide PlanRecovery;
    var plan := ProtectedPlan(config, trust, approval, previous);
    if Lost(plan, base, store) {
      LostIsRefused(checks, plan, base, store, config, trust, approval, now);
    } else {
      EligibleIsPlanned(checks, plan, base, store, config, trust, approval, now);
      assert OnlyRecoveryAccounts(plan, base, WithAnchor(plan, store));
    }
  }

  /** The loss is real: resuming rewrites the confirmed journal, and stopping between the two halves of that
      write, with the anchor already gone, leaves neither. It is an attempt like any other. */
  lemma ResumingCanLose(checks: Checks, config: Config, trust: Trust, approval: Approval, now: int,
                        previous: Text, base: Store, store: Store)
    requires Eligible(checks, config, trust, approval, previous, now)
    requires Interrupted(ProtectedPlan(config, trust, approval, previous), base, store)
    ensures Attempt(checks, config, trust, approval, now, store, store - {RecoveryAccount})
    ensures Lost(ProtectedPlan(config, trust, approval, previous), base, store - {RecoveryAccount})
  {
    hide PlanRecovery, Eligible;
    PlanOfEligible(checks, config, trust, approval, now, previous);
    var plan := ProtectedPlan(config, trust, approval, previous);
    EligibleIsPlanned(checks, plan, base, store, config, trust, approval, now);
    assert WithApproval(plan, store) == store;
    assert OnlyRecoveryAccounts(plan, base, store - {RecoveryAccount});
  }

  lemma PlanOfEligible(checks: Checks, config: Config, trust: Trust, approval: Approval, now: int, previous: Text)
    requires Eligible(checks, config, trust, approval, previous, now)
    ensures trust.keyset.Some?
    ensures var plan := ProtectedPlan(config, trust, approval, previous);
            plan == ProtectedPlan(config, trust, approval, plan.previous) && plan.previous == previous
  {
  }

  /** A first attempt can be stopped in the anchor's put. */
  lemma StartingCanBeInterrupted(checks: Checks, config: Config, trust: Trust, approval: Approval, now: int,
                                 previous: Text, store: Store)
    requires Eligible(checks, config, trust, approval, previous, now)
    requires var plan := ProtectedPlan(config, trust, approval, previous);
             Started(plan, store, store) && PriorAllows(checks, plan, store)
    ensures var plan := ProtectedPlan(config, trust, approval, previous);
            && Attempt(checks, config, trust, approval, now, store, WithJournal(plan, store) - {AnchorAccount})
            && Interrupted(plan, store, WithJournal(plan, store) - {AnchorAccount})
  {
    hide PlanRecovery, Eligible;
    PlanOfEligible(checks, config, trust, approval, now, previous);
    var plan := ProtectedPlan(config, trust, approval, previous);
    EligibleIsPlanned(checks, plan, store, store, config, trust, approval, now);
    assert OnlyRecoveryAccounts(plan, store, WithJournal(plan, store) - {AnchorAccount});
  }

  // ---------------------------------------------------------------- a renewed approval

  /** What lets a later approval take over an interrupted recovery: the earlier one has run out, the recipient
      is the same, and the pending replacement is not ahead of the trust now offered. */
  ghost predicate TakesOver(checks: Checks, plan: Plan, trust: Trust, renewed: Approval, now: int) {
    var first := plan.recovery.approval;
    && first.enrollmentId != renewed.enrollmentId
    && first.expiresAt.ms <= now && first.expiresAt.ms < renewed.approvedAt.ms
    && SameRecipient(first, renewed)
    && checks.approval(first)
    && plan.recovery.replacementAnchor.AnchorText?
    && trust.keyset.Some?
    && DiskHeadAllowed(checks, Some(plan.recovery.replacementAnchor.anchor.head.keyset), trust.keyset.value)
  }

  /** An interrupted recovery whose approval ran out is finished by an eligible renewed approval: the archived
      anchor stands in again, and the end is the renewed plan's. */
  lemma RenewedApprovalFinishes(checks: Checks, config: Config, trust: Trust, approval: Approval, renewedTrust: Trust,
                                renewed: Approval, now: int, previous: Text, base: Store, store: Store)
    requires trust.keyset.Some? && Interrupted(ProtectedPlan(config, trust, approval, previous), base, store)
    requires Eligible(checks, config, renewedTrust, renewed, previous, now)
    requires TakesOver(checks, ProtectedPlan(config, trust, approval, previous), renewedTrust, renewed, now)
    requires ApprovalAccount(renewed.enrollmentId) !in store
    ensures var plan := ProtectedPlan(config, renewedTrust, renewed, previous);
            && PlanRecovery(checks, store, config, renewedTrust, renewed, now) == Success(plan)
            && Done(plan, store, WithAnchor(plan, store))
  {
    hide KeysetValid, RetainedKeysUnchanged;
    var plan := ProtectedPlan(config, renewedTrust, renewed, previous);
    assert OnlyRecoveryAccounts(plan, store, WithAnchor(plan, store));
  }

  // ---------------------------------------------------------------- a device without a protected anchor

  /** A legacy device archives its disk head under its pin. */
  function LegacyPlan(config: Config, trust: Trust, approval: Approval): Plan
    requires config.keyset.Some? && trust.keyset.Some?
  {
    MakePlan(config, trust, approval, config.keyset.value, None)
  }

  ghost predicate LegacyEligible(checks: Checks, config: Config, trust: Trust, approval: Approval, now: int) {
    && checks.approval(approval) && ApprovalInScope(config, approval, now)
    && config.keyset.Some? && trust.keyset.Some? && trust.pin.Some?
    && ReplacementAllowed(checks, config.binding.device.organizationId, config.keyset.value, config.binding.pin,
                          trust.keyset.value, trust.pin.value, approval, now)
  }

  /** The new anchor is not there yet; of the other three accounts each holds what it held or what is planned. */
  ghost predicate LegacyOpen(plan: Plan, base: Store, store: Store) {
    && OnlyRecoveryAccounts(plan, base, store) && AnchorAccount !in store
    && Lookup(store, HistoryAccount(Sha256(plan.previous))) in {None, Some(plan.previous)}
    && Lookup(store, ApprovalAccount(plan.recovery.approval.enrollmentId)) in {None, Some(RecoveryText(plan.recovery))}
    && Lookup(store, RecoveryAccount) in {None, Lookup(base, RecoveryAccount), Some(RecoveryText(plan.recovery))}
  }

  /** No earlier journal of a protected anchor, and none against this approval. */
  ghost predicate LegacyPriorAllows(checks: Checks, plan: Plan, base: Store) {
    PriorAllows(checks, plan, base)
    && (RecoveryAccount in base ==> ParseRecovery(checks, base[RecoveryAccount]).value.previousWasProtected == false)
  }

  /** Without a protected anchor to lose, every crash can be resumed: from any open store the recovery finishes. */
  lemma LegacyAlwaysResumes(checks: Checks, config: Config, trust: Trust, approval: Approval, now: int,
                            base: Store, store: Store)
    requires LegacyEligible(checks, config, trust, approval, now)
    requires var plan := LegacyPlan(config, trust, approval);
             LegacyPriorAllows(checks, plan, base) && LegacyOpen(plan, base, store)
    ensures var plan := LegacyPlan(config, trust, approval);
            && PlanRecovery(checks, store, config, trust, approval, now) == Success(plan)
            && Done(plan, base, WithAnchor(plan, store))
  {
    hide KeysetValid, RetainedKeysUnchanged, ReplacementAllowed, BindAnchor;
    var plan := LegacyPlan(config, trust, approval);
    assert OnlyRecoveryAccounts(plan, base, WithAnchor(plan, store));
  }

  /** And an attempt stopped anywhere leaves the store open or finished. */
  lemma LegacyStaysOpen(checks: Checks, config: Config, trust: Trust, approval: Approval, now: int,
                        base: Store, before: Store, after: Store)
    requires LegacyEligible(checks, config, trust, approval, now)
    requires var plan := LegacyPlan(config, trust, approval);
             LegacyPriorAllows(checks, plan, base) && LegacyOpen(plan, base, before)
    requires Attempt(checks, config, trust, approval, now, before, after)
    ensures var plan := LegacyPlan(config, trust, approval);
            LegacyOpen(plan, base, after) || Done(plan, base, after)
  {
    hide PlanRecovery, LegacyEligible, LegacyPriorAllows;
    LegacyAlwaysResumes(checks, config, trust, approval, now, base, before);
    LegacyHasTrust(checks, config, trust, approval, now);
    LegacyWritesStayOpen(LegacyPlan(config, trust, approval), base, before, after);
  }

  lemma LegacyHasTrust(checks: Checks, config: Config, trust: Trust, approval: Approval, now: int)
    requires LegacyEligible(checks, config, trust, approval, now)
    ensures config.keyset.Some? && trust.keyset.Some?
    ensures LegacyPlan(config, trust, approval).recovery.previousAnchorHash ==
            Sha256(LegacyPlan(config, trust, approval).previous)
  {
  }

  lemma LegacyWritesStayOpen(plan: Plan, base: Store, before: Store, after: Store)
    requires plan.recovery.previousAnchorHash == Sha256(plan.previous)
    requires LegacyOpen(plan, base, before) && WritesLeave(plan, before, after)
    ensures LegacyOpen(plan, base, after) || Done(plan, base, after)
  {
    assert OnlyRecoveryAccounts(plan, base, after);
  }

  // ---------------------------------------------------------------- the way out of a loss

  /** The disk's own keyset ran out before the approval, was valid under its pin to the end, and the new trust
      keeps its retained keys. */
  predicate DiskCanBeReplaced(checks: Checks, config: Config, trusted: Keyset, approval: Approval, now: int) {
    && config.keyset.Some?
    && var disk := config.keyset.value;
       && disk.expiresAt <= now && disk.expiresAt < approval.approvedAt.ms
       && KeysetValid(checks.keys, disk, config.binding.device.organizationId, disk.expiresAt - 1, config.binding.pin)
       && RetainedKeysUnchanged(disk, trusted)
  }

  /** The key that signed the disk's keyset is the pinned one. */
  predicate SignedUnderPin(config: Config) {
    && config.keyset.Some?
    && (config.binding.pin.Some? ==>
          var signer := Find(config.keyset.value.keys, config.keyset.value.signedBy);
          signer.Some? && signer.value.publicKey == config.binding.pin.value)
  }

  /** Neither record of the approval nor any other text stands where the disk's head would be archived. */
  ghost predicate RoomFor(config: Config, approval: Approval, store: Store) {
    && ApprovalAccount(approval.enrollmentId) !in store
    && (config.keyset.Some? ==>
          Lookup(store, HistoryAccount(Sha256(MigratedAnchor(config)))) in {None, Some(MigratedAnchor(config))})
  }

  /** A device that lost both records is left with its disk keyset. A later approval and trust, good for the
      archived anchor, finish if and only if they can replace that keyset; when the disk was not behind the anchor,
      if and only if the disk's signer is the pinned key. It then is a legacy recovery, and cannot lose anything. */
  lemma FreshApprovalFinishes(checks: Checks, config: Config, trust: Trust, approval: Approval, laterTrust: Trust,
                              later: Approval, now: int, previous: Text, base: Store, store: Store)
    requires trust.keyset.Some? && Lost(ProtectedPlan(config, trust, approval, previous), base, store)
    requires Eligible(checks, config, laterTrust, later, previous, now) && RoomFor(config, later, store)
    ensures var found := PlanRecovery(checks, store, config, laterTrust, later, now);
            && (found.Success? <==> DiskCanBeReplaced(checks, config, laterTrust.keyset.value, later, now))
            && (config.keyset == Some(ParseAnchor(checks, previous).value.head.keyset) ==>
                  (found.Success? <==> SignedUnderPin(config)))
    ensures PlanRecovery(checks, store, config, laterTrust, later, now).Success? ==>
              var plan := LegacyPlan(config, laterTrust, later);
              && LegacyEligible(checks, config, laterTrust, later, now)
              && LegacyPriorAllows(checks, plan, store) && LegacyOpen(plan, store, store)
              && PlanRecovery(checks, store, config, laterTrust, later, now) == Success(plan)
              && Done(plan, store, WithAnchor(plan, store))
  {
    hide KeysetValid, RetainedKeysUnchanged, SignedUnderPin, LegacyPlan, Find;
    FreshIsLegacy(checks, config, laterTrust, later, previous, now);
    var plan := LegacyPlan(config, laterTrust, later);
    LegacyPlanIs(config, laterTrust, later);
    assert OnlyRecoveryAccounts(plan, store, store);
    if LegacyEligible(checks, config, laterTrust, later, now) {
      LegacyAlwaysResumes(checks, config, laterTrust, later, now, store, store);
    }
    var archived := ParseAnchor(checks, previous).value.head.keyset;
    if config.keyset == Some(archived) {
      PinDecides(checks.keys, config, config.binding.device.organizationId, archived.expiresAt - 1);
    }
  }

  lemma LegacyPlanIs(config: Config, trust: Trust, approval: Approval)
    requires config.keyset.Some? && trust.keyset.Some?
    ensures var plan := LegacyPlan(config, trust, approval);
            && plan.previous == MigratedAnchor(config) && plan.recovery.approval == approval
            && plan.recovery.previousAnchorHash == Sha256(plan.previous)
  {
  }

  /** What the archived anchor already shows of the disk behind it. */
  lemma FreshIsLegacy(checks: Checks, config: Config, trust: Trust, approval: Approval, previous: Text, now: int)
    requires Eligible(checks, config, trust, approval, previous, now)
    ensures config.keyset.Some? && trust.keyset.Some?
    ensures DiskCanBeReplaced(checks, config, trust.keyset.value, approval, now) <==>
            LegacyEligible(checks, config, trust, approval, now)
  {
    hide KeysetValid, RetainedKeysUnchanged;
  }

  lemma PinDecides(checks: KeyChecks, config: Config, organizationId: string, at: int)
    requires config.keyset.Some? && KeysetValid(checks, config.keyset.value, organizationId, at, None)
    ensures KeysetValid(checks, config.keyset.value, organizationId, at, config.binding.pin) <==> SignedUnderPin(config)
  {
  }

  /** Once the new anchor is in place, resolving from the old disk configuration yields the replacement. */
  lemma DoneResolves(checks: Checks, config: Config, trust: Trust, approval: Approval, approvedNow: int, now: int,
                     previous: Text, base: Store, store: Store)
    requires Eligible(checks, config, trust, approval, previous, approvedNow) && HasTrust(checks, config)
    requires Done(ProtectedPlan(config, trust, approval, previous), base, store)
    requires KeysetValid(checks.keys, trust.keyset.value, config.binding.device.organizationId, now, None)
    ensures ResolveOutcome(checks, store, config, now) ==
            Success(Outcome(Config(config.binding.(pin := trust.pin), trust.keyset), store))
  {
    hide RetainedKeysUnchanged;
    var plan := ProtectedPlan(config, trust, approval, previous);
    ReplacementSchema(checks, config.binding.device.organizationId, trust.keyset.value, now);
    hide KeysetValid;
  }

  lemma TrustLasts(checks: KeyChecks, keyset: Keyset, organizationId: string, from: int, to: int, pin: Option<string>)
    requires KeysetValid(checks, keyset, organizationId, from, pin) && from <= to < keyset.expiresAt
    ensures KeysetValid(checks, keyset, organizationId, to, None)
  {
    KeysetValidMeans(checks, keyset, organizationId, from, pin);
    KeysetValidMeans(checks, keyset, organizationId, to, None);
    hide KeysetValid;
  }

  /** And does so for as long as the new keyset lives. */
  lemma DoneResolvesWhileAlive(checks: Checks, config: Config, trust: Trust, approval: Approval, approvedNow: int,
                               now: int, previous: Text, base: Store, store: Store)
    requires Eligible(checks, config, trust, approval, previous, approvedNow) && HasTrust(checks, config)
    requires Done(ProtectedPlan(config, trust, approval, previous), base, store)
    requires approvedNow <= now < trust.keyset.value.expiresAt
    ensures ResolveOutcome(checks, store, config, now) ==
            Success(Outcome(Config(config.binding.(pin := trust.pin), trust.keyset), store))
  {
    TrustLasts(checks.keys, trust.keyset.value, config.binding.device.organizationId, approvedNow, now, trust.pin);
    hide Eligible, KeysetValid, Done;
    DoneResolves(checks, config, trust, approval, approvedNow, now, previous, base, store);
  }

  lemma ReplacementSchema(checks: Checks, organizationId: string, keyset: Keyset, now: int)
    requires KeysetValid(checks.keys, keyset, organizationId, now, None)
    ensures checks.keys.schema(keyset)
  {
  }

  // ---------------------------------------------------------------- one run that loses both

  function NewKeyset(): Keyset {
    Keyset("org_a", 3, [SampleKey("k3", Active)], "k3", 10 * DAY, 20 * DAY, "s")
  }

  function SampleTrust(): Trust {
    Trust(Some("k3"), Some(NewKeyset()))
  }

  /** A day after the sample keyset ran out. */
  function SampleApproval(): Approval {
    Approval("org_a", "", "p", "", "e", "", Stamp(11 * DAY, ""), Stamp(11 * DAY + 10 * MINUTE, ""))
  }

  lemma NewKeysetIsValid()
    ensures KeysetValid(SampleChecks(), NewKeyset(), "org_a", 11 * DAY, Some("k3"))
    ensures KeysetValid(SampleChecks(), NewKeyset(), "org_a", 11 * DAY, None)
  {
    var keys := NewKeyset().keys;
    assert keys[1..] == [] && keys[0] in keys;
    assert ActiveKeys(keys[1..]) == [];
  }

  lemma SampleIsEligible()
    ensures Eligible(SampleTrustChecks(), SampleConfig(), SampleTrust(), SampleApproval(),
                     SampleStore()[AnchorAccount], 11 * DAY)
  {
    SampleKeysetIsValid(2, Active, Overlap, "k1", 10 * DAY - 1, None);
    NewKeysetIsValid();
    assert RetainedKeysUnchanged(SampleHead().keyset, NewKeyset()) by {
      assert NewKeyset().keys[1..] == [];
      assert "k1"[1] != "k3"[1] && "k2"[1] != "k3"[1];
    }
    hide KeysetValid, RetainedKeysUnchanged, SampleKeys;
  }

  /** A device whose anchor and disk agree, two stopped attempts, and the same approval refused for good. */
  lemma RecoveryCanBeLost()
    ensures exists checks: Checks, config: Config, trust: Trust, approval: Approval, now: int, first: Store,
                   second: Store, third: Store ::
              && AnchorAccount in first && Eligible(checks, config, trust, approval, first[AnchorAccount], now)
              && Attempt(checks, config, trust, approval, now, first, second)
              && Attempt(checks, config, trust, approval, now, second, third)
              && PlanRecovery(checks, third, config, trust, approval, now).Failure?
  {
    hide Eligible, Attempt, PlanRecovery, SampleKeys;
    var checks, config, trust, approval := SampleTrustChecks(), SampleConfig(), SampleTrust(), SampleApproval();
    var first := SampleStore();
    var previous := first[AnchorAccount];
    var plan := ProtectedPlan(config, trust, approval, previous);
    var second := WithJournal(plan, first) - {AnchorAccount};
    var third := second - {RecoveryAccount};
    SampleIsEligible();
    PlanOfEligible(checks, config, trust, approval, 11 * DAY, previous);
    assert Started(plan, first, first) && PriorAllows(checks, plan, first);
    StartingCanBeInterrupted(checks, config, trust, approval, 11 * DAY, previous, first);
    ResumingCanLose(checks, config, trust, approval, 11 * DAY, previous, first, second);
    LostIsRefused(checks, plan, first, third, config, trust, approval, 11 * DAY);
  }
}
