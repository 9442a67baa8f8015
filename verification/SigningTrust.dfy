/** The protected signing anchor: resolving it, migrating to it and advancing it along a chain
    (packages/cli/src/demoSigningTrust.ts).

    The accounts of one device; a store that also serves other devices keeps them under other names. */
module SigningTrust {
  import opened Outcomes
  import opened Runs
  import opened SecureStorage
  import opened KeyRotation

  // ---------------------------------------------------------------- data

  datatype Device = Device(hqUrl: string, organizationId: string, repositoryId: string,
                           normalizedRepository: string, installationId: string, deviceId: string,
                           publicKey: string, enrolledAt: string)

  datatype Binding = Binding(device: Device, pin: Option<string>)

  /** The disk configuration: what it is bound to, and the newest keyset it has seen. */
  datatype Config = Config(binding: Binding, keyset: Option<Keyset>)

  datatype Anchor = Anchor(binding: Binding, head: Head)

  datatype Approval = Approval(organizationId: string, repositoryId: string, participantId: string,
                               deviceId: string, enrollmentId: string, publicKey: string,
                               approvedAt: Stamp, expiresAt: Stamp)

  /** SHA-256 is injective: a digest is the text it was taken of. */
  datatype Digest = Sha256(text: Text)

  datatype Recovery = Recovery(previousAnchorHash: Digest, previousWasProtected: bool,
                               replacementAnchor: Text, approval: Approval)

  /** Stored text: the canonical form of an anchor or of a recovery record, or any other text. */
  datatype Text = AnchorText(anchor: Anchor) | RecoveryText(recovery: Recovery) | OtherText(text: string)

  datatype Account =
    | AnchorAccount
    | RecoveryAccount
    | HistoryAccount(hash: Digest)
    | ApprovalAccount(enrollmentId: string)

  datatype Checks = Checks(keys: KeyChecks, approval: Approval -> bool, pin: string -> bool)

  type Store = map<Account, Text>

  datatype Bound = Bound(config: Config, anchor: Anchor)

  /** What a call answers and the store it leaves on a host that performs every operation. */
  datatype Outcome = Outcome(config: Config, store: Store)

  // ---------------------------------------------------------------- plain checks

  function ParseAnchor(checks: Checks, text: Text): (r: Result<Anchor>)
    ensures r.Success? ==> text == AnchorText(r.value)
  {
    if text.AnchorText? && checks.keys.schema(text.anchor.head.keyset) then Success(text.anchor)
    else Failure("protected_anchor_malformed")
  }

  function ParseRecovery(checks: Checks, text: Text): (r: Result<Recovery>)
    ensures r.Success? ==> text == RecoveryText(r.value)
  {
    if text.RecoveryText? && checks.approval(text.recovery.approval) then Success(text.recovery)
    else Failure("protected_recovery_malformed")
  }

  /** The disk may be behind the anchor, never ahead of it or beside it. */
  predicate DiskHeadAllowed(checks: Checks, disk: Option<Keyset>, anchored: Keyset) {
    && disk.Some? && checks.keys.schema(disk.value)
    && disk.value.generation <= anchored.generation
    && (disk.value.generation == anchored.generation ==> disk.value == anchored)
  }

  /** `boundAnchor`: the anchor is bound to this configuration, or a confirmed journal bridges the two pins. */
  function BindAnchor(checks: Checks, config: Config, serialized: Text, store: Store): Result<Bound> {
    var anchor :- ParseAnchor(checks, serialized);
    if anchor.binding == config.binding then
      if DiskHeadAllowed(checks, config.keyset, anchor.head.keyset) then Success(Bound(config, anchor))
      else Failure("protected_anchor_conflict")
    else if RecoveryAccount !in store then Failure("protected_anchor_binding_mismatch")
    else
      var recovery :- ParseRecovery(checks, store[RecoveryAccount]);
      var replacement :- ParseAnchor(checks, recovery.replacementAnchor);
      if HistoryAccount(recovery.previousAnchorHash) !in store then Failure("protected_anchor_binding_mismatch")
      else
        var archived := store[HistoryAccount(recovery.previousAnchorHash)];
        if Sha256(archived) != recovery.previousAnchorHash then Failure("protected_anchor_binding_mismatch")
        else
          var previous :- ParseAnchor(checks, archived);
          if previous.binding != config.binding || replacement.binding != anchor.binding then
            Failure("protected_anchor_binding_mismatch")
          else if !DiskHeadAllowed(checks, config.keyset, previous.head.keyset)
                  || !DiskHeadAllowed(checks, Some(replacement.head.keyset), anchor.head.keyset) then
            Failure("protected_anchor_conflict")
          else
            Success(Bound(Config(config.binding.(pin := replacement.binding.pin), Some(replacement.head.keyset)),
                          anchor))
  }

  predicate PreloadRecorded(head: Head) {
    head.next.Some? ==> exists k :: k in head.keyset.keys && k.version == head.next.value && k.status.Overlap?
  }

  predicate HasTrust(checks: Checks, config: Config) {
    config.binding.pin.Some? && checks.pin(config.binding.pin.value) && config.keyset.Some?
  }

  function MigratedAnchor(config: Config): Text
    requires config.keyset.Some?
  {
    AnchorText(Anchor(config.binding, Head(config.keyset.value, None)))
  }

  /** `resolveDemoSigningTrust` as a function of the protected store. */
  function ResolveOutcome(checks: Checks, store: Store, config: Config, now: int): (r: Result<Outcome>)
    ensures r.Success? ==> AnchorAccount in r.value.store && r.value.store[AnchorAccount].AnchorText?
    ensures r.Success? ==> r.value.config.keyset == Some(r.value.store[AnchorAccount].anchor.head.keyset)
  {
    if !HasTrust(checks, config) then Failure("missing_enrollment_trust")
    else if AnchorAccount !in store then
      if KeysetValid(checks.keys, config.keyset.value, config.binding.device.organizationId, now,
                     config.binding.pin) then
        Success(Outcome(config, store[AnchorAccount := MigratedAnchor(config)]))
      else Failure("signing_roles_or_lifetime_invalid")
    else
      var bound :- BindAnchor(checks, config, store[AnchorAccount], store);
      if !PreloadRecorded(bound.anchor.head) then Failure("protected_preload_invalid")
      else if !KeysetValid(checks.keys, bound.anchor.head.keyset, config.binding.device.organizationId, now, None) then
        Failure("signing_roles_or_lifetime_invalid")
      else Success(Outcome(bound.config.(keyset := Some(bound.anchor.head.keyset)), store))
  }

  /** `acceptDemoSigningKeysets` as a function of the protected store: one fold, one write. */
  function AcceptOutcome(checks: Checks, store: Store, config: Config, chain: seq<Keyset>, now: int): Result<Outcome> {
    if |chain| > 20 then Failure("chain_limit")
    else
      var resolved :- ResolveOutcome(checks, store, config, now);
      var start := resolved.store[AnchorAccount].anchor.head;
      var after :- Chain(At(checks.keys, config.binding.device.organizationId, now), start, chain);
      var updated := resolved.config.(keyset := Some(after.keyset));
      if updated.keyset == config.keyset then Success(Outcome(updated, resolved.store))
      else Success(Outcome(updated, resolved.store[AnchorAccount := AnchorText(Anchor(updated.binding, after))]))
  }

  /** Where an acceptance that finds no anchor can stop: before, inside or after the migration, or inside the
      save of the chain's end. */
  ghost predicate StopsAfterMigration(checks: Checks, before: Store, config: Config, chain: seq<Keyset>, now: int,
                                      after: Store)
  {
    || after == before
    || (&& ResolveOutcome(checks, before, config, now).Success?
        && (|| PutLeaves(before, AnchorAccount, MigratedAnchor(config), after)
            || (&& AcceptOutcome(checks, before, config, chain, now).Success?
                && var outcome := AcceptOutcome(checks, before, config, chain, now).value;
                   && AnchorAccount in outcome.store
                   && PutLeaves(before[AnchorAccount := MigratedAnchor(config)], AnchorAccount,
                                outcome.store[AnchorAccount], after))))
  }

  // ---------------------------------------------------------------- the calls

  method BoundAnchor(host: Host<Account, Text>, checks: Checks, config: Config, serialized: Text)
    returns (r: Result<Bound>)
    ensures r.Success? ==> r == BindAnchor(checks, config, serialized, host.contents)
    ensures host.healthy && BindAnchor(checks, config, serialized, host.contents).Success? ==> r.Success?
  {
    var anchor :- ParseAnchor(checks, serialized);
    if anchor.binding == config.binding {
      if !DiskHeadAllowed(checks, config.keyset, anchor.head.keyset) {
        return Failure("protected_anchor_conflict");
      }
      return Success(Bound(config, anchor));
    }
    var journal :- host.Fresh(RecoveryAccount);
    if journal.None? {
      return Failure("protected_anchor_binding_mismatch");
    }
    var recovery :- ParseRecovery(checks, journal.value);
    var replacement :- ParseAnchor(checks, recovery.replacementAnchor);
    var archived :- host.Fresh(HistoryAccount(recovery.previousAnchorHash));
    if archived.None? || Sha256(archived.value) != recovery.previousAnchorHash {
      return Failure("protected_anchor_binding_mismatch");
    }
    var previous :- ParseAnchor(checks, archived.value);
    if previous.binding != config.binding || replacement.binding != anchor.binding {
      return Failure("protected_anchor_binding_mismatch");
    }
    if !DiskHeadAllowed(checks, config.keyset, previous.head.keyset)
       || !DiskHeadAllowed(checks, Some(replacement.head.keyset), anchor.head.keyset) {
      return Failure("protected_anchor_conflict");
    }
    return Success(Bound(Config(config.binding.(pin := replacement.binding.pin), Some(replacement.head.keyset)),
                         anchor));
  }

  method ResolveDemoSigningTrust(host: Host<Account, Text>, checks: Checks, config: Config, now: int)
    returns (r: Result<Config>)
    modifies host`contents, host`wroteAt
    // A present anchor is only read; a missing one is written only for a valid pinned bootstrap.
    ensures AnchorAccount in old(host.contents) ==> host.contents == old(host.contents)
    ensures host.contents != old(host.contents) ==>
              && HasTrust(checks, config)
              && KeysetValid(checks.keys, config.keyset.value, config.binding.device.organizationId, now,
                             config.binding.pin)
              && PutLeaves(old(host.contents), AnchorAccount, MigratedAnchor(config), host.contents)
    ensures r.Success? ==>
              ResolveOutcome(checks, old(host.contents), config, now) == Success(Outcome(r.value, host.contents))
    ensures host.healthy && ResolveOutcome(checks, old(host.contents), config, now).Success? ==> r.Success?
  {
    if !HasTrust(checks, config) {
      return Failure("missing_enrollment_trust");
    }
    var organization := config.binding.device.organizationId;
    var serialized :- host.Fresh(AnchorAccount);
    if serialized.None? {
      if !KeysetValid(checks.keys, config.keyset.value, organization, now, config.binding.pin) {
        return Failure("signing_roles_or_lifetime_invalid");
      }
      var _ :- host.ConfirmedPut(AnchorAccount, MigratedAnchor(config), "secure_store_write_not_confirmed");
      return Success(config);
    }
    var bound :- BoundAnchor(host, checks, config, serialized.value);
    if !PreloadRecorded(bound.anchor.head) {
      return Failure("protected_preload_invalid");
    }
    if !KeysetValid(checks.keys, bound.anchor.head.keyset, organization, now, None) {
      return Failure("signing_roles_or_lifetime_invalid");
    }
    return Success(bound.config.(keyset := Some(bound.anchor.head.keyset)));
  }

  method AcceptDemoSigningKeysets(host: Host<Account, Text>, checks: Checks, config: Config, chain: seq<Keyset>,
                                  now: int)
    returns (r: Result<Config>)
    modifies host`contents, host`wroteAt
    ensures r.Success? ==>
              AcceptOutcome(checks, old(host.contents), config, chain, now) == Success(Outcome(r.value, host.contents))
    ensures host.healthy && AcceptOutcome(checks, old(host.contents), config, chain, now).Success? ==> r.Success?
    // What is answered is reached from the resolved anchor by signed steps, each a preload or an activation; its new
    // keys are usable now and for ten minutes, and its old ones are as they were.
    ensures r.Success? ==>
              && ResolveOutcome(checks, old(host.contents), config, now).Success? && r.value.keyset.Some?
              && Reached(checks, config.binding.device.organizationId, now,
                         ResolvedHead(checks, old(host.contents), config, now), r.value.keyset.value)
    // A chain that fails anywhere leaves a present anchor as it was.
    ensures AcceptOutcome(checks, old(host.contents), config, chain, now).Failure?
            && AnchorAccount in old(host.contents)
            ==> r.Failure? && host.contents == old(host.contents)
    // Wherever it stops, nothing but the anchor is touched, and the anchor goes to the chain's end or nowhere.
    ensures AnchorAccount in old(host.contents) && host.contents != old(host.contents) ==>
              && AcceptOutcome(checks, old(host.contents), config, chain, now).Success?
              && var outcome := AcceptOutcome(checks, old(host.contents), config, chain, now).value;
                 && AnchorAccount in outcome.store
                 && PutLeaves(old(host.contents), AnchorAccount, outcome.store[AnchorAccount], host.contents)
    // A chain that fails anywhere leaves the store as resolving left it, migrated or not.
    ensures (&& host.healthy
             && ResolveOutcome(checks, old(host.contents), config, now).Success?
             && AcceptOutcome(checks, old(host.contents), config, chain, now).Failure?
             && |chain| <= 20)
            ==> && r.Failure?
                && host.contents == ResolveOutcome(checks, old(host.contents), config, now).value.store
    ensures |chain| > 20 ==> r.Failure? && host.contents == old(host.contents)
    // From a missing anchor at most the migration and then the chain's end are written, one put cut at most.
    ensures AnchorAccount !in old(host.contents) ==>
              StopsAfterMigration(checks, old(host.contents), config, chain, now, host.contents)
  {
    hide Step, Reached, ResolvedHead, KeysetValid, BindAnchor, HasTrust, PreloadRecorded;
    if |chain| > 20 {
      return Failure("chain_limit");
    }
    var organization := config.binding.device.organizationId;
    var updated :- ResolveDemoSigningTrust(host, checks, config, now);
    var resolvedStore := host.contents;
    var serialized :- host.Fresh(AnchorAccount);
    if serialized.None? || !serialized.value.AnchorText? {
      return Failure("protected_anchor_malformed");
    }
    var next := serialized.value.anchor.head.next;
    var i := 0;
    var step := At(checks.keys, organization, now);
    ghost var start := serialized.value.anchor.head;
    while i < |chain|
      invariant 0 <= i <= |chain| && host.contents == resolvedStore
      invariant updated.keyset.Some?
      invariant updated.binding == ResolveOutcome(checks, old(host.contents), config, now).value.config.binding
      invariant Chain(step, start, chain) == Chain(step, Head(updated.keyset.value, next), chain[i..])
    {
      var candidate := chain[i];
      assert chain[i..][0] == candidate && chain[i..][1..] == chain[i + 1..];
      if updated.keyset.value != candidate {
        var stepped :- step(Head(updated.keyset.value, next), candidate);
        updated := updated.(keyset := Some(stepped.keyset));
        next := stepped.next;
      }
      i := i + 1;
    }
    assert chain[|chain|..] == [];
    if updated.keyset != config.keyset {
      var anchor := AnchorText(Anchor(updated.binding, Head(updated.keyset.value, next)));
      var _ :- host.ConfirmedPut(AnchorAccount, anchor, "secure_store_write_not_confirmed");
    }
    AcceptedIsReached(checks, old(host.contents), config, chain, now);
    return Success(updated);
  }

  // ---------------------------------------------------------------- what the calls add up to

  /** What `resolve` accepts of an anchor that is bound to the configuration directly. */
  predicate Usable(checks: Checks, organizationId: string, head: Head, now: int) {
    && checks.keys.schema(head.keyset)
    && PreloadRecorded(head)
    && KeysetValid(checks.keys, head.keyset, organizationId, now, None)
  }

  lemma StepStaysUsable(checks: Checks, organizationId: string, head: Head, candidate: Keyset, now: int)
    requires Step(checks.keys, organizationId, now, head, candidate).Success?
    ensures var after := Step(checks.keys, organizationId, now, head, candidate).value;
            Usable(checks, organizationId, after, now) && after.keyset.generation == head.keyset.generation + 1
  {
    hide UpdateVerifies, WindowsRetained, KeysetValid;
    var after := Step(checks.keys, organizationId, now, head, candidate).value;
    if after.next.Some? {
      assert Introduced(candidate.keys, head.keyset.keys)[0] in Introduced(candidate.keys, head.keyset.keys);
    }
  }

  /** A chain ends in a head `resolve` accepts, and moves the generation unless it moves nothing. */
  lemma {:induction false} ChainStaysUsable(checks: Checks, organizationId: string, head: Head, chain: seq<Keyset>,
                                            now: int)
    requires Usable(checks, organizationId, head, now)
    requires Chain(At(checks.keys, organizationId, now), head, chain).Success?
    ensures var after := Chain(At(checks.keys, organizationId, now), head, chain).value;
            && Usable(checks, organizationId, after, now)
            && head.keyset.generation <= after.keyset.generation
            && (head.keyset.generation == after.keyset.generation ==> after == head)
    decreases |chain|
  {
    hide Step, Usable;
    if chain != [] {
      if head.keyset == chain[0] {
        ChainStaysUsable(checks, organizationId, head, chain[1..], now);
      } else {
        var next := Step(checks.keys, organizationId, now, head, chain[0]).value;
        StepStaysUsable(checks, organizationId, head, chain[0], now);
        ChainStaysUsable(checks, organizationId, next, chain[1..], now);
      }
    }
  }

  /** The store's anchor is bound to this configuration, which may be behind it, or there is none yet. */
  ghost predicate DirectlyBound(store: Store, config: Config) {
    AnchorAccount in store ==> store[AnchorAccount].AnchorText? && store[AnchorAccount].anchor.binding == config.binding
  }

  ghost predicate HoldsHead(store: Store, binding: Binding, head: Head) {
    Lookup(store, AnchorAccount) == Some(AnchorText(Anchor(binding, head)))
  }

  lemma ResolvedIsUsable(checks: Checks, store: Store, config: Config, now: int)
    requires DirectlyBound(store, config) && ResolveOutcome(checks, store, config, now).Success?
    ensures var resolved := ResolveOutcome(checks, store, config, now).value;
            && resolved.config.binding == config.binding
            && HoldsHead(resolved.store, config.binding, resolved.store[AnchorAccount].anchor.head)
            && Usable(checks, config.binding.device.organizationId, resolved.store[AnchorAccount].anchor.head, now)
            && DiskHeadAllowed(checks, config.keyset, resolved.store[AnchorAccount].anchor.head.keyset)
  {
  }

  /** An accepted chain leaves exactly its last head in the anchor, whether or not it had to write it. */
  lemma AcceptAnchorsTheEnd(checks: Checks, store: Store, config: Config, chain: seq<Keyset>, now: int)
    requires DirectlyBound(store, config) && AcceptOutcome(checks, store, config, chain, now).Success?
    ensures var resolved := ResolveOutcome(checks, store, config, now);
            var accepted := AcceptOutcome(checks, store, config, chain, now).value;
            resolved.Success? &&
            var after := Chain(At(checks.keys, config.binding.device.organizationId, now),
                               resolved.value.store[AnchorAccount].anchor.head, chain);
            && after.Success?
            && HoldsHead(accepted.store, config.binding, after.value)
            && accepted.config == Config(config.binding, Some(after.value.keyset))
            && Usable(checks, config.binding.device.organizationId, after.value, now)
            && DiskHeadAllowed(checks, config.keyset, after.value.keyset)
            && accepted.store == resolved.value.store[AnchorAccount := AnchorText(Anchor(config.binding, after.value))]
  {
    hide Step, KeysetValid, BindAnchor, PreloadRecorded;
    var resolved := ResolveOutcome(checks, store, config, now).value;
    ResolvedIsUsable(checks, store, config, now);
    ChainStaysUsable(checks, config.binding.device.organizationId, resolved.store[AnchorAccount].anchor.head, chain,
                     now);
  }

  /** Any disk head not ahead of a usable anchor resolves to the anchor's head, and writes nothing. */
  lemma UsableAnchorResolves(checks: Checks, store: Store, config: Config, head: Head, now: int)
    requires HasTrust(checks, config) && HoldsHead(store, config.binding, head)
    requires Usable(checks, config.binding.device.organizationId, head, now)
    requires DiskHeadAllowed(checks, config.keyset, head.keyset)
    ensures ResolveOutcome(checks, store, config, now) ==
            Success(Outcome(Config(config.binding, Some(head.keyset)), store))
  {
    hide KeysetValid, PreloadRecorded;
  }

  /** After an accepted chain, a restart with the disk configuration of before it resolves to the chain's end. */
  lemma RestartRepairsDisk(checks: Checks, store: Store, config: Config, chain: seq<Keyset>, now: int)
    requires DirectlyBound(store, config) && AcceptOutcome(checks, store, config, chain, now).Success?
    ensures var accepted := AcceptOutcome(checks, store, config, chain, now).value;
            ResolveOutcome(checks, accepted.store, config, now) == Success(accepted)
  {
    hide Step, KeysetValid, BindAnchor, PreloadRecorded, Usable;
    var resolved := ResolveOutcome(checks, store, config, now).value;
    AcceptAnchorsTheEnd(checks, store, config, chain, now);
    var after := Chain(At(checks.keys, config.binding.device.organizationId, now),
                       resolved.store[AnchorAccount].anchor.head, chain).value;
    UsableAnchorResolves(checks, AcceptOutcome(checks, store, config, chain, now).value.store, config, after, now);
  }

  /** Accepting two chains one after the other, at one time, is accepting both at once. */
  lemma AcceptsCompose(checks: Checks, store: Store, config: Config, first: seq<Keyset>, second: seq<Keyset>, now: int)
    requires DirectlyBound(store, config) && |first + second| <= 20
    requires AcceptOutcome(checks, store, config, first, now).Success?
    ensures var halfway := AcceptOutcome(checks, store, config, first, now).value;
            var sequential := AcceptOutcome(checks, halfway.store, halfway.config, second, now);
            var atOnce := AcceptOutcome(checks, store, config, first + second, now);
            && (sequential.Success? <==> atOnce.Success?)
            && (sequential.Success? ==> sequential == atOnce)
  {
    hide Step, KeysetValid, BindAnchor, PreloadRecorded, Usable;
    var step := At(checks.keys, config.binding.device.organizationId, now);
    var resolved := ResolveOutcome(checks, store, config, now).value;
    var halfway := AcceptOutcome(checks, store, config, first, now).value;
    AcceptAnchorsTheEnd(checks, store, config, first, now);
    var start := resolved.store[AnchorAccount].anchor.head;
    var middle := Chain(step, start, first).value;
    ResolvedConfigKeepsTrust(checks, store, config, now, middle);
    UsableAnchorResolves(checks, halfway.store, halfway.config, middle, now);
    ChainsCompose(step, start, first, second);
    if Chain(step, middle, second).Success? {
      AcceptAnchorsTheEnd(checks, halfway.store, halfway.config, second, now);
      AcceptAnchorsTheEnd(checks, store, config, first + second, now);
      var end := AnchorText(Anchor(config.binding, Chain(step, middle, second).value));
      assert halfway.store[AnchorAccount := end] == resolved.store[AnchorAccount := end];
    }
  }

  lemma ResolvedConfigKeepsTrust(checks: Checks, store: Store, config: Config, now: int, head: Head)
    requires ResolveOutcome(checks, store, config, now).Success?
    requires Usable(checks, config.binding.device.organizationId, head, now)
    ensures HasTrust(checks, Config(config.binding, Some(head.keyset)))
    ensures DiskHeadAllowed(checks, Some(head.keyset), head.keyset)
  {
    hide KeysetValid, PreloadRecorded, BindAnchor;
  }

  // ---------------------------------------------------------------- exactly what is resolved and accepted

  /** The disk's keyset is the anchored one or of an earlier generation. */
  ghost predicate Behind(checks: Checks, disk: Option<Keyset>, anchored: Keyset) {
    && disk.Some? && checks.keys.schema(disk.value)
    && (disk.value.generation < anchored.generation || disk.value == anchored)
  }

  /** The anchor is of this configuration, which may be behind it. */
  ghost predicate BoundDirectly(checks: Checks, config: Config, bound: Bound) {
    && bound.config == config && bound.anchor.binding == config.binding
    && Behind(checks, config.keyset, bound.anchor.head.keyset)
  }

  /** A confirmed journal leads from this configuration's archived anchor to a replacement under the anchor's pin; the
      configuration may be behind the one, and the replacement behind the anchor. */
  ghost predicate BoundAcross(checks: Checks, config: Config, bound: Bound, store: Store) {
    exists recovery, replacement, previous ::
      && Lookup(store, RecoveryAccount) == Some(RecoveryText(recovery)) && checks.approval(recovery.approval)
      && recovery.replacementAnchor == AnchorText(replacement) && checks.keys.schema(replacement.head.keyset)
      && recovery.previousAnchorHash == Sha256(AnchorText(previous)) && checks.keys.schema(previous.head.keyset)
      && Lookup(store, HistoryAccount(Sha256(AnchorText(previous)))) == Some(AnchorText(previous))
      && config.binding == previous.binding && bound.anchor.binding == replacement.binding != config.binding
      && Behind(checks, config.keyset, previous.head.keyset)
      && Behind(checks, Some(replacement.head.keyset), bound.anchor.head.keyset)
      && bound.config == Config(config.binding.(pin := replacement.binding.pin), Some(replacement.head.keyset))
  }

  lemma BindExactly(checks: Checks, config: Config, serialized: Text, store: Store, bound: Bound)
    ensures BindAnchor(checks, config, serialized, store) == Success(bound) <==>
            && serialized == AnchorText(bound.anchor) && checks.keys.schema(bound.anchor.head.keyset)
            && (BoundDirectly(checks, config, bound) || BoundAcross(checks, config, bound, store))
  {
    if BindAnchor(checks, config, serialized, store) == Success(bound) && bound.anchor.binding != config.binding {
      var recovery := store[RecoveryAccount].recovery;
      var replacement := recovery.replacementAnchor.anchor;
      var previous := store[HistoryAccount(recovery.previousAnchorHash)].anchor;
      assert Lookup(store, RecoveryAccount) == Some(RecoveryText(recovery))
             && recovery.replacementAnchor == AnchorText(replacement)
             && Lookup(store, HistoryAccount(Sha256(AnchorText(previous)))) == Some(AnchorText(previous));
    }
  }

  /** A recorded preload is a key of the keyset, in the overlap role. */
  ghost predicate PreloadHeld(head: Head) {
    head.next.Some? ==> exists k :: k in head.keyset.keys && k.version == head.next.value && k.status == Overlap
  }

  /** Resolving needs a pin and a keyset on disk. A missing anchor needs that keyset to be trusted under the pin, and
      becomes it; a present one has to be bound to the configuration, and to be trusted whatever the pin. */
  lemma ResolveExactly(checks: Checks, store: Store, config: Config, now: int, outcome: Outcome)
    ensures ResolveOutcome(checks, store, config, now) == Success(outcome) <==>
            && config.binding.pin.Some? && checks.pin(config.binding.pin.value) && config.keyset.Some?
            && var organization := config.binding.device.organizationId;
               if AnchorAccount !in store then
                 && Trusted(checks.keys, config.keyset.value, organization, now, config.binding.pin)
                 && outcome == Outcome(config, store[AnchorAccount :=
                      AnchorText(Anchor(config.binding, Head(config.keyset.value, None)))])
               else
                 && outcome.store == store && store[AnchorAccount].AnchorText?
                 && var anchor := store[AnchorAccount].anchor;
                    && checks.keys.schema(anchor.head.keyset) && PreloadHeld(anchor.head)
                    && Trusted(checks.keys, anchor.head.keyset, organization, now, None)
                    && exists bound: Bound :: bound.anchor == anchor
                         && (BoundDirectly(checks, config, bound) || BoundAcross(checks, config, bound, store))
                         && outcome.config == bound.config.(keyset := Some(anchor.head.keyset))
  {
    hide KeysetValid, Trusted, BindAnchor, BoundDirectly, BoundAcross;
    if config.keyset.Some? {
      KeysetValidMeans(checks.keys, config.keyset.value, config.binding.device.organizationId, now, config.binding.pin);
    }
    if AnchorAccount in store && store[AnchorAccount].AnchorText? {
      var anchor := store[AnchorAccount].anchor;
      KeysetValidMeans(checks.keys, anchor.head.keyset, config.binding.device.organizationId, now, None);
    }
    if AnchorAccount in store {
      forall bound: Bound
        ensures BindAnchor(checks, config, store[AnchorAccount], store) == Success(bound) <==>
                && store[AnchorAccount] == AnchorText(bound.anchor) && checks.keys.schema(bound.anchor.head.keyset)
                && (BoundDirectly(checks, config, bound) || BoundAcross(checks, config, bound, store))
      {
        BindExactly(checks, config, store[AnchorAccount], store, bound);
      }
    }
  }

  /** The head that resolving leaves anchored, on a store that it answers. */
  function ResolvedHead(checks: Checks, store: Store, config: Config, now: int): Head
    requires ResolveOutcome(checks, store, config, now).Success?
  {
    ResolveOutcome(checks, store, config, now).value.store[AnchorAccount].anchor.head
  }

  lemma ResolvedHeadIsValid(checks: Checks, store: Store, config: Config, now: int)
    requires ResolveOutcome(checks, store, config, now).Success?
    ensures HeadValid(ResolvedHead(checks, store, config, now))
    ensures Trusted(checks.keys, ResolvedHead(checks, store, config, now).keyset,
                    config.binding.device.organizationId, now, None)
  {
    ResolveExactly(checks, store, config, now, ResolveOutcome(checks, store, config, now).value);
    hide ResolveOutcome, BoundDirectly, BoundAcross;
    var head := ResolvedHead(checks, store, config, now);
    assert Trusted(checks.keys, head.keyset, config.binding.device.organizationId, now, None);
    TrustedHeadIsValid(checks.keys, head, config.binding.device.organizationId, now);
  }

  lemma TrustedHeadIsValid(checks: KeyChecks, head: Head, organizationId: string, now: int)
    requires Trusted(checks, head.keyset, organizationId, now, None) && PreloadHeld(head)
    ensures HeadValid(head)
  {
    KeysetValidMeans(checks, head.keyset, organizationId, now, None);
    RolesAre(head.keyset.keys);
    hide Roles;
  }

  /** A keyset reached from a head by steps that are each a signed successor, a preload or an activation in turn. */
  ghost predicate Reached(checks: Checks, organizationId: string, now: int, start: Head, keyset: Keyset) {
    exists heads: seq<Head> :: heads != [] && heads[0] == start && heads[|heads| - 1].keyset == keyset
      && Linked(AdvancesAt(checks.keys, organizationId, now), heads) && KeysGrow(start, heads[|heads| - 1], now)
  }

  lemma AcceptedIsReached(checks: Checks, store: Store, config: Config, chain: seq<Keyset>, now: int)
    requires AcceptOutcome(checks, store, config, chain, now).Success?
    ensures ResolveOutcome(checks, store, config, now).Success?
    ensures AcceptOutcome(checks, store, config, chain, now).value.config.keyset.Some?
    ensures Reached(checks, config.binding.device.organizationId, now, ResolvedHead(checks, store, config, now),
                    AcceptOutcome(checks, store, config, chain, now).value.config.keyset.value)
  {
    hide ResolveOutcome, Step, Chain, HeadValid, KeysGrow, Advances, Trusted;
    ResolvedHeadIsValid(checks, store, config, now);
    var start := ResolvedHead(checks, store, config, now);
    var organization := config.binding.device.organizationId;
    var heads := AcceptedAdvances(checks.keys, organization, now, start, chain);
    ChainGrowsKeys(checks.keys, organization, now, start, chain);
  }

  /** And any such row of heads, up to twenty steps long, is accepted and left anchored. */
  lemma ReachedIsAccepted(checks: Checks, store: Store, config: Config, heads: seq<Head>, now: int)
    requires ResolveOutcome(checks, store, config, now).Success?
    requires 1 <= |heads| <= 21 && heads[0] == ResolvedHead(checks, store, config, now)
    requires Linked(AdvancesAt(checks.keys, config.binding.device.organizationId, now), heads)
    ensures var accepted := AcceptOutcome(checks, store, config, Keysets(heads[1..]), now);
            && accepted.Success?
            && accepted.value.config.keyset == Some(heads[|heads| - 1].keyset)
            && (config.keyset != accepted.value.config.keyset ==>
                  Lookup(accepted.value.store, AnchorAccount) ==
                  Some(AnchorText(Anchor(accepted.value.config.binding, heads[|heads| - 1]))))
  {
    hide ResolveOutcome, Step, Chain, HeadValid, Advances, Trusted;
    ResolvedHeadIsValid(checks, store, config, now);
    AdvancesAreAccepted(checks.keys, config.binding.device.organizationId, now, heads);
  }

  // ---------------------------------------------------------------- an interrupted save

  /** `put` may stop after removing the old anchor. Resolving then answers from the disk alone: exactly when the
      disk's keyset is valid under its own pin, and then with that keyset and no preload, so every generation
      the disk had not seen is lost. */
  lemma CutSaveAnswersFromDisk(checks: Checks, store: Store, config: Config, head: Head, now: int)
    requires HasTrust(checks, config) && HoldsHead(store, config.binding, head)
    requires DiskHeadAllowed(checks, config.keyset, head.keyset)
    ensures var resolved := ResolveOutcome(checks, store - {AnchorAccount}, config, now);
            && (resolved.Success? <==>
                  KeysetValid(checks.keys, config.keyset.value, config.binding.device.organizationId, now,
                              config.binding.pin))
            && (resolved.Success? ==>
                  && resolved.value.config == config
                  && HoldsHead(resolved.value.store, config.binding, Head(config.keyset.value, None))
                  && (resolved.value.config.keyset.value.generation < head.keyset.generation <==>
                        config.keyset.value != head.keyset))
  {
    hide KeysetValid, BindAnchor;
  }

  /** What a chain still does after such a cut: it has to start over from the disk's keyset, under the pin. */
  lemma CutSaveRestartsTheChain(checks: Checks, store: Store, config: Config, chain: seq<Keyset>, now: int)
    requires HasTrust(checks, config) && |chain| <= 20
    ensures var organization := config.binding.device.organizationId;
            AcceptOutcome(checks, store - {AnchorAccount}, config, chain, now).Success? <==>
              && KeysetValid(checks.keys, config.keyset.value, organization, now, config.binding.pin)
              && Chain(At(checks.keys, organization, now), Head(config.keyset.value, None), chain).Success?
  {
    hide KeysetValid, BindAnchor, Step, Chain;
  }

  /** A successor that was acceptable before the cut save is acceptable after it if and only if the disk was not
      behind, no preload was recorded, and the disk's keyset is still valid under the enrolment pin. */
  lemma CutSaveResumes(checks: Checks, store: Store, config: Config, head: Head, candidate: Keyset, now: int)
    requires HoldsHead(store, config.binding, head) && candidate != head.keyset
    requires AcceptOutcome(checks, store, config, [candidate], now).Success?
    ensures PutLeaves(store, AnchorAccount,
                      AcceptOutcome(checks, store, config, [candidate], now).value.store[AnchorAccount],
                      store - {AnchorAccount})
    ensures AcceptOutcome(checks, store - {AnchorAccount}, config, [candidate], now).Success? <==>
            && config.keyset == Some(head.keyset)
            && head.next.None?
            && KeysetValid(checks.keys, head.keyset, config.binding.device.organizationId, now, config.binding.pin)
  {
    hide Step, KeysetValid, PreloadRecorded, BindAnchor, Usable;
    var organization := config.binding.device.organizationId;
    var step := At(checks.keys, organization, now);
    ResolvedIsUsable(checks, store, config, now);
    OneStepChain(step, head, candidate);
    StepRaisesGeneration(checks.keys, organization, now, head, candidate);
    CutSaveRestartsTheChain(checks, store, config, [candidate], now);
    var disk := config.keyset.value;
    OneStepChain(step, Head(disk, None), candidate);
    if disk != head.keyset {
      assert disk.generation < head.keyset.generation;
      StepNeedsGeneration(checks.keys, organization, now, Head(disk, None), candidate);
    } else if head.next.Some? {
      PreloadDecidesTheStep(checks, organization, disk, head.next.value, candidate, now);
    }
  }

  lemma StepRaisesGeneration(checks: KeyChecks, organizationId: string, now: int, head: Head, candidate: Keyset)
    requires Step(checks, organizationId, now, head, candidate).Success?
    ensures candidate.generation == head.keyset.generation + 1
  {
    hide UpdateVerifies, KeysetValid, WindowsRetained, PreloadAllowed, ActivationAllowed;
  }

  lemma StepNeedsGeneration(checks: KeyChecks, organizationId: string, now: int, head: Head, candidate: Keyset)
    requires candidate.generation != head.keyset.generation + 1
    ensures Step(checks, organizationId, now, head, candidate).Failure?
  {
    hide UpdateVerifies, KeysetValid, WindowsRetained, PreloadAllowed, ActivationAllowed;
  }

  /** A head with a recorded preload and the same head without it accept no candidate in common. */
  lemma PreloadDecidesTheStep(checks: Checks, organizationId: string, keyset: Keyset, version: string,
                              candidate: Keyset, now: int)
    requires Step(checks.keys, organizationId, now, Head(keyset, Some(version)), candidate).Success?
    ensures Step(checks.keys, organizationId, now, Head(keyset, None), candidate).Failure?
  {
    hide UpdateVerifies, KeysetValid, WindowsRetained;
  }

  lemma OneStepChain(step: Stepper, head: Head, candidate: Keyset)
    requires head.keyset != candidate
    ensures Chain(step, head, [candidate]) == step(head, candidate)
  {
    assert [candidate][1..] == [];
    if step(head, candidate).Success? {
      assert Chain(step, step(head, candidate).value, []) == Success(step(head, candidate).value);
    }
  }

  // ---------------------------------------------------------------- the loss is real

  /** Two keys that are their own public keys, and checks that let every schema and signature through. */
  function SampleKey(version: string, status: Status): Key {
    Key(version, version, status, Stamp(0, "0"), Stamp(20 * DAY, "20d"))
  }

  function SampleKeys(first: Status, second: Status): seq<Key> {
    [SampleKey("k1", first), SampleKey("k2", second)]
  }

  function SampleKeyset(generation: int, first: Status, second: Status, signedBy: string): Keyset {
    Keyset("org_a", generation, SampleKeys(first, second), signedBy, 0, 10 * DAY, "s")
  }

  function SampleChecks(): KeyChecks {
    KeyChecks((keyset: Keyset) => true, (keyset: Keyset, key: string) => true)
  }

  lemma SampleKeysAre(first: Status, second: Status)
    ensures var keys := SampleKeys(first, second);
            && Find(keys, "k1") == Some(keys[0]) && Find(keys, "k2") == Some(keys[1]) && Distinct(keys)
            && FindUsable(keys, "k2", DAY) == Some(keys[1])
            && ActiveKeys(keys) ==
               (if first.Active? then [keys[0]] else []) + (if second.Active? then [keys[1]] else [])
  {
    var keys := SampleKeys(first, second);
    assert "k1"[1] != "k2"[1];
    assert keys[1..] == [keys[1]] && keys[1..][1..] == [];
    assert Find(keys[1..], "k2") == Some(keys[1]) && FindUsable(keys[1..], "k2", DAY) == Some(keys[1]);
    assert ActiveKeys(keys[1..]) == if second.Active? then [keys[1]] else [];
  }

  lemma SampleKeysetIsValid(generation: int, first: Status, second: Status, signedBy: string, now: int,
                            pin: Option<string>)
    requires 0 <= now < 10 * DAY
    requires (first, second, signedBy) in {(Active, Overlap, "k1"), (Overlap, Active, "k2")}
    requires pin in {None, Some(signedBy)}
    ensures KeysetValid(SampleChecks(), SampleKeyset(generation, first, second, signedBy), "org_a", now, pin)
    ensures TimesValid(SampleKeyset(generation, first, second, signedBy), now)
  {
    var keys := SampleKeys(first, second);
    SampleKeysAre(first, second);
    assert keys[0] in keys && keys[1] in keys;
  }

  lemma SampleUpdateVerifies()
    ensures UpdateVerifies(SampleChecks(), SampleKeyset(2, Active, Overlap, "k1"),
                           SampleKeyset(3, Overlap, Active, "k2"), DAY)
  {
    hide TimesValid, Find, FindUsable, ActiveKeys, KeysetValid;
    SampleKeysetIsValid(2, Active, Overlap, "k1", DAY, None);
    SampleKeysetIsValid(3, Overlap, Active, "k2", DAY, None);
    SampleKeysAre(Active, Overlap);
    assert SampleKeys(Overlap, Active)[1] in SampleKeyset(3, Overlap, Active, "k2").keys;
  }

  lemma SampleKeysRotate()
    ensures var current, candidate := SampleKeys(Active, Overlap), SampleKeys(Overlap, Active);
            && WindowsRetained(current, candidate)
            && ActivationAllowed(current, candidate, Some("k2"), "k2", "k1")
            && ActiveKeys(current) == [current[0]] && ActiveKeys(candidate) == [candidate[1]]
  {
    SampleKeysAre(Active, Overlap);
    SampleKeysAre(Overlap, Active);
    hide Find, ActiveKeys;
    var current, candidate := SampleKeys(Active, Overlap), SampleKeys(Overlap, Active);
    assert forall k :: k in candidate ==> Find(current, k.version).Some?;
    assert forall k :: k !in Introduced(candidate, current);
    assert "k1"[1] != "k2"[1];
  }

  lemma StepActivates(checks: KeyChecks, organizationId: string, now: int, head: Head, candidate: Keyset)
    requires checks.schema(candidate) && candidate.generation == head.keyset.generation + 1
    requires UpdateVerifies(checks, head.keyset, candidate, now)
    requires KeysetValid(checks, candidate, organizationId, now, None)
    requires now + 10 * MINUTE < candidate.expiresAt <= candidate.issuedAt + 29 * DAY
    requires WindowsRetained(head.keyset.keys, candidate.keys)
    requires ActiveKeys(head.keyset.keys) != [] && ActiveKeys(candidate.keys) != []
    requires var active, previous := ActiveKeys(candidate.keys)[0].version, ActiveKeys(head.keyset.keys)[0].version;
             active != previous && ActivationAllowed(head.keyset.keys, candidate.keys, head.next, active, previous)
    ensures Step(checks, organizationId, now, head, candidate) == Success(Head(candidate, None))
  {
    hide UpdateVerifies, KeysetValid, WindowsRetained, ActivationAllowed, PreloadAllowed, ActiveKeys;
  }

  lemma SampleActivation()
    ensures Step(SampleChecks(), "org_a", DAY, Head(SampleKeyset(2, Active, Overlap, "k1"), Some("k2")),
                 SampleKeyset(3, Overlap, Active, "k2"))
         == Success(Head(SampleKeyset(3, Overlap, Active, "k2"), None))
  {
    hide Step, UpdateVerifies, KeysetValid, TimesValid, Find, ActiveKeys, WindowsRetained, ActivationAllowed;
    SampleUpdateVerifies();
    SampleKeysetIsValid(3, Overlap, Active, "k2", DAY, None);
    SampleKeysRotate();
    assert "k1"[1] != "k2"[1];
    StepActivates(SampleChecks(), "org_a", DAY, Head(SampleKeyset(2, Active, Overlap, "k1"), Some("k2")),
                  SampleKeyset(3, Overlap, Active, "k2"));
  }

  function SampleTrustChecks(): Checks {
    Checks(SampleChecks(), (approval: Approval) => true, (pin: string) => true)
  }

  function SampleConfig(): Config {
    Config(Binding(Device("", "org_a", "", "", "", "", "", ""), Some("k1")),
           Some(SampleKeyset(2, Active, Overlap, "k1")))
  }

  function SampleHead(): Head {
    Head(SampleKeyset(2, Active, Overlap, "k1"), Some("k2"))
  }

  function SampleStore(): Store {
    map[AnchorAccount := AnchorText(Anchor(SampleConfig().binding, SampleHead()))]
  }

  lemma SampleResolves()
    ensures ResolveOutcome(SampleTrustChecks(), SampleStore(), SampleConfig(), DAY) ==
            Success(Outcome(SampleConfig(), SampleStore()))
  {
    SampleKeysetIsValid(2, Active, Overlap, "k1", DAY, None);
    assert PreloadRecorded(SampleHead()) by {
      assert SampleKeys(Active, Overlap)[1] in SampleHead().keyset.keys;
    }
    hide KeysetValid, PreloadRecorded, SampleKeys;
  }

  lemma SampleIsAccepted()
    ensures AcceptOutcome(SampleTrustChecks(), SampleStore(), SampleConfig(), [SampleKeyset(3, Overlap, Active, "k2")],
                          DAY).Success?
  {
    SampleResolves();
    SampleActivation();
    OneStepChain(At(SampleChecks(), "org_a", DAY), SampleHead(), SampleKeyset(3, Overlap, Active, "k2"));
    hide ResolveOutcome, Step, Chain, SampleKeys;
  }

  /** Generation 2 with "k2" preloaded, generation 3 activating it: accepted, and refused after the cut, although
      the disk had seen generation 2 and that keyset is still valid under the pin. */
  lemma CutSaveRefusesActivation()
    ensures exists checks: Checks, store: Store, config: Config, head: Head, candidate: Keyset ::
              && HoldsHead(store, config.binding, head) && config.keyset == Some(head.keyset)
              && KeysetValid(checks.keys, head.keyset, config.binding.device.organizationId, DAY, config.binding.pin)
              && candidate != head.keyset
              && AcceptOutcome(checks, store, config, [candidate], DAY).Success?
              && AcceptOutcome(checks, store - {AnchorAccount}, config, [candidate], DAY).Failure?
  {
    var candidate := SampleKeyset(3, Overlap, Active, "k2");
    SampleKeysetIsValid(2, Active, Overlap, "k1", DAY, Some("k1"));
    SampleIsAccepted();
    hide KeysetValid, Step, Chain, AcceptOutcome, SampleKeys;
    CutSaveResumes(SampleTrustChecks(), SampleStore(), SampleConfig(), SampleHead(), candidate, DAY);
  }
}
