/** Server signing keysets and the chains that rotate them
    (packages/cli/src/demoSigningTrust.ts, packages/contracts/src/index.ts).

    A successor either preloads one overlap key or activates the key preloaded just before. `Step` is
    the check the client runs; the rest says what the keyset means after any number of steps. */
module KeyRotation {
  import opened Outcomes
  import opened Runs

  const MINUTE := 60_000
  const DAY := 86_400_000

  datatype Status = Active | Overlap

  /** A timestamp keeps its spelling: the client compares windows as text and orders them as instants. */
  datatype Stamp = Stamp(ms: int, spelling: string)

  datatype Key = Key(version: string, publicKey: string, status: Status, notBefore: Stamp, notAfter: Stamp)

  datatype Keyset = Keyset(organizationId: string, generation: int, keys: seq<Key>, signedBy: string,
                           issuedAt: int, expiresAt: int, signature: string)

  /** What the anchor remembers of a rotation: the keyset, and the preloaded key that may be activated. */
  datatype Head = Head(keyset: Keyset, next: Option<string>)

  /** Schema and signature checks are left open. */
  datatype KeyChecks = KeyChecks(schema: Keyset -> bool, signed: (Keyset, string) -> bool)

  // ---------------------------------------------------------------- keysets as lists

  function Find(keys: seq<Key>, version: string): (r: Option<Key>)
    ensures r.Some? ==> r.value in keys && r.value.version == version
    ensures r.None? ==> forall k :: k in keys ==> k.version != version
  {
    if keys == [] then None
    else if keys[0].version == version then Some(keys[0])
    else Find(keys[1..], version)
  }

  predicate Distinct(keys: seq<Key>) {
    forall i, j :: 0 <= i < j < |keys| ==> keys[i].version != keys[j].version
  }

  function ActiveKeys(keys: seq<Key>): (r: seq<Key>)
    ensures forall k :: k in r <==> k in keys && k.status.Active?
  {
    if keys == [] then []
    else (if keys[0].status.Active? then [keys[0]] else []) + ActiveKeys(keys[1..])
  }

  function Introduced(candidate: seq<Key>, current: seq<Key>): (r: seq<Key>)
    ensures forall k :: k in r <==> k in candidate && Find(current, k.version).None?
  {
    if candidate == [] then []
    else
      (if Find(current, candidate[0].version).None? then [candidate[0]] else []) + Introduced(candidate[1..], current)
  }

  predicate SameWindow(prior: Key, retained: Key) {
    && retained.publicKey == prior.publicKey
    && retained.notBefore == prior.notBefore
    && retained.notAfter == prior.notAfter
  }

  /** `keysetTimeFailure` finds nothing wrong. */
  predicate TimesValid(keyset: Keyset, now: int) {
    && keyset.issuedAt < keyset.expiresAt <= keyset.issuedAt + 30 * DAY
    && keyset.issuedAt <= now + 5 * MINUTE
    && now < keyset.expiresAt
    && Distinct(keyset.keys)
    && (forall k :: k in keyset.keys ==> k.notBefore.ms < k.notAfter.ms)
    && (exists k :: k in keyset.keys && k.status.Active? && k.notBefore.ms <= now < k.notAfter.ms)
  }

  /** `checkKeyset`: one active key, which signed, under the pin when there is one. */
  predicate KeysetValid(checks: KeyChecks, keyset: Keyset, organizationId: string, now: int, pin: Option<string>) {
    && checks.schema(keyset)
    && var signer := Find(keyset.keys, keyset.signedBy);
       && signer.Some? && signer.value.status.Active?
       && |ActiveKeys(keyset.keys)| == 1
       && Distinct(keyset.keys)
       && signer.value.notBefore.ms <= now
       && keyset.expiresAt <= signer.value.notAfter.ms
       && keyset.organizationId == organizationId
       && TimesValid(keyset, now)
       && (pin.Some? ==> signer.value.publicKey == pin.value)
       && checks.signed(keyset, signer.value.publicKey)
  }

  predicate KeyUsable(key: Key, now: int) {
    key.notBefore.ms <= now < key.notAfter.ms
  }

  function FindUsable(keys: seq<Key>, version: string, now: int): Option<Key> {
    if keys == [] then None
    else if keys[0].version == version && KeyUsable(keys[0], now) then Some(keys[0])
    else FindUsable(keys[1..], version, now)
  }

  /** `verifyServerSigningKeysetUpdate`. */
  predicate UpdateVerifies(checks: KeyChecks, current: Keyset, candidate: Keyset, now: int) {
    && checks.schema(current) && checks.schema(candidate)
    && candidate.organizationId == current.organizationId
    && current.generation < candidate.generation
    && TimesValid(current, now) && TimesValid(candidate, now)
    && var signer := FindUsable(current.keys, candidate.signedBy, now);
       && signer.Some?
       && (exists k :: k in candidate.keys && k.version == signer.value.version
             && k.publicKey == signer.value.publicKey && k.notBefore == signer.value.notBefore
             && k.notAfter.ms <= signer.value.notAfter.ms && now + 10 * MINUTE <= k.notAfter.ms)
       && checks.signed(candidate, signer.value.publicKey)
  }

  /** Every old key is still there, under its own public key and window. */
  predicate WindowsRetained(current: seq<Key>, candidate: seq<Key>) {
    forall prior :: prior in current ==>
      Find(candidate, prior.version).Some? && SameWindow(prior, Find(candidate, prior.version).value)
  }

  predicate PreloadAllowed(current: seq<Key>, candidate: seq<Key>, next: Option<string>, now: int) {
    var introduced := Introduced(candidate, current);
    && next.None?
    && |introduced| == 1
    && introduced[0].status.Overlap?
    && introduced[0].notBefore.ms <= now
    && now + 10 * MINUTE < introduced[0].notAfter.ms
    && |candidate| == |current| + 1
    && (forall prior :: prior in current ==>
          Find(candidate, prior.version).Some? && Find(candidate, prior.version).value.status == prior.status)
  }

  function StatusAfter(prior: Key, active: string, previous: string): Status {
    if prior.version == active then Active else if prior.version == previous then Overlap else prior.status
  }

  predicate ActivationAllowed(current: seq<Key>, candidate: seq<Key>, next: Option<string>,
                              active: string, previous: string)
  {
    && next == Some(active)
    && Introduced(candidate, current) == []
    && Find(current, active).Some? && Find(current, active).value.status.Overlap?
    && |candidate| == |current|
    && (forall prior :: prior in current ==>
          && Find(candidate, prior.version).Some?
          && Find(candidate, prior.version).value.status == StatusAfter(prior, active, previous))
  }

  /** One turn of the loop in `acceptDemoSigningKeysets`, for a candidate that is not a duplicate. */
  function Step(checks: KeyChecks, organizationId: string, now: int, head: Head, candidate: Keyset): (r: Result<Head>)
    ensures r.Success? ==> r.value.keyset == candidate
  {
    var current := head.keyset;
    if !checks.schema(candidate) || candidate.generation != current.generation + 1 then Failure("generation_conflict")
    else if !UpdateVerifies(checks, current, candidate, now) then Failure("transition_invalid")
    else if !KeysetValid(checks, candidate, organizationId, now, None) then Failure("signing_roles_or_lifetime_invalid")
    else if candidate.expiresAt <= now + 10 * MINUTE || candidate.expiresAt - candidate.issuedAt > 29 * DAY then
      Failure("transition_lifetime_invalid")
    else if !WindowsRetained(current.keys, candidate.keys) then Failure("retained_window_changed")
    else if ActiveKeys(current.keys) == [] || ActiveKeys(candidate.keys) == [] then Failure("no_active_key")
    else
      var active := ActiveKeys(candidate.keys)[0].version;
      var previous := ActiveKeys(current.keys)[0].version;
      if active == previous then
        if PreloadAllowed(current.keys, candidate.keys, head.next, now) then
          Success(Head(candidate, Some(Introduced(candidate.keys, current.keys)[0].version)))
        else Failure("preload_invalid")
      else if ActivationAllowed(current.keys, candidate.keys, head.next, active, previous) then
        Success(Head(candidate, None))
      else Failure("activation_without_preload")
  }

  type Stepper = (Head, Keyset) -> Result<Head>

  function At(checks: KeyChecks, organizationId: string, now: int): Stepper {
    (head, candidate) => Step(checks, organizationId, now, head, candidate)
  }

  /** The whole loop; a candidate equal to the current keyset is skipped. */
  function Chain(step: Stepper, head: Head, chain: seq<Keyset>): Result<Head>
    decreases |chain|
  {
    if chain == [] then Success(head)
    else if head.keyset == chain[0] then Chain(step, head, chain[1..])
    else
      var stepped := step(head, chain[0]);
      if stepped.Failure? then stepped else Chain(step, stepped.value, chain[1..])
  }

  // ---------------------------------------------------------------- keysets as maps

  /** The keyset by key version: what a rotation may change is stated on this, not on the list. */
  ghost function Roles(keys: seq<Key>): map<string, Key> {
    map v | v in Versions(keys) :: Find(keys, v).value
  }

  ghost function Versions(keys: seq<Key>): set<string> {
    set k | k in keys :: k.version
  }

  /** A head the client can hold: one active key, and a recorded preload is one of the overlap keys. */
  ghost predicate HeadValid(head: Head) {
    && Distinct(head.keyset.keys)
    && |ActiveKeys(head.keyset.keys)| == 1
    && (head.next.Some? ==> head.next.value in Roles(head.keyset.keys)
                            && Roles(head.keyset.keys)[head.next.value].status.Overlap?)
  }

  ghost predicate Preloads(before: Head, after: Head, key: Key) {
    && before.next.None? && after.next == Some(key.version)
    && key.status.Overlap? && key.version !in Roles(before.keyset.keys)
    && Roles(after.keyset.keys) == Roles(before.keyset.keys)[key.version := key]
  }

  ghost predicate Activates(before: Head, after: Head, version: string, previous: string) {
    && before.next == Some(version) && after.next.None?
    && version != previous
    && version in Roles(before.keyset.keys) && Roles(before.keyset.keys)[version].status.Overlap?
    && previous in Roles(before.keyset.keys) && Roles(before.keyset.keys)[previous].status.Active?
    && Roles(after.keyset.keys) ==
       Roles(before.keyset.keys)[version := Roles(before.keyset.keys)[version].(status := Active)]
                                [previous := Roles(before.keyset.keys)[previous].(status := Overlap)]
  }

  lemma {:induction false} FindDistinct(keys: seq<Key>, i: nat)
    requires Distinct(keys) && i < |keys|
    ensures Find(keys, keys[i].version) == Some(keys[i])
  {
    if i > 0 {
      assert keys[0].version != keys[i].version;
      FindDistinct(keys[1..], i - 1);
    }
  }

  lemma FindIn(keys: seq<Key>, k: Key)
    requires Distinct(keys) && k in keys
    ensures Find(keys, k.version) == Some(k)
  {
    var i :| 0 <= i < |keys| && keys[i] == k;
    FindDistinct(keys, i);
  }

  lemma {:induction false} VersionsCount(keys: seq<Key>)
    requires Distinct(keys)
    ensures |Versions(keys)| == |keys|
  {
    if keys != [] {
      var rest := keys[1..];
      VersionsCount(rest);
      assert keys == [keys[0]] + rest;
      assert Versions(keys) == {keys[0].version} + Versions(rest);
      assert keys[0].version !in Versions(rest);
    }
  }

  lemma RolesAre(keys: seq<Key>)
    requires Distinct(keys)
    ensures forall k :: k in keys ==> k.version in Roles(keys) && Roles(keys)[k.version] == k
    ensures forall v :: v in Roles(keys) ==> Roles(keys)[v] in keys && Roles(keys)[v].version == v
  {
    forall k | k in keys ensures Find(keys, k.version) == Some(k) {
      FindIn(keys, k);
    }
  }

  lemma FindRole(keys: seq<Key>, version: string)
    ensures Find(keys, version) == if version in Roles(keys) then Some(Roles(keys)[version]) else None
  {
  }

  lemma KeptRole(current: seq<Key>, candidate: seq<Key>, version: string)
    requires Distinct(current) && Distinct(candidate) && WindowsRetained(current, candidate)
    requires forall prior :: prior in current ==> Find(candidate, prior.version).value.status == prior.status
    requires version in Roles(current)
    ensures version in Roles(candidate) && Roles(candidate)[version] == Roles(current)[version]
  {
    RolesAre(current);
    FindRole(candidate, version);
    hide Roles, Distinct;
  }

  lemma NewRole(current: seq<Key>, candidate: seq<Key>, key: Key, version: string)
    requires Distinct(candidate) && Introduced(candidate, current) == [key]
    requires version in Roles(candidate) && version !in Roles(current)
    ensures version == key.version && Roles(candidate)[version] == key
  {
    RolesAre(candidate);
    FindRole(current, version);
    hide Roles, Distinct;
    assert Roles(candidate)[version] in Introduced(candidate, current);
  }

  lemma KeyIsNew(current: seq<Key>, candidate: seq<Key>, key: Key)
    requires Distinct(candidate) && Introduced(candidate, current) == [key]
    ensures key.version !in Roles(current) && key.version in Roles(candidate)
  {
    assert key in Introduced(candidate, current);
    RolesAre(candidate);
    FindRole(current, key.version);
    hide Roles, Distinct;
  }

  /** With windows and statuses kept and one key introduced, the map of roles gains that key and no more. */
  lemma PreloadMeans(before: Head, candidate: seq<Key>, key: Key)
    requires HeadValid(before) && Distinct(candidate)
    requires WindowsRetained(before.keyset.keys, candidate)
    requires Introduced(candidate, before.keyset.keys) == [key]
    requires forall prior :: prior in before.keyset.keys ==>
               Find(candidate, prior.version).value.status == prior.status
    ensures key.version !in Roles(before.keyset.keys)
    ensures Roles(candidate) == Roles(before.keyset.keys)[key.version := key]
  {
    hide Roles, Introduced, Find, ActiveKeys;
    var current := before.keyset.keys;
    KeyIsNew(current, candidate, key);
    NewRole(current, candidate, key, key.version);
    forall v | v in Roles(current) ensures v in Roles(candidate) && Roles(candidate)[v] == Roles(current)[v] {
      KeptRole(current, candidate, v);
    }
    forall v | v in Roles(candidate) && v !in Roles(current) ensures v == key.version {
      NewRole(current, candidate, key, v);
    }
  }

  lemma ActivationKeeps(before: Head, candidate: seq<Key>, active: string, previous: string, version: string)
    requires HeadValid(before) && Distinct(candidate)
    requires WindowsRetained(before.keyset.keys, candidate)
    requires ActivationAllowed(before.keyset.keys, candidate, before.next, active, previous)
    requires version in Versions(before.keyset.keys)
    ensures version in Versions(candidate)
    ensures var prior := Roles(before.keyset.keys)[version];
            Roles(candidate)[version] == prior.(status := StatusAfter(prior, active, previous))
  {
    var prior :| prior in before.keyset.keys && prior.version == version;
    FindIn(before.keyset.keys, prior);
    assert Find(candidate, prior.version).value in candidate;
  }

  lemma ActivationMeans(before: Head, candidate: seq<Key>, active: string, previous: string)
    requires HeadValid(before) && Distinct(candidate)
    requires WindowsRetained(before.keyset.keys, candidate)
    requires ActivationAllowed(before.keyset.keys, candidate, before.next, active, previous)
    requires active != previous && previous == ActiveKeys(before.keyset.keys)[0].version
    ensures Activates(before, Head(before.keyset.(keys := candidate), None), active, previous)
  {
    var current := before.keyset.keys;
    var was := ActiveKeys(current)[0];
    assert was in ActiveKeys(current);
    FindIn(current, was);
    assert Roles(current)[previous] == was;
    assert Find(current, active).value in current;
    forall k | k in candidate ensures k.version in Versions(current) {
      assert k !in Introduced(candidate, current);
      assert Find(current, k.version).value in current;
    }
    forall version | version in Versions(current)
      ensures version in Versions(candidate)
      ensures Roles(candidate)[version] ==
              Roles(current)[version].(status := StatusAfter(Roles(current)[version], active, previous))
    {
      ActivationKeeps(before, candidate, active, previous, version);
    }
    assert Versions(candidate) == Versions(current);
    TwoRolesChange(Roles(current), Roles(candidate), active, previous);
  }

  lemma TwoRolesChange(before: map<string, Key>, after: map<string, Key>, active: string, previous: string)
    requires active in before && previous in before && active != previous
    requires after.Keys == before.Keys
    requires forall v :: v in before ==>
               before[v].version == v
               && after[v] == before[v].(status := StatusAfter(before[v], active, previous))
    ensures after ==
            before[active := before[active].(status := Active)][previous := before[previous].(status := Overlap)]
  {
  }

  /** The cases of a successful step, without the timing and signature checks. */
  lemma StepCases(checks: KeyChecks, organizationId: string, now: int, before: Head, candidate: Keyset)
    requires HeadValid(before)
    requires Step(checks, organizationId, now, before, candidate).Success?
    ensures var after := Step(checks, organizationId, now, before, candidate).value;
            && after.keyset == candidate
            && candidate.generation == before.keyset.generation + 1
            && Distinct(candidate.keys) && |ActiveKeys(candidate.keys)| == 1
            && WindowsRetained(before.keyset.keys, candidate.keys)
            && var active := ActiveKeys(candidate.keys)[0].version;
               var previous := ActiveKeys(before.keyset.keys)[0].version;
               if active == previous then
                 && PreloadAllowed(before.keyset.keys, candidate.keys, before.next, now)
                 && after.next == Some(Introduced(candidate.keys, before.keyset.keys)[0].version)
               else
                 && ActivationAllowed(before.keyset.keys, candidate.keys, before.next, active, previous)
                 && after.next == None
  {
  }

  ghost predicate PreloadsOne(before: Head, after: Head) {
    && |after.keyset.keys| == |before.keyset.keys| + 1
    && exists key :: Preloads(before, after, key)
  }

  ghost predicate ActivatesPreloaded(before: Head, after: Head) {
    && before.next.Some?
    && |after.keyset.keys| == |before.keyset.keys|
    && exists previous :: Activates(before, after, before.next.value, previous)
  }

  /** What one accepted step does to the map of keys; a valid head stays valid. */
  ghost predicate Moves(before: Head, after: Head) {
    && HeadValid(after)
    && after.keyset.generation == before.keyset.generation + 1
    && if before.next.None? then PreloadsOne(before, after) else ActivatesPreloaded(before, after)
  }

  lemma StepChecks(checks: KeyChecks, organizationId: string, now: int, before: Head, candidate: Keyset)
    requires HeadValid(before) && Step(checks, organizationId, now, before, candidate).Success?
    ensures candidate.generation == before.keyset.generation + 1
    ensures UpdateVerifies(checks, before.keyset, candidate, now)
    ensures KeysetValid(checks, candidate, organizationId, now, None) && Distinct(candidate.keys)
    ensures Distinct(before.keyset.keys) && |ActiveKeys(candidate.keys)| == 1
    ensures WindowsRetained(before.keyset.keys, candidate.keys)
    ensures now + 600_000 < candidate.expiresAt <= candidate.issuedAt + 29 * 86_400_000
  {
    hide UpdateVerifies, TimesValid, WindowsRetained, PreloadAllowed, ActivationAllowed, ActiveKeys, Distinct;
  }

  lemma StepMeans(checks: KeyChecks, organizationId: string, now: int, before: Head, candidate: Keyset)
    requires HeadValid(before)
    requires Step(checks, organizationId, now, before, candidate).Success?
    ensures Moves(before, Step(checks, organizationId, now, before, candidate).value)
  {
    var after := Step(checks, organizationId, now, before, candidate).value;
    hide HeadValid, Distinct, WindowsRetained, Roles, Find, Introduced, ActiveKeys, PreloadAllowed, ActivationAllowed,
      UpdateVerifies, PreloadsNow, ActivatesNow, PreloadsOne, ActivatesPreloaded, Step;
    StepChecks(checks, organizationId, now, before, candidate);
    StepRoles(checks, organizationId, now, before, candidate);
    MovedHeadIsValid(before, after);
  }

  /** With no preload recorded: one overlap key is new, usable now and for ten minutes, and nothing else changes. */
  ghost predicate PreloadsNow(before: Head, after: Head, now: int) {
    exists key :: Preloads(before, after, key) && key.notBefore.ms <= now && now + 600_000 < key.notAfter.ms
  }

  /** With a preload recorded: it becomes the active key, the active one an overlap key, and nothing else changes. */
  ghost predicate ActivatesNow(before: Head, after: Head) {
    before.next.Some? && exists previous :: Activates(before, after, before.next.value, previous)
  }

  lemma PreloadMoves(before: Head, after: Head, now: int)
    requires HeadValid(before) && Distinct(after.keyset.keys)
    requires WindowsRetained(before.keyset.keys, after.keyset.keys)
    requires PreloadAllowed(before.keyset.keys, after.keyset.keys, before.next, now)
    requires after.next == Some(Introduced(after.keyset.keys, before.keyset.keys)[0].version)
    ensures PreloadsNow(before, after, now) && PreloadsOne(before, after)
  {
    hide HeadValid, Distinct;
    var introduced := Introduced(after.keyset.keys, before.keyset.keys);
    var key := introduced[0];
    assert introduced == [key];
    PreloadMeans(before, after.keyset.keys, key);
    assert Preloads(before, after, key);
  }

  lemma ActivationMoves(before: Head, after: Head, active: string)
    requires HeadValid(before) && Distinct(after.keyset.keys)
    requires WindowsRetained(before.keyset.keys, after.keyset.keys)
    requires active != ActiveKeys(before.keyset.keys)[0].version && after.next == None
    requires ActivationAllowed(before.keyset.keys, after.keyset.keys, before.next, active,
                               ActiveKeys(before.keyset.keys)[0].version)
    ensures ActivatesNow(before, after) && ActivatesPreloaded(before, after)
  {
    var previous := ActiveKeys(before.keyset.keys)[0].version;
    ActivationMeans(before, after.keyset.keys, active, previous);
    hide HeadValid, Distinct, WindowsRetained, Roles;
    assert Activates(before, after, active, previous);
  }

  /** What an accepted step does to the roles. */
  lemma StepRoles(checks: KeyChecks, organizationId: string, now: int, before: Head, candidate: Keyset)
    requires HeadValid(before)
    requires Step(checks, organizationId, now, before, candidate).Success?
    ensures var after := Step(checks, organizationId, now, before, candidate).value;
            && after.keyset == candidate
            && if before.next.None? then PreloadsNow(before, after, now) && PreloadsOne(before, after)
               else ActivatesNow(before, after) && ActivatesPreloaded(before, after)
  {
    var after := Step(checks, organizationId, now, before, candidate).value;
    StepCases(checks, organizationId, now, before, candidate);
    hide Step, HeadValid, Distinct, WindowsRetained;
    if ActiveKeys(candidate.keys)[0].version == ActiveKeys(before.keyset.keys)[0].version {
      PreloadMoves(before, after, now);
    } else {
      ActivationMoves(before, after, ActiveKeys(candidate.keys)[0].version);
    }
  }

  lemma MovedHeadIsValid(before: Head, after: Head)
    requires Distinct(after.keyset.keys) && |ActiveKeys(after.keyset.keys)| == 1
    requires PreloadsOne(before, after) || ActivatesPreloaded(before, after)
    ensures HeadValid(after)
  {
    hide ActiveKeys, Distinct, Roles;
  }

  // ---------------------------------------------------------------- exactly what is accepted

  /** A keyset that can be trusted at one moment: its one active key signed it, under the pin when there is one, and
      every window and lifetime is in order. */
  ghost predicate Trusted(checks: KeyChecks, keyset: Keyset, organizationId: string, now: int, pin: Option<string>) {
    var roles := Roles(keyset.keys);
    && checks.schema(keyset) && keyset.organizationId == organizationId && Distinct(keyset.keys)
    && OnlyRole(keyset.keys, keyset.signedBy)
    && (forall v :: v in roles ==> roles[v].notBefore.ms < roles[v].notAfter.ms)
    && var signer := roles[keyset.signedBy];
       && signer.notBefore.ms <= now < keyset.expiresAt <= signer.notAfter.ms
       && keyset.issuedAt < keyset.expiresAt <= keyset.issuedAt + 2_592_000_000
       && keyset.issuedAt <= now + 300_000
       && checks.signed(keyset, signer.publicKey)
       && pin in {None, Some(signer.publicKey)}
  }

  lemma {:induction false} OneActiveKey(keys: seq<Key>, key: Key)
    requires Distinct(keys) && key in keys && key.status.Active?
    requires forall k :: k in keys && k.status.Active? ==> k == key
    ensures ActiveKeys(keys) == [key]
  {
    var rest := keys[1..];
    if keys[0] == key {
      forall k | k in rest ensures k != key {
        var i :| 0 < i < |keys| && keys[i] == k;
      }
      if ActiveKeys(rest) != [] {
        assert ActiveKeys(rest)[0] in ActiveKeys(rest);
      }
    } else {
      OneActiveKey(rest, key);
    }
  }

  lemma OnlyActive(keys: seq<Key>, key: Key)
    requires |ActiveKeys(keys)| == 1 && key in keys && key.status.Active?
    ensures forall k :: k in keys && k.status.Active? ==> k == key
  {
    assert key in ActiveKeys(keys);
    forall k | k in keys && k.status.Active? ensures k == key {
      assert k in ActiveKeys(keys);
    }
  }

  ghost predicate OnlyRole(keys: seq<Key>, version: string) {
    && version in Roles(keys)
    && forall v :: v in Roles(keys) ==> (Roles(keys)[v].status.Active? <==> v == version)
  }

  lemma OneActiveMeans(keys: seq<Key>, version: string)
    requires Distinct(keys)
    ensures (version in Roles(keys) && Roles(keys)[version].status.Active? && |ActiveKeys(keys)| == 1) <==>
            OnlyRole(keys, version)
  {
    RolesAre(keys);
    if version in Roles(keys) && Roles(keys)[version].status.Active? {
      var key := Roles(keys)[version];
      hide Roles, Distinct, ActiveKeys;
      if |ActiveKeys(keys)| == 1 {
        OnlyActive(keys, key);
      }
      if OnlyRole(keys, version) {
        OneActiveKey(keys, key);
      }
    }
  }

  lemma TimesMean(keyset: Keyset, now: int)
    requires Distinct(keyset.keys)
    ensures TimesValid(keyset, now) <==>
            && keyset.issuedAt < keyset.expiresAt <= keyset.issuedAt + 2_592_000_000
            && keyset.issuedAt <= now + 300_000 && now < keyset.expiresAt
            && (forall v :: v in Roles(keyset.keys) ==>
                  Roles(keyset.keys)[v].notBefore.ms < Roles(keyset.keys)[v].notAfter.ms)
            && exists v :: && v in Roles(keyset.keys) && Roles(keyset.keys)[v].status.Active?
                           && Roles(keyset.keys)[v].notBefore.ms <= now < Roles(keyset.keys)[v].notAfter.ms
  {
    RolesAre(keyset.keys);
    hide Roles, Distinct;
    if k :| k in keyset.keys && k.status.Active? && k.notBefore.ms <= now < k.notAfter.ms {
      assert Roles(keyset.keys)[k.version] == k;
    }
  }

  lemma KeysetValidMeans(checks: KeyChecks, keyset: Keyset, organizationId: string, now: int, pin: Option<string>)
    ensures KeysetValid(checks, keyset, organizationId, now, pin) <==>
            Trusted(checks, keyset, organizationId, now, pin)
  {
    if Distinct(keyset.keys) {
      OneActiveMeans(keyset.keys, keyset.signedBy);
      TimesMean(keyset, now);
      FindRole(keyset.keys, keyset.signedBy);
      hide Roles, Distinct, ActiveKeys, TimesValid;
    }
  }

  /** A successor that the current keyset stands for: one generation on, signed by a key of the current keyset that
      stays usable for ten minutes and is the successor's active key, both keysets alive, the new one for ten minutes
      to 29 days. */
  ghost predicate SignedSuccessor(checks: KeyChecks, organizationId: string, now: int, current: Keyset,
                                  candidate: Keyset)
  {
    var held, next := Roles(current.keys), Roles(candidate.keys);
    && checks.schema(current) && checks.schema(candidate)
    && current.organizationId == candidate.organizationId == organizationId
    && candidate.generation == current.generation + 1
    && TimesValid(current, now)
    && Distinct(candidate.keys)
    && candidate.issuedAt < candidate.expiresAt <= candidate.issuedAt + 29 * 86_400_000
    && candidate.issuedAt <= now + 300_000 && now + 600_000 < candidate.expiresAt
    && candidate.signedBy in held && candidate.signedBy in next && next[candidate.signedBy].status.Active?
    && var signer := held[candidate.signedBy];
       && signer.notBefore.ms <= now && now + 600_000 <= signer.notAfter.ms && candidate.expiresAt <= signer.notAfter.ms
       && checks.signed(candidate, signer.publicKey)
  }

  /** Usable now and for the next ten minutes. */
  ghost predicate UsableSoon(key: Key, now: int) {
    key.notBefore.ms <= now && now + 600_000 < key.notAfter.ms
  }

  ghost predicate Advances(checks: KeyChecks, organizationId: string, now: int, before: Head, after: Head) {
    && SignedSuccessor(checks, organizationId, now, before.keyset, after.keyset)
    && (PreloadsNow(before, after, now) || ActivatesNow(before, after))
  }

  lemma {:induction false} FindUsableIs(keys: seq<Key>, version: string, now: int)
    requires Distinct(keys)
    ensures FindUsable(keys, version, now) ==
            if version in Roles(keys) && KeyUsable(Roles(keys)[version], now) then Some(Roles(keys)[version]) else None
  {
    RolesAre(keys);
    if keys != [] {
      var rest := keys[1..];
      FindUsableIs(rest, version, now);
      RolesAre(rest);
      assert keys == [keys[0]] + rest;
    }
  }

  lemma UpdateMeans(checks: KeyChecks, current: Keyset, candidate: Keyset, now: int)
    requires Distinct(current.keys) && Distinct(candidate.keys) && WindowsRetained(current.keys, candidate.keys)
    ensures UpdateVerifies(checks, current, candidate, now) <==>
            && checks.schema(current) && checks.schema(candidate)
            && candidate.organizationId == current.organizationId && current.generation < candidate.generation
            && TimesValid(current, now) && TimesValid(candidate, now)
            && candidate.signedBy in Roles(current.keys)
            && var signer := Roles(current.keys)[candidate.signedBy];
               && signer.notBefore.ms <= now && now + 600_000 <= signer.notAfter.ms
               && checks.signed(candidate, signer.publicKey)
  {
    FindUsableIs(current.keys, candidate.signedBy, now);
    RolesAre(current.keys);
    RolesAre(candidate.keys);
    hide TimesValid;
    if candidate.signedBy in Roles(current.keys) {
      var signer := Roles(current.keys)[candidate.signedBy];
      var kept := Find(candidate.keys, signer.version).value;
      assert SameWindow(signer, kept) && kept in candidate.keys;
    }
  }

  lemma {:induction false} OnlyIntroduced(candidate: seq<Key>, current: seq<Key>, key: Key)
    requires Distinct(candidate) && key in candidate && Find(current, key.version).None?
    requires forall k :: k in candidate && Find(current, k.version).None? ==> k == key
    ensures Introduced(candidate, current) == [key]
  {
    var rest := candidate[1..];
    if candidate[0] == key {
      forall k | k in rest ensures k != key {
        var i :| 0 < i < |candidate| && candidate[i] == k;
      }
      if Introduced(rest, current) != [] {
        assert Introduced(rest, current)[0] in Introduced(rest, current);
      }
    } else {
      OnlyIntroduced(rest, current, key);
    }
  }

  /** What a new map of roles says of the list it comes from. */
  lemma RolesRetain(current: seq<Key>, candidate: seq<Key>)
    requires Distinct(current) && Distinct(candidate)
    requires forall v :: v in Roles(current) ==>
               v in Roles(candidate) && SameWindow(Roles(current)[v], Roles(candidate)[v])
    ensures WindowsRetained(current, candidate)
    ensures forall prior :: prior in current ==>
              Find(candidate, prior.version) == Some(Roles(candidate)[prior.version])
              && Roles(current)[prior.version] == prior
  {
    RolesAre(current);
    forall prior | prior in current ensures Find(candidate, prior.version) == Some(Roles(candidate)[prior.version]) {
      FindRole(candidate, prior.version);
    }
  }

  lemma RolesCount(keys: seq<Key>)
    requires Distinct(keys)
    ensures |Roles(keys)| == |keys| && Roles(keys).Keys == Versions(keys)
  {
    VersionsCount(keys);
    assert Roles(keys).Keys == Versions(keys);
  }

  lemma PreloadIsAllowed(before: Head, after: Head, key: Key, now: int)
    requires HeadValid(before) && Distinct(after.keyset.keys) && Preloads(before, after, key)
    requires key.notBefore.ms <= now && now + 600_000 < key.notAfter.ms
    ensures WindowsRetained(before.keyset.keys, after.keyset.keys)
    ensures PreloadAllowed(before.keyset.keys, after.keyset.keys, before.next, now)
    ensures Introduced(after.keyset.keys, before.keyset.keys) == [key]
  {
    var current, candidate := before.keyset.keys, after.keyset.keys;
    RolesAre(current);
    RolesAre(candidate);
    RolesRetain(current, candidate);
    RolesCount(current);
    RolesCount(candidate);
    forall k | k in candidate ensures Find(current, k.version).None? <==> k == key {
      FindRole(current, k.version);
      assert Roles(candidate)[k.version] == k;
    }
    assert Roles(candidate)[key.version] == key;
    OnlyIntroduced(candidate, current, key);
  }

  lemma NoneIntroduced(candidate: seq<Key>, current: seq<Key>)
    requires Roles(candidate).Keys <= Roles(current).Keys && Distinct(candidate)
    ensures Introduced(candidate, current) == []
  {
    RolesAre(candidate);
    hide Roles;
    if Introduced(candidate, current) != [] {
      var k := Introduced(candidate, current)[0];
      assert k in Introduced(candidate, current);
      FindRole(current, k.version);
    }
  }

  lemma RolesSwap(before: map<string, Key>, after: map<string, Key>, active: string, previous: string)
    requires active in before && previous in before && active != previous
    requires after ==
             before[active := before[active].(status := Active)][previous := before[previous].(status := Overlap)]
    requires forall v :: v in before ==> before[v].version == v
    ensures after.Keys == before.Keys
    ensures forall v :: v in before ==>
              after[v].status == StatusAfter(before[v], active, previous) && SameWindow(before[v], after[v])
  {
  }

  lemma ActivationIsAllowed(before: Head, after: Head, previous: string)
    requires HeadValid(before) && Distinct(after.keyset.keys) && before.next.Some?
    requires Activates(before, after, before.next.value, previous)
    ensures WindowsRetained(before.keyset.keys, after.keyset.keys)
    ensures ActivationAllowed(before.keyset.keys, after.keyset.keys, before.next, before.next.value, previous)
  {
    hide Roles, Find, Introduced, Distinct, Versions, ActiveKeys, WindowsRetained, SameWindow;
    var current, candidate := before.keyset.keys, after.keyset.keys;
    RolesAre(current);
    RolesSwap(Roles(current), Roles(candidate), before.next.value, previous);
    RolesRetain(current, candidate);
    RolesCount(current);
    RolesCount(candidate);
    FindRole(current, before.next.value);
    NoneIntroduced(candidate, current);
  }

  /** The active key before and after a move. */
  lemma ActiveVersion(keys: seq<Key>, version: string)
    requires Distinct(keys) && OnlyRole(keys, version)
    ensures |ActiveKeys(keys)| == 1 && ActiveKeys(keys)[0].version == version
  {
    RolesAre(keys);
    OneActiveKey(keys, Roles(keys)[version]);
  }

  lemma HeadHasActive(head: Head) returns (version: string)
    requires HeadValid(head)
    ensures OnlyRole(head.keyset.keys, version) && ActiveKeys(head.keyset.keys)[0].version == version
  {
    var keys := head.keyset.keys;
    RolesAre(keys);
    version := ActiveKeys(keys)[0].version;
    assert ActiveKeys(keys)[0] in ActiveKeys(keys);
    OneActiveMeans(keys, version);
  }

  /** What a move does to the map of roles. */
  lemma MovedRoles(before: Head, after: Head, now: int)
    requires HeadValid(before) && Distinct(after.keyset.keys)
    requires PreloadsNow(before, after, now) || ActivatesNow(before, after)
    ensures WindowsRetained(before.keyset.keys, after.keyset.keys)
    ensures exists version :: OnlyRole(after.keyset.keys, version)
    ensures forall v :: v in Roles(before.keyset.keys) ==>
              v in Roles(after.keyset.keys)
              && SameWindow(Roles(before.keyset.keys)[v], Roles(after.keyset.keys)[v])
    ensures forall v :: v in Roles(after.keyset.keys) && v !in Roles(before.keyset.keys) ==>
              UsableSoon(Roles(after.keyset.keys)[v], now)
  {
    hide Roles, Find, Distinct, HeadValid, ActiveKeys;
    var current, candidate := before.keyset.keys, after.keyset.keys;
    var active := HeadHasActive(before);
    HeadIsDistinct(before);
    RolesAre(current);
    if PreloadsNow(before, after, now) {
      var key :| Preloads(before, after, key) && key.notBefore.ms <= now && now + 600_000 < key.notAfter.ms;
      assert OnlyRole(candidate, active);
    } else {
      var previous :| Activates(before, after, before.next.value, previous);
      RolesSwap(Roles(current), Roles(candidate), before.next.value, previous);
      assert OnlyRole(candidate, before.next.value);
    }
    RolesRetain(current, candidate);
  }

  lemma HeadIsDistinct(head: Head)
    requires HeadValid(head)
    ensures Distinct(head.keyset.keys)
  {
  }

  lemma MovedWindows(before: Head, after: Head, now: int)
    requires HeadValid(before) && Distinct(after.keyset.keys) && TimesValid(before.keyset, now)
    requires PreloadsNow(before, after, now) || ActivatesNow(before, after)
    ensures forall v :: v in Roles(after.keyset.keys) ==>
              Roles(after.keyset.keys)[v].notBefore.ms < Roles(after.keyset.keys)[v].notAfter.ms
  {
    hide Roles, Find, Distinct, HeadValid, ActiveKeys, PreloadsNow, ActivatesNow, WindowsRetained, TimesValid, OnlyRole;
    HeadIsDistinct(before);
    MovedRoles(before, after, now);
    TimesMean(before.keyset, now);
  }

  lemma SuccessorIsTrusted(checks: KeyChecks, organizationId: string, now: int, before: Head, after: Head)
    requires HeadValid(before) && Advances(checks, organizationId, now, before, after)
    ensures KeysetValid(checks, after.keyset, organizationId, now, None)
    ensures UpdateVerifies(checks, before.keyset, after.keyset, now)
    ensures WindowsRetained(before.keyset.keys, after.keyset.keys)
  {
    hide Roles, Find, Distinct, HeadValid, ActiveKeys, PreloadsNow, ActivatesNow, WindowsRetained, TimesValid,
      KeysetValid, UpdateVerifies;
    HeadIsDistinct(before);
    MovedRoles(before, after, now);
    MovedWindows(before, after, now);
    var version :| OnlyRole(after.keyset.keys, version);
    assert version == after.keyset.signedBy;
    KeysetValidMeans(checks, after.keyset, organizationId, now, None);
    ValidIsTimely(checks, after.keyset, organizationId, now);
    hide Trusted;
    UpdateMeans(checks, before.keyset, after.keyset, now);
  }

  lemma ValidIsTimely(checks: KeyChecks, keyset: Keyset, organizationId: string, now: int)
    requires KeysetValid(checks, keyset, organizationId, now, None)
    ensures TimesValid(keyset, now) && checks.schema(keyset)
  {
    hide TimesValid;
  }

  /** Past the checks that do not look at the rotation, the roles decide. */
  lemma StepTakes(checks: KeyChecks, organizationId: string, now: int, head: Head, candidate: Keyset, active: string,
                  previous: string)
    requires checks.schema(candidate) && candidate.generation == head.keyset.generation + 1
    requires UpdateVerifies(checks, head.keyset, candidate, now)
    requires KeysetValid(checks, candidate, organizationId, now, None)
    requires now + 10 * MINUTE < candidate.expiresAt <= candidate.issuedAt + 29 * DAY
    requires WindowsRetained(head.keyset.keys, candidate.keys)
    requires ActiveKeys(head.keyset.keys) != [] && ActiveKeys(head.keyset.keys)[0].version == previous
    requires ActiveKeys(candidate.keys) != [] && ActiveKeys(candidate.keys)[0].version == active
    ensures active == previous && PreloadAllowed(head.keyset.keys, candidate.keys, head.next, now) ==>
              Step(checks, organizationId, now, head, candidate) ==
              Success(Head(candidate, Some(Introduced(candidate.keys, head.keyset.keys)[0].version)))
    ensures active != previous && ActivationAllowed(head.keyset.keys, candidate.keys, head.next, active, previous) ==>
              Step(checks, organizationId, now, head, candidate) == Success(Head(candidate, None))
  {
    hide UpdateVerifies, KeysetValid, WindowsRetained, ActivationAllowed, ActiveKeys;
  }

  lemma PreloadIsStep(checks: KeyChecks, organizationId: string, now: int, before: Head, after: Head)
    requires HeadValid(before) && Advances(checks, organizationId, now, before, after)
    requires PreloadsNow(before, after, now)
    ensures Step(checks, organizationId, now, before, after.keyset) == Success(after)
  {
    hide Roles, Find, Distinct, ActiveKeys, Introduced, KeysetValid, UpdateVerifies, WindowsRetained, PreloadAllowed,
      Step, HeadValid, Preloads, OnlyRole;
    SuccessorIsTrusted(checks, organizationId, now, before, after);
    var active := HeadHasActive(before);
    var key :| Preloads(before, after, key) && key.notBefore.ms <= now && now + 600_000 < key.notAfter.ms;
    PreloadIsAllowed(before, after, key, now);
    PreloadKeepsActive(before, after, key, active);
    ActiveVersion(before.keyset.keys, active);
    ActiveVersion(after.keyset.keys, active);
    StepTakes(checks, organizationId, now, before, after.keyset, active, active);
  }

  lemma ActivationIsStep(checks: KeyChecks, organizationId: string, now: int, before: Head, after: Head)
    requires HeadValid(before) && Advances(checks, organizationId, now, before, after)
    requires ActivatesNow(before, after)
    ensures Step(checks, organizationId, now, before, after.keyset) == Success(after)
  {
    hide Roles, Find, Distinct, ActiveKeys, Introduced, KeysetValid, UpdateVerifies, WindowsRetained, ActivationAllowed,
      Step, HeadValid, Activates, OnlyRole;
    SuccessorIsTrusted(checks, organizationId, now, before, after);
    var active := HeadHasActive(before);
    var previous :| Activates(before, after, before.next.value, previous);
    ActivationIsAllowed(before, after, previous);
    ActivationMovesActive(before, after, previous, active);
    ActiveVersion(before.keyset.keys, active);
    ActiveVersion(after.keyset.keys, before.next.value);
    StepTakes(checks, organizationId, now, before, after.keyset, before.next.value, previous);
  }

  lemma PreloadKeepsActive(before: Head, after: Head, key: Key, active: string)
    requires Preloads(before, after, key) && OnlyRole(before.keyset.keys, active)
    ensures OnlyRole(after.keyset.keys, active) && after.next == Some(key.version)
  {
    hide Roles;
  }

  lemma ActivationMovesActive(before: Head, after: Head, previous: string, active: string)
    requires HeadValid(before) && before.next.Some? && Activates(before, after, before.next.value, previous)
    requires OnlyRole(before.keyset.keys, active)
    ensures OnlyRole(after.keyset.keys, before.next.value) && previous == active
    ensures previous != before.next.value && after.next == None
  {
    hide Roles;
  }

  /** Nothing more than that is accepted. */
  lemma StepIsAdvance(checks: KeyChecks, organizationId: string, now: int, before: Head, candidate: Keyset)
    requires HeadValid(before) && Step(checks, organizationId, now, before, candidate).Success?
    ensures Advances(checks, organizationId, now, before, Step(checks, organizationId, now, before, candidate).value)
  {
    hide Roles, Find, Distinct, ActiveKeys, HeadValid, TimesValid, KeysetValid, UpdateVerifies, Step, PreloadsNow,
      ActivatesNow, WindowsRetained, PreloadsOne, ActivatesPreloaded;
    StepChecks(checks, organizationId, now, before, candidate);
    StepRoles(checks, organizationId, now, before, candidate);
    KeysetValidMeans(checks, candidate, organizationId, now, None);
    UpdateMeans(checks, before.keyset, candidate, now);
    RolesKeepSigner(before.keyset.keys, candidate.keys, candidate.signedBy);
  }

  lemma RolesKeepSigner(current: seq<Key>, candidate: seq<Key>, version: string)
    requires Distinct(current) && WindowsRetained(current, candidate)
    ensures version in Roles(current) ==>
              version in Roles(candidate) && SameWindow(Roles(current)[version], Roles(candidate)[version])
  {
    RolesAre(current);
    FindRole(candidate, version);
  }

  /** Exactly which successors are accepted, and what becomes of the head. */
  lemma StepExactly(checks: KeyChecks, organizationId: string, now: int, before: Head, after: Head)
    requires HeadValid(before)
    ensures Step(checks, organizationId, now, before, after.keyset) == Success(after) <==>
            Advances(checks, organizationId, now, before, after)
  {
    if Advances(checks, organizationId, now, before, after) {
      if PreloadsNow(before, after, now) {
        PreloadIsStep(checks, organizationId, now, before, after);
      } else {
        ActivationIsStep(checks, organizationId, now, before, after);
      }
    }
    hide Advances, Step;
    if Step(checks, organizationId, now, before, after.keyset) == Success(after) {
      StepIsAdvance(checks, organizationId, now, before, after.keyset);
    }
  }

  // ---------------------------------------------------------------- histories

  /** One accepted step of an anchor's life, at some time. */
  ghost predicate Succeeds(checks: KeyChecks, organizationId: string, before: Head, after: Head) {
    exists now :: Step(checks, organizationId, now, before, after.keyset) == Success(after)
  }

  ghost function Steps(checks: KeyChecks, organizationId: string): (Head, Head) -> bool {
    (before, after) => Succeeds(checks, organizationId, before, after)
  }

  /** The heads an anchor goes through from a valid one with no preload, whatever calls and times the
      steps came from. */
  ghost predicate IsHistory(checks: KeyChecks, organizationId: string, heads: seq<Head>) {
    && heads != [] && HeadValid(heads[0]) && heads[0].next.None?
    && Linked(Steps(checks, organizationId), heads)
  }

  /** The same history by what its steps mean. */
  ghost predicate IsRotation(heads: seq<Head>) {
    && heads != [] && heads[0].next.None?
    && Linked((before, after) => Moves(before, after), heads)
  }

  lemma {:induction false} HistoryMoves(checks: KeyChecks, organizationId: string, heads: seq<Head>, i: nat)
    requires IsHistory(checks, organizationId, heads) && i < |heads|
    ensures HeadValid(heads[i])
    ensures i > 0 ==> Moves(heads[i - 1], heads[i])
  {
    hide HeadValid, Moves, Succeeds;
    if i > 0 {
      HistoryMoves(checks, organizationId, heads, i - 1);
      assert LinkedAt(Steps(checks, organizationId), heads, i - 1);
      SuccessMoves(checks, organizationId, heads[i - 1], heads[i]);
    }
  }

  lemma SuccessMoves(checks: KeyChecks, organizationId: string, before: Head, after: Head)
    requires HeadValid(before) && Succeeds(checks, organizationId, before, after)
    ensures Moves(before, after) && HeadValid(after)
  {
    var now :| Step(checks, organizationId, now, before, after.keyset) == Success(after);
    StepMeans(checks, organizationId, now, before, after.keyset);
  }

  lemma HistoryIsRotation(checks: KeyChecks, organizationId: string, heads: seq<Head>)
    requires IsHistory(checks, organizationId, heads)
    ensures IsRotation(heads)
    ensures forall i :: 0 <= i < |heads| ==> HeadValid(heads[i])
  {
    forall i: nat | i < |heads|
      ensures HeadValid(heads[i])
      ensures i > 0 ==> Moves(heads[i - 1], heads[i])
    {
      HistoryMoves(checks, organizationId, heads, i);
    }
  }

  lemma MoveCounts(before: Head, after: Head)
    requires Moves(before, after)
    ensures after.keyset.generation == before.keyset.generation + 1
    ensures |after.keyset.keys| == |before.keyset.keys| + (if before.next.None? then 1 else 0)
    ensures after.next.Some? <==> before.next.None?
  {
  }

  lemma MoveKeeps(before: Head, after: Head, version: string)
    requires Moves(before, after) && version in Roles(before.keyset.keys)
    ensures version in Roles(after.keyset.keys)
    ensures SameWindow(Roles(before.keyset.keys)[version], Roles(after.keyset.keys)[version])
  {
  }

  /** Only the recorded preload can become active. */
  lemma MoveActivates(before: Head, after: Head, version: string)
    requires Moves(before, after)
    requires version in Roles(after.keyset.keys) && Roles(after.keyset.keys)[version].status.Active?
    requires version in Roles(before.keyset.keys) ==> !Roles(before.keyset.keys)[version].status.Active?
    ensures before.next == Some(version)
    ensures version in Roles(before.keyset.keys) && Roles(before.keyset.keys)[version].status.Overlap?
  {
  }

  lemma MoveRecords(before: Head, after: Head, version: string)
    requires Moves(before, after) && after.next == Some(version)
    ensures version !in Roles(before.keyset.keys)
  {
  }

  /** After k steps: generation up by k, ceil(k/2) keys more, a preload recorded iff k is odd.
      That every head has one active key is HistoryIsRotation. */
  lemma {:induction false} RotationShape(heads: seq<Head>, k: nat)
    requires IsRotation(heads) && k < |heads|
    ensures heads[k].keyset.generation == heads[0].keyset.generation + k
    ensures |heads[k].keyset.keys| == |heads[0].keyset.keys| + (k + 1) / 2
    ensures heads[k].next.Some? <==> k % 2 == 1
  {
    hide Moves;
    if k > 0 {
      RotationShape(heads, k - 1);
      assert LinkedAt((before, after) => Moves(before, after), heads, k - 1);
      MoveCounts(heads[k - 1], heads[k]);
    }
  }

  /** A key that becomes active was introduced, as overlap, in the generation just before. */
  lemma ActivatedKeysWereJustPreloaded(heads: seq<Head>, i: nat, version: string)
    requires IsRotation(heads) && i + 1 < |heads|
    requires version in Roles(heads[i + 1].keyset.keys) && Roles(heads[i + 1].keyset.keys)[version].status.Active?
    requires version in Roles(heads[i].keyset.keys) ==> !Roles(heads[i].keyset.keys)[version].status.Active?
    ensures i > 0
    ensures version !in Roles(heads[i - 1].keyset.keys)
    ensures version in Roles(heads[i].keyset.keys) && Roles(heads[i].keyset.keys)[version].status.Overlap?
    ensures heads[i].next == Some(version)
  {
    assert LinkedAt((before, after) => Moves(before, after), heads, i);
    MoveActivates(heads[i], heads[i + 1], version);
    assert LinkedAt((before, after) => Moves(before, after), heads, i - 1);
    MoveRecords(heads[i - 1], heads[i], version);
  }

  /** No key is ever dropped, and none changes its public key or window. */
  lemma {:induction false} KeysNeverChange(heads: seq<Head>, i: nat, j: nat, version: string)
    requires IsRotation(heads) && i <= j < |heads|
    requires version in Roles(heads[i].keyset.keys)
    ensures version in Roles(heads[j].keyset.keys)
    ensures SameWindow(Roles(heads[i].keyset.keys)[version], Roles(heads[j].keyset.keys)[version])
  {
    hide Moves, Roles;
    if i < j {
      KeysNeverChange(heads, i, j - 1, version);
      assert LinkedAt((before, after) => Moves(before, after), heads, j - 1);
      MoveKeeps(heads[j - 1], heads[j], version);
    }
  }

  // ---------------------------------------------------------------- chains

  /** Accepting one chain and then another at the same time is accepting their concatenation. */
  lemma {:induction false} ChainsCompose(step: Stepper, head: Head, first: seq<Keyset>, second: seq<Keyset>)
    ensures var halfway := Chain(step, head, first);
            Chain(step, head, first + second) ==
            if halfway.Failure? then halfway else Chain(step, halfway.value, second)
    decreases |first|
  {
    if first == [] {
      assert first + second == second;
    } else {
      assert (first + second)[0] == first[0] && (first + second)[1..] == first[1..] + second;
      var next := if head.keyset == first[0] then Success(head) else step(head, first[0]);
      if next.Success? {
        ChainsCompose(step, next.value, first[1..], second);
      }
    }
  }

  ghost function Taken(step: Stepper): (Head, Head) -> bool {
    (before, after) => exists candidate: Keyset :: step(before, candidate) == Success(after)
  }

  /** The heads a successful chain passes through; a duplicate adds none. */
  lemma {:induction false} ChainPasses(step: Stepper, head: Head, chain: seq<Keyset>) returns (heads: seq<Head>)
    requires Chain(step, head, chain).Success?
    ensures heads != [] && heads[0] == head && |heads| <= |chain| + 1
    ensures heads[|heads| - 1] == Chain(step, head, chain).value
    ensures Linked(Taken(step), heads)
    decreases |chain|
  {
    if chain == [] {
      heads := [head];
    } else if head.keyset == chain[0] {
      heads := ChainPasses(step, head, chain[1..]);
    } else {
      var after := step(head, chain[0]).value;
      var rest := ChainPasses(step, after, chain[1..]);
      LinkFront(Taken(step), head, rest);
      heads := [head] + rest;
    }
  }

  /** The shape of what one call accepts from an anchor with no preload, in its own terms. */
  lemma ChainShape(checks: KeyChecks, organizationId: string, now: int, head: Head, chain: seq<Keyset>)
    requires HeadValid(head) && head.next.None?
    requires Chain(At(checks, organizationId, now), head, chain).Success?
    ensures var after := Chain(At(checks, organizationId, now), head, chain).value;
            var k := after.keyset.generation - head.keyset.generation;
            && 0 <= k <= |chain|
            && HeadValid(after)
            && |after.keyset.keys| == |head.keyset.keys| + (k + 1) / 2
            && (after.next.Some? <==> k % 2 == 1)
  {
    hide Step;
    var heads := ChainPasses(At(checks, organizationId, now), head, chain);
    forall i | 0 <= i < |heads| - 1
      ensures LinkedAt(Steps(checks, organizationId), heads, i)
    {
      assert LinkedAt(Taken(At(checks, organizationId, now)), heads, i);
    }
    HistoryIsRotation(checks, organizationId, heads);
    RotationShape(heads, |heads| - 1);
  }

  ghost function AdvancesAt(checks: KeyChecks, organizationId: string, now: int): (Head, Head) -> bool {
    (before, after) => Advances(checks, organizationId, now, before, after)
  }

  function Keysets(heads: seq<Head>): seq<Keyset> {
    seq(|heads|, i requires 0 <= i < |heads| => heads[i].keyset)
  }

  lemma AdvanceMoves(checks: KeyChecks, organizationId: string, now: int, before: Head, after: Head)
    requires HeadValid(before) && Advances(checks, organizationId, now, before, after)
    ensures Step(checks, organizationId, now, before, after.keyset) == Success(after)
    ensures HeadValid(after) && before.keyset != after.keyset
  {
    hide HeadValid, Step, Moves, Advances;
    StepExactly(checks, organizationId, now, before, after);
    StepMeans(checks, organizationId, now, before, after.keyset);
    MoveIsValid(before, after);
  }

  /** Heads that each advance the one before are accepted as one chain, up to the last. */
  lemma {:induction false} AdvancesAreAccepted(checks: KeyChecks, organizationId: string, now: int, heads: seq<Head>)
    requires heads != [] && HeadValid(heads[0]) && Linked(AdvancesAt(checks, organizationId, now), heads)
    ensures Chain(At(checks, organizationId, now), heads[0], Keysets(heads[1..])) == Success(heads[|heads| - 1])
    decreases |heads|
  {
    hide HeadValid, Step, Advances;
    if |heads| > 1 {
      assert LinkedAt(AdvancesAt(checks, organizationId, now), heads, 0);
      AdvanceMoves(checks, organizationId, now, heads[0], heads[1]);
      var rest := heads[1..];
      forall i | 0 <= i < |rest| - 1 ensures LinkedAt(AdvancesAt(checks, organizationId, now), rest, i) {
        assert LinkedAt(AdvancesAt(checks, organizationId, now), heads, i + 1);
      }
      AdvancesAreAccepted(checks, organizationId, now, rest);
      assert Keysets(rest)[0] == heads[1].keyset && Keysets(rest)[1..] == Keysets(rest[1..]);
    }
  }

  lemma MoveIsValid(before: Head, after: Head)
    requires Moves(before, after)
    ensures HeadValid(after) && after.keyset.generation == before.keyset.generation + 1
  {
  }

  /** And every accepted chain is such a list of heads. */
  lemma {:induction false} AcceptedAdvances(checks: KeyChecks, organizationId: string, now: int, head: Head,
                                            chain: seq<Keyset>) returns (heads: seq<Head>)
    requires HeadValid(head) && Chain(At(checks, organizationId, now), head, chain).Success?
    ensures heads != [] && heads[0] == head
    ensures heads[|heads| - 1] == Chain(At(checks, organizationId, now), head, chain).value
    ensures Linked(AdvancesAt(checks, organizationId, now), heads)
    decreases |chain|
  {
    hide HeadValid, Step, Moves, Advances;
    if chain == [] {
      heads := [head];
    } else if head.keyset == chain[0] {
      heads := AcceptedAdvances(checks, organizationId, now, head, chain[1..]);
    } else {
      var after := Step(checks, organizationId, now, head, chain[0]).value;
      StepIsAdvance(checks, organizationId, now, head, chain[0]);
      StepMeans(checks, organizationId, now, head, chain[0]);
      MoveIsValid(head, after);
      var rest := AcceptedAdvances(checks, organizationId, now, after, chain[1..]);
      LinkFront(AdvancesAt(checks, organizationId, now), head, rest);
      heads := [head] + rest;
    }
  }

  /** What a chain accepted at one time does to the keys: old ones keep their windows, new ones are usable then and
      for ten minutes. */
  ghost predicate KeysGrow(before: Head, after: Head, now: int) {
    && (forall v :: v in Roles(before.keyset.keys) ==>
          && v in Roles(after.keyset.keys)
          && SameWindow(Roles(before.keyset.keys)[v], Roles(after.keyset.keys)[v]))
    && forall v :: v in Roles(after.keyset.keys) && v !in Roles(before.keyset.keys) ==>
         UsableSoon(Roles(after.keyset.keys)[v], now)
  }

  lemma {:induction false} ChainGrowsKeys(checks: KeyChecks, organizationId: string, now: int, head: Head,
                                          chain: seq<Keyset>)
    requires HeadValid(head) && Chain(At(checks, organizationId, now), head, chain).Success?
    ensures KeysGrow(head, Chain(At(checks, organizationId, now), head, chain).value, now)
    decreases |chain|
  {
    hide HeadValid, Step, Moves, Advances, Roles, UsableSoon;
    if chain != [] {
      if head.keyset == chain[0] {
        ChainGrowsKeys(checks, organizationId, now, head, chain[1..]);
      } else {
        var after := Step(checks, organizationId, now, head, chain[0]).value;
        StepIsAdvance(checks, organizationId, now, head, chain[0]);
        StepMeans(checks, organizationId, now, head, chain[0]);
        MoveIsValid(head, after);
        AdvanceGrowsKeys(checks, organizationId, now, head, after);
        ChainGrowsKeys(checks, organizationId, now, after, chain[1..]);
        var end := Chain(At(checks, organizationId, now), after, chain[1..]).value;
        GrowthComposes(head, after, end, now);
      }
    }
  }

  lemma AdvanceGrowsKeys(checks: KeyChecks, organizationId: string, now: int, before: Head, after: Head)
    requires HeadValid(before) && Advances(checks, organizationId, now, before, after)
    ensures KeysGrow(before, after, now)
  {
    hide HeadValid, Roles, UsableSoon, PreloadsNow, ActivatesNow;
    MovedRoles(before, after, now);
  }

  lemma GrowthComposes(a: Head, b: Head, c: Head, now: int)
    requires KeysGrow(a, b, now) && KeysGrow(b, c, now)
    ensures KeysGrow(a, c, now)
  {
    hide Roles;
  }
}
