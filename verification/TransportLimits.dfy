/** How long the journal's texts really are, and so when the limit under which they are read back can be met
    (packages/cli/src/demoTransportState.ts:85-91, 170-179; schemas/demo-transport-state.schema.json,
    schemas/demo-transport-continuity.schema.json, schemas/server-signing-keyset.schema.json). */
module TransportLimits {
  import opened JsonText
  import opened Outcomes
  import opened TransportJournal

  /** The texts of digests and of instants of the years 0 to 9999 are all of one length and free of escapes;
      which characters they are does not matter here. */
  const DIGEST := "sha256:" + Repeat('0', 64)
  const INSTANT := "1970-01-01T00:00:00.000Z"

  lemma PlainNames1()
    ensures Plain("acceptedAt") && Plain("certificate") && Plain("deviceId")
    ensures Plain("enrollmentOrigin") && Plain("expiresAt") && Plain("generation")
  {
  }

  lemma PlainNames2()
    ensures Plain("installationId") && Plain("installedKeysetHash") && Plain("issuedAt")
    ensures Plain("keyVersion") && Plain("keys") && Plain("nextState")
  {
  }

  lemma PlainNames3()
    ensures Plain("notAfter") && Plain("notBefore") && Plain("organizationId")
    ensures Plain("policyRevision") && Plain("previousState") && Plain("previousStateHash")
  {
  }

  lemma PlainNames4()
    ensures Plain("publicKeyEd25519") && Plain("purpose") && Plain("repositoryId")
    ensures Plain("requestNonce") && Plain("schema") && Plain("signature")
  {
  }

  lemma PlainNames5()
    ensures Plain("signedByKeyVersion") && Plain("signingKeyVersion") && Plain("status")
    ensures Plain("transportOrigin") && Plain("trustGeneration") && Plain("verifiedKeyset")
  {
  }

  lemma NamesArePlain()
    ensures Plain("acceptedAt") && Plain("certificate") && Plain("deviceId")
    ensures Plain("enrollmentOrigin") && Plain("expiresAt") && Plain("generation")
    ensures Plain("installationId") && Plain("installedKeysetHash") && Plain("issuedAt")
    ensures Plain("keyVersion") && Plain("keys") && Plain("nextState")
    ensures Plain("notAfter") && Plain("notBefore") && Plain("organizationId")
    ensures Plain("policyRevision") && Plain("previousState") && Plain("previousStateHash")
    ensures Plain("publicKeyEd25519") && Plain("purpose") && Plain("repositoryId")
    ensures Plain("requestNonce") && Plain("schema") && Plain("signature")
    ensures Plain("signedByKeyVersion") && Plain("signingKeyVersion") && Plain("status")
    ensures Plain("transportOrigin") && Plain("trustGeneration") && Plain("verifiedKeyset")
  {
    hide Plain;
    PlainNames1();
    PlainNames2();
    PlainNames3();
    PlainNames4();
    PlainNames5();
  }

  lemma KeysetSchemaCost()
    ensures Costs("dharma.server-signing-keyset/v1") == (31, 0)
  {
    hide Costs;
    CostsOfPlain("dharma.server-signing-keyset/v1");
  }

  lemma PurposeCost()
    ensures Costs("same-authority-repository-transport") == (35, 0)
  {
    hide Costs;
    CostsOfPlain("same-authority-repository-transport");
  }

  lemma CertificateSchemaCost()
    ensures Costs("dharma.demo-transport-continuity/v1") == (35, 0)
  {
    hide Costs;
    CostsOfPlain("dharma.demo-transport-continuity/v1");
  }

  lemma StateSchemaCost()
    ensures Costs("dharma.demo-transport-state/v1") == (30, 0)
  {
    hide Costs;
    CostsOfPlain("dharma.demo-transport-state/v1");
  }

  lemma JournalSchemaCost()
    ensures Costs("dharma.demo-transport-journal/v1") == (32, 0)
  {
    hide Costs;
    CostsOfPlain("dharma.demo-transport-journal/v1");
  }

  lemma DigestCost()
    ensures Costs(DIGEST) == (71, 0)
  {
    hide Costs;
    CostsJoin("sha256:", Repeat('0', 64));
    CostsOfPlain("sha256:");
    CostsOfPlain(Repeat('0', 64));
  }

  lemma InstantCost()
    ensures Costs(INSTANT) == (24, 0)
  {
    hide Costs;
    CostsOfPlain(INSTANT);
  }

  lemma StatusCost()
    ensures Costs("active") == (6, 0) && Costs("overlap") == (7, 0)
  {
    hide Costs;
    CostsOfPlain("active");
    CostsOfPlain("overlap");
  }

  lemma SchemaTextsCost()
    ensures Costs("dharma.server-signing-keyset/v1") == (31, 0)
    ensures Costs("same-authority-repository-transport") == (35, 0)
    ensures Costs("dharma.demo-transport-continuity/v1") == (35, 0)
    ensures Costs("dharma.demo-transport-state/v1") == (30, 0)
    ensures Costs("dharma.demo-transport-journal/v1") == (32, 0)
  {
    hide Costs;
    KeysetSchemaCost();
    PurposeCost();
    CertificateSchemaCost();
    StateSchemaCost();
    JournalSchemaCost();
  }

  // ---------------------------------------------------------------- the canonical texts

  function StatusText(k: Key): string {
    if k.isActive then "active" else "overlap"
  }

  function KeyFields(k: Key): seq<Field> {
    [Field("keyVersion", Text(k.version)),
     Field("notAfter", Text(k.notAfter)),
     Field("notBefore", Text(k.notBefore)),
     Field("publicKeyEd25519", Text(k.publicKey)),
     Field("status", Text(StatusText(k)))]
  }

  function KeyBytes(k: Key): nat {
    80 + Costs(k.version).0 + Costs(k.notAfter).0 + Costs(k.notBefore).0 + Costs(k.publicKey).0
      + Costs(StatusText(k)).0
  }

  function KeyMarks(k: Key): nat {
    20 + Costs(k.version).1 + Costs(k.notAfter).1 + Costs(k.notBefore).1 + Costs(k.publicKey).1
      + Costs(StatusText(k)).1
  }

  lemma KeySized(k: Key)
    ensures Sized(Object(KeyFields(k)), (KeyBytes(k), KeyMarks(k)))
  {
    hide Sized, Costs, Object, Plain;
    NamesArePlain();
    FieldsAddUp(KeyFields(k), 0, 5);
    ObjectSized(KeyFields(k));
  }

  function KeyTexts(keys: seq<Key>): seq<string> {
    seq(|keys|, i requires 0 <= i < |keys| => Object(KeyFields(keys[i])))
  }

  /** The keys from the k-th on, each with its separator. */
  function KeysSize(keys: seq<Key>, k: nat): (nat, nat)
    decreases |keys| - k
  {
    if k >= |keys| then (0, 0) else Plus((KeyBytes(keys[k]) + 1, KeyMarks(keys[k])), KeysSize(keys, k + 1))
  }

  function KeysBytes(keys: seq<Key>): nat {
    if keys == [] then 2 else 1 + KeysSize(keys, 0).0
  }

  function KeysMarks(keys: seq<Key>): nat {
    KeysSize(keys, 0).1
  }

  lemma {:induction false} KeyTextsSize(keys: seq<Key>, k: nat)
    requires k <= |keys|
    ensures ItemsSize(KeyTexts(keys), k) == KeysSize(keys, k)
    decreases |keys| - k
  {
    hide KeyBytes, KeyMarks, Object, KeyFields;
    if k < |keys| {
      KeyTextsSize(keys, k + 1);
      KeySized(keys[k]);
    }
  }

  lemma KeysSized(keys: seq<Key>)
    ensures Sized(List(KeyTexts(keys)), (KeysBytes(keys), KeysMarks(keys)))
  {
    hide KeyBytes, KeyMarks, Object, KeyFields, List, NoControls, Bytes, Marks;
    if keys == [] {
      EmptyListSized();
      assert KeyTexts(keys) == [];
    } else {
      forall i | 0 <= i < |keys| ensures NoControls(KeyTexts(keys)[i]) {
        KeySized(keys[i]);
      }
      KeyTextsSize(keys, 0);
      ListSized(KeyTexts(keys));
    }
  }

  lemma EmptyListSized()
    ensures Sized(List([]), (2, 0))
  {
    assert List([]) == "[]";
    PlainSized("[]");
  }

  function KeysetFields(k: Keyset): seq<Field> {
    [Field("expiresAt", Text(k.expiresAt)),
     Field("generation", Json(Number(k.generation))),
     Field("issuedAt", Text(k.issuedAt)),
     Field("keys", Json(List(KeyTexts(k.keys)))),
     Field("organizationId", Text(k.organizationId)),
     Field("schema", Text("dharma.server-signing-keyset/v1")),
     Field("signature", Text(k.signature)),
     Field("signedByKeyVersion", Text(k.signedBy))]
  }

  function KeysetBytes(k: Keyset): nat {
    154 + Costs(k.expiresAt).0 + |Number(k.generation)| + Costs(k.issuedAt).0 + KeysBytes(k.keys)
      + Costs(k.organizationId).0 + Costs(k.signature).0 + Costs(k.signedBy).0
  }

  function KeysetMarks(k: Keyset): nat {
    28 + Costs(k.expiresAt).1 + Costs(k.issuedAt).1 + KeysMarks(k.keys) + Costs(k.organizationId).1
      + Costs(k.signature).1 + Costs(k.signedBy).1
  }

  lemma NumberSized(n: int)
    ensures Bytes(Number(n)) == |Number(n)| && Marks(Number(n)) == 0 && NoControls(Number(n))
  {
    PlainSized(Number(n));
  }

  lemma KeysetSized(k: Keyset)
    ensures Sized(Object(KeysetFields(k)), (KeysetBytes(k), KeysetMarks(k)))
  {
    hide Costs, Object, Plain, NoControls, Bytes, Marks, Number, List, KeysBytes, KeysMarks;
    NamesArePlain();
    SchemaTextsCost();
    NumberSized(k.generation);
    KeysSized(k.keys);
    FieldsAddUp(KeysetFields(k), 0, 8);
    ObjectSized(KeysetFields(k));
  }

  function CertificateFields(c: Certificate): seq<Field> {
    [Field("deviceId", Text(c.identity.deviceId)),
     Field("enrollmentOrigin", Text(c.identity.enrollmentOrigin)),
     Field("expiresAt", Text(c.expiresAt.spelling)),
     Field("installationId", Text(c.identity.installationId)),
     Field("installedKeysetHash", Text(DIGEST)),
     Field("issuedAt", Text(c.issuedAt.spelling)),
     Field("organizationId", Text(c.identity.organizationId)),
     Field("policyRevision", Json(Number(c.policyRevision))),
     Field("publicKeyEd25519", Text(c.identity.publicKey)),
     Field("purpose", Text("same-authority-repository-transport")),
     Field("repositoryId", Text(c.identity.repositoryId)),
     Field("requestNonce", Text(c.requestNonce)),
     Field("schema", Text("dharma.demo-transport-continuity/v1")),
     Field("signature", Text(c.signature)),
     Field("signingKeyVersion", Text(c.installedKeyset.signedBy)),
     Field("transportOrigin", Text(c.transportOrigin)),
     Field("trustGeneration", Json(Number(c.trustGeneration)))]
  }

  function CertificateBytes(c: Certificate): nat {
    451 + Costs(c.identity.deviceId).0 + Costs(c.identity.enrollmentOrigin).0 + Costs(c.expiresAt.spelling).0
      + Costs(c.identity.installationId).0 + Costs(c.issuedAt.spelling).0 + Costs(c.identity.organizationId).0
      + |Number(c.policyRevision)| + Costs(c.identity.publicKey).0 + Costs(c.identity.repositoryId).0
      + Costs(c.requestNonce).0 + Costs(c.signature).0 + Costs(c.installedKeyset.signedBy).0
      + Costs(c.transportOrigin).0 + |Number(c.trustGeneration)|
  }

  function CertificateMarks(c: Certificate): nat {
    64 + Costs(c.identity.deviceId).1 + Costs(c.identity.enrollmentOrigin).1 + Costs(c.expiresAt.spelling).1
      + Costs(c.identity.installationId).1 + Costs(c.issuedAt.spelling).1 + Costs(c.identity.organizationId).1
      + Costs(c.identity.publicKey).1 + Costs(c.identity.repositoryId).1 + Costs(c.requestNonce).1
      + Costs(c.signature).1 + Costs(c.installedKeyset.signedBy).1 + Costs(c.transportOrigin).1
  }

  /** The certificate's members from the ninth on. */
  function LaterSize(c: Certificate): (nat, nat) {
    (231 + Costs(c.identity.publicKey).0 + Costs(c.identity.repositoryId).0 + Costs(c.requestNonce).0
       + Costs(c.signature).0 + Costs(c.installedKeyset.signedBy).0 + Costs(c.transportOrigin).0
       + |Number(c.trustGeneration)|,
     34 + Costs(c.identity.publicKey).1 + Costs(c.identity.repositoryId).1 + Costs(c.requestNonce).1
       + Costs(c.signature).1 + Costs(c.installedKeyset.signedBy).1 + Costs(c.transportOrigin).1)
  }

  lemma LaterMembersAddUp(c: Certificate)
    ensures FieldsSize(CertificateFields(c), 8) == LaterSize(c)
  {
    hide Costs, Number, Bytes, Marks;
    SchemaTextsCost();
    NumberSized(c.trustGeneration);
    FieldsAddUp(CertificateFields(c), 8, 17);
  }

  lemma CertificateAddsUp(c: Certificate)
    ensures FieldsSize(CertificateFields(c), 0) == (CertificateBytes(c) - 1, CertificateMarks(c))
  {
    hide Costs, Number, Bytes, Marks;
    DigestCost();
    NumberSized(c.policyRevision);
    LaterMembersAddUp(c);
    FieldsAddUp(CertificateFields(c), 0, 8);
  }

  lemma CertificateFieldsAreSound(c: Certificate)
    ensures forall i :: 0 <= i < |CertificateFields(c)| ==> FieldSound(CertificateFields(c)[i])
  {
    hide Plain, Number, NoControls;
    NamesArePlain();
    NumberSized(c.policyRevision);
    NumberSized(c.trustGeneration);
  }

  lemma CertificateSized(c: Certificate)
    ensures Sized(Object(CertificateFields(c)), (CertificateBytes(c), CertificateMarks(c)))
  {
    hide Sized, Object, FieldSound, CertificateBytes, CertificateMarks;
    CertificateAddsUp(c);
    CertificateFieldsAreSound(c);
    ObjectSized(CertificateFields(c));
  }

  function StateFields(s: State): seq<Field> {
    [Field("acceptedAt", Text(INSTANT)),
     Field("certificate", Json(Object(CertificateFields(s.certificate)))),
     Field("schema", Text("dharma.demo-transport-state/v1")),
     Field("verifiedKeyset", Json(Object(KeysetFields(s.verifiedKeyset))))]
  }

  function StateJson(s: State): string {
    Object(StateFields(s))
  }

  function StateBytes(s: State): nat {
    116 + CertificateBytes(s.certificate) + KeysetBytes(s.verifiedKeyset)
  }

  function StateMarks(s: State): nat {
    12 + CertificateMarks(s.certificate) + KeysetMarks(s.verifiedKeyset)
  }

  lemma StateSized(s: State)
    ensures Sized(StateJson(s), (StateBytes(s), StateMarks(s)))
  {
    hide Costs, Object, Plain, NoControls, Bytes, Marks, CertificateFields, KeysetFields, CertificateBytes,
      CertificateMarks, KeysetBytes, KeysetMarks;
    NamesArePlain();
    SchemaTextsCost();
    InstantCost();
    CertificateSized(s.certificate);
    KeysetSized(s.verifiedKeyset);
    FieldsAddUp(StateFields(s), 0, 4);
    ObjectSized(StateFields(s));
  }

  function TextOf(raw: Raw): string {
    match raw
    case StateText(s) => StateJson(s)
    case JournalText(j) => Object(JournalFields(TextOf(j.nextState),
                                                if j.previousState.Some? then Text(TextOf(j.previousState.value))
                                                else Json("null")))
    case OtherText(text) => text
  }

  function JournalFields(next: string, previous: Value): seq<Field> {
    [Field("nextState", Text(next)),
     Field("previousState", previous),
     Field("previousStateHash", Text(DIGEST)),
     Field("schema", Text("dharma.demo-transport-journal/v1"))]
  }

  /** `Buffer.byteLength` of a stored text. */
  function Length(raw: Raw): nat {
    Bytes(TextOf(raw))
  }

  /** A state's length inside the journal: its bytes, and once more its quotes and backslashes. */
  function Weight(s: State): nat {
    StateBytes(s) + StateMarks(s)
  }

  // ---------------------------------------------------------------- how long a journal is

  lemma StateLength(s: State)
    ensures Length(StateText(s)) == StateBytes(s) && Costs(StateJson(s)).0 == Weight(s)
  {
    hide StateJson, StateBytes, StateMarks, Costs;
    StateSized(s);
    NestedSized(StateJson(s), (StateBytes(s), StateMarks(s)));
    hide NoControls;
  }

  lemma JournalFieldsLength(next: string, previous: Value)
    requires previous.Json? ==> previous.json == "null"
    ensures Bytes(Object(JournalFields(next, previous))) ==
            Costs(next).0 + (if previous.Text? then 173 + Costs(previous.text).0 else 175)
  {
    hide Costs, Object, Plain, Marks, Bytes, NoControls;
    NamesArePlain();
    JournalSchemaCost();
    DigestCost();
    NullSized();
    FieldsAddUp(JournalFields(next, previous), 0, 4);
    ObjectSized(JournalFields(next, previous));
  }

  lemma NullSized()
    ensures Bytes("null") == 4 && Marks("null") == 0 && NoControls("null")
  {
    PlainSized("null");
  }

  /** A journal of two states is its fixed part and both states, each weighed with its escapes. */
  lemma JournalLength(previous: State, next: State)
    ensures Length(JournalFor(Some(StateText(previous)), StateText(next))) == 173 + Weight(previous) + Weight(next)
  {
    hide JournalFields, StateJson, StateBytes, StateMarks, Bytes, Weight;
    StateLength(previous);
    StateLength(next);
    JournalFieldsLength(StateJson(next), Text(StateJson(previous)));
  }

  lemma FirstJournalLength(next: State)
    ensures Length(JournalFor(None, StateText(next))) == 175 + Weight(next)
  {
    hide JournalFields, StateJson, StateBytes, StateMarks, Bytes, Weight;
    StateLength(next);
    JournalFieldsLength(StateJson(next), Json("null"));
  }

  /** Lengths are the real ones. */
  ghost predicate Measured(checks: Checks) {
    forall raw :: checks.bytes(raw) == Length(raw)
  }

  function EndsWeight(previous: Option<Raw>, next: State): nat
    requires previous.Some? ==> previous.value.StateText?
  {
    if previous.Some? then 173 + Weight(previous.value.state) + Weight(next) else 175 + Weight(next)
  }

  lemma JournalWeighs(previous: Option<Raw>, next: State)
    requires previous.Some? ==> previous.value.StateText?
    ensures Length(JournalFor(previous, StateText(next))) == EndsWeight(previous, next)
  {
    hide Length, Weight, JournalFor;
    if previous.Some? {
      JournalLength(previous.value.state, next);
    } else {
      FirstJournalLength(next);
    }
  }

  /** From any consistent store, with neither clock nor protected keyset behind, a restore goes through if and
      only if the weights of the journal's two states are within the limit. */
  lemma RecoveryProgressByWeight(checks: Checks, store: Store, binding: Binding, now: int)
    requires Measured(checks) && Consistent(checks, store, binding.identity)
    requires var d := Decided(store, binding.identity);
             d.Some? ==> NotAhead(d.value.state.verifiedKeyset, binding.protectedKeyset)
    requires forall k :: k in store ==> NothingLaterThan(store[k], now)
    ensures Restorable(checks, store, binding, now) <==> WeighsWithin(store, binding.identity)
  {
    hide Length, EndsWeight, Restorable, Consistent, NotAhead, NothingLaterThan, JournalFor, Decided;
    RecoveryProgress(checks, store, binding, now);
    if JournalAccount(binding.identity) in store {
      JournalOfConsistent(checks, store, binding.identity);
      var j := store[JournalAccount(binding.identity)].journal;
      JournalWeighs(j.previousState, j.nextState.state);
    }
  }

  /** A consistent store's journal is of two texts that are states within their own limit. */
  lemma JournalOfConsistent(checks: Checks, store: Store, owner: Identity)
    requires Consistent(checks, store, owner) && JournalAccount(owner) in store
    ensures var raw := store[JournalAccount(owner)];
            && raw.JournalText? && raw == JournalFor(raw.journal.previousState, raw.journal.nextState)
            && raw.journal.nextState.StateText? && checks.bytes(raw.journal.nextState) <= STATE_BYTES
            && (raw.journal.previousState.Some? ==>
                  && raw.journal.previousState.value.StateText?
                  && checks.bytes(raw.journal.previousState.value) <= STATE_BYTES)
  {
    hide Succeeds, Answers;
  }

  ghost predicate WeighsWithin(store: Store, owner: Identity) {
    JournalAccount(owner) in store && store[JournalAccount(owner)].JournalText? ==>
      var j := store[JournalAccount(owner)].journal;
      j.nextState.StateText? && (j.previousState.Some? ==> j.previousState.value.StateText?) ==>
        EndsWeight(j.previousState, j.nextState.state) <= JOURNAL_BYTES
  }

  // ---------------------------------------------------------------- ordinary states always fit

  /** Every text of a state that its own fields choose. */
  predicate KeyHolds(k: Key, ok: string -> bool) {
    ok(k.version) && ok(k.publicKey) && ok(k.notBefore) && ok(k.notAfter)
  }

  predicate KeysetHolds(k: Keyset, ok: string -> bool) {
    && ok(k.organizationId) && ok(k.signedBy) && ok(k.issuedAt) && ok(k.expiresAt) && ok(k.signature)
    && forall i :: 0 <= i < |k.keys| ==> KeyHolds(k.keys[i], ok)
  }

  predicate CertificateHolds(c: Certificate, ok: string -> bool) {
    && ok(c.identity.organizationId) && ok(c.identity.repositoryId) && ok(c.identity.deviceId)
    && ok(c.identity.installationId) && ok(c.identity.publicKey) && ok(c.identity.enrollmentOrigin)
    && ok(c.transportOrigin) && ok(c.requestNonce) && ok(c.signature) && ok(c.installedKeyset.signedBy)
    && ok(c.issuedAt.spelling) && ok(c.expiresAt.spelling)
  }

  predicate Holds(s: State, ok: string -> bool) {
    CertificateHolds(s.certificate, ok) && KeysetHolds(s.verifiedKeyset, ok)
  }

  /** No control character, no quote and no backslash. */
  predicate NeedsNoEscape(text: string) {
    forall i :: 0 <= i < |text| ==> !IsControl(text[i]) && !IsMark(text[i])
  }

  lemma {:induction false} NoEscapeNoMarks(text: string)
    requires NeedsNoEscape(text)
    ensures Costs(text).1 == 0
  {
    if text != [] {
      NoEscapeNoMarks(text[1..]);
    }
  }

  lemma UnescapedKeyMarks(k: Key)
    requires KeyHolds(k, NeedsNoEscape)
    ensures KeyMarks(k) == 20
  {
    hide Costs, NeedsNoEscape;
    NoEscapeNoMarks(k.version);
    NoEscapeNoMarks(k.publicKey);
    NoEscapeNoMarks(k.notBefore);
    NoEscapeNoMarks(k.notAfter);
    StatusCost();
  }

  lemma {:induction false} UnescapedKeysMarks(keys: seq<Key>, k: nat)
    requires k <= |keys| && forall i :: 0 <= i < |keys| ==> KeyHolds(keys[i], NeedsNoEscape)
    ensures KeysSize(keys, k).1 == 20 * (|keys| - k)
    decreases |keys| - k
  {
    hide KeyMarks, KeyHolds;
    if k < |keys| {
      UnescapedKeysMarks(keys, k + 1);
      UnescapedKeyMarks(keys[k]);
    }
  }

  lemma UnescapedKeysetMarks(k: Keyset)
    requires KeysetHolds(k, NeedsNoEscape)
    ensures KeysetMarks(k) == 28 + 20 * |k.keys|
  {
    hide Costs, NeedsNoEscape, KeyHolds;
    UnescapedKeysMarks(k.keys, 0);
    NoEscapeNoMarks(k.organizationId);
    NoEscapeNoMarks(k.signedBy);
    NoEscapeNoMarks(k.issuedAt);
    NoEscapeNoMarks(k.expiresAt);
    NoEscapeNoMarks(k.signature);
  }

  lemma UnescapedCertificateMarks(c: Certificate)
    requires CertificateHolds(c, NeedsNoEscape)
    ensures CertificateMarks(c) == 64
  {
    hide Costs, NeedsNoEscape;
    NoEscapeNoMarks(c.identity.organizationId);
    NoEscapeNoMarks(c.identity.repositoryId);
    NoEscapeNoMarks(c.identity.deviceId);
    NoEscapeNoMarks(c.identity.installationId);
    NoEscapeNoMarks(c.identity.publicKey);
    NoEscapeNoMarks(c.identity.enrollmentOrigin);
    NoEscapeNoMarks(c.transportOrigin);
    NoEscapeNoMarks(c.requestNonce);
    NoEscapeNoMarks(c.signature);
    NoEscapeNoMarks(c.installedKeyset.signedBy);
    NoEscapeNoMarks(c.issuedAt.spelling);
    NoEscapeNoMarks(c.expiresAt.spelling);
  }

  /** The lengths the schemas and the origin check allow, and timestamps of at most a hundred characters, which
      the schemas do not bound. */
  predicate KeyWithinLimits(k: Key) {
    |k.version| <= 500 && |k.publicKey| <= 100 && IsShortPlain(k.notBefore, 100) && IsShortPlain(k.notAfter, 100)
  }

  predicate KeysetWithinLimits(k: Keyset) {
    && IsShortPlain(k.organizationId, 200) && |k.signedBy| <= 500 && |k.signature| <= 1000
    && IsShortPlain(k.issuedAt, 100) && IsShortPlain(k.expiresAt, 100) && 0 <= k.generation < TenTo(16)
    && |k.keys| <= 20 && forall i :: 0 <= i < |k.keys| ==> KeyWithinLimits(k.keys[i])
  }

  predicate CertificateWithinLimits(c: Certificate) {
    && IsShortPlain(c.identity.organizationId, 200) && IsShortPlain(c.identity.repositoryId, 36)
    && IsShortPlain(c.identity.deviceId, 36) && IsShortPlain(c.identity.installationId, 36)
    && IsShortPlain(c.identity.publicKey, 43) && IsShortPlain(c.identity.enrollmentOrigin, 2048)
    && IsShortPlain(c.transportOrigin, 2048) && IsShortPlain(c.requestNonce, 32) && IsShortPlain(c.signature, 86)
    && IsShortPlain(c.issuedAt.spelling, 100) && IsShortPlain(c.expiresAt.spelling, 100)
    && 0 <= c.policyRevision < TenTo(16) && 0 <= c.trustGeneration < TenTo(16)
    && |c.installedKeyset.signedBy| <= 500
  }

  predicate WithinLimits(s: State) {
    CertificateWithinLimits(s.certificate) && KeysetWithinLimits(s.verifiedKeyset)
  }

  predicate IsShortPlain(text: string, limit: nat) {
    |text| <= limit && Plain(text)
  }

  lemma ShortPlainCost(text: string, limit: nat)
    requires IsShortPlain(text, limit)
    ensures Costs(text).0 + Costs(text).1 <= limit
  {
    CostsOfPlain(text);
  }

  lemma KeyWeight(k: Key)
    requires KeyWithinLimits(k) && NoControls(k.version) && NoControls(k.publicKey)
    ensures KeyBytes(k) + KeyMarks(k) <= 2707
  {
    hide Costs, NoControls, IsShortPlain;
    CostsWithoutControls(k.version);
    CostsWithoutControls(k.publicKey);
    ShortPlainCost(k.notBefore, 100);
    ShortPlainCost(k.notAfter, 100);
    StatusCost();
  }

  lemma {:induction false} KeysWeight(keys: seq<Key>, k: nat)
    requires k <= |keys| && forall i :: 0 <= i < |keys| ==>
      KeyWithinLimits(keys[i]) && NoControls(keys[i].version) && NoControls(keys[i].publicKey)
    ensures KeysSize(keys, k).0 + KeysSize(keys, k).1 <= 2708 * (|keys| - k)
    decreases |keys| - k
  {
    hide KeyBytes, KeyMarks, KeyWithinLimits, NoControls;
    if k < |keys| {
      KeysWeight(keys, k + 1);
      KeyWeight(keys[k]);
    }
  }

  lemma KeysetWeight(k: Keyset)
    requires KeysetWithinLimits(k) && KeysetHolds(k, NoControls)
    ensures KeysetBytes(k) + KeysetMarks(k) <= 60_958
  {
    hide Costs, NoControls, IsShortPlain, KeyWithinLimits, KeysSize, TenTo, Number;
    KeysWeight(k.keys, 0);
    ShortPlainCost(k.organizationId, 200);
    ShortPlainCost(k.issuedAt, 100);
    ShortPlainCost(k.expiresAt, 100);
    CostsWithoutControls(k.signedBy);
    CostsWithoutControls(k.signature);
    SafeNumber(k.generation);
  }

  lemma SafeNumber(n: int)
    requires 0 <= n < TenTo(16)
    ensures |Number(n)| <= 16
  {
    hide TenTo, Decimal;
    DecimalLength(n, 16, TenTo(16));
  }

  lemma CertificateWeight(c: Certificate)
    requires CertificateWithinLimits(c) && CertificateHolds(c, NoControls)
    ensures CertificateBytes(c) + CertificateMarks(c) <= 7_312
  {
    hide Costs, NoControls, IsShortPlain, TenTo, Number;
    ShortPlainCost(c.identity.organizationId, 200);
    ShortPlainCost(c.identity.repositoryId, 36);
    ShortPlainCost(c.identity.deviceId, 36);
    ShortPlainCost(c.identity.installationId, 36);
    ShortPlainCost(c.identity.publicKey, 43);
    ShortPlainCost(c.identity.enrollmentOrigin, 2048);
    ShortPlainCost(c.transportOrigin, 2048);
    ShortPlainCost(c.requestNonce, 32);
    ShortPlainCost(c.signature, 86);
    ShortPlainCost(c.issuedAt.spelling, 100);
    ShortPlainCost(c.expiresAt.spelling, 100);
    CostsWithoutControls(c.installedKeyset.signedBy);
    SafeNumber(c.policyRevision);
    SafeNumber(c.trustGeneration);
  }

  /** Nothing in the state needs escaping, or nothing in it is a control character and every field keeps to its
      limit. */
  predicate Ordinary(s: State) {
    && |s.verifiedKeyset.keys| <= 20
    && (Holds(s, NeedsNoEscape) || (Holds(s, NoControls) && WithinLimits(s)))
  }

  lemma StateBytesAre(s: State)
    ensures Length(StateText(s)) == StateBytes(s)
  {
    hide StateJson, StateBytes, Costs;
    StateLength(s);
  }

  lemma UnescapedWeighsLittle(s: State)
    requires Holds(s, NeedsNoEscape) && |s.verifiedKeyset.keys| <= 20
    ensures Weight(s) <= StateBytes(s) + 504
  {
    hide CertificateBytes, CertificateMarks, KeysetBytes, KeysetMarks, CertificateHolds, KeysetHolds, StateBytes;
    UnescapedCertificateMarks(s.certificate);
    UnescapedKeysetMarks(s.verifiedKeyset);
  }

  lemma LimitedWeighsLittle(s: State)
    requires Holds(s, NoControls) && WithinLimits(s)
    ensures Weight(s) <= 68_398
  {
    hide CertificateBytes, CertificateMarks, KeysetBytes, KeysetMarks, CertificateHolds, KeysetHolds,
      CertificateWithinLimits, KeysetWithinLimits;
    CertificateWeight(s.certificate);
    KeysetWeight(s.verifiedKeyset);
  }

  lemma OrdinaryWeighsLittle(s: State)
    requires Ordinary(s) && Length(StateText(s)) <= STATE_BYTES
    ensures Weight(s) <= 68_398
  {
    hide Length, Weight, Holds, WithinLimits, StateBytes;
    StateBytesAre(s);
    if Holds(s, NeedsNoEscape) {
      UnescapedWeighsLittle(s);
    } else {
      LimitedWeighsLittle(s);
    }
  }

  ghost predicate OrdinaryText(raw: Raw) {
    raw.StateText? && Ordinary(raw.state) && Length(raw) <= STATE_BYTES
  }

  /** The journal of two ordinary states fits the limit it is read back under. */
  lemma OrdinaryJournalFits(previous: Option<Raw>, next: Raw)
    requires OrdinaryText(next) && (previous.Some? ==> OrdinaryText(previous.value))
    ensures Length(JournalFor(previous, next)) <= JOURNAL_BYTES
  {
    hide Length, Weight, JournalFor, Ordinary;
    JournalWeighs(previous, next.state);
    OrdinaryWeighsLittle(next.state);
    if previous.Some? {
      OrdinaryWeighsLittle(previous.value.state);
    }
  }

  /** Both ends of a pending journal are ordinary. */
  ghost predicate OrdinaryEnds(store: Store, owner: Identity) {
    JournalAccount(owner) in store && store[JournalAccount(owner)].JournalText? ==>
      var j := store[JournalAccount(owner)].journal;
      && j.nextState.StateText? && Ordinary(j.nextState.state)
      && (j.previousState.Some? ==> j.previousState.value.StateText? && Ordinary(j.previousState.value.state))
  }

  /** With ordinary states no consistent store refuses a restore. */
  lemma OrdinaryAlwaysRestores(checks: Checks, store: Store, binding: Binding, now: int)
    requires Measured(checks) && Consistent(checks, store, binding.identity) && OrdinaryEnds(store, binding.identity)
    requires var d := Decided(store, binding.identity);
             d.Some? ==> NotAhead(d.value.state.verifiedKeyset, binding.protectedKeyset)
    requires forall k :: k in store ==> NothingLaterThan(store[k], now)
    ensures Restorable(checks, store, binding, now)
  {
    hide Length, Ordinary, Restorable, Consistent, NotAhead, NothingLaterThan, JournalFor, Decided;
    RecoveryProgress(checks, store, binding, now);
    if JournalAccount(binding.identity) in store {
      JournalOfConsistent(checks, store, binding.identity);
      var j := store[JournalAccount(binding.identity)].journal;
      OrdinaryJournalFits(j.previousState, j.nextState);
    }
  }

  /** And an acceptance of one never writes a journal it could not read back. */
  lemma OrdinaryAcceptanceFits(checks: Checks, decided: Option<Raw>, candidate: Certificate, binding: Binding,
                               expected: Expected, from: int, to: int)
    requires Measured(checks) && CandidateHolds(checks, candidate, binding, expected, decided, from, to)
    requires decided.Some? ==> OrdinaryText(decided.value)
    requires forall t :: from <= t <= to ==> Ordinary(NextState(candidate, binding, t).state)
    ensures JournalFits(checks, decided, candidate, binding, from, to)
  {
    hide Length, Ordinary, Answers, JournalFor;
    forall t | from <= t <= to
      ensures checks.bytes(JournalFor(decided, NextState(candidate, binding, t))) <= JOURNAL_BYTES
    {
      OrdinaryJournalFits(decided, NextState(candidate, binding, t));
    }
  }
}
