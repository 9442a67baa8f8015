/** The checks that the transport journal leaves open, as the program makes them: schemas, identities, key roles and
    lifetimes (packages/cli/src/demoTransportState.ts:55-77, packages/cli/src/demoTransportContinuity.ts:54-84,
    packages/contracts/src/index.ts:535-560 and the three schemas). Only Ed25519 and the URL parser stay open. */
module TransportChecks {
  import opened JsonText
  import opened Outcomes
  import opened TransportJournal
  import opened TransportLimits

  const MINUTE := 60_000
  const DAY := 86_400_000
  const SAFE := 9_007_199_254_740_991

  /** The URL parser, and Ed25519 over the canonical text of a record without its signature. */
  datatype Platform = Platform(isOrigin: string -> bool, keysetSigned: (Keyset, string) -> bool,
                               certificateSigned: (Certificate, string) -> bool)

  // ---------------------------------------------------------------- instants

  predicate IsDigit(c: char) {
    '0' <= c <= '9'
  }

  predicate DigitsAt(t: string, from: nat, to: nat)
    requires to <= |t|
  {
    forall i :: from <= i < to ==> IsDigit(t[i])
  }

  function Two(t: string, i: nat): nat
    requires i + 2 <= |t| && DigitsAt(t, i, i + 2)
  {
    10 * (t[i] as int - '0' as int) + (t[i + 1] as int - '0' as int)
  }

  /** `YYYY-MM-DDThh:mm:ss`, then a fraction of any length or none, then `Z`. */
  predicate HasTimeShape(t: string) {
    && |t| >= 20
    && DigitsAt(t, 0, 4) && t[4] == '-' && DigitsAt(t, 5, 7) && t[7] == '-' && DigitsAt(t, 8, 10) && t[10] == 'T'
    && DigitsAt(t, 11, 13) && t[13] == ':' && DigitsAt(t, 14, 16) && t[16] == ':' && DigitsAt(t, 17, 19)
    && t[|t| - 1] == 'Z'
    && (|t| > 20 ==> |t| >= 22 && t[19] == '.' && DigitsAt(t, 20, |t| - 1))
  }

  predicate IsLeap(year: nat) {
    year % 4 == 0 && (year % 100 != 0 || year % 400 == 0)
  }

  function MonthLength(year: nat, month: nat): nat {
    if month == 2 then (if IsLeap(year) then 29 else 28) else if month in {4, 6, 9, 11} then 30 else 31
  }

  /** Days from the start of year 0 to the start of a year. */
  function DaysBeforeYear(year: nat): nat {
    365 * year + (year + 3) / 4 - (year + 99) / 100 + (year + 399) / 400
  }

  function DaysBeforeMonth(year: nat, month: nat): nat {
    if month <= 1 then 0 else DaysBeforeMonth(year, month - 1) + MonthLength(year, month - 1)
  }

  /** The milliseconds of a fraction; further digits are dropped. */
  function Fraction(t: string): nat
    requires HasTimeShape(t)
  {
    if |t| == 20 then 0
    else
      100 * (t[20] as int - '0' as int)
      + (if |t| >= 23 then 10 * (t[21] as int - '0' as int) else 0)
      + (if |t| >= 24 then t[22] as int - '0' as int else 0)
  }

  /** `Date.parse` of a time in UTC. Other spellings the program knows, such as offsets, count as no time here. */
  function Instant(t: string): Option<int> {
    if !HasTimeShape(t) then None
    else
      var year, month, day := 100 * Two(t, 0) + Two(t, 2), Two(t, 5), Two(t, 8);
      var hour, minute, second := Two(t, 11), Two(t, 14), Two(t, 17);
      if 1 <= month <= 12 && 1 <= day <= MonthLength(year, month) && hour < 24 && minute < 60 && second < 60 then
        Some((DaysBeforeYear(year) - 719_528 + DaysBeforeMonth(year, month) + day - 1) * DAY
             + hour * 60 * MINUTE + minute * MINUTE + second * 1000 + Fraction(t))
      else None
  }

  function At(t: string): int {
    var at := Instant(t);
    if at.Some? then at.value else 0
  }

  // ---------------------------------------------------------------- texts

  predicate IsWordChar(c: char) {
    'a' <= c <= 'z' || 'A' <= c <= 'Z' || IsDigit(c)
  }

  predicate IsOrganization(t: string) {
    && 5 <= |t| <= 200 && t[..4] == "org_"
    && forall i :: 4 <= i < |t| ==> IsWordChar(t[i])
  }

  predicate IsHex(c: char) {
    IsDigit(c) || 'a' <= c <= 'f' || 'A' <= c <= 'F'
  }

  predicate IsUuid(t: string) {
    && |t| == 36
    && (forall i :: 0 <= i < 36 ==> if i in {8, 13, 18, 23} then t[i] == '-' else IsHex(t[i]))
    && '1' <= t[14] <= '8' && t[19] in "89abAB"
  }

  predicate IsBase64Url(t: string, length: nat) {
    |t| == length && forall i :: 0 <= i < |t| ==> IsWordChar(t[i]) || t[i] in "-_"
  }

  // ---------------------------------------------------------------- keysets

  predicate KeySchema(k: Key) {
    1 <= |k.version| <= 500 && 43 <= |k.publicKey| <= 100
  }

  predicate KeysetSchema(k: Keyset) {
    && 1 <= |k.organizationId| <= 200 && 1 <= k.generation && 1 <= |k.keys| <= 20
    && 1 <= |k.signedBy| <= 500 && 1 <= |k.signature| <= 1000
    && forall i :: 0 <= i < |k.keys| ==> KeySchema(k.keys[i])
  }

  function SignerOf(keys: seq<Key>, version: string): Option<Key> {
    if keys == [] then None
    else if keys[0].version == version then Some(keys[0])
    else SignerOf(keys[1..], version)
  }

  predicate OneActive(keys: seq<Key>) {
    exists i :: 0 <= i < |keys| && keys[i].isActive && forall j :: 0 <= j < |keys| && keys[j].isActive ==> j == i
  }

  predicate VersionsDiffer(keys: seq<Key>) {
    forall i, j :: 0 <= i < j < |keys| ==> keys[i].version != keys[j].version
  }

  predicate WindowValid(k: Key) {
    && Instant(k.notBefore).Some? && Instant(k.notAfter).Some?
    && At(k.notBefore) < At(k.notAfter)
  }

  /** `keysetTimeFailure` finds nothing wrong. */
  predicate TimesValid(k: Keyset, now: int) {
    && Instant(k.issuedAt).Some? && Instant(k.expiresAt).Some?
    && At(k.issuedAt) < At(k.expiresAt) <= At(k.issuedAt) + 30 * DAY
    && At(k.issuedAt) <= now + 5 * MINUTE && now < At(k.expiresAt)
    && VersionsDiffer(k.keys)
    && (forall i :: 0 <= i < |k.keys| ==> WindowValid(k.keys[i]))
    && exists i :: 0 <= i < |k.keys| && k.keys[i].isActive && At(k.keys[i].notBefore) <= now < At(k.keys[i].notAfter)
  }

  /** The keyset is signed by its one active key, whose window reaches over the keyset's own. */
  predicate Authority(p: Platform, k: Keyset, organizationId: string, now: int) {
    && KeysetSchema(k)
    && var signer := SignerOf(k.keys, k.signedBy);
       && signer.Some? && signer.value.isActive && OneActive(k.keys)
       && IsBase64Url(signer.value.publicKey, 43)
       && k.organizationId == organizationId
       && TimesValid(k, now)
       && At(signer.value.notBefore) <= now && At(k.expiresAt) <= At(signer.value.notAfter)
       && p.keysetSigned(k, signer.value.publicKey)
  }

  // ---------------------------------------------------------------- heads and certificates

  predicate IdentityValid(p: Platform, id: Identity) {
    && IsOrganization(id.organizationId)
    && IsUuid(id.repositoryId) && IsUuid(id.deviceId) && IsUuid(id.installationId)
    && IsBase64Url(id.publicKey, 43) && p.isOrigin(id.enrollmentOrigin)
  }

  /** `assertHead`. */
  predicate HeadAccepted(p: Platform, b: Binding, now: int) {
    && IdentityValid(p, b.identity) && 1 <= b.minimumPolicyRevision <= SAFE
    && Authority(p, b.protectedKeyset, b.identity.organizationId, now)
  }

  /** What `verifyDemoTransportContinuity` asks of a certificate alone and beside its keyset. */
  predicate CertificateAccepted(p: Platform, c: Certificate, k: Keyset) {
    && IdentityValid(p, c.identity) && |c.identity.enrollmentOrigin| <= 2048
    && p.isOrigin(c.transportOrigin) && |c.transportOrigin| <= 2048
    && IsBase64Url(c.requestNonce, 32) && 1 <= c.policyRevision <= SAFE && 1 <= c.trustGeneration <= SAFE
    && Instant(c.issuedAt.spelling) == Some(c.issuedAt.ms) && Instant(c.expiresAt.spelling) == Some(c.expiresAt.ms)
    && c.expiresAt.ms <= At(k.expiresAt)
    && IsBase64Url(c.signature, 86)
    && var signer := SignerOf(k.keys, k.signedBy);
       signer.Some? && c.expiresAt.ms <= At(signer.value.notAfter) && p.certificateSigned(c, signer.value.publicKey)
  }

  /** The program's own checks, and the real lengths. */
  function ProgramChecks(p: Platform): Checks {
    Checks((b: Binding, t: int) => HeadAccepted(p, b, t),
           (k: Keyset, o: Identity, t: int) => Authority(p, k, o.organizationId, t),
           (c: Certificate, k: Keyset) => CertificateAccepted(p, c, k),
           (raw: Raw) => Length(raw))
  }

  // ---------------------------------------------------------------- what the checks say of lengths

  lemma WordsArePlain(t: string, from: nat)
    requires from <= |t| && Plain(t[..from]) && forall i :: from <= i < |t| ==> IsWordChar(t[i]) || t[i] in "-_"
    ensures Plain(t)
  {
    forall i | 0 <= i < |t| ensures IsPlain(t[i]) {
      if i < from {
        assert t[i] == t[..from][i];
      }
    }
  }

  lemma UuidIsPlain(t: string)
    requires IsUuid(t)
    ensures IsShortPlain(t, 36)
  {
  }

  lemma OrganizationIsPlain(t: string)
    requires IsOrganization(t)
    ensures IsShortPlain(t, 200)
  {
    assert Plain("org_");
    WordsArePlain(t, 4);
  }

  lemma Base64UrlIsPlain(t: string, length: nat)
    requires IsBase64Url(t, length)
    ensures IsShortPlain(t, length)
  {
    WordsArePlain(t, 0);
  }

  lemma TimeIsPlain(t: string)
    requires Instant(t).Some?
    ensures Plain(t)
  {
    forall i | 0 <= i < |t| ensures IsPlain(t[i]) {
      if i == 19 && |t| > 20 {
        assert t[19] == '.';
      }
    }
  }

  /** The schemas leave the length of a timestamp's fraction open. */
  predicate TimesAreShort(s: State) {
    && |s.certificate.issuedAt.spelling| <= 100 && |s.certificate.expiresAt.spelling| <= 100
    && |s.verifiedKeyset.issuedAt| <= 100 && |s.verifiedKeyset.expiresAt| <= 100
    && forall i :: 0 <= i < |s.verifiedKeyset.keys| ==>
         |s.verifiedKeyset.keys[i].notBefore| <= 100 && |s.verifiedKeyset.keys[i].notAfter| <= 100
  }

  ghost predicate OriginsArePlain(p: Platform) {
    forall t :: p.isOrigin(t) ==> Plain(t)
  }

  lemma SafeIsShort()
    ensures SAFE < TenTo(16)
  {
    assert TenTo(4) == 10_000 && TenTo(8) == 100_000_000 && TenTo(12) == 1_000_000_000_000;
  }

  lemma AuthorityKeepsLimits(p: Platform, k: Keyset, organizationId: string, now: int)
    requires Authority(p, k, organizationId, now) && IsOrganization(organizationId) && k.generation <= SAFE
    requires |k.issuedAt| <= 100 && |k.expiresAt| <= 100
    requires forall i :: 0 <= i < |k.keys| ==> |k.keys[i].notBefore| <= 100 && |k.keys[i].notAfter| <= 100
    ensures KeysetWithinLimits(k)
  {
    hide Instant, IsOrganization, TenTo, Plain;
    OrganizationIsPlain(organizationId);
    TimeIsPlain(k.issuedAt);
    TimeIsPlain(k.expiresAt);
    SafeIsShort();
    forall i | 0 <= i < |k.keys| ensures KeyWithinLimits(k.keys[i]) {
      assert KeySchema(k.keys[i]) && WindowValid(k.keys[i]);
      TimeIsPlain(k.keys[i].notBefore);
      TimeIsPlain(k.keys[i].notAfter);
    }
  }

  lemma CertificateKeepsLimits(p: Platform, c: Certificate, k: Keyset)
    requires CertificateAccepted(p, c, k) && Plain(c.identity.enrollmentOrigin) && Plain(c.transportOrigin)
    requires |c.installedKeyset.signedBy| <= 500
    requires |c.issuedAt.spelling| <= 100 && |c.expiresAt.spelling| <= 100
    ensures CertificateWithinLimits(c)
  {
    hide Instant, IsOrganization, IsUuid, IsBase64Url, TenTo, Plain;
    OrganizationIsPlain(c.identity.organizationId);
    UuidIsPlain(c.identity.repositoryId);
    UuidIsPlain(c.identity.deviceId);
    UuidIsPlain(c.identity.installationId);
    Base64UrlIsPlain(c.identity.publicKey, 43);
    Base64UrlIsPlain(c.requestNonce, 32);
    Base64UrlIsPlain(c.signature, 86);
    TimeIsPlain(c.issuedAt.spelling);
    TimeIsPlain(c.expiresAt.spelling);
    SafeIsShort();
  }

  /** What the program vouches for keeps to the limits, but for the length of its timestamps. */
  lemma VouchedKeepsLimits(p: Platform, owner: Identity, raw: Raw)
    requires Vouched(ProgramChecks(p), owner, raw) && OriginsArePlain(p) && TimesAreShort(raw.state)
    ensures WithinLimits(raw.state)
  {
    hide Authority, CertificateAccepted, KeysetWithinLimits, CertificateWithinLimits, Length, IsOrganization;
    var c, k := raw.state.certificate, raw.state.verifiedKeyset;
    assert Authority(p, k, owner.organizationId, raw.state.acceptedAt) && CertificateAccepted(p, c, k);
    AcceptedFacts(p, c, k, owner.organizationId, raw.state.acceptedAt);
    AuthorityKeepsLimits(p, k, owner.organizationId, raw.state.acceptedAt);
    CertificateKeepsLimits(p, c, k);
  }

  lemma AcceptedFacts(p: Platform, c: Certificate, k: Keyset, organizationId: string, now: int)
    requires Authority(p, k, organizationId, now) && CertificateAccepted(p, c, k)
    ensures IsOrganization(c.identity.organizationId) && c.trustGeneration <= SAFE && |k.signedBy| <= 500
    ensures p.isOrigin(c.identity.enrollmentOrigin) && p.isOrigin(c.transportOrigin)
  {
    hide TimesValid, Instant, IsOrganization;
  }
  /** No control character in either end of a pending journal, and no long timestamp. */
  ghost predicate PlainEnds(store: Store, owner: Identity) {
    JournalAccount(owner) in store && store[JournalAccount(owner)].JournalText? ==>
      var j := store[JournalAccount(owner)].journal;
      && j.nextState.StateText? && Holds(j.nextState.state, NoControls) && TimesAreShort(j.nextState.state)
      && (j.previousState.Some? ==>
            && j.previousState.value.StateText? && Holds(j.previousState.value.state, NoControls)
            && TimesAreShort(j.previousState.value.state))
  }

  /** Under the program's own checks nothing else can make a restore refuse a consistent store. */
  lemma ProgramAlwaysRestores(p: Platform, store: Store, binding: Binding, now: int)
    requires OriginsArePlain(p) && PlainEnds(store, binding.identity)
    requires Consistent(ProgramChecks(p), store, binding.identity)
    requires var d := Decided(store, binding.identity);
             d.Some? ==> NotAhead(d.value.state.verifiedKeyset, binding.protectedKeyset)
    requires forall k :: k in store ==> NothingLaterThan(store[k], now)
    ensures Restorable(ProgramChecks(p), store, binding, now)
  {
    hide Length, Holds, TimesAreShort, NotAhead, NothingLaterThan, Vouched, WithinLimits, Decided, Restorable;
    if JournalAccount(binding.identity) in store {
      var j := store[JournalAccount(binding.identity)].journal;
      VouchedIsOrdinary(p, binding.identity, j.nextState);
      if j.previousState.Some? {
        VouchedIsOrdinary(p, binding.identity, j.previousState.value);
      }
    }
    hide PlainEnds, Consistent;
    OrdinaryAlwaysRestores(ProgramChecks(p), store, binding, now);
  }

  lemma VouchedIsOrdinary(p: Platform, owner: Identity, raw: Raw)
    requires Vouched(ProgramChecks(p), owner, raw) && OriginsArePlain(p)
    requires Holds(raw.state, NoControls) && TimesAreShort(raw.state)
    ensures Ordinary(raw.state)
  {
    hide Holds, TimesAreShort, Vouched;
    VouchedKeepsLimits(p, owner, raw);
  }
}
