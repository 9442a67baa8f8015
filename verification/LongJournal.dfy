/** Journals that are written and can never be read back, at states that pass every check the program makes
    (packages/cli/src/demoTransportState.ts:86, 170-180; schemas/server-signing-keyset.schema.json).

    A sample is a keyset of twenty keys, signed by its one active key, for any Ed25519 key and its signatures. Its key
    versions are one character repeated, with two digits that tell them apart. */
module LongJournal {
  import opened JsonText
  import opened Outcomes
  import opened TransportJournal
  import opened TransportLimits
  import opened TransportChecks

  // ---------------------------------------------------------------- the samples

  const ISSUED := "2027-01-01T00:00:00.000Z"
  const TEN_MINUTES_ON := "2027-01-01T00:10:00.000Z"
  const MONTH_ON := "2027-01-31T00:00:00.000Z"
  const YEAR_ON := "2028-01-01T00:00:00.000Z"

  /** The instant that `ISSUED` spells. */
  const START := 1_798_761_600_000

  const REPOSITORY := "0b6f0a54-7c1e-4f0a-9d53-2f6f0c1a7e01"
  const DEVICE := "5d2c8e17-30ab-4c6e-8f24-91b7d3e5a602"
  const INSTALLATION := "c49a1f38-e6d7-4b25-a08c-7e3b5d9f1403"

  const ENROLLMENT := "https://o.example"
  const TRANSPORT := "https://t.example"

  /** A server key and the signatures made with it, over records whose signature is still empty. */
  datatype Signer = Signer(publicKey: string, keyset: Keyset -> string, certificate: Certificate -> string)

  ghost predicate SignerWorks(p: Platform, signer: Signer) {
    && IsBase64Url(signer.publicKey, 43)
    && (forall k :: IsBase64Url(signer.keyset(k), 86)
                    && (k.signature == "" ==> p.keysetSigned(k.(signature := signer.keyset(k)), signer.publicKey)))
    && (forall c :: IsBase64Url(signer.certificate(c), 86)
                    && (c.signature == "" ==>
                          p.certificateSigned(c.(signature := signer.certificate(c)), signer.publicKey)))
  }

  /** What the samples ask of the platform and the signer can be met. */
  lemma SignersExist()
    ensures exists p: Platform, signer: Signer ::
              p.isOrigin(ENROLLMENT) && p.isOrigin(TRANSPORT) && SignerWorks(p, signer)
  {
    var signature := Repeat('s', 86);
    var p := Platform((t: string) => true, (k: Keyset, key: string) => k.signature == signature,
                      (c: Certificate, key: string) => c.signature == signature);
    var signer := Signer(Repeat('p', 43), (k: Keyset) => signature, (c: Certificate) => signature);
    assert SignerWorks(p, signer) by {
      hide Repeat;
      assert IsBase64Url(signature, 86) && IsBase64Url(Repeat('p', 43), 43);
    }
    assert p.isOrigin(ENROLLMENT) && p.isOrigin(TRANSPORT);
  }

  datatype Sample = Sample(filler: char, count: nat, issuedAt: string, signer: Signer)

  function Version(s: Sample, i: nat): string
    requires i < 20
  {
    Repeat(s.filler, s.count) + [Digit(i / 10), Digit(i % 10)]
  }

  function KeyAt(s: Sample, i: nat): Key
    requires i < 20
  {
    Key(Version(s, i), s.signer.publicKey, i == 0, ISSUED, YEAR_ON)
  }

  function KeysOf(s: Sample): seq<Key> {
    seq(20, i requires 0 <= i < 20 => KeyAt(s, i))
  }

  function KeysetOf(s: Sample): Keyset {
    var unsigned := Keyset("org_a", 1, KeysOf(s), Version(s, 0), s.issuedAt, MONTH_ON, "");
    unsigned.(signature := s.signer.keyset(unsigned))
  }

  function Owner(): Identity {
    Identity("org_a", REPOSITORY, DEVICE, INSTALLATION, Repeat('k', 43), ENROLLMENT)
  }

  function CertificateOf(s: Sample, revision: int): Certificate {
    var unsigned := Certificate(Owner(), TRANSPORT, Repeat('n', 32), revision, 1, KeysetOf(s), Stamp(START, ISSUED),
                                Stamp(START + 10 * MINUTE, TEN_MINUTES_ON), "");
    unsigned.(signature := s.signer.certificate(unsigned))
  }

  function StateOf(s: Sample, revision: int, acceptedAt: int): State {
    State(CertificateOf(s, revision), KeysetOf(s), acceptedAt)
  }

  function BindingOf(s: Sample): Binding {
    Binding(Owner(), KeysetOf(s), 1)
  }

  function Request(): Expected {
    Expected(TRANSPORT, Repeat('n', 32))
  }

  // ---------------------------------------------------------------- that they pass every check

  /** A time of the year on the full minute within the first hour, with zeros for a fraction. */
  predicate Spells(t: string, year: nat, month: nat, day: nat, minute: nat) {
    && HasTimeShape(t)
    && 100 * Two(t, 0) + Two(t, 2) == year && Two(t, 5) == month && Two(t, 8) == day
    && Two(t, 11) == 0 && Two(t, 14) == minute && Two(t, 17) == 0 && Fraction(t) == 0
  }

  lemma SpelledInstant(t: string, year: nat, month: nat, day: nat, minute: nat)
    requires Spells(t, year, month, day, minute)
    requires 1 <= month <= 12 && 1 <= day <= MonthLength(year, month) && minute < 60
    ensures Instant(t) ==
            Some((DaysBeforeYear(year) - 719_528 + DaysBeforeMonth(year, month) + day - 1) * DAY + minute * MINUTE)
  {
  }

  /** Everything `HasTimeShape` asks of a text of the usual length. */
  predicate IsUsualTime(t: string) {
    && |t| == 24 && t[4] == '-' && t[7] == '-' && t[10] == 'T' && t[13] == ':' && t[16] == ':' && t[19] == '.'
    && t[23] == 'Z'
    && forall i :: 0 <= i < 23 ==> i in {4, 7, 10, 13, 16, 19} || IsDigit(t[i])
  }

  lemma UsualShape(t: string)
    requires IsUsualTime(t)
    ensures HasTimeShape(t)
  {
  }

  lemma IssuedSpells()
    ensures Spells(ISSUED, 2027, 1, 1, 0)
  {
    assert IsUsualTime(ISSUED);
    UsualShape(ISSUED);
    hide HasTimeShape, IsUsualTime;
  }

  lemma TenMinutesOnSpells()
    ensures Spells(TEN_MINUTES_ON, 2027, 1, 1, 10)
  {
    assert IsUsualTime(TEN_MINUTES_ON);
    UsualShape(TEN_MINUTES_ON);
    hide HasTimeShape, IsUsualTime;
  }

  lemma MonthOnSpells()
    ensures Spells(MONTH_ON, 2027, 1, 31, 0)
  {
    assert IsUsualTime(MONTH_ON);
    UsualShape(MONTH_ON);
    hide HasTimeShape, IsUsualTime;
  }

  lemma YearOnSpells()
    ensures Spells(YEAR_ON, 2028, 1, 1, 0)
  {
    assert IsUsualTime(YEAR_ON);
    UsualShape(YEAR_ON);
    hide HasTimeShape, IsUsualTime;
  }

  lemma InstantsAre()
    ensures Instant(ISSUED) == Some(START) && Instant(TEN_MINUTES_ON) == Some(START + 10 * MINUTE)
    ensures Instant(MONTH_ON) == Some(START + 30 * DAY) && Instant(YEAR_ON) == Some(START + 365 * DAY)
  {
    hide Spells, Instant;
    IssuedSpells();
    TenMinutesOnSpells();
    MonthOnSpells();
    YearOnSpells();
    SpelledInstant(ISSUED, 2027, 1, 1, 0);
    SpelledInstant(TEN_MINUTES_ON, 2027, 1, 1, 10);
    SpelledInstant(MONTH_ON, 2027, 1, 31, 0);
    SpelledInstant(YEAR_ON, 2028, 1, 1, 0);
  }

  lemma RepositoryIsUuid()
    ensures IsUuid(REPOSITORY)
  {
  }

  lemma DeviceIsUuid()
    ensures IsUuid(DEVICE)
  {
  }

  lemma InstallationIsUuid()
    ensures IsUuid(INSTALLATION)
  {
  }

  lemma OwnerIsValid(p: Platform)
    requires p.isOrigin(ENROLLMENT)
    ensures IdentityValid(p, Owner())
  {
    hide IsUuid;
    RepositoryIsUuid();
    DeviceIsUuid();
    InstallationIsUuid();
  }

  lemma DigitsDiffer(a: nat, b: nat)
    requires a < b < 10
    ensures Digit(a) != Digit(b)
  {
  }

  lemma VersionsAreDifferent(s: Sample, i: nat, j: nat)
    requires i < j < 20
    ensures Version(s, i) != Version(s, j)
  {
    assert Version(s, i)[s.count] == Digit(i / 10) && Version(s, i)[s.count + 1] == Digit(i % 10);
    assert Version(s, j)[s.count] == Digit(j / 10) && Version(s, j)[s.count + 1] == Digit(j % 10);
    if i / 10 == j / 10 {
      DigitsDiffer(i % 10, j % 10);
    } else {
      DigitsDiffer(i / 10, j / 10);
    }
  }

  /** What makes a sample one that the program accepts. */
  ghost predicate Acceptable(p: Platform, s: Sample) {
    && p.isOrigin(ENROLLMENT) && p.isOrigin(TRANSPORT) && SignerWorks(p, s.signer)
    && 1 <= s.count <= 498 && Instant(s.issuedAt) == Some(START)
  }

  lemma KeysAre(s: Sample)
    requires 1 <= s.count <= 498 && |s.signer.publicKey| == 43
    ensures |KeysOf(s)| == 20 && VersionsDiffer(KeysOf(s)) && OneActive(KeysOf(s))
    ensures SignerOf(KeysOf(s), Version(s, 0)) == Some(KeyAt(s, 0))
    ensures forall i :: 0 <= i < 20 ==>
              KeysOf(s)[i] == KeyAt(s, i) && KeySchema(KeyAt(s, i)) && WindowValid(KeyAt(s, i))
  {
    InstantsAre();
    hide Instant;
    assert KeysOf(s)[0].isActive;
    forall i, j | 0 <= i < j < 20 ensures KeysOf(s)[i].version != KeysOf(s)[j].version {
      VersionsAreDifferent(s, i, j);
    }
  }

  lemma KeysetIsGood(p: Platform, s: Sample, now: int)
    requires Acceptable(p, s) && START <= now < START + 30 * DAY
    ensures Authority(p, KeysetOf(s), "org_a", now)
  {
    hide Instant, KeysOf, Version, VersionsDiffer, OneActive, KeySchema, WindowValid, SignerOf, IsBase64Url;
    InstantsAre();
    Base64UrlLength(s.signer.publicKey, 43);
    KeysAre(s);
    VersionLength(s, 0);
    assert KeysOf(s)[0] == KeyAt(s, 0);
    Base64UrlLength(KeysetOf(s).signature, 86);
  }

  lemma VersionLength(s: Sample, i: nat)
    requires i < 20
    ensures |Version(s, i)| == s.count + 2
  {
  }

  lemma Base64UrlLength(t: string, length: nat)
    requires IsBase64Url(t, length)
    ensures |t| == length
  {
  }

  lemma CertificateIsGood(p: Platform, s: Sample, revision: int)
    requires Acceptable(p, s) && 1 <= revision < 10
    ensures CertificateAccepted(p, CertificateOf(s, revision), KeysetOf(s))
  {
    hide Instant, KeysOf, Version, SignerOf, IdentityValid, OneActive, VersionsDiffer, KeySchema, WindowValid;
    InstantsAre();
    Base64UrlLength(s.signer.publicKey, 43);
    KeysAre(s);
    OwnerIsValid(p);
    assert IsBase64Url(Repeat('n', 32), 32);
  }

  // ---------------------------------------------------------------- how long they are

  /** A version's cost, the same for all of the sample's keys. */
  function VersionCost(s: Sample): (nat, nat) {
    (s.count * Cost(s.filler).0 + 2, s.count * Cost(s.filler).1)
  }

  lemma VersionCosts(s: Sample, i: nat)
    requires i < 20
    ensures Costs(Version(s, i)) == VersionCost(s)
  {
    hide Costs, Cost;
    RepeatCost(s.filler, s.count);
    CostsJoin(Repeat(s.filler, s.count), [Digit(i / 10), Digit(i % 10)]);
    CostsOfPlain([Digit(i / 10), Digit(i % 10)]);
  }

  lemma KeySizeIs(s: Sample, i: nat)
    requires i < 20 && IsBase64Url(s.signer.publicKey, 43)
    ensures KeyBytes(KeyAt(s, i)) == (if i == 0 then 177 else 178) + VersionCost(s).0
    ensures KeyMarks(KeyAt(s, i)) == 20 + VersionCost(s).1
  {
    hide Costs, VersionCost, Version;
    VersionCosts(s, i);
    Base64UrlIsPlain(s.signer.publicKey, 43);
    CostsOfPlain(s.signer.publicKey);
    TimesCost();
    StatusCost();
  }

  lemma {:induction false} KeysSizeIs(s: Sample, k: nat)
    requires k <= 20 && IsBase64Url(s.signer.publicKey, 43)
    ensures KeysSize(KeysOf(s), k).0 == (20 - k) * (179 + VersionCost(s).0) - (if k == 0 then 1 else 0)
    ensures KeysSize(KeysOf(s), k).1 == (20 - k) * (20 + VersionCost(s).1)
    decreases 20 - k
  {
    hide VersionCost, KeyAt, KeyBytes, KeyMarks, IsBase64Url;
    if k < 20 {
      KeysSizeIs(s, k + 1);
      KeySizeIs(s, k);
      assert KeysOf(s)[k] == KeyAt(s, k);
    }
  }

  lemma TimesCost()
    ensures Costs(ISSUED) == Costs(TEN_MINUTES_ON) == Costs(MONTH_ON) == Costs(YEAR_ON) == (24, 0)
  {
    hide Costs, Instant;
    InstantsAre();
    TimeIsPlain(ISSUED);
    TimeIsPlain(TEN_MINUTES_ON);
    TimeIsPlain(MONTH_ON);
    TimeIsPlain(YEAR_ON);
    hide Plain;
    CostsOfPlain(ISSUED);
    CostsOfPlain(TEN_MINUTES_ON);
    CostsOfPlain(MONTH_ON);
    CostsOfPlain(YEAR_ON);
  }

  lemma KeysetSizeIs(s: Sample)
    requires IsBase64Url(s.signer.publicKey, 43) && IsBase64Url(KeysetOf(s).signature, 86)
    requires Costs(s.issuedAt) == (|s.issuedAt|, 0)
    ensures KeysetBytes(KeysetOf(s)) == 3850 + 21 * VersionCost(s).0 + |s.issuedAt|
    ensures KeysetMarks(KeysetOf(s)) == 428 + 21 * VersionCost(s).1
  {
    hide Costs, VersionCost, Version, KeysOf, KeysSize, Number;
    KeysSizeIs(s, 0);
    VersionCosts(s, 0);
    Base64UrlIsPlain(KeysetOf(s).signature, 86);
    CostsOfPlain(KeysetOf(s).signature);
    OrganizationCost();
    TimesCost();
    SmallNumber(1);
    assert |KeysOf(s)| == 20 by { KeysCount(s); }
  }

  lemma KeysCount(s: Sample)
    ensures |KeysOf(s)| == 20
  {
  }

  lemma OrganizationCost()
    ensures Costs("org_a") == (5, 0) && Plain("org_a")
  {
    hide Costs;
    CostsOfPlain("org_a");
  }

  lemma OriginCost()
    ensures Costs(ENROLLMENT) == Costs(TRANSPORT) == (17, 0) && Plain(ENROLLMENT) && Plain(TRANSPORT)
  {
    hide Costs;
    CostsOfPlain(ENROLLMENT);
    CostsOfPlain(TRANSPORT);
  }

  lemma UuidCost(t: string)
    requires IsUuid(t)
    ensures Costs(t) == (36, 0)
  {
    UuidIsPlain(t);
    CostsOfPlain(t);
  }

  lemma PlainRepeatCost(c: char, n: nat)
    requires IsPlain(c)
    ensures Costs(Repeat(c, n)) == (n, 0)
  {
    CostsOfPlain(Repeat(c, n));
  }

  lemma SmallNumber(n: int)
    requires 0 <= n < 10
    ensures |Number(n)| == 1
  {
  }

  lemma CertificateSizeIs(s: Sample, revision: int)
    requires 0 <= revision < 10 && IsBase64Url(CertificateOf(s, revision).signature, 86)
    ensures CertificateBytes(CertificateOf(s, revision)) == 809 + VersionCost(s).0
    ensures CertificateMarks(CertificateOf(s, revision)) == 64 + VersionCost(s).1
  {
    hide Costs, VersionCost, Version, KeysOf, Number, Repeat, IsUuid;
    VersionCosts(s, 0);
    Base64UrlIsPlain(CertificateOf(s, revision).signature, 86);
    CostsOfPlain(CertificateOf(s, revision).signature);
    RepositoryIsUuid();
    DeviceIsUuid();
    InstallationIsUuid();
    UuidCost(REPOSITORY);
    UuidCost(DEVICE);
    UuidCost(INSTALLATION);
    PlainRepeatCost('k', 43);
    PlainRepeatCost('n', 32);
    OrganizationCost();
    OriginCost();
    TimesCost();
    SmallNumber(revision);
    SmallNumber(1);
  }

  /** The length of a sample's state, and what its quotes and backslashes add in the journal. */
  lemma StateSizeIs(p: Platform, s: Sample, revision: int, acceptedAt: int)
    requires SignerWorks(p, s.signer) && 0 <= revision < 10 && Costs(s.issuedAt) == (|s.issuedAt|, 0)
    ensures Length(StateText(StateOf(s, revision, acceptedAt))) == 4775 + 22 * VersionCost(s).0 + |s.issuedAt|
    ensures Weight(StateOf(s, revision, acceptedAt)) ==
            5279 + 22 * (VersionCost(s).0 + VersionCost(s).1) + |s.issuedAt|
  {
    hide VersionCost, Costs, KeysetBytes, KeysetMarks, CertificateBytes, CertificateMarks, IsBase64Url, Length;
    assert IsBase64Url(KeysetOf(s).signature, 86) && IsBase64Url(CertificateOf(s, revision).signature, 86);
    KeysetSizeIs(s);
    CertificateSizeIs(s, revision);
    StateBytesAre(StateOf(s, revision, acceptedAt));
  }

  // ---------------------------------------------------------------- that they are written, and stay

  /** A sample whose two states each fit, and whose journal does not. */
  ghost predicate TooLong(s: Sample) {
    && Costs(s.issuedAt) == (|s.issuedAt|, 0)
    && 4775 + 22 * VersionCost(s).0 + |s.issuedAt| <= STATE_BYTES
    && 5279 + 22 * (VersionCost(s).0 + VersionCost(s).1) + |s.issuedAt| > 70_000
  }

  /** While the clock runs from `from` to `to`: a device whose one record is `previous` must accept the candidate,
      writes a journal that is too long, and with it can neither resolve nor accept again. */
  ghost predicate WrittenForGood(checks: Checks, previous: State, candidate: Certificate, binding: Binding,
                                 expected: Expected, from: int, to: int)
  {
    && Measured(checks)
    && Vouched(checks, binding.identity, StateText(previous))
    && Due(checks, map[MainAccount(binding.identity) := StateText(previous)], candidate, binding, expected, from, to)
    && previous.certificate != candidate
    && JournalNeverFits(checks, Some(StateText(previous)), candidate, binding, from, to)
  }

  lemma SampleAnswers(p: Platform, s: Sample, revision: int, decided: Option<Raw>, minimum: int, now: int)
    requires Acceptable(p, s) && 1 <= revision < 10 && minimum == 1 && START <= now < START + 10 * MINUTE
    requires decided.Some? ==> decided.value.StateText? &&
                               Supersedes(decided.value.state.certificate, CertificateOf(s, revision))
    ensures Answers(ProgramChecks(p), CertificateOf(s, revision), Binding(Owner(), KeysetOf(s), minimum), Request(),
                    decided, now)
  {
    hide Authority, CertificateAccepted, HeadAccepted, KeysOf, Version, Repeat, Supersedes, Acceptable, Length;
    KeysetIsGood(p, s, now);
    CertificateIsGood(p, s, revision);
  }

  lemma SampleIsVouched(p: Platform, s: Sample, revision: int)
    requires Acceptable(p, s) && TooLong(s) && 1 <= revision < 10
    ensures Vouched(ProgramChecks(p), Owner(), StateText(StateOf(s, revision, START)))
  {
    hide Answers, Vouched, Acceptable, TooLong, Length, KeysetOf, Owner, Repeat;
    SampleAnswers(p, s, revision, None, 1, START);
    SampleFits(p, s, revision, START);
    VouchedWhen(ProgramChecks(p), Owner(), StateOf(s, revision, START));
  }

  lemma VouchedWhen(checks: Checks, owner: Identity, s: State)
    requires checks.bytes(StateText(s)) <= STATE_BYTES
    requires Answers(checks, s.certificate, Binding(owner, s.verifiedKeyset, 1),
                     Expected(s.certificate.transportOrigin, s.certificate.requestNonce), None, s.acceptedAt)
    ensures Vouched(checks, owner, StateText(s))
  {
    hide Answers;
  }

  lemma SampleFits(p: Platform, s: Sample, revision: int, acceptedAt: int)
    requires Acceptable(p, s) && TooLong(s) && 1 <= revision < 10
    ensures Length(StateText(StateOf(s, revision, acceptedAt))) <= STATE_BYTES
    ensures Weight(StateOf(s, revision, acceptedAt)) > 70_000
  {
    hide Length, Weight, VersionCost, StateOf, SignerWorks, Costs, Instant;
    StateSizeIs(p, s, revision, acceptedAt);
  }

  /** What `Due` asks, of a store that holds one state and no journal. */
  lemma DueWhen(checks: Checks, previous: State, candidate: Certificate, binding: Binding, expected: Expected,
                from: int, to: int)
    requires HeadHolds(checks, binding, from, to) && Stands(checks, StateText(previous), binding, from)
    requires CandidateHolds(checks, candidate, binding, expected, Some(StateText(previous)), from, to)
    ensures Due(checks, map[MainAccount(binding.identity) := StateText(previous)], candidate, binding, expected, from,
                to)
  {
    hide Answers, Stands, HeadHolds;
  }

  lemma SampleHeadHolds(p: Platform, s: Sample, from: int, to: int)
    requires Acceptable(p, s) && START <= from <= to < START + 10 * MINUTE
    ensures HeadHolds(ProgramChecks(p), BindingOf(s), from, to)
  {
    hide Authority, IdentityValid, KeysetOf, SignerWorks, Instant;
    OwnerIsValid(p);
    forall now | from <= now <= to ensures HeadAccepted(p, BindingOf(s), now) {
      KeysetIsGood(p, s, now);
    }
  }

  lemma SampleCandidateHolds(p: Platform, s: Sample, from: int, to: int)
    requires Acceptable(p, s) && TooLong(s) && START <= from <= to < START + 10 * MINUTE
    ensures CandidateHolds(ProgramChecks(p), CertificateOf(s, 2), BindingOf(s), Request(),
                           Some(StateText(StateOf(s, 1, START))), from, to)
  {
    hide Answers, Acceptable, TooLong, Length, KeysetOf, CertificateOf, Owner, Request;
    forall now | from <= now <= to
      ensures Answers(ProgramChecks(p), CertificateOf(s, 2), BindingOf(s), Request(),
                      Some(StateText(StateOf(s, 1, START))), now)
      ensures ProgramChecks(p).bytes(NextState(CertificateOf(s, 2), BindingOf(s), now)) <= STATE_BYTES
    {
      SampleFollows(s);
      SampleAnswers(p, s, 2, Some(StateText(StateOf(s, 1, START))), 1, now);
      SampleFits(p, s, 2, now);
      assert NextState(CertificateOf(s, 2), BindingOf(s), now) == StateText(StateOf(s, 2, now));
    }
  }

  lemma SampleFollows(s: Sample)
    ensures Supersedes(CertificateOf(s, 1), CertificateOf(s, 2))
  {
    hide KeysetOf, Owner, Repeat;
  }

  lemma SampleNeverFits(p: Platform, s: Sample, from: int, to: int)
    requires Acceptable(p, s) && TooLong(s)
    ensures JournalNeverFits(ProgramChecks(p), Some(StateText(StateOf(s, 1, START))), CertificateOf(s, 2),
                             BindingOf(s), from, to)
  {
    hide Acceptable, TooLong, Length, Weight, KeysetOf, CertificateOf, JournalFor;
    SampleFits(p, s, 1, START);
    forall now | from <= now <= to
      ensures ProgramChecks(p).bytes(JournalFor(Some(StateText(StateOf(s, 1, START))),
                                                NextState(CertificateOf(s, 2), BindingOf(s), now))) > JOURNAL_BYTES
    {
      assert NextState(CertificateOf(s, 2), BindingOf(s), now) == StateText(StateOf(s, 2, now));
      SampleFits(p, s, 2, now);
      JournalLength(StateOf(s, 1, START), StateOf(s, 2, now));
    }
  }

  lemma ProgramMeasures(p: Platform)
    ensures Measured(ProgramChecks(p))
  {
    hide Length;
  }

  lemma SampleIsWritten(p: Platform, s: Sample, from: int, to: int)
    requires Acceptable(p, s) && TooLong(s) && START <= from <= to < START + 10 * MINUTE
    ensures WrittenForGood(ProgramChecks(p), StateOf(s, 1, START), CertificateOf(s, 2), BindingOf(s), Request(), from,
                           to)
  {
    hide Vouched, Due, JournalNeverFits, CandidateHolds, HeadHolds, Acceptable, TooLong, KeysetOf, Owner, Repeat,
      ProgramChecks, Measured;
    ProgramMeasures(p);
    SampleIsVouched(p, s, 1);
    SampleHeadHolds(p, s, from, to);
    SampleCandidateHolds(p, s, from, to);
    SampleNeverFits(p, s, from, to);
    DueWhen(ProgramChecks(p), StateOf(s, 1, START), CertificateOf(s, 2), BindingOf(s), Request(), from, to);
  }

  // ---------------------------------------------------------------- key versions of control characters

  function ControlSample(signer: Signer): Sample {
    Sample('\U{1}', 448, ISSUED, signer)
  }

  lemma ControlSampleIsReady(p: Platform, signer: Signer)
    requires p.isOrigin(ENROLLMENT) && p.isOrigin(TRANSPORT) && SignerWorks(p, signer)
    ensures Acceptable(p, ControlSample(signer)) && TooLong(ControlSample(signer))
  {
    hide Instant, SignerWorks, Costs;
    InstantsAre();
    TimesCost();
  }

  /** The key versions and everything else of the sample's states keep to their limits; only control characters are
      out of the ordinary. */
  lemma OddStateIsWithinLimits(p: Platform, signer: Signer, revision: int, acceptedAt: int)
    requires p.isOrigin(ENROLLMENT) && p.isOrigin(TRANSPORT) && SignerWorks(p, signer) && 1 <= revision < 10
    ensures var s := ControlSample(signer);
            && |KeysetOf(s).keys| == 20 && VersionsDiffer(KeysetOf(s).keys)
            && WithinLimits(StateOf(s, revision, acceptedAt))
            && Authority(p, KeysetOf(s), "org_a", START) && IdentityValid(p, Owner())
            && CertificateAccepted(p, CertificateOf(s, revision), KeysetOf(s))
  {
    hide Instant, SignerWorks, Authority, IdentityValid, CertificateAccepted, KeysOf, Version, Plain, Costs, TooLong;
    var s := ControlSample(signer);
    ControlSampleIsReady(p, signer);
    OwnerIsValid(p);
    KeysetIsGood(p, s, START);
    CertificateIsGood(p, s, revision);
    OrganizationCost();
    OriginCost();
    TimesAreUsual();
    KeysCount(s);
    VersionLength(s, 0);
    assert IsOrganization("org_a");
    assert VersionsDiffer(KeysetOf(s).keys) by { AuthorityTells(p, KeysetOf(s), "org_a", START); }
    assert forall i :: 0 <= i < 20 ==> KeysOf(s)[i] == KeyAt(s, i) by { KeysAreInOrder(s); }
    AuthorityKeepsLimits(p, KeysetOf(s), "org_a", START);
    CertificateKeepsLimits(p, CertificateOf(s, revision), KeysetOf(s));
  }

  lemma AuthorityTells(p: Platform, k: Keyset, organizationId: string, now: int)
    requires Authority(p, k, organizationId, now)
    ensures VersionsDiffer(k.keys)
  {
    hide VersionsDiffer, Instant;
  }

  lemma KeysAreInOrder(s: Sample)
    ensures forall i :: 0 <= i < 20 ==> KeysOf(s)[i] == KeyAt(s, i)
  {
  }

  lemma TimesAreUsual()
    ensures |ISSUED| == |TEN_MINUTES_ON| == |MONTH_ON| == |YEAR_ON| == 24
  {
  }

  /** For any server key: twenty key versions of control characters, each state within its schema and its own limit,
      and a journal that is written and can never be read back. */
  lemma LongJournalIsWritten(p: Platform, signer: Signer, from: int, to: int)
    requires p.isOrigin(ENROLLMENT) && p.isOrigin(TRANSPORT) && SignerWorks(p, signer)
    requires START <= from <= to < START + 10 * MINUTE
    ensures var s := ControlSample(signer);
            && WrittenForGood(ProgramChecks(p), StateOf(s, 1, START), CertificateOf(s, 2), BindingOf(s), Request(),
                              from, to)
            && forall now :: WithinLimits(StateOf(s, 1, now)) && WithinLimits(StateOf(s, 2, now))
  {
    hide SignerWorks, Acceptable, TooLong, WrittenForGood, WithinLimits, KeysetOf, CertificateOf;
    forall now ensures WithinLimits(StateOf(ControlSample(signer), 1, now))
               ensures WithinLimits(StateOf(ControlSample(signer), 2, now))
    {
      OddStateIsWithinLimits(p, signer, 1, now);
      OddStateIsWithinLimits(p, signer, 2, now);
    }
    ControlSampleIsReady(p, signer);
    SampleIsWritten(p, ControlSample(signer), from, to);
  }

  // ---------------------------------------------------------------- without control characters

  /** The first instant of 2027 with a long fraction, which the date-time format admits. */
  function LongStamp(): string {
    "2027-01-01T00:00:00." + Repeat('0', 30_000) + "Z"
  }

  function QuoteSample(signer: Signer): Sample {
    Sample('"', 498, LongStamp(), signer)
  }

  lemma LongStampIs()
    ensures Instant(LongStamp()) == Some(START) && |LongStamp()| == 30_021
  {
    var t, usual := LongStamp(), ISSUED;
    assert forall i :: 0 <= i < 20 ==> t[i] == usual[i];
    assert forall i :: 20 <= i < 30_020 ==> t[i] == '0';
    IssuedSpells();
  }

  lemma QuoteSampleIsReady(p: Platform, signer: Signer)
    requires p.isOrigin(ENROLLMENT) && p.isOrigin(TRANSPORT) && SignerWorks(p, signer)
    ensures Acceptable(p, QuoteSample(signer)) && TooLong(QuoteSample(signer))
  {
    hide Instant, SignerWorks, Costs, LongStamp;
    LongStampIs();
    TimeIsPlain(LongStamp());
    CostsOfPlain(LongStamp());
  }

  lemma PlainHasNoControls(text: string)
    requires Plain(text)
    ensures NoControls(text)
  {
  }

  lemma SampleTextsHaveNoControls(p: Platform, s: Sample)
    requires Acceptable(p, s)
    ensures NoControls("org_a") && NoControls(ENROLLMENT) && NoControls(TRANSPORT)
    ensures NoControls(ISSUED) && NoControls(TEN_MINUTES_ON) && NoControls(MONTH_ON) && NoControls(YEAR_ON)
    ensures NoControls(s.issuedAt) && NoControls(s.signer.publicKey)
    ensures NoControls(KeysetOf(s).signature)
  {
    hide NoControls, Plain, Costs, KeysOf, Version, Instant;
    InstantsAre();
    OrganizationCost();
    OriginCost();
    PlainHasNoControls("org_a");
    PlainHasNoControls(ENROLLMENT);
    PlainHasNoControls(TRANSPORT);
    TimeHasNoControls(ISSUED);
    TimeHasNoControls(TEN_MINUTES_ON);
    TimeHasNoControls(MONTH_ON);
    TimeHasNoControls(YEAR_ON);
    TimeHasNoControls(s.issuedAt);
    Base64UrlIsPlain(s.signer.publicKey, 43);
    Base64UrlIsPlain(KeysetOf(s).signature, 86);
    PlainHasNoControls(s.signer.publicKey);
    PlainHasNoControls(KeysetOf(s).signature);
  }

  lemma TimeHasNoControls(t: string)
    requires Instant(t).Some?
    ensures NoControls(t)
  {
    TimeIsPlain(t);
  }

  lemma VersionHasNoControls(s: Sample, i: nat)
    requires !IsControl(s.filler) && i < 20
    ensures NoControls(Version(s, i))
  {
  }

  lemma KeysetHasNoControls(p: Platform, s: Sample)
    requires Acceptable(p, s) && !IsControl(s.filler)
    ensures KeysetHolds(KeysetOf(s), NoControls)
  {
    hide NoControls, Version, Instant, SignerWorks;
    SampleTextsHaveNoControls(p, s);
    VersionHasNoControls(s, 0);
    forall i | 0 <= i < 20 ensures KeyHolds(KeysOf(s)[i], NoControls) {
      VersionHasNoControls(s, i);
    }
  }

  lemma CertificateHasNoControls(p: Platform, s: Sample, revision: int)
    requires Acceptable(p, s) && !IsControl(s.filler) && 1 <= revision < 10
    ensures CertificateHolds(CertificateOf(s, revision), NoControls)
  {
    hide NoControls, Version, Instant, Plain, IsUuid, KeysOf, IsOrganization;
    SampleTextsHaveNoControls(p, s);
    VersionHasNoControls(s, 0);
    OwnerIsValid(p);
    UuidIsPlain(REPOSITORY);
    UuidIsPlain(DEVICE);
    UuidIsPlain(INSTALLATION);
    PlainHasNoControls(REPOSITORY);
    PlainHasNoControls(DEVICE);
    PlainHasNoControls(INSTALLATION);
    Base64UrlIsPlain(Repeat('k', 43), 43);
    Base64UrlIsPlain(Repeat('n', 32), 32);
    Base64UrlIsPlain(CertificateOf(s, revision).signature, 86);
    PlainHasNoControls(Repeat('k', 43));
    PlainHasNoControls(Repeat('n', 32));
    PlainHasNoControls(CertificateOf(s, revision).signature);
  }

  /** Control characters are not the only way: for any server key, quotes in the key versions and a long timestamp do
      it in states without any. */
  lemma LongTimestampsOverflow(p: Platform, signer: Signer, from: int, to: int)
    requires p.isOrigin(ENROLLMENT) && p.isOrigin(TRANSPORT) && SignerWorks(p, signer)
    requires START <= from <= to < START + 10 * MINUTE
    ensures var s := QuoteSample(signer);
            && WrittenForGood(ProgramChecks(p), StateOf(s, 1, START), CertificateOf(s, 2), BindingOf(s), Request(),
                              from, to)
            && forall now :: Holds(StateOf(s, 1, now), NoControls) && Holds(StateOf(s, 2, now), NoControls)
  {
    hide SignerWorks, Acceptable, TooLong, WrittenForGood, LongStamp, KeysetHolds, CertificateHolds;
    var s := QuoteSample(signer);
    QuoteSampleIsReady(p, signer);
    SampleIsWritten(p, s, from, to);
    KeysetHasNoControls(p, s);
    CertificateHasNoControls(p, s, 1);
    CertificateHasNoControls(p, s, 2);
  }
}
