/** The sealed vocabulary: tenants, subjects, account state, verifications, journeys, sessions. */
module Domain {
  import opened Prelude
  import opened Ordering
  import opened Factors

  datatype Error =
    | InvalidFactor
    | InvalidVerified
    | InvalidArgument
    | TenantMismatch
    | SubjectMismatch
    | NotBound
    | AlreadyBound
    | NotIdentifying
    | SameCredential
    | ProviderMismatch
    | NoPrimary
    | PendingExpired
    | ReauthPending
    | LineageMismatch
    | AccountUnusable
    | EpochStale
    | ReauthRequired
    | FactorRequired
    | ClaimsUnavailable
    | ClaimsSubjectUnknown
    | ClaimsTooLarge
    | Malformed

  // ---- Tenants and subjects -----------------------------------------------------------------

  const MAX_TENANT_LEN := 128

  /** An ASCII letter, digit, '.', '_' or '-'. */
  predicate TenantByte(c: Byte) {
    97 <= c <= 122 || 65 <= c <= 90 || 48 <= c <= 57 || c == 46 || c == 95 || c == 45
  }

  predicate TenantName(s: Bytes) {
    0 < |s| <= MAX_TENANT_LEN && forall c | c in s :: TenantByte(c)
  }

  /** Empty for the single tenant, otherwise a parsed name: the type is opaque in the source. */
  type TenantId = t: Bytes | t == [] || TenantName(t) witness []

  method ParseTenantId(s: Bytes) returns (r: Option<TenantId>)
    ensures r == if TenantName(s) then Some(s) else None
  {
    if s == [] || |s| > MAX_TENANT_LEN {
      return None;
    }
    for i := 0 to |s|
      invariant forall k | 0 <= k < i :: TenantByte(s[k])
    {
      if !TenantByte(s[i]) {
        return None;
      }
    }
    return Some(s);
  }

  /** A UUID, as the number its 16 bytes spell; 0 is the nil UUID. */
  type Uuid = x: int | 0 <= x < TWO_64 * TWO_64

  const NIL_UUID: Uuid := 0

  datatype Subject = Subject(tenant: TenantId, user: Uuid) {
    predicate NoUser() {
      user == NIL_UUID
    }
  }

  const ZERO_SUBJECT := Subject([], NIL_UUID)

  // ---- Policy -------------------------------------------------------------------------------

  /** 1 is cookies, 2 is bearer; every other value is invalid. */
  type Transport = Byte

  predicate ValidTransport(t: Transport) {
    t == 1 || t == 2
  }

  const REMEMBER_DECLINED: Byte := 1
  const REMEMBER_REQUESTED: Byte := 2

  const REMEMBER_USER_CHOICE: Byte := 1
  const REMEMBER_ALWAYS: Byte := 2
  const REMEMBER_NEVER: Byte := 3

  const CLAIMS_REFRESHED: Byte := 1
  const CLAIMS_KEPT_STALE: Byte := 2
  const CLAIMS_UNAVAILABLE: Byte := 3
  const CLAIMS_SUBJECT_UNKNOWN: Byte := 4
  const CLAIMS_TOO_LARGE: Byte := 5

  datatype AccountState = AccountState(
    found: bool, disabled: bool, deleted: bool, mustChange: bool, emailVerified: bool, epoch: U64)
  {
    predicate Usable() {
      found && !disabled && !deleted
    }
  }

  datatype MfaDecision = MfaDecision(loaded: bool, enrolled: seq<Factor>) {
    predicate Required() {
      !loaded || enrolled != []
    }
  }

  method NewMfaDecision(enrolled: seq<Factor>) returns (d: MfaDecision)
    ensures d == MfaDecision(true, Canon(Elems(enrolled)))
    ensures d.Required() <==> enrolled != []
  {
    var fs := SortDistinct(enrolled);
    d := MfaDecision(true, fs);
    CanonEmpty(Elems(enrolled));
    assert enrolled != [] ==> enrolled[0] in Elems(enrolled);
  }

  // ---- Verifications ------------------------------------------------------------------------

  datatype Verified = Verified(
    subject: Subject, factors: seq<Factor>, credentialId: Bytes, identifies: bool, provider: Bytes, at: Time)

  predicate ProvesSecond(fs: seq<Factor>) {
    |fs| == 1 && RoleOf(fs[0]) == Second
  }

  predicate ProvesPrimary(fs: seq<Factor>) {
    || (|fs| == 1 && RoleOf(fs[0]) == Primary && fs[0] != Passkey)
    || (|fs| == 2 && Passkey in fs && UserVerification in fs)
  }

  /**
   * One second factor alone, never identifying, or one primary factor with user verification exactly
   * when it is a passkey; a credential exactly for passkeys, a provider exactly for federation.
   */
  predicate VerifiedShape(fs: seq<Factor>, credentialId: Bytes, identifies: bool, provider: Bytes) {
    && ((ProvesSecond(fs) && !identifies) || ProvesPrimary(fs))
    && ((Passkey in fs || PasskeyStepUp in fs) <==> credentialId != [])
    && ((Federated in fs || External in fs) <==> provider != [])
  }

  function Count(fs: seq<Factor>, r: Role): nat {
    if fs == [] then 0
    else Count(fs[..|fs| - 1], r) + if RoleOf(fs[|fs| - 1]) == r then 1 else 0
  }

  lemma {:induction false} CountsTotal(fs: seq<Factor>)
    requires NoFactor !in fs
    ensures Count(fs, Primary) + Count(fs, Second) + Count(fs, Qualifier) == |fs|
    ensures forall f | f in fs :: Count(fs, RoleOf(f)) > 0
  {
    if fs != [] {
      CountsTotal(fs[..|fs| - 1]);
      assert fs == fs[..|fs| - 1] + [fs[|fs| - 1]];
    }
  }

  lemma {:induction false} CountWitness(fs: seq<Factor>, r: Role)
    requires Distinct(fs) && Count(fs, r) > 0
    ensures exists f | f in fs :: RoleOf(f) == r
    ensures r == Qualifier ==> Count(fs, r) == 1
  {
    var init, last := fs[..|fs| - 1], fs[|fs| - 1];
    assert fs == init + [last];
    if Count(init, r) > 0 {
      CountWitness(init, r);
      var f :| f in init && RoleOf(f) == r;
      assert f in fs && f != last;
    } else {
      assert last in fs;
    }
  }

  lemma ShapeByCounts(fs: seq<Factor>)
    requires Distinct(fs) && NoFactor !in fs
    ensures ProvesSecond(fs) <==>
      Count(fs, Second) == 1 && Count(fs, Primary) == 0 && Count(fs, Qualifier) == 0
    ensures ProvesPrimary(fs) <==>
      Count(fs, Primary) == 1 && Count(fs, Second) == 0 && (Count(fs, Qualifier) == 1) == (Passkey in fs)
  {
    CountsTotal(fs);
    if Count(fs, Qualifier) > 0 {
      CountWitness(fs, Qualifier);
    }
    if Count(fs, Primary) == 1 && Count(fs, Second) == 0 {
      CountWitness(fs, Primary);
    }
    if |fs| == 1 {
      assert fs == [fs[0]];
    } else if |fs| == 2 {
      assert fs[..1] == [fs[0]];
    }
  }

  lemma ShapeIsProper(fs: seq<Factor>)
    requires ProvesSecond(fs) || ProvesPrimary(fs)
    ensures Distinct(fs) && NoFactor !in fs && fs != []
  {
  }

  /** The shape depends on the members only, so sorting keeps it. */
  lemma ShapeOfCanon(fs: seq<Factor>)
    requires ProvesSecond(fs) || ProvesPrimary(fs)
    ensures ProvesSecond(Canon(Elems(fs))) <==> ProvesSecond(fs)
    ensures ProvesPrimary(Canon(Elems(fs))) <==> ProvesPrimary(fs)
  {
    if |fs| == 1 {
      SortedIsCanon(fs);
    } else {
      assert Elems(fs) == {Passkey, UserVerification} == Elems([Passkey, UserVerification]);
      SortedIsCanon([Passkey, UserVerification]);
    }
  }

  /** The counting check of the source decides exactly the documented shape. */
  method CheckVerifiedShape(fs: seq<Factor>, credentialId: Bytes, identifies: bool, provider: Bytes)
    returns (ok: bool)
    ensures ok <==> VerifiedShape(fs, credentialId, identifies, provider)
  {
    if fs == [] {
      return false;
    }
    var primary, second, qualifier := 0, 0, 0;
    for i := 0 to |fs|
      invariant Distinct(fs[..i]) && NoFactor !in fs[..i]
      invariant primary == Count(fs[..i], Primary)
      invariant second == Count(fs[..i], Second)
      invariant qualifier == Count(fs[..i], Qualifier)
    {
      if fs[i] == NoFactor || fs[i] in fs[..i] {
        if ProvesSecond(fs) || ProvesPrimary(fs) {
          ShapeIsProper(fs);
        }
        return false;
      }
      assert fs[..i + 1][..i] == fs[..i];
      match RoleOf(fs[i])
      case Primary => primary := primary + 1;
      case Second => second := second + 1;
      case Qualifier => qualifier := qualifier + 1;
    }
    assert fs[..|fs|] == fs;
    ShapeByCounts(fs);
    var hasPasskey := Passkey in fs;
    if second == 1 && primary == 0 && qualifier == 0 {
      if identifies {
        return false;
      }
    } else if !(primary == 1 && second == 0 && (qualifier == 1) == hasPasskey) {
      return false;
    }
    if (hasPasskey || PasskeyStepUp in fs) != (credentialId != []) {
      return false;
    }
    return (Federated in fs || External in fs) == (provider != []);
  }

  // ---- Journeys and sessions ----------------------------------------------------------------

  const CODEC_VERSION: Byte := 1

  /** Pre-session state of one login or reauthentication journey; version 0 is the zero value. */
  datatype Pending = Pending(
    version: Byte,
    tenant: TenantId,
    subject: Subject,
    epochAtBind: U64,
    verified: seq<Verified>,
    remember: bool,
    returnTo: Bytes,
    transport: Transport,
    provider: Bytes,
    reauthOf: Uuid,
    bindHash: Bytes,
    expiresAt: Time)
  {
    predicate Bound() {
      !subject.NoUser()
    }
  }

  const ZERO_PENDING :=
    Pending(0, [], ZERO_SUBJECT, 0, [], false, [], 0, [], NIL_UUID, [], ZERO_TIME)

  datatype CredentialUse = CredentialUse(factor: Factor, id: Bytes)

  /** Established session state; version 0 is the zero value. */
  datatype SessionAttrs = SessionAttrs(
    version: Byte,
    lineage: Uuid,
    subject: Subject,
    factors: seq<Factor>,
    credentialIds: seq<CredentialUse>,
    primaryAt: Time,
    secondAt: Time,
    epoch: U64,
    mustChange: bool,
    remember: bool,
    returnTo: Bytes,
    transport: Transport,
    provider: Bytes,
    createdAt: Time,
    claimsFetchedAt: Time)
}
