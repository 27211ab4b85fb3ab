/** The steps of a journey: starting, binding and accumulating verifications. */
module Pendings {
  import opened Prelude
  import opened Factors
  import opened Domain

  const PENDING_TTL: int := 15 * MINUTE
  const BIND_HASH_LEN := 32

  datatype VerifiedSpec = VerifiedSpec(
    subject: Subject, factors: seq<Factor>, credentialId: Bytes, identifies: bool, provider: Bytes, at: Time)

  function NewVerified(s: VerifiedSpec): Result<Verified, Error> {
    if s.subject.NoUser() || IsZero(s.at) then Err(InvalidVerified)
    else if !VerifiedShape(s.factors, s.credentialId, s.identifies, s.provider) then Err(InvalidVerified)
    else Ok(Verified(s.subject, Canon(Elems(s.factors)), s.credentialId, s.identifies, s.provider, s.at))
  }

  // ---- What the verifications of a journey amount to ----------------------------------------

  function AllFactors(vs: seq<Verified>): set<Factor> {
    if vs == [] then {} else AllFactors(vs[..|vs| - 1]) + Elems(vs[|vs| - 1].factors)
  }

  lemma {:induction false} AllFactorsMembers(vs: seq<Verified>, f: Factor)
    ensures f in AllFactors(vs) <==> exists v | v in vs :: f in v.factors
  {
    if vs != [] {
      var init, last := vs[..|vs| - 1], vs[|vs| - 1];
      AllFactorsMembers(init, f);
      assert vs == init + [last];
    }
  }

  /** The union of the verified factors, ordered by code. */
  function FactorSet(vs: seq<Verified>): seq<Factor> {
    Canon(AllFactors(vs))
  }

  method ComputeFactorSet(vs: seq<Verified>) returns (out: seq<Factor>)
    ensures out == FactorSet(vs)
  {
    out := [];
    CanonEmpty({});
    for i := 0 to |vs|
      invariant out == FactorSet(vs[..i])
    {
      assert vs[..i + 1][..i] == vs[..i];
      out := UnionFactors(out, vs[i].factors);
    }
    assert vs[..|vs|] == vs;
  }

  predicate IsPasskeyUse(f: Factor) {
    f == Passkey || f == PasskeyStepUp
  }

  function UsesOf(fs: seq<Factor>, id: Bytes): seq<CredentialUse> {
    if fs == [] then []
    else
      var last := fs[|fs| - 1];
      UsesOf(fs[..|fs| - 1], id) + if IsPasskeyUse(last) then [CredentialUse(last, id)] else []
  }

  function CredentialUses(vs: seq<Verified>): seq<CredentialUse> {
    if vs == [] then []
    else
      var last := vs[|vs| - 1];
      CredentialUses(vs[..|vs| - 1]) + if last.credentialId == [] then [] else UsesOf(last.factors, last.credentialId)
  }

  method ComputeCredentialUses(vs: seq<Verified>) returns (out: seq<CredentialUse>)
    ensures out == CredentialUses(vs)
  {
    out := [];
    for i := 0 to |vs|
      invariant out == CredentialUses(vs[..i])
    {
      var v := vs[i];
      assert vs[..i + 1][..i] == vs[..i];
      if v.credentialId == [] {
        continue;
      }
      ghost var before := out;
      for k := 0 to |v.factors|
        invariant out == before + UsesOf(v.factors[..k], v.credentialId)
      {
        assert v.factors[..k + 1][..k] == v.factors[..k];
        if IsPasskeyUse(v.factors[k]) {
          out := out + [CredentialUse(v.factors[k], v.credentialId)];
        }
      }
      assert v.factors[..|v.factors|] == v.factors;
    }
    assert vs[..|vs|] == vs;
  }

  /** What a verification refreshes: the primary instant, or the second-factor instant. */
  datatype Aspect = PrimaryAspect | SecondAspect

  predicate Supplies(v: Verified, k: Aspect) {
    match k
    case PrimaryAspect => HasRole(v.factors, Primary)
    case SecondAspect => HasRole(v.factors, Second) || MultiFactor(v.factors)
  }

  function Latest(vs: seq<Verified>, k: Aspect): Time {
    if vs == [] then ZERO_TIME
    else
      var t, last := Latest(vs[..|vs| - 1], k), vs[|vs| - 1];
      if Supplies(last, k) && last.at > t then last.at else t
  }

  method ComputeLatest(vs: seq<Verified>, k: Aspect) returns (t: Time)
    ensures t == Latest(vs, k)
  {
    t := ZERO_TIME;
    for i := 0 to |vs|
      invariant t == Latest(vs[..i], k)
    {
      assert vs[..i + 1][..i] == vs[..i];
      if Supplies(vs[i], k) && vs[i].at > t {
        t := vs[i].at;
      }
    }
    assert vs[..|vs|] == vs;
  }

  /** The latest instant is the maximum of the matching ones and the zero instant. */
  lemma {:induction false} LatestIsMaximum(vs: seq<Verified>, k: Aspect)
    ensures Latest(vs, k) == ZERO_TIME || exists v | v in vs :: Supplies(v, k) && v.at == Latest(vs, k)
    ensures ZERO_TIME <= Latest(vs, k)
    ensures forall v | v in vs && Supplies(v, k) :: v.at <= Latest(vs, k)
  {
    if vs != [] {
      var init, last := vs[..|vs| - 1], vs[|vs| - 1];
      LatestIsMaximum(init, k);
      assert vs == init + [last];
      if Supplies(last, k) && last.at > Latest(init, k) {
        assert last in vs;
      } else if Latest(init, k) != ZERO_TIME {
        var v :| v in init && Supplies(v, k) && v.at == Latest(init, k);
        assert v in vs;
      }
    }
  }

  // ---- Steps --------------------------------------------------------------------------------

  function NewPending(t: TenantId, remember: Byte, returnTo: Bytes, tr: Transport, policy: Byte, now: Time)
    : Result<Pending, Error>
  {
    if remember != REMEMBER_DECLINED && remember != REMEMBER_REQUESTED then Err(InvalidArgument)
    else if !ValidTransport(tr) then Err(InvalidArgument)
    else if !(REMEMBER_USER_CHOICE <= policy <= REMEMBER_NEVER) then Err(InvalidArgument)
    else if IsZero(now) then Err(InvalidArgument)
    else
      var rem := policy == REMEMBER_ALWAYS || (policy == REMEMBER_USER_CHOICE && remember == REMEMBER_REQUESTED);
      Ok(Pending(CODEC_VERSION, t, ZERO_SUBJECT, 0, [], rem, returnTo, tr, [], NIL_UUID, [], now + PENDING_TTL))
  }

  function PendingForReauth(a: SessionAttrs, now: Time): Pending {
    if a.version == 0 then ZERO_PENDING
    else Pending(CODEC_VERSION, a.subject.tenant, a.subject, a.epoch, [], a.remember, [], a.transport, [],
                 a.lineage, [], now + PENDING_TTL)
  }

  function Bind(p: Pending, s: Subject, st: AccountState): Result<Pending, Error> {
    if p.version == 0 || s.NoUser() then Err(InvalidArgument)
    else if s.tenant != p.tenant then Err(TenantMismatch)
    else if p.Bound() then Err(AlreadyBound)
    else Ok(p.(subject := s, epochAtBind := st.epoch))
  }

  function WithBindHash(p: Pending, h: Bytes): Result<Pending, Error> {
    if p.version == 0 || |h| != BIND_HASH_LEN || p.bindHash != [] then Err(InvalidArgument)
    else Ok(p.(bindHash := h))
  }

  /** The other passkey role of a credential: a login passkey against a step-up, and conversely. */
  predicate Clash(existing: seq<CredentialUse>, f: Factor, id: Bytes) {
    match f
    case Passkey => CredentialUse(PasskeyStepUp, id) in existing
    case PasskeyStepUp => CredentialUse(Passkey, id) in existing
    case _ => false
  }

  predicate ReusesCredential(p: Pending, v: Verified) {
    exists f | f in v.factors :: Clash(CredentialUses(p.verified), f, v.credentialId)
  }

  /** Why a verification is refused, in the order of the checks. */
  function AddRefusal(p: Pending, v: Verified, st: AccountState): Option<Error> {
    if p.version == 0 || v.factors == [] then Some(InvalidArgument)
    else if v.subject.tenant != p.tenant then Some(TenantMismatch)
    else if v.at >= p.expiresAt then Some(PendingExpired)
    else if !p.Bound() && HasRole(v.factors, Second) then Some(NotBound)
    else if !p.Bound() && !v.identifies then Some(NotIdentifying)
    else if p.Bound() && v.subject != p.subject then Some(SubjectMismatch)
    else if p.Bound() && st.epoch != p.epochAtBind then Some(EpochStale)
    else if ReusesCredential(p, v) then Some(SameCredential)
    else if v.provider != [] && p.provider != [] && p.provider != v.provider then Some(ProviderMismatch)
    else None
  }

  function Accumulate(p: Pending, v: Verified, st: AccountState): Pending {
    var bound := if p.Bound() then p else p.(subject := v.subject, epochAtBind := st.epoch);
    bound.(verified := p.verified + [v], provider := if v.provider != [] then v.provider else p.provider)
  }

  function Add(p: Pending, v: Verified, st: AccountState): Result<Pending, Error> {
    match AddRefusal(p, v, st)
    case Some(e) => Err(e)
    case None => Ok(Accumulate(p, v, st))
  }
}
