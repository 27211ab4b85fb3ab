/** The transitions of an established session. */
module Sessions {
  import opened Prelude
  import opened Factors
  import opened Domain
  import opened Pendings

  datatype Admission =
    | Session(attrs: SessionAttrs)
    | NeedsFactor(pending: Pending, needs: seq<Factor>)

  /** The fresh identifier of a lineage: a random UUID, never nil. */
  type NewLineage = u: Uuid | u != NIL_UUID witness 1

  /** Why an admission is refused, in the order of the checks. */
  function AdmitRefusal(p: Pending, fs: seq<Factor>, st: AccountState, mfa: MfaDecision, now: Time): Option<Error> {
    if p.version == 0 || !ValidTransport(p.transport) || !mfa.loaded || IsZero(now) then Some(InvalidArgument)
    else if now >= p.expiresAt then Some(PendingExpired)
    else if !p.Bound() then Some(NotBound)
    else if p.reauthOf != NIL_UUID then Some(ReauthPending)
    else if !HasRole(fs, Primary) then Some(NoPrimary)
    else if !st.Usable() then Some(AccountUnusable)
    else if st.epoch != p.epochAtBind then Some(EpochStale)
    else None
  }

  function NewSession(p: Pending, fs: seq<Factor>, st: AccountState, now: Time, lineage: NewLineage): SessionAttrs {
    SessionAttrs(
      CODEC_VERSION, lineage, p.subject, fs, CredentialUses(p.verified),
      Latest(p.verified, PrimaryAspect), Latest(p.verified, SecondAspect),
      st.epoch, st.mustChange, p.remember, p.returnTo, p.transport, p.provider, now, now)
  }

  function Admit(p: Pending, st: AccountState, mfa: MfaDecision, now: Time, lineage: NewLineage)
    : Result<Admission, Error>
  {
    var fs := FactorSet(p.verified);
    match AdmitRefusal(p, fs, st, mfa, now)
    case Some(e) => Err(e)
    case None =>
      if mfa.Required() && !MultiFactor(fs) then Ok(NeedsFactor(p, mfa.enrolled))
      else Ok(Session(NewSession(p, fs, st, now, lineage)))
  }

  /** Adds the uses that are not there yet, in order. */
  function MergeUses(existing: seq<CredentialUse>, added: seq<CredentialUse>): seq<CredentialUse> {
    if added == [] then existing
    else
      var merged, last := MergeUses(existing, added[..|added| - 1]), added[|added| - 1];
      if last in merged then merged else merged + [last]
  }

  method ComputeMergeUses(existing: seq<CredentialUse>, added: seq<CredentialUse>) returns (out: seq<CredentialUse>)
    ensures out == MergeUses(existing, added)
  {
    out := existing;
    for i := 0 to |added|
      invariant out == MergeUses(existing, added[..i])
    {
      assert added[..i + 1][..i] == added[..i];
      if added[i] !in out {
        out := out + [added[i]];
      }
    }
    assert added[..|added|] == added;
  }

  lemma {:induction false} MergeMembers(existing: seq<CredentialUse>, added: seq<CredentialUse>, u: CredentialUse)
    ensures u in MergeUses(existing, added) <==> u in existing || u in added
  {
    if added != [] {
      MergeMembers(existing, added[..|added| - 1], u);
      assert added == added[..|added| - 1] + [added[|added| - 1]];
    }
  }

  function ReauthRefusal(a: SessionAttrs, p: Pending, fs: seq<Factor>, st: AccountState, mfa: MfaDecision, now: Time)
    : Option<Error>
  {
    if a.version == 0 || p.version == 0 || !mfa.loaded || IsZero(now) then Some(InvalidArgument)
    else if p.reauthOf == NIL_UUID || p.reauthOf != a.lineage then Some(LineageMismatch)
    else if p.subject != a.subject then Some(SubjectMismatch)
    else if now >= p.expiresAt then Some(PendingExpired)
    else if !HasRole(fs, Primary) then Some(NoPrimary)
    else if !st.Usable() then Some(AccountUnusable)
    else if st.epoch != a.epoch || st.epoch != p.epochAtBind then Some(EpochStale)
    else if mfa.Required() && !MultiFactor(fs) then Some(FactorRequired)
    else None
  }

  /** Factors and credentials only grow; the second instant moves only when a second factor was proved. */
  function Refreshed(a: SessionAttrs, p: Pending, fs: seq<Factor>, st: AccountState): SessionAttrs {
    var second := Latest(p.verified, SecondAspect);
    a.(factors := Union(a.factors, fs),
       credentialIds := MergeUses(a.credentialIds, CredentialUses(p.verified)),
       primaryAt := Latest(p.verified, PrimaryAspect),
       secondAt := if IsZero(second) then a.secondAt else second,
       mustChange := a.mustChange || st.mustChange)
  }

  function Reauthenticate(a: SessionAttrs, p: Pending, st: AccountState, mfa: MfaDecision, now: Time)
    : Result<SessionAttrs, Error>
  {
    var fs := FactorSet(p.verified);
    match ReauthRefusal(a, p, fs, st, mfa, now)
    case Some(e) => Err(e)
    case None => Ok(Refreshed(a, p, fs, st))
  }

  /** The account carries the epoch just above the session's; the counter wraps at 2^64. */
  function CheckBumped(a: SessionAttrs, st: AccountState): Option<Error> {
    if !st.Usable() then Some(AccountUnusable)
    else if st.epoch != Succ(a.epoch) then Some(EpochStale)
    else None
  }

  function FactorEnrolled(a: SessionAttrs, f: Factor, st: AccountState): Result<SessionAttrs, Error> {
    if a.version == 0 then Err(InvalidArgument)
    else if RoleOf(f) != Second then Err(InvalidFactor)
    else
      match CheckBumped(a, st)
      case Some(e) => Err(e)
      case None =>
        Ok(a.(factors := Union(a.factors, [f]), epoch := st.epoch, mustChange := a.mustChange || st.mustChange))
  }

  function PasswordChanged(a: SessionAttrs, st: AccountState, now: Time): Result<SessionAttrs, Error> {
    if a.version == 0 || IsZero(now) then Err(InvalidArgument)
    else
      match CheckBumped(a, st)
      case Some(e) => Err(e)
      case None =>
        Ok(a.(factors := Union(a.factors, [Password]), primaryAt := now, mustChange := false, epoch := st.epoch))
  }

  function Renew(a: SessionAttrs, st: AccountState, mfa: MfaDecision, claims: Byte, now: Time)
    : Result<SessionAttrs, Error>
  {
    if a.version == 0 || !mfa.loaded || IsZero(now) then Err(InvalidArgument)
    else if !st.Usable() then Err(AccountUnusable)
    else if a.epoch != st.epoch then Err(EpochStale)
    else if mfa.Required() && !MultiFactor(a.factors) then Err(ReauthRequired)
    else if claims == CLAIMS_UNAVAILABLE then Err(ClaimsUnavailable)
    else if claims == CLAIMS_SUBJECT_UNKNOWN then Err(ClaimsSubjectUnknown)
    else if claims == CLAIMS_TOO_LARGE then Err(ClaimsTooLarge)
    else if claims != CLAIMS_REFRESHED && claims != CLAIMS_KEPT_STALE then Err(InvalidArgument)
    else
      Ok(a.(claimsFetchedAt := if claims == CLAIMS_REFRESHED then now else a.claimsFetchedAt,
            mustChange := a.mustChange || st.mustChange))
  }

  /** Authenticated within d of now, in the second factor too when the session holds one. */
  predicate FreshWithin(a: SessionAttrs, d: Duration, now: Time) {
    if d <= 0 || IsZero(a.primaryAt) || Sub(now, a.primaryAt) > d then false
    else if HasRole(a.factors, Second) || MultiFactor(a.factors) then
      !IsZero(a.secondAt) && Sub(now, a.secondAt) <= d
    else true
  }
}
