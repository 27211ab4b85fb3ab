/** Exactly when the steps of a login or a session are refused, and why, read off the history alone. */
module Refusals {
  import opened Prelude
  import opened Factors
  import opened Domain
  import opened Pendings
  import opened Sessions
  import opened Codec
  import opened Histories
  import opened Provenance
  import opened Evidence
  import opened Acceptance

  /** The account exists and is neither disabled nor deleted. */
  predicate InOrder(st: AccountState) {
    st.found && !st.disabled && !st.deleted
  }

  // ---- Sessions: strength and epoch ---------------------------------------------------------

  ghost predicate JustifiedRole(h: Lineage, r: Role) {
    exists f: Factor :: Justified(h, f) && RoleOf(f) == r
  }

  /** A primary with a second factor, or a passkey with user verification. */
  ghost predicate StronglyJustified(h: Lineage) {
    || (JustifiedRole(h, Primary) && JustifiedRole(h, Second))
    || (Justified(h, Passkey) && Justified(h, UserVerification))
  }

  lemma {:induction false} HeldRole(h: Lineage, r: Role)
    requires RunLineage(h).Ok?
    ensures HasRole(RunLineage(h).value.factors, r) <==> JustifiedRole(h, r)
  {
    var fs := RunLineage(h).value.factors;
    if HasRole(fs, r) {
      var f :| f in fs && RoleOf(f) == r;
      FactorProvenance(h, f);
      assert Justified(h, f) && RoleOf(f) == r;
    }
    if JustifiedRole(h, r) {
      var f: Factor :| Justified(h, f) && RoleOf(f) == r;
      FactorProvenance(h, f);
    }
  }

  lemma {:induction false} HeldStrength(h: Lineage)
    requires RunLineage(h).Ok?
    ensures MultiFactor(RunLineage(h).value.factors) <==> StronglyJustified(h)
  {
    HeldRole(h, Primary);
    HeldRole(h, Second);
    FactorProvenance(h, Passkey);
    FactorProvenance(h, UserVerification);
  }

  /** The epoch of the admission, moved on by the session's own security changes. */
  function EpochOf(h: Lineage): U64 {
    Bumped(Evidence.Admission(h).st.epoch, OwnChanges(h))
  }

  lemma {:induction false} AdmittedEpoch(h: Lineage)
    requires h.Admitted? && RunLineage(h).Ok?
    ensures RunLineage(h).value.epoch == h.st.epoch
  {
    NewSessionOf(RunJourney(h.journey).value, h.st, h.mfa, h.now, h.id);
  }

  lemma {:induction false} LineageEpoch(h: Lineage)
    requires RunLineage(h).Ok?
    ensures RunLineage(h).value.epoch == EpochOf(h)
  {
    LineageStable(h);
    AdmittedEpoch(Evidence.Admission(h));
  }

  // ---- Renewal ------------------------------------------------------------------------------

  ghost predicate Renewable(h: Lineage, st: AccountState, mfa: MfaDecision, claims: Byte, now: Time) {
    && mfa.loaded && !IsZero(now) && InOrder(st) && st.epoch == EpochOf(h)
    && (mfa.enrolled == [] || StronglyJustified(h))
    && (claims == CLAIMS_REFRESHED || claims == CLAIMS_KEPT_STALE)
  }

  ghost function WhyNotRenewed(h: Lineage, st: AccountState, mfa: MfaDecision, claims: Byte, now: Time): Error {
    if !mfa.loaded || IsZero(now) then InvalidArgument
    else if !InOrder(st) then AccountUnusable
    else if st.epoch != EpochOf(h) then EpochStale
    else if mfa.enrolled != [] && !StronglyJustified(h) then ReauthRequired
    else
      match claims
      case 3 => ClaimsUnavailable
      case 4 => ClaimsSubjectUnknown
      case 5 => ClaimsTooLarge
      case _ => InvalidArgument
  }

  lemma {:induction false} RenewValues(h: Lineage, a: SessionAttrs, st: AccountState, mfa: MfaDecision, claims: Byte, now: Time)
    requires a.version != 0 && a.epoch == EpochOf(h) && (MultiFactor(a.factors) <==> StronglyJustified(h))
    ensures var r := ThenRenew(Ok(a), st, mfa, claims, now);
      && (r.Ok? <==> Renewable(h, st, mfa, claims, now))
      && (r.Err? ==> r.error == WhyNotRenewed(h, st, mfa, claims, now))
  {
  }

  /**
   * A session is renewed exactly when the account is usable at its epoch, the claims are in hand and,
   * when a second factor is enrolled, strong evidence was given in the life of the session.
   */
  lemma {:induction false} RenewalExact(h: Lineage, st: AccountState, mfa: MfaDecision, claims: Byte, now: Time)
    requires RunLineage(h).Ok?
    ensures var r := RunLineage(Renewed(h, st, mfa, claims, now));
      && (r.Ok? <==> Renewable(h, st, mfa, claims, now))
      && (r.Err? ==> r.error == WhyNotRenewed(h, st, mfa, claims, now))
  {
    var a := RunLineage(h).value;
    LineageSound(h);
    LineageEpoch(h);
    HeldStrength(h);
    RenewValues(h, a, st, mfa, claims, now);
    OneRenewal(Renewed(h, st, mfa, claims, now));
  }

  // ---- Security changes ---------------------------------------------------------------------

  /** The account is usable, one bump above the session. */
  predicate JustBumped(epoch: U64, st: AccountState) {
    InOrder(st) && st.epoch == (epoch + 1) % TWO_64
  }

  function WhyNotBumped(st: AccountState): Error {
    if !InOrder(st) then AccountUnusable else EpochStale
  }

  lemma EnrolValues(a: SessionAttrs, f: Factor, st: AccountState)
    requires a.version != 0
    ensures var r := ThenEnrol(Ok(a), f, st);
      && (r.Ok? <==> RoleOf(f) == Second && JustBumped(a.epoch, st))
      && (r.Err? ==> r.error == if RoleOf(f) != Second then InvalidFactor else WhyNotBumped(st))
  {
  }

  lemma ChangeValues(a: SessionAttrs, st: AccountState, now: Time)
    requires a.version != 0
    ensures var r := ThenChange(Ok(a), st, now);
      && (r.Ok? <==> !IsZero(now) && JustBumped(a.epoch, st))
      && (r.Err? ==> r.error == if IsZero(now) then InvalidArgument else WhyNotBumped(st))
  {
  }

  /** An enrolment is taken over exactly for a second factor, on a usable account one bump ahead. */
  lemma {:induction false} EnrolmentExact(h: Lineage, f: Factor, st: AccountState)
    requires RunLineage(h).Ok?
    ensures var r := RunLineage(Enrolled(h, f, st));
      && (r.Ok? <==> RoleOf(f) == Second && JustBumped(EpochOf(h), st))
      && (r.Err? ==> r.error == if RoleOf(f) != Second then InvalidFactor else WhyNotBumped(st))
  {
    LineageSound(h);
    LineageEpoch(h);
    EnrolValues(RunLineage(h).value, f, st);
    OneEnrolment(Enrolled(h, f, st));
  }

  lemma {:induction false} PasswordChangeExact(h: Lineage, st: AccountState, now: Time)
    requires RunLineage(h).Ok?
    ensures var r := RunLineage(Changed(h, st, now));
      && (r.Ok? <==> !IsZero(now) && JustBumped(EpochOf(h), st))
      && (r.Err? ==> r.error == if IsZero(now) then InvalidArgument else WhyNotBumped(st))
  {
    LineageSound(h);
    LineageEpoch(h);
    ChangeValues(RunLineage(h).value, st, now);
    OneChange(Changed(h, st, now));
  }

  // ---- Admission ----------------------------------------------------------------------------

  /** Why a login is neither admitted nor asked for a factor, if it is not. */
  function WhyNotAdmitted(j: Journey, st: AccountState, mfa: MfaDecision, now: Time): Option<Error> {
    if !mfa.loaded || IsZero(now) then Some(InvalidArgument)
    else if now >= Root(j).now + PENDING_TTL then Some(PendingExpired)
    else if Root(j).Reauthing? then Some(ReauthPending)
    else if States(j) == [] then Some(NotBound)
    else if !PresentedPrimary(Specs(j)) then Some(NoPrimary)
    else if !InOrder(st) then Some(AccountUnusable)
    else if !SameEpoch(States(j), st.epoch) then Some(EpochStale)
    else None
  }

  lemma {:induction false} AdmitRefusalTold(j: Journey, p: Pending, fs: seq<Factor>, st: AccountState, mfa: MfaDecision, now: Time)
    requires Records(j, p) && SoundPending(p)
    requires HasRole(fs, Primary) <==> PresentedPrimary(Specs(j))
    ensures AdmitRefusal(p, fs, st, mfa, now) == WhyNotAdmitted(j, st, mfa, now)
  {
    if Root(j).Started? && States(j) != [] {
      assert States(j)[0] in States(j);
    }
  }

  /** What a completed journey is answered: an error, the question for a factor, or a session. */
  lemma {:induction false} AdmissionAnswer(j: Journey, st: AccountState, mfa: MfaDecision, now: Time, id: NewLineage)
    requires RunJourney(j).Ok?
    ensures var r := Admit(RunJourney(j).value, st, mfa, now, id);
      match WhyNotAdmitted(j, st, mfa, now)
      case Some(e) => r == Err(e)
      case None => r.Ok? && (r.value.NeedsFactor? <==> mfa.enrolled != [] && !StronglyPresented(Specs(j)))
  {
    var p := RunJourney(j).value;
    JourneyRecords(j);
    JourneySound(j);
    JourneyStrength(j);
    AdmitRefusalTold(j, p, FactorSet(p.verified), st, mfa, now);
  }

  // ---- Reauthentication ---------------------------------------------------------------------

  /** The session a reauthentication began from. */
  function SessionOf(j: Journey): Option<SessionAttrs> {
    if Root(j).Reauthing? && RunLineage(Root(j).session).Ok? then Some(RunLineage(Root(j).session).value) else None
  }

  /** Why session a is not refreshed by a journey that began at start from session b, if it is not. */
  function WhyNotRefreshed(a: SessionAttrs, b: Option<SessionAttrs>, start: Time, specs: seq<VerifiedSpec>, st: AccountState,
                           mfa: MfaDecision, now: Time): Option<Error>
  {
    if !mfa.loaded || IsZero(now) then Some(InvalidArgument)
    else if b.None? || b.value.lineage != a.lineage then Some(LineageMismatch)
    else if b.value.subject != a.subject then Some(SubjectMismatch)
    else if now >= start + PENDING_TTL then Some(PendingExpired)
    else if !PresentedPrimary(specs) then Some(NoPrimary)
    else if !InOrder(st) then Some(AccountUnusable)
    else if !(st.epoch == a.epoch == b.value.epoch) then Some(EpochStale)
    else if mfa.enrolled != [] && !StronglyPresented(specs) then Some(FactorRequired)
    else None
  }

  /** What the Pending of a reauthentication takes from its session; that of a login takes nothing. */
  predicate TakenFrom(p: Pending, b: Option<SessionAttrs>) {
    match b
    case None => p.reauthOf == NIL_UUID
    case Some(x) => p.reauthOf == x.lineage != NIL_UUID && p.subject == x.subject && p.epochAtBind == x.epoch
  }

  lemma ReauthRefusalTold(a: SessionAttrs, b: Option<SessionAttrs>, p: Pending, fs: seq<Factor>, specs: seq<VerifiedSpec>,
                          st: AccountState, mfa: MfaDecision, now: Time)
    requires a.version != 0 && p.version != 0 && TakenFrom(p, b)
    requires HasRole(fs, Primary) <==> PresentedPrimary(specs)
    requires MultiFactor(fs) <==> StronglyPresented(specs)
    ensures ReauthRefusal(a, p, fs, st, mfa, now) == WhyNotRefreshed(a, b, p.expiresAt - PENDING_TTL, specs, st, mfa, now)
  {
  }

  lemma {:induction false} TakenFromSession(j: Journey, p: Pending)
    requires RunJourney(j) == Ok(p)
    ensures p.version != 0 && TakenFrom(p, SessionOf(j)) && p.expiresAt == Root(j).now + PENDING_TTL
  {
    JourneyRecords(j);
    JourneySound(j);
    if Root(j).Reauthing? {
      LineageSound(Root(j).session);
    }
  }

  lemma ThenReauthenticateAnswer(a: SessionAttrs, p: Pending, st: AccountState, mfa: MfaDecision, now: Time)
    ensures var r := ThenReauthenticate(Ok(a), Ok(p), st, mfa, now);
      match ReauthRefusal(a, p, FactorSet(p.verified), st, mfa, now)
      case Some(e) => r == Err(e)
      case None => r.Ok?
  {
  }

  /** Why a reauthentication fails, and that it does not otherwise. */
  lemma {:induction false} ReauthenticationAnswer(prev: Lineage, j: Journey, st: AccountState, mfa: MfaDecision, now: Time)
    requires RunLineage(prev).Ok? && RunJourney(j).Ok?
    ensures var r := RunLineage(Reauthenticated(prev, j, st, mfa, now));
      match WhyNotRefreshed(RunLineage(prev).value, SessionOf(j), Root(j).now, Specs(j), st, mfa, now)
      case Some(e) => r == Err(e)
      case None => r.Ok?
  {
    var a, p := RunLineage(prev).value, RunJourney(j).value;
    LineageSound(prev);
    JourneyStrength(j);
    TakenFromSession(j, p);
    ReauthRefusalTold(a, SessionOf(j), p, FactorSet(p.verified), Specs(j), st, mfa, now);
    ThenReauthenticateAnswer(a, p, st, mfa, now);
    OneReauthentication(Reauthenticated(prev, j, st, mfa, now));
  }

  // ---- The steps of a journey ---------------------------------------------------------------

  /** A login starts on any known choice, transport and policy, at any instant but the zero one. */
  lemma StartExact(t: TenantId, remember: Byte, returnTo: Bytes, tr: Transport, policy: Byte, now: Time)
    ensures var r := RunJourney(Started(t, remember, returnTo, tr, policy, now));
      && (r.Ok? <==> remember in {REMEMBER_DECLINED, REMEMBER_REQUESTED} && ValidTransport(tr)
                     && policy in {REMEMBER_USER_CHOICE, REMEMBER_ALWAYS, REMEMBER_NEVER} && !IsZero(now))
      && (r.Err? ==> r.error == InvalidArgument)
  {
  }

  /** A browser binding is taken exactly once, at full length. */
  lemma {:induction false} HashExact(prev: Journey, hash: Bytes)
    requires RunJourney(prev).Ok?
    ensures var r := RunJourney(Hashed(prev, hash));
      && (r.Ok? <==> |hash| == BIND_HASH_LEN && Hashes(prev) == [])
      && (r.Err? ==> r.error == InvalidArgument)
  {
    JourneyHash(prev);
    JourneySound(prev);
    OneHash(Hashed(prev, hash));
  }

  function WhyNotBound(j: Journey, p: Pending, s: Subject): Option<Error> {
    if s.NoUser() then Some(InvalidArgument)
    else if s.tenant != p.tenant then Some(TenantMismatch)
    else if Root(j).Reauthing? || States(j) != [] then Some(AlreadyBound)
    else None
  }

  lemma {:induction false} BindAnswer(prev: Journey, s: Subject, st: AccountState)
    requires RunJourney(prev).Ok?
    ensures var r := RunJourney(Bound(prev, s, st));
      match WhyNotBound(prev, RunJourney(prev).value, s)
      case Some(e) => r == Err(e)
      case None => r.Ok?
  {
    JourneyRecords(prev);
    JourneySound(prev);
    OneBinding(Bound(prev, s, st));
  }

  /** Why a genuine verification is not accepted, if it is not. */
  function WhyNotAdded(bound: bool, start: Time, specs: seq<VerifiedSpec>, p: Pending, spec: VerifiedSpec, st: AccountState)
    : Option<Error>
  {
    if spec.subject.tenant != p.tenant then Some(TenantMismatch)
    else if spec.at >= start + PENDING_TTL then Some(PendingExpired)
    else if !bound && HasRole(spec.factors, Second) then Some(NotBound)
    else if !bound && !spec.identifies then Some(NotIdentifying)
    else if bound && spec.subject != p.subject then Some(SubjectMismatch)
    else if bound && st.epoch != p.epochAtBind then Some(EpochStale)
    else if exists s | s in specs :: Crosses(s, spec) then Some(SameCredential)
    else if !SameProvider(specs, spec) then Some(ProviderMismatch)
    else None
  }

  lemma AddRefusalTold(specs: seq<VerifiedSpec>, p: Pending, spec: VerifiedSpec, st: AccountState, v: Verified)
    requires Ledger(specs, p) && p.version != 0 && OneProvider(specs, p.provider) && Matches(spec, v)
    ensures AddRefusal(p, v, st) == WhyNotAdded(p.Bound(), p.expiresAt - PENDING_TTL, specs, p, spec, st)
  {
    ReuseIsCrossing(specs, p, spec, v);
    ProviderAgrees(specs, p.provider, spec);
    RolesMatch(spec, v);
  }

  lemma ThenAddTold(specs: seq<VerifiedSpec>, p: Pending, spec: VerifiedSpec, st: AccountState)
    requires Ledger(specs, p) && p.version != 0 && OneProvider(specs, p.provider)
    ensures var r := ThenAdd(Ok(p), spec, st);
      if NewVerified(spec).Err? then r == Err(InvalidVerified)
      else
        match WhyNotAdded(p.Bound(), p.expiresAt - PENDING_TTL, specs, p, spec, st)
        case Some(e) => r == Err(e)
        case None => r.Ok?
  {
    if NewVerified(spec).Ok? {
      AddRefusalTold(specs, p, spec, st, NewVerified(spec).value);
    }
  }

  lemma {:induction false} BoundInTime(j: Journey)
    requires RunJourney(j).Ok?
    ensures var p := RunJourney(j).value;
      (p.Bound() <==> Root(j).Reauthing? || States(j) != []) && p.expiresAt == Root(j).now + PENDING_TTL
  {
    JourneyRecords(j);
  }

  /** Why a verification is refused, and that it is not otherwise. */
  lemma {:induction false} AddAnswer(prev: Journey, spec: VerifiedSpec, st: AccountState)
    requires RunJourney(prev).Ok?
    ensures var r := RunJourney(Added(prev, spec, st));
      if NewVerified(spec).Err? then r == Err(InvalidVerified)
      else
        var bound := Root(prev).Reauthing? || States(prev) != [];
        match WhyNotAdded(bound, Root(prev).now, Specs(prev), RunJourney(prev).value, spec, st)
        case Some(e) => r == Err(e)
        case None => r.Ok?
  {
    var p := RunJourney(prev).value;
    BoundInTime(prev);
    JourneyFacts(prev);
    ThenAddTold(Specs(prev), p, spec, st);
    OneAdd(Added(prev, spec, st));
  }
}
