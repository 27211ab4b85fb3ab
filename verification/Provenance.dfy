/** What a journey or a session holds, read off its history alone. */
module Provenance {
  import opened Prelude
  import opened Factors
  import opened Domain
  import opened Pendings
  import opened Sessions
  import opened Histories
  import opened Transparency

  // ---- Readings of a history ----------------------------------------------------------------

  /** How the journey began. */
  function Root(j: Journey): (r: Journey)
    ensures r.Started? || r.Reauthing?
  {
    match j
    case Started(_, _, _, _, _, _) => j
    case Reauthing(_, _) => j
    case Bound(prev, _, _) => Root(prev)
    case Hashed(prev, _) => Root(prev)
    case Added(prev, _, _) => Root(prev)
    case Parked(prev) => Root(prev)
  }

  /** The verifications presented, in order. */
  function Specs(j: Journey): seq<VerifiedSpec> {
    match j
    case Started(_, _, _, _, _, _) => []
    case Reauthing(_, _) => []
    case Bound(prev, _, _) => Specs(prev)
    case Hashed(prev, _) => Specs(prev)
    case Added(prev, spec, _) => Specs(prev) + [spec]
    case Parked(prev) => Specs(prev)
  }

  /** The account states consulted, at the binding and at every verification. */
  function States(j: Journey): seq<AccountState> {
    match j
    case Started(_, _, _, _, _, _) => []
    case Reauthing(_, _) => []
    case Bound(prev, _, st) => States(prev) + [st]
    case Hashed(prev, _) => States(prev)
    case Added(prev, _, st) => States(prev) + [st]
    case Parked(prev) => States(prev)
  }

  /** The remember-me rule of a deployment: always, never, or as the user asked. */
  predicate Remembered(policy: Byte, intent: Byte) {
    policy == REMEMBER_ALWAYS || (policy == REMEMBER_USER_CHOICE && intent == REMEMBER_REQUESTED)
  }

  // ---- The journey's ledger -----------------------------------------------------------------

  predicate AsStarted(r: Journey, p: Pending)
    requires r.Started?
  {
    && p.tenant == r.tenant && p.remember == Remembered(r.policy, r.remember) && p.returnTo == r.returnTo
    && p.transport == r.transport && p.reauthOf == NIL_UUID && p.expiresAt == r.now + PENDING_TTL
  }

  predicate AsReauthing(r: Journey, p: Pending)
    requires r.Reauthing?
  {
    RunLineage(r.session).Ok? && var a := RunLineage(r.session).value;
    && p.tenant == a.subject.tenant && p.subject == a.subject && p.epochAtBind == a.epoch
    && p.remember == a.remember && p.returnTo == [] && p.transport == a.transport
    && p.reauthOf == a.lineage && p.reauthOf != NIL_UUID && p.expiresAt == r.now + PENDING_TTL
  }

  predicate Matches(spec: VerifiedSpec, v: Verified) {
    NewVerified(spec) == Ok(v)
  }

  /** One verification per presented one, of the bound subject and before the expiry. */
  predicate Ledger(specs: seq<VerifiedSpec>, p: Pending) {
    && |p.verified| == |specs|
    && forall i | 0 <= i < |specs| ::
         Matches(specs[i], p.verified[i]) && specs[i].subject == p.subject && specs[i].at < p.expiresAt
  }

  predicate SameEpoch(states: seq<AccountState>, e: U64) {
    forall st | st in states :: st.epoch == e
  }

  /** What the beginning of a journey fixes in it. */
  predicate Begun(r: Journey, p: Pending)
    requires r.Started? || r.Reauthing?
  {
    if r.Started? then AsStarted(r, p) else AsReauthing(r, p)
  }

  predicate Records(j: Journey, p: Pending) {
    && Begun(Root(j), p)
    && Ledger(Specs(j), p) && SameEpoch(States(j), p.epochAtBind)
    && (p.Bound() <==> Root(j).Reauthing? || States(j) != [])
    && |Specs(j)| <= |States(j)|
  }

  lemma AddLedger(specs: seq<VerifiedSpec>, spec: VerifiedSpec, st: AccountState, p: Pending, v: Verified)
    requires Ledger(specs, p) && (p.verified != [] ==> p.Bound())
    requires Matches(spec, v) && AddRefusal(p, v, st).None?
    ensures Ledger(specs + [spec], Accumulate(p, v, st))
  {
  }

  lemma AddEpoch(states: seq<AccountState>, st: AccountState, p: Pending, v: Verified)
    requires SameEpoch(states, p.epochAtBind) && (states != [] ==> p.Bound())
    requires AddRefusal(p, v, st).None?
    ensures SameEpoch(states + [st], Accumulate(p, v, st).epochAtBind)
  {
  }

  lemma {:induction false} AddBegun(r: Journey, st: AccountState, p: Pending, v: Verified)
    requires (r.Started? || r.Reauthing?) && Begun(r, p) && (r.Reauthing? ==> p.Bound())
    ensures Begun(r, Accumulate(p, v, st))
  {
  }

  lemma AddBound(st: AccountState, p: Pending, v: Verified)
    requires AddRefusal(p, v, st).None? && !v.subject.NoUser()
    ensures Accumulate(p, v, st).Bound()
  {
  }

  lemma {:induction false} AddRecords(prev: Journey, spec: VerifiedSpec, st: AccountState, p: Pending, v: Verified)
    requires Records(prev, p) && SoundPending(p) && Matches(spec, v) && AddRefusal(p, v, st).None?
    ensures Records(Added(prev, spec, st), Accumulate(p, v, st))
  {
    AddBegun(Root(prev), st, p, v);
    AddLedger(Specs(prev), spec, st, p, v);
    AddEpoch(States(prev), st, p, v);
    NewVerifiedSound(spec);
    AddBound(st, p, v);
  }

  lemma {:induction false} BindRecords(prev: Journey, s: Subject, st: AccountState, p: Pending)
    requires Records(prev, p) && SoundPending(p) && Bind(p, s, st).Ok?
    ensures Records(Bound(prev, s, st), Bind(p, s, st).value)
  {
  }

  predicate Faithful(j: Journey, r: Result<Pending, Error>) {
    r.Ok? ==> Records(j, r.value)
  }

  lemma {:induction false} ReauthRecords(s: Lineage, now: Time)
    ensures Faithful(Reauthing(s, now), ThenReauth(RunLineage(s), now))
  {
    LineageSound(s);
    if RunLineage(s).Ok? {
      assert AsReauthing(Reauthing(s, now), PendingForReauth(RunLineage(s).value, now));
    }
  }

  lemma {:induction false} ThenBindRecords(prev: Journey, r: Result<Pending, Error>, s: Subject, st: AccountState)
    requires Faithful(prev, r) && Sound(r)
    ensures Faithful(Bound(prev, s, st), ThenBind(r, s, st))
  {
    if ThenBind(r, s, st).Ok? {
      BindRecords(prev, s, st, r.value);
    }
  }

  lemma {:induction false} ThenHashRecords(prev: Journey, r: Result<Pending, Error>, hash: Bytes)
    requires Faithful(prev, r)
    ensures Faithful(Hashed(prev, hash), ThenHash(r, hash))
  {
  }

  lemma {:induction false} ThenAddRecords(prev: Journey, r: Result<Pending, Error>, spec: VerifiedSpec, st: AccountState)
    requires Faithful(prev, r) && Sound(r)
    ensures Faithful(Added(prev, spec, st), ThenAdd(r, spec, st))
  {
    if ThenAdd(r, spec, st).Ok? {
      AddRecords(prev, spec, st, r.value, NewVerified(spec).value);
    }
  }

  lemma {:induction false} SameRecords(prev: Journey, j: Journey, p: Pending)
    requires Records(prev, p) && Root(j) == Root(prev) && Specs(j) == Specs(prev) && States(j) == States(prev)
    ensures Records(j, p)
  {
  }

  lemma {:induction false} ThenParkRecords(prev: Journey, r: Result<Pending, Error>, parked: Result<Pending, Error>)
    requires Faithful(prev, r) && (parked.Ok? ==> parked == r)
    ensures Faithful(Parked(prev), parked)
  {
    if parked.Ok? {
      SameRecords(prev, Parked(prev), r.value);
    }
  }

  lemma {:induction false} JourneyFaithful(j: Journey)
    ensures Faithful(j, RunJourney(j))
  {
    match j
    case Started(_, _, _, _, _, _) =>
    case Reauthing(s, now) => ReauthRecords(s, now);
    case Bound(prev, s, st) =>
      JourneyFaithful(prev);
      JourneySound(prev);
      ThenBindRecords(prev, RunJourney(prev), s, st);
    case Hashed(prev, hash) =>
      JourneyFaithful(prev);
      ThenHashRecords(prev, RunJourney(prev), hash);
    case Added(prev, spec, st) =>
      JourneyFaithful(prev);
      JourneySound(prev);
      ThenAddRecords(prev, RunJourney(prev), spec, st);
    case Parked(prev) =>
      JourneyFaithful(prev);
      ParkedIsSame(prev);
      ThenParkRecords(prev, RunJourney(prev), ThenPark(RunJourney(prev)));
  }

  /** Every Pending records its journey: how it began, what was presented, and under which epoch. */
  lemma {:induction false} JourneyRecords(j: Journey)
    requires RunJourney(j).Ok?
    ensures Records(j, RunJourney(j).value)
  {
    JourneyFaithful(j);
  }

  // ---- Admission ----------------------------------------------------------------------------

  predicate Presented(specs: seq<VerifiedSpec>, f: Factor) {
    exists s | s in specs :: f in s.factors
  }

  lemma MatchedFactors(spec: VerifiedSpec, v: Verified, f: Factor)
    requires Matches(spec, v)
    ensures f in v.factors <==> f in spec.factors
  {
    NewVerifiedSound(spec);
    assert f in v.factors <==> f in Elems(v.factors);
    assert f in spec.factors <==> f in Elems(spec.factors);
  }

  lemma LedgerFactors(specs: seq<VerifiedSpec>, p: Pending, f: Factor)
    requires Ledger(specs, p)
    ensures f in FactorSet(p.verified) <==> Presented(specs, f)
  {
    FactorSetMembers(p.verified, f);
    if v :| v in p.verified && f in v.factors {
      var i :| 0 <= i < |specs| && p.verified[i] == v;
      MatchedFactors(specs[i], v, f);
      assert specs[i] in specs;
    }
    if s :| s in specs && f in s.factors {
      var i :| 0 <= i < |specs| && specs[i] == s;
      MatchedFactors(s, p.verified[i], f);
      assert p.verified[i] in p.verified;
    }
  }

  /** The factors of a Pending are exactly the presented ones. */
  lemma {:induction false} JourneyFactors(j: Journey)
    requires RunJourney(j).Ok?
    ensures forall f :: f in FactorSet(RunJourney(j).value.verified) <==> Presented(Specs(j), f)
  {
    JourneyRecords(j);
    forall f: Factor ensures f in FactorSet(RunJourney(j).value.verified) <==> Presented(Specs(j), f) {
      LedgerFactors(Specs(j), RunJourney(j).value, f);
    }
  }

  /** The session a login yields, in terms of the login alone. */
  predicate AdmittedFrom(j: Journey, st: AccountState, mfa: MfaDecision, now: Time, a: SessionAttrs) {
    && Root(j).Started?
    && a.subject.tenant == Root(j).tenant && !a.subject.NoUser()
    && (forall s | s in Specs(j) :: s.subject == a.subject && s.at < Root(j).now + PENDING_TTL)
    && SameEpoch(States(j) + [st], a.epoch) && st.Usable()
    && Sorted(a.factors) && (forall f :: f in a.factors <==> Presented(Specs(j), f))
    && HasRole(a.factors, Primary) && (mfa.Required() ==> MultiFactor(a.factors))
    && a.remember == Remembered(Root(j).policy, Root(j).remember)
    && a.returnTo == Root(j).returnTo && a.transport == Root(j).transport
    && a.mustChange == st.mustChange && a.createdAt == now && a.claimsFetchedAt == now
    && now < Root(j).now + PENDING_TTL
  }

  lemma {:induction false} NewSessionOf(p: Pending, st: AccountState, mfa: MfaDecision, now: Time, id: NewLineage)
    requires AdmitSession(p, st, mfa, now, id).Ok?
    ensures var fs := FactorSet(p.verified);
      && AdmitRefusal(p, fs, st, mfa, now).None? && (mfa.Required() ==> MultiFactor(fs))
      && AdmitSession(p, st, mfa, now, id).value == NewSession(p, fs, st, now, id)
  {
  }

  lemma LedgerSubjects(specs: seq<VerifiedSpec>, p: Pending)
    requires Ledger(specs, p)
    ensures forall s | s in specs :: s.subject == p.subject && s.at < p.expiresAt
  {
  }

  lemma {:induction false} AdmittedValues(j: Journey, p: Pending, fs: seq<Factor>, st: AccountState, mfa: MfaDecision, now: Time, id: NewLineage)
    requires Records(j, p) && SoundPending(p) && Sorted(fs) && (forall f :: f in fs <==> Presented(Specs(j), f))
    requires AdmitRefusal(p, fs, st, mfa, now).None? && (mfa.Required() ==> MultiFactor(fs))
    ensures AdmittedFrom(j, st, mfa, now, NewSession(p, fs, st, now, id))
  {
    LedgerSubjects(Specs(j), p);
  }

  /** Every admitted session is of one subject, tenant and epoch, with exactly the factors presented. */
  lemma {:induction false} AdmissionSafety(j: Journey, st: AccountState, mfa: MfaDecision, now: Time, id: NewLineage)
    requires RunLineage(Admitted(j, st, mfa, now, id)).Ok?
    ensures AdmittedFrom(j, st, mfa, now, RunLineage(Admitted(j, st, mfa, now, id)).value)
  {
    var p := RunJourney(j).value;
    JourneyRecords(j);
    JourneySound(j);
    JourneyFactors(j);
    NewSessionOf(p, st, mfa, now, id);
    FactorSetSound(p);
    AdmittedValues(j, p, FactorSet(p.verified), st, mfa, now, id);
  }

  lemma {:induction false} RootDecides(j: Journey)
    requires RunJourney(j).Ok?
    ensures Root(j).Started? <==> RunJourney(j).value.reauthOf == NIL_UUID
  {
    JourneyRecords(j);
  }

  lemma {:induction false} OnlyLoginsAdmit(p: Pending, st: AccountState, mfa: MfaDecision, now: Time, id: NewLineage)
    ensures AdmitSession(p, st, mfa, now, id).Ok? ==> p.reauthOf == NIL_UUID
  {
  }

  lemma OnlyReauthsRefresh(a: SessionAttrs, p: Pending, st: AccountState, mfa: MfaDecision, now: Time)
    ensures Reauthenticate(a, p, st, mfa, now).Ok? ==> p.reauthOf != NIL_UUID
  {
  }

  /** A reauthentication never starts a session, and a login never reauthenticates one. */
  lemma {:induction false} JourneysStayApart(j: Journey, prev: Lineage, st: AccountState, mfa: MfaDecision, now: Time, id: NewLineage)
    ensures Root(j).Reauthing? ==> RunLineage(Admitted(j, st, mfa, now, id)).Err?
    ensures Root(j).Started? ==> RunLineage(Reauthenticated(prev, j, st, mfa, now)).Err?
  {
    if RunJourney(j).Ok? {
      RootDecides(j);
      OnlyLoginsAdmit(RunJourney(j).value, st, mfa, now, id);
      if RunLineage(prev).Ok? {
        OnlyReauthsRefresh(RunLineage(prev).value, RunJourney(j).value, st, mfa, now);
      }
    }
  }

  // ---- Strength -----------------------------------------------------------------------------

  predicate PresentedPrimary(specs: seq<VerifiedSpec>) {
    exists s | s in specs :: ProvesPrimary(s.factors)
  }

  predicate PresentedSecond(specs: seq<VerifiedSpec>) {
    exists s | s in specs :: ProvesSecond(s.factors)
  }

  predicate PresentedPasskey(specs: seq<VerifiedSpec>) {
    exists s | s in specs :: Passkey in s.factors
  }

  /** A primary with a second verification, or one passkey, which always carries user verification. */
  predicate StronglyPresented(specs: seq<VerifiedSpec>) {
    (PresentedPrimary(specs) && PresentedSecond(specs)) || PresentedPasskey(specs)
  }

  lemma ShapeRoles(fs: seq<Factor>)
    requires ProvesSecond(fs) || ProvesPrimary(fs)
    ensures HasRole(fs, Primary) <==> ProvesPrimary(fs)
    ensures HasRole(fs, Second) <==> ProvesSecond(fs)
    ensures UserVerification in fs <==> Passkey in fs
    ensures MultiFactor(fs) <==> Passkey in fs
  {
    if |fs| == 1 {
      assert fs[0] in fs;
    }
  }

  lemma PresentedRoles(specs: seq<VerifiedSpec>, fs: seq<Factor>)
    requires forall s | s in specs :: ProvesSecond(s.factors) || ProvesPrimary(s.factors)
    requires forall f :: f in fs <==> Presented(specs, f)
    ensures HasRole(fs, Primary) <==> PresentedPrimary(specs)
    ensures HasRole(fs, Second) <==> PresentedSecond(specs)
    ensures UserVerification in fs <==> Passkey in fs
    ensures Passkey in fs <==> PresentedPasskey(specs)
  {
    forall s | s in specs
      ensures HasRole(s.factors, Primary) <==> ProvesPrimary(s.factors)
      ensures HasRole(s.factors, Second) <==> ProvesSecond(s.factors)
      ensures UserVerification in s.factors <==> Passkey in s.factors
    {
      ShapeRoles(s.factors);
    }
    RoleOfUnion(specs, fs, Primary);
    RoleOfUnion(specs, fs, Second);
    assert Passkey in fs <==> Presented(specs, Passkey);
    assert UserVerification in fs <==> Presented(specs, UserVerification);
  }

  lemma RoleOfUnion(specs: seq<VerifiedSpec>, fs: seq<Factor>, r: Role)
    requires forall f :: f in fs <==> Presented(specs, f)
    ensures HasRole(fs, r) <==> exists s | s in specs :: HasRole(s.factors, r)
  {
    if HasRole(fs, r) {
      var f :| f in fs && RoleOf(f) == r;
      assert Presented(specs, f);
      var s :| s in specs && f in s.factors;
      assert HasRole(s.factors, r);
    }
    if s :| s in specs && HasRole(s.factors, r) {
      var f :| f in s.factors && RoleOf(f) == r;
      assert Presented(specs, f);
    }
  }

  lemma LedgerShapes(specs: seq<VerifiedSpec>, p: Pending)
    requires Ledger(specs, p)
    ensures forall s | s in specs :: ProvesSecond(s.factors) || ProvesPrimary(s.factors)
  {
    forall s | s in specs ensures ProvesSecond(s.factors) || ProvesPrimary(s.factors) {
      var i :| 0 <= i < |specs| && specs[i] == s;
      assert Matches(specs[i], p.verified[i]);
    }
  }

  /** A journey is multi-factor exactly when it was presented strong verifications. */
  lemma {:induction false} JourneyStrength(j: Journey)
    requires RunJourney(j).Ok?
    ensures var fs := FactorSet(RunJourney(j).value.verified);
      && (HasRole(fs, Primary) <==> PresentedPrimary(Specs(j)))
      && (MultiFactor(fs) <==> StronglyPresented(Specs(j)))
  {
    JourneyRecords(j);
    JourneyFactors(j);
    LedgerShapes(Specs(j), RunJourney(j).value);
    PresentedRoles(Specs(j), FactorSet(RunJourney(j).value.verified));
  }

  /** What a login must satisfy to be admitted at once. */
  predicate Admissible(j: Journey, st: AccountState, mfa: MfaDecision, now: Time) {
    && Root(j).Started? && mfa.loaded && !IsZero(now) && now < Root(j).now + PENDING_TTL
    && st.Usable() && SameEpoch(States(j), st.epoch)
    && PresentedPrimary(Specs(j)) && (mfa.Required() ==> StronglyPresented(Specs(j)))
  }

  lemma {:induction false} AdmissibleValues(j: Journey, p: Pending, fs: seq<Factor>, st: AccountState, mfa: MfaDecision, now: Time)
    requires Records(j, p) && SoundPending(p)
    requires HasRole(fs, Primary) <==> PresentedPrimary(Specs(j))
    requires MultiFactor(fs) <==> StronglyPresented(Specs(j))
    ensures AdmitRefusal(p, fs, st, mfa, now).None? && (mfa.Required() ==> MultiFactor(fs)) <==>
      Admissible(j, st, mfa, now)
  {
    if Root(j).Started? && PresentedPrimary(Specs(j)) {
      var s :| s in Specs(j) && ProvesPrimary(s.factors);
      assert States(j) != [];
      assert States(j)[0] in States(j);
    }
  }

  /** A completed journey is admitted exactly when its history is admissible. */
  lemma {:induction false} AdmissionExact(j: Journey, st: AccountState, mfa: MfaDecision, now: Time, id: NewLineage)
    requires RunJourney(j).Ok?
    ensures RunLineage(Admitted(j, st, mfa, now, id)).Ok? <==> Admissible(j, st, mfa, now)
  {
    var p := RunJourney(j).value;
    JourneyRecords(j);
    JourneySound(j);
    JourneyStrength(j);
    AdmitExact(p, FactorSet(p.verified), st, mfa, now, id);
    AdmissibleValues(j, p, FactorSet(p.verified), st, mfa, now);
  }

  lemma {:induction false} AdmitExact(p: Pending, fs: seq<Factor>, st: AccountState, mfa: MfaDecision, now: Time, id: NewLineage)
    requires fs == FactorSet(p.verified)
    ensures AdmitSession(p, st, mfa, now, id).Ok? <==>
      AdmitRefusal(p, fs, st, mfa, now).None? && (mfa.Required() ==> MultiFactor(fs))
  {
  }
}
