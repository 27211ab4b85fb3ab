/** Exactly which verifications, bindings and reauthentications a history accepts. */
module Acceptance {
  import opened Prelude
  import opened Factors
  import opened Domain
  import opened Pendings
  import opened Sessions
  import opened Codec
  import opened Histories
  import opened Transparency
  import opened Provenance
  import opened Chronicle

  // ---- Provider -----------------------------------------------------------------------------

  /** The one provider the verifications came through, or none. */
  predicate OneProvider(specs: seq<VerifiedSpec>, provider: Bytes) {
    && (forall s | s in specs :: s.provider == [] || s.provider == provider)
    && (provider != [] ==> exists s | s in specs :: s.provider == provider)
  }

  lemma OneProviderSnoc(specs: seq<VerifiedSpec>, provider: Bytes, s: VerifiedSpec)
    requires OneProvider(specs, provider) && (s.provider == [] || provider == [] || provider == s.provider)
    ensures OneProvider(specs + [s], if s.provider != [] then s.provider else provider)
  {
    var all := specs + [s];
    assert s in all;
    if s.provider == [] && provider != [] {
      var t :| t in specs && t.provider == provider;
      assert t in all;
    }
  }

  predicate ProviderTold(j: Journey, r: Result<Pending, Error>) {
    r.Ok? ==> OneProvider(Specs(j), r.value.provider)
  }

  lemma AddedProvider(p: Pending, spec: VerifiedSpec, st: AccountState)
    requires ThenAdd(Ok(p), spec, st).Ok?
    ensures spec.provider == [] || p.provider == [] || p.provider == spec.provider
    ensures ThenAdd(Ok(p), spec, st).value.provider == if spec.provider != [] then spec.provider else p.provider
  {
  }

  lemma {:induction false} AddProvider(j: Journey, r: Result<Pending, Error>, spec: VerifiedSpec, st: AccountState)
    requires ProviderTold(j, r)
    ensures ProviderTold(Added(j, spec, st), ThenAdd(r, spec, st))
  {
    if ThenAdd(r, spec, st).Ok? {
      AddedProvider(r.value, spec, st);
      OneProviderSnoc(Specs(j), r.value.provider, spec);
    }
  }

  /** A journey goes through at most one provider, and names it. */
  lemma {:induction false} JourneyProvider(j: Journey)
    ensures ProviderTold(j, RunJourney(j))
  {
    match j
    case Started(_, _, _, _, _, _) =>
    case Reauthing(_, _) =>
    case Bound(prev, s, st) => JourneyProvider(prev);
    case Hashed(prev, hash) => JourneyProvider(prev);
    case Added(prev, spec, st) =>
      JourneyProvider(prev);
      AddProvider(prev, RunJourney(prev), spec, st);
    case Parked(prev) =>
      JourneyProvider(prev);
      ParkedIsSame(prev);
  }

  // ---- Bind hash ----------------------------------------------------------------------------

  function Hashes(j: Journey): seq<Bytes> {
    match j
    case Started(_, _, _, _, _, _) => []
    case Reauthing(_, _) => []
    case Bound(prev, _, _) => Hashes(prev)
    case Hashed(prev, hash) => Hashes(prev) + [hash]
    case Added(prev, _, _) => Hashes(prev)
    case Parked(prev) => Hashes(prev)
  }

  predicate HashTold(j: Journey, r: Result<Pending, Error>) {
    r.Ok? ==> if Hashes(j) == [] then r.value.bindHash == []
              else Hashes(j) == [r.value.bindHash] && |r.value.bindHash| == BIND_HASH_LEN
  }

  /** The browser binding is set at most once in a journey, to a full-length hash, and never changes. */
  lemma {:induction false} JourneyHash(j: Journey)
    ensures HashTold(j, RunJourney(j))
  {
    match j
    case Started(_, _, _, _, _, _) =>
    case Reauthing(_, _) =>
    case Bound(prev, s, st) => JourneyHash(prev);
    case Hashed(prev, hash) => JourneyHash(prev);
    case Added(prev, spec, st) => JourneyHash(prev);
    case Parked(prev) =>
      JourneyHash(prev);
      ParkedIsSame(prev);
  }

  // ---- Binding and adding -------------------------------------------------------------------

  predicate Bindable(j: Journey, p: Pending, s: Subject) {
    Root(j).Started? && States(j) == [] && !s.NoUser() && s.tenant == p.tenant
  }

  lemma {:induction false} BindValues(j: Journey, p: Pending, s: Subject, st: AccountState)
    requires Records(j, p) && p.version != 0
    ensures Bind(p, s, st).Ok? <==> Bindable(j, p, s)
  {
  }

  /** An explicit binding works exactly once, at the start of a login, for a subject of the tenant. */
  lemma {:induction false} BindExact(prev: Journey, s: Subject, st: AccountState)
    requires RunJourney(prev).Ok?
    ensures RunJourney(Bound(prev, s, st)).Ok? <==> Bindable(prev, RunJourney(prev).value, s)
  {
    JourneyRecords(prev);
    JourneySound(prev);
    BindValues(prev, RunJourney(prev).value, s, st);
  }

  /** Two verifications that would use one passkey in both roles. */
  predicate Crosses(s: VerifiedSpec, t: VerifiedSpec) {
    s.credentialId != [] && s.credentialId == t.credentialId
    && ((Passkey in s.factors && PasskeyStepUp in t.factors) || (PasskeyStepUp in s.factors && Passkey in t.factors))
  }

  lemma ReuseIsCrossing(specs: seq<VerifiedSpec>, p: Pending, spec: VerifiedSpec, v: Verified)
    requires Ledger(specs, p) && Matches(spec, v)
    ensures ReusesCredential(p, v) <==> exists s | s in specs :: Crosses(s, spec)
  {
    LedgerUses(specs, p, CredentialUse(Passkey, v.credentialId));
    LedgerUses(specs, p, CredentialUse(PasskeyStepUp, v.credentialId));
    MatchedFactors(spec, v, Passkey);
    MatchedFactors(spec, v, PasskeyStepUp);
    var us := CredentialUses(p.verified);
    if exists s | s in specs :: Crosses(s, spec) {
      var s :| s in specs && Crosses(s, spec);
      if Passkey in s.factors && PasskeyStepUp in spec.factors {
        assert Clash(us, PasskeyStepUp, v.credentialId);
      } else {
        assert Clash(us, Passkey, v.credentialId);
      }
    }
    if ReusesCredential(p, v) {
      var f :| f in v.factors && Clash(us, f, v.credentialId);
      var u := if f == Passkey then CredentialUse(PasskeyStepUp, v.credentialId) else CredentialUse(Passkey, v.credentialId);
      assert UsePresented(specs, u);
      var s :| s in specs && s.credentialId == u.id && u.factor in s.factors;
      assert Crosses(s, spec);
    }
  }

  predicate SameProvider(specs: seq<VerifiedSpec>, spec: VerifiedSpec) {
    spec.provider == [] || forall s | s in specs :: s.provider == [] || s.provider == spec.provider
  }

  lemma ProviderAgrees(specs: seq<VerifiedSpec>, provider: Bytes, spec: VerifiedSpec)
    requires OneProvider(specs, provider)
    ensures spec.provider == [] || provider == [] || provider == spec.provider <==> SameProvider(specs, spec)
  {
  }

  /** Identifying when nothing is bound yet, else of the bound subject at the bound epoch. */
  predicate Continues(p: Pending, spec: VerifiedSpec, st: AccountState) {
    if p.Bound() then spec.subject == p.subject && st.epoch == p.epochAtBind
    else spec.identifies && !HasRole(spec.factors, Second)
  }

  predicate Acceptable(j: Journey, p: Pending, spec: VerifiedSpec, st: AccountState) {
    && spec.subject.tenant == p.tenant && spec.at < p.expiresAt && Continues(p, spec, st)
    && (forall s | s in Specs(j) :: !Crosses(s, spec)) && SameProvider(Specs(j), spec)
  }

  lemma AddRefusalExact(p: Pending, v: Verified, st: AccountState)
    requires p.version != 0 && v.factors != []
    ensures AddRefusal(p, v, st).None? <==>
      && v.subject.tenant == p.tenant && v.at < p.expiresAt
      && (if p.Bound() then v.subject == p.subject && st.epoch == p.epochAtBind
          else v.identifies && !HasRole(v.factors, Second))
      && !ReusesCredential(p, v) && (v.provider == [] || p.provider == [] || p.provider == v.provider)
  {
  }

  lemma {:induction false} AddValues(j: Journey, p: Pending, spec: VerifiedSpec, st: AccountState, v: Verified)
    requires Ledger(Specs(j), p) && p.version != 0 && OneProvider(Specs(j), p.provider) && Matches(spec, v)
    ensures AddRefusal(p, v, st).None? <==> Acceptable(j, p, spec, st)
  {
    ReuseIsCrossing(Specs(j), p, spec, v);
    ProviderAgrees(Specs(j), p.provider, spec);
    RolesMatch(spec, v);
    AddRefusalExact(p, v, st);
  }

  lemma ThenAddExact(p: Pending, spec: VerifiedSpec, st: AccountState)
    ensures ThenAdd(Ok(p), spec, st).Ok? <==>
      NewVerified(spec).Ok? && AddRefusal(p, NewVerified(spec).value, st).None?
  {
  }

  lemma RolesMatch(spec: VerifiedSpec, v: Verified)
    requires Matches(spec, v)
    ensures HasRole(v.factors, Second) <==> HasRole(spec.factors, Second)
    ensures v.factors != []
  {
    forall f: Factor ensures f in v.factors <==> f in spec.factors {
      MatchedFactors(spec, v, f);
    }
    NewVerifiedSound(spec);
  }

  lemma {:induction false} AddExactValues(j: Journey, p: Pending, spec: VerifiedSpec, st: AccountState)
    requires Ledger(Specs(j), p) && p.version != 0 && OneProvider(Specs(j), p.provider)
    ensures ThenAdd(Ok(p), spec, st).Ok? <==> NewVerified(spec).Ok? && Acceptable(j, p, spec, st)
  {
    ThenAddExact(p, spec, st);
    if NewVerified(spec).Ok? {
      AddValues(j, p, spec, st, NewVerified(spec).value);
    }
  }

  lemma {:induction false} JourneyFacts(j: Journey)
    requires RunJourney(j).Ok?
    ensures var p := RunJourney(j).value; Ledger(Specs(j), p) && p.version != 0 && OneProvider(Specs(j), p.provider)
  {
    JourneyRecords(j);
    JourneySound(j);
    JourneyProvider(j);
  }

  /** A verification is accepted exactly when it fits every earlier one of its journey. */
  lemma {:induction false} AddExact(prev: Journey, spec: VerifiedSpec, st: AccountState)
    requires RunJourney(prev).Ok?
    ensures RunJourney(Added(prev, spec, st)).Ok? <==>
      NewVerified(spec).Ok? && Acceptable(prev, RunJourney(prev).value, spec, st)
  {
    var p := RunJourney(prev).value;
    JourneyFacts(prev);
    AddExactValues(prev, p, spec, st);
    OneAdd(Added(prev, spec, st));
  }

  // ---- Reauthentication ---------------------------------------------------------------------

  /** A reauthentication of this very session, in time, by a primary factor, at one epoch, strong when required. */
  predicate Reauthenticates(a: SessionAttrs, b: SessionAttrs, r: Journey, specs: seq<VerifiedSpec>, st: AccountState,
                            mfa: MfaDecision, now: Time)
    requires r.Reauthing?
  {
    && b.lineage == a.lineage && b.subject == a.subject && st.Usable() && st.epoch == a.epoch == b.epoch
    && mfa.loaded && !IsZero(now) && now < r.now + PENDING_TTL
    && PresentedPrimary(specs) && (mfa.Required() ==> StronglyPresented(specs))
  }

  lemma {:induction false} ReauthValues(a: SessionAttrs, j: Journey, p: Pending, fs: seq<Factor>, st: AccountState, mfa: MfaDecision, now: Time)
    requires WellFormedAttrs(a) && Records(j, p) && SoundPending(p)
    requires HasRole(fs, Primary) <==> PresentedPrimary(Specs(j))
    requires MultiFactor(fs) <==> StronglyPresented(Specs(j))
    ensures ReauthRefusal(a, p, fs, st, mfa, now).None? <==>
      Root(j).Reauthing? && Reauthenticates(a, RunLineage(Root(j).session).value, Root(j), Specs(j), st, mfa, now)
  {
  }

  lemma {:induction false} ReauthenticationExact(prev: Lineage, j: Journey, st: AccountState, mfa: MfaDecision, now: Time)
    requires RunLineage(prev).Ok? && RunJourney(j).Ok?
    ensures RunLineage(Reauthenticated(prev, j, st, mfa, now)).Ok? <==>
      && Root(j).Reauthing? && RunLineage(Root(j).session).Ok?
      && Reauthenticates(RunLineage(prev).value, RunLineage(Root(j).session).value, Root(j), Specs(j), st, mfa, now)
  {
    LineageSound(prev);
    JourneyRecords(j);
    JourneySound(j);
    JourneyStrength(j);
    var p := RunJourney(j).value;
    ReauthValues(RunLineage(prev).value, j, p, FactorSet(p.verified), st, mfa, now);
  }
}
