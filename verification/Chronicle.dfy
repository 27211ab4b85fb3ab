/** The instants and flags of a session, exactly, as its history has it. */
module Chronicle {
  import opened Prelude
  import opened Factors
  import opened Domain
  import opened Pendings
  import opened Sessions
  import opened Histories
  import opened Transparency
  import opened Provenance
  import opened Evidence

  // ---- Instants -----------------------------------------------------------------------------

  /** When the presented verifications last proved an aspect, or the zero instant. */
  function LatestProof(specs: seq<VerifiedSpec>, k: Aspect): Time {
    if specs == [] then ZERO_TIME
    else
      var before, last := LatestProof(specs[..|specs| - 1], k), specs[|specs| - 1];
      if Proves(last, k) && last.at > before then last.at else before
  }

  lemma {:induction false} LatestMatches(specs: seq<VerifiedSpec>, vs: seq<Verified>, k: Aspect)
    requires |specs| == |vs| && forall i | 0 <= i < |specs| :: Matches(specs[i], vs[i])
    ensures Latest(vs, k) == LatestProof(specs, k)
  {
    if specs != [] {
      var n := |specs| - 1;
      LatestMatches(specs[..n], vs[..n], k);
      SuppliesProves(specs[n], vs[n], k);
    }
  }

  lemma {:induction false} JourneyLatest(j: Journey, k: Aspect)
    requires RunJourney(j).Ok?
    ensures Latest(RunJourney(j).value.verified, k) == LatestProof(Specs(j), k)
  {
    JourneyRecords(j);
    LatestMatches(Specs(j), RunJourney(j).value.verified, k);
  }

  /** When the session last proved a primary factor: its login, its last reauthentication or password change. */
  function PrimaryInstant(h: Lineage): Time {
    match h
    case Admitted(j, _, _, _, _) => LatestProof(Specs(j), PrimaryAspect)
    case Reauthenticated(_, j, _, _, _) => LatestProof(Specs(j), PrimaryAspect)
    case Enrolled(prev, _, _) => PrimaryInstant(prev)
    case Changed(_, _, now) => now
    case Renewed(prev, _, _, _, _) => PrimaryInstant(prev)
    case Persisted(prev) => PrimaryInstant(prev)
  }

  /** A reauthentication without a second factor keeps the earlier one's instant. */
  function SecondInstant(h: Lineage): Time {
    match h
    case Admitted(j, _, _, _, _) => LatestProof(Specs(j), SecondAspect)
    case Reauthenticated(prev, j, _, _, _) =>
      var t := LatestProof(Specs(j), SecondAspect);
      if IsZero(t) then SecondInstant(prev) else t
    case Enrolled(prev, _, _) => SecondInstant(prev)
    case Changed(prev, _, _) => SecondInstant(prev)
    case Renewed(prev, _, _, _, _) => SecondInstant(prev)
    case Persisted(prev) => SecondInstant(prev)
  }

  // ---- Flags --------------------------------------------------------------------------------

  /** The account states a session has seen since its last own password change. */
  function SeenSinceChange(h: Lineage): seq<AccountState> {
    match h
    case Admitted(_, st, _, _, _) => [st]
    case Reauthenticated(prev, _, st, _, _) => SeenSinceChange(prev) + [st]
    case Enrolled(prev, _, st) => SeenSinceChange(prev) + [st]
    case Changed(_, _, _) => []
    case Renewed(prev, st, _, _, _) => SeenSinceChange(prev) + [st]
    case Persisted(prev) => SeenSinceChange(prev)
  }

  predicate Demanded(states: seq<AccountState>) {
    exists st | st in states :: st.mustChange
  }

  /** When claims were last fetched: at the login, or at the last renewal that refreshed them. */
  function ClaimsInstant(h: Lineage): Time {
    match h
    case Admitted(_, _, _, now, _) => now
    case Reauthenticated(prev, _, _, _, _) => ClaimsInstant(prev)
    case Enrolled(prev, _, _) => ClaimsInstant(prev)
    case Changed(prev, _, _) => ClaimsInstant(prev)
    case Renewed(prev, _, _, claims, now) => if claims == CLAIMS_REFRESHED then now else ClaimsInstant(prev)
    case Persisted(prev) => ClaimsInstant(prev)
  }

  // ---- Exactness ----------------------------------------------------------------------------

  predicate Told(h: Lineage, a: SessionAttrs) {
    && a.primaryAt == PrimaryInstant(h) && a.secondAt == SecondInstant(h)
    && a.claimsFetchedAt == ClaimsInstant(h) && (a.mustChange <==> Demanded(SeenSinceChange(h)))
  }

  lemma DemandedSnoc(states: seq<AccountState>, st: AccountState)
    ensures Demanded(states + [st]) <==> Demanded(states) || st.mustChange
  {
    var all := states + [st];
    assert st in all;
    forall s | s in states ensures s in all {
    }
  }

  lemma {:induction false} AdmittedTold(j: Journey, st: AccountState, mfa: MfaDecision, now: Time, id: NewLineage)
    requires ThenAdmit(RunJourney(j), st, mfa, now, id).Ok?
    ensures Told(Admitted(j, st, mfa, now, id), ThenAdmit(RunJourney(j), st, mfa, now, id).value)
  {
    JourneyLatest(j, PrimaryAspect);
    JourneyLatest(j, SecondAspect);
    NewSessionOf(RunJourney(j).value, st, mfa, now, id);
    DemandedSnoc([], st);
    assert [] + [st] == [st];
  }

  lemma {:induction false} RefreshedTold(prev: Lineage, a: SessionAttrs, j: Journey, st: AccountState, mfa: MfaDecision, now: Time)
    requires Told(prev, a) && RunJourney(j).Ok? && Reauthenticate(a, RunJourney(j).value, st, mfa, now).Ok?
    ensures Told(Reauthenticated(prev, j, st, mfa, now), Reauthenticate(a, RunJourney(j).value, st, mfa, now).value)
  {
    JourneyLatest(j, PrimaryAspect);
    JourneyLatest(j, SecondAspect);
    DemandedSnoc(SeenSinceChange(prev), st);
  }

  lemma {:induction false} EnrolledTold(prev: Lineage, a: SessionAttrs, f: Factor, st: AccountState)
    requires Told(prev, a) && FactorEnrolled(a, f, st).Ok?
    ensures Told(Enrolled(prev, f, st), FactorEnrolled(a, f, st).value)
  {
    DemandedSnoc(SeenSinceChange(prev), st);
  }

  lemma {:induction false} ChangedTold(prev: Lineage, a: SessionAttrs, st: AccountState, now: Time)
    requires Told(prev, a) && PasswordChanged(a, st, now).Ok?
    ensures Told(Changed(prev, st, now), PasswordChanged(a, st, now).value)
  {
  }

  lemma {:induction false} RenewedTold(prev: Lineage, a: SessionAttrs, st: AccountState, mfa: MfaDecision, claims: Byte, now: Time)
    requires Told(prev, a) && Renew(a, st, mfa, claims, now).Ok?
    ensures Told(Renewed(prev, st, mfa, claims, now), Renew(a, st, mfa, claims, now).value)
  {
    DemandedSnoc(SeenSinceChange(prev), st);
  }

  lemma {:induction false} PersistedTold(prev: Lineage, a: SessionAttrs)
    requires Told(prev, a)
    ensures Told(Persisted(prev), a)
  {
  }

  /** Every session tells its history: when each aspect was last proved, what is still demanded, how old its claims are. */
  lemma {:induction false} LineageTold(h: Lineage)
    requires RunLineage(h).Ok?
    ensures Told(h, RunLineage(h).value)
  {
    match h
    case Admitted(j, st, mfa, now, id) => AdmittedTold(j, st, mfa, now, id);
    case Reauthenticated(prev, j, st, mfa, now) =>
      LineageTold(prev);
      RefreshedTold(prev, RunLineage(prev).value, j, st, mfa, now);
    case Enrolled(prev, f, st) =>
      LineageTold(prev);
      EnrolledTold(prev, RunLineage(prev).value, f, st);
    case Changed(prev, st, now) =>
      LineageTold(prev);
      ChangedTold(prev, RunLineage(prev).value, st, now);
    case Renewed(prev, st, mfa, claims, now) =>
      LineageTold(prev);
      RenewedTold(prev, RunLineage(prev).value, st, mfa, claims, now);
    case Persisted(prev) =>
      LineageTold(prev);
      PersistedIsSame(prev);
      PersistedTold(prev, RunLineage(prev).value);
  }

  /** So a session is fresh exactly when its history is. */
  lemma {:induction false} FreshnessOfHistory(h: Lineage, d: Duration, now: Time)
    requires RunLineage(h).Ok?
    ensures FreshWithin(RunLineage(h).value, d, now) <==>
      && d > 0 && !IsZero(PrimaryInstant(h)) && Recent(PrimaryInstant(h), d, now)
      && (NeedsSecond(RunLineage(h).value) ==> !IsZero(SecondInstant(h)) && Recent(SecondInstant(h), d, now))
  {
    LineageTold(h);
    FreshnessExact(RunLineage(h).value, d, now);
  }

  // ---- Credentials and provider of a login --------------------------------------------------

  /** A passkey role under which a verification was presented. */
  predicate UsePresented(specs: seq<VerifiedSpec>, u: CredentialUse) {
    u.id != [] && IsPasskeyUse(u.factor) && exists s | s in specs :: s.credentialId == u.id && u.factor in s.factors
  }

  lemma LedgerUses(specs: seq<VerifiedSpec>, p: Pending, u: CredentialUse)
    requires Ledger(specs, p)
    ensures u in CredentialUses(p.verified) <==> UsePresented(specs, u)
  {
    CredentialUsesMembers(p.verified, u);
    forall i | 0 <= i < |specs|
      ensures p.verified[i].credentialId == specs[i].credentialId
      ensures u.factor in p.verified[i].factors <==> u.factor in specs[i].factors
    {
      assert Matches(specs[i], p.verified[i]);
      MatchedFactors(specs[i], p.verified[i], u.factor);
    }
    if u in CredentialUses(p.verified) {
      var v :| v in p.verified && u.id != [] && v.credentialId == u.id && u.factor in v.factors && IsPasskeyUse(u.factor);
      var i :| 0 <= i < |specs| && p.verified[i] == v;
      assert specs[i] in specs;
    }
    if UsePresented(specs, u) {
      var s :| s in specs && s.credentialId == u.id && u.factor in s.factors;
      var i :| 0 <= i < |specs| && specs[i] == s;
      assert p.verified[i] in p.verified;
    }
  }

  /** An admitted session records exactly the passkeys that were presented. */
  lemma {:induction false} AdmittedUses(j: Journey, st: AccountState, mfa: MfaDecision, now: Time, id: NewLineage, u: CredentialUse)
    requires RunLineage(Admitted(j, st, mfa, now, id)).Ok?
    ensures u in RunLineage(Admitted(j, st, mfa, now, id)).value.credentialIds <==> UsePresented(Specs(j), u)
  {
    JourneyRecords(j);
    NewSessionOf(RunJourney(j).value, st, mfa, now, id);
    LedgerUses(Specs(j), RunJourney(j).value, u);
  }
}
