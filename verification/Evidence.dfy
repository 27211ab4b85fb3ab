/** Sessions over their whole life: what is fixed, what is justified, what makes them fresh. */
module Evidence {
  import opened Prelude
  import opened Factors
  import opened Domain
  import opened Pendings
  import opened Sessions
  import opened Histories
  import opened Transparency
  import opened Provenance

  // ---- What a lineage keeps -----------------------------------------------------------------

  function Admission(h: Lineage): (r: Lineage)
    ensures r.Admitted?
  {
    match h
    case Admitted(_, _, _, _, _) => h
    case Reauthenticated(prev, _, _, _, _) => Admission(prev)
    case Enrolled(prev, _, _) => Admission(prev)
    case Changed(prev, _, _) => Admission(prev)
    case Renewed(prev, _, _, _, _) => Admission(prev)
    case Persisted(prev) => Admission(prev)
  }

  /** The security changes made by the session itself. */
  function OwnChanges(h: Lineage): nat {
    match h
    case Admitted(_, _, _, _, _) => 0
    case Reauthenticated(prev, _, _, _, _) => OwnChanges(prev)
    case Enrolled(prev, _, _) => OwnChanges(prev) + 1
    case Changed(prev, _, _) => OwnChanges(prev) + 1
    case Renewed(prev, _, _, _, _) => OwnChanges(prev)
    case Persisted(prev) => OwnChanges(prev)
  }

  predicate SameIdentity(a: SessionAttrs, b: SessionAttrs) {
    && a.version == b.version && a.lineage == b.lineage && a.subject == b.subject && a.remember == b.remember
    && a.returnTo == b.returnTo && a.transport == b.transport && a.provider == b.provider
    && a.createdAt == b.createdAt
  }

  /** The epoch after some increments, with 64-bit wrap-around. */
  function Bumped(e: U64, bumps: nat): U64 {
    if bumps == 0 then e else Succ(Bumped(e, bumps - 1))
  }

  lemma StepsKeepIdentity(a: SessionAttrs, p: Pending, f: Factor, st: AccountState, mfa: MfaDecision, claims: Byte, now: Time)
    ensures var r := Reauthenticate(a, p, st, mfa, now); r.Ok? ==> SameIdentity(a, r.value) && r.value.epoch == a.epoch
    ensures var r := Renew(a, st, mfa, claims, now); r.Ok? ==> SameIdentity(a, r.value) && r.value.epoch == a.epoch
    ensures var r := FactorEnrolled(a, f, st); r.Ok? ==> SameIdentity(a, r.value) && r.value.epoch == Succ(a.epoch)
    ensures var r := PasswordChanged(a, st, now); r.Ok? ==> SameIdentity(a, r.value) && r.value.epoch == Succ(a.epoch)
  {
  }

  /** One step of a lineage, of any kind, from a to n. */
  lemma {:induction false} StepStable(h: Lineage, prev: Lineage)
    requires RunLineage(h).Ok? && !h.Admitted? && prev == h.prev
    ensures RunLineage(prev).Ok?
    ensures var a, n := RunLineage(prev).value, RunLineage(h).value;
      SameIdentity(a, n) && if h.Enrolled? || h.Changed? then n.epoch == Succ(a.epoch) else n.epoch == a.epoch
  {
    var a := RunLineage(prev).value;
    match h
    case Reauthenticated(_, j, st, mfa, now) =>
      StepsKeepIdentity(a, RunJourney(j).value, NoFactor, st, mfa, 0, now);
    case Enrolled(_, f, st) =>
      StepsKeepIdentity(a, ZERO_PENDING, f, st, MfaDecision(false, []), 0, ZERO_TIME);
    case Changed(_, st, now) =>
      StepsKeepIdentity(a, ZERO_PENDING, NoFactor, st, MfaDecision(false, []), 0, now);
    case Renewed(_, st, mfa, claims, now) =>
      StepsKeepIdentity(a, ZERO_PENDING, NoFactor, st, mfa, claims, now);
    case Persisted(_) => PersistedIsSame(prev);
  }

  lemma {:induction false} AdmittedLineage(h: Lineage)
    requires h.Admitted? && RunLineage(h).Ok?
    ensures RunLineage(h).value.lineage == h.id
  {
    NewSessionOf(RunJourney(h.journey).value, h.st, h.mfa, h.now, h.id);
  }

  /** Each step keeps the identity and moves the epoch only for a security change. */
  ghost predicate StepwiseStable(run: Lineage -> Result<SessionAttrs, Error>) {
    forall h: Lineage | !h.Admitted? && run(h).Ok? ::
      && run(h.prev).Ok? && SameIdentity(run(h.prev).value, run(h).value)
      && run(h).value.epoch == var e := run(h.prev).value.epoch; if h.Enrolled? || h.Changed? then Succ(e) else e
  }

  lemma {:induction false} StableThroughout(h: Lineage, run: Lineage -> Result<SessionAttrs, Error>)
    requires StepwiseStable(run) && run(h).Ok?
    ensures run(Admission(h)).Ok?
    ensures SameIdentity(run(Admission(h)).value, run(h).value)
    ensures run(h).value.epoch == Bumped(run(Admission(h)).value.epoch, OwnChanges(h))
  {
    if !h.Admitted? {
      StableThroughout(h.prev, run);
    }
  }

  /**
   * Reauthentication, enrollment, password changes, renewal and storage keep the identity of a
   * session, and its epoch advances by one for each of its own security changes and by nothing else.
   */
  lemma {:induction false} LineageStable(h: Lineage)
    requires RunLineage(h).Ok?
    ensures RunLineage(Admission(h)).Ok?
    ensures var a0, a := RunLineage(Admission(h)).value, RunLineage(h).value;
      SameIdentity(a0, a) && a.lineage == Admission(h).id && a.epoch == Bumped(a0.epoch, OwnChanges(h))
  {
    forall g: Lineage | !g.Admitted? && RunLineage(g).Ok? {
      StepStable(g, g.prev);
    }
    StableThroughout(h, RunLineage);
    AdmittedLineage(Admission(h));
  }

  // ---- Factors ------------------------------------------------------------------------------

  /** Presented to the login or to a reauthentication, enrolled, or the password after a change. */
  predicate Justified(h: Lineage, f: Factor) {
    match h
    case Admitted(j, _, _, _, _) => Presented(Specs(j), f)
    case Reauthenticated(prev, j, _, _, _) => Justified(prev, f) || Presented(Specs(j), f)
    case Enrolled(prev, g, _) => Justified(prev, f) || f == g
    case Changed(prev, _, _) => Justified(prev, f) || f == Password
    case Renewed(prev, _, _, _, _) => Justified(prev, f)
    case Persisted(prev) => Justified(prev, f)
  }

  lemma ReauthenticatedFactors(a: SessionAttrs, p: Pending, st: AccountState, mfa: MfaDecision, now: Time, f: Factor)
    requires Reauthenticate(a, p, st, mfa, now).Ok?
    ensures f in Reauthenticate(a, p, st, mfa, now).value.factors <==> f in a.factors || f in FactorSet(p.verified)
  {
    UnionMembers(a.factors, FactorSet(p.verified), f);
  }

  lemma EnrolledFactors(a: SessionAttrs, g: Factor, st: AccountState, f: Factor)
    requires FactorEnrolled(a, g, st).Ok?
    ensures f in FactorEnrolled(a, g, st).value.factors <==> f in a.factors || f == g
  {
    UnionMembers(a.factors, [g], f);
  }

  lemma ChangedFactors(a: SessionAttrs, st: AccountState, now: Time, f: Factor)
    requires PasswordChanged(a, st, now).Ok?
    ensures f in PasswordChanged(a, st, now).value.factors <==> f in a.factors || f == Password
  {
    UnionMembers(a.factors, [Password], f);
  }

  lemma {:induction false} AdmittedFactors(j: Journey, st: AccountState, mfa: MfaDecision, now: Time, id: NewLineage, f: Factor)
    requires ThenAdmit(RunJourney(j), st, mfa, now, id).Ok?
    ensures f in ThenAdmit(RunJourney(j), st, mfa, now, id).value.factors <==> Presented(Specs(j), f)
  {
    JourneyFactors(j);
    NewSessionOf(RunJourney(j).value, st, mfa, now, id);
  }

  /** A session holds exactly its justified factors: none is lost, none appears by itself. */
  lemma {:induction false} FactorProvenance(h: Lineage, f: Factor)
    requires RunLineage(h).Ok?
    ensures f in RunLineage(h).value.factors <==> Justified(h, f)
  {
    match h
    case Admitted(j, st, mfa, now, id) => AdmittedFactors(j, st, mfa, now, id, f);
    case Reauthenticated(prev, j, st, mfa, now) =>
      FactorProvenance(prev, f);
      JourneyFactors(j);
      ReauthenticatedFactors(RunLineage(prev).value, RunJourney(j).value, st, mfa, now, f);
    case Enrolled(prev, g, st) =>
      FactorProvenance(prev, f);
      EnrolledFactors(RunLineage(prev).value, g, st, f);
    case Changed(prev, st, now) =>
      FactorProvenance(prev, f);
      ChangedFactors(RunLineage(prev).value, st, now, f);
    case Renewed(prev, st, mfa, claims, now) => FactorProvenance(prev, f);
    case Persisted(prev) =>
      FactorProvenance(prev, f);
      PersistedIsSame(prev);
  }

  // ---- Freshness ----------------------------------------------------------------------------

  /** Evidence of a primary factor is a primary verification; of a second one, that or a passkey. */
  predicate Proves(s: VerifiedSpec, k: Aspect) {
    match k
    case PrimaryAspect => ProvesPrimary(s.factors)
    case SecondAspect => ProvesSecond(s.factors) || Passkey in s.factors
  }

  predicate PresentedAt(specs: seq<VerifiedSpec>, k: Aspect, t: Time) {
    exists s | s in specs :: Proves(s, k) && s.at == t
  }

  /** Something in the life of the session proved aspect k at instant t. Enrolling and renewing do not. */
  predicate ProvedAt(h: Lineage, k: Aspect, t: Time) {
    match h
    case Admitted(j, _, _, _, _) => PresentedAt(Specs(j), k, t)
    case Reauthenticated(prev, j, _, _, _) => ProvedAt(prev, k, t) || PresentedAt(Specs(j), k, t)
    case Enrolled(prev, _, _) => ProvedAt(prev, k, t)
    case Changed(prev, _, now) => ProvedAt(prev, k, t) || (k == PrimaryAspect && t == now)
    case Renewed(prev, _, _, _, _) => ProvedAt(prev, k, t)
    case Persisted(prev) => ProvedAt(prev, k, t)
  }

  lemma LatestOfLedger(specs: seq<VerifiedSpec>, p: Pending, k: Aspect)
    requires Ledger(specs, p)
    ensures var t := Latest(p.verified, k); IsZero(t) || PresentedAt(specs, k, t)
  {
    var t := Latest(p.verified, k);
    LatestIsMaximum(p.verified, k);
    if !IsZero(t) {
      var v :| v in p.verified && Supplies(v, k) && v.at == t;
      var i :| 0 <= i < |p.verified| && p.verified[i] == v;
      SuppliesProves(specs[i], v, k);
      assert specs[i] in specs;
    }
  }

  lemma {:induction false} LatestIsPresented(j: Journey, k: Aspect)
    requires RunJourney(j).Ok?
    ensures var t := Latest(RunJourney(j).value.verified, k); IsZero(t) || PresentedAt(Specs(j), k, t)
  {
    JourneyRecords(j);
    LatestOfLedger(Specs(j), RunJourney(j).value, k);
  }

  lemma SuppliesProves(s: VerifiedSpec, v: Verified, k: Aspect)
    requires Matches(s, v)
    ensures Supplies(v, k) <==> Proves(s, k)
  {
    NewVerifiedSound(s);
    ShapeRoles(v.factors);
    ShapeOfCanon(s.factors);
    MatchedFactors(s, v, Passkey);
  }

  /** The instants a session carries are instants at which something was proved. */
  lemma {:induction false} InstantsAreProved(h: Lineage)
    requires RunLineage(h).Ok?
    ensures var a := RunLineage(h).value;
      && (IsZero(a.primaryAt) || ProvedAt(h, PrimaryAspect, a.primaryAt))
      && (IsZero(a.secondAt) || ProvedAt(h, SecondAspect, a.secondAt))
  {
    match h
    case Admitted(j, st, mfa, now, id) =>
      NewSessionOf(RunJourney(j).value, st, mfa, now, id);
      LatestIsPresented(j, PrimaryAspect);
      LatestIsPresented(j, SecondAspect);
    case Reauthenticated(prev, j, st, mfa, now) =>
      InstantsAreProved(prev);
      LatestIsPresented(j, PrimaryAspect);
      LatestIsPresented(j, SecondAspect);
    case Enrolled(prev, f, st) => InstantsAreProved(prev);
    case Changed(prev, st, now) => InstantsAreProved(prev);
    case Renewed(prev, st, mfa, claims, now) => InstantsAreProved(prev);
    case Persisted(prev) =>
      InstantsAreProved(prev);
      PersistedIsSame(prev);
  }

  /** No longer than d before now; the largest duration bounds nothing, because differences saturate at it. */
  predicate Recent(t: Time, d: Duration, now: Time) {
    d == MAX_I64 || now - t <= d
  }

  predicate NeedsSecond(a: SessionAttrs) {
    HasRole(a.factors, Second) || MultiFactor(a.factors)
  }

  /** Freshness in exact time: what the saturating comparison comes to. */
  lemma FreshnessExact(a: SessionAttrs, d: Duration, now: Time)
    ensures FreshWithin(a, d, now) <==>
      && d > 0 && !IsZero(a.primaryAt) && Recent(a.primaryAt, d, now)
      && (NeedsSecond(a) ==> !IsZero(a.secondAt) && Recent(a.secondAt, d, now))
  {
  }

  ghost predicate ProvedWithin(h: Lineage, k: Aspect, d: Duration, now: Time) {
    exists t: Time :: ProvedAt(h, k, t) && Recent(t, d, now)
  }

  /**
   * A fresh session has recent evidence of a primary factor and, when it holds a second or is
   * multi-factor, of a second one.
   */
  lemma {:induction false} FreshnessNeedsEvidence(h: Lineage, d: Duration, now: Time)
    requires RunLineage(h).Ok? && FreshWithin(RunLineage(h).value, d, now)
    ensures ProvedWithin(h, PrimaryAspect, d, now)
    ensures NeedsSecond(RunLineage(h).value) ==> ProvedWithin(h, SecondAspect, d, now)
  {
    var a := RunLineage(h).value;
    InstantsAreProved(h);
    FreshnessExact(a, d, now);
    assert ProvedAt(h, PrimaryAspect, a.primaryAt) && Recent(a.primaryAt, d, now);
    if NeedsSecond(a) {
      assert ProvedAt(h, SecondAspect, a.secondAt) && Recent(a.secondAt, d, now);
    }
  }
}
