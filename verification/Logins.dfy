/** Logins that go through, and what they show about freshness within the largest duration. */
module Logins {
  import opened Prelude
  import opened Factors
  import opened Domain
  import opened Pendings
  import opened Sessions
  import opened Histories
  import opened Provenance
  import opened Evidence
  import opened Chronicle
  import opened Acceptance

  // ---- By password --------------------------------------------------------------------------

  function PasswordSpec(s: Subject, t: Time): VerifiedSpec {
    VerifiedSpec(s, [Password], [], true, [], t)
  }

  function LoginStart(s: Subject, tr: Transport, t: Time): Journey {
    Started(s.tenant, REMEMBER_DECLINED, [], tr, REMEMBER_USER_CHOICE, t)
  }

  lemma PasswordAccepted(s: Subject, tr: Transport, t: Time, st: AccountState)
    requires !s.NoUser() && !IsZero(t) && ValidTransport(tr)
    ensures RunJourney(LoginStart(s, tr, t)).Ok?
    ensures RunJourney(Added(LoginStart(s, tr, t), PasswordSpec(s, t), st)).Ok?
  {
    var start, spec := LoginStart(s, tr, t), PasswordSpec(s, t);
    assert NewVerified(spec).Ok?;
    assert !HasRole([Password], Second);
    assert Acceptable(start, RunJourney(start).value, spec, st);
    AddExact(start, spec, st);
  }

  lemma PasswordAdmissible(s: Subject, tr: Transport, t: Time, st: AccountState)
    requires !IsZero(t) && st.Usable()
    ensures Admissible(Added(LoginStart(s, tr, t), PasswordSpec(s, t), st), st, MfaDecision(true, []), t)
  {
    var j := Added(LoginStart(s, tr, t), PasswordSpec(s, t), st);
    assert Specs(j) == [PasswordSpec(s, t)] && PasswordSpec(s, t) in Specs(j);
    assert States(j) == [st];
    assert ProvesPrimary([Password]);
  }

  /** Any user with a usable account and no second factor can log in with a password, at any time. */
  lemma {:induction false} PasswordLoginAdmits(s: Subject, tr: Transport, t: Time, st: AccountState, id: NewLineage)
    requires !s.NoUser() && !IsZero(t) && ValidTransport(tr) && st.Usable()
    ensures RunLineage(Admitted(Added(LoginStart(s, tr, t), PasswordSpec(s, t), st), st, MfaDecision(true, []), t, id)).Ok?
  {
    PasswordAccepted(s, tr, t, st);
    PasswordAdmissible(s, tr, t, st);
    AdmissionExact(Added(LoginStart(s, tr, t), PasswordSpec(s, t), st), st, MfaDecision(true, []), t, id);
  }

  // ---- By password, stepped up with a passkey -----------------------------------------------

  function StepUpSpec(s: Subject, key: Bytes, t: Time): VerifiedSpec {
    VerifiedSpec(s, [PasskeyStepUp], key, false, [], t)
  }

  function StepUpJourney(s: Subject, tr: Transport, key: Bytes, t: Time, st: AccountState): Journey {
    Added(Added(LoginStart(s, tr, t), PasswordSpec(s, t), st), StepUpSpec(s, key, t), st)
  }

  function StepUpLogin(s: Subject, tr: Transport, key: Bytes, t: Time, st: AccountState, mfa: MfaDecision, id: NewLineage)
    : Lineage
  {
    Admitted(StepUpJourney(s, tr, key, t, st), st, mfa, t, id)
  }

  lemma StepUpGenuine(s: Subject, key: Bytes, t: Time)
    requires !s.NoUser() && !IsZero(t) && key != []
    ensures NewVerified(StepUpSpec(s, key, t)).Ok?
  {
    assert ProvesSecond([PasskeyStepUp]);
  }

  /** After the password the login is bound to its user, at the epoch seen. */
  lemma {:induction false} PasswordBinds(s: Subject, tr: Transport, t: Time, st: AccountState)
    requires !s.NoUser() && !IsZero(t) && ValidTransport(tr)
    ensures var r := RunJourney(Added(LoginStart(s, tr, t), PasswordSpec(s, t), st));
      && r.Ok? && r.value.Bound() && r.value.subject == s && r.value.tenant == s.tenant
      && r.value.epochAtBind == st.epoch && r.value.expiresAt == t + PENDING_TTL
  {
    var j := Added(LoginStart(s, tr, t), PasswordSpec(s, t), st);
    PasswordAccepted(s, tr, t, st);
    JourneyRecords(j);
    assert Specs(j) == [PasswordSpec(s, t)] && States(j) == [st];
    assert Specs(j)[0].subject == s && st in States(j);
  }

  lemma {:induction false} StepUpAccepted(s: Subject, tr: Transport, key: Bytes, t: Time, st: AccountState)
    requires !s.NoUser() && !IsZero(t) && ValidTransport(tr) && key != []
    ensures RunJourney(StepUpJourney(s, tr, key, t, st)).Ok?
  {
    var prev := Added(LoginStart(s, tr, t), PasswordSpec(s, t), st);
    PasswordBinds(s, tr, t, st);
    StepUpGenuine(s, key, t);
    assert Specs(prev) == [PasswordSpec(s, t)];
    assert Acceptable(prev, RunJourney(prev).value, StepUpSpec(s, key, t), st);
    AddExact(prev, StepUpSpec(s, key, t), st);
  }

  lemma {:induction false} StepUpSpecs(s: Subject, tr: Transport, key: Bytes, t: Time, st: AccountState)
    ensures Specs(StepUpJourney(s, tr, key, t, st)) == [PasswordSpec(s, t), StepUpSpec(s, key, t)]
    ensures States(StepUpJourney(s, tr, key, t, st)) == [st, st]
    ensures Root(StepUpJourney(s, tr, key, t, st)) == LoginStart(s, tr, t)
  {
    var prev := Added(LoginStart(s, tr, t), PasswordSpec(s, t), st);
    assert Root(prev) == LoginStart(s, tr, t);
    assert Specs(prev) == [PasswordSpec(s, t)] && States(prev) == [st];
  }

  lemma {:induction false} StepUpAdmissible(s: Subject, tr: Transport, key: Bytes, t: Time, st: AccountState, mfa: MfaDecision)
    requires !IsZero(t) && st.Usable() && mfa.loaded
    ensures Admissible(StepUpJourney(s, tr, key, t, st), st, mfa, t)
  {
    StepUpSpecs(s, tr, key, t, st);
    var specs := [PasswordSpec(s, t), StepUpSpec(s, key, t)];
    assert specs[0] in specs && ProvesPrimary(specs[0].factors);
    assert specs[1] in specs && ProvesSecond(specs[1].factors);
  }

  /** Any user with a usable account can log in by password and step up with a passkey, whatever is required. */
  lemma {:induction false} StepUpLoginAdmits(s: Subject, tr: Transport, key: Bytes, t: Time, st: AccountState, mfa: MfaDecision,
                                             id: NewLineage)
    requires !s.NoUser() && !IsZero(t) && ValidTransport(tr) && key != [] && st.Usable() && mfa.loaded
    ensures RunLineage(StepUpLogin(s, tr, key, t, st, mfa, id)).Ok?
  {
    StepUpAccepted(s, tr, key, t, st);
    StepUpAdmissible(s, tr, key, t, st, mfa);
    AdmissionExact(StepUpJourney(s, tr, key, t, st), st, mfa, t, id);
  }

  lemma LatestOfTwo(p: VerifiedSpec, q: VerifiedSpec, k: Aspect)
    ensures var before := if Proves(p, k) && p.at > ZERO_TIME then p.at else ZERO_TIME;
      LatestProof([p, q], k) == if Proves(q, k) && q.at > before then q.at else before
  {
    var one, two := [p], [p, q];
    assert one[..|one| - 1] == [] && two[..|two| - 1] == one;
    assert LatestProof(one, k) == if Proves(p, k) && p.at > ZERO_TIME then p.at else ZERO_TIME;
  }

  lemma TwoProofs(p: VerifiedSpec, q: VerifiedSpec, t: Time)
    requires ZERO_TIME < t && p.at == t == q.at && p.factors == [Password] && q.factors == [PasskeyStepUp]
    ensures LatestProof([p, q], PrimaryAspect) == t && LatestProof([p, q], SecondAspect) == t
  {
    LatestOfTwo(p, q, PrimaryAspect);
    LatestOfTwo(p, q, SecondAspect);
    assert ProvesPrimary([Password]) && ProvesSecond([PasskeyStepUp]);
  }

  lemma {:induction false} StepUpInstants(s: Subject, tr: Transport, key: Bytes, t: Time, st: AccountState, mfa: MfaDecision,
                                          id: NewLineage)
    requires ZERO_TIME < t
    ensures PrimaryInstant(StepUpLogin(s, tr, key, t, st, mfa, id)) == t
    ensures SecondInstant(StepUpLogin(s, tr, key, t, st, mfa, id)) == t
  {
    StepUpSpecs(s, tr, key, t, st);
    TwoProofs(PasswordSpec(s, t), StepUpSpec(s, key, t), t);
  }

  /** A session admitted on a second factor needs one to be fresh. */
  lemma {:induction false} PresentedNeedsSecond(j: Journey, st: AccountState, mfa: MfaDecision, now: Time, id: NewLineage,
                                                s: VerifiedSpec, f: Factor)
    requires RunLineage(Admitted(j, st, mfa, now, id)).Ok? && s in Specs(j) && f in s.factors && RoleOf(f) == Second
    ensures NeedsSecond(RunLineage(Admitted(j, st, mfa, now, id)).value)
  {
    AdmittedFactors(j, st, mfa, now, id, f);
  }

  // ---- What the largest duration bounds -----------------------------------------------------

  function PasswordLogin(s: Subject, tr: Transport, t: Time, st: AccountState, id: NewLineage): Lineage {
    Admitted(Added(LoginStart(s, tr, t), PasswordSpec(s, t), st), st, MfaDecision(true, []), t, id)
  }

  lemma {:induction false} PasswordInstant(s: Subject, tr: Transport, t: Time, st: AccountState, id: NewLineage)
    requires ZERO_TIME < t
    ensures PrimaryInstant(PasswordLogin(s, tr, t, st, id)) == t
  {
    var spec := PasswordSpec(s, t);
    assert Specs(Added(LoginStart(s, tr, t), spec, st)) == [spec];
    assert [spec][..0] == [] && ProvesPrimary([Password]);
    assert LatestProof([spec], PrimaryAspect) == t;
  }

  lemma OnlyPassword(a: SessionAttrs)
    requires forall f | f in a.factors :: f == Password
    ensures !NeedsSecond(a)
  {
  }

  /** A session admitted on a password alone needs no second factor to be fresh. */
  lemma {:induction false} PasswordAlone(j: Journey, st: AccountState, mfa: MfaDecision, now: Time, id: NewLineage, s: VerifiedSpec)
    requires RunLineage(Admitted(j, st, mfa, now, id)).Ok? && Specs(j) == [s] && s.factors == [Password]
    ensures !NeedsSecond(RunLineage(Admitted(j, st, mfa, now, id)).value)
  {
    var a := RunLineage(Admitted(j, st, mfa, now, id)).value;
    forall f | f in a.factors ensures f == Password {
      AdmittedFactors(j, st, mfa, now, id, f);
    }
    OnlyPassword(a);
  }

  /** A login by password, however long ago, is fresh within the largest duration. */
  lemma LargestDurationNeverEnds(s: Subject, tr: Transport, t: Time, st: AccountState, id: NewLineage, now: Time)
    requires !s.NoUser() && ZERO_TIME < t && ValidTransport(tr) && st.Usable()
    ensures var r := RunLineage(PasswordLogin(s, tr, t, st, id));
      r.Ok? && r.value.primaryAt == t && FreshWithin(r.value, MAX_I64, now)
  {
    var h := PasswordLogin(s, tr, t, st, id);
    PasswordLoginAdmits(s, tr, t, st, id);
    PasswordInstant(s, tr, t, st, id);
    PasswordAlone(h.journey, h.st, h.mfa, h.now, id, PasswordSpec(s, t));
    LineageTold(h);
    FreshnessOfHistory(h, MAX_I64, now);
  }

  /** Freshness within d says that the primary factor was proved no longer than d ago. */
  ghost predicate BoundsAge(d: Duration) {
    forall h: Lineage, now: Time | RunLineage(h).Ok? && FreshWithin(RunLineage(h).value, d, now) ::
      now - RunLineage(h).value.primaryAt <= d
  }

  /** It does so, for all sessions, exactly when d is below the largest duration. */
  lemma AgeBoundExact(d: Duration)
    ensures BoundsAge(d) <==> d < MAX_I64
  {
    if d < MAX_I64 {
      forall h: Lineage, now: Time | RunLineage(h).Ok? && FreshWithin(RunLineage(h).value, d, now)
        ensures now - RunLineage(h).value.primaryAt <= d
      {
        FreshnessExact(RunLineage(h).value, d, now);
      }
    } else {
      var s, st := Subject([], 1), AccountState(true, false, false, false, false, 0);
      LargestDurationNeverEnds(s, 1, 0, st, 1, d + 1);
      var h := PasswordLogin(s, 1, 0, st, 1);
      assert RunLineage(h).Ok? && FreshWithin(RunLineage(h).value, d, d + 1) && d + 1 - RunLineage(h).value.primaryAt > d;
    }
  }

  /** The same of the second factor, for sessions that hold one. */
  lemma StepUpNeverEnds(s: Subject, tr: Transport, key: Bytes, t: Time, st: AccountState, mfa: MfaDecision, id: NewLineage,
                        now: Time)
    requires !s.NoUser() && ZERO_TIME < t && ValidTransport(tr) && key != [] && st.Usable() && mfa.loaded
    ensures var r := RunLineage(StepUpLogin(s, tr, key, t, st, mfa, id));
      r.Ok? && NeedsSecond(r.value) && r.value.secondAt == t && FreshWithin(r.value, MAX_I64, now)
  {
    var h := StepUpLogin(s, tr, key, t, st, mfa, id);
    StepUpLoginAdmits(s, tr, key, t, st, mfa, id);
    StepUpInstants(s, tr, key, t, st, mfa, id);
    StepUpSpecs(s, tr, key, t, st);
    PresentedNeedsSecond(StepUpJourney(s, tr, key, t, st), st, mfa, t, id, StepUpSpec(s, key, t), PasskeyStepUp);
    LineageTold(h);
    FreshnessOfHistory(h, MAX_I64, now);
  }

  ghost predicate BoundsSecondAge(d: Duration) {
    forall h: Lineage, now: Time
      | RunLineage(h).Ok? && NeedsSecond(RunLineage(h).value) && FreshWithin(RunLineage(h).value, d, now) ::
      now - RunLineage(h).value.secondAt <= d
  }

  lemma SecondAgeBoundExact(d: Duration)
    ensures BoundsSecondAge(d) <==> d < MAX_I64
  {
    if d < MAX_I64 {
      forall h: Lineage, now: Time
        | RunLineage(h).Ok? && NeedsSecond(RunLineage(h).value) && FreshWithin(RunLineage(h).value, d, now)
        ensures now - RunLineage(h).value.secondAt <= d
      {
        FreshnessExact(RunLineage(h).value, d, now);
      }
    } else {
      var s, st, mfa := Subject([], 1), AccountState(true, false, false, false, false, 0), MfaDecision(true, []);
      StepUpNeverEnds(s, 1, [0], 0, st, mfa, 1, d + 1);
      var h := StepUpLogin(s, 1, [0], 0, st, mfa, 1);
      assert RunLineage(h).Ok? && NeedsSecond(RunLineage(h).value) && FreshWithin(RunLineage(h).value, d, d + 1);
      assert d + 1 - RunLineage(h).value.secondAt > d;
    }
  }
}
