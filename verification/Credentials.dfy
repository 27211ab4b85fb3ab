/** A login passkey and a step-up passkey are to be different credentials: where that holds, and where not. */
module Credentials {
  import opened Prelude
  import opened Factors
  import opened Domain
  import opened Pendings
  import opened Sessions
  import opened Codec
  import opened Histories
  import opened Transparency
  import opened Provenance
  import opened Chronicle
  import opened Acceptance
  import opened Logins

  /** No credential serves both as the login passkey and as the step-up. */
  ghost predicate Disjoint(us: seq<CredentialUse>) {
    forall id: Bytes :: CredentialUse(Passkey, id) in us ==> CredentialUse(PasskeyStepUp, id) !in us
  }

  lemma UsesAppend(vs: seq<Verified>, v: Verified, u: CredentialUse)
    ensures u in CredentialUses(vs + [v]) <==>
      u in CredentialUses(vs) || (v.credentialId != [] && u.id == v.credentialId && u.factor in v.factors && IsPasskeyUse(u.factor))
  {
    assert (vs + [v])[..|vs|] == vs;
    UsesOfMembers(v.factors, v.credentialId, u);
  }

  lemma OnePasskeyRole(fs: seq<Factor>)
    requires ProvesSecond(fs) || ProvesPrimary(fs)
    ensures Passkey !in fs || PasskeyStepUp !in fs
  {
  }

  /** The uses a verification adds to those at hand. */
  ghost predicate Grows(us: seq<CredentialUse>, fs: seq<Factor>, id: Bytes, all: seq<CredentialUse>) {
    forall u :: u in all <==> u in us || (id != [] && u.id == id && u.factor in fs && IsPasskeyUse(u.factor))
  }

  lemma GrowsDisjoint(us: seq<CredentialUse>, fs: seq<Factor>, id: Bytes, all: seq<CredentialUse>)
    requires Disjoint(us) && Grows(us, fs, id, all) && (Passkey !in fs || PasskeyStepUp !in fs)
    requires forall f | f in fs :: !Clash(us, f, id)
    ensures Disjoint(all)
  {
    assert Passkey in fs ==> !Clash(us, Passkey, id);
    assert PasskeyStepUp in fs ==> !Clash(us, PasskeyStepUp, id);
  }

  lemma AddKeepsDisjoint(p: Pending, v: Verified)
    requires Disjoint(CredentialUses(p.verified)) && !ReusesCredential(p, v)
    requires ProvesSecond(v.factors) || ProvesPrimary(v.factors)
    ensures Disjoint(CredentialUses(p.verified + [v]))
  {
    OnePasskeyRole(v.factors);
    var us, all := CredentialUses(p.verified), CredentialUses(p.verified + [v]);
    assert Grows(us, v.factors, v.credentialId, all) by {
      forall u: CredentialUse {
        UsesAppend(p.verified, v, u);
      }
    }
    GrowsDisjoint(us, v.factors, v.credentialId, all);
  }

  lemma AddCredentials(p: Pending, spec: VerifiedSpec, st: AccountState)
    requires Disjoint(CredentialUses(p.verified)) && NewVerified(spec).Ok?
    ensures var r := Add(p, NewVerified(spec).value, st); r.Ok? ==> Disjoint(CredentialUses(r.value.verified))
  {
    var v := NewVerified(spec).value;
    if Add(p, v, st).Ok? {
      NewVerifiedSound(spec);
      AddKeepsDisjoint(p, v);
    }
  }

  /** In every journey the two roles use different credentials. */
  lemma {:induction false} JourneyCredentials(j: Journey)
    requires RunJourney(j).Ok?
    ensures Disjoint(CredentialUses(RunJourney(j).value.verified))
  {
    match j
    case Started(_, _, _, _, _, _) =>
    case Reauthing(_, _) =>
    case Bound(prev, s, st) => JourneyCredentials(prev);
    case Hashed(prev, hash) => JourneyCredentials(prev);
    case Added(prev, spec, st) =>
      JourneyCredentials(prev);
      AddCredentials(RunJourney(prev).value, spec, st);
    case Parked(prev) =>
      JourneyCredentials(prev);
      ParkedIsSame(prev);
  }

  /** So in every session just admitted. */
  lemma {:induction false} AdmittedCredentials(j: Journey, st: AccountState, mfa: MfaDecision, now: Time, id: NewLineage)
    requires RunLineage(Admitted(j, st, mfa, now, id)).Ok?
    ensures Disjoint(RunLineage(Admitted(j, st, mfa, now, id)).value.credentialIds)
  {
    JourneyCredentials(j);
    NewSessionOf(RunJourney(j).value, st, mfa, now, id);
  }

  predicate CrossedAt(us: seq<CredentialUse>, added: seq<CredentialUse>, id: Bytes) {
    || (CredentialUse(Passkey, id) in us && CredentialUse(PasskeyStepUp, id) in added)
    || (CredentialUse(PasskeyStepUp, id) in us && CredentialUse(Passkey, id) in added)
  }

  /** Some credential of one list is used in the other role by the other list. */
  ghost predicate Crossed(us: seq<CredentialUse>, added: seq<CredentialUse>) {
    exists id: Bytes :: CrossedAt(us, added, id)
  }

  lemma MergeDisjoint(us: seq<CredentialUse>, added: seq<CredentialUse>)
    requires Disjoint(added)
    ensures Disjoint(MergeUses(us, added)) <==> Disjoint(us) && !Crossed(us, added)
  {
    forall u: CredentialUse ensures u in MergeUses(us, added) <==> u in us || u in added {
      MergeMembers(us, added, u);
    }
    if id: Bytes :| CrossedAt(us, added, id) {
      assert CredentialUse(Passkey, id) in MergeUses(us, added);
      assert CredentialUse(PasskeyStepUp, id) in MergeUses(us, added);
    }
    forall id: Bytes | CredentialUse(Passkey, id) in us && CredentialUse(PasskeyStepUp, id) in us
      ensures CredentialUse(Passkey, id) in MergeUses(us, added) && CredentialUse(PasskeyStepUp, id) in MergeUses(us, added)
    {
    }
    if Disjoint(us) && !Crossed(us, added) {
      forall id: Bytes | CredentialUse(Passkey, id) in MergeUses(us, added)
        ensures CredentialUse(PasskeyStepUp, id) !in MergeUses(us, added)
      {
        assert !CrossedAt(us, added, id);
      }
    }
  }

  /**
   * After a reauthentication the roles are apart exactly when they were before and its journey crosses no
   * credential of the session: the journey is checked against itself only.
   */
  lemma {:induction false} ReauthenticationCredentials(prev: Lineage, j: Journey, st: AccountState, mfa: MfaDecision, now: Time)
    requires RunLineage(Reauthenticated(prev, j, st, mfa, now)).Ok?
    ensures Disjoint(RunLineage(Reauthenticated(prev, j, st, mfa, now)).value.credentialIds) <==>
      && Disjoint(RunLineage(prev).value.credentialIds)
      && !Crossed(RunLineage(prev).value.credentialIds, CredentialUses(RunJourney(j).value.verified))
  {
    JourneyCredentials(j);
    MergeDisjoint(RunLineage(prev).value.credentialIds, CredentialUses(RunJourney(j).value.verified));
  }

  // ---- Over whole lineages ------------------------------------------------------------------

  /** Presented in this role at the login or at some reauthentication. */
  predicate PresentedIn(h: Lineage, u: CredentialUse) {
    match h
    case Admitted(j, _, _, _, _) => UsePresented(Specs(j), u)
    case Reauthenticated(prev, j, _, _, _) => PresentedIn(prev, u) || UsePresented(Specs(j), u)
    case Enrolled(prev, _, _) => PresentedIn(prev, u)
    case Changed(prev, _, _) => PresentedIn(prev, u)
    case Renewed(prev, _, _, _, _) => PresentedIn(prev, u)
    case Persisted(prev) => PresentedIn(prev, u)
  }

  lemma {:induction false} JourneyUses(j: Journey, u: CredentialUse)
    requires RunJourney(j).Ok?
    ensures u in CredentialUses(RunJourney(j).value.verified) <==> UsePresented(Specs(j), u)
  {
    JourneyRecords(j);
    LedgerUses(Specs(j), RunJourney(j).value, u);
  }

  lemma RefreshedUses(a: SessionAttrs, p: Pending, st: AccountState, mfa: MfaDecision, now: Time, u: CredentialUse)
    requires Reauthenticate(a, p, st, mfa, now).Ok?
    ensures u in Reauthenticate(a, p, st, mfa, now).value.credentialIds <==>
      u in a.credentialIds || u in CredentialUses(p.verified)
  {
    MergeMembers(a.credentialIds, CredentialUses(p.verified), u);
  }

  lemma OtherStepsKeepUses(a: SessionAttrs, f: Factor, st: AccountState, mfa: MfaDecision, claims: Byte, now: Time)
    ensures FactorEnrolled(a, f, st).Ok? ==> FactorEnrolled(a, f, st).value.credentialIds == a.credentialIds
    ensures PasswordChanged(a, st, now).Ok? ==> PasswordChanged(a, st, now).value.credentialIds == a.credentialIds
    ensures Renew(a, st, mfa, claims, now).Ok? ==> Renew(a, st, mfa, claims, now).value.credentialIds == a.credentialIds
  {
  }

  /** A session records a passkey in a role exactly when it was presented in that role. */
  lemma {:induction false} LineageUses(h: Lineage, u: CredentialUse)
    requires RunLineage(h).Ok?
    ensures u in RunLineage(h).value.credentialIds <==> PresentedIn(h, u)
  {
    match h
    case Admitted(j, st, mfa, now, id) => AdmittedUses(j, st, mfa, now, id, u);
    case Reauthenticated(prev, j, st, mfa, now) =>
      LineageUses(prev, u);
      JourneyUses(j, u);
      RefreshedUses(RunLineage(prev).value, RunJourney(j).value, st, mfa, now, u);
    case Enrolled(prev, f, st) =>
      LineageUses(prev, u);
      OtherStepsKeepUses(RunLineage(prev).value, f, st, MfaDecision(false, []), 0, 0);
    case Changed(prev, st, now) =>
      LineageUses(prev, u);
      OtherStepsKeepUses(RunLineage(prev).value, NoFactor, st, MfaDecision(false, []), 0, now);
    case Renewed(prev, st, mfa, claims, now) =>
      LineageUses(prev, u);
      OtherStepsKeepUses(RunLineage(prev).value, NoFactor, st, mfa, claims, now);
    case Persisted(prev) =>
      LineageUses(prev, u);
      PersistedIsSame(prev);
  }

  /** The roles are apart in a session exactly when no credential was ever presented to it in both. */
  lemma {:induction false} LineageCredentials(h: Lineage)
    requires RunLineage(h).Ok?
    ensures Disjoint(RunLineage(h).value.credentialIds) <==>
      forall id: Bytes :: !(PresentedIn(h, CredentialUse(Passkey, id)) && PresentedIn(h, CredentialUse(PasskeyStepUp, id)))
  {
    forall id: Bytes
      ensures CredentialUse(Passkey, id) in RunLineage(h).value.credentialIds <==> PresentedIn(h, CredentialUse(Passkey, id))
      ensures CredentialUse(PasskeyStepUp, id) in RunLineage(h).value.credentialIds <==>
        PresentedIn(h, CredentialUse(PasskeyStepUp, id))
    {
      LineageUses(h, CredentialUse(Passkey, id));
      LineageUses(h, CredentialUse(PasskeyStepUp, id));
    }
  }

  // ---- The roles do not stay apart ----------------------------------------------------------

  /** A passkey asserted with user verification, as a reauthentication by passkey counts it. */
  function AssertionSpec(s: Subject, key: Bytes, now: Time): VerifiedSpec {
    VerifiedSpec(s, [Passkey, UserVerification], key, true, [], now)
  }

  function PasskeyReauth(h: Lineage, s: Subject, key: Bytes, st: AccountState, now: Time): Journey {
    Added(Reauthing(h, now), AssertionSpec(s, key, now), st)
  }

  lemma AssertionGenuine(s: Subject, key: Bytes, now: Time)
    requires !s.NoUser() && !IsZero(now) && key != []
    ensures NewVerified(AssertionSpec(s, key, now)).Ok?
  {
    assert ProvesPrimary([Passkey, UserVerification]);
  }

  lemma AssertionFits(h: Lineage, a: SessionAttrs, key: Bytes, st: AccountState, now: Time)
    requires WellFormedAttrs(a) && st.epoch == a.epoch
    ensures Acceptable(Reauthing(h, now), PendingForReauth(a, now), AssertionSpec(a.subject, key, now), st)
  {
  }

  lemma {:induction false} PasskeyReauthRuns(h: Lineage, a: SessionAttrs, key: Bytes, st: AccountState, now: Time)
    requires RunLineage(h) == Ok(a) && WellFormedAttrs(a) && st.epoch == a.epoch && !IsZero(now) && key != []
    ensures RunJourney(PasskeyReauth(h, a.subject, key, st, now)).Ok?
  {
    AssertionGenuine(a.subject, key, now);
    AssertionFits(h, a, key, st, now);
    AddExact(Reauthing(h, now), AssertionSpec(a.subject, key, now), st);
  }

  lemma {:induction false} PasskeyReauthSpecs(h: Lineage, s: Subject, key: Bytes, st: AccountState, now: Time)
    ensures var j := PasskeyReauth(h, s, key, st, now);
      && Root(j) == Reauthing(h, now) && Specs(j) == [AssertionSpec(s, key, now)]
      && PresentedPrimary(Specs(j)) && StronglyPresented(Specs(j)) && (key != [] ==> UsePresented(Specs(j), CredentialUse(Passkey, key)))
  {
    var spec := AssertionSpec(s, key, now);
    assert spec in [spec] && ProvesPrimary(spec.factors) && Passkey in spec.factors && UserVerification in spec.factors;
  }

  lemma {:induction false} PasskeyReauthenticates(h: Lineage, a: SessionAttrs, j: Journey, st: AccountState, mfa: MfaDecision, now: Time)
    requires RunLineage(h) == Ok(a) && RunJourney(j).Ok? && Root(j) == Reauthing(h, now)
    requires PresentedPrimary(Specs(j)) && StronglyPresented(Specs(j))
    requires st.Usable() && st.epoch == a.epoch && mfa.loaded && !IsZero(now)
    ensures RunLineage(Reauthenticated(h, j, st, mfa, now)).Ok?
  {
    ReauthenticationExact(h, j, st, mfa, now);
  }

  lemma {:induction false} BothRolesMeet(h: Lineage, key: Bytes)
    requires RunLineage(h).Ok?
    requires PresentedIn(h, CredentialUse(Passkey, key)) && PresentedIn(h, CredentialUse(PasskeyStepUp, key))
    ensures !Disjoint(RunLineage(h).value.credentialIds)
  {
    LineageUses(h, CredentialUse(Passkey, key));
    LineageUses(h, CredentialUse(PasskeyStepUp, key));
  }

  /**
   * Any session that was stepped up with a passkey, on a usable account at its epoch, can be
   * reauthenticated with that same passkey, which then stands in both roles.
   */
  lemma {:induction false} ReauthenticationMayReuse(h: Lineage, key: Bytes, st: AccountState, mfa: MfaDecision, now: Time)
    requires RunLineage(h).Ok? && CredentialUse(PasskeyStepUp, key) in RunLineage(h).value.credentialIds
    requires st.Usable() && st.epoch == RunLineage(h).value.epoch && mfa.loaded && !IsZero(now)
    ensures var j := PasskeyReauth(h, RunLineage(h).value.subject, key, st, now);
      var r := RunLineage(Reauthenticated(h, j, st, mfa, now)); r.Ok? && !Disjoint(r.value.credentialIds)
  {
    var a := RunLineage(h).value;
    LineageSound(h);
    assert GoodUse(a.factors, CredentialUse(PasskeyStepUp, key));
    var j := PasskeyReauth(h, a.subject, key, st, now);
    PasskeyReauthRuns(h, a, key, st, now);
    PasskeyReauthSpecs(h, a.subject, key, st, now);
    PasskeyReauthenticates(h, a, j, st, mfa, now);
    LineageUses(h, CredentialUse(PasskeyStepUp, key));
    BothRolesMeet(Reauthenticated(h, j, st, mfa, now), key);
  }

  lemma {:induction false} StepUpLoginHolds(s: Subject, tr: Transport, key: Bytes, t: Time, st: AccountState, mfa: MfaDecision,
                                            id: NewLineage)
    requires !s.NoUser() && !IsZero(t) && ValidTransport(tr) && key != [] && st.Usable() && mfa.loaded
    ensures var r := RunLineage(StepUpLogin(s, tr, key, t, st, mfa, id));
      r.Ok? && r.value.epoch == st.epoch && CredentialUse(PasskeyStepUp, key) in r.value.credentialIds
  {
    var j := StepUpJourney(s, tr, key, t, st);
    StepUpLoginAdmits(s, tr, key, t, st, mfa, id);
    StepUpSpecs(s, tr, key, t, st);
    assert StepUpSpec(s, key, t) in Specs(j) && PasskeyStepUp in StepUpSpec(s, key, t).factors;
    AdmittedUses(j, st, mfa, t, id, CredentialUse(PasskeyStepUp, key));
    NewSessionOf(RunJourney(j).value, st, mfa, t, id);
  }

  /** Such sessions exist: log in by password, step up with a passkey, reauthenticate with it. */
  lemma RolesMayMeet()
    ensures exists h :: RunLineage(h).Ok? && !Disjoint(RunLineage(h).value.credentialIds)
  {
    var s, st, mfa := Subject([], 1), AccountState(true, false, false, false, false, 0), MfaDecision(true, []);
    var h := StepUpLogin(s, 1, [0], 0, st, mfa, 1);
    StepUpLoginHolds(s, 1, [0], 0, st, mfa, 1);
    ReauthenticationMayReuse(h, [0], st, mfa, 0);
    var j := PasskeyReauth(h, RunLineage(h).value.subject, [0], st, 0);
    assert RunLineage(Reauthenticated(h, j, st, mfa, 0)).Ok?;
  }
}
