/** Logins that still need a factor: what is parked, what is offered, and that the offer completes them. */
module Offers {
  import opened Prelude
  import opened Factors
  import opened Domain
  import opened Pendings
  import opened Sessions
  import opened Histories
  import opened Provenance
  import opened Acceptance
  import opened Refusals

  /** The decision for a user with these second factors. */
  function Decided(enrolled: seq<Factor>): MfaDecision {
    MfaDecision(true, Canon(Elems(enrolled)))
  }

  /** Admissible up to its strength, and not strong. */
  predicate Parks(j: Journey, st: AccountState, enrolled: seq<Factor>, now: Time) {
    && Root(j).Started? && !IsZero(now) && now < Root(j).now + PENDING_TTL
    && st.Usable() && SameEpoch(States(j), st.epoch) && PresentedPrimary(Specs(j))
    && enrolled != [] && !StronglyPresented(Specs(j))
  }

  lemma DecidedMembers(enrolled: seq<Factor>)
    ensures Sorted(Decided(enrolled).enrolled)
    ensures forall f :: f in Decided(enrolled).enrolled <==> f in enrolled
    ensures Decided(enrolled).enrolled != [] <==> enrolled != []
  {
    CanonEmpty(Elems(enrolled));
    forall f: Factor ensures f in Decided(enrolled).enrolled <==> f in enrolled {
      assert f in Elems(Canon(Elems(enrolled))) <==> f in Elems(enrolled);
    }
    assert enrolled != [] ==> enrolled[0] in Elems(enrolled);
  }

  lemma {:induction false} PresentedIsBound(j: Journey, p: Pending)
    requires Records(j, p) && PresentedPrimary(Specs(j))
    ensures States(j) != []
  {
  }

  lemma {:induction false} ParksOrNot(j: Journey, st: AccountState, enrolled: seq<Factor>, mfa: MfaDecision, now: Time)
    requires mfa.loaded && (mfa.enrolled != [] <==> enrolled != [])
    requires PresentedPrimary(Specs(j)) ==> States(j) != []
    ensures Parks(j, st, enrolled, now) <==>
      WhyNotAdmitted(j, st, mfa, now).None? && mfa.enrolled != [] && !StronglyPresented(Specs(j))
  {
  }

  lemma Offered(p: Pending, st: AccountState, mfa: MfaDecision, now: Time, id: NewLineage)
    ensures var r := Admit(p, st, mfa, now, id);
      r.Ok? && r.value.NeedsFactor? ==> r.value.pending == p && r.value.needs == mfa.enrolled
  {
  }

  /**
   * A login is asked for a factor exactly when only its strength is missing. It is then parked as it
   * is, and offered each enrolled factor once, in code order.
   */
  lemma {:induction false} ParkExact(j: Journey, st: AccountState, enrolled: seq<Factor>, now: Time, id: NewLineage)
    requires RunJourney(j).Ok?
    ensures var r := Admit(RunJourney(j).value, st, Decided(enrolled), now, id);
      && (r.Ok? && r.value.NeedsFactor? <==> Parks(j, st, enrolled, now))
      && (r.Ok? && r.value.NeedsFactor? ==>
            && r.value.pending == RunJourney(j).value && Sorted(r.value.needs)
            && forall f :: f in r.value.needs <==> f in enrolled)
  {
    var mfa := Decided(enrolled);
    DecidedMembers(enrolled);
    JourneyRecords(j);
    if PresentedPrimary(Specs(j)) {
      PresentedIsBound(j, RunJourney(j).value);
    }
    AdmissionAnswer(j, st, mfa, now, id);
    ParksOrNot(j, st, enrolled, mfa, now);
    Offered(RunJourney(j).value, st, mfa, now, id);
  }

  // ---- The offer completes the login --------------------------------------------------------

  lemma StrengthSnoc(specs: seq<VerifiedSpec>, s: VerifiedSpec)
    requires PresentedPrimary(specs) && !StronglyPresented(specs)
    ensures PresentedPrimary(specs + [s])
    ensures StronglyPresented(specs + [s]) <==> ProvesSecond(s.factors) || Passkey in s.factors
  {
    var all := specs + [s];
    var p :| p in specs && ProvesPrimary(p.factors);
    assert p in all && s in all;
    assert forall t | t in all :: t in specs || t == s;
  }

  /** One more accepted verification completes a parked login exactly when it is a second factor or a passkey. */
  lemma {:induction false} CompletionExact(j: Journey, spec: VerifiedSpec, seen: AccountState, st: AccountState, enrolled: seq<Factor>,
                                           now: Time, id: NewLineage)
    requires RunJourney(j).Ok? && Parks(j, st, enrolled, now) && RunJourney(Added(j, spec, seen)).Ok?
    ensures RunLineage(Admitted(Added(j, spec, seen), st, Decided(enrolled), now, id)).Ok? <==>
      seen.epoch == st.epoch && (ProvesSecond(spec.factors) || Passkey in spec.factors)
  {
    var k := Added(j, spec, seen);
    StrengthSnoc(Specs(j), spec);
    DecidedMembers(enrolled);
    assert States(k) == States(j) + [seen] && Specs(k) == Specs(j) + [spec] && Root(k) == Root(j);
    assert seen in States(k);
    AdmissionExact(k, st, Decided(enrolled), now, id);
  }

  /** The verification of one second factor; a step-up by passkey names its credential. */
  function Answer(s: Subject, f: Factor, key: Bytes, at: Time): VerifiedSpec {
    VerifiedSpec(s, [f], if f == PasskeyStepUp then key else [], false, [], at)
  }

  lemma AnswerIsGenuine(s: Subject, f: Factor, key: Bytes, at: Time)
    requires RoleOf(f) == Second && !s.NoUser() && !IsZero(at) && key != []
    ensures NewVerified(Answer(s, f, key, at)).Ok? && ProvesSecond(Answer(s, f, key, at).factors)
  {
  }

  lemma NothingToCross(specs: seq<VerifiedSpec>, spec: VerifiedSpec)
    requires !PresentedPasskey(specs) && Passkey !in spec.factors
    ensures forall s | s in specs :: !Crosses(s, spec)
  {
  }

  lemma {:induction false} ParkedIsBound(j: Journey, st: AccountState, enrolled: seq<Factor>, now: Time)
    requires RunJourney(j).Ok? && Parks(j, st, enrolled, now)
    ensures var p := RunJourney(j).value;
      p.Bound() && p.epochAtBind == st.epoch && p.expiresAt == Root(j).now + PENDING_TTL && p.subject.tenant == p.tenant
  {
    var p := RunJourney(j).value;
    JourneyRecords(j);
    JourneySound(j);
    PresentedIsBound(j, p);
    assert States(j)[0] in States(j);
  }

  lemma {:induction false} AnswerIsAccepted(j: Journey, f: Factor, key: Bytes, at: Time, seen: AccountState, st: AccountState,
                                            enrolled: seq<Factor>, now: Time)
    requires RunJourney(j).Ok? && Parks(j, st, enrolled, now)
    requires RoleOf(f) == Second && key != [] && !IsZero(at) && at < Root(j).now + PENDING_TTL && seen.epoch == st.epoch
    ensures RunJourney(Added(j, Answer(RunJourney(j).value.subject, f, key, at), seen)).Ok?
  {
    var p := RunJourney(j).value;
    var spec := Answer(p.subject, f, key, at);
    ParkedIsBound(j, st, enrolled, now);
    AnswerIsGenuine(p.subject, f, key, at);
    NothingToCross(Specs(j), spec);
    assert Acceptable(j, p, spec, seen);
    AddExact(j, spec, seen);
  }

  /** Presenting any offered second factor, in time and at the same epoch, completes a parked login. */
  lemma {:induction false} OfferCompletes(j: Journey, f: Factor, key: Bytes, at: Time, seen: AccountState, st: AccountState,
                                          enrolled: seq<Factor>, now: Time, id: NewLineage)
    requires RunJourney(j).Ok? && Parks(j, st, enrolled, now) && f in enrolled && RoleOf(f) == Second
    requires key != [] && !IsZero(at) && at < Root(j).now + PENDING_TTL && seen.epoch == st.epoch
    ensures var k := Added(j, Answer(RunJourney(j).value.subject, f, key, at), seen);
      RunLineage(Admitted(k, st, Decided(enrolled), now, id)).Ok?
  {
    var spec := Answer(RunJourney(j).value.subject, f, key, at);
    AnswerIsAccepted(j, f, key, at, seen, st, enrolled, now);
    CompletionExact(j, spec, seen, st, enrolled, now, id);
  }

  /** What the stores say a user has enrolled; recovery codes come with any of the two. */
  function Enrolment(totp: bool, passkey: bool): seq<Factor> {
    (if totp then [Totp] else []) + (if passkey then [PasskeyStepUp] else [])
    + (if totp || passkey then [RecoveryCode] else [])
  }

  lemma EnrolmentIsSecond(totp: bool, passkey: bool, f: Factor)
    requires f in Enrolment(totp, passkey)
    ensures RoleOf(f) == Second
  {
  }

  /** With the enrolment that the stores give, whatever a login is offered completes it. */
  lemma {:induction false} EveryOfferCompletes(j: Journey, totp: bool, passkey: bool, st: AccountState, now: Time, id: NewLineage, f: Factor,
                                               key: Bytes, at: Time, seen: AccountState)
    requires RunJourney(j).Ok?
    requires var r := Admit(RunJourney(j).value, st, Decided(Enrolment(totp, passkey)), now, id);
      r.Ok? && r.value.NeedsFactor? && f in r.value.needs
    requires key != [] && !IsZero(at) && at < Root(j).now + PENDING_TTL && seen.epoch == st.epoch
    ensures var k := Added(j, Answer(RunJourney(j).value.subject, f, key, at), seen);
      RunLineage(Admitted(k, st, Decided(Enrolment(totp, passkey)), now, id)).Ok?
  {
    var enrolled := Enrolment(totp, passkey);
    ParkExact(j, st, enrolled, now, id);
    EnrolmentIsSecond(totp, passkey, f);
    OfferCompletes(j, f, key, at, seen, st, enrolled, now, id);
  }
}
