/**
 * Every value of the state machine is the outcome of a history: the steps that built it, with
 * arbitrary arguments, and the places where it was sealed, stored and unsealed in between.
 */
module Histories {
  import opened Prelude
  import opened Factors
  import opened Domain
  import opened Pendings
  import opened Sessions
  import opened Codec
  import opened PendingCodec

  datatype Journey =
    | Started(tenant: TenantId, remember: Byte, returnTo: Bytes, transport: Transport, policy: Byte, now: Time)
    | Reauthing(session: Lineage, now: Time)
    | Bound(prev: Journey, subject: Subject, st: AccountState)
    | Hashed(prev: Journey, hash: Bytes)
    | Added(prev: Journey, spec: VerifiedSpec, st: AccountState)
    | Parked(prev: Journey)

  datatype Lineage =
    | Admitted(journey: Journey, st: AccountState, mfa: MfaDecision, now: Time, id: NewLineage)
    | Reauthenticated(prev: Lineage, journey: Journey, st: AccountState, mfa: MfaDecision, now: Time)
    | Enrolled(prev: Lineage, factor: Factor, st: AccountState)
    | Changed(prev: Lineage, st: AccountState, now: Time)
    | Renewed(prev: Lineage, st: AccountState, mfa: MfaDecision, claims: Byte, now: Time)
    | Persisted(prev: Lineage)

  function Restore<T, E>(sealed: Result<Bytes, E>, unseal: Bytes -> Result<T, E>): Result<T, E> {
    match sealed
    case Err(e) => Err(e)
    case Ok(b) => unseal(b)
  }

  /** An admission that must yield a session at once; a parked login continues as a longer journey. */
  function AdmitSession(p: Pending, st: AccountState, mfa: MfaDecision, now: Time, id: NewLineage)
    : Result<SessionAttrs, Error>
  {
    match Admit(p, st, mfa, now, id)
    case Err(e) => Err(e)
    case Ok(NeedsFactor(_, _)) => Err(FactorRequired)
    case Ok(Session(a)) => Ok(a)
  }

  // ---- One step of a history, on what the steps before it gave --------------------------------

  function ThenReauth(r: Result<SessionAttrs, Error>, now: Time): Result<Pending, Error> {
    match r
    case Err(e) => Err(e)
    case Ok(a) => Ok(PendingForReauth(a, now))
  }

  function ThenBind(r: Result<Pending, Error>, s: Subject, st: AccountState): Result<Pending, Error> {
    match r
    case Err(e) => Err(e)
    case Ok(p) => Bind(p, s, st)
  }

  function ThenHash(r: Result<Pending, Error>, hash: Bytes): Result<Pending, Error> {
    match r
    case Err(e) => Err(e)
    case Ok(p) => WithBindHash(p, hash)
  }

  function ThenAdd(r: Result<Pending, Error>, spec: VerifiedSpec, st: AccountState): Result<Pending, Error> {
    match r
    case Err(e) => Err(e)
    case Ok(p) =>
      match NewVerified(spec)
      case Err(e) => Err(e)
      case Ok(v) => Add(p, v, st)
  }

  function ThenPark(r: Result<Pending, Error>): Result<Pending, Error> {
    match r
    case Err(e) => Err(e)
    case Ok(p) => Restore(SealPending(p), UnsealPending)
  }

  function ThenAdmit(r: Result<Pending, Error>, st: AccountState, mfa: MfaDecision, now: Time, id: NewLineage)
    : Result<SessionAttrs, Error>
  {
    match r
    case Err(e) => Err(e)
    case Ok(p) => AdmitSession(p, st, mfa, now, id)
  }

  function ThenReauthenticate(
    r: Result<SessionAttrs, Error>, j: Result<Pending, Error>, st: AccountState, mfa: MfaDecision, now: Time)
    : Result<SessionAttrs, Error>
  {
    match r
    case Err(e) => Err(e)
    case Ok(a) =>
      match j
      case Err(e) => Err(e)
      case Ok(p) => Reauthenticate(a, p, st, mfa, now)
  }

  function ThenEnrol(r: Result<SessionAttrs, Error>, f: Factor, st: AccountState): Result<SessionAttrs, Error> {
    match r
    case Err(e) => Err(e)
    case Ok(a) => FactorEnrolled(a, f, st)
  }

  function ThenChange(r: Result<SessionAttrs, Error>, st: AccountState, now: Time): Result<SessionAttrs, Error> {
    match r
    case Err(e) => Err(e)
    case Ok(a) => PasswordChanged(a, st, now)
  }

  function ThenRenew(r: Result<SessionAttrs, Error>, st: AccountState, mfa: MfaDecision, claims: Byte, now: Time)
    : Result<SessionAttrs, Error>
  {
    match r
    case Err(e) => Err(e)
    case Ok(a) => Renew(a, st, mfa, claims, now)
  }

  function ThenPersist(r: Result<SessionAttrs, Error>): Result<SessionAttrs, Error> {
    match r
    case Err(e) => Err(e)
    case Ok(a) => Restore(SealAttrs(a), UnsealAttrs)
  }

  function RunJourney(h: Journey): Result<Pending, Error> {
    match h
    case Started(t, remember, returnTo, tr, policy, now) => NewPending(t, remember, returnTo, tr, policy, now)
    case Reauthing(s, now) => ThenReauth(RunLineage(s), now)
    case Bound(prev, s, st) => ThenBind(RunJourney(prev), s, st)
    case Hashed(prev, hash) => ThenHash(RunJourney(prev), hash)
    case Added(prev, spec, st) => ThenAdd(RunJourney(prev), spec, st)
    case Parked(prev) => ThenPark(RunJourney(prev))
  }

  function RunLineage(h: Lineage): Result<SessionAttrs, Error> {
    match h
    case Admitted(j, st, mfa, now, id) => ThenAdmit(RunJourney(j), st, mfa, now, id)
    case Reauthenticated(prev, j, st, mfa, now) => ThenReauthenticate(RunLineage(prev), RunJourney(j), st, mfa, now)
    case Enrolled(prev, f, st) => ThenEnrol(RunLineage(prev), f, st)
    case Changed(prev, st, now) => ThenChange(RunLineage(prev), st, now)
    case Renewed(prev, st, mfa, claims, now) => ThenRenew(RunLineage(prev), st, mfa, claims, now)
    case Persisted(prev) => ThenPersist(RunLineage(prev))
  }

  lemma {:induction false} OneAdd(j: Journey)
    requires j.Added?
    ensures RunJourney(j) == ThenAdd(RunJourney(j.prev), j.spec, j.st)
  {
  }

  lemma {:induction false} OneRenewal(g: Lineage)
    requires g.Renewed?
    ensures RunLineage(g) == ThenRenew(RunLineage(g.prev), g.st, g.mfa, g.claims, g.now)
  {
  }

  lemma {:induction false} OneEnrolment(g: Lineage)
    requires g.Enrolled?
    ensures RunLineage(g) == ThenEnrol(RunLineage(g.prev), g.factor, g.st)
  {
  }

  lemma {:induction false} OneChange(g: Lineage)
    requires g.Changed?
    ensures RunLineage(g) == ThenChange(RunLineage(g.prev), g.st, g.now)
  {
  }

  lemma {:induction false} OneReauthentication(g: Lineage)
    requires g.Reauthenticated?
    ensures RunLineage(g) == ThenReauthenticate(RunLineage(g.prev), RunJourney(g.journey), g.st, g.mfa, g.now)
  {
  }

  lemma {:induction false} OneHash(j: Journey)
    requires j.Hashed?
    ensures RunJourney(j) == ThenHash(RunJourney(j.prev), j.hash)
  {
  }

  lemma {:induction false} OneBinding(j: Journey)
    requires j.Bound?
    ensures RunJourney(j) == ThenBind(RunJourney(j.prev), j.subject, j.st)
  {
  }

  // ---- What every reachable value satisfies -------------------------------------------------

  /** Well-formed, except that the expiry may be the zero instant when the clock reads 15 minutes before it. */
  predicate SoundPending(p: Pending) {
    && p.version == CODEC_VERSION && ValidTransport(p.transport)
    && (p.verified != [] ==> p.Bound())
    && (p.subject == ZERO_SUBJECT || (p.Bound() && p.subject.tenant == p.tenant))
    && forall v | v in p.verified :: SoundVerified(p, v)
  }

  predicate SoundVerified(p: Pending, v: Verified) {
    Accumulated(p, v) && GoodVerified(v)
  }

  lemma SoundIsWellFormed(p: Pending)
    ensures WellFormedPending(p) <==> SoundPending(p) && !IsZero(p.expiresAt)
  {
    if WellFormedPending(p) {
      forall v | v in p.verified ensures SoundVerified(p, v) {
        assert Accumulated(p, v) && GoodVerified(v);
      }
    } else if SoundPending(p) && !IsZero(p.expiresAt) {
      forall v | v in p.verified ensures Accumulated(p, v) && GoodVerified(v) {
        assert SoundVerified(p, v);
      }
    }
  }

  lemma NewVerifiedSound(s: VerifiedSpec)
    requires NewVerified(s).Ok?
    ensures var v := NewVerified(s).value;
      && Sorted(v.factors) && Elems(v.factors) == Elems(s.factors) && !v.subject.NoUser()
      && VerifiedShape(v.factors, v.credentialId, v.identifies, v.provider)
  {
    var v := NewVerified(s).value;
    ShapeOfCanon(s.factors);
    assert forall f :: f in v.factors <==> f in Elems(v.factors);
  }

  // ---- Steps keep it ------------------------------------------------------------------------

  lemma NewPendingSound(t: TenantId, remember: Byte, returnTo: Bytes, tr: Transport, policy: Byte, now: Time)
    ensures var r := NewPending(t, remember, returnTo, tr, policy, now); r.Ok? ==> SoundPending(r.value)
  {
  }

  lemma ReauthSound(a: SessionAttrs, now: Time)
    requires WellFormedAttrs(a)
    ensures SoundPending(PendingForReauth(a, now))
  {
  }

  lemma BindSound(p: Pending, s: Subject, st: AccountState)
    requires SoundPending(p)
    ensures var r := Bind(p, s, st); r.Ok? ==> SoundPending(r.value)
  {
  }

  lemma WithBindHashSound(p: Pending, hash: Bytes)
    requires SoundPending(p)
    ensures var r := WithBindHash(p, hash); r.Ok? ==> SoundPending(r.value)
  {
    var r := WithBindHash(p, hash);
    if r.Ok? {
      forall v | v in r.value.verified ensures SoundVerified(r.value, v) {
        assert SoundVerified(p, v);
      }
    }
  }

  lemma AddSound(p: Pending, spec: VerifiedSpec, st: AccountState)
    requires SoundPending(p) && NewVerified(spec).Ok?
    ensures var r := Add(p, NewVerified(spec).value, st); r.Ok? ==> SoundPending(r.value)
  {
    NewVerifiedSound(spec);
    var w := NewVerified(spec).value;
    var r := Add(p, w, st);
    if r.Ok? {
      forall v | v in r.value.verified ensures SoundVerified(r.value, v) {
        assert v in p.verified ==> SoundVerified(p, v);
      }
    }
  }

  lemma UnsealedIsSound(b: Bytes)
    ensures UnsealPending(b).Ok? ==> SoundPending(UnsealPending(b).value)
    ensures UnsealAttrs(b).Ok? ==> WellFormedAttrs(UnsealAttrs(b).value)
  {
    if UnsealPending(b).Ok? {
      PendingCodecExact(b, UnsealPending(b).value);
      SoundIsWellFormed(UnsealPending(b).value);
    }
    if UnsealAttrs(b).Ok? {
      AttrsCodecExact(b, UnsealAttrs(b).value);
    }
  }

  lemma {:induction false} UsesOfMembers(fs: seq<Factor>, id: Bytes, u: CredentialUse)
    ensures u in UsesOf(fs, id) <==> u.id == id && u.factor in fs && IsPasskeyUse(u.factor)
  {
    if fs != [] {
      UsesOfMembers(fs[..|fs| - 1], id, u);
      assert fs == fs[..|fs| - 1] + [fs[|fs| - 1]];
    }
  }

  /** A use is recorded exactly for each passkey factor of a verification with a credential. */
  lemma {:induction false} CredentialUsesMembers(vs: seq<Verified>, u: CredentialUse)
    ensures u in CredentialUses(vs) <==>
      exists v | v in vs :: u.id != [] && v.credentialId == u.id && u.factor in v.factors && IsPasskeyUse(u.factor)
  {
    if vs != [] {
      var init, last := vs[..|vs| - 1], vs[|vs| - 1];
      assert vs == init + [last];
      CredentialUsesMembers(init, u);
      UsesOfMembers(last.factors, last.credentialId, u);
    }
  }

  lemma FactorSetMembers(vs: seq<Verified>, f: Factor)
    ensures f in FactorSet(vs) <==> exists v | v in vs :: f in v.factors
  {
    AllFactorsMembers(vs, f);
    assert f in FactorSet(vs) <==> f in Elems(FactorSet(vs));
  }

  lemma FactorSetSound(p: Pending)
    requires SoundPending(p)
    ensures Sorted(FactorSet(p.verified)) && NoFactor !in FactorSet(p.verified)
  {
    FactorSetMembers(p.verified, NoFactor);
    forall v | v in p.verified ensures NoFactor !in v.factors {
      assert SoundVerified(p, v);
      ShapeIsProper(v.factors);
    }
  }

  lemma CredentialUsesSound(p: Pending)
    requires SoundPending(p)
    ensures forall u | u in CredentialUses(p.verified) :: GoodUse(FactorSet(p.verified), u)
  {
    forall u | u in CredentialUses(p.verified) ensures GoodUse(FactorSet(p.verified), u) {
      CredentialUsesMembers(p.verified, u);
      FactorSetMembers(p.verified, u.factor);
    }
  }

  lemma {:induction false} NewSessionSound(p: Pending, fs: seq<Factor>, st: AccountState, mfa: MfaDecision, now: Time, id: NewLineage)
    requires Sorted(fs) && NoFactor !in fs && AdmitRefusal(p, fs, st, mfa, now).None?
    requires forall u | u in CredentialUses(p.verified) :: GoodUse(fs, u)
    ensures WellFormedAttrs(NewSession(p, fs, st, now, id))
  {
  }

  lemma {:induction false} AdmitSound(p: Pending, st: AccountState, mfa: MfaDecision, now: Time, id: NewLineage)
    requires SoundPending(p)
    ensures var r := AdmitSession(p, st, mfa, now, id); r.Ok? ==> WellFormedAttrs(r.value)
  {
    var fs := FactorSet(p.verified);
    if AdmitRefusal(p, fs, st, mfa, now).None? {
      FactorSetSound(p);
      CredentialUsesSound(p);
      NewSessionSound(p, fs, st, mfa, now, id);
    }
  }

  lemma UnionMembers(a: seq<Factor>, b: seq<Factor>, f: Factor)
    ensures f in Union(a, b) <==> f in a || f in b
  {
    assert f in Union(a, b) <==> f in Elems(Union(a, b));
  }

  lemma UnionSound(a: seq<Factor>, b: seq<Factor>)
    requires NoFactor !in a && NoFactor !in b && HasRole(a, Primary)
    ensures NoFactor !in Union(a, b) && HasRole(Union(a, b), Primary) && Sorted(Union(a, b))
    ensures forall f | f in a :: f in Union(a, b)
  {
    forall f: Factor ensures f in Union(a, b) <==> f in a || f in b {
      UnionMembers(a, b, f);
    }
  }

  lemma MergedUsesSound(fs: seq<Factor>, us: seq<CredentialUse>, gs: seq<Factor>, added: seq<CredentialUse>)
    requires forall u | u in us :: GoodUse(fs, u)
    requires forall u | u in added :: GoodUse(gs, u)
    ensures forall u | u in MergeUses(us, added) :: GoodUse(Union(fs, gs), u)
  {
    forall u | u in MergeUses(us, added) ensures GoodUse(Union(fs, gs), u) {
      MergeMembers(us, added, u);
      UnionMembers(fs, gs, u.factor);
    }
  }

  lemma RefreshedSound(a: SessionAttrs, p: Pending, fs: seq<Factor>, st: AccountState)
    requires WellFormedAttrs(a) && NoFactor !in fs
    requires forall u | u in CredentialUses(p.verified) :: GoodUse(fs, u)
    ensures WellFormedAttrs(Refreshed(a, p, fs, st))
  {
    UnionSound(a.factors, fs);
    MergedUsesSound(a.factors, a.credentialIds, fs, CredentialUses(p.verified));
  }

  lemma ReauthenticateSound(a: SessionAttrs, p: Pending, st: AccountState, mfa: MfaDecision, now: Time)
    requires WellFormedAttrs(a) && SoundPending(p)
    ensures var r := Reauthenticate(a, p, st, mfa, now); r.Ok? ==> WellFormedAttrs(r.value)
  {
    FactorSetSound(p);
    CredentialUsesSound(p);
    RefreshedSound(a, p, FactorSet(p.verified), st);
  }

  lemma GrownSound(a: SessionAttrs, n: SessionAttrs, f: Factor)
    requires WellFormedAttrs(a) && f != NoFactor && n.factors == Union(a.factors, [f])
    requires n.version == a.version && n.lineage == a.lineage && n.subject == a.subject
    requires n.transport == a.transport && n.credentialIds == a.credentialIds
    ensures WellFormedAttrs(n)
  {
    UnionSound(a.factors, [f]);
    forall u | u in n.credentialIds ensures GoodUse(n.factors, u) {
      assert GoodUse(a.factors, u);
    }
  }

  lemma ChangeSound(a: SessionAttrs, f: Factor, st: AccountState, now: Time)
    requires WellFormedAttrs(a)
    ensures FactorEnrolled(a, f, st).Ok? ==> WellFormedAttrs(FactorEnrolled(a, f, st).value)
    ensures PasswordChanged(a, st, now).Ok? ==> WellFormedAttrs(PasswordChanged(a, st, now).value)
  {
    if FactorEnrolled(a, f, st).Ok? {
      GrownSound(a, FactorEnrolled(a, f, st).value, f);
    }
    if PasswordChanged(a, st, now).Ok? {
      GrownSound(a, PasswordChanged(a, st, now).value, Password);
    }
  }

  lemma RenewSound(a: SessionAttrs, st: AccountState, mfa: MfaDecision, claims: Byte, now: Time)
    requires WellFormedAttrs(a)
    ensures var r := Renew(a, st, mfa, claims, now); r.Ok? ==> WellFormedAttrs(r.value)
  {
  }

  // ---- Histories keep it ----------------------------------------------------------------------

  predicate Sound(r: Result<Pending, Error>) {
    r.Ok? ==> SoundPending(r.value)
  }

  predicate WellFormed(r: Result<SessionAttrs, Error>) {
    r.Ok? ==> WellFormedAttrs(r.value)
  }

  lemma ThenReauthSound(r: Result<SessionAttrs, Error>, now: Time)
    requires WellFormed(r)
    ensures Sound(ThenReauth(r, now))
  {
    if r.Ok? {
      ReauthSound(r.value, now);
    }
  }

  lemma ThenBindSound(r: Result<Pending, Error>, s: Subject, st: AccountState)
    requires Sound(r)
    ensures Sound(ThenBind(r, s, st))
  {
    if r.Ok? {
      BindSound(r.value, s, st);
    }
  }

  lemma ThenHashSound(r: Result<Pending, Error>, hash: Bytes)
    requires Sound(r)
    ensures Sound(ThenHash(r, hash))
  {
    if r.Ok? {
      WithBindHashSound(r.value, hash);
    }
  }

  lemma ThenAddSound(r: Result<Pending, Error>, spec: VerifiedSpec, st: AccountState)
    requires Sound(r)
    ensures Sound(ThenAdd(r, spec, st))
  {
    if r.Ok? && NewVerified(spec).Ok? {
      AddSound(r.value, spec, st);
    }
  }

  lemma ThenParkSound(r: Result<Pending, Error>)
    ensures Sound(ThenPark(r))
  {
    if r.Ok? && SealPending(r.value).Ok? {
      UnsealedIsSound(SealPending(r.value).value);
    }
  }

  lemma {:induction false} ThenAdmitSound(r: Result<Pending, Error>, st: AccountState, mfa: MfaDecision, now: Time, id: NewLineage)
    requires Sound(r)
    ensures WellFormed(ThenAdmit(r, st, mfa, now, id))
  {
    if r.Ok? {
      AdmitSound(r.value, st, mfa, now, id);
    }
  }

  lemma ThenReauthenticateSound(
    r: Result<SessionAttrs, Error>, j: Result<Pending, Error>, st: AccountState, mfa: MfaDecision, now: Time)
    requires WellFormed(r) && Sound(j)
    ensures WellFormed(ThenReauthenticate(r, j, st, mfa, now))
  {
    if r.Ok? && j.Ok? {
      ReauthenticateSound(r.value, j.value, st, mfa, now);
    }
  }

  lemma ThenEnrolSound(r: Result<SessionAttrs, Error>, f: Factor, st: AccountState)
    requires WellFormed(r)
    ensures WellFormed(ThenEnrol(r, f, st))
  {
    if r.Ok? {
      ChangeSound(r.value, f, st, ZERO_TIME);
    }
  }

  lemma ThenChangeSound(r: Result<SessionAttrs, Error>, st: AccountState, now: Time)
    requires WellFormed(r)
    ensures WellFormed(ThenChange(r, st, now))
  {
    if r.Ok? {
      ChangeSound(r.value, NoFactor, st, now);
    }
  }

  lemma ThenRenewSound(r: Result<SessionAttrs, Error>, st: AccountState, mfa: MfaDecision, claims: Byte, now: Time)
    requires WellFormed(r)
    ensures WellFormed(ThenRenew(r, st, mfa, claims, now))
  {
    if r.Ok? {
      RenewSound(r.value, st, mfa, claims, now);
    }
  }

  lemma ThenPersistSound(r: Result<SessionAttrs, Error>)
    ensures WellFormed(ThenPersist(r))
  {
    if r.Ok? && SealAttrs(r.value).Ok? {
      UnsealedIsSound(SealAttrs(r.value).value);
    }
  }

  /** Every Pending of every journey is sound. */
  lemma {:induction false} JourneySound(h: Journey)
    ensures Sound(RunJourney(h))
  {
    match h
    case Started(t, remember, returnTo, tr, policy, now) => NewPendingSound(t, remember, returnTo, tr, policy, now);
    case Reauthing(s, now) =>
      LineageSound(s);
      ThenReauthSound(RunLineage(s), now);
    case Bound(prev, s, st) =>
      JourneySound(prev);
      ThenBindSound(RunJourney(prev), s, st);
    case Hashed(prev, hash) =>
      JourneySound(prev);
      ThenHashSound(RunJourney(prev), hash);
    case Added(prev, spec, st) =>
      JourneySound(prev);
      ThenAddSound(RunJourney(prev), spec, st);
    case Parked(prev) => ThenParkSound(RunJourney(prev));
  }

  /** Every session of every lineage is well-formed. */
  lemma {:induction false} LineageSound(h: Lineage)
    ensures WellFormed(RunLineage(h))
  {
    match h
    case Admitted(j, st, mfa, now, id) =>
      JourneySound(j);
      ThenAdmitSound(RunJourney(j), st, mfa, now, id);
    case Reauthenticated(prev, j, st, mfa, now) =>
      LineageSound(prev);
      JourneySound(j);
      ThenReauthenticateSound(RunLineage(prev), RunJourney(j), st, mfa, now);
    case Enrolled(prev, f, st) =>
      LineageSound(prev);
      ThenEnrolSound(RunLineage(prev), f, st);
    case Changed(prev, st, now) =>
      LineageSound(prev);
      ThenChangeSound(RunLineage(prev), st, now);
    case Renewed(prev, st, mfa, claims, now) =>
      LineageSound(prev);
      ThenRenewSound(RunLineage(prev), st, mfa, claims, now);
    case Persisted(prev) => ThenPersistSound(RunLineage(prev));
  }
}
