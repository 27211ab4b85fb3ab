/** Sealing is transparent: storing a journey or a session between steps changes no later result. */
module Transparency {
  import opened Prelude
  import opened Domain
  import opened Wire
  import opened Codec
  import opened PendingCodec
  import opened Histories

  /** Instants that a nanosecond count can hold, and an encoding within the size bound. */
  predicate FitsPending(p: Pending) {
    && InCodecRange(p.expiresAt) && (forall v | v in p.verified :: InCodecRange(v.at))
    && 2 + |PendingBody(p)| <= MAX_SEALED_LEN
  }

  predicate FitsAttrs(a: SessionAttrs) {
    AttrsTimesCodable(a) && 2 + |AttrsBody(a)| <= MAX_SEALED_LEN
  }

  lemma SoundSealsExactly(p: Pending)
    requires SoundPending(p)
    ensures SealPending(p).Ok? <==> FitsPending(p)
    ensures SealPending(p).Err? ==> SealPending(p).error == if IsZero(p.expiresAt) then InvalidArgument else Malformed
    ensures SealPending(p).Ok? ==> UnsealPending(SealPending(p).value) == Ok(p)
  {
    SoundIsWellFormed(p);
    assert forall v | v in p.verified :: SoundVerified(p, v);
    if SealPending(p).Ok? {
      PendingCodecExact(SealPending(p).value, p);
    }
  }

  /**
   * A Pending of any journey fails to seal only for its size or an instant out of range, as malformed, or
   * for an expiry at the zero instant, as an invalid argument. Otherwise it unseals to itself.
   */
  lemma {:induction false} JourneySeals(h: Journey)
    requires RunJourney(h).Ok?
    ensures var p := RunJourney(h).value;
      && (SealPending(p).Ok? <==> FitsPending(p))
      && (SealPending(p).Err? ==> SealPending(p).error == if IsZero(p.expiresAt) then InvalidArgument else Malformed)
      && (SealPending(p).Ok? ==> UnsealPending(SealPending(p).value) == Ok(p))
  {
    JourneySound(h);
    SoundSealsExactly(RunJourney(h).value);
  }

  /** A session of any lineage fails to seal only as malformed, for its size or an instant out of range, else unseals to itself. */
  lemma {:induction false} LineageSeals(h: Lineage)
    requires RunLineage(h).Ok?
    ensures var a := RunLineage(h).value;
      && (SealAttrs(a).Ok? <==> FitsAttrs(a)) && (SealAttrs(a).Err? ==> SealAttrs(a).error == Malformed)
      && (SealAttrs(a).Ok? ==> UnsealAttrs(SealAttrs(a).value) == Ok(a))
  {
    LineageSound(h);
    var a := RunLineage(h).value;
    if SealAttrs(a).Ok? {
      AttrsCodecExact(SealAttrs(a).value, a);
    }
  }

  /** Storing gives the same value back, when it gives any. */
  lemma {:induction false} ParkedIsSame(h: Journey)
    ensures ThenPark(RunJourney(h)).Ok? ==> ThenPark(RunJourney(h)) == RunJourney(h)
  {
    if RunJourney(h).Ok? {
      JourneySeals(h);
    }
  }

  lemma {:induction false} PersistedIsSame(h: Lineage)
    ensures ThenPersist(RunLineage(h)).Ok? ==> ThenPersist(RunLineage(h)) == RunLineage(h)
  {
    if RunLineage(h).Ok? {
      LineageSeals(h);
    }
  }

  // ---- The same history, never stored -------------------------------------------------------

  function InMemory(h: Journey): Journey {
    match h
    case Started(_, _, _, _, _, _) => h
    case Reauthing(s, now) => Reauthing(LineageInMemory(s), now)
    case Bound(prev, s, st) => Bound(InMemory(prev), s, st)
    case Hashed(prev, hash) => Hashed(InMemory(prev), hash)
    case Added(prev, spec, st) => Added(InMemory(prev), spec, st)
    case Parked(prev) => InMemory(prev)
  }

  function LineageInMemory(h: Lineage): Lineage {
    match h
    case Admitted(j, st, mfa, now, id) => Admitted(InMemory(j), st, mfa, now, id)
    case Reauthenticated(prev, j, st, mfa, now) => Reauthenticated(LineageInMemory(prev), InMemory(j), st, mfa, now)
    case Enrolled(prev, f, st) => Enrolled(LineageInMemory(prev), f, st)
    case Changed(prev, st, now) => Changed(LineageInMemory(prev), st, now)
    case Renewed(prev, st, mfa, claims, now) => Renewed(LineageInMemory(prev), st, mfa, claims, now)
    case Persisted(prev) => LineageInMemory(prev)
  }

  /** Whatever is stored along the way fits. */
  predicate Storable(h: Journey) {
    match h
    case Started(_, _, _, _, _, _) => true
    case Reauthing(s, _) => LineageStorable(s)
    case Bound(prev, _, _) => Storable(prev)
    case Hashed(prev, _) => Storable(prev)
    case Added(prev, _, _) => Storable(prev)
    case Parked(prev) =>
      Storable(prev) && var r := RunJourney(InMemory(prev)); r.Ok? ==> FitsPending(r.value)
  }

  predicate LineageStorable(h: Lineage) {
    match h
    case Admitted(j, _, _, _, _) => Storable(j)
    case Reauthenticated(prev, j, _, _, _) => LineageStorable(prev) && Storable(j)
    case Enrolled(prev, _, _) => LineageStorable(prev)
    case Changed(prev, _, _) => LineageStorable(prev)
    case Renewed(prev, _, _, _, _) => LineageStorable(prev)
    case Persisted(prev) =>
      LineageStorable(prev) && var r := RunLineage(LineageInMemory(prev)); r.Ok? ==> FitsAttrs(r.value)
  }

  /**
   * Inserting storage anywhere gives the result of the journey kept in memory, error or not, as long
   * as what is stored fits; and a stored journey that succeeds always fitted.
   */
  lemma {:induction false} JourneyTransparent(h: Journey)
    ensures Storable(h) ==> RunJourney(h) == RunJourney(InMemory(h))
    ensures RunJourney(h).Ok? ==> Storable(h)
  {
    match h
    case Started(_, _, _, _, _, _) =>
    case Reauthing(s, now) => LineageTransparent(s);
    case Bound(prev, s, st) => JourneyTransparent(prev);
    case Hashed(prev, hash) => JourneyTransparent(prev);
    case Added(prev, spec, st) => JourneyTransparent(prev);
    case Parked(prev) =>
      JourneyTransparent(prev);
      if RunJourney(prev).Ok? { JourneySeals(prev); }
  }

  lemma {:induction false} LineageTransparent(h: Lineage)
    ensures LineageStorable(h) ==> RunLineage(h) == RunLineage(LineageInMemory(h))
    ensures RunLineage(h).Ok? ==> LineageStorable(h)
  {
    match h
    case Admitted(j, st, mfa, now, id) => JourneyTransparent(j);
    case Reauthenticated(prev, j, st, mfa, now) =>
      LineageTransparent(prev);
      JourneyTransparent(j);
    case Enrolled(prev, f, st) => LineageTransparent(prev);
    case Changed(prev, st, now) => LineageTransparent(prev);
    case Renewed(prev, st, mfa, claims, now) => LineageTransparent(prev);
    case Persisted(prev) =>
      LineageTransparent(prev);
      if RunLineage(prev).Ok? { LineageSeals(prev); }
  }
}
