/** Codec v1 of a Pending: SealPending, UnsealPending, and that they are exact inverses. */
module PendingCodec {
  import opened Prelude
  import opened Factors
  import opened Domain
  import opened Wire
  import opened Codec

  predicate GoodVerified(v: Verified) {
    !IsZero(v.at) && VerifiedShape(v.factors, v.credentialId, v.identifies, v.provider)
  }

  predicate CheckPending(p: Pending) {
    && ValidTransport(p.transport) && !IsZero(p.expiresAt) && (p.verified != [] ==> p.Bound())
    && forall v | v in p.verified :: GoodVerified(v)
  }

  predicate AllCodable(vs: seq<Verified>) {
    forall v | v in vs :: Codable(v.at)
  }

  predicate PendingTimesCodable(p: Pending) {
    Codable(p.expiresAt) && AllCodable(p.verified)
  }

  // ---- Layout -------------------------------------------------------------------------------

  /** The subject of a verification is not stored: it is the Pending's. */
  function VerifiedFields(v: Verified): Bytes {
    FactorsField(v.factors) + (Field(v.credentialId) + (BoolField(v.identifies) + (Field(v.provider) + TimeField(v.at))))
  }

  function PendingEnd(p: Pending): Bytes {
    UuidField(p.reauthOf) + (Field(p.bindHash) + TimeField(p.expiresAt))
  }

  function PendingTail(p: Pending): Bytes {
    BoolField(p.remember) + (Field(p.returnTo) + (Field([p.transport]) + (Field(p.provider) + PendingEnd(p))))
  }

  function PendingBody(p: Pending): Bytes {
    SubjectFields(p.tenant, p.subject.user)
    + (U64Field(p.epochAtBind) + (ListField(p.verified, VerifiedFields) + PendingTail(p)))
  }

  function SealPending(p: Pending): Result<Bytes, Error> {
    if p.version == 0 || !CheckPending(p) then Err(InvalidArgument)
    else if !PendingTimesCodable(p) then Err(Malformed)
    else
      var b := [CODEC_VERSION, TAG_PENDING] + PendingBody(p);
      if |b| > MAX_SEALED_LEN then Err(Malformed) else Ok(b)
  }

  function ReadVerified(subject: Subject, b: Bytes): Option<(Verified, Bytes)> {
    var (factors, b) :- ReadFactors(b);
    var (credentialId, b) :- ReadField(b);
    var (identifies, b) :- ReadBool(b);
    var (provider, b) :- ReadField(b);
    var (at, b) :- ReadTime(b);
    Some((Verified(subject, factors, credentialId, identifies, provider, at), b))
  }

  function VerifiedReader(subject: Subject): Bytes -> Option<(Verified, Bytes)> {
    b => ReadVerified(subject, b)
  }

  function ReadPendingChoices(head: Pending, b: Bytes): Option<(Pending, Bytes)> {
    var (remember, b) :- ReadBool(b);
    var (returnTo, b) :- ReadField(b);
    var (transport, b) :- ReadByte(b);
    var (provider, b) :- ReadField(b);
    Some((head.(remember := remember, returnTo := returnTo, transport := transport, provider := provider), b))
  }

  function ReadPendingEnd(head: Pending, b: Bytes): Option<(Pending, Bytes)> {
    var (reauthOf, b) :- ReadUuid(b);
    var (bindHash, b) :- ReadField(b);
    var (expiresAt, b) :- ReadTime(b);
    Some((head.(reauthOf := reauthOf, bindHash := bindHash, expiresAt := expiresAt), b))
  }

  function ReadPendingTail(head: Pending, b: Bytes): Option<(Pending, Bytes)> {
    var (head, b) :- ReadPendingChoices(head, b);
    ReadPendingEnd(head, b)
  }

  function ReadPending(b: Bytes): Option<(Pending, Bytes)> {
    var (bound, b) :- ReadSubject(b);
    var subject := if bound.NoUser() then ZERO_SUBJECT else bound;
    var (epochAtBind, b) :- ReadU64(b);
    var (verified, b) :- ReadList(b, VerifiedReader(subject));
    ReadPendingTail(
      ZERO_PENDING.(version := CODEC_VERSION, tenant := bound.tenant, subject := subject,
                    epochAtBind := epochAtBind, verified := verified), b)
  }

  /** A decoded value counts only when nothing is left, it passes the checks and it seals to b again. */
  function AcceptPending(r: Option<(Pending, Bytes)>, b: Bytes): Result<Pending, Error> {
    match r
    case None => Err(Malformed)
    case Some((p, rest)) =>
      if rest != [] || !CheckPending(p) || SealPending(p) != Ok(b) then Err(Malformed) else Ok(p)
  }

  function UnsealPending(b: Bytes): Result<Pending, Error> {
    if !Framed(b, TAG_PENDING) then Err(Malformed) else AcceptPending(ReadPending(b[2..]), b)
  }

  // ---- Exactness ----------------------------------------------------------------------------

  /** A verification as the Pending accumulates it: of the Pending's subject, in canonical order. */
  predicate Accumulated(p: Pending, v: Verified) {
    v.subject == p.subject && Sorted(v.factors)
  }

  /**
   * What the checks of SealPending leave open and the round trip needs: a current version, a subject
   * that is absent or in the tenant, and verifications of that subject in canonical order.
   */
  predicate WellFormedPending(p: Pending) {
    && p.version == CODEC_VERSION && CheckPending(p)
    && (p.subject == ZERO_SUBJECT || (p.Bound() && p.subject.tenant == p.tenant))
    && forall v | v in p.verified :: Accumulated(p, v)
  }

  lemma VerifiedRoundTrip(v: Verified, rest: Bytes)
    requires VerifiedShape(v.factors, v.credentialId, v.identifies, v.provider)
    requires Sorted(v.factors) && Codable(v.at) && |VerifiedFields(v)| < TWO_64
    ensures ReadVerified(v.subject, VerifiedFields(v) + rest) == Some((v, rest))
  {
    var t4 := TimeField(v.at) + rest;
    var t3 := Field(v.provider) + t4;
    var t2 := BoolField(v.identifies) + t3;
    var t1 := Field(v.credentialId) + t2;
    ShapeIsProper(v.factors);
    FactorsRoundTrip(v.factors, t1);
    FieldRoundTrip(v.credentialId, t2);
    BoolRoundTrip(v.identifies, t3);
    FieldRoundTrip(v.provider, t4);
    TimeRoundTrip(v.at, rest);
    var f3 := Field(v.provider) + TimeField(v.at);
    var f2 := BoolField(v.identifies) + f3;
    var f1 := Field(v.credentialId) + f2;
    ConcatAssociates(Field(v.provider), TimeField(v.at), rest);
    ConcatAssociates(BoolField(v.identifies), f3, rest);
    ConcatAssociates(Field(v.credentialId), f2, rest);
    ConcatAssociates(FactorsField(v.factors), f1, rest);
  }

  lemma VerifiedListRoundTrip(p: Pending, rest: Bytes)
    requires WellFormedPending(p) && PendingTimesCodable(p)
    requires |ListField(p.verified, VerifiedFields)| < TWO_64
    ensures ReadList(ListField(p.verified, VerifiedFields) + rest, VerifiedReader(p.subject))
         == Some((p.verified, rest))
  {
    var read := VerifiedReader(p.subject);
    forall v, r | v in p.verified ensures read(VerifiedFields(v) + r) == Some((v, r)) {
      assert Accumulated(p, v);
      FlattenBounds(p.verified, VerifiedFields, v);
      VerifiedRoundTrip(v, r);
    }
    FlattenCounts(p.verified, VerifiedFields);
    ListRoundTrip(p.verified, VerifiedFields, read, rest);
  }

  lemma PendingEndRoundTrip(head: Pending, p: Pending)
    requires Codable(p.expiresAt) && |PendingEnd(p)| < TWO_64
    requires p == head.(reauthOf := p.reauthOf, bindHash := p.bindHash, expiresAt := p.expiresAt)
    ensures ReadPendingEnd(head, PendingEnd(p)) == Some((p, []))
  {
    UuidRoundTrip(p.reauthOf, Field(p.bindHash) + TimeField(p.expiresAt));
    FieldRoundTrip(p.bindHash, TimeField(p.expiresAt));
    TimeRoundTrip(p.expiresAt, []);
    assert TimeField(p.expiresAt) + [] == TimeField(p.expiresAt);
  }

  lemma PendingChoicesRoundTrip(head: Pending, p: Pending)
    requires |PendingTail(p)| < TWO_64
    ensures ReadPendingChoices(head, PendingTail(p)) == Some((
      head.(remember := p.remember, returnTo := p.returnTo, transport := p.transport, provider := p.provider), PendingEnd(p)))
  {
    var t3 := Field(p.provider) + PendingEnd(p);
    var t2 := Field([p.transport]) + t3;
    var t1 := Field(p.returnTo) + t2;
    BoolRoundTrip(p.remember, t1);
    FieldRoundTrip(p.returnTo, t2);
    ByteRoundTrip(p.transport, t3);
    FieldRoundTrip(p.provider, PendingEnd(p));
  }

  lemma PendingTailRoundTrip(head: Pending, p: Pending)
    requires Codable(p.expiresAt) && |PendingTail(p)| < TWO_64
    requires p.version == head.version && p.tenant == head.tenant && p.subject == head.subject
    requires p.epochAtBind == head.epochAtBind && p.verified == head.verified
    ensures ReadPendingTail(head, PendingTail(p)) == Some((p, []))
  {
    PendingChoicesRoundTrip(head, p);
    PendingEndRoundTrip(
      head.(remember := p.remember, returnTo := p.returnTo, transport := p.transport, provider := p.provider), p);
  }

  lemma PendingBodyRoundTrip(p: Pending)
    requires WellFormedPending(p) && PendingTimesCodable(p) && |PendingBody(p)| < TWO_64
    ensures ReadPending(PendingBody(p)) == Some((p, []))
  {
    var t3 := PendingTail(p);
    var t2 := ListField(p.verified, VerifiedFields) + t3;
    var t1 := U64Field(p.epochAtBind) + t2;
    SubjectRoundTrip(p.tenant, p.subject.user, t1);
    U64RoundTrip(p.epochAtBind, t2);
    VerifiedListRoundTrip(p, t3);
    PendingTailRoundTrip(
      ZERO_PENDING.(version := CODEC_VERSION, tenant := p.tenant, subject := p.subject,
                    epochAtBind := p.epochAtBind, verified := p.verified), p);
  }

  lemma ReadVerifiedIsCanonical(subject: Subject, b: Bytes)
    requires ReadVerified(subject, b).Some?
    ensures var v := ReadVerified(subject, b).value.0; v.subject == subject && Sorted(v.factors)
  {
    ReadFactorsAreCanonical(b);
  }

  predicate SameHead(p: Pending, head: Pending) {
    p.version == head.version && p.tenant == head.tenant && p.subject == head.subject && p.verified == head.verified
  }

  lemma ChoicesKeepHead(head: Pending, b: Bytes)
    ensures ReadPendingChoices(head, b).Some? ==> SameHead(ReadPendingChoices(head, b).value.0, head)
  {
  }

  lemma EndKeepsHead(head: Pending, b: Bytes)
    ensures ReadPendingEnd(head, b).Some? ==> SameHead(ReadPendingEnd(head, b).value.0, head)
  {
  }

  lemma ReadPendingTailKeepsHead(head: Pending, b: Bytes)
    requires ReadPendingTail(head, b).Some?
    ensures SameHead(ReadPendingTail(head, b).value.0, head)
  {
    ChoicesKeepHead(head, b);
    var (h, c) := ReadPendingChoices(head, b).value;
    EndKeepsHead(h, c);
  }

  lemma ReadPendingIsCanonical(b: Bytes)
    requires ReadPending(b).Some?
    ensures var p := ReadPending(b).value.0;
      CheckPending(p) ==> WellFormedPending(p)
  {
    var (bound, b1) := ReadSubject(b).value;
    var subject := if bound.NoUser() then ZERO_SUBJECT else bound;
    var (epochAtBind, b2) := ReadU64(b1).value;
    var (n, b3) := ReadCount(b2).value;
    forall c | ReadVerified(subject, c).Some?
      ensures var v := ReadVerified(subject, c).value.0; v.subject == subject && Sorted(v.factors)
    {
      ReadVerifiedIsCanonical(subject, c);
    }
    ManySatisfy(b3, n, VerifiedReader(subject), (v: Verified) => v.subject == subject && Sorted(v.factors));
    var (verified, b4) := ReadList(b2, VerifiedReader(subject)).value;
    ReadPendingTailKeepsHead(
      ZERO_PENDING.(version := CODEC_VERSION, tenant := bound.tenant, subject := subject,
                    epochAtBind := epochAtBind, verified := verified), b4);
  }

  lemma SealedFrame(b: Bytes, p: Pending)
    requires SealPending(p) == Ok(b)
    ensures CheckPending(p) && PendingTimesCodable(p) && |PendingBody(p)| < TWO_64
    ensures Framed(b, TAG_PENDING) && b[2..] == PendingBody(p)
  {
    DropConcat([CODEC_VERSION, TAG_PENDING], PendingBody(p));
  }

  lemma UnsealInvertsSeal(b: Bytes, p: Pending)
    requires WellFormedPending(p) && SealPending(p) == Ok(b)
    ensures UnsealPending(b) == Ok(p)
  {
    SealedFrame(b, p);
    PendingBodyRoundTrip(p);
    assert AcceptPending(Some((p, [])), b) == Ok(p);
  }

  lemma UnsealedIsCanonical(b: Bytes, p: Pending)
    requires UnsealPending(b) == Ok(p)
    ensures WellFormedPending(p) && SealPending(p) == Ok(b)
  {
    ReadPendingIsCanonical(b[2..]);
  }

  /** UnsealPending accepts exactly the encodings of well-formed Pendings, and inverts SealPending. */
  lemma PendingCodecExact(b: Bytes, p: Pending)
    ensures UnsealPending(b) == Ok(p) <==> WellFormedPending(p) && SealPending(p) == Ok(b)
  {
    if UnsealPending(b) == Ok(p) {
      UnsealedIsCanonical(b, p);
    } else if WellFormedPending(p) && SealPending(p) == Ok(b) {
      UnsealInvertsSeal(b, p);
    }
  }
}
