/** Codec v1: what Seal and Unseal compute, and that they are exact inverses. */
module Codec {
  import opened Prelude
  import opened Factors
  import opened Domain
  import opened Pendings
  import opened Wire

  const MAX_SEALED_LEN := 16 * 1024
  const TAG_ATTRS: Byte := 65
  const TAG_PENDING: Byte := 80

  // ---- Components ---------------------------------------------------------------------------

  function UuidField(u: Uuid): Bytes {
    Field(BigEndian(u, 16))
  }

  function ReadUuid(b: Bytes): Option<(Uuid, Bytes)> {
    var (p, rest) :- ReadFixed(b, 16);
    FromBigEndianRoundTrip(p);
    Pow256Values();
    Some((FromBigEndian(p), rest))
  }

  lemma UuidRoundTrip(u: Uuid, rest: Bytes)
    ensures ReadUuid(UuidField(u) + rest) == Some((u, rest))
  {
    Pow256Values();
    BigEndianRoundTrip(u, 16);
    FieldRoundTrip(BigEndian(u, 16), rest);
  }

  function SubjectFields(t: TenantId, user: Uuid): Bytes {
    Field(t) + UuidField(user)
  }

  /** A tenant is the single tenant when empty, and is parsed otherwise. */
  function ReadSubject(b: Bytes): Option<(Subject, Bytes)> {
    var (raw, b1) :- ReadField(b);
    var (user, b2) :- ReadUuid(b1);
    if raw == [] || TenantName(raw) then Some((Subject(raw, user), b2)) else None
  }

  lemma SubjectRoundTrip(t: TenantId, user: Uuid, rest: Bytes)
    ensures ReadSubject(SubjectFields(t, user) + rest) == Some((Subject(t, user), rest))
  {
    FieldRoundTrip(t, UuidField(user) + rest);
    UuidRoundTrip(user, rest);
    ConcatAssociates(Field(t), UuidField(user), rest);
  }

  function FactorField(f: Factor): Bytes {
    Field(Code(f))
  }

  function ReadFactor(b: Bytes): Option<(Factor, Bytes)> {
    var (code, rest) :- ReadField(b);
    var f :- FactorByCode(code);
    Some((f, rest))
  }

  lemma FactorRoundTrip(f: Factor, rest: Bytes)
    requires f != NoFactor
    ensures ReadFactor(FactorField(f) + rest) == Some((f, rest))
  {
    FieldRoundTrip(Code(f), rest);
  }

  function FactorsField(fs: seq<Factor>): Bytes {
    ListField(fs, FactorField)
  }

  /** Factors must come in strictly ascending code order. */
  function ReadFactors(b: Bytes): Option<(seq<Factor>, Bytes)> {
    var (fs, rest) :- ReadList(b, ReadFactor);
    if Sorted(fs) then Some((fs, rest)) else None
  }

  lemma FactorsRoundTrip(fs: seq<Factor>, rest: Bytes)
    requires Sorted(fs) && NoFactor !in fs
    ensures ReadFactors(FactorsField(fs) + rest) == Some((fs, rest))
  {
    SortedIsShort(fs);
    forall f, r | f in fs ensures ReadFactor(FactorField(f) + r) == Some((f, r)) {
      FactorRoundTrip(f, r);
    }
    ListRoundTrip(fs, FactorField, ReadFactor, rest);
  }

  function UseFields(u: CredentialUse): Bytes {
    FactorField(u.factor) + Field(u.id)
  }

  function ReadUse(b: Bytes): Option<(CredentialUse, Bytes)> {
    var (f, b1) :- ReadFactor(b);
    var (id, b2) :- ReadField(b1);
    Some((CredentialUse(f, id), b2))
  }

  lemma UseRoundTrip(u: CredentialUse, rest: Bytes)
    requires u.factor != NoFactor && |u.id| < TWO_64
    ensures ReadUse(UseFields(u) + rest) == Some((u, rest))
  {
    FactorRoundTrip(u.factor, Field(u.id) + rest);
    FieldRoundTrip(u.id, rest);
    ConcatAssociates(FactorField(u.factor), Field(u.id), rest);
  }

  // ---- Session attributes -------------------------------------------------------------------

  /** A recorded credential: a passkey factor of the session, with an identifier. */
  predicate GoodUse(fs: seq<Factor>, u: CredentialUse) {
    IsPasskeyUse(u.factor) && u.id != [] && u.factor in fs
  }

  predicate CheckAttrs(a: SessionAttrs) {
    && a.lineage != NIL_UUID && !a.subject.NoUser()
    && HasRole(a.factors, Primary) && ValidTransport(a.transport)
    && forall u | u in a.credentialIds :: GoodUse(a.factors, u)
  }

  predicate AttrsTimesCodable(a: SessionAttrs) {
    Codable(a.primaryAt) && Codable(a.secondAt) && Codable(a.createdAt) && Codable(a.claimsFetchedAt)
  }

  function AttrsEnd(a: SessionAttrs): Bytes {
    Field(a.returnTo) + (Field([a.transport]) + (Field(a.provider) + (TimeField(a.createdAt) + TimeField(a.claimsFetchedAt))))
  }

  function AttrsTail(a: SessionAttrs): Bytes {
    TimeField(a.primaryAt) + (TimeField(a.secondAt) + (U64Field(a.epoch) + (BoolField(a.mustChange)
    + (BoolField(a.remember) + AttrsEnd(a)))))
  }

  function AttrsBody(a: SessionAttrs): Bytes {
    UuidField(a.lineage) + (SubjectFields(a.subject.tenant, a.subject.user)
    + (FactorsField(a.factors) + (ListField(a.credentialIds, UseFields) + AttrsTail(a))))
  }

  function SealAttrs(a: SessionAttrs): Result<Bytes, Error> {
    if a.version == 0 || !CheckAttrs(a) then Err(InvalidArgument)
    else if !AttrsTimesCodable(a) then Err(Malformed)
    else
      var b := [CODEC_VERSION, TAG_ATTRS] + AttrsBody(a);
      if |b| > MAX_SEALED_LEN then Err(Malformed) else Ok(b)
  }

  function ReadAttrsFlags(head: SessionAttrs, b: Bytes): Option<(SessionAttrs, Bytes)> {
    var (primaryAt, b) :- ReadTime(b);
    var (secondAt, b) :- ReadTime(b);
    var (epoch, b) :- ReadU64(b);
    var (mustChange, b) :- ReadBool(b);
    var (remember, b) :- ReadBool(b);
    Some((head.(primaryAt := primaryAt, secondAt := secondAt, epoch := epoch, mustChange := mustChange,
                remember := remember), b))
  }

  function ReadAttrsEnd(head: SessionAttrs, b: Bytes): Option<(SessionAttrs, Bytes)> {
    var (returnTo, b) :- ReadField(b);
    var (transport, b) :- ReadByte(b);
    var (provider, b) :- ReadField(b);
    var (createdAt, b) :- ReadTime(b);
    var (claimsFetchedAt, b) :- ReadTime(b);
    Some((head.(returnTo := returnTo, transport := transport, provider := provider,
                createdAt := createdAt, claimsFetchedAt := claimsFetchedAt), b))
  }

  function ReadAttrsTail(head: SessionAttrs, b: Bytes): Option<(SessionAttrs, Bytes)> {
    var (head, b) :- ReadAttrsFlags(head, b);
    ReadAttrsEnd(head, b)
  }

  const BLANK_ATTRS := SessionAttrs(
    CODEC_VERSION, NIL_UUID, ZERO_SUBJECT, [], [], ZERO_TIME, ZERO_TIME, 0, false, false, [], 0, [],
    ZERO_TIME, ZERO_TIME)

  function ReadAttrs(b: Bytes): Option<(SessionAttrs, Bytes)> {
    var (lineage, b) :- ReadUuid(b);
    var (subject, b) :- ReadSubject(b);
    var (factors, b) :- ReadFactors(b);
    var (uses, b) :- ReadList(b, ReadUse);
    ReadAttrsTail(
      BLANK_ATTRS.(lineage := lineage, subject := subject, factors := factors, credentialIds := uses), b)
  }

  /** Size, version and tag. */
  predicate Framed(b: Bytes, tag: Byte) {
    2 <= |b| <= MAX_SEALED_LEN && b[0] == CODEC_VERSION && b[1] == tag
  }

  function UnsealAttrs(b: Bytes): Result<SessionAttrs, Error> {
    if !Framed(b, TAG_ATTRS) then Err(Malformed)
    else
      match ReadAttrs(b[2..])
      case None => Err(Malformed)
      case Some((a, rest)) =>
        if rest != [] || !CheckAttrs(a) || SealAttrs(a) != Ok(b) then Err(Malformed) else Ok(a)
  }

  /** What the checks of Seal leave open: a current version and canonical, known factors. */
  predicate WellFormedAttrs(a: SessionAttrs) {
    a.version == CODEC_VERSION && CheckAttrs(a) && Sorted(a.factors) && NoFactor !in a.factors
  }

  function WithFlags(head: SessionAttrs, a: SessionAttrs): SessionAttrs {
    head.(primaryAt := a.primaryAt, secondAt := a.secondAt, epoch := a.epoch, mustChange := a.mustChange,
          remember := a.remember)
  }

  lemma AttrsFlagsRoundTrip(head: SessionAttrs, a: SessionAttrs)
    requires AttrsTimesCodable(a)
    ensures ReadAttrsFlags(head, AttrsTail(a)) == Some((WithFlags(head, a), AttrsEnd(a)))
  {
    var t4 := BoolField(a.remember) + AttrsEnd(a);
    var t3 := BoolField(a.mustChange) + t4;
    var t2 := U64Field(a.epoch) + t3;
    var t1 := TimeField(a.secondAt) + t2;
    TimeRoundTrip(a.primaryAt, t1);
    TimeRoundTrip(a.secondAt, t2);
    U64RoundTrip(a.epoch, t3);
    BoolRoundTrip(a.mustChange, t4);
    BoolRoundTrip(a.remember, AttrsEnd(a));
  }

  lemma AttrsEndRoundTrip(head: SessionAttrs, a: SessionAttrs)
    requires AttrsTimesCodable(a) && |AttrsEnd(a)| < TWO_64
    requires a == head.(returnTo := a.returnTo, transport := a.transport, provider := a.provider,
                        createdAt := a.createdAt, claimsFetchedAt := a.claimsFetchedAt)
    ensures ReadAttrsEnd(head, AttrsEnd(a)) == Some((a, []))
  {
    var t4 := TimeField(a.claimsFetchedAt);
    var t3 := TimeField(a.createdAt) + t4;
    var t2 := Field(a.provider) + t3;
    var t1 := Field([a.transport]) + t2;
    FieldRoundTrip(a.returnTo, t1);
    ByteRoundTrip(a.transport, t2);
    FieldRoundTrip(a.provider, t3);
    TimeRoundTrip(a.createdAt, t4);
    TimeRoundTrip(a.claimsFetchedAt, []);
    assert t4 + [] == t4;
  }

  lemma AttrsTailRoundTrip(head: SessionAttrs, a: SessionAttrs)
    requires AttrsTimesCodable(a) && |AttrsTail(a)| < TWO_64
    requires a.version == head.version && a.lineage == head.lineage && a.subject == head.subject
    requires a.factors == head.factors && a.credentialIds == head.credentialIds
    ensures ReadAttrsTail(head, AttrsTail(a)) == Some((a, []))
  {
    AttrsFlagsRoundTrip(head, a);
    AttrsEndRoundTrip(WithFlags(head, a), a);
  }

  lemma AttrsBodyRoundTrip(a: SessionAttrs)
    requires WellFormedAttrs(a) && AttrsTimesCodable(a) && |AttrsBody(a)| < TWO_64
    ensures ReadAttrs(AttrsBody(a)) == Some((a, []))
  {
    var t4 := AttrsTail(a);
    var t3 := ListField(a.credentialIds, UseFields) + t4;
    var t2 := FactorsField(a.factors) + t3;
    var t1 := SubjectFields(a.subject.tenant, a.subject.user) + t2;
    UuidRoundTrip(a.lineage, t1);
    SubjectRoundTrip(a.subject.tenant, a.subject.user, t2);
    FactorsRoundTrip(a.factors, t3);
    UsesRoundTrip(a.credentialIds, t4);
    var head := BLANK_ATTRS.(lineage := a.lineage, subject := a.subject, factors := a.factors,
                             credentialIds := a.credentialIds);
    AttrsTailRoundTrip(head, a);
  }

  lemma UsesRoundTrip(us: seq<CredentialUse>, rest: Bytes)
    requires |ListField(us, UseFields)| < TWO_64 && forall u | u in us :: u.factor != NoFactor
    ensures ReadList(ListField(us, UseFields) + rest, ReadUse) == Some((us, rest))
  {
    forall u, r | u in us ensures ReadUse(UseFields(u) + r) == Some((u, r)) {
      FlattenBounds(us, UseFields, u);
      UseRoundTrip(u, r);
    }
    FlattenCounts(us, UseFields);
    ListRoundTrip(us, UseFields, ReadUse, rest);
  }

  lemma ReadFactorsAreCanonical(b: Bytes)
    requires ReadFactors(b).Some?
    ensures Sorted(ReadFactors(b).value.0) && NoFactor !in ReadFactors(b).value.0
  {
    var (n, rest) := ReadCount(b).value;
    ManySatisfy(rest, n, ReadFactor, f => f != NoFactor);
  }

  lemma ReadFlagsKeepsHead(head: SessionAttrs, b: Bytes)
    requires ReadAttrsFlags(head, b).Some?
    ensures var a := ReadAttrsFlags(head, b).value.0; a.version == head.version && a.factors == head.factors
  {
  }

  lemma ReadEndKeepsHead(head: SessionAttrs, b: Bytes)
    requires ReadAttrsEnd(head, b).Some?
    ensures var a := ReadAttrsEnd(head, b).value.0; a.version == head.version && a.factors == head.factors
  {
  }

  lemma ReadTailKeepsHead(head: SessionAttrs, b: Bytes)
    requires ReadAttrsTail(head, b).Some?
    ensures var a := ReadAttrsTail(head, b).value.0; a.version == head.version && a.factors == head.factors
  {
    ReadFlagsKeepsHead(head, b);
    var (h, c) := ReadAttrsFlags(head, b).value;
    ReadEndKeepsHead(h, c);
  }

  lemma ReadAttrsAreCanonical(b: Bytes)
    requires ReadAttrs(b).Some?
    ensures var a := ReadAttrs(b).value.0;
      a.version == CODEC_VERSION && Sorted(a.factors) && NoFactor !in a.factors
  {
    var (lineage, b1) := ReadUuid(b).value;
    var (subject, b2) := ReadSubject(b1).value;
    var (factors, b3) := ReadFactors(b2).value;
    var (uses, b4) := ReadList(b3, ReadUse).value;
    ReadFactorsAreCanonical(b2);
    ReadTailKeepsHead(
      BLANK_ATTRS.(lineage := lineage, subject := subject, factors := factors, credentialIds := uses), b4);
  }

  /** Unseal accepts exactly the encodings of well-formed attributes, and inverts Seal on them. */
  lemma AttrsCodecExact(b: Bytes, a: SessionAttrs)
    ensures UnsealAttrs(b) == Ok(a) <==> WellFormedAttrs(a) && SealAttrs(a) == Ok(b)
  {
    if WellFormedAttrs(a) && SealAttrs(a) == Ok(b) {
      AttrsBodyRoundTrip(a);
      DropConcat([CODEC_VERSION, TAG_ATTRS], AttrsBody(a));
    } else if UnsealAttrs(b) == Ok(a) {
      ReadAttrsAreCanonical(b[2..]);
    }
  }
}
