/** Stateless ceremony handles: the sealed layout, and that opening inverts sealing and nothing else. */
module Handles {
  import opened Prelude
  import opened Domain
  import opened Wire
  import opened PendingCodec
  import Histories

  const HANDLE_VERSION: Byte := 1
  const PAYLOAD_VERSION: Byte := 1
  const NONCE_SIZE := 24
  const OVERHEAD := 16
  const MAX_HANDLE_CHARS := 8 * 1024
  const MAX_PAYLOAD := 4 * 1024

  type Kind = Byte

  const OAUTH_STATE: Kind := 17

  /** The anonymous begins: discoverable and username-first passkey, federated and external login. */
  predicate Stateless(k: Kind) {
    15 <= k <= 18
  }

  function Ttl(k: Kind): int
    requires Stateless(k)
  {
    if k == OAUTH_STATE then 9 * MINUTE else 5 * MINUTE
  }

  /** Never after the Pending it carries. */
  function ExpiresAt(k: Kind, pendingEnd: Time, now: Time): Time
    requires Stateless(k)
  {
    if pendingEnd < now + Ttl(k) then pendingEnd else now + Ttl(k)
  }

  // ---- Layout -------------------------------------------------------------------------------

  datatype Fields = Fields(kind: Kind, tenant: Bytes, pending: Bytes, payload: Bytes, expiresAt: Time)

  /** A 32-bit length, which keeps the low bits only, then the bytes. */
  function Prefixed(p: Bytes): Bytes {
    BigEndian(|p|, 4) + p
  }

  /** The low 64 bits of a nanosecond count. */
  function Word(t: Time): U64 {
    t % TWO_64
  }

  function ExpiryField(t: Time): Bytes {
    BigEndian(Word(t), 8)
  }

  function Tail(f: Fields): Bytes {
    Prefixed(f.pending) + (Prefixed(f.payload) + ExpiryField(f.expiresAt))
  }

  function Headed(kind: Kind, tenant: Bytes, tail: Bytes): Bytes {
    [kind, |tenant| % 256] + (tenant + tail)
  }

  function Layout(f: Fields): Bytes {
    Headed(f.kind, f.tenant, Tail(f))
  }

  function LengthPrefixed(b: Bytes): Option<(Bytes, Bytes)> {
    if |b| < 4 then None
    else
      var n, rest := FromBigEndian(b[..4]), b[4..];
      if |rest| < n then None else Some((rest[..n], rest[n..]))
  }

  function ReadExpiry(b: Bytes): Option<Time> {
    if |b| != 8 then None
    else
      FromBigEndianRoundTrip(b);
      Pow256Values();
      Some(FromWord(FromBigEndian(b)))
  }

  function ParseTail(kind: Kind, tenant: Bytes, b: Bytes): Option<Fields> {
    var (pending, b) :- LengthPrefixed(b);
    var (payload, b) :- LengthPrefixed(b);
    var expiresAt :- ReadExpiry(b);
    Some(Fields(kind, tenant, pending, payload, expiresAt))
  }

  function ReadHead(pt: Bytes): Option<(Kind, Bytes, Bytes)> {
    if |pt| < 2 then None
    else
      var n, rest := pt[1], pt[2..];
      if |rest| < n then None else Some((pt[0], rest[..n], rest[n..]))
  }

  function ParseHandle(pt: Bytes): Option<Fields> {
    var (kind, tenant, b) :- ReadHead(pt);
    ParseTail(kind, tenant, b)
  }

  /** No length is cut down to its field, and the expiry is an int64 of nanoseconds. */
  predicate Fits(f: Fields) {
    LengthsFit(f) && InCodecRange(f.expiresAt)
  }

  method BuildPlaintext(f: Fields) returns (pt: Bytes)
    ensures pt == Layout(f)
  {
    pt := [f.kind, |f.tenant| % 256];
    pt := pt + f.tenant;
    pt := pt + BigEndian(|f.pending|, 4);
    pt := pt + f.pending;
    pt := pt + BigEndian(|f.payload|, 4);
    pt := pt + f.payload;
    pt := pt + BigEndian(Word(f.expiresAt), 8);
  }

  lemma PrefixedRoundTrip(p: Bytes, rest: Bytes)
    requires |p| < 0x1_0000_0000
    ensures LengthPrefixed(Prefixed(p) + rest) == Some((p, rest))
  {
    Pow256Values();
    BigEndianRoundTrip(|p|, 4);
    ConcatAssociates(BigEndian(|p|, 4), p, rest);
    DropConcat(BigEndian(|p|, 4), p + rest);
    DropConcat(p, rest);
  }

  lemma PrefixedExact(b: Bytes)
    requires LengthPrefixed(b).Some?
    ensures var (p, rest) := LengthPrefixed(b).value; |p| < 0x1_0000_0000 && Prefixed(p) + rest == b
  {
    var (p, rest) := LengthPrefixed(b).value;
    Pow256Values();
    FromBigEndianRoundTrip(b[..4]);
    assert b == b[..4] + b[4..] && b[4..] == p + rest;
    ConcatAssociates(b[..4], p, rest);
  }

  lemma WordRoundTrip(t: Time)
    ensures FromWord(Word(t)) == t <==> InCodecRange(t)
  {
  }

  lemma ExpiryRoundTrip(t: Time)
    ensures ReadExpiry(ExpiryField(t)) == Some(FromWord(Word(t)))
  {
    Pow256Values();
    BigEndianRoundTrip(Word(t), 8);
  }

  lemma ExpiryExact(b: Bytes)
    requires ReadExpiry(b).Some?
    ensures InCodecRange(ReadExpiry(b).value) && ExpiryField(ReadExpiry(b).value) == b
  {
    FromBigEndianRoundTrip(b);
    Pow256Values();
    var w: U64 := FromBigEndian(b);
    assert Word(FromWord(w)) == w;
  }

  predicate LengthsFit(f: Fields) {
    |f.tenant| < 256 && |f.pending| < 0x1_0000_0000 && |f.payload| < 0x1_0000_0000
  }

  /** The fields as they come back: an expiry beyond int64 comes back as another. */
  function Wrapped(f: Fields): Fields {
    f.(expiresAt := FromWord(Word(f.expiresAt)))
  }

  lemma TailRoundTrip(f: Fields)
    requires LengthsFit(f)
    ensures ParseTail(f.kind, f.tenant, Tail(f)) == Some(Wrapped(f))
  {
    var e := ExpiryField(f.expiresAt);
    PrefixedRoundTrip(f.pending, Prefixed(f.payload) + e);
    PrefixedRoundTrip(f.payload, e);
    ExpiryRoundTrip(f.expiresAt);
  }

  lemma TailExact(kind: Kind, tenant: Bytes, b: Bytes)
    requires ParseTail(kind, tenant, b).Some?
    ensures var f := ParseTail(kind, tenant, b).value;
      && f.kind == kind && f.tenant == tenant && Tail(f) == b
      && |f.pending| < 0x1_0000_0000 && |f.payload| < 0x1_0000_0000 && InCodecRange(f.expiresAt)
  {
    var (pending, b1) := LengthPrefixed(b).value;
    var (payload, b2) := LengthPrefixed(b1).value;
    PrefixedExact(b);
    PrefixedExact(b1);
    ExpiryExact(b2);
  }

  lemma HeadRoundTrip(kind: Kind, tenant: Bytes, tail: Bytes)
    requires |tenant| < 256
    ensures ReadHead(Headed(kind, tenant, tail)) == Some((kind, tenant, tail))
  {
    DropConcat([kind, |tenant|], tenant + tail);
    DropConcat(tenant, tail);
  }

  lemma HeadExact(pt: Bytes)
    requires ReadHead(pt).Some?
    ensures var (kind, tenant, tail) := ReadHead(pt).value; |tenant| < 256 && Headed(kind, tenant, tail) == pt
  {
    var n, rest := pt[1], pt[2..];
    assert rest == rest[..n] + rest[n..];
    assert pt == [pt[0], pt[1]] + rest;
  }

  lemma ParseLayout(f: Fields)
    requires LengthsFit(f)
    ensures ParseHandle(Layout(f)) == Some(Wrapped(f))
  {
    HeadRoundTrip(f.kind, f.tenant, Tail(f));
    TailRoundTrip(f);
  }

  lemma ParsedIsLaidOut(pt: Bytes)
    requires ParseHandle(pt).Some?
    ensures Fits(ParseHandle(pt).value) && Layout(ParseHandle(pt).value) == pt
  {
    HeadExact(pt);
    var (kind, tenant, tail) := ReadHead(pt).value;
    TailExact(kind, tenant, tail);
  }

  /** The layout is a bijection: what parses is exactly what fits, laid out. */
  lemma HandleLayoutExact(pt: Bytes, f: Fields)
    ensures ParseHandle(pt) == Some(f) <==> Fits(f) && Layout(f) == pt
  {
    if ParseHandle(pt) == Some(f) {
      ParsedIsLaidOut(pt);
    } else if Fits(f) && Layout(f) == pt {
      ParseLayout(f);
      WordRoundTrip(f.expiresAt);
    }
  }

  // ---- Payloads -----------------------------------------------------------------------------

  /** The JSON form of a payload type and its validation. */
  datatype Json<!P> = Json(check: P -> bool, marshal: P -> Option<Bytes>, unmarshal: Bytes -> Option<P>)

  ghost predicate Inverse<P(!new)>(j: Json<P>) {
    forall p :: j.marshal(p).Some? ==> j.unmarshal(j.marshal(p).value) == Some(p)
  }

  function Encode<P>(k: Kind, j: Json<P>, p: P): Option<Bytes> {
    if !j.check(p) then None
    else
      var body :- j.marshal(p);
      if |body| + 2 > MAX_PAYLOAD then None else Some([PAYLOAD_VERSION, k] + body)
  }

  function Decode<P>(k: Kind, j: Json<P>, b: Bytes): Option<P> {
    if |b| < 2 || |b| > MAX_PAYLOAD || b[0] != PAYLOAD_VERSION || b[1] != k then None
    else
      var p :- j.unmarshal(b[2..]);
      if j.check(p) then Some(p) else None
  }

  lemma PayloadRoundTrip<P(!new)>(k: Kind, j: Json<P>, p: P)
    requires Inverse(j) && Encode(k, j, p).Some?
    ensures Decode(k, j, Encode(k, j, p).value) == Some(p) && |Encode(k, j, p).value| <= MAX_PAYLOAD
  {
    DropConcat([PAYLOAD_VERSION, k], j.marshal(p).value);
  }

  /** Exactly which payloads are written, and what is read back: version, kind, size and check all hold. */
  lemma PayloadExact<P>(k: Kind, j: Json<P>, p: P, b: Bytes)
    ensures Encode(k, j, p).Some? <==> j.check(p) && j.marshal(p).Some? && |j.marshal(p).value| <= 4094
    ensures Decode(k, j, b).Some? <==>
      && 2 <= |b| <= 4096 && b[..2] == [PAYLOAD_VERSION, k]
      && j.unmarshal(b[2..]).Some? && j.check(j.unmarshal(b[2..]).value)
    ensures Decode(k, j, b).Some? ==> Decode(k, j, b) == j.unmarshal(b[2..])
  {
  }

  // ---- Sealing and opening ------------------------------------------------------------------

  /** Authenticated encryption of a nonce and a text, under one key and one fixed associated text. */
  datatype Aead = Aead(seal: (Bytes, Bytes) -> Bytes, open: (Bytes, Bytes) -> Option<Bytes>)

  /** What was sealed opens, and nothing else does. */
  ghost predicate Ideal(a: Aead) {
    && (forall n, p :: |a.seal(n, p)| == |p| + OVERHEAD && a.open(n, a.seal(n, p)) == Some(p))
    && (forall n, c :: a.open(n, c).Some? ==> a.seal(n, a.open(n, c).value) == c)
  }

  const PAD: Bytes := [0, 0, 0, 0, 0, 0, 0, 0, 0, 0, 0, 0, 0, 0, 0, 0]

  function Unpad(c: Bytes): Option<Bytes> {
    if PAD <= c then Some(c[OVERHEAD..]) else None
  }

  /** Some cipher meets the laws assumed of one. */
  lemma IdealAeadExists()
    ensures exists a :: Ideal(a)
  {
    var a := Aead((n: Bytes, p: Bytes) => PAD + p, (n: Bytes, c: Bytes) => Unpad(c));
    forall n, p ensures |a.seal(n, p)| == |p| + OVERHEAD && a.open(n, a.seal(n, p)) == Some(p) {
      DropConcat(PAD, p);
    }
    forall n, c | a.open(n, c).Some? ensures a.seal(n, a.open(n, c).value) == c {
      assert c == c[..OVERHEAD] + c[OVERHEAD..];
    }
    assert Ideal(a);
  }

  datatype Failure = NotStateless | BadPayload | BadPending | Expired | Invalid | WrongKind | WrongTenant

  datatype Issued = Issued(raw: Bytes, expiresAt: Time)

  datatype Opened<P> = Opened(pending: Pending, payload: P, expiresAt: Time)

  /** The length of the unpadded base64 text of n bytes. */
  function EncodedLen(n: nat): nat {
    (n * 4 + 2) / 3
  }

  function Frame(nonce: Bytes, ct: Bytes): Bytes {
    [HANDLE_VERSION] + (nonce + ct)
  }

  function SealHandle<P>(a: Aead, k: Kind, j: Json<P>, p: Pending, payload: P, now: Time, nonce: Bytes)
    : Result<Issued, Failure>
  {
    if !Stateless(k) then Err(NotStateless)
    else if Encode(k, j, payload).None? then Err(BadPayload)
    else if SealPending(p).Err? then Err(BadPending)
    else
      var e := ExpiresAt(k, p.expiresAt, now);
      if now >= e then Err(Expired)
      else
        var f := Fields(k, p.tenant, SealPending(p).value, Encode(k, j, payload).value, e);
        var raw := Frame(nonce, a.seal(nonce, Layout(f)));
        if EncodedLen(|raw|) > MAX_HANDLE_CHARS then Err(BadPayload) else Ok(Issued(raw, e))
  }

  function OpenFields<P>(k: Kind, j: Json<P>, t: TenantId, f: Fields, now: Time): Result<Opened<P>, Failure> {
    if f.kind != k then Err(WrongKind)
    else if f.tenant != t then Err(WrongTenant)
    else if now >= f.expiresAt then Err(Expired)
    else
      match UnsealPending(f.pending)
      case Err(_) => Err(Invalid)
      case Ok(p) =>
        if p.tenant != t then Err(Invalid)
        else
          match Decode(k, j, f.payload)
          case None => Err(Invalid)
          case Some(payload) => Ok(Opened(p, payload, f.expiresAt))
  }

  function Unframe(raw: Bytes): Option<(Bytes, Bytes)> {
    if EncodedLen(|raw|) > MAX_HANDLE_CHARS || |raw| < 1 + NONCE_SIZE + OVERHEAD || raw[0] != HANDLE_VERSION then None
    else Some((raw[1..1 + NONCE_SIZE], raw[1 + NONCE_SIZE..]))
  }

  function OpenRaw(a: Aead, raw: Bytes): Option<Fields> {
    var (nonce, ct) :- Unframe(raw);
    var pt :- a.open(nonce, ct);
    ParseHandle(pt)
  }

  function OpenHandle<P>(a: Aead, k: Kind, j: Json<P>, t: TenantId, raw: Bytes, now: Time): Result<Opened<P>, Failure> {
    if !Stateless(k) then Err(NotStateless)
    else
      match OpenRaw(a, raw)
      case None => Err(Invalid)
      case Some(f) => OpenFields(k, j, t, f, now)
  }

  lemma UnframeInverts(nonce: Bytes, ct: Bytes)
    requires |nonce| == NONCE_SIZE && |ct| >= OVERHEAD && EncodedLen(|Frame(nonce, ct)|) <= MAX_HANDLE_CHARS
    ensures Unframe(Frame(nonce, ct)) == Some((nonce, ct))
  {
    var raw := Frame(nonce, ct);
    DropConcat([HANDLE_VERSION], nonce + ct);
    DropConcat(nonce, ct);
    assert raw[1..1 + NONCE_SIZE] == raw[1..][..NONCE_SIZE] && raw[1 + NONCE_SIZE..] == raw[1..][NONCE_SIZE..];
  }

  lemma UnframeExact(raw: Bytes)
    requires Unframe(raw).Some?
    ensures var (nonce, ct) := Unframe(raw).value; |nonce| == NONCE_SIZE && raw == Frame(nonce, ct)
  {
  }

  /** Opening inverts sealing, up to an expiry beyond int64. */
  lemma OpenRawInverts(a: Aead, nonce: Bytes, f: Fields)
    requires Ideal(a) && |nonce| == NONCE_SIZE && LengthsFit(f)
    requires EncodedLen(|Frame(nonce, a.seal(nonce, Layout(f)))|) <= MAX_HANDLE_CHARS
    ensures OpenRaw(a, Frame(nonce, a.seal(nonce, Layout(f)))) == Some(Wrapped(f))
  {
    UnframeInverts(nonce, a.seal(nonce, Layout(f)));
    ParseLayout(f);
  }

  ghost predicate SealedAs(a: Aead, raw: Bytes, f: Fields) {
    exists nonce: Bytes :: |nonce| == NONCE_SIZE && raw == Frame(nonce, a.seal(nonce, Layout(f)))
  }

  /** What opens was framed from the layout of the fields it yields. */
  lemma OpenRawExact(a: Aead, raw: Bytes)
    requires Ideal(a) && OpenRaw(a, raw).Some?
    ensures Fits(OpenRaw(a, raw).value) && SealedAs(a, raw, OpenRaw(a, raw).value)
  {
    UnframeExact(raw);
    var (nonce, ct) := Unframe(raw).value;
    ParsedIsLaidOut(a.open(nonce, ct).value);
    assert raw == Frame(nonce, a.seal(nonce, Layout(OpenRaw(a, raw).value)));
  }

  lemma FieldsOpen<P(!new)>(k: Kind, j: Json<P>, p: Pending, payload: P, f: Fields, k': Kind, t: TenantId, now: Time)
    requires Inverse(j) && WellFormedPending(p) && SealPending(p) == Ok(f.pending)
    requires f.kind == k && f.tenant == p.tenant && Encode(k, j, payload) == Some(f.payload)
    ensures var r := OpenFields(k', j, t, f, now);
      && (r.Ok? <==> k' == k && t == p.tenant && now < f.expiresAt)
      && (r.Ok? ==> r.value == Opened(p, payload, f.expiresAt))
      && (r.Err? ==> r.error == if k' != k then WrongKind else if t != p.tenant then WrongTenant else Expired)
  {
    PendingCodecExact(f.pending, p);
    PayloadRoundTrip(k, j, payload);
  }

  lemma SealedFits<P(!new)>(a: Aead, k: Kind, j: Json<P>, p: Pending, payload: P, now: Time, nonce: Bytes)
    requires Inverse(j) && SealHandle(a, k, j, p, payload, now, nonce).Ok?
    ensures var i := SealHandle(a, k, j, p, payload, now, nonce).value;
      var f := Fields(k, p.tenant, SealPending(p).value, Encode(k, j, payload).value, i.expiresAt);
      LengthsFit(f) && i.raw == Frame(nonce, a.seal(nonce, Layout(f))) && EncodedLen(|i.raw|) <= MAX_HANDLE_CHARS
  {
    PayloadRoundTrip(k, j, payload);
  }

  /**
   * A sealed handle opens exactly for its kind and tenant and before its expiry, to the very Pending
   * and payload it was sealed with. An expiry that is no int64 of nanoseconds is read as another.
   */
  lemma OpenSealed<P(!new)>(a: Aead, k: Kind, j: Json<P>, p: Pending, payload: P, sealedAt: Time, nonce: Bytes,
                            k': Kind, t: TenantId, now: Time)
    requires Ideal(a) && Inverse(j) && WellFormedPending(p) && |nonce| == NONCE_SIZE
    requires SealHandle(a, k, j, p, payload, sealedAt, nonce).Ok?
    ensures var i := SealHandle(a, k, j, p, payload, sealedAt, nonce).value;
      var r := OpenHandle(a, k', j, t, i.raw, now);
      var e := FromWord(Word(i.expiresAt));
      && (r.Ok? <==> k' == k && t == p.tenant && now < e)
      && (r.Ok? ==> r.value == Opened(p, payload, e))
      && (Stateless(k') && r.Err? ==> r.error == if k' != k then WrongKind else if t != p.tenant then WrongTenant else Expired)
      && (e == i.expiresAt <==> InCodecRange(i.expiresAt))
  {
    SealedFits(a, k, j, p, payload, sealedAt, nonce);
    var i := SealHandle(a, k, j, p, payload, sealedAt, nonce).value;
    var f := Fields(k, p.tenant, SealPending(p).value, Encode(k, j, payload).value, i.expiresAt);
    OpenRawInverts(a, nonce, f);
    FieldsOpen(k, j, p, payload, Wrapped(f), k', t, now);
    WordRoundTrip(i.expiresAt);
  }

  /** So the Pending of any journey comes back whole. */
  lemma {:induction false} OpenSealedJourney<P(!new)>(a: Aead, k: Kind, j: Json<P>, h: Histories.Journey, payload: P,
                                                      sealedAt: Time, nonce: Bytes, k': Kind, t: TenantId, now: Time)
    requires Ideal(a) && Inverse(j) && Histories.RunJourney(h).Ok? && |nonce| == NONCE_SIZE
    requires SealHandle(a, k, j, Histories.RunJourney(h).value, payload, sealedAt, nonce).Ok?
    ensures var p := Histories.RunJourney(h).value;
      var i := SealHandle(a, k, j, p, payload, sealedAt, nonce).value;
      var r := OpenHandle(a, k', j, t, i.raw, now);
      var e := FromWord(Word(i.expiresAt));
      && (r.Ok? <==> k' == k && t == p.tenant && now < e)
      && (r.Ok? ==> r.value == Opened(p, payload, e))
  {
    var p := Histories.RunJourney(h).value;
    Histories.JourneySound(h);
    Histories.SoundIsWellFormed(p);
    OpenSealed(a, k, j, p, payload, sealedAt, nonce, k', t, now);
  }

  /** The fields behind what was opened. */
  ghost predicate Yields<P>(k: Kind, j: Json<P>, t: TenantId, f: Fields, now: Time, o: Opened<P>) {
    && f.kind == k && f.tenant == t == o.pending.tenant && now < f.expiresAt == o.expiresAt
    && WellFormedPending(o.pending) && SealPending(o.pending) == Ok(f.pending)
    && Decode(k, j, f.payload) == Some(o.payload)
  }

  lemma FieldsYield<P>(k: Kind, j: Json<P>, t: TenantId, f: Fields, now: Time)
    requires OpenFields(k, j, t, f, now).Ok?
    ensures Yields(k, j, t, f, now, OpenFields(k, j, t, f, now).value)
  {
    PendingCodecExact(f.pending, OpenFields(k, j, t, f, now).value.pending);
  }

  /** A handle that opens was sealed, for this kind and tenant, from the Pending it yields. */
  lemma OpenedWasSealed<P>(a: Aead, k: Kind, j: Json<P>, t: TenantId, raw: Bytes, now: Time)
    requires Ideal(a) && OpenHandle(a, k, j, t, raw, now).Ok?
    ensures OpenRaw(a, raw).Some?
    ensures var f := OpenRaw(a, raw).value;
      SealedAs(a, raw, f) && Yields(k, j, t, f, now, OpenHandle(a, k, j, t, raw, now).value)
  {
    OpenRawExact(a, raw);
    FieldsYield(k, j, t, OpenRaw(a, raw).value, now);
  }

  /** Bytes a handle has room for, beside its framing and length fields. */
  const ROOM := 6085

  lemma LayoutSize(f: Fields)
    ensures |Layout(f)| == 18 + |f.tenant| + |f.pending| + |f.payload|
  {
  }

  lemma FrameSize(a: Aead, nonce: Bytes, f: Fields)
    requires Ideal(a) && |nonce| == NONCE_SIZE
    ensures EncodedLen(|Frame(nonce, a.seal(nonce, Layout(f)))|) <= MAX_HANDLE_CHARS <==>
      |f.tenant| + |f.pending| + |f.payload| <= ROOM
  {
    LayoutSize(f);
    assert |a.seal(nonce, Layout(f))| == |Layout(f)| + OVERHEAD;
  }

  /** Nine minutes for a provider round trip, five for a passkey or an external login. */
  function Lifetime(k: Kind): int {
    if k == 17 then 9 * MINUTE else 5 * MINUTE
  }

  /** The Pending is alive and all parts fit. */
  predicate Sealable<P>(k: Kind, j: Json<P>, p: Pending, payload: P, now: Time) {
    && k in {15, 16, 17, 18} && now < p.expiresAt && SealPending(p).Ok? && Encode(k, j, payload).Some?
    && |p.tenant| + |SealPending(p).value| + |Encode(k, j, payload).value| <= ROOM
  }

  function WhyNotSealed<P>(k: Kind, j: Json<P>, p: Pending, payload: P, now: Time): Failure {
    if k !in {15, 16, 17, 18} then NotStateless
    else if Encode(k, j, payload).None? then BadPayload
    else if SealPending(p).Err? then BadPending
    else if now >= p.expiresAt then Expired
    else BadPayload
  }

  /** Exactly when a handle is issued, for exactly how long, and why not otherwise. */
  lemma SealExact<P>(a: Aead, k: Kind, j: Json<P>, p: Pending, payload: P, now: Time, nonce: Bytes)
    requires Ideal(a) && |nonce| == NONCE_SIZE
    ensures var r := SealHandle(a, k, j, p, payload, now, nonce);
      && (r.Ok? <==> Sealable(k, j, p, payload, now))
      && (r.Ok? ==> r.value.expiresAt - now == (if p.expiresAt - now < Lifetime(k) then p.expiresAt - now else Lifetime(k)))
      && (r.Err? ==> r.error == WhyNotSealed(k, j, p, payload, now))
  {
    if Stateless(k) && Encode(k, j, payload).Some? && SealPending(p).Ok? {
      var e := ExpiresAt(k, p.expiresAt, now);
      FrameSize(a, nonce, Fields(k, p.tenant, SealPending(p).value, Encode(k, j, payload).value, e));
    }
  }

  /** A handle never outlives the Pending it carries. */
  lemma HandleWithinPending<P>(a: Aead, k: Kind, j: Json<P>, p: Pending, payload: P, now: Time, nonce: Bytes)
    requires SealHandle(a, k, j, p, payload, now, nonce).Ok?
    ensures now < SealHandle(a, k, j, p, payload, now, nonce).value.expiresAt <= p.expiresAt
  {
  }
}
