/** The codec as it runs: an encoder that appends to a buffer, a decoder that consumes one. */
module BufferCodec {
  import opened Prelude
  import opened Factors
  import opened Domain
  import opened Wire
  import opened Codec
  import opened PendingCodec

  // ---- Lists, from the left -----------------------------------------------------------------

  lemma {:induction false} FlattenSnoc<T>(xs: seq<T>, enc: T -> Bytes, i: nat)
    requires i < |xs|
    ensures Flatten(xs[..i + 1], enc) == Flatten(xs[..i], enc) + enc(xs[i])
  {
    if i == 0 {
      assert xs[..1][1..] == [] && xs[..0] == [];
    } else {
      FlattenSnoc(xs[1..], enc, i - 1);
      assert xs[..i + 1][1..] == xs[1..][..i] && xs[..i][1..] == xs[1..][..i - 1];
      ConcatAssociates(enc(xs[0]), Flatten(xs[1..][..i - 1], enc), enc(xs[i]));
    }
  }

  /** Reading one more element, from the end of what was read. */
  function ReadNext<T>(r: Option<(seq<T>, Bytes)>, read: Bytes -> Option<(T, Bytes)>): Option<(seq<T>, Bytes)> {
    var (xs, rest) :- r;
    var (x, rest) :- read(rest);
    Some((xs + [x], rest))
  }

  lemma {:induction false} ReadManySnoc<T>(b: Bytes, n: nat, read: Bytes -> Option<(T, Bytes)>)
    ensures ReadMany(b, n + 1, read) == ReadNext(ReadMany(b, n, read), read)
    decreases n
  {
    if n == 0 {
      assert read(b).Some? ==> [read(b).value.0] + [] == [] + [read(b).value.0];
    } else if read(b).Some? {
      var (x, b1) := read(b).value;
      ReadManySnoc(b1, n - 1, read);
      var r := ReadMany(b1, n - 1, read);
      if r.Some? && read(r.value.1).Some? {
        ConcatAssociates([x], r.value.0, [read(r.value.1).value.0]);
      }
    }
  }

  /** A failed or disordered prefix fails the list. */
  lemma {:induction false} ReadManyPrefix<T>(b: Bytes, i: nat, n: nat, read: Bytes -> Option<(T, Bytes)>)
    requires i <= n
    ensures ReadMany(b, i, read).None? ==> ReadMany(b, n, read).None?
    ensures ReadMany(b, n, read).Some? ==> ReadMany(b, i, read).value.0 <= ReadMany(b, n, read).value.0
    decreases n
  {
    if i < n {
      ReadManySnoc(b, n - 1, read);
      ReadManyPrefix(b, i, n - 1, read);
    }
  }

  // ---- Encoder ------------------------------------------------------------------------------

  class Encoder {
    var b: Bytes
    var err: bool

    constructor (tag: Byte)
      ensures b == [CODEC_VERSION, tag] && !err
    {
      b := [CODEC_VERSION, tag];
      err := false;
    }

    method PutCount(n: nat)
      modifies this
      ensures b == old(b) + Uvarint(n) && err == old(err)
    {
      b := b + Uvarint(n);
    }

    method PutBytes(p: Bytes)
      modifies this
      ensures b == old(b) + Field(p) && err == old(err)
    {
      PutCount(|p|);
      b := b + p;
      ConcatAssociates(old(b), Uvarint(|p|), p);
    }

    method PutU64(v: U64)
      modifies this
      ensures b == old(b) + U64Field(v) && err == old(err)
    {
      PutBytes(BigEndian(v, 8));
    }

    method PutBool(v: bool)
      modifies this
      ensures b == old(b) + BoolField(v) && err == old(err)
    {
      if v {
        PutBytes([1]);
        return;
      }
      PutBytes([0]);
    }

    method PutUuid(u: Uuid)
      modifies this
      ensures b == old(b) + UuidField(u) && err == old(err)
    {
      PutBytes(BigEndian(u, 16));
    }

    /** Out of range, the instant is recorded as an error and nothing is written. */
    method PutTime(t: Time)
      modifies this
      ensures b == old(b) + TimeField(t) && err == (old(err) || !Codable(t))
    {
      if IsZero(t) {
        PutBytes([]);
        return;
      }
      if t < MIN_I64 || t > MAX_I64 {
        err := true;
        return;
      }
      PutU64(ToWord(t));
    }

    method PutSubject(t: TenantId, user: Uuid)
      modifies this
      ensures b == old(b) + SubjectFields(t, user) && err == old(err)
    {
      PutBytes(t);
      PutUuid(user);
      ConcatAssociates(old(b), Field(t), UuidField(user));
    }

    method PutFactors(fs: seq<Factor>)
      modifies this
      ensures b == old(b) + FactorsField(fs) && err == old(err)
    {
      ghost var b0, failed := b, err;
      PutCount(|fs|);
      for i := 0 to |fs|
        invariant b == (b0 + Uvarint(|fs|)) + Flatten(fs[..i], FactorField) && err == failed
      {
        FlattenSnoc(fs, FactorField, i);
        ConcatAssociates(b0 + Uvarint(|fs|), Flatten(fs[..i], FactorField), FactorField(fs[i]));
        PutBytes(Code(fs[i]));
      }
      assert fs[..|fs|] == fs;
      ConcatAssociates(b0, Uvarint(|fs|), Flatten(fs, FactorField));
    }

    method PutUses(us: seq<CredentialUse>)
      modifies this
      ensures b == old(b) + ListField(us, UseFields) && err == old(err)
    {
      ghost var b0, failed := b, err;
      PutCount(|us|);
      for i := 0 to |us|
        invariant b == (b0 + Uvarint(|us|)) + Flatten(us[..i], UseFields) && err == failed
      {
        ghost var before := b;
        FlattenSnoc(us, UseFields, i);
        ConcatAssociates(b0 + Uvarint(|us|), Flatten(us[..i], UseFields), UseFields(us[i]));
        ConcatAssociates(before, FactorField(us[i].factor), Field(us[i].id));
        PutBytes(Code(us[i].factor));
        PutBytes(us[i].id);
      }
      assert us[..|us|] == us;
      ConcatAssociates(b0, Uvarint(|us|), Flatten(us, UseFields));
    }

    method PutVerified(v: Verified)
      modifies this
      ensures b == old(b) + VerifiedFields(v) && err == (old(err) || !Codable(v.at))
    {
      ghost var full := b + VerifiedFields(v);
      ghost var t4 := TimeField(v.at);
      ghost var t3 := Field(v.provider) + t4;
      ghost var t2 := BoolField(v.identifies) + t3;
      ghost var t1 := Field(v.credentialId) + t2;
      Carry(b, FactorsField(v.factors), t1, full);
      PutFactors(v.factors);
      Carry(b, Field(v.credentialId), t2, full);
      PutBytes(v.credentialId);
      Carry(b, BoolField(v.identifies), t3, full);
      PutBool(v.identifies);
      Carry(b, Field(v.provider), t4, full);
      PutBytes(v.provider);
      PutTime(v.at);
    }

    method Finish() returns (r: Result<Bytes, Error>)
      ensures r == if err || |b| > MAX_SEALED_LEN then Err(Malformed) else Ok(b)
    {
      if err {
        return Err(Malformed);
      }
      if |b| > MAX_SEALED_LEN {
        return Err(Malformed);
      }
      return Ok(b);
    }
  }

  /** What is written and what remains to write always make up the whole. */
  lemma Carry(b: Bytes, x: Bytes, rest: Bytes, full: Bytes)
    requires b + (x + rest) == full
    ensures (b + x) + rest == full
  {
    ConcatAssociates(b, x, rest);
  }

  method CheckAttrsLoop(a: SessionAttrs) returns (ok: bool)
    ensures ok == CheckAttrs(a)
  {
    if a.lineage == NIL_UUID || a.subject.NoUser() || !HasRole(a.factors, Primary) || !ValidTransport(a.transport) {
      return false;
    }
    for i := 0 to |a.credentialIds|
      invariant forall k | 0 <= k < i :: GoodUse(a.factors, a.credentialIds[k])
    {
      if !GoodUse(a.factors, a.credentialIds[i]) {
        return false;
      }
    }
    return true;
  }

  method CheckPendingLoop(p: Pending) returns (ok: bool)
    ensures ok == CheckPending(p)
  {
    if !ValidTransport(p.transport) || IsZero(p.expiresAt) || (p.verified != [] && !p.Bound()) {
      return false;
    }
    for i := 0 to |p.verified|
      invariant forall k | 0 <= k < i :: GoodVerified(p.verified[k])
    {
      var v := p.verified[i];
      assert v in p.verified;
      if IsZero(v.at) {
        return false;
      }
      var shaped := CheckVerifiedShape(v.factors, v.credentialId, v.identifies, v.provider);
      if !shaped {
        return false;
      }
    }
    return true;
  }

  method Seal(a: SessionAttrs) returns (r: Result<Bytes, Error>)
    ensures r == SealAttrs(a)
  {
    if a.version == 0 {
      return Err(InvalidArgument);
    }
    var ok := CheckAttrsLoop(a);
    if !ok {
      return Err(InvalidArgument);
    }
    var e := new Encoder(TAG_ATTRS);
    ghost var t := AttrsTail(a);
    ghost var full := [CODEC_VERSION, TAG_ATTRS] + AttrsBody(a);
    ghost var t3 := ListField(a.credentialIds, UseFields) + t;
    ghost var t2 := FactorsField(a.factors) + t3;
    ghost var t1 := SubjectFields(a.subject.tenant, a.subject.user) + t2;
    Carry(e.b, UuidField(a.lineage), t1, full);
    e.PutUuid(a.lineage);
    Carry(e.b, SubjectFields(a.subject.tenant, a.subject.user), t2, full);
    e.PutSubject(a.subject.tenant, a.subject.user);
    Carry(e.b, FactorsField(a.factors), t3, full);
    e.PutFactors(a.factors);
    Carry(e.b, ListField(a.credentialIds, UseFields), t, full);
    e.PutUses(a.credentialIds);
    PutAttrsTail(e, a);
    r := e.Finish();
  }

  method PutAttrsTail(e: Encoder, a: SessionAttrs)
    modifies e
    ensures e.b == old(e.b) + AttrsTail(a) && e.err == (old(e.err) || !AttrsTimesCodable(a))
  {
    ghost var full := e.b + AttrsTail(a);
    ghost var t4 := BoolField(a.remember) + AttrsEnd(a);
    ghost var t3 := BoolField(a.mustChange) + t4;
    ghost var t2 := U64Field(a.epoch) + t3;
    ghost var t1 := TimeField(a.secondAt) + t2;
    Carry(e.b, TimeField(a.primaryAt), t1, full);
    e.PutTime(a.primaryAt);
    Carry(e.b, TimeField(a.secondAt), t2, full);
    e.PutTime(a.secondAt);
    Carry(e.b, U64Field(a.epoch), t3, full);
    e.PutU64(a.epoch);
    Carry(e.b, BoolField(a.mustChange), t4, full);
    e.PutBool(a.mustChange);
    Carry(e.b, BoolField(a.remember), AttrsEnd(a), full);
    e.PutBool(a.remember);
    PutAttrsEnd(e, a);
  }

  method PutAttrsEnd(e: Encoder, a: SessionAttrs)
    modifies e
    ensures e.b == old(e.b) + AttrsEnd(a)
    ensures e.err == (old(e.err) || !(Codable(a.createdAt) && Codable(a.claimsFetchedAt)))
  {
    ghost var full := e.b + AttrsEnd(a);
    ghost var t4 := TimeField(a.claimsFetchedAt);
    ghost var t3 := TimeField(a.createdAt) + t4;
    ghost var t2 := Field(a.provider) + t3;
    ghost var t1 := Field([a.transport]) + t2;
    Carry(e.b, Field(a.returnTo), t1, full);
    e.PutBytes(a.returnTo);
    Carry(e.b, Field([a.transport]), t2, full);
    e.PutBytes([a.transport]);
    Carry(e.b, Field(a.provider), t3, full);
    e.PutBytes(a.provider);
    Carry(e.b, TimeField(a.createdAt), t4, full);
    e.PutTime(a.createdAt);
    e.PutTime(a.claimsFetchedAt);
  }

  lemma AllCodableSnoc(vs: seq<Verified>, i: nat)
    requires i < |vs|
    ensures AllCodable(vs[..i + 1]) <==> AllCodable(vs[..i]) && Codable(vs[i].at)
  {
    PrefixGrows(vs, i);
    assert vs[i] in vs[..i + 1];
  }

  method PutVerifieds(e: Encoder, vs: seq<Verified>)
    modifies e
    ensures e.b == old(e.b) + ListField(vs, VerifiedFields) && e.err == (old(e.err) || !AllCodable(vs))
  {
    ghost var b0, failed := e.b, e.err;
    e.PutCount(|vs|);
    for i := 0 to |vs|
      invariant e.b == (b0 + Uvarint(|vs|)) + Flatten(vs[..i], VerifiedFields)
      invariant e.err == (failed || !AllCodable(vs[..i]))
    {
      FlattenSnoc(vs, VerifiedFields, i);
      AllCodableSnoc(vs, i);
      ConcatAssociates(b0 + Uvarint(|vs|), Flatten(vs[..i], VerifiedFields), VerifiedFields(vs[i]));
      e.PutVerified(vs[i]);
    }
    assert vs[..|vs|] == vs;
    ConcatAssociates(b0, Uvarint(|vs|), Flatten(vs, VerifiedFields));
  }

  method PutPendingTail(e: Encoder, p: Pending)
    modifies e
    ensures e.b == old(e.b) + PendingTail(p) && e.err == (old(e.err) || !Codable(p.expiresAt))
  {
    ghost var full := e.b + PendingTail(p);
    ghost var t6 := TimeField(p.expiresAt);
    ghost var t5 := Field(p.bindHash) + t6;
    ghost var t4 := PendingEnd(p);
    ghost var t3 := Field(p.provider) + t4;
    ghost var t2 := Field([p.transport]) + t3;
    ghost var t1 := Field(p.returnTo) + t2;
    Carry(e.b, BoolField(p.remember), t1, full);
    e.PutBool(p.remember);
    Carry(e.b, Field(p.returnTo), t2, full);
    e.PutBytes(p.returnTo);
    Carry(e.b, Field([p.transport]), t3, full);
    e.PutBytes([p.transport]);
    Carry(e.b, Field(p.provider), t4, full);
    e.PutBytes(p.provider);
    Carry(e.b, UuidField(p.reauthOf), t5, full);
    e.PutUuid(p.reauthOf);
    Carry(e.b, Field(p.bindHash), t6, full);
    e.PutBytes(p.bindHash);
    e.PutTime(p.expiresAt);
  }

  method SealJourney(p: Pending) returns (r: Result<Bytes, Error>)
    ensures r == SealPending(p)
  {
    if p.version == 0 {
      return Err(InvalidArgument);
    }
    var ok := CheckPendingLoop(p);
    if !ok {
      return Err(InvalidArgument);
    }
    var e := new Encoder(TAG_PENDING);
    ghost var full := [CODEC_VERSION, TAG_PENDING] + PendingBody(p);
    ghost var t3 := PendingTail(p);
    ghost var t2 := ListField(p.verified, VerifiedFields) + t3;
    ghost var t1 := U64Field(p.epochAtBind) + t2;
    Carry(e.b, SubjectFields(p.tenant, p.subject.user), t1, full);
    e.PutSubject(p.tenant, p.subject.user);
    Carry(e.b, U64Field(p.epochAtBind), t2, full);
    e.PutU64(p.epochAtBind);
    Carry(e.b, ListField(p.verified, VerifiedFields), t3, full);
    PutVerifieds(e, p.verified);
    PutPendingTail(e, p);
    r := e.Finish();
  }

  // ---- Factor lists, from the left ----------------------------------------------------------

  lemma SortedSnoc(fs: seq<Factor>, f: Factor)
    requires Sorted(fs)
    ensures Sorted(fs + [f]) <==> fs == [] || Rank(fs[|fs| - 1]) < Rank(f)
  {
    var all := fs + [f];
    if fs != [] {
      assert all[|fs| - 1] == fs[|fs| - 1] && all[|fs|] == f;
    }
  }

  function OnlySorted(r: Option<(seq<Factor>, Bytes)>): Option<(seq<Factor>, Bytes)> {
    var (fs, rest) :- r;
    if Sorted(fs) then Some((fs, rest)) else None
  }

  /** A list that fails, or is out of order, after i elements is refused whatever follows. */
  lemma UnsortedPrefix(b: Bytes, i: nat, n: nat)
    requires i <= n
    ensures OnlySorted(ReadMany(b, i, ReadFactor)).None? ==> OnlySorted(ReadMany(b, n, ReadFactor)).None?
  {
    ReadManyPrefix(b, i, n, ReadFactor);
    var all := ReadMany(b, n, ReadFactor);
    if all.Some? && Sorted(all.value.0) {
      var fs := ReadMany(b, i, ReadFactor).value.0;
      assert forall k | 0 <= k < |fs| :: fs[k] == all.value.0[k];
    }
  }

  /** What the next factor of a list decides. */
  lemma NextFactor(b: Bytes, i: nat, n: nat, fs: seq<Factor>, rest: Bytes, r: Option<(Factor, Bytes)>)
    requires i < n && Sorted(fs) && ReadMany(b, i, ReadFactor) == Some((fs, rest)) && r == ReadFactor(rest)
    ensures r.Some? ==> ReadMany(b, i + 1, ReadFactor) == Some((fs + [r.value.0], r.value.1))
    ensures r.Some? && (fs == [] || Rank(fs[|fs| - 1]) < Rank(r.value.0)) ==> Sorted(fs + [r.value.0])
    ensures r.None? || !(fs == [] || Rank(fs[|fs| - 1]) < Rank(r.value.0)) ==>
              OnlySorted(ReadMany(b, n, ReadFactor)).None?
  {
    ReadManySnoc(b, i, ReadFactor);
    UnsortedPrefix(b, i + 1, n);
    if r.Some? {
      SortedSnoc(fs, r.value.0);
    }
  }

  // ---- Decoder ------------------------------------------------------------------------------

  /** The error is sticky: after the first failure nothing is left to read and nothing succeeds. */
  class Decoder {
    var b: Bytes
    var err: bool

    constructor (rest: Bytes)
      ensures b == rest && !err
    {
      b := rest;
      err := false;
    }

    /** A field read into v: nothing after a failure, else v and the bytes that remain. */
    ghost function Got<T>(v: T): Option<(T, Bytes)>
      reads this
    {
      if err then None else Some((v, b))
    }

    method Fail()
      modifies this
      ensures err && b == []
    {
      err := true;
      b := [];
    }

    method Count() returns (n: nat)
      modifies this
      ensures if old(err) then err else Got(n) == ReadCount(old(b))
      ensures err ==> n == 0
    {
      if err {
        return 0;
      }
      var r := ReadUvarint(b, 0);
      if r.None? || r.value.0 > |r.value.1| {
        Fail();
        return 0;
      }
      b := r.value.1;
      return r.value.0;
    }

    method TakeBytes() returns (p: Bytes)
      modifies this
      ensures if old(err) then err else Got(p) == ReadField(old(b))
      ensures err ==> p == []
    {
      var n := Count();
      if err {
        return [];
      }
      p := b[..n];
      b := b[n..];
    }

    method Fixed(size: nat) returns (p: Bytes)
      modifies this
      ensures if old(err) then err else Got(p) == ReadFixed(old(b), size)
      ensures if err then p == [] else |p| == size
    {
      p := TakeBytes();
      if !err && |p| != size {
        Fail();
        return [];
      }
    }

    method TakeU64() returns (v: U64)
      modifies this
      ensures if old(err) then err else Got(v) == ReadU64(old(b))
    {
      var p := Fixed(8);
      if err {
        return 0;
      }
      FromBigEndianRoundTrip(p);
      Pow256Values();
      return FromBigEndian(p);
    }

    method TakeBool() returns (v: bool)
      modifies this
      ensures if old(err) then err else Got(v) == ReadBool(old(b))
    {
      var p := Fixed(1);
      if err {
        return false;
      }
      if p[0] > 1 {
        Fail();
      }
      return p[0] == 1;
    }

    method TakeUuid() returns (u: Uuid)
      modifies this
      ensures if old(err) then err else Got(u) == ReadUuid(old(b))
    {
      var p := Fixed(16);
      if err {
        return NIL_UUID;
      }
      FromBigEndianRoundTrip(p);
      Pow256Values();
      return FromBigEndian(p);
    }

    method TakeTime() returns (t: Time)
      modifies this
      ensures if old(err) then err else Got(t) == ReadTime(old(b))
    {
      var p := TakeBytes();
      if err || p == [] {
        return ZERO_TIME;
      }
      if |p| != 8 {
        Fail();
        return ZERO_TIME;
      }
      FromBigEndianRoundTrip(p);
      Pow256Values();
      return FromWord(FromBigEndian(p));
    }

    method TakeTransport() returns (v: Byte)
      modifies this
      ensures if old(err) then err else Got(v) == ReadByte(old(b))
    {
      var p := Fixed(1);
      if err {
        return 0;
      }
      return p[0];
    }

    method TakeSubject() returns (s: Subject)
      modifies this
      ensures if old(err) then err else Got(s) == ReadSubject(old(b))
    {
      var raw := TakeBytes();
      var user := TakeUuid();
      if err {
        return ZERO_SUBJECT;
      }
      if raw != [] && !TenantName(raw) {
        Fail();
        return ZERO_SUBJECT;
      }
      return Subject(raw, user);
    }

    method TakeFactor() returns (f: Factor)
      modifies this
      ensures if old(err) then err else Got(f) == ReadFactor(old(b))
    {
      var code := TakeBytes();
      if err {
        return NoFactor;
      }
      var r := FactorByCode(code);
      if r.None? {
        Fail();
        return NoFactor;
      }
      return r.value;
    }

    method TakeFactors() returns (fs: seq<Factor>)
      modifies this
      ensures if old(err) then err else Got(fs) == ReadFactors(old(b))
    {
      var n := Count();
      if err {
        return [];
      }
      fs := TakeAscending(n);
    }

    method TakeAscending(n: nat) returns (fs: seq<Factor>)
      requires !err
      modifies this
      ensures Got(fs) == OnlySorted(ReadMany(old(b), n, ReadFactor))
    {
      ghost var b0 := b;
      fs := [];
      for i := 0 to n
        invariant !err && Sorted(fs) && ReadMany(b0, i, ReadFactor) == Some((fs, b))
      {
        ghost var rest := b;
        var f := TakeFactor();
        NextFactor(b0, i, n, fs, rest, Got(f));
        if err {
          return [];
        }
        if fs != [] && Rank(fs[|fs| - 1]) >= Rank(f) {
          Fail();
          return [];
        }
        fs := fs + [f];
      }
    }

    method TakeUse(us: seq<CredentialUse>) returns (all: seq<CredentialUse>)
      modifies this
      ensures Got(all) == ReadNext(old(Got(us)), ReadUse)
    {
      var f := TakeFactor();
      var id := TakeBytes();
      all := us + [CredentialUse(f, id)];
    }

    method TakeUses() returns (us: seq<CredentialUse>)
      modifies this
      ensures if old(err) then err else Got(us) == ReadList(old(b), ReadUse)
    {
      var n := Count();
      ghost var b0, stuck := b, err;
      us := [];
      for i := 0 to n
        invariant if stuck then err else Got(us) == ReadMany(b0, i, ReadUse)
      {
        ReadManySnoc(b0, i, ReadUse);
        us := TakeUse(us);
      }
    }

    method TakeVerified(subject: Subject) returns (v: Verified)
      modifies this
      ensures if old(err) then err else Got(v) == ReadVerified(subject, old(b))
    {
      var factors := TakeFactors();
      var credentialId := TakeBytes();
      var identifies := TakeBool();
      var provider := TakeBytes();
      var at := TakeTime();
      v := Verified(subject, factors, credentialId, identifies, provider, at);
    }

    method TakeAnother(subject: Subject, vs: seq<Verified>) returns (all: seq<Verified>)
      modifies this
      ensures Got(all) == ReadNext(old(Got(vs)), VerifiedReader(subject))
    {
      var v := TakeVerified(subject);
      all := vs + [v];
    }

    method TakeManyVerified(subject: Subject, n: nat) returns (vs: seq<Verified>)
      requires !err
      modifies this
      ensures Got(vs) == ReadMany(old(b), n, VerifiedReader(subject))
    {
      ghost var read, b0 := VerifiedReader(subject), b;
      vs := [];
      for i := 0 to n
        invariant Got(vs) == ReadMany(b0, i, read)
      {
        ReadManySnoc(b0, i, read);
        vs := TakeAnother(subject, vs);
      }
    }

    method TakeVerifieds(subject: Subject) returns (vs: seq<Verified>)
      modifies this
      ensures if old(err) then err else Got(vs) == ReadList(old(b), VerifiedReader(subject))
    {
      var n := Count();
      if err {
        return [];
      }
      vs := TakeManyVerified(subject, n);
    }

    method TakeAttrsFlags(head: SessionAttrs) returns (a: SessionAttrs)
      modifies this
      ensures if old(err) then err else Got(a) == ReadAttrsFlags(head, old(b))
    {
      var primaryAt := TakeTime();
      var secondAt := TakeTime();
      var epoch := TakeU64();
      var mustChange := TakeBool();
      var remember := TakeBool();
      a := head.(primaryAt := primaryAt, secondAt := secondAt, epoch := epoch, mustChange := mustChange,
      remember := remember);
    }

    method TakeAttrsEnd(head: SessionAttrs) returns (a: SessionAttrs)
      modifies this
      ensures if old(err) then err else Got(a) == ReadAttrsEnd(head, old(b))
    {
      var returnTo := TakeBytes();
      var transport := TakeTransport();
      var provider := TakeBytes();
      var createdAt := TakeTime();
      var claimsFetchedAt := TakeTime();
      a := head.(returnTo := returnTo, transport := transport, provider := provider, createdAt := createdAt,
      claimsFetchedAt := claimsFetchedAt);
    }

    method TakeAttrsTail(head: SessionAttrs) returns (a: SessionAttrs)
      modifies this
      ensures if old(err) then err else Got(a) == ReadAttrsTail(head, old(b))
    {
      a := TakeAttrsFlags(head);
      a := TakeAttrsEnd(a);
    }

    method TakePendingChoices(head: Pending) returns (p: Pending)
      modifies this
      ensures if old(err) then err else Got(p) == ReadPendingChoices(head, old(b))
    {
      var remember := TakeBool();
      var returnTo := TakeBytes();
      var transport := TakeTransport();
      var provider := TakeBytes();
      p := head.(remember := remember, returnTo := returnTo, transport := transport, provider := provider);
    }

    method TakePendingEnd(head: Pending) returns (p: Pending)
      modifies this
      ensures if old(err) then err else Got(p) == ReadPendingEnd(head, old(b))
    {
      var reauthOf := TakeUuid();
      var bindHash := TakeBytes();
      var expiresAt := TakeTime();
      p := head.(reauthOf := reauthOf, bindHash := bindHash, expiresAt := expiresAt);
    }

    method TakePendingTail(head: Pending) returns (p: Pending)
      modifies this
      ensures if old(err) then err else Got(p) == ReadPendingTail(head, old(b))
    {
      p := TakePendingChoices(head);
      p := TakePendingEnd(p);
    }

    method TakeAttrs() returns (a: SessionAttrs)
      modifies this
      ensures if old(err) then err else Got(a) == ReadAttrs(old(b))
    {
      var lineage := TakeUuid();
      var subject := TakeSubject();
      var factors := TakeFactors();
      var uses := TakeUses();
      a := TakeAttrsTail(
        BLANK_ATTRS.(lineage := lineage, subject := subject, factors := factors, credentialIds := uses));
    }

    method TakePending() returns (p: Pending)
      modifies this
      ensures if old(err) then err else Got(p) == ReadPending(old(b))
    {
      var bound := TakeSubject();
      var subject := if bound.NoUser() then ZERO_SUBJECT else bound;
      var epochAtBind := TakeU64();
      var verified := TakeVerifieds(subject);
      p := TakePendingTail(
        ZERO_PENDING.(version := CODEC_VERSION, tenant := bound.tenant, subject := subject,
        epochAtBind := epochAtBind, verified := verified));
    }

    predicate Done()
      reads this
    {
      !err && b == []
    }
  }

  method Unseal(b: Bytes) returns (r: Result<SessionAttrs, Error>)
    ensures r == UnsealAttrs(b)
  {
    if |b| < 2 || |b| > MAX_SEALED_LEN || b[0] != CODEC_VERSION || b[1] != TAG_ATTRS {
      return Err(Malformed);
    }
    var d := new Decoder(b[2..]);
    var a := d.TakeAttrs();
    if !d.Done() {
      return Err(Malformed);
    }
    var ok := CheckAttrsLoop(a);
    if !ok {
      return Err(Malformed);
    }
    var again := Seal(a);
    if again != Ok(b) {
      return Err(Malformed);
    }
    return Ok(a);
  }

  method UnsealJourney(b: Bytes) returns (r: Result<Pending, Error>)
    ensures r == UnsealPending(b)
  {
    if |b| < 2 || |b| > MAX_SEALED_LEN || b[0] != CODEC_VERSION || b[1] != TAG_PENDING {
      return Err(Malformed);
    }
    var d := new Decoder(b[2..]);
    var p := d.TakePending();
    if !d.Done() {
      return Err(Malformed);
    }
    var ok := CheckPendingLoop(p);
    if !ok {
      return Err(Malformed);
    }
    var again := SealJourney(p);
    if again != Ok(b) {
      return Err(Malformed);
    }
    return Ok(p);
  }
}
