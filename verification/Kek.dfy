/** The key-encryption ring: the ciphertext header, what it binds, and what a rotation keeps readable. */
module Kek {
  import opened Prelude

  const FORMAT: Byte := 1
  const MAX_KEY_ID := 64
  const NONCE_SIZE := 12
  const TAG_SIZE := 16

  datatype Failure = InvalidKey | AadRequired | Malformed | UnknownKey | OpenFailed

  type Key = Bytes

  /** Key checks, key ids and encryption with associated data, per key. */
  datatype Cipher = Cipher(
    accepts: Key -> bool, id: Key -> Bytes,
    seal: (Key, Bytes, Bytes, Bytes) -> Bytes, open: (Key, Bytes, Bytes, Bytes) -> Option<Bytes>)

  predicate GoodId(id: Bytes) {
    0 < |id| <= MAX_KEY_ID
  }

  /** What was sealed opens under the same key, nonce and associated data, and under no others. */
  ghost predicate Ideal(c: Cipher) {
    && (forall k :: GoodId(c.id(k)))
    && (forall k, n, p, a :: |c.seal(k, n, p, a)| >= TAG_SIZE && c.open(k, n, c.seal(k, n, p, a), a) == Some(p))
    && (forall k, n, t, a :: c.open(k, n, t, a).Some? ==> t == c.seal(k, n, c.open(k, n, t, a).value, a))
    && (forall k, l, n, p, a, b :: c.open(l, n, c.seal(k, n, p, a), b).Some? ==> k == l && a == b)
  }

  // ---- Ring ---------------------------------------------------------------------------------

  datatype Ring = Ring(current: Key, byId: map<Bytes, Key>)

  predicate Distinct(c: Cipher, ks: seq<Key>) {
    forall i, j | 0 <= i < j < |ks| :: c.id(ks[i]) != c.id(ks[j])
  }

  predicate Acceptable(c: Cipher, ks: seq<Key>) {
    (forall k | k in ks :: c.accepts(k)) && Distinct(c, ks)
  }

  /** The ring holds exactly these keys, each under its own id. */
  predicate Holds(c: Cipher, r: Ring, ks: seq<Key>) {
    && (forall k | k in ks :: c.id(k) in r.byId && r.byId[c.id(k)] == k)
    && (forall id | id in r.byId :: r.byId[id] in ks && c.id(r.byId[id]) == id)
  }

  method NewLocal(c: Cipher, current: Key, previous: seq<Key>) returns (r: Result<Ring, Failure>)
    ensures r.Ok? <==> Acceptable(c, [current] + previous)
    ensures r.Ok? ==> r.value.current == current && Holds(c, r.value, [current] + previous)
  {
    var all := [current] + previous;
    if !c.accepts(current) {
      assert current in all;
      return Err(InvalidKey);
    }
    var byId := map[c.id(current) := current];
    assert all[..1] == [current];
    for i := 0 to |previous|
      invariant Acceptable(c, all[..i + 1]) && Holds(c, Ring(current, byId), all[..i + 1])
    {
      var k := previous[i];
      assert k == all[i + 1];
      PrefixGrows(all, i + 1);
      if !c.accepts(k) {
        assert k in all;
        return Err(InvalidKey);
      }
      if c.id(k) in byId {
        DuplicateIsNotDistinct(c, all, i + 1, byId[c.id(k)]);
        return Err(InvalidKey);
      }
      HoldsOneMore(c, Ring(current, byId), all[..i + 1], k);
      byId := byId[c.id(k) := k];
    }
    assert all[..|previous| + 1] == all;
    return Ok(Ring(current, byId));
  }

  lemma HoldsOneMore(c: Cipher, r: Ring, ks: seq<Key>, k: Key)
    requires Acceptable(c, ks) && Holds(c, r, ks) && c.accepts(k) && c.id(k) !in r.byId
    ensures Acceptable(c, ks + [k]) && Holds(c, r.(byId := r.byId[c.id(k) := k]), ks + [k])
  {
    forall i | 0 <= i < |ks| ensures c.id(ks[i]) != c.id(k) {
      assert ks[i] in ks;
    }
  }

  lemma DuplicateIsNotDistinct(c: Cipher, ks: seq<Key>, n: nat, k: Key)
    requires n < |ks| && k in ks[..n] && c.id(k) == c.id(ks[n])
    ensures !Distinct(c, ks)
  {
    var i :| 0 <= i < n && ks[i] == k;
  }

  // ---- Format -------------------------------------------------------------------------------

  function Header(id: Bytes): Bytes {
    [FORMAT, |id| % 256] + id
  }

  /** The key id and what follows the header. */
  function ParseHeader(ct: Bytes): Option<(Bytes, Bytes)> {
    if |ct| < 2 || ct[0] != FORMAT then None
    else
      var n := ct[1];
      if n == 0 || n > MAX_KEY_ID || |ct| < 2 + n then None else Some((ct[2..2 + n], ct[2 + n..]))
  }

  lemma HeaderRoundTrip(id: Bytes, rest: Bytes)
    requires GoodId(id)
    ensures ParseHeader(Header(id) + rest) == Some((id, rest))
  {
    var ct := Header(id) + rest;
    assert ct[2..2 + |id|] == id && ct[2 + |id|..] == rest;
  }

  lemma HeaderExact(ct: Bytes)
    requires ParseHeader(ct).Some?
    ensures var (id, rest) := ParseHeader(ct).value; GoodId(id) && ct == Header(id) + rest
  {
    var (id, rest) := ParseHeader(ct).value;
    assert ct == [ct[0], ct[1]] + id + rest;
  }

  /** Header and associated data are only joined, and yet the whole tells both apart. */
  lemma BoundDataInjective(id: Bytes, aad: Bytes, id': Bytes, aad': Bytes)
    requires GoodId(id) && GoodId(id') && Header(id) + aad == Header(id') + aad'
    ensures id == id' && aad == aad'
  {
    HeaderRoundTrip(id, aad);
    HeaderRoundTrip(id', aad');
  }

  // ---- Sealing and opening ------------------------------------------------------------------

  function Seal(c: Cipher, r: Ring, pt: Bytes, aad: Bytes, nonce: Bytes): Result<Bytes, Failure> {
    if aad == [] then Err(AadRequired)
    else
      var h := Header(c.id(r.current));
      Ok(h + (nonce + c.seal(r.current, nonce, pt, h + aad)))
  }

  method SealText(c: Cipher, r: Ring, pt: Bytes, aad: Bytes, nonce: Bytes) returns (res: Result<Bytes, Failure>)
    ensures res == Seal(c, r, pt, aad, nonce)
  {
    if aad == [] {
      return Err(AadRequired);
    }
    var id := c.id(r.current);
    var out := [FORMAT, |id| % 256];
    out := out + id;
    var header := out;
    var t := c.seal(r.current, nonce, pt, header + aad);
    ConcatAssociates(header, nonce, t);
    out := out + nonce;
    out := out + t;
    return Ok(out);
  }

  function OpenBody(c: Cipher, k: Key, id: Bytes, body: Bytes, aad: Bytes): Result<Bytes, Failure> {
    if |body| < NONCE_SIZE + TAG_SIZE then Err(Malformed)
    else
      match c.open(k, body[..NONCE_SIZE], body[NONCE_SIZE..], Header(id) + aad)
      case None => Err(OpenFailed)
      case Some(pt) => Ok(pt)
  }

  function Open(c: Cipher, r: Ring, ct: Bytes, aad: Bytes): Result<Bytes, Failure> {
    if aad == [] then Err(AadRequired)
    else
      match ParseHeader(ct)
      case None => Err(Malformed)
      case Some((id, body)) => if id in r.byId then OpenBody(c, r.byId[id], id, body, aad) else Err(UnknownKey)
  }

  lemma BodyParts(nonce: Bytes, t: Bytes)
    requires |nonce| == NONCE_SIZE
    ensures (nonce + t)[..NONCE_SIZE] == nonce && (nonce + t)[NONCE_SIZE..] == t
  {
    DropConcat(nonce, t);
  }

  /**
   * Whatever a ring sealed opens in another ring exactly when that ring has the sealing key and the
   * associated data is the same, and then to the same text.
   */
  lemma RotationExact(c: Cipher, r: Ring, ks: seq<Key>, r': Ring, ks': seq<Key>, pt: Bytes, aad: Bytes, aad': Bytes, nonce: Bytes)
    requires Ideal(c) && Holds(c, r, ks) && r.current in ks && Holds(c, r', ks')
    requires |nonce| == NONCE_SIZE && aad != []
    ensures var ct := Seal(c, r, pt, aad, nonce).value;
      && (Open(c, r', ct, aad').Ok? <==> r.current in ks' && aad' == aad)
      && (Open(c, r', ct, aad').Ok? ==> Open(c, r', ct, aad') == Ok(pt))
      && (Open(c, r', ct, aad').Err? && aad' != [] ==>
            Open(c, r', ct, aad').error == if c.id(r.current) in r'.byId then OpenFailed else UnknownKey)
  {
    var k, id := r.current, c.id(r.current);
    var t := c.seal(k, nonce, pt, Header(id) + aad);
    HeaderRoundTrip(id, nonce + t);
    BodyParts(nonce, t);
    if id in r'.byId && c.open(r'.byId[id], nonce, t, Header(id) + aad').Some? {
      BoundDataInjective(id, aad, id, aad');
    }
  }

  /** The key a ciphertext was sealed under is told apart from a key the ring never had. */
  lemma RetiredKeyIsUnknown(c: Cipher, r: Ring, r': Ring, pt: Bytes, aad: Bytes, aad': Bytes, nonce: Bytes)
    requires GoodId(c.id(r.current)) && aad != [] && aad' != [] && c.id(r.current) !in r'.byId
    ensures Open(c, r', Seal(c, r, pt, aad, nonce).value, aad') == Err(UnknownKey)
  {
    HeaderRoundTrip(c.id(r.current), nonce + c.seal(r.current, nonce, pt, Header(c.id(r.current)) + aad));
  }

  /** A ciphertext that opens was sealed by a key of the ring over this header and associated data. */
  lemma OpenedWasSealed(c: Cipher, r: Ring, ks: seq<Key>, ct: Bytes, aad: Bytes)
    requires Ideal(c) && Holds(c, r, ks) && Open(c, r, ct, aad).Ok?
    ensures exists k, nonce: Bytes ::
      k in ks && |nonce| == NONCE_SIZE && Seal(c, r.(current := k), Open(c, r, ct, aad).value, aad, nonce) == Ok(ct)
  {
    HeaderExact(ct);
    var (id, body) := ParseHeader(ct).value;
    var k, nonce := r.byId[id], body[..NONCE_SIZE];
    assert body == nonce + body[NONCE_SIZE..];
    assert Seal(c, r.(current := k), Open(c, r, ct, aad).value, aad, nonce) == Ok(ct);
  }

  /** Every text is sealed under some associated data, and none is sealed or opened without. */
  lemma DataIsRequired(c: Cipher, r: Ring, pt: Bytes, aad: Bytes, nonce: Bytes, ct: Bytes)
    ensures Seal(c, r, pt, aad, nonce).Ok? <==> aad != []
    ensures aad == [] ==> Seal(c, r, pt, aad, nonce) == Err(AadRequired) && Open(c, r, ct, aad) == Err(AadRequired)
  {
  }

  // ---- The cipher laws are consistent -------------------------------------------------------

  /** A self-delimiting spelling of a byte string. */
  function Spell(x: Bytes): Bytes {
    if x == [] then [0] else [1, x[0]] + Spell(x[1..])
  }

  lemma {:induction false} SpellInjective(x: Bytes, r: Bytes, y: Bytes, s: Bytes)
    requires Spell(x) + r == Spell(y) + s
    ensures x == y && r == s
  {
    var t := Spell(x) + r;
    if x != [] && y != [] {
      assert t[2..] == Spell(x[1..]) + r && t[2..] == Spell(y[1..]) + s;
      assert t[1] == x[0] == y[0];
      SpellInjective(x[1..], r, y[1..], s);
      assert x == [x[0]] + x[1..] && y == [y[0]] + y[1..];
    } else {
      assert t[0] == if x == [] then 0 else 1;
      assert t[0] == if y == [] then 0 else 1;
      assert t[1..] == r && t[1..] == s;
    }
  }

  const PAD: Bytes := [0, 0, 0, 0, 0, 0, 0, 0, 0, 0, 0, 0, 0, 0, 0, 0]

  function Stamp(k: Key, a: Bytes): Bytes {
    PAD + (Spell(k) + Spell(a))
  }

  lemma StampParts(k: Key, a: Bytes, r: Bytes)
    ensures (Stamp(k, a) + r)[TAG_SIZE..] == Spell(k) + (Spell(a) + r)
  {
    ConcatAssociates(PAD, Spell(k) + Spell(a), r);
    ConcatAssociates(Spell(k), Spell(a), r);
    DropConcat(PAD, Spell(k) + (Spell(a) + r));
  }

  lemma StampInjective(k: Key, a: Bytes, r: Bytes, l: Key, b: Bytes, s: Bytes)
    requires Stamp(k, a) + r == Stamp(l, b) + s
    ensures k == l && a == b && r == s
  {
    StampParts(k, a, r);
    StampParts(l, b, s);
    SpellInjective(k, Spell(a) + r, l, Spell(b) + s);
    SpellInjective(a, r, b, s);
  }

  function Unstamp(k: Key, t: Bytes, a: Bytes): Option<Bytes> {
    if Stamp(k, a) <= t then Some(t[|Stamp(k, a)|..]) else None
  }

  lemma UnstampInverts(k: Key, l: Key, p: Bytes, a: Bytes, b: Bytes)
    ensures Unstamp(k, Stamp(k, a) + p, a) == Some(p)
    ensures Unstamp(l, Stamp(k, a) + p, b).Some? ==> k == l && a == b
  {
    var t := Stamp(k, a) + p;
    DropConcat(Stamp(k, a), p);
    if Unstamp(l, t, b).Some? {
      var s := t[|Stamp(l, b)|..];
      assert t == Stamp(l, b) + s;
      StampInjective(k, a, p, l, b, s);
    }
  }

  lemma UnstampExact(k: Key, t: Bytes, a: Bytes)
    requires Unstamp(k, t, a).Some?
    ensures t == Stamp(k, a) + Unstamp(k, t, a).value
  {
  }

  /** Some cipher meets the laws assumed of one. */
  lemma IdealCipherExists()
    ensures exists c :: Ideal(c) && Acceptable(c, [[0], [1]])
  {
    var c := Cipher((k: Key) => true, (k: Key) => [if k == [1] then 1 else 0],
      (k: Key, n: Bytes, p: Bytes, a: Bytes) => Stamp(k, a) + p,
      (k: Key, n: Bytes, t: Bytes, a: Bytes) => Unstamp(k, t, a));
    forall k, n, p, a ensures |c.seal(k, n, p, a)| >= TAG_SIZE && c.open(k, n, c.seal(k, n, p, a), a) == Some(p) {
      UnstampInverts(k, k, p, a, a);
    }
    forall k, n, t, a | c.open(k, n, t, a).Some? ensures t == c.seal(k, n, c.open(k, n, t, a).value, a) {
      UnstampExact(k, t, a);
    }
    forall k, l, n, p, a, b | c.open(l, n, c.seal(k, n, p, a), b).Some? ensures k == l && a == b {
      UnstampInverts(k, l, p, a, b);
    }
    assert Ideal(c);
  }
}
