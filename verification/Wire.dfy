/** The byte-level layout of the codec: integers, length-prefixed fields and counted lists. */
module Wire {
  import opened Prelude

  // ---- Big-endian integers ------------------------------------------------------------------

  function Pow256(k: nat): (p: nat)
    ensures p > 0
  {
    if k == 0 then 1 else 256 * Pow256(k - 1)
  }

  function BigEndian(v: nat, k: nat): (b: Bytes)
    ensures |b| == k
  {
    if k == 0 then [] else BigEndian(v / 256, k - 1) + [v % 256]
  }

  function FromBigEndian(b: Bytes): nat {
    if b == [] then 0 else 256 * FromBigEndian(b[..|b| - 1]) + b[|b| - 1]
  }

  lemma {:induction false} BigEndianRoundTrip(v: nat, k: nat)
    requires v < Pow256(k)
    ensures FromBigEndian(BigEndian(v, k)) == v
  {
    if k > 0 {
      BigEndianRoundTrip(v / 256, k - 1);
      assert BigEndian(v, k)[..k - 1] == BigEndian(v / 256, k - 1);
    }
  }

  lemma {:induction false} FromBigEndianRoundTrip(b: Bytes)
    ensures FromBigEndian(b) < Pow256(|b|)
    ensures BigEndian(FromBigEndian(b), |b|) == b
  {
    if b != [] {
      FromBigEndianRoundTrip(b[..|b| - 1]);
    }
  }

  lemma Pow256Values()
    ensures Pow256(4) == 0x1_0000_0000 && Pow256(8) == TWO_64 && Pow256(16) == TWO_64 * TWO_64
  {
    assert Pow256(4) == 256 * (256 * (256 * (256 * Pow256(0))));
    assert Pow256(8) == 256 * (256 * (256 * (256 * Pow256(4))));
    assert Pow256(12) == 256 * (256 * (256 * (256 * Pow256(8))));
    assert Pow256(16) == 256 * (256 * (256 * (256 * Pow256(12))));
  }

  // ---- Variable-length counts ---------------------------------------------------------------

  /** Seven bits a byte, least significant first; the high bit marks a continuation. */
  function Uvarint(n: nat): (b: Bytes)
    ensures |b| >= 1
  {
    if n < 128 then [n] else [n % 128 + 128] + Uvarint(n / 128)
  }

  /**
   * Reads a count of at most 64 bits whose first byte is byte number i, and returns the rest. Longer
   * spellings of a number are accepted here; overflow and truncation are not.
   */
  function ReadUvarint(b: Bytes, i: nat): (r: Option<(nat, Bytes)>)
    ensures r.Some? ==> |r.value.1| < |b|
  {
    if b == [] || i >= 10 then None
    else if b[0] < 128 then
      if i == 9 && b[0] > 1 then None else Some((b[0], b[1..]))
    else
      var (high, rest) :- ReadUvarint(b[1..], i + 1);
      Some((b[0] - 128 + 128 * high, rest))
  }

  /** How large a number can be when its first byte is byte number i. */
  function Capacity(i: nat): nat
    requires i <= 9
    decreases 9 - i
  {
    if i == 9 then 2 else 128 * Capacity(i + 1)
  }

  lemma CapacityOfWord()
    ensures Capacity(0) == TWO_64
  {
    assert Capacity(5) == 128 * (128 * (128 * (128 * Capacity(9))));
    assert Capacity(0) == 128 * (128 * (128 * (128 * (128 * Capacity(5)))));
  }

  lemma {:induction false} UvarintRoundTripAt(n: nat, i: nat, rest: Bytes)
    requires i <= 9 && n < Capacity(i)
    ensures ReadUvarint(Uvarint(n) + rest, i) == Some((n, rest))
  {
    var b := Uvarint(n) + rest;
    if n < 128 {
      assert b[1..] == rest;
    } else {
      assert b[1..] == Uvarint(n / 128) + rest;
      UvarintRoundTripAt(n / 128, i + 1, rest);
    }
  }

  /** A count, refused when it exceeds the number of bytes that follow. */
  function ReadCount(b: Bytes): (r: Option<(nat, Bytes)>)
    ensures r.Some? ==> |r.value.1| < |b| && r.value.0 <= |r.value.1|
  {
    var (n, rest) :- ReadUvarint(b, 0);
    if n > |rest| then None else Some((n, rest))
  }

  lemma CountRoundTrip(n: nat, rest: Bytes)
    requires n <= |rest| && n < TWO_64
    ensures ReadCount(Uvarint(n) + rest) == Some((n, rest))
  {
    CapacityOfWord();
    UvarintRoundTripAt(n, 0, rest);
  }

  // ---- Fields -------------------------------------------------------------------------------

  function Field(p: Bytes): (b: Bytes)
    ensures |b| > |p|
  {
    Uvarint(|p|) + p
  }

  function ReadField(b: Bytes): (r: Option<(Bytes, Bytes)>)
    ensures r.Some? ==> |r.value.1| < |b|
  {
    var (n, rest) :- ReadCount(b);
    Some((rest[..n], rest[n..]))
  }

  lemma FieldRoundTrip(p: Bytes, rest: Bytes)
    requires |p| < TWO_64
    ensures ReadField(Field(p) + rest) == Some((p, rest))
  {
    CountRoundTrip(|p|, p + rest);
    assert Field(p) + rest == Uvarint(|p|) + (p + rest);
    assert (p + rest)[..|p|] == p && (p + rest)[|p|..] == rest;
  }

  function ReadFixed(b: Bytes, size: nat): (r: Option<(Bytes, Bytes)>)
    ensures r.Some? ==> |r.value.0| == size
  {
    var (p, rest) :- ReadField(b);
    if |p| != size then None else Some((p, rest))
  }

  function U64Field(v: U64): Bytes {
    Field(BigEndian(v, 8))
  }

  function ReadU64(b: Bytes): Option<(U64, Bytes)> {
    var (p, rest) :- ReadFixed(b, 8);
    FromBigEndianRoundTrip(p);
    Pow256Values();
    Some((FromBigEndian(p), rest))
  }

  lemma U64RoundTrip(v: U64, rest: Bytes)
    ensures ReadU64(U64Field(v) + rest) == Some((v, rest))
  {
    Pow256Values();
    BigEndianRoundTrip(v, 8);
    FieldRoundTrip(BigEndian(v, 8), rest);
  }

  function BoolField(v: bool): Bytes {
    Field([if v then 1 else 0])
  }

  function ReadBool(b: Bytes): Option<(bool, Bytes)> {
    var (p, rest) :- ReadFixed(b, 1);
    if p[0] > 1 then None else Some((p[0] == 1, rest))
  }

  lemma BoolRoundTrip(v: bool, rest: Bytes)
    ensures ReadBool(BoolField(v) + rest) == Some((v, rest))
  {
    FieldRoundTrip([if v then 1 else 0], rest);
  }

  function ReadByte(b: Bytes): Option<(Byte, Bytes)> {
    var (p, rest) :- ReadFixed(b, 1);
    Some((p[0], rest))
  }

  lemma ByteRoundTrip(v: Byte, rest: Bytes)
    ensures ReadByte(Field([v]) + rest) == Some((v, rest))
  {
    FieldRoundTrip([v], rest);
  }

  // ---- Instants -----------------------------------------------------------------------------

  predicate InCodecRange(t: Time) {
    MIN_I64 <= t <= MAX_I64
  }

  /** What the encoder accepts: the zero instant, or an int64 count of nanoseconds. */
  predicate Codable(t: Time) {
    IsZero(t) || InCodecRange(t)
  }

  /** Two's complement of a nanosecond count, and back. */
  function ToWord(t: Time): U64
    requires InCodecRange(t)
  {
    if t < 0 then t + TWO_64 else t
  }

  function FromWord(w: U64): Time {
    if w > MAX_I64 then w - TWO_64 else w
  }

  /** The zero instant is an empty field; an instant out of range writes nothing. */
  function TimeField(t: Time): Bytes {
    if IsZero(t) then Field([])
    else if !InCodecRange(t) then []
    else U64Field(ToWord(t))
  }

  function ReadTime(b: Bytes): Option<(Time, Bytes)> {
    var (p, rest) :- ReadField(b);
    if p == [] then Some((ZERO_TIME, rest))
    else if |p| != 8 then None
    else
      FromBigEndianRoundTrip(p);
      Pow256Values();
      Some((FromWord(FromBigEndian(p)), rest))
  }

  lemma TimeRoundTrip(t: Time, rest: Bytes)
    requires Codable(t)
    ensures ReadTime(TimeField(t) + rest) == Some((t, rest))
  {
    if IsZero(t) {
      FieldRoundTrip([], rest);
    } else {
      var w := ToWord(t);
      Pow256Values();
      BigEndianRoundTrip(w, 8);
      FieldRoundTrip(BigEndian(w, 8), rest);
      assert FromWord(w) == t;
    }
  }

  // ---- Lists --------------------------------------------------------------------------------

  function Flatten<T>(xs: seq<T>, enc: T -> Bytes): Bytes {
    if xs == [] then [] else enc(xs[0]) + Flatten(xs[1..], enc)
  }

  function ListField<T>(xs: seq<T>, enc: T -> Bytes): Bytes {
    Uvarint(|xs|) + Flatten(xs, enc)
  }

  function ReadMany<T>(b: Bytes, n: nat, read: Bytes -> Option<(T, Bytes)>): Option<(seq<T>, Bytes)>
    decreases n
  {
    if n == 0 then Some(([], b))
    else
      var (x, b1) :- read(b);
      var (xs, b2) :- ReadMany(b1, n - 1, read);
      Some(([x] + xs, b2))
  }

  function ReadList<T>(b: Bytes, read: Bytes -> Option<(T, Bytes)>): Option<(seq<T>, Bytes)> {
    var (n, rest) :- ReadCount(b);
    ReadMany(rest, n, read)
  }

  /** Element-wise inverses, each element taking at least one byte. */
  ghost predicate Inverts<T(!new)>(xs: seq<T>, enc: T -> Bytes, read: Bytes -> Option<(T, Bytes)>) {
    && (forall x, rest | x in xs :: read(enc(x) + rest) == Some((x, rest)))
    && (forall x | x in xs :: enc(x) != [])
  }

  lemma {:induction false} ManyRoundTrip<T(!new)>(
    xs: seq<T>, enc: T -> Bytes, read: Bytes -> Option<(T, Bytes)>, rest: Bytes)
    requires Inverts(xs, enc, read)
    ensures ReadMany(Flatten(xs, enc) + rest, |xs|, read) == Some((xs, rest))
    ensures |xs| <= |Flatten(xs, enc)|
  {
    if xs == [] {
      assert Flatten(xs, enc) + rest == rest;
    } else {
      ManyRoundTrip(xs[1..], enc, read, rest);
      assert Flatten(xs, enc) + rest == enc(xs[0]) + (Flatten(xs[1..], enc) + rest);
      assert [xs[0]] + xs[1..] == xs;
    }
  }

  /** The bound of a count by the bytes that follow never refuses an encoded list. */
  lemma ListRoundTrip<T(!new)>(
    xs: seq<T>, enc: T -> Bytes, read: Bytes -> Option<(T, Bytes)>, rest: Bytes)
    requires Inverts(xs, enc, read) && |xs| < TWO_64
    ensures ReadList(ListField(xs, enc) + rest, read) == Some((xs, rest))
  {
    ManyRoundTrip(xs, enc, read, rest);
    CountRoundTrip(|xs|, Flatten(xs, enc) + rest);
    ConcatAssociates(Uvarint(|xs|), Flatten(xs, enc), rest);
  }

  lemma {:induction false} FlattenBounds<T>(xs: seq<T>, enc: T -> Bytes, x: T)
    requires x in xs
    ensures |enc(x)| <= |Flatten(xs, enc)|
  {
    if x != xs[0] {
      FlattenBounds(xs[1..], enc, x);
    }
  }

  lemma {:induction false} FlattenCounts<T>(xs: seq<T>, enc: T -> Bytes)
    requires forall x | x in xs :: enc(x) != []
    ensures |xs| <= |Flatten(xs, enc)|
  {
    if xs != [] {
      FlattenCounts(xs[1..], enc);
    }
  }

  /** Whatever every read element satisfies, every element of a read list satisfies. */
  lemma {:induction false} ManySatisfy<T(!new)>(b: Bytes, n: nat, read: Bytes -> Option<(T, Bytes)>, good: T -> bool)
    requires forall c :: read(c).Some? ==> good(read(c).value.0)
    requires ReadMany(b, n, read).Some?
    ensures forall x | x in ReadMany(b, n, read).value.0 :: good(x)
    decreases n
  {
    if n > 0 {
      ManySatisfy(read(b).value.1, n - 1, read, good);
    }
  }
}
