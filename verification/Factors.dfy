/** Authentication factors: the closed set, its code order, unions and roles. */
module Factors {
  import opened Prelude
  import opened Ordering

  /** The closed set, listed in the order of the persisted codes. NoFactor is the zero value. */
  datatype Factor =
    | NoFactor
    | EmailCode
    | EmailLink
    | External
    | Federated
    | Passkey
    | PasskeyStepUp
    | Password
    | RecoveryCode
    | SmsCode
    | Totp
    | UserVerification

  datatype Role = NoRole | Primary | Second | Qualifier

  function RoleOf(f: Factor): Role {
    match f
    case NoFactor => NoRole
    case Totp | RecoveryCode | PasskeyStepUp => Second
    case UserVerification => Qualifier
    case _ => Primary
  }

  /** The persisted identifier of a factor, in ASCII. */
  function Code(f: Factor): (b: Bytes)
    ensures |b| <= 10
  {
    match f
    case NoFactor => []
    case EmailCode => [101, 109, 97, 105, 108, 95, 99, 111, 100, 101] // email_code
    case EmailLink => [101, 109, 97, 105, 108, 95, 108, 105, 110, 107] // email_link
    case External => [101, 120, 116] // ext
    case Federated => [102, 101, 100] // fed
    case Passkey => [112, 107] // pk
    case PasskeyStepUp => [112, 107, 95, 115, 116, 101, 112, 117, 112] // pk_stepup
    case Password => [112, 119, 100] // pwd
    case RecoveryCode => [114, 99] // rc
    case SmsCode => [115, 109, 115, 95, 99, 111, 100, 101] // sms_code
    case Totp => [116, 111, 116, 112] // totp
    case UserVerification => [117, 118] // uv
  }

  /** Bytewise lexicographic order: the first difference decides, a proper prefix comes first. */
  ghost predicate DiffersAt(a: Bytes, b: Bytes, k: nat) {
    && k <= |a| && k < |b| && a[..k] == b[..k]
    && (k == |a| || a[k] < b[k])
  }

  ghost predicate LexLess(a: Bytes, b: Bytes) {
    exists k: nat :: DiffersAt(a, b, k)
  }

  lemma LexTransitive(a: Bytes, b: Bytes, c: Bytes)
    requires LexLess(a, b) && LexLess(b, c)
    ensures LexLess(a, c)
  {
    var i: nat :| DiffersAt(a, b, i);
    var j: nat :| DiffersAt(b, c, j);
    var k := if i < j then i else j;
    assert a[..k] == a[..i][..k] == b[..k] == c[..j][..k] == c[..k];
    if i < j {
      assert b[i] == b[..j][i] == c[..j][i] == c[i];
    } else if j < i {
      assert a[j] == a[..i][j] == b[..i][j] == b[j];
    }
    assert DiffersAt(a, c, k);
  }

  lemma LexIrreflexive(a: Bytes)
    ensures !LexLess(a, a)
  {
  }

  // ---- Code order ---------------------------------------------------------------------------

  function Rank(f: Factor): (r: int)
    ensures 0 <= r < 12
  {
    match f
    case NoFactor => 0
    case EmailCode => 1
    case EmailLink => 2
    case External => 3
    case Federated => 4
    case Passkey => 5
    case PasskeyStepUp => 6
    case Password => 7
    case RecoveryCode => 8
    case SmsCode => 9
    case Totp => 10
    case UserVerification => 11
  }

  /** The factor just before f in code order. */
  function Previous(f: Factor): (g: Factor)
    requires f != NoFactor
    ensures Rank(g) + 1 == Rank(f)
  {
    match f
    case EmailCode => NoFactor
    case EmailLink => EmailCode
    case External => EmailLink
    case Federated => External
    case Passkey => Federated
    case PasskeyStepUp => Passkey
    case Password => PasskeyStepUp
    case RecoveryCode => Password
    case SmsCode => RecoveryCode
    case Totp => SmsCode
    case UserVerification => Totp
  }

  lemma PreviousCode(f: Factor)
    requires f != NoFactor
    ensures LexLess(Code(Previous(f)), Code(f))
  {
    var k := match f
      case EmailLink => 6
      case External | Password => 1
      case PasskeyStepUp => 2
      case _ => 0;
    assert DiffersAt(Code(Previous(f)), Code(f), k);
  }

  lemma {:induction false} RanksAscend(f: Factor, g: Factor)
    requires Rank(f) < Rank(g)
    ensures LexLess(Code(f), Code(g))
    decreases Rank(g)
  {
    PreviousCode(g);
    if Rank(f) < Rank(Previous(g)) {
      RanksAscend(f, Previous(g));
      LexTransitive(Code(f), Code(Previous(g)), Code(g));
    }
  }

  /** Comparing ranks is comparing codes bytewise. */
  lemma CodeOrder(f: Factor, g: Factor)
    ensures LexLess(Code(f), Code(g)) <==> Rank(f) < Rank(g)
  {
    if Rank(f) < Rank(g) {
      RanksAscend(f, g);
    } else if LexLess(Code(f), Code(g)) {
      if Rank(g) < Rank(f) {
        RanksAscend(g, f);
        LexTransitive(Code(f), Code(g), Code(f));
      }
      LexIrreflexive(Code(f));
    }
  }

  lemma CodesDistinct(f: Factor, g: Factor)
    requires Code(f) == Code(g)
    ensures f == g
  {
    CodeOrder(f, g);
    CodeOrder(g, f);
    LexIrreflexive(Code(f));
  }

  /** The factor persisted under a code, if any; the empty code names none. */
  function FactorByCode(code: Bytes): (r: Option<Factor>)
    ensures forall f: Factor :: r == Some(f) <==> f != NoFactor && Code(f) == code
  {
    if code == Code(EmailCode) then Some(EmailCode)
    else if code == Code(EmailLink) then Some(EmailLink)
    else if code == Code(External) then Some(External)
    else if code == Code(Federated) then Some(Federated)
    else if code == Code(Passkey) then Some(Passkey)
    else if code == Code(PasskeyStepUp) then Some(PasskeyStepUp)
    else if code == Code(Password) then Some(Password)
    else if code == Code(RecoveryCode) then Some(RecoveryCode)
    else if code == Code(SmsCode) then Some(SmsCode)
    else if code == Code(Totp) then Some(Totp)
    else if code == Code(UserVerification) then Some(UserVerification)
    else None
  }

  // ---- Canonical lists ----------------------------------------------------------------------

  function Elems(fs: seq<Factor>): set<Factor> {
    set f | f in fs
  }

  /** Strictly ascending in code order, hence free of duplicates. */
  predicate Sorted(fs: seq<Factor>) {
    Ascending(Rank, fs)
  }

  lemma RanksDistinct(f: Factor, g: Factor)
    ensures Rank(f) == Rank(g) ==> f == g
  {
  }

  /** The first member in code order. */
  function Least(s: set<Factor>): (f: Factor)
    requires s != {}
    ensures f in s && forall g | g in s && g != f :: Rank(f) < Rank(g)
  {
    if NoFactor in s then NoFactor
    else if EmailCode in s then EmailCode
    else if EmailLink in s then EmailLink
    else if External in s then External
    else if Federated in s then Federated
    else if Passkey in s then Passkey
    else if PasskeyStepUp in s then PasskeyStepUp
    else if Password in s then Password
    else if RecoveryCode in s then RecoveryCode
    else if SmsCode in s then SmsCode
    else if Totp in s then Totp
    else
      (assert forall g: Factor | g in s :: g == UserVerification;
       UserVerification)
  }

  lemma SortedCons(f: Factor, fs: seq<Factor>)
    requires Sorted(fs) && forall g | g in Elems(fs) :: Rank(f) < Rank(g)
    ensures Sorted([f] + fs) && Elems([f] + fs) == {f} + Elems(fs)
  {
    assert forall g | g in fs :: g in Elems(fs);
  }

  /** The sorted list of the members of s. */
  function Canon(s: set<Factor>): (fs: seq<Factor>)
    ensures Sorted(fs) && Elems(fs) == s
  {
    if s == {} then []
    else
      var f := Least(s);
      var rest := Canon(s - {f});
      SortedCons(f, rest);
      [f] + rest
  }

  /** A sorted list is determined by its members. */
  lemma SortedIsCanon(fs: seq<Factor>)
    requires Sorted(fs)
    ensures Canon(Elems(fs)) == fs
  {
    forall f ensures f in Canon(Elems(fs)) <==> f in fs {
      assert f in Elems(Canon(Elems(fs))) <==> f in Elems(fs);
    }
    AscendingUnique(Rank, Canon(Elems(fs)), fs);
  }

  lemma {:induction false} SortedIsShort(fs: seq<Factor>)
    requires Sorted(fs)
    ensures |fs| <= 12
    ensures fs != [] ==> |fs| <= Rank(fs[|fs| - 1]) + 1
  {
    if |fs| > 1 {
      SortedIsShort(fs[..|fs| - 1]);
      assert Rank(fs[|fs| - 2]) < Rank(fs[|fs| - 1]);
    }
  }

  lemma CanonEmpty(s: set<Factor>)
    ensures Canon(s) == [] <==> s == {}
  {
    assert Elems([]) == {};
    SortedIsCanon([]);
  }

  function Union(a: seq<Factor>, b: seq<Factor>): seq<Factor> {
    Canon(Elems(a) + Elems(b))
  }

  /** The list of the distinct members of fs, sorted by code. */
  method SortDistinct(fs: seq<Factor>) returns (out: seq<Factor>)
    ensures out == Canon(Elems(fs))
  {
    var distinct := Deduplicate(fs);
    out := Sort(Rank, distinct);
    forall i, j | 0 <= i < j < |distinct| ensures Rank(distinct[i]) != Rank(distinct[j]) {
      RanksDistinct(distinct[i], distinct[j]);
    }
    SortAscending(Rank, distinct);
    forall f ensures f in out <==> f in fs {
      SortMembers(Rank, distinct, f);
    }
    assert Elems(out) == Elems(fs);
    SortedIsCanon(out);
  }

  /** The union the source computes by appending, dropping repetitions and sorting. */
  method UnionFactors(a: seq<Factor>, b: seq<Factor>) returns (out: seq<Factor>)
    ensures out == Union(a, b)
  {
    out := SortDistinct(a + b);
    assert Elems(a + b) == Elems(a) + Elems(b);
  }

  /** The union depends on the members only: it is commutative, associative and idempotent. */
  lemma UnionLaws(a: seq<Factor>, b: seq<Factor>, c: seq<Factor>)
    ensures Union(a, b) == Union(b, a)
    ensures Union(Union(a, b), c) == Union(a, Union(b, c))
    ensures Union(Union(a, b), b) == Union(a, b)
    ensures Sorted(Union(a, b)) && Elems(Union(a, b)) == Elems(a) + Elems(b)
    ensures Sorted(a) ==> Union(a, []) == a
  {
    assert Elems(a) + Elems(b) == Elems(b) + Elems(a);
    assert (Elems(a) + Elems(b)) + Elems(c) == Elems(a) + (Elems(b) + Elems(c));
    assert (Elems(a) + Elems(b)) + Elems(b) == Elems(a) + Elems(b);
    if Sorted(a) {
      assert Elems(a) + Elems([]) == Elems(a);
      SortedIsCanon(a);
    }
  }

  // ---- Roles --------------------------------------------------------------------------------

  predicate HasRole(fs: seq<Factor>, r: Role) {
    exists f | f in fs :: RoleOf(f) == r
  }

  /** A primary with a second factor, or a passkey with user verification. */
  predicate MultiFactor(fs: seq<Factor>) {
    || (HasRole(fs, Primary) && HasRole(fs, Second))
    || (Passkey in fs && UserVerification in fs)
  }
}
