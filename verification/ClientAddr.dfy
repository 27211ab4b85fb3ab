/** The client address of a request: the right-to-left walk over forwarded hops, and trusted prefixes. */
module ClientAddr {
  import opened Prelude

  // ---- Addresses and prefixes ---------------------------------------------------------------

  /** An address by its bits, the most significant first. */
  datatype Addr = V4(bits: seq<bool>) | V6(bits: seq<bool>)

  function Width(a: Addr): nat {
    if a.V4? then 32 else 128
  }

  predicate WellFormed(a: Addr) {
    |a.bits| == Width(a)
  }

  datatype Prefix = Prefix(addr: Addr, len: int)

  predicate ValidPrefix(p: Prefix) {
    WellFormed(p.addr) && 0 <= p.len <= Width(p.addr)
  }

  /** Same family and same leading bits: an IPv4 address never matches an IPv6 prefix. */
  predicate Contains(p: Prefix, a: Addr)
    requires ValidPrefix(p) && WellFormed(a)
  {
    p.addr.V4? == a.V4? && a.bits[..p.len] == p.addr.bits[..p.len]
  }

  const MIN_IPV4_BITS := 8
  const MIN_IPV6_BITS := 16
  const MAPPED_BITS := 96

  /** Where IPv4 addresses are mapped into IPv6: eighty zero bits, then sixteen ones. */
  predicate Is4In6(a: Addr)
    requires WellFormed(a)
  {
    a.V6? && forall i | 0 <= i < MAPPED_BITS :: a.bits[i] == (i >= 80)
  }

  function Mapped(a: Addr): Addr
    requires a.V4?
  {
    V6(seq(MAPPED_BITS, i => i >= 80) + a.bits)
  }

  function Unmapped(a: Addr): Addr
    requires WellFormed(a) && Is4In6(a)
  {
    V4(a.bits[MAPPED_BITS..])
  }

  datatype Problem = InvalidPolicy | TooBroad | NoClient

  function Masked(p: Prefix): Prefix
    requires ValidPrefix(p)
  {
    var bits := p.addr.bits[..p.len] + seq(Width(p.addr) - p.len, i => false);
    Prefix(if p.addr.V4? then V4(bits) else V6(bits), p.len)
  }

  function Limit(a: Addr): nat {
    if a.V4? then MIN_IPV4_BITS else MIN_IPV6_BITS
  }

  function Limited(p: Prefix): Result<Prefix, Problem>
    requires ValidPrefix(p)
  {
    if p.len < Limit(p.addr) then Err(TooBroad) else Ok(Masked(p))
  }

  function NormalisePrefix(p: Prefix): Result<Prefix, Problem> {
    if !ValidPrefix(p) then Err(InvalidPolicy)
    else if Is4In6(p.addr) then
      if p.len < MAPPED_BITS + MIN_IPV4_BITS then Err(TooBroad)
      else Limited(Prefix(Unmapped(p.addr), p.len - MAPPED_BITS))
    else Limited(p)
  }

  lemma MaskedContains(p: Prefix, a: Addr)
    requires ValidPrefix(p) && WellFormed(a)
    ensures ValidPrefix(Masked(p)) && (Contains(Masked(p), a) <==> Contains(p, a))
  {
    assert Masked(p).addr.bits[..p.len] == p.addr.bits[..p.len];
  }

  lemma UnmappedContains(p: Prefix, a: Addr)
    requires ValidPrefix(p) && Is4In6(p.addr) && MAPPED_BITS <= p.len && WellFormed(a) && a.V4?
    ensures Contains(Prefix(Unmapped(p.addr), p.len - MAPPED_BITS), a) <==> Contains(p, Mapped(a))
  {
    var n, m := p.len - MAPPED_BITS, Mapped(a);
    if Contains(p, m) {
      forall i | 0 <= i < n ensures a.bits[i] == p.addr.bits[MAPPED_BITS..][i] {
        assert m.bits[..p.len][MAPPED_BITS + i] == p.addr.bits[..p.len][MAPPED_BITS + i];
      }
    }
    if a.bits[..n] == p.addr.bits[MAPPED_BITS..][..n] {
      forall i | 0 <= i < p.len ensures m.bits[i] == p.addr.bits[i] {
        assert i >= MAPPED_BITS ==> a.bits[..n][i - MAPPED_BITS] == p.addr.bits[MAPPED_BITS..][..n][i - MAPPED_BITS];
      }
    }
  }

  /** An accepted prefix is narrow enough and trusts the addresses it named, mapped ones as IPv4. */
  lemma NormalisedPrefix(p: Prefix, a: Addr)
    requires NormalisePrefix(p).Ok? && WellFormed(a)
    ensures var n := NormalisePrefix(p).value;
      && ValidPrefix(p) && ValidPrefix(n) && n.len >= Limit(n.addr)
      && (Contains(n, a) <==> if Is4In6(p.addr) then a.V4? && Contains(p, Mapped(a)) else Contains(p, a))
  {
    if Is4In6(p.addr) {
      var q := Prefix(Unmapped(p.addr), p.len - MAPPED_BITS);
      MaskedContains(q, a);
      if a.V4? {
        UnmappedContains(p, a);
      }
    } else {
      MaskedContains(p, a);
    }
  }

  /** The widest prefixes accepted: /8 for IPv4, /104 for IPv4 mapped into IPv6, /16 for other IPv6. */
  predicate Narrow(p: Prefix)
    requires ValidPrefix(p)
  {
    p.len >= if p.addr.V4? then 8 else if Is4In6(p.addr) then 104 else 16
  }

  /** A prefix is accepted exactly when it is valid and no wider than that; else the error says which. */
  lemma PrefixesAccepted(p: Prefix)
    ensures NormalisePrefix(p).Ok? <==> ValidPrefix(p) && Narrow(p)
    ensures NormalisePrefix(p).Err? ==> NormalisePrefix(p).error == if ValidPrefix(p) then TooBroad else InvalidPolicy
  {
  }

  // ---- Policy -------------------------------------------------------------------------------

  datatype Policy = Direct | Trusted(prefixes: seq<Prefix>)

  predicate Normalised(ps: seq<Prefix>) {
    forall p | p in ps :: ValidPrefix(p)
  }

  predicate Trusts(ps: seq<Prefix>, a: Addr)
    requires Normalised(ps) && WellFormed(a)
  {
    exists p | p in ps :: Contains(p, a)
  }

  method ComputeTrusts(ps: seq<Prefix>, a: Addr) returns (yes: bool)
    requires Normalised(ps) && WellFormed(a)
    ensures yes == Trusts(ps, a)
  {
    for i := 0 to |ps|
      invariant forall k | 0 <= k < i :: !Contains(ps[k], a)
    {
      if Contains(ps[i], a) {
        return true;
      }
    }
    return false;
  }

  /** Every prefix is accepted and normalised, or the first refusal is returned. */
  method NewTrusted(ps: seq<Prefix>) returns (r: Result<Policy, Problem>)
    ensures r.Ok? <==> forall p | p in ps :: NormalisePrefix(p).Ok?
    ensures r.Ok? ==> r.value.Trusted? && |r.value.prefixes| == |ps| && Normalised(r.value.prefixes)
    ensures r.Ok? ==> forall i | 0 <= i < |ps| :: NormalisePrefix(ps[i]) == Ok(r.value.prefixes[i])
    ensures r.Err? ==> exists i | 0 <= i < |ps| ::
      NormalisePrefix(ps[i]) == Err(r.error) && forall k | 0 <= k < i :: NormalisePrefix(ps[k]).Ok?
  {
    var out := [];
    for i := 0 to |ps|
      invariant |out| == i && Normalised(out)
      invariant forall k | 0 <= k < i :: NormalisePrefix(ps[k]) == Ok(out[k])
    {
      var n := NormalisePrefix(ps[i]);
      if n.Err? {
        return Err(n.error);
      }
      NormalisedPrefix(ps[i], n.value.addr);
      out := out + [n.value];
    }
    return Ok(Trusted(out));
  }

  // ---- The walk -----------------------------------------------------------------------------

  /** How a hop or a peer reads: a well-formed, specified address, unmapped and without zone, or nothing. */
  type Reader = Bytes -> Option<Addr>

  ghost predicate Reads(read: Reader) {
    forall h :: read(h).Some? ==> WellFormed(read(h).value)
  }

  /** A hop at which the walk ends: it cannot be read, or it is not a trusted proxy. */
  ghost predicate Stops(ps: seq<Prefix>, read: Reader, hop: Bytes)
    requires Normalised(ps) && Reads(read)
  {
    read(hop).None? || !Trusts(ps, read(hop).value)
  }

  /** The walk from the right, standing at the address current. */
  ghost function Walk(ps: seq<Prefix>, read: Reader, hops: seq<Bytes>, current: Addr): Addr
    requires Normalised(ps) && Reads(read)
  {
    if hops == [] then current
    else
      match read(hops[|hops| - 1])
      case None => current
      case Some(h) => if Trusts(ps, h) then Walk(ps, read, hops[..|hops| - 1], h) else h
  }

  ghost function Resolved(policy: Policy, read: Reader, remote: Bytes, hops: seq<Bytes>): Result<Addr, Problem>
    requires Reads(read) && (policy.Trusted? ==> Normalised(policy.prefixes))
  {
    match read(remote)
    case None => Err(NoClient)
    case Some(peer) =>
      if policy.Direct? || !Trusts(policy.prefixes, peer) then Ok(peer) else Ok(Walk(policy.prefixes, read, hops, peer))
  }

  method Resolve(policy: Policy, read: Reader, remote: Bytes, hops: seq<Bytes>) returns (r: Result<Addr, Problem>)
    requires Reads(read) && (policy.Trusted? ==> Normalised(policy.prefixes))
    ensures r == Resolved(policy, read, remote, hops)
  {
    var peer := read(remote);
    if peer.None? {
      return Err(NoClient);
    }
    if policy.Direct? {
      return Ok(peer.value);
    }
    var trusted := ComputeTrusts(policy.prefixes, peer.value);
    if !trusted {
      return Ok(peer.value);
    }
    var current := peer.value;
    var i := |hops|;
    assert hops[..i] == hops;
    while i > 0
      invariant 0 <= i <= |hops|
      invariant Walk(policy.prefixes, read, hops[..i], current) == Walk(policy.prefixes, read, hops, peer.value)
    {
      i := i - 1;
      assert hops[..i + 1][..i] == hops[..i];
      var hop := read(hops[i]);
      if hop.None? {
        return Ok(current);
      }
      current := hop.value;
      trusted := ComputeTrusts(policy.prefixes, current);
      if !trusted {
        return Ok(current);
      }
    }
    return Ok(current);
  }

  // ---- Results ------------------------------------------------------------------------------

  ghost predicate Stopped(ps: seq<Prefix>, read: Reader, hops: seq<Bytes>)
    requires Normalised(ps) && Reads(read)
  {
    exists i | 0 <= i < |hops| :: Stops(ps, read, hops[i])
  }

  /** Once the walk has stopped, whatever a client put further left does not count. */
  lemma {:induction false} SpoofedHopsAreIgnored(ps: seq<Prefix>, read: Reader, spoofed: seq<Bytes>, hops: seq<Bytes>, peer: Addr)
    requires Normalised(ps) && Reads(read) && Stopped(ps, read, hops)
    ensures Walk(ps, read, spoofed + hops, peer) == Walk(ps, read, hops, peer)
    decreases |hops|
  {
    var last, init := hops[|hops| - 1], hops[..|hops| - 1];
    assert (spoofed + hops)[..|spoofed + hops| - 1] == spoofed + init;
    if !Stops(ps, read, last) {
      var i :| 0 <= i < |hops| && Stops(ps, read, hops[i]);
      assert Stops(ps, read, init[i]);
      SpoofedHopsAreIgnored(ps, read, spoofed, init, read(last).value);
    }
  }

  /** Over trusted hops alone the walk goes on to the left. */
  lemma {:induction false} TrustedHopsAreCrossed(ps: seq<Prefix>, read: Reader, left: seq<Bytes>, hops: seq<Bytes>, peer: Addr)
    requires Normalised(ps) && Reads(read) && !Stopped(ps, read, hops)
    ensures Walk(ps, read, left + hops, peer) == Walk(ps, read, left, Walk(ps, read, hops, peer))
    decreases |hops|
  {
    if hops == [] {
      assert left + hops == left;
    } else {
      var last, init := hops[|hops| - 1], hops[..|hops| - 1];
      assert (left + hops)[..|left + hops| - 1] == left + init;
      assert !Stops(ps, read, hops[|hops| - 1]);
      forall i | 0 <= i < |init| ensures !Stops(ps, read, init[i]) {
        assert !Stops(ps, read, hops[i]);
      }
      TrustedHopsAreCrossed(ps, read, left, init, read(last).value);
    }
  }

  /**
   * The answer is independent of everything to the left exactly when the walk stops within hops. Some
   * readable hop other than the answer must exist for the left to make a difference at all.
   */
  lemma NonInterferenceExact(ps: seq<Prefix>, read: Reader, hops: seq<Bytes>, peer: Addr, other: Bytes)
    requires Normalised(ps) && Reads(read)
    requires read(other).Some? && read(other).value != Walk(ps, read, hops, peer)
    ensures Stopped(ps, read, hops) <==>
      forall left: seq<Bytes> :: Walk(ps, read, left + hops, peer) == Walk(ps, read, hops, peer)
  {
    if Stopped(ps, read, hops) {
      forall left: seq<Bytes> ensures Walk(ps, read, left + hops, peer) == Walk(ps, read, hops, peer) {
        SpoofedHopsAreIgnored(ps, read, left, hops, peer);
      }
    } else {
      TrustedHopsAreCrossed(ps, read, [other], hops, peer);
      assert Walk(ps, read, [other], Walk(ps, read, hops, peer)) == read(other).value;
    }
  }

  /**
   * Where the answer comes from: k hops from the left were not walked, every hop to the right of the
   * answer is a trusted proxy, and the walk stopped there because it had to.
   */
  ghost predicate AnswerAt(ps: seq<Prefix>, read: Reader, hops: seq<Bytes>, peer: Addr, k: nat, a: Addr)
    requires Normalised(ps) && Reads(read)
  {
    && k <= |hops|
    && (forall i | k < i < |hops| :: !Stops(ps, read, hops[i]))
    && (if k == |hops| then a == peer else read(hops[k]) == Some(a))
    && (k == 0 || read(hops[k - 1]).None? || (k < |hops| && !Trusts(ps, a)))
  }

  lemma {:induction false} AnswerIsExplained(ps: seq<Prefix>, read: Reader, hops: seq<Bytes>, peer: Addr)
    requires Normalised(ps) && Reads(read)
    ensures exists k :: AnswerAt(ps, read, hops, peer, k, Walk(ps, read, hops, peer))
  {
    var a := Walk(ps, read, hops, peer);
    if hops == [] || read(hops[|hops| - 1]).None? {
      assert AnswerAt(ps, read, hops, peer, |hops|, a);
    } else {
      var h, init := read(hops[|hops| - 1]).value, hops[..|hops| - 1];
      if !Trusts(ps, h) {
        assert AnswerAt(ps, read, hops, peer, |hops| - 1, a);
      } else {
        AnswerIsExplained(ps, read, init, h);
        var k :| AnswerAt(ps, read, init, h, k, a);
        assert AnswerAt(ps, read, hops, peer, k, a);
      }
    }
  }

  lemma AnswerIsUnique(ps: seq<Prefix>, read: Reader, hops: seq<Bytes>, peer: Addr, k: nat, a: Addr, l: nat, b: Addr)
    requires Normalised(ps) && Reads(read)
    requires AnswerAt(ps, read, hops, peer, k, a) && AnswerAt(ps, read, hops, peer, l, b)
    ensures k == l && a == b
  {
    if k < l {
      NoFurtherRight(ps, read, hops, peer, k, a, l, b);
    } else if l < k {
      NoFurtherRight(ps, read, hops, peer, l, b, k, a);
    }
  }

  lemma NoFurtherRight(ps: seq<Prefix>, read: Reader, hops: seq<Bytes>, peer: Addr, k: nat, a: Addr, l: nat, b: Addr)
    requires Normalised(ps) && Reads(read) && AnswerAt(ps, read, hops, peer, k, a) && k < l
    ensures !AnswerAt(ps, read, hops, peer, l, b)
  {
    if l <= |hops| {
      assert k < l - 1 ==> !Stops(ps, read, hops[l - 1]);
      assert l < |hops| ==> !Stops(ps, read, hops[l]);
    }
  }

  /** In no accepted prefix of the policy. */
  ghost predicate Untrusted(policy: Policy, a: Addr)
    requires (policy.Trusted? ==> Normalised(policy.prefixes)) && WellFormed(a)
  {
    policy.Direct? || forall p | p in policy.prefixes :: !Contains(p, a)
  }

  /**
   * No answer exactly for an unreadable peer. Headers of an untrusted peer, and all headers under the
   * direct policy, count for nothing; from a trusted peer the answer is the one place in the headers
   * where the walk has to stop.
   */
  lemma ResolvedExact(policy: Policy, read: Reader, remote: Bytes, hops: seq<Bytes>)
    requires Reads(read) && (policy.Trusted? ==> Normalised(policy.prefixes))
    ensures var r := Resolved(policy, read, remote, hops);
      match read(remote)
      case None => r == Err(NoClient)
      case Some(peer) =>
        && r.Ok?
        && (Untrusted(policy, peer) ==> r.value == peer)
        && (!Untrusted(policy, peer) ==>
              exists k :: AnswerAt(policy.prefixes, read, hops, peer, k, r.value)
                && forall l, b :: AnswerAt(policy.prefixes, read, hops, peer, l, b) ==> l == k && b == r.value)
  {
    if read(remote).Some? && !Untrusted(policy, read(remote).value) {
      var ps, peer := policy.prefixes, read(remote).value;
      AnswerIsExplained(ps, read, hops, peer);
      var a := Walk(ps, read, hops, peer);
      var k :| AnswerAt(ps, read, hops, peer, k, a);
      forall l, b | AnswerAt(ps, read, hops, peer, l, b) ensures l == k && b == a {
        AnswerIsUnique(ps, read, hops, peer, k, a, l, b);
      }
    }
  }
}
