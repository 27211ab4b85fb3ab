/**
 * The rate limit of a deployment whose instances each own a bucket: a request is charged once for
 * every live instance. Charges of concurrent requests interleave; the bucket does not refill.
 */
module Limiter {

  function Min(a: int, b: int): int {
    if a < b then a else b
  }

  function Max(a: int, b: int): int {
    if a < b then b else a
  }

  /** The low 32 bits of x as a signed number. */
  function Int32(x: int): int {
    var w := x % 0x1_0000_0000;
    if w < 0x8000_0000 then w else w - 0x1_0000_0000
  }

  /** How many charges one request costs: one an instance, within the burst, and at least one. */
  function Cost(instances: int, burst: int): (t: nat)
    ensures t >= 1
    ensures burst >= 1 ==> t <= burst
  {
    Max(1, Min(instances, burst))
  }

  // ---- One instance, undisturbed ------------------------------------------------------------

  class Bucket {
    var tokens: nat

    constructor (burst: nat)
      ensures tokens == burst
    {
      tokens := burst;
    }

    method Allow() returns (ok: bool)
      modifies this
      ensures ok <==> old(tokens) > 0
      ensures tokens == if ok then old(tokens) - 1 else old(tokens)
    {
      if tokens == 0 {
        return false;
      }
      tokens := tokens - 1;
      return true;
    }
  }

  class ScaledLimiter {
    const inner: Bucket
    var instances: int

    constructor (inner: Bucket)
      ensures this.inner == inner && instances == 0
    {
      this.inner := inner;
      instances := 0;
    }

    method SetInstances(n: int)
      modifies this
      ensures instances == Max(n, 1) <==> n < 0x8000_0000
      ensures 0x8000_0000 <= n < 0x1_0000_0000 ==> instances < 0
      ensures -0x8000_0000 <= instances < 0x8000_0000
    {
      instances := Int32(Max(n, 1));
    }

    /** A request passes exactly when the bucket covers its whole cost; a refused one empties it. */
    method Allow(burst: int) returns (ok: bool)
      modifies inner
      ensures ok <==> old(inner.tokens) >= Cost(instances, burst)
      ensures inner.tokens == if ok then old(inner.tokens) - Cost(instances, burst) else 0
    {
      ok := false;
      for i := 0 to Cost(instances, burst)
        invariant inner.tokens == old(inner.tokens) - i && (i > 0 ==> ok)
      {
        ok := inner.Allow();
        if !ok {
          return;
        }
      }
    }
  }

  /** A full bucket admits a request on its own, however many instances there are. */
  method FreshRequestPasses(l: ScaledLimiter, burst: int) returns (ok: bool)
    requires burst >= 1 && l.inner.tokens == burst
    modifies l.inner
    ensures ok
  {
    ok := l.Allow(burst);
  }

  lemma Quotient(a: nat, c: nat, q: nat)
    requires c > 0 && q * c <= a < q * c + c
    ensures q == a / c
  {
    var r := a - q * c;
    assert a == q * c + r && 0 <= r < c;
    if q < a / c {
      Larger(q + 1, a / c, c);
    } else if a / c < q {
      Larger(a / c + 1, q, c);
    }
  }

  lemma Larger(a: nat, b: nat, c: nat)
    requires a <= b
    ensures a * c <= b * c
  {
  }

  /**
   * Of any number of undisturbed requests to a full bucket exactly the first pass, up to the burst divided by
   * the live instances, or one when they are more than the burst.
   */
  method FreshBucketServes(l: ScaledLimiter, burst: int, k: nat) returns (passed: nat)
    requires burst >= 1 && l.instances >= 1 && l.inner.tokens == burst
    modifies l.inner
    ensures passed == Min(k, burst / Min(l.instances, burst))
  {
    var cost := Min(l.instances, burst);
    passed := 0;
    var full := true;
    for i := 0 to k
      invariant full ==> passed == i && l.inner.tokens == burst - passed * cost >= 0
      invariant !full ==> l.inner.tokens == 0 && passed < i && passed == burst / cost
    {
      var ok := l.Allow(burst);
      if ok {
        passed := passed + 1;
      } else if full {
        Quotient(burst, cost, passed);
        full := false;
      }
    }
    if full {
      AtMost(burst, cost, passed);
    }
  }

  lemma AtMost(a: nat, c: nat, q: nat)
    requires c > 0 && q * c <= a
    ensures q <= a / c
  {
    if a / c < q {
      Larger(a / c + 1, q, c);
    }
  }

  // ---- Interleavings ------------------------------------------------------------------------

  datatype Call = Call(charged: nat, refused: bool)

  datatype Instance = Instance(tokens: nat, calls: seq<Call>)

  datatype Event = Begin(i: nat) | Charge(i: nat, c: nat)

  function Deployment(n: nat, burst: nat): seq<Instance> {
    if n == 0 then [] else Deployment(n - 1, burst) + [Instance(burst, [])]
  }

  function Charged(x: Instance, c: nat): Instance
    requires c < |x.calls|
  {
    if x.tokens == 0 then x.(calls := x.calls[c := x.calls[c].(refused := true)])
    else Instance(x.tokens - 1, x.calls[c := x.calls[c].(charged := x.calls[c].charged + 1)])
  }

  function Next(xs: seq<Instance>, cost: nat, e: Event): seq<Instance> {
    match e
    case Begin(i) => if i < |xs| then xs[i := xs[i].(calls := xs[i].calls + [Call(0, false)])] else xs
    case Charge(i, c) =>
      if i < |xs| && c < |xs[i].calls| && !xs[i].calls[c].refused && xs[i].calls[c].charged < cost
      then xs[i := Charged(xs[i], c)] else xs
  }

  function Run(n: nat, burst: nat, es: seq<Event>): seq<Instance> {
    if es == [] then Deployment(n, burst) else Next(Run(n, burst, es[..|es| - 1]), Cost(n, burst), es[|es| - 1])
  }

  /** A call that was granted every charge. */
  predicate Allowed(c: Call, cost: nat) {
    c.charged >= cost
  }

  function CountAllowed(cs: seq<Call>, cost: nat): nat {
    if cs == [] then 0 else CountAllowed(cs[..|cs| - 1], cost) + if Allowed(cs[|cs| - 1], cost) then 1 else 0
  }

  function TotalAllowed(xs: seq<Instance>, cost: nat): nat {
    if xs == [] then 0 else TotalAllowed(xs[..|xs| - 1], cost) + CountAllowed(xs[|xs| - 1].calls, cost)
  }

  // ---- Accounting ---------------------------------------------------------------------------

  function Spent(cs: seq<Call>): nat {
    if cs == [] then 0 else Spent(cs[..|cs| - 1]) + cs[|cs| - 1].charged
  }

  lemma {:induction false} SpentUpdate(cs: seq<Call>, i: nat, c: Call)
    requires i < |cs|
    ensures Spent(cs[i := c]) == Spent(cs) - cs[i].charged + c.charged
  {
    var init := cs[..|cs| - 1];
    if i == |cs| - 1 {
      assert cs[i := c][..|cs| - 1] == init;
    } else {
      SpentUpdate(init, i, c);
      assert cs[i := c][..|cs| - 1] == init[i := c];
    }
  }

  /** Each allowed request paid its whole cost. */
  lemma {:induction false} AllowedPaid(cs: seq<Call>, cost: nat)
    ensures CountAllowed(cs, cost) * cost <= Spent(cs)
  {
    if cs != [] {
      AllowedPaid(cs[..|cs| - 1], cost);
    }
  }

  predicate Balanced(x: Instance, burst: nat) {
    x.tokens + Spent(x.calls) == burst
  }

  lemma {:induction false} DeploymentBalanced(n: nat, burst: nat)
    ensures |Deployment(n, burst)| == n && forall x | x in Deployment(n, burst) :: Balanced(x, burst)
  {
    if n > 0 {
      DeploymentBalanced(n - 1, burst);
    }
  }

  lemma NextBalanced(xs: seq<Instance>, cost: nat, burst: nat, e: Event)
    requires forall x | x in xs :: Balanced(x, burst)
    ensures |Next(xs, cost, e)| == |xs| && forall x | x in Next(xs, cost, e) :: Balanced(x, burst)
  {
    if e.i < |xs| {
      var x := xs[e.i];
      assert Balanced(x, burst);
      match e
      case Begin(i) => assert (x.calls + [Call(0, false)])[..|x.calls|] == x.calls;
      case Charge(i, c) =>
        if c < |x.calls| {
          SpentUpdate(x.calls, c, Charged(x, c).calls[c]);
        }
    }
  }

  lemma {:induction false} RunsAreBalanced(n: nat, burst: nat, es: seq<Event>)
    ensures |Run(n, burst, es)| == n && forall x | x in Run(n, burst, es) :: Balanced(x, burst)
  {
    if es == [] {
      DeploymentBalanced(n, burst);
    } else {
      RunsAreBalanced(n, burst, es[..|es| - 1]);
      NextBalanced(Run(n, burst, es[..|es| - 1]), Cost(n, burst), burst, es[|es| - 1]);
    }
  }

  predicate RefusedWhenEmpty(x: Instance) {
    (exists c | c in x.calls :: c.refused) ==> x.tokens == 0
  }

  lemma NextRefuses(xs: seq<Instance>, cost: nat, e: Event)
    requires forall x | x in xs :: RefusedWhenEmpty(x)
    ensures forall x | x in Next(xs, cost, e) :: RefusedWhenEmpty(x)
  {
    if e.i < |xs| {
      assert RefusedWhenEmpty(xs[e.i]);
    }
  }

  lemma {:induction false} DeploymentRefuses(n: nat, burst: nat)
    ensures forall x | x in Deployment(n, burst) :: RefusedWhenEmpty(x)
  {
    if n > 0 {
      DeploymentRefuses(n - 1, burst);
    }
  }

  /** A request is refused only by an instance whose whole burst is spent. */
  lemma {:induction false} RefusalMeansEmpty(n: nat, burst: nat, es: seq<Event>)
    ensures forall x | x in Run(n, burst, es) :: RefusedWhenEmpty(x)
  {
    if es == [] {
      DeploymentRefuses(n, burst);
    } else {
      RefusalMeansEmpty(n, burst, es[..|es| - 1]);
      NextRefuses(Run(n, burst, es[..|es| - 1]), Cost(n, burst), es[|es| - 1]);
    }
  }

  lemma Distribute(a: nat, b: nat, c: nat)
    ensures (a + b) * c == a * c + b * c
  {
  }

  lemma {:induction false} TotalPaid(xs: seq<Instance>, cost: nat, burst: nat)
    requires forall x | x in xs :: Balanced(x, burst)
    ensures TotalAllowed(xs, cost) * cost <= |xs| * burst
  {
    if xs != [] {
      var init, last := xs[..|xs| - 1], xs[|xs| - 1];
      var before, more := TotalAllowed(init, cost), CountAllowed(last.calls, cost);
      TotalPaid(init, cost, burst);
      AllowedPaid(last.calls, cost);
      assert Balanced(last, burst);
      Distribute(before, more, cost);
      Distribute(|init|, 1, burst);
    }
  }

  lemma ScaleUp(b: nat, a: nat, m: nat)
    requires m > 0 && b < a
    ensures m * b < a * m
  {
    Distribute(b, a - b, m);
  }

  lemma CancelFactor(a: nat, b: nat, m: nat)
    requires m > 0 && a * m <= m * b
    ensures a <= b
  {
    if b < a {
      ScaleUp(b, a, m);
    }
  }

  /** Charges of one call, one after the other. */
  function Charging(xs: seq<Instance>, cost: nat, i: nat, c: nat, k: nat): seq<Instance> {
    if k == 0 then xs else Next(Charging(xs, cost, i, c, k - 1), cost, Charge(i, c))
  }

  lemma {:induction false} ChargesAdd(xs: seq<Instance>, cost: nat, i: nat, c: nat, k: nat)
    requires i < |xs| && c < |xs[i].calls| && xs[i].calls[c] == Call(0, false) && k <= cost
    ensures var n, paid := Charging(xs, cost, i, c, k), Min(k, xs[i].tokens);
      && |n| == |xs| && |n[i].calls| == |xs[i].calls|
      && n[i].tokens == xs[i].tokens - paid && n[i].calls[c] == Call(paid, k > xs[i].tokens)
  {
    if k > 0 {
      ChargesAdd(xs, cost, i, c, k - 1);
    }
  }

  /** In every run an undisturbed request is allowed exactly when its instance's bucket covers one charge for every instance. */
  lemma AloneAllowed(n: nat, burst: nat, es: seq<Event>, i: nat)
    requires burst >= 1 && i < |Run(n, burst, es)|
    ensures var xs, cost := Run(n, burst, es), Min(n, burst);
      var c := |xs[i].calls|;
      var ys := Charging(Next(xs, cost, Begin(i)), cost, i, c, cost);
      |ys| == |xs| && c < |ys[i].calls| && (Allowed(ys[i].calls[c], cost) <==> xs[i].tokens >= cost)
  {
    RunsAreBalanced(n, burst, es);
    var xs, cost := Run(n, burst, es), Min(n, burst);
    ChargesAdd(Next(xs, cost, Begin(i)), cost, i, |xs[i].calls|, cost);
  }

  /**
   * Instances that each know their number n and each own a full bucket of the burst together allow
   * at most the burst, or one request an instance when there are more instances than that.
   */
  lemma DeploymentBound(n: nat, burst: nat, es: seq<Event>)
    requires n >= 1 && burst >= 1
    ensures TotalAllowed(Run(n, burst, es), Cost(n, burst)) <= Max(burst, n)
  {
    var cost := Cost(n, burst);
    RunsAreBalanced(n, burst, es);
    TotalPaid(Run(n, burst, es), cost, burst);
    if n <= burst {
      CancelFactor(TotalAllowed(Run(n, burst, es), cost), burst, n);
    } else {
      CancelFactor(TotalAllowed(Run(n, burst, es), cost), n, burst);
    }
  }
}
