/**
 * Verifying a one-time code: find the record, charge an attempt, compare, then consume the record,
 * unless the charge was the last one and already removed it. Any number of verifications of one
 * record interleave at these four store operations.
 */
module OneTimeCode {
  import opened Prelude

  // ---- The record in its store --------------------------------------------------------------

  datatype Row = Row(attempts: nat, expiresAt: Time)

  predicate Live(row: Option<Row>, now: Time) {
    row.Some? && row.value.expiresAt > now
  }

  /** Attempts left after a charge. */
  function Left(row: Row, max: nat): int {
    max - row.attempts - 1
  }

  /** The row after a charge: the one that reaches the bound removes it. */
  function Charged(row: Row, max: nat): Option<Row> {
    if Left(row, max) <= 0 then None else Some(row.(attempts := row.attempts + 1))
  }

  class Store {
    const max: nat
    var row: Option<Row>

    constructor (max: nat, expiresAt: Time)
      ensures this.max == max && row == Some(Row(0, expiresAt))
    {
      this.max := max;
      row := Some(Row(0, expiresAt));
    }

    method RecordFailure(now: Time) returns (remaining: Option<nat>)
      modifies this
      ensures remaining.Some? <==> Live(old(row), now)
      ensures row == if Live(old(row), now) then Charged(old(row).value, max) else old(row)
      ensures remaining.Some? ==> remaining.value == if row.Some? then max - row.value.attempts else 0
    {
      if row.None? || row.value.expiresAt <= now {
        return None;
      }
      var left := max - row.value.attempts - 1;
      if left <= 0 {
        row := None;
        return Some(0);
      }
      row := Some(row.value.(attempts := row.value.attempts + 1));
      return Some(left);
    }

    method Consume(now: Time) returns (ok: bool)
      modifies this
      ensures ok <==> Live(old(row), now)
      ensures row == if ok then None else old(row)
    {
      if row.None? || row.value.expiresAt <= now {
        return false;
      }
      row := None;
      return true;
    }
  }

  /**
   * One verification on its own. A live record accepts the right code exactly once, and a wrong code
   * costs one attempt.
   */
  method CheckCode(store: Store, admitted: bool, code: Bytes, secret: Bytes, now: Time) returns (ok: bool)
    modifies store
    ensures ok <==> Live(old(store.row), now) && admitted && code == secret
    ensures ok ==> store.row.None?
    ensures !ok ==> store.row == if Live(old(store.row), now) && admitted
                                 then Charged(old(store.row).value, store.max) else old(store.row)
  {
    if !Live(store.row, now) || !admitted {
      return false;
    }
    var remaining := store.RecordFailure(now);
    if remaining.None? || code != secret {
      return false;
    }
    if remaining.value == 0 {
      return true;
    }
    ok := store.Consume(now);
  }

  // ---- Interleavings ------------------------------------------------------------------------

  datatype Phase =
    | Searching
    | Holding
    | Paid(remaining: nat)
    | Matched
    | Refused
    | Rejected
    | Succeeded

  datatype Attempt = Attempt(code: Bytes, phase: Phase)

  /** The record's row, the charges made so far, and which attempt removed the row, if one did. */
  datatype World = World(secret: Bytes, max: nat, row: Option<Row>, charges: nat, taker: Option<nat>, attempts: seq<Attempt>)

  datatype Event =
    | Arrive(code: Bytes)
    | Find(i: nat, admitted: bool, now: Time)
    | Pay(i: nat, now: Time)
    | Compare(i: nat)
    | Take(i: nat, now: Time)
    | Vanish

  function Issued(secret: Bytes, max: nat, expiresAt: Time): World {
    World(secret, max, Some(Row(0, expiresAt)), 0, None, [])
  }

  predicate InPhase(w: World, i: nat, p: Phase) {
    i < |w.attempts| && w.attempts[i].phase == p
  }

  function Move(w: World, i: nat, p: Phase): World
    requires i < |w.attempts|
  {
    w.(attempts := w.attempts[i := w.attempts[i].(phase := p)])
  }

  function Payment(w: World, i: nat): World
    requires i < |w.attempts| && w.row.Some?
  {
    var after := Charged(w.row.value, w.max);
    var remaining := if after.Some? then Left(w.row.value, w.max) else 0;
    Move(w, i, Paid(remaining)).(row := after, charges := w.charges + 1, taker := if after.None? then Some(i) else w.taker)
  }

  function Comparison(w: World, i: nat): Phase
    requires i < |w.attempts| && w.attempts[i].phase.Paid?
  {
    if w.attempts[i].code != w.secret then Rejected
    else if w.attempts[i].phase.remaining == 0 then Succeeded
    else Matched
  }

  function Next(w: World, e: Event): World {
    match e
    case Arrive(code) => w.(attempts := w.attempts + [Attempt(code, Searching)])
    case Find(i, admitted, now) =>
      if InPhase(w, i, Searching) then Move(w, i, if Live(w.row, now) && admitted then Holding else Refused) else w
    case Pay(i, now) =>
      if !InPhase(w, i, Holding) then w
      else if Live(w.row, now) then Payment(w, i)
      else Move(w, i, Refused)
    case Compare(i) => if i < |w.attempts| && w.attempts[i].phase.Paid? then Move(w, i, Comparison(w, i)) else w
    case Take(i, now) =>
      if !InPhase(w, i, Matched) then w
      else if Live(w.row, now) then Move(w, i, Succeeded).(row := None, taker := Some(i))
      else Move(w, i, Rejected)
    case Vanish => w.(row := None)
  }

  function Run(w: World, es: seq<Event>): World {
    if es == [] then w else Next(Run(w, es[..|es| - 1]), es[|es| - 1])
  }

  // ---- Counting -----------------------------------------------------------------------------

  predicate HasCompared(a: Attempt) {
    a.phase.Matched? || a.phase.Rejected? || a.phase.Succeeded?
  }

  predicate HasPaid(a: Attempt) {
    a.phase.Paid? || HasCompared(a)
  }

  function Tally(xs: seq<Attempt>, p: Attempt -> bool): nat {
    if xs == [] then 0 else Tally(xs[..|xs| - 1], p) + if p(xs[|xs| - 1]) then 1 else 0
  }

  lemma {:induction false} TallyUpdate(xs: seq<Attempt>, i: nat, x: Attempt, p: Attempt -> bool)
    requires i < |xs|
    ensures Tally(xs[i := x], p) == Tally(xs, p) - (if p(xs[i]) then 1 else 0) + (if p(x) then 1 else 0)
  {
    var init := xs[..|xs| - 1];
    if i == |xs| - 1 {
      assert xs[i := x][..|xs| - 1] == init;
    } else {
      TallyUpdate(init, i, x, p);
      assert xs[i := x][..|xs| - 1] == init[i := x];
    }
  }

  lemma {:induction false} TallyWeaken(xs: seq<Attempt>)
    ensures Tally(xs, HasCompared) <= Tally(xs, HasPaid)
  {
    if xs != [] {
      TallyWeaken(xs[..|xs| - 1]);
    }
  }

  // ---- Invariant ----------------------------------------------------------------------------

  /** An attempt that has succeeded, or can still succeed without consuming, is the one that took the row. */
  predicate Holds(a: Attempt) {
    a.phase == Succeeded || a.phase == Paid(0)
  }

  predicate Valid(w: World) {
    && Tally(w.attempts, HasPaid) == w.charges <= w.max
    && (w.row.Some? ==> w.row.value.attempts == w.charges < w.max && w.taker.None?)
    && forall i | 0 <= i < |w.attempts| && Holds(w.attempts[i]) :: w.taker == Some(i)
  }

  lemma MoveKeeps(w: World, i: nat, p: Phase)
    requires Valid(w) && i < |w.attempts|
    requires HasPaid(w.attempts[i].(phase := p)) == HasPaid(w.attempts[i])
    requires Holds(w.attempts[i].(phase := p)) ==> Holds(w.attempts[i])
    ensures Valid(Move(w, i, p))
  {
    TallyUpdate(w.attempts, i, w.attempts[i].(phase := p), HasPaid);
  }

  lemma PaymentKeeps(w: World, i: nat, now: Time)
    requires Valid(w) && InPhase(w, i, Holding) && Live(w.row, now)
    ensures Valid(Payment(w, i))
  {
    TallyUpdate(w.attempts, i, Payment(w, i).attempts[i], HasPaid);
  }

  lemma NextKeeps(w: World, e: Event)
    requires Valid(w)
    ensures Valid(Next(w, e))
  {
    match e
    case Arrive(code) => assert Next(w, e).attempts[..|w.attempts|] == w.attempts;
    case Find(i, admitted, now) =>
      if InPhase(w, i, Searching) {
        MoveKeeps(w, i, Next(w, e).attempts[i].phase);
      }
    case Pay(i, now) =>
      if InPhase(w, i, Holding) {
        if Live(w.row, now) {
          PaymentKeeps(w, i, now);
        } else {
          MoveKeeps(w, i, Refused);
        }
      }
    case Compare(i) =>
      if i < |w.attempts| && w.attempts[i].phase.Paid? {
        MoveKeeps(w, i, Comparison(w, i));
      }
    case Take(i, now) =>
      if InPhase(w, i, Matched) {
        if Live(w.row, now) {
          TallyUpdate(w.attempts, i, w.attempts[i].(phase := Succeeded), HasPaid);
        } else {
          MoveKeeps(w, i, Rejected);
        }
      }
    case Vanish =>
  }

  lemma {:induction false} RunsAreValid(secret: Bytes, max: nat, expiresAt: Time, es: seq<Event>)
    requires max > 0
    ensures Valid(Run(Issued(secret, max, expiresAt), es)) && Run(Issued(secret, max, expiresAt), es).max == max
  {
    if es != [] {
      RunsAreValid(secret, max, expiresAt, es[..|es| - 1]);
      NextKeeps(Run(Issued(secret, max, expiresAt), es[..|es| - 1]), es[|es| - 1]);
    }
  }

  // ---- Results ------------------------------------------------------------------------------

  /** However many verifications run, at most max of them ever compare a code. */
  lemma ComparisonsAreBounded(secret: Bytes, max: nat, expiresAt: Time, es: seq<Event>)
    requires max > 0
    ensures Tally(Run(Issued(secret, max, expiresAt), es).attempts, HasCompared) <= max
  {
    RunsAreValid(secret, max, expiresAt, es);
    TallyWeaken(Run(Issued(secret, max, expiresAt), es).attempts);
  }

  /** At most one verification succeeds, and only with the right code. */
  lemma SingleUse(secret: Bytes, max: nat, expiresAt: Time, es: seq<Event>, i: nat, j: nat)
    requires max > 0
    requires var w := Run(Issued(secret, max, expiresAt), es); InPhase(w, i, Succeeded) && InPhase(w, j, Succeeded)
    ensures i == j
  {
    RunsAreValid(secret, max, expiresAt, es);
  }

  predicate RightCode(secret: Bytes, a: Attempt) {
    a.phase == Succeeded || a.phase == Matched ==> a.code == secret
  }

  lemma {:induction false} OnlyTheRightCode(secret: Bytes, max: nat, expiresAt: Time, es: seq<Event>)
    ensures var w := Run(Issued(secret, max, expiresAt), es);
      w.secret == secret && forall a | a in w.attempts :: RightCode(secret, a)
  {
    if es != [] {
      OnlyTheRightCode(secret, max, expiresAt, es[..|es| - 1]);
      var w := Run(Issued(secret, max, expiresAt), es[..|es| - 1]);
      var n := Run(Issued(secret, max, expiresAt), es);
      forall a | a in n.attempts ensures RightCode(secret, a) {
        var k :| 0 <= k < |n.attempts| && n.attempts[k] == a;
        if k < |w.attempts| {
          assert RightCode(secret, w.attempts[k]);
        }
      }
    }
  }

  // ---- What is not refused ------------------------------------------------------------------

  /** Until it vanishes, the record is there unless all attempts are used up or one of them succeeded. */
  predicate Outlives(w: World) {
    w.row.None? ==> w.charges == w.max || exists i | 0 <= i < |w.attempts| :: InPhase(w, i, Succeeded)
  }

  lemma SuccessStays(w: World, e: Event, i: nat)
    requires InPhase(w, i, Succeeded)
    ensures InPhase(Next(w, e), i, Succeeded)
  {
  }

  lemma NextOutlives(w: World, e: Event)
    requires Valid(w) && Outlives(w) && !e.Vanish?
    ensures Outlives(Next(w, e))
  {
    var n := Next(w, e);
    if i :| 0 <= i < |w.attempts| && InPhase(w, i, Succeeded) {
      SuccessStays(w, e, i);
    } else if e.Take? && n != w && w.row.Some? && n.row.None? {
      assert InPhase(n, e.i, Succeeded);
    }
  }

  /** A record that does not vanish survives every run until max codes were compared or one was right. */
  lemma {:induction false} RecordOutlives(secret: Bytes, max: nat, expiresAt: Time, es: seq<Event>)
    requires max > 0 && Vanish !in es
    ensures Outlives(Run(Issued(secret, max, expiresAt), es))
  {
    if es != [] {
      RecordOutlives(secret, max, expiresAt, es[..|es| - 1]);
      RunsAreValid(secret, max, expiresAt, es[..|es| - 1]);
      NextOutlives(Run(Issued(secret, max, expiresAt), es[..|es| - 1]), es[|es| - 1]);
    }
  }

  /** All steps of the verification that arrives next, one after the other. */
  function Alone(w: World, code: Bytes, admitted: bool, now: Time): World {
    var i := |w.attempts|;
    Next(Next(Next(Next(Next(w, Arrive(code)), Find(i, admitted, now)), Pay(i, now)), Compare(i)), Take(i, now))
  }

  /**
   * Wherever a run has got, an undisturbed verification of a live record succeeds exactly with the right
   * code and leaves no record; a wrong code costs one attempt.
   */
  lemma AloneSucceeds(secret: Bytes, max: nat, expiresAt: Time, es: seq<Event>, code: Bytes, admitted: bool, now: Time)
    requires max > 0
    ensures var w := Run(Issued(secret, max, expiresAt), es);
      var n := Alone(w, code, admitted, now);
      && |n.attempts| == |w.attempts| + 1
      && (InPhase(n, |w.attempts|, Succeeded) <==> Live(w.row, now) && admitted && code == secret)
      && (InPhase(n, |w.attempts|, Succeeded) ==> n.row.None?)
      && n.charges == w.charges + if Live(w.row, now) && admitted then 1 else 0
  {
    var w := Run(Issued(secret, max, expiresAt), es);
    RunsAreValid(secret, max, expiresAt, es);
    OnlyTheRightCode(secret, max, expiresAt, es);
    var i := |w.attempts|;
    var a := Next(Next(w, Arrive(code)), Find(i, admitted, now));
    assert a == w.(attempts := w.attempts + [Attempt(code, if Live(w.row, now) && admitted then Holding else Refused)]);
    var b := Next(a, Pay(i, now));
    assert b.attempts[i].code == code && b.secret == secret;
  }
}
