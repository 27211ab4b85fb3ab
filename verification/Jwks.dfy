/**
 * The key source of a resource server: a key set fetched from the issuer, one fetch at a time, kept
 * for at most a minute. Callers, fetches and the clock interleave in any order.
 */
module Jwks {
  import opened Prelude

  const MAX_AGE: int := 60 * SECOND
  const MIN_REFRESH: int := 10 * SECOND

  datatype Verifier = Verifier(kid: Bytes, key: nat)

  datatype Failure = Failure(code: nat)

  type Fetch = Result<seq<Verifier>, Failure>

  datatype Refusal = UnknownKey | Unavailable

  // ---- The source, under its lock -----------------------------------------------------------

  datatype Source = Source(keys: map<Bytes, Verifier>, loaded: Time, failed: Time, flight: Option<nat>)

  /** The set by key id; a later key replaces an earlier one of the same id. */
  function KeysOf(vs: seq<Verifier>): map<Bytes, Verifier> {
    if vs == [] then map[] else KeysOf(vs[..|vs| - 1])[vs[|vs| - 1].kid := vs[|vs| - 1]]
  }

  function Record(s: Source, r: Fetch, at: Time): Source {
    match r
    case Err(_) => s.(failed := at)
    case Ok(vs) => s.(keys := KeysOf(vs), loaded := at, failed := ZERO_TIME)
  }

  /** What a caller gets from the first look at the source. */
  datatype Answer = Serve(v: Verifier) | Refuse(error: Refusal) | Await(flight: nat)

  predicate Stale(s: Source, now: Time) {
    Sub(now, s.loaded) >= MAX_AGE || Sub(now, s.loaded) < 0
  }

  predicate BackingOff(s: Source, now: Time) {
    s.flight.None? && !IsZero(s.failed) && 0 <= Sub(now, s.failed) < MIN_REFRESH
  }

  /** The answer for kid at now; a flight started here gets the number next. */
  function Look(s: Source, now: Time, kid: Bytes, next: nat): Answer {
    if kid in s.keys && !Stale(s, now) then Serve(s.keys[kid])
    else if kid !in s.keys && !Stale(s, now) && Sub(now, s.loaded) < MIN_REFRESH then Refuse(UnknownKey)
    else if BackingOff(s, now) then Refuse(Unavailable)
    else if s.flight.Some? then Await(s.flight.value)
    else Await(next)
  }

  class JwksSource {
    var keys: map<Bytes, Verifier>
    var loaded: Time
    var failed: Time
    var flight: Option<nat>

    ghost function View(): Source
      reads this
    {
      Source(keys, loaded, failed, flight)
    }

    constructor ()
      ensures View() == Source(map[], ZERO_TIME, ZERO_TIME, None)
    {
      keys, loaded, failed, flight := map[], ZERO_TIME, ZERO_TIME, None;
    }

    method RecordFetch(r: Fetch, at: Time)
      modifies this
      ensures View() == Record(old(View()), r, at)
    {
      if r.Err? {
        failed := at;
        return;
      }
      var fetched: map<Bytes, Verifier> := map[];
      for i := 0 to |r.value|
        invariant fetched == KeysOf(r.value[..i]) && View() == old(View())
      {
        assert r.value[..i + 1][..i] == r.value[..i];
        fetched := fetched[r.value[i].kid := r.value[i]];
      }
      assert r.value[..|r.value|] == r.value;
      keys, loaded, failed := fetched, at, ZERO_TIME;
    }

    method StartFlight(next: nat) returns (f: nat)
      modifies this
      ensures f == if old(flight).Some? then old(flight).value else next
      ensures View() == old(View()).(flight := Some(f))
    {
      if flight.Some? {
        return flight.value;
      }
      flight := Some(next);
      return next;
    }

    method FirstLook(now: Time, kid: Bytes, next: nat) returns (a: Answer)
      modifies this
      ensures a == Look(old(View()), now, kid, next)
      ensures View() == if a.Await? then old(View()).(flight := Some(a.flight)) else old(View())
    {
      var age := Sub(now, loaded);
      var stale := age >= MAX_AGE || age < 0;
      if kid in keys && !stale {
        return Serve(keys[kid]);
      }
      if kid !in keys && !stale && age < MIN_REFRESH {
        return Refuse(UnknownKey);
      }
      if flight.None? && !IsZero(failed) && Sub(now, failed) >= 0 && Sub(now, failed) < MIN_REFRESH {
        return Refuse(Unavailable);
      }
      var f := StartFlight(next);
      return Await(f);
    }

    method Land(r: Fetch, startedAt: Time)
      modifies this
      ensures View() == Record(old(View()), r, startedAt).(flight := None)
    {
      RecordFetch(r, startedAt);
      flight := None;
    }
  }

  // ---- Interleavings ------------------------------------------------------------------------

  datatype Landing = Landing(step: nat, at: Time, result: Fetch)

  /** A fetch, by the instant it started, and how and when it ended. */
  datatype Flight = Flight(start: Time, done: Option<Landing>)

  /** Where a call stands; a served call remembers which flight the set it read came from. */
  datatype Phase = Waiting(flight: nat) | Served(v: Verifier, from: nat, step: nat) | Refused(error: Refusal)

  datatype Call = Call(kid: Bytes, at: Time, step: nat, phase: Phase)

  datatype World = World(step: nat, clock: Time, source: Source, current: nat, flights: seq<Flight>, calls: seq<Call>)

  datatype Event =
    | Tick(passed: nat)
    | Enter(kid: Bytes, ourTenant: bool)
    | Finish(result: Fetch)
    | Resume(call: nat)
    | Cancel(call: nat)

  /** The source after a successful bring-up that started at t and took some time. */
  function BroughtUp(t: Time, took: nat, vs: seq<Verifier>): World {
    World(1, t + took, Source(KeysOf(vs), t, ZERO_TIME, None), 0, [Flight(t, Some(Landing(0, t + took, Ok(vs))))], [])
  }

  function Entered(w: World, kid: Bytes): World {
    match Look(w.source, w.clock, kid, |w.flights|)
    case Serve(v) => w.(calls := w.calls + [Call(kid, w.clock, w.step, Served(v, w.current, w.step))])
    case Refuse(e) => w.(calls := w.calls + [Call(kid, w.clock, w.step, Refused(e))])
    case Await(f) =>
      w.(source := w.source.(flight := Some(f)),
         flights := if f == |w.flights| then w.flights + [Flight(w.clock, None)] else w.flights,
         calls := w.calls + [Call(kid, w.clock, w.step, Waiting(f))])
  }

  function Landed(w: World, f: nat, r: Fetch): World
    requires f < |w.flights|
  {
    w.(source := Record(w.source, r, w.flights[f].start).(flight := None),
       current := if r.Ok? then f else w.current,
       flights := w.flights[f := Flight(w.flights[f].start, Some(Landing(w.step, w.clock, r)))])
  }

  /** The second look, once the awaited flight has landed. */
  function Resumed(w: World, c: Call, f: Flight): Phase
    requires f.done.Some?
  {
    if f.done.value.result.Err? then Refused(Unavailable)
    else if c.kid in w.source.keys then Served(w.source.keys[c.kid], w.current, w.step)
    else Refused(UnknownKey)
  }

  predicate Awaiting(w: World, c: nat) {
    c < |w.calls| && w.calls[c].phase.Waiting? && w.calls[c].phase.flight < |w.flights|
  }

  function Step(w: World, e: Event): World {
    match e
    case Tick(passed) => w.(clock := w.clock + passed)
    case Enter(kid, ours) =>
      if ours then Entered(w, kid)
      else w.(calls := w.calls + [Call(kid, w.clock, w.step, Refused(UnknownKey))])
    case Finish(r) =>
      if w.source.flight.Some? && w.source.flight.value < |w.flights| then Landed(w, w.source.flight.value, r) else w
    case Resume(c) =>
      if Awaiting(w, c) && w.flights[w.calls[c].phase.flight].done.Some? then
        w.(calls := w.calls[c := w.calls[c].(phase := Resumed(w, w.calls[c], w.flights[w.calls[c].phase.flight]))])
      else w
    case Cancel(c) =>
      if Awaiting(w, c) then w.(calls := w.calls[c := w.calls[c].(phase := Refused(Unavailable))]) else w
  }

  function Next(w: World, e: Event): World {
    Step(w, e).(step := w.step + 1)
  }

  function Run(w: World, es: seq<Event>): World {
    if es == [] then w else Next(Run(w, es[..|es| - 1]), es[|es| - 1])
  }

  // ---- Invariant ----------------------------------------------------------------------------

  predicate Succeeded(f: Flight) {
    f.done.Some? && f.done.value.result.Ok?
  }

  predicate Failed(f: Flight) {
    f.done.Some? && f.done.value.result.Err?
  }

  predicate Timely(step: nat, clock: Time, f: Flight) {
    f.start <= clock && (f.done.Some? ==> f.start <= f.done.value.at <= clock && f.done.value.step < step)
  }

  /** f is over before g is, and g starts no earlier than the back-off after f allows. */
  predicate Follows(f: Flight, g: Flight) {
    && f.done.Some? && f.start <= g.start
    && (g.done.Some? ==> f.done.value.step < g.done.value.step && f.done.value.at <= g.done.value.at)
    && (f.start + MIN_REFRESH <= g.start || (Failed(f) && IsZero(f.start)))
  }

  predicate InOrder(fs: seq<Flight>) {
    forall i, j | 0 <= i < j < |fs| :: Follows(fs[i], fs[j])
  }

  predicate AllTimely(fs: seq<Flight>, step: nat, clock: Time) {
    forall i | 0 <= i < |fs| :: Timely(step, clock, fs[i])
  }

  predicate OneFlight(fs: seq<Flight>, flight: Option<nat>) {
    && fs != []
    && (forall i | 0 <= i < |fs| :: fs[i].done.None? <==> flight == Some(i))
    && (flight.Some? ==> flight.value == |fs| - 1)
  }

  /** The set in use is that of the last successful flight; a failed last flight set the back-off, a successful one cleared it. */
  predicate InUse(s: Source, current: nat, fs: seq<Flight>) {
    && current < |fs| && Succeeded(fs[current])
    && s.keys == KeysOf(fs[current].done.value.result.value) && s.loaded == fs[current].start
    && (forall g | current < g < |fs| :: !Succeeded(fs[g]))
    && (Failed(fs[|fs| - 1]) ==> s.failed == fs[|fs| - 1].start)
    && (Succeeded(fs[|fs| - 1]) ==> IsZero(s.failed))
  }

  predicate Overlaps(c: Call, f: Flight) {
    f.done.Some? ==> c.step < f.done.value.step && c.at <= f.done.value.at
  }

  predicate RecentEnough(c: Call, f: Flight) {
    f.start <= c.at < f.start + MAX_AGE || Overlaps(c, f)
  }

  /** What a served call was given: a key of the then latest set, recent enough. */
  predicate Genuine(fs: seq<Flight>, c: Call)
    requires c.phase.Served?
  {
    var n := c.phase.from;
    && n < |fs| && Succeeded(fs[n]) && fs[n].done.value.step < c.phase.step
    && (forall g | n < g < |fs| && Succeeded(fs[g]) :: c.phase.step <= fs[g].done.value.step)
    && (var keys := KeysOf(fs[n].done.value.result.value); c.kid in keys && c.phase.v == keys[c.kid])
    && RecentEnough(c, fs[n])
  }

  predicate GoodCall(fs: seq<Flight>, step: nat, clock: Time, c: Call) {
    && c.step < step && c.at <= clock
    && (c.phase.Waiting? ==> c.phase.flight < |fs| && Overlaps(c, fs[c.phase.flight]))
    && (c.phase.Served? ==> c.phase.step < step && Genuine(fs, c))
  }

  predicate GoodCalls(cs: seq<Call>, fs: seq<Flight>, step: nat, clock: Time) {
    forall i | 0 <= i < |cs| :: GoodCall(fs, step, clock, cs[i])
  }

  predicate Sound(step: nat, clock: Time, s: Source, current: nat, fs: seq<Flight>) {
    OneFlight(fs, s.flight) && AllTimely(fs, step, clock) && InOrder(fs) && InUse(s, current, fs)
  }

  predicate Valid(w: World) {
    Sound(w.step, w.clock, w.source, w.current, w.flights) && GoodCalls(w.calls, w.flights, w.step, w.clock)
  }

  lemma TickKeeps(w: World, passed: nat)
    requires Valid(w)
    ensures Valid(w.(clock := w.clock + passed, step := w.step + 1))
  {
    forall i | 0 <= i < |w.calls| ensures GoodCall(w.flights, w.step + 1, w.clock + passed, w.calls[i]) {
      assert GoodCall(w.flights, w.step, w.clock, w.calls[i]);
    }
  }

  lemma ArriveKeeps(w: World, c: Call)
    requires Valid(w) && GoodCall(w.flights, w.step + 1, w.clock, c)
    ensures Valid(w.(calls := w.calls + [c], step := w.step + 1))
  {
    TickKeeps(w, 0);
  }

  lemma ChangeKeeps(w: World, i: nat, c: Call)
    requires Valid(w) && i < |w.calls| && GoodCall(w.flights, w.step + 1, w.clock, c)
    ensures Valid(w.(calls := w.calls[i := c], step := w.step + 1))
  {
    TickKeeps(w, 0);
  }

  /** A flight starts only after the last one is over and the back-off has passed. */
  lemma StartFollowsLast(w: World, kid: Bytes)
    requires Valid(w) && Look(w.source, w.clock, kid, |w.flights|) == Await(|w.flights|)
    ensures Follows(w.flights[|w.flights| - 1], Flight(w.clock, None))
  {
    var last := w.flights[|w.flights| - 1];
    assert Timely(w.step, w.clock, last) && last.done.Some?;
  }

  function Started(w: World): World {
    w.(source := w.source.(flight := Some(|w.flights|)), flights := w.flights + [Flight(w.clock, None)])
  }

  lemma StartInOrder(fs: seq<Flight>, f: Flight)
    requires fs != [] && InOrder(fs) && Follows(fs[|fs| - 1], f) && f.done.None?
    ensures InOrder(fs + [f])
  {
    forall i | 0 <= i < |fs| ensures Follows(fs[i], f) {
      if i < |fs| - 1 {
        assert Follows(fs[i], fs[|fs| - 1]);
      }
    }
  }

  lemma StartKeepsCall(fs: seq<Flight>, f: Flight, step: nat, clock: Time, c: Call)
    requires GoodCall(fs, step, clock, c) && f.done.None?
    ensures GoodCall(fs + [f], step, clock, c)
  {
  }

  lemma StartKeeps(w: World, kid: Bytes)
    requires Valid(w) && Look(w.source, w.clock, kid, |w.flights|) == Await(|w.flights|)
    ensures Valid(Started(w))
  {
    var f := Flight(w.clock, None);
    StartFollowsLast(w, kid);
    StartInOrder(w.flights, f);
    forall i | 0 <= i < |w.calls| ensures GoodCall(w.flights + [f], w.step, w.clock, w.calls[i]) {
      StartKeepsCall(w.flights, f, w.step, w.clock, w.calls[i]);
    }
  }

  lemma ServeKeeps(w: World, kid: Bytes, v: Verifier)
    requires Valid(w) && Look(w.source, w.clock, kid, |w.flights|) == Serve(v)
    ensures GoodCall(w.flights, w.step + 1, w.clock, Call(kid, w.clock, w.step, Served(v, w.current, w.step)))
  {
    assert Timely(w.step, w.clock, w.flights[w.current]);
  }

  lemma EnteredKeeps(w: World, kid: Bytes)
    requires Valid(w)
    ensures Valid(Entered(w, kid).(step := w.step + 1))
  {
    match Look(w.source, w.clock, kid, |w.flights|)
    case Serve(v) =>
      ServeKeeps(w, kid, v);
      ArriveKeeps(w, Call(kid, w.clock, w.step, Served(v, w.current, w.step)));
    case Refuse(e) => ArriveKeeps(w, Call(kid, w.clock, w.step, Refused(e)));
    case Await(f) =>
      if f == |w.flights| {
        StartKeeps(w, kid);
        ArriveKeeps(Started(w), Call(kid, w.clock, w.step, Waiting(f)));
      } else {
        assert w.source == w.source.(flight := Some(f));
        ArriveKeeps(w, Call(kid, w.clock, w.step, Waiting(f)));
      }
  }

  /** A flight that lands now does not disturb what was served before. */
  lemma LandingKeepsCall(w: World, f: nat, r: Fetch, c: Call)
    requires Valid(w) && w.source.flight == Some(f) && GoodCall(w.flights, w.step, w.clock, c)
    ensures GoodCall(Landed(w, f, r).flights, w.step + 1, w.clock, c)
  {
  }

  lemma LandingInOrder(w: World, f: nat, r: Fetch)
    requires Valid(w) && w.source.flight == Some(f)
    ensures InOrder(Landed(w, f, r).flights)
  {
    var fs := Landed(w, f, r).flights;
    forall i, j | 0 <= i < j < |fs| ensures Follows(fs[i], fs[j]) {
      assert Follows(w.flights[i], w.flights[j]) && Timely(w.step, w.clock, w.flights[i]);
    }
  }

  lemma LandedKeeps(w: World, f: nat, r: Fetch)
    requires Valid(w) && w.source.flight == Some(f)
    ensures Valid(Landed(w, f, r).(step := w.step + 1))
  {
    LandingInOrder(w, f, r);
    forall i | 0 <= i < |w.calls| ensures GoodCall(Landed(w, f, r).flights, w.step + 1, w.clock, w.calls[i]) {
      LandingKeepsCall(w, f, r, w.calls[i]);
    }
  }

  /** A call that waited for a successful flight reads a set that landed while it waited. */
  lemma ResumedOverlaps(w: World, c: Call, f: nat)
    requires Valid(w) && f < |w.flights| && Succeeded(w.flights[f]) && Overlaps(c, w.flights[f])
    ensures Overlaps(c, w.flights[w.current]) && w.flights[w.current].done.value.step < w.step
  {
    assert Timely(w.step, w.clock, w.flights[w.current]) && f <= w.current;
    if f < w.current {
      assert Follows(w.flights[f], w.flights[w.current]);
    }
  }

  lemma ResumedKeeps(w: World, i: nat)
    requires Valid(w) && Awaiting(w, i) && w.flights[w.calls[i].phase.flight].done.Some?
    ensures Valid(Next(w, Resume(i)))
  {
    var c := w.calls[i];
    var f := c.phase.flight;
    var d := c.(phase := Resumed(w, c, w.flights[f]));
    assert GoodCall(w.flights, w.step, w.clock, c);
    if d.phase.Served? {
      ResumedOverlaps(w, c, f);
      assert Genuine(w.flights, d);
    }
    ChangeKeeps(w, i, d);
  }

  lemma CancelKeeps(w: World, i: nat)
    requires Valid(w) && Awaiting(w, i)
    ensures Valid(Next(w, Cancel(i)))
  {
    assert GoodCall(w.flights, w.step, w.clock, w.calls[i]);
    ChangeKeeps(w, i, w.calls[i].(phase := Refused(Unavailable)));
  }

  lemma EnterKeeps(w: World, kid: Bytes, ours: bool)
    requires Valid(w)
    ensures Valid(Next(w, Enter(kid, ours)))
  {
    if ours {
      EnteredKeeps(w, kid);
    } else {
      ArriveKeeps(w, Call(kid, w.clock, w.step, Refused(UnknownKey)));
    }
  }

  lemma WakeKeeps(w: World, e: Event)
    requires Valid(w) && (e.Resume? || e.Cancel?)
    ensures Valid(Next(w, e))
  {
    if Step(w, e) == w {
      TickKeeps(w, 0);
    } else if e.Resume? {
      ResumedKeeps(w, e.call);
    } else {
      CancelKeeps(w, e.call);
    }
  }

  lemma FinishKeeps(w: World, r: Fetch)
    requires Valid(w)
    ensures Valid(Next(w, Finish(r)))
  {
    if w.source.flight.Some? {
      LandedKeeps(w, w.source.flight.value, r);
    } else {
      TickKeeps(w, 0);
    }
  }

  lemma NextKeeps(w: World, e: Event)
    requires Valid(w)
    ensures Valid(Next(w, e))
  {
    match e
    case Tick(passed) => TickKeeps(w, passed);
    case Enter(kid, ours) => EnterKeeps(w, kid, ours);
    case Finish(r) => FinishKeeps(w, r);
    case Resume(_) => WakeKeeps(w, e);
    case Cancel(_) => WakeKeeps(w, e);
  }

  lemma {:induction false} RunsAreValid(t: Time, took: nat, vs: seq<Verifier>, es: seq<Event>)
    ensures Valid(Run(BroughtUp(t, took, vs), es))
  {
    if es != [] {
      RunsAreValid(t, took, vs, es[..|es| - 1]);
      NextKeeps(Run(BroughtUp(t, took, vs), es[..|es| - 1]), es[|es| - 1]);
    }
  }

  // ---- Results ------------------------------------------------------------------------------

  /** At most one fetch is in progress. */
  lemma SingleFlight(t: Time, took: nat, vs: seq<Verifier>, es: seq<Event>, i: nat, j: nat)
    requires var w := Run(BroughtUp(t, took, vs), es);
      i < |w.flights| && j < |w.flights| && w.flights[i].done.None? && w.flights[j].done.None?
    ensures i == j
  {
    RunsAreValid(t, took, vs, es);
  }

  /** Two fetches start at least ten seconds apart, unless the first failed after starting at the zero instant. */
  lemma FetchesAreSpaced(t: Time, took: nat, vs: seq<Verifier>, es: seq<Event>, i: nat, j: nat)
    requires i < j < |Run(BroughtUp(t, took, vs), es).flights|
    ensures var fs := Run(BroughtUp(t, took, vs), es).flights;
      fs[i].start + MIN_REFRESH <= fs[j].start || (Failed(fs[i]) && IsZero(fs[i].start))
  {
    RunsAreValid(t, took, vs, es);
    var fs := Run(BroughtUp(t, took, vs), es).flights;
    assert Follows(fs[i], fs[j]);
  }

  /**
   * A returned key is the one the latest successful fetch gave for the id, and that fetch started
   * less than a minute before the call or landed during it.
   */
  lemma ServedKeysAreFresh(t: Time, took: nat, vs: seq<Verifier>, es: seq<Event>, c: Call)
    requires c in Run(BroughtUp(t, took, vs), es).calls && c.phase.Served?
    ensures Genuine(Run(BroughtUp(t, took, vs), es).flights, c)
  {
    RunsAreValid(t, took, vs, es);
    var w := Run(BroughtUp(t, took, vs), es);
    var i :| 0 <= i < |w.calls| && w.calls[i] == c;
    assert GoodCall(w.flights, w.step, w.clock, w.calls[i]);
  }

  /** A call a minute after the last successful landing l, or later, gets no key. */
  lemma FailsClosed(t: Time, took: nat, vs: seq<Verifier>, es: seq<Event>, c: Call, l: Time)
    requires c in Run(BroughtUp(t, took, vs), es).calls
    requires forall f | f in Run(BroughtUp(t, took, vs), es).flights && Succeeded(f) :: f.done.value.at <= l
    ensures c.phase.Served? ==> c.at < l + MAX_AGE
  {
    if c.phase.Served? {
      ServedKeysAreFresh(t, took, vs, es, c);
      RunsAreValid(t, took, vs, es);
      var w := Run(BroughtUp(t, took, vs), es);
      assert Timely(w.step, w.clock, w.flights[c.phase.from]) && w.flights[c.phase.from] in w.flights;
    }
  }

  // ---- When the spacing holds ---------------------------------------------------------------

  /** Every two fetches of every run start far enough apart. */
  ghost predicate AlwaysSpaced(t: Time, took: nat, vs: seq<Verifier>) {
    forall es: seq<Event>, i: nat, j: nat | i < j < |Run(BroughtUp(t, took, vs), es).flights| ::
      var fs := Run(BroughtUp(t, took, vs), es).flights; fs[i].start + MIN_REFRESH <= fs[j].start
  }

  /** No later fetch can start at the zero instant: it is past, or too soon after the bring-up. */
  predicate ZeroIsOutOfReach(t: Time, took: nat) {
    ZERO_TIME < t + took || ZERO_TIME < t + MIN_REFRESH
  }

  /** The bring-up is flight 0, which succeeded; every other flight starts after it has ended. */
  predicate AfterBringUp(t: Time, end: Time, w: World) {
    && w.flights != [] && w.flights[0].start == t && Succeeded(w.flights[0]) && end <= w.clock
    && forall i | 0 < i < |w.flights| :: end <= w.flights[i].start
  }

  lemma NextAfterBringUp(t: Time, end: Time, w: World, e: Event)
    requires Valid(w) && AfterBringUp(t, end, w)
    ensures AfterBringUp(t, end, Next(w, e))
  {
  }

  lemma {:induction false} RunsAfterBringUp(t: Time, took: nat, vs: seq<Verifier>, es: seq<Event>)
    ensures AfterBringUp(t, t + took, Run(BroughtUp(t, took, vs), es))
  {
    if es != [] {
      RunsAfterBringUp(t, took, vs, es[..|es| - 1]);
      RunsAreValid(t, took, vs, es[..|es| - 1]);
      NextAfterBringUp(t, t + took, Run(BroughtUp(t, took, vs), es[..|es| - 1]), es[|es| - 1]);
    }
  }

  lemma SpacedOutOfReach(t: Time, took: nat, vs: seq<Verifier>, es: seq<Event>, i: nat, j: nat)
    requires ZeroIsOutOfReach(t, took) && i < j < |Run(BroughtUp(t, took, vs), es).flights|
    ensures var fs := Run(BroughtUp(t, took, vs), es).flights; fs[i].start + MIN_REFRESH <= fs[j].start
  {
    FetchesAreSpaced(t, took, vs, es, i, j);
    RunsAfterBringUp(t, took, vs, es);
    if i > 0 {
      FetchesAreSpaced(t, took, vs, es, 0, i);
    }
  }

  /** A key id longer than every one of the set. */
  function Absent(vs: seq<Verifier>): Bytes {
    if vs == [] then [0] else vs[0].kid + Absent(vs[1..])
  }

  lemma {:induction false} AbsentIsLonger(vs: seq<Verifier>, i: nat)
    requires i < |vs|
    ensures |vs[i].kid| < |Absent(vs)|
  {
    if i > 0 {
      AbsentIsLonger(vs[1..], i - 1);
    } else {
      AbsentIsNotEmpty(vs[1..]);
    }
  }

  lemma {:induction false} AbsentIsNotEmpty(vs: seq<Verifier>)
    ensures Absent(vs) != []
  {
    if vs != [] {
      AbsentIsNotEmpty(vs[1..]);
    }
  }

  lemma {:induction false} KeysAreGiven(vs: seq<Verifier>, kid: Bytes)
    requires kid in KeysOf(vs)
    ensures exists i | 0 <= i < |vs| :: vs[i].kid == kid
  {
    var init, last := vs[..|vs| - 1], vs[|vs| - 1];
    if last.kid != kid {
      KeysAreGiven(init, kid);
      var i :| 0 <= i < |init| && init[i].kid == kid;
      assert vs[i].kid == kid;
    }
  }

  lemma AbsentIsUnknown(vs: seq<Verifier>)
    ensures Absent(vs) !in KeysOf(vs)
  {
    if Absent(vs) in KeysOf(vs) {
      KeysAreGiven(vs, Absent(vs));
      var i :| 0 <= i < |vs| && vs[i].kid == Absent(vs);
      AbsentIsLonger(vs, i);
    }
  }

  /** Wait until the zero instant, ask for an unknown key, let the fetch fail, and ask again. */
  function AskTwiceAtZero(t: Time, took: nat, kid: Bytes, reason: Failure): seq<Event>
    requires t + took <= ZERO_TIME
  {
    [Tick(ZERO_TIME - (t + took)), Enter(kid, true), Finish(Err(reason)), Enter(kid, true)]
  }

  lemma RunSnoc(w: World, es: seq<Event>, e: Event)
    ensures Run(w, es + [e]) == Next(Run(w, es), e)
  {
    assert (es + [e])[..|es|] == es;
  }

  /** Asked for an unknown key at the zero instant, an idle source starts a fetch even right after a failure. */
  lemma ZeroInstantIsNotBackedOff(w: World, kid: Bytes)
    requires w.clock == ZERO_TIME && w.source.flight.None? && kid !in w.source.keys
    requires w.source.loaded + MIN_REFRESH <= ZERO_TIME && (IsZero(w.source.failed) || w.source.failed + MIN_REFRESH <= ZERO_TIME)
    ensures Look(w.source, w.clock, kid, |w.flights|) == Await(|w.flights|)
    ensures Next(w, Enter(kid, true)).flights == w.flights + [Flight(ZERO_TIME, None)]
    ensures Next(w, Enter(kid, true)).source == w.source.(flight := Some(|w.flights|))
  {
  }

  lemma FailedLanding(w: World, f: nat, reason: Failure)
    requires w.source.flight == Some(f) && f < |w.flights|
    ensures var n := Next(w, Finish(Err(reason)));
      && n.source == w.source.(failed := w.flights[f].start, flight := None) && n.clock == w.clock
      && |n.flights| == |w.flights| && n.flights[f].start == w.flights[f].start
  {
  }

  /** Ask, fail, ask again, from any idle source that has never failed. */
  lemma AskFailAsk(w: World, kid: Bytes, reason: Failure)
    requires w.clock == ZERO_TIME && w.source.flight.None? && kid !in w.source.keys
    requires w.source.loaded + MIN_REFRESH <= ZERO_TIME && IsZero(w.source.failed)
    ensures var n := |w.flights|;
      var fs := Next(Next(Next(w, Enter(kid, true)), Finish(Err(reason))), Enter(kid, true)).flights;
      |fs| == n + 2 && fs[n].start == fs[n + 1].start == ZERO_TIME
  {
    ZeroInstantIsNotBackedOff(w, kid);
    var w2 := Next(w, Enter(kid, true));
    FailedLanding(w2, |w.flights|, reason);
    ZeroInstantIsNotBackedOff(Next(w2, Finish(Err(reason))), kid);
  }

  lemma FourSteps(w: World, a: Event, b: Event, c: Event, d: Event)
    ensures Run(w, [a, b, c, d]) == Next(Next(Next(Next(w, a), b), c), d)
  {
    RunSnoc(w, [], a);
    RunSnoc(w, [a], b);
    RunSnoc(w, [a, b], c);
    RunSnoc(w, [a, b, c], d);
    assert [] + [a] == [a] && [a] + [b] == [a, b] && [a, b] + [c] == [a, b, c] && [a, b, c] + [d] == [a, b, c, d];
  }

  /** A run with two fetches at one instant. */
  lemma ZeroRun(t: Time, took: nat, vs: seq<Verifier>, kid: Bytes, reason: Failure)
    requires !ZeroIsOutOfReach(t, took) && kid !in KeysOf(vs)
    ensures var fs := Run(BroughtUp(t, took, vs), AskTwiceAtZero(t, took, kid, reason)).flights;
      |fs| == 3 && fs[1].start == fs[2].start == ZERO_TIME
  {
    var w, wait := BroughtUp(t, took, vs), Tick(ZERO_TIME - (t + took));
    AskFailAsk(Next(w, wait), kid, reason);
    FourSteps(w, wait, Enter(kid, true), Finish(Err(reason)), Enter(kid, true));
  }

  /**
   * Fetches are at least ten seconds apart in all runs exactly when none can start at the zero instant.
   * A failure recorded there reads as no failure at all.
   */
  lemma SpacingExact(t: Time, took: nat, vs: seq<Verifier>)
    ensures AlwaysSpaced(t, took, vs) <==> ZeroIsOutOfReach(t, took)
  {
    if ZeroIsOutOfReach(t, took) {
      forall es: seq<Event>, i: nat, j: nat | i < j < |Run(BroughtUp(t, took, vs), es).flights|
        ensures var fs := Run(BroughtUp(t, took, vs), es).flights; fs[i].start + MIN_REFRESH <= fs[j].start
      {
        SpacedOutOfReach(t, took, vs, es, i, j);
      }
    } else {
      AbsentIsUnknown(vs);
      ZeroRun(t, took, vs, Absent(vs), Failure(0));
      var es := AskTwiceAtZero(t, took, Absent(vs), Failure(0));
      var fs := Run(BroughtUp(t, took, vs), es).flights;
      assert fs[1].start + MIN_REFRESH > fs[2].start;
    }
  }
}
