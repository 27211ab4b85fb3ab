/** What a call for a key is answered, over every run of the key source, decided by the fetches alone. */
module KeyCalls {
  import opened Prelude
  import opened Jwks

  // ---- Readings of the fetches --------------------------------------------------------------

  /** The key a fetched list gives for an id: the last one that carries it. */
  predicate Gives(vs: seq<Verifier>, kid: Bytes, v: Verifier) {
    exists i | 0 <= i < |vs| :: vs[i] == v && v.kid == kid && forall j | i < j < |vs| :: vs[j].kid != kid
  }

  predicate Names(vs: seq<Verifier>, kid: Bytes) {
    exists v | v in vs :: v.kid == kid
  }

  lemma {:induction false} KeysExact(vs: seq<Verifier>, kid: Bytes)
    ensures kid in KeysOf(vs) <==> Names(vs, kid)
    ensures kid in KeysOf(vs) ==> Gives(vs, kid, KeysOf(vs)[kid])
  {
    if vs != [] {
      var init, last := vs[..|vs| - 1], vs[|vs| - 1];
      KeysExact(init, kid);
      assert vs == init + [last];
      if last.kid == kid {
        assert last in vs && vs[|vs| - 1] == last;
      } else if kid in KeysOf(init) {
        var i :| 0 <= i < |init| && init[i] == KeysOf(init)[kid] && init[i].kid == kid
          && forall j | i < j < |init| :: init[j].kid != kid;
        assert vs[i] == init[i] && init[i] in vs;
      }
    }
  }

  /** The latest fetch that succeeded. */
  predicate Latest(fs: seq<Flight>, s: nat) {
    s < |fs| && Succeeded(fs[s]) && forall g | s < g < |fs| :: !Succeeded(fs[g])
  }

  predicate InFlight(fs: seq<Flight>) {
    fs != [] && fs[|fs| - 1].done.None?
  }

  /** The last fetch failed less than ten seconds after it started; a start at the zero instant does not count. */
  predicate BackedOff(fs: seq<Flight>, now: Time) {
    fs != [] && Failed(fs[|fs| - 1]) && !IsZero(fs[|fs| - 1].start) && now < fs[|fs| - 1].start + MIN_REFRESH
  }

  // ---- Entering -----------------------------------------------------------------------------

  /**
   * The phase a call enters, when the latest successful fetch, number s, started at and gave vs: served at
   * once from a set under a minute old that names the key, refused at once by one under ten seconds old
   * that does not; else it joins the fetch in progress, is backed off, or starts a fetch.
   */
  ghost predicate Enters(fs: seq<Flight>, s: nat, now: Time, step: nat, kid: Bytes, p: Phase, after: seq<Flight>)
    requires Latest(fs, s)
  {
    var start, vs := fs[s].start, fs[s].done.value.result.value;
    if Names(vs, kid) && now < start + MAX_AGE then
      p.Served? && Gives(vs, kid, p.v) && p.from == s && p.step == step && after == fs
    else if !Names(vs, kid) && now < start + MIN_REFRESH then p == Refused(UnknownKey) && after == fs
    else if InFlight(fs) then p == Waiting(|fs| - 1) && after == fs
    else if BackedOff(fs, now) then p == Refused(Unavailable) && after == fs
    else p == Waiting(|fs|) && after == fs + [Flight(now, None)]
  }

  lemma LookExact(w: World, kid: Bytes)
    requires Valid(w)
    ensures Latest(w.flights, w.current)
    ensures var a := Look(w.source, w.clock, kid, |w.flights|);
      var start, vs := w.flights[w.current].start, w.flights[w.current].done.value.result.value;
      if Names(vs, kid) && w.clock < start + MAX_AGE then a.Serve? && Gives(vs, kid, a.v)
      else if !Names(vs, kid) && w.clock < start + MIN_REFRESH then a == Refuse(UnknownKey)
      else if InFlight(w.flights) then a == Await(|w.flights| - 1)
      else if BackedOff(w.flights, w.clock) then a == Refuse(Unavailable)
      else a == Await(|w.flights|)
  {
    var fs, s := w.flights, w.source;
    KeysExact(fs[w.current].done.value.result.value, kid);
    assert Timely(w.step, w.clock, fs[w.current]) && Timely(w.step, w.clock, fs[|fs| - 1]);
    assert fs[|fs| - 1].done.None? <==> s.flight == Some(|fs| - 1);
  }

  lemma EnteredExact(w: World, kid: Bytes)
    requires Valid(w)
    ensures var n := Next(w, Enter(kid, true));
      && |n.calls| == |w.calls| + 1 && n.calls[..|w.calls|] == w.calls
      && Latest(w.flights, w.current)
      && (var c := n.calls[|w.calls|];
          && c.kid == kid && c.at == w.clock && c.step == w.step
          && Enters(w.flights, w.current, w.clock, w.step, kid, c.phase, n.flights))
  {
    LookExact(w, kid);
  }

  /** In every run, what a call is answered on entering is decided by the fetches so far. */
  lemma EntryExact(t: Time, took: nat, vs: seq<Verifier>, es: seq<Event>, kid: Bytes, s: nat)
    requires Latest(Run(BroughtUp(t, took, vs), es).flights, s)
    ensures var w := Run(BroughtUp(t, took, vs), es);
      var n := Next(w, Enter(kid, true));
      && |n.calls| == |w.calls| + 1 && n.calls[..|w.calls|] == w.calls
      && (var c := n.calls[|w.calls|];
          && c.kid == kid && c.at == w.clock && c.step == w.step
          && Enters(w.flights, s, w.clock, w.step, kid, c.phase, n.flights))
  {
    RunsAreValid(t, took, vs, es);
    var w := Run(BroughtUp(t, took, vs), es);
    EnteredExact(w, kid);
    OneLatest(w.flights, s, w.current);
  }

  lemma OneLatest(fs: seq<Flight>, s: nat, r: nat)
    requires Latest(fs, s) && Latest(fs, r)
    ensures s == r
  {
  }

  /** There always is a latest successful fetch. */
  lemma SomeLatest(t: Time, took: nat, vs: seq<Verifier>, es: seq<Event>)
    ensures exists s :: Latest(Run(BroughtUp(t, took, vs), es).flights, s)
  {
    RunsAreValid(t, took, vs, es);
    assert Latest(Run(BroughtUp(t, took, vs), es).flights, Run(BroughtUp(t, took, vs), es).current);
  }

  // ---- Waiting ------------------------------------------------------------------------------

  /** What a waiting call becomes when it looks again. */
  ghost predicate Wakes(fs: seq<Flight>, s: nat, step: nat, c: Call, p: Phase)
    requires Latest(fs, s) && c.phase.Waiting? && c.phase.flight < |fs|
  {
    var f, vs := fs[c.phase.flight], fs[s].done.value.result.value;
    if f.done.None? then p == c.phase
    else if Failed(f) then p == Refused(Unavailable)
    else if Names(vs, c.kid) then p.Served? && Gives(vs, c.kid, p.v) && p.from == s && p.step == step
    else p == Refused(UnknownKey)
  }

  /** In every run a waiting call is answered by the fetch it awaits and then by the latest set. */
  lemma WakingExact(t: Time, took: nat, vs: seq<Verifier>, es: seq<Event>, i: nat, s: nat)
    requires var w := Run(BroughtUp(t, took, vs), es);
      i < |w.calls| && w.calls[i].phase.Waiting? && Latest(w.flights, s)
    ensures var w := Run(BroughtUp(t, took, vs), es);
      var n := Next(w, Resume(i));
      && w.calls[i].phase.flight < |w.flights| && n.flights == w.flights && |n.calls| == |w.calls|
      && Wakes(w.flights, s, w.step, w.calls[i], n.calls[i].phase)
      && n.calls == w.calls[i := w.calls[i].(phase := n.calls[i].phase)]
  {
    var w := Run(BroughtUp(t, took, vs), es);
    RunsAreValid(t, took, vs, es);
    assert GoodCall(w.flights, w.step, w.clock, w.calls[i]);
    OneLatest(w.flights, s, w.current);
    KeysExact(w.flights[s].done.value.result.value, w.calls[i].kid);
  }

  lemma FinishExact(w: World, r: Fetch)
    requires Valid(w)
    ensures var n, last := Next(w, Finish(r)), |w.flights| - 1;
      && w.flights != [] && n.calls == w.calls
      && n.flights == if InFlight(w.flights)
                      then w.flights[last := Flight(w.flights[last].start, Some(Landing(w.step, w.clock, r)))]
                      else w.flights
  {
  }

  /** A fetch in progress ends with what it got, at the clock of that step; without one nothing ends. */
  lemma LandingExact(t: Time, took: nat, vs: seq<Verifier>, es: seq<Event>, r: Fetch)
    ensures var w := Run(BroughtUp(t, took, vs), es);
      var n, last := Next(w, Finish(r)), |w.flights| - 1;
      && w.flights != [] && n.calls == w.calls
      && n.flights == if InFlight(w.flights)
                      then w.flights[last := Flight(w.flights[last].start, Some(Landing(w.step, w.clock, r)))]
                      else w.flights
  {
    RunsAreValid(t, took, vs, es);
    FinishExact(Run(BroughtUp(t, took, vs), es), r);
  }

  /** A waiting call that is cancelled is unavailable, and leaves the fetch to the others. */
  lemma CancelExact(t: Time, took: nat, vs: seq<Verifier>, es: seq<Event>, i: nat)
    requires var w := Run(BroughtUp(t, took, vs), es); i < |w.calls| && w.calls[i].phase.Waiting?
    ensures var w := Run(BroughtUp(t, took, vs), es);
      var n := Next(w, Cancel(i));
      n.flights == w.flights && n.source == w.source && n.calls == w.calls[i := w.calls[i].(phase := Refused(Unavailable))]
  {
    var w := Run(BroughtUp(t, took, vs), es);
    RunsAreValid(t, took, vs, es);
    assert GoodCall(w.flights, w.step, w.clock, w.calls[i]);
  }

  /** An answered call stays as it was answered. */
  lemma AnswersStand(w: World, e: Event, i: nat)
    requires i < |w.calls| && !w.calls[i].phase.Waiting?
    ensures i < |Next(w, e).calls| && Next(w, e).calls[i] == w.calls[i]
  {
  }

  /** A call for another tenant is refused, and neither starts nor joins a fetch. */
  lemma ForeignCall(w: World, kid: Bytes)
    ensures var n := Next(w, Enter(kid, false));
      && |n.calls| == |w.calls| + 1 && n.calls[|w.calls|].phase == Refused(UnknownKey)
      && n.flights == w.flights && n.source == w.source
  {
  }
}
