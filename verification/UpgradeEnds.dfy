/** When an upgrade ends without error, what its error names otherwise, and what it has counted by then. */
module UpgradeEnds {
  import opened Prelude
  import opened Upgrade

  // ---- When and why a run stops -------------------------------------------------------------

  /** A page that lets the run go on from cursor cur to cursor next. */
  predicate Passes(l: Listing, cur: U64, next: U64) {
    l.Page? && l.rows != [] && cur < l.next == next && NoneStops(l.rows)
  }

  /** The store lists pages that each advance the cursor along cs, none with a row that stops. */
  predicate Advances(src: Source, cs: seq<U64>) {
    && cs != [] && cs[0] == 0
    && forall i | 0 <= i < |cs| - 1 :: Passes(src(i, cs[i]), cs[i], cs[i + 1])
  }

  /** What the store lists at the end of such a path. */
  function LastListing(src: Source, cs: seq<U64>): Listing
    requires cs != []
  {
    src(|cs| - 1, cs[|cs| - 1])
  }

  predicate Empties(src: Source, cs: seq<U64>) {
    Advances(src, cs) && LastListing(src, cs).Page? && LastListing(src, cs).rows == []
  }

  /** The pages run out. */
  ghost predicate Exhausted(src: Source) {
    exists cs :: Empties(src, cs)
  }

  /** What is wrong with a row, if it stops the run: the opener, the seal or the store failed on it, in this order. */
  function RowFault(r: LegacyRow): Option<Stop> {
    if Ends(r) != Stopped then None
    else if r.read.Unopened? then Some(OpenerFailed)
    else if !r.sealed then Some(SealFailed)
    else Some(StoreFailed)
  }

  /** Row k is the first of the page to stop the run, for this reason. */
  predicate FirstFault(rows: seq<LegacyRow>, k: nat, e: Stop) {
    k < |rows| && RowFault(rows[k]) == Some(e) && NoneStops(rows[..k])
  }

  /** A listing that ends the run with this error: none, one that does not advance, or one with a failing row. */
  ghost predicate Breaks(l: Listing, cur: U64, e: Stop) {
    match l
    case Unlisted => e == ListingFailed
    case Page(rows, next) =>
      && rows != []
      && if next <= cur then e == CursorStuck else exists k :: FirstFault(rows, k, e)
  }

  ghost predicate BreaksAfter(src: Source, cs: seq<U64>, e: Stop) {
    Advances(src, cs) && Breaks(LastListing(src, cs), cs[|cs| - 1], e)
  }

  /** The first thing that failed is e. */
  ghost predicate BrokenBy(src: Source, e: Stop) {
    exists cs :: BreaksAfter(src, cs, e)
  }

  lemma RowStop(rep: Report, r: LegacyRow)
    ensures UpgradeRow(rep, r).Err? <==> RowFault(r).Some?
    ensures UpgradeRow(rep, r).Err? ==> RowFault(r) == Some(UpgradeRow(rep, r).error)
  {
  }

  lemma {:induction false} RowsStop(rep: Report, rows: seq<LegacyRow>)
    ensures var p := UpgradeRows(rep, rows);
      && (p.stop.None? <==> NoneStops(rows))
      && (p.stop.Some? ==> exists k :: FirstFault(rows, k, p.stop.value))
    decreases |rows|
  {
    RowsCount(rep, rows);
    if rows != [] {
      RowStop(rep, rows[0]);
      if UpgradeRow(rep, rows[0]).Err? {
        assert FirstFault(rows, 0, UpgradeRow(rep, rows[0]).error);
      } else if !NoneStops(rows) {
        var next := UpgradeRow(rep, rows[0]).value;
        RowsStop(next, rows[1..]);
        RowsCount(next, rows[1..]);
        var e := UpgradeRows(next, rows[1..]).stop.value;
        var k :| FirstFault(rows[1..], k, e);
        FaultFurther(rows, k, e);
      }
    }
  }

  lemma FaultFurther(rows: seq<LegacyRow>, k: nat, e: Stop)
    requires rows != [] && Ends(rows[0]) != Stopped && FirstFault(rows[1..], k, e)
    ensures FirstFault(rows, k + 1, e)
  {
    assert rows[..k + 1] == [rows[0]] + rows[1..][..k];
  }

  /** How a run stands at its last cursor. */
  ghost predicate EndsAs(src: Source, cs: seq<U64>, stop: Option<Stop>) {
    match stop
    case None => Empties(src, cs)
    case Some(e) => BreaksAfter(src, cs, e)
  }

  ghost predicate Explained(src: Source, stop: Option<Stop>) {
    exists cs :: EndsAs(src, cs, stop)
  }

  lemma AdvancesOnce(src: Source, cs: seq<U64>, next: U64)
    requires Advances(src, cs) && Passes(LastListing(src, cs), cs[|cs| - 1], next)
    ensures Advances(src, cs + [next])
  {
  }

  /** Wherever a run stands, it goes on to an end that explains how it stops. */
  lemma {:induction false} RunEnds(src: Source, cs: seq<U64>, rep: Report)
    requires Advances(src, cs)
    ensures Explained(src, RunFrom(src, |cs| - 1, cs[|cs| - 1], rep).stop)
    decreases TWO_64 - cs[|cs| - 1]
  {
    var cur, stop := cs[|cs| - 1], RunFrom(src, |cs| - 1, cs[|cs| - 1], rep).stop;
    match LastListing(src, cs)
    case Unlisted => assert EndsAs(src, cs, stop);
    case Page(rows, next) =>
      RowsStop(rep, rows);
      if rows != [] && cur < next && NoneStops(rows) {
        AdvancesOnce(src, cs, next);
        RunEnds(src, cs + [next], UpgradeRows(rep, rows).report);
      } else {
        assert EndsAs(src, cs, stop);
      }
  }

  // ---- Only one end fits --------------------------------------------------------------------

  lemma {:induction false} OnePath(src: Source, cs: seq<U64>, ds: seq<U64>, i: nat)
    requires Advances(src, cs) && Advances(src, ds) && i < |cs| && i < |ds|
    ensures cs[i] == ds[i]
  {
    if i > 0 {
      OnePath(src, cs, ds, i - 1);
      assert Passes(src(i - 1, cs[i - 1]), cs[i - 1], cs[i]) && Passes(src(i - 1, ds[i - 1]), ds[i - 1], ds[i]);
    }
  }

  lemma FaultStops(rows: seq<LegacyRow>, k: nat, e: Stop)
    requires FirstFault(rows, k, e)
    ensures !NoneStops(rows)
  {
    assert rows[k] in rows;
  }

  lemma NoEarlierFault(rows: seq<LegacyRow>, k: nat, e: Stop, l: nat)
    requires FirstFault(rows, k, e) && l < k
    ensures RowFault(rows[l]).None?
  {
    assert rows[..k][l] in rows[..k];
  }

  lemma OneFault(rows: seq<LegacyRow>, k: nat, e: Stop, l: nat, f: Stop)
    requires FirstFault(rows, k, e) && FirstFault(rows, l, f)
    ensures k == l && e == f
  {
    if l < k {
      NoEarlierFault(rows, k, e, l);
    } else if k < l {
      NoEarlierFault(rows, l, f, k);
    }
  }

  lemma EndDoesNotPass(src: Source, cs: seq<U64>, stop: Option<Stop>, next: U64)
    requires EndsAs(src, cs, stop)
    ensures !Passes(LastListing(src, cs), cs[|cs| - 1], next)
  {
    var l := LastListing(src, cs);
    if stop.Some? && l.Page? && l.rows != [] && cs[|cs| - 1] < l.next {
      var k :| FirstFault(l.rows, k, stop.value);
      FaultStops(l.rows, k, stop.value);
    }
  }

  lemma PathPasses(src: Source, cs: seq<U64>, i: nat)
    requires Advances(src, cs) && i + 1 < |cs|
    ensures Passes(src(i, cs[i]), cs[i], cs[i + 1])
  {
  }

  lemma EndsTogether(src: Source, cs: seq<U64>, a: Option<Stop>, ds: seq<U64>, b: Option<Stop>)
    requires EndsAs(src, cs, a) && EndsAs(src, ds, b) && |cs| <= |ds|
    ensures |cs| == |ds| && cs[|cs| - 1] == ds[|cs| - 1]
  {
    OnePath(src, cs, ds, |cs| - 1);
    if |cs| < |ds| {
      PathPasses(src, ds, |cs| - 1);
      EndDoesNotPass(src, cs, a, ds[|cs|]);
    }
  }

  lemma OneEnd(src: Source, cs: seq<U64>, a: Option<Stop>, ds: seq<U64>, b: Option<Stop>)
    requires EndsAs(src, cs, a) && EndsAs(src, ds, b)
    ensures a == b
  {
    if |cs| <= |ds| {
      EndsTogether(src, cs, a, ds, b);
    } else {
      EndsTogether(src, ds, b, cs, a);
    }
    var l := LastListing(src, cs);
    if a.Some? && b.Some? && l.Page? && cs[|cs| - 1] < l.next {
      var k :| FirstFault(l.rows, k, a.value);
      var m :| FirstFault(l.rows, m, b.value);
      OneFault(l.rows, k, a.value, m, b.value);
    }
  }

  /**
   * A run ends without error exactly when the store lists pages that each advance the cursor, none with
   * a row that stops, up to an empty page. Otherwise it ends with the first thing that failed.
   */
  lemma RunStopExact(src: Source, rep: Report, e: Stop)
    ensures RunFrom(src, 0, 0, rep).stop.None? <==> Exhausted(src)
    ensures RunFrom(src, 0, 0, rep).stop == Some(e) <==> BrokenBy(src, e)
  {
    var stop := RunFrom(src, 0, 0, rep).stop;
    RunEnds(src, [0], rep);
    var ds :| EndsAs(src, ds, stop);
    if cs :| Empties(src, cs) {
      OneEnd(src, ds, stop, cs, None);
    }
    if cs :| BreaksAfter(src, cs, e) {
      OneEnd(src, ds, stop, cs, Some(e));
    }
  }

  // ---- What a stopped run has counted -------------------------------------------------------

  /** The rows before the first that stops the run. */
  function BeforeFault(rows: seq<LegacyRow>): seq<LegacyRow> {
    if rows == [] || Ends(rows[0]) == Stopped then [] else [rows[0]] + BeforeFault(rows[1..])
  }

  /** The rows a run gets through before it ends, for whatever reason. */
  function Handled(src: Source, call: nat, cur: U64): seq<LegacyRow>
    decreases TWO_64 - cur
  {
    match src(call, cur)
    case Unlisted => []
    case Page(rows, next) =>
      if next <= cur then []
      else if NoneStops(rows) && rows != [] then rows + Handled(src, call + 1, next)
      else BeforeFault(rows)
  }

  lemma {:induction false} RowsReport(rep: Report, rows: seq<LegacyRow>)
    ensures UpgradeRows(rep, rows).report == Counting(rep, BeforeFault(rows))
    decreases |rows|
  {
    if rows == [] || Ends(rows[0]) == Stopped {
      assert Counting(rep, []) == rep;
      if rows != [] {
        RowCounts(rep, rows[0]);
      }
    } else {
      RowCounts(rep, rows[0]);
      RowsReport(Counting(rep, [rows[0]]), rows[1..]);
      CountingConcat(rep, [rows[0]], BeforeFault(rows[1..]));
    }
  }

  /** However a run ends, its report counts exactly the rows it got through. */
  lemma {:induction false} RunReport(src: Source, call: nat, cur: U64, rep: Report)
    ensures RunFrom(src, call, cur, rep).report == Counting(rep, Handled(src, call, cur))
    decreases TWO_64 - cur
  {
    assert Counting(rep, []) == rep;
    match src(call, cur)
    case Unlisted =>
    case Page(rows, next) =>
      RowsCount(rep, rows);
      RowsReport(rep, rows);
      if cur < next && rows != [] && NoneStops(rows) {
        RunReport(src, call + 1, next, Counting(rep, rows));
        CountingConcat(rep, rows, Handled(src, call + 1, next));
      }
  }

  /** Sources after one that broke are not looked at. */
  ghost function AllHandled(srcs: seq<Source>): seq<LegacyRow> {
    if srcs == [] then []
    else if Exhausted(srcs[0]) then Handled(srcs[0], 0, 0) + AllHandled(srcs[1..])
    else Handled(srcs[0], 0, 0)
  }

  lemma {:induction false} AllReport(srcs: seq<Source>, rep: Report)
    ensures RunAll(srcs, rep).report == Counting(rep, AllHandled(srcs))
    decreases |srcs|
  {
    if srcs == [] {
      assert Counting(rep, []) == rep;
    } else {
      RunReport(srcs[0], 0, 0, rep);
      RunStopExact(srcs[0], rep, Incomplete);
      if Exhausted(srcs[0]) {
        AllReport(srcs[1..], RunFrom(srcs[0], 0, 0, rep).report);
        CountingConcat(rep, Handled(srcs[0], 0, 0), AllHandled(srcs[1..]));
      }
    }
  }

  // ---- Over all sources ---------------------------------------------------------------------

  /** Source number i is the first that is not exhausted, and e is what failed there. */
  ghost predicate FirstBroken(srcs: seq<Source>, i: nat, e: Stop) {
    i < |srcs| && BrokenBy(srcs[i], e) && forall k | 0 <= k < i :: Exhausted(srcs[k])
  }

  ghost predicate AllExhausted(srcs: seq<Source>) {
    forall src | src in srcs :: Exhausted(src)
  }

  lemma BrokenIsNotExhausted(src: Source, e: Stop)
    requires BrokenBy(src, e)
    ensures !Exhausted(src) && e != Incomplete
  {
    RunStopExact(src, Report(0, 0, []), e);
    RunGrows(src, 0, 0, Report(0, 0, []));
  }

  lemma BrokenFurther(srcs: seq<Source>, e: Stop)
    requires srcs != [] && Exhausted(srcs[0])
    ensures (exists i :: FirstBroken(srcs, i, e)) <==> exists i :: FirstBroken(srcs[1..], i, e)
    ensures AllExhausted(srcs) <==> AllExhausted(srcs[1..])
  {
    if i: nat :| FirstBroken(srcs, i, e) {
      BrokenIsNotExhausted(srcs[i], e);
      assert i > 0 && srcs[1..][i - 1] == srcs[i];
      assert FirstBroken(srcs[1..], i - 1, e);
    }
    if i: nat :| FirstBroken(srcs[1..], i, e) {
      assert srcs[1..][i] == srcs[i + 1];
      forall k | 0 <= k < i + 1 ensures Exhausted(srcs[k]) {
        assert k > 0 ==> srcs[1..][k - 1] == srcs[k];
      }
      assert FirstBroken(srcs, i + 1, e);
    }
    assert srcs == [srcs[0]] + srcs[1..];
  }

  lemma {:induction false} AllStopValues(srcs: seq<Source>, rep: Report, e: Stop)
    ensures Ended(RunAll(srcs, rep)) <==> AllExhausted(srcs)
    ensures e != Incomplete ==> (RunAll(srcs, rep).stop == Some(e) <==> exists i :: FirstBroken(srcs, i, e))
    decreases |srcs|
  {
    if srcs != [] {
      var p := RunFrom(srcs[0], 0, 0, rep);
      RunStopExact(srcs[0], rep, e);
      RunGrows(srcs[0], 0, 0, rep);
      if p.stop.None? {
        BrokenFurther(srcs, e);
        AllStopValues(srcs[1..], p.report, e);
      } else {
        assert srcs[0] in srcs && !Exhausted(srcs[0]);
        if BrokenBy(srcs[0], e) {
          assert FirstBroken(srcs, 0, e);
        }
        if i: nat :| FirstBroken(srcs, i, e) {
          assert i == 0;
        }
      }
    }
  }

  /**
   * The whole upgrade ends without error exactly when every source is exhausted and no row of any is
   * unopenable, as incomplete when only the latter fails, and else with what first failed.
   */
  lemma AllStopExact(srcs: seq<Source>, e: Stop)
    ensures var stop := RunAll(srcs, Report(0, 0, [])).stop;
      var lost := EndingAs(AllListed(srcs), Unopenable);
      && (stop.None? <==> AllExhausted(srcs) && lost == [])
      && (stop == Some(Incomplete) <==> AllExhausted(srcs) && lost != [])
      && (e != Incomplete ==> (stop == Some(e) <==> exists i :: FirstBroken(srcs, i, e)))
  {
    AllStopValues(srcs, Report(0, 0, []), e);
    AllCount(srcs, Report(0, 0, []));
  }
}
