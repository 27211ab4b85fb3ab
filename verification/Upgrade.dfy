/** Re-sealing every secret of the previous format: one run over a paged listing, against any store. */
module Upgrade {
  import opened Prelude

  /** A row by its position in the store, which numbers rows from one. */
  type RowId = n: int | 0 < n witness 1

  datatype Stop = ListingFailed | CursorStuck | OpenerFailed | SealFailed | StoreFailed | Incomplete

  // ---- One run ------------------------------------------------------------------------------

  datatype Report = Report(upgraded: nat, concurrent: nat, unopenable: seq<RowId>) {
    function Rows(): nat {
      upgraded + concurrent + |unopenable|
    }

    predicate GrewFrom(r: Report) {
      r.upgraded <= upgraded && r.concurrent <= concurrent && r.unopenable <= unopenable
    }
  }

  datatype Opened = Plaintext | Unopened(fault: bool)

  /** A listed row with what its steps come to: its reference, the legacy open, the seal, the swap. */
  datatype LegacyRow = LegacyRow(id: RowId, named: bool, read: Opened, sealed: bool, swapped: Option<bool>)

  function UpgradeRow(rep: Report, r: LegacyRow): Result<Report, Stop> {
    if !r.named then Ok(rep.(unopenable := rep.unopenable + [r.id]))
    else if r.read.Unopened? then
      if r.read.fault then Err(OpenerFailed) else Ok(rep.(unopenable := rep.unopenable + [r.id]))
    else if !r.sealed then Err(SealFailed)
    else if r.swapped.None? then Err(StoreFailed)
    else if r.swapped.value then Ok(rep.(upgraded := rep.upgraded + 1))
    else Ok(rep.(concurrent := rep.concurrent + 1))
  }

  /** The report so far, and why it stopped if it did. */
  datatype Progress = Progress(report: Report, stop: Option<Stop>)

  function UpgradeRows(rep: Report, rows: seq<LegacyRow>): Progress
    decreases |rows|
  {
    if rows == [] then Progress(rep, None)
    else
      match UpgradeRow(rep, rows[0])
      case Err(e) => Progress(rep, Some(e))
      case Ok(next) => UpgradeRows(next, rows[1..])
  }

  datatype Listing = Unlisted | Page(rows: seq<LegacyRow>, next: U64)

  /** Any store: what it lists may depend on the cursor and on how often it was asked. */
  type Source = (nat, U64) -> Listing

  function RunFrom(src: Source, call: nat, cur: U64, rep: Report): Progress
    decreases TWO_64 - cur
  {
    match src(call, cur)
    case Unlisted => Progress(rep, Some(ListingFailed))
    case Page(rows, next) =>
      if rows == [] then Progress(rep, None)
      else if next <= cur then Progress(rep, Some(CursorStuck))
      else
        var p := UpgradeRows(rep, rows);
        if p.stop.Some? then p else RunFrom(src, call + 1, next, p.report)
  }

  /** Every source in turn; a row that nothing opens makes the upgrade incomplete. */
  function RunAll(srcs: seq<Source>, rep: Report): Progress
    decreases |srcs|
  {
    if srcs == [] then Progress(rep, if rep.unopenable == [] then None else Some(Incomplete))
    else
      var p := RunFrom(srcs[0], 0, 0, rep);
      if p.stop.Some? then p else RunAll(srcs[1..], p.report)
  }

  class Run {
    var report: Report

    constructor ()
      ensures report == Report(0, 0, [])
    {
      report := Report(0, 0, []);
    }

    method Row(r: LegacyRow) returns (stop: Option<Stop>)
      modifies this
      ensures UpgradeRow(old(report), r) == if stop.None? then Ok(report) else Err(stop.value)
      ensures stop.Some? ==> report == old(report)
    {
      if !r.named {
        report := report.(unopenable := report.unopenable + [r.id]);
        return None;
      }
      if r.read.Unopened? {
        if r.read.fault {
          return Some(OpenerFailed);
        }
        report := report.(unopenable := report.unopenable + [r.id]);
        return None;
      }
      if !r.sealed {
        return Some(SealFailed);
      }
      if r.swapped.None? {
        return Some(StoreFailed);
      }
      if r.swapped.value {
        report := report.(upgraded := report.upgraded + 1);
      } else {
        report := report.(concurrent := report.concurrent + 1);
      }
      return None;
    }

    /** Terminates against every store: each further page moves the 64-bit cursor up. */
    method Source(src: Source) returns (stop: Option<Stop>)
      modifies this
      ensures Progress(report, stop) == RunFrom(src, 0, 0, old(report))
    {
      ghost var all := RunFrom(src, 0, 0, report);
      var cur: U64, call := 0, 0;
      while true
        invariant RunFrom(src, call, cur, report) == all
        decreases TWO_64 - cur
      {
        var page := src(call, cur);
        if page.Unlisted? {
          return Some(ListingFailed);
        }
        if page.rows == [] {
          return None;
        }
        if page.next <= cur {
          return Some(CursorStuck);
        }
        ghost var before := report;
        for i := 0 to |page.rows|
          invariant UpgradeRows(report, page.rows[i..]) == UpgradeRows(before, page.rows)
        {
          assert page.rows[i..][1..] == page.rows[i + 1..];
          stop := Row(page.rows[i]);
          if stop.Some? {
            return;
          }
        }
        cur, call := page.next, call + 1;
      }
    }

    method Sources(srcs: seq<Source>) returns (stop: Option<Stop>)
      modifies this
      ensures Progress(report, stop) == RunAll(srcs, old(report))
    {
      for i := 0 to |srcs|
        invariant RunAll(srcs[i..], report) == RunAll(srcs, old(report))
      {
        assert srcs[i..][1..] == srcs[i + 1..];
        stop := Source(srcs[i]);
        if stop.Some? {
          return;
        }
      }
      if report.unopenable != [] {
        return Some(Incomplete);
      }
      return None;
    }
  }

  // ---- What a run accounts for --------------------------------------------------------------

  /** How a row ends: re-sealed by this run, changed by someone else first, or opened by nothing. */
  datatype Ending = Resealed | Overtaken | Unopenable | Stopped

  function Ends(r: LegacyRow): Ending {
    match (r.named, r.read)
    case (false, _) => Unopenable
    case (true, Unopened(fault)) => if fault then Stopped else Unopenable
    case (true, Plaintext) => if !r.sealed || r.swapped.None? then Stopped else if r.swapped.value then Resealed else Overtaken
  }

  /** The rows that end in one way, in order. */
  function EndingAs(rows: seq<LegacyRow>, e: Ending): seq<RowId> {
    if rows == [] then [] else (if Ends(rows[0]) == e then [rows[0].id] else []) + EndingAs(rows[1..], e)
  }

  lemma {:induction false} EndingConcat(a: seq<LegacyRow>, b: seq<LegacyRow>, e: Ending)
    ensures EndingAs(a + b, e) == EndingAs(a, e) + EndingAs(b, e)
  {
    if a == [] {
      assert a + b == b;
    } else {
      EndingConcat(a[1..], b, e);
      assert (a + b)[1..] == a[1..] + b && (a + b)[0] == a[0];
      ConcatAssociates(if Ends(a[0]) == e then [a[0].id] else [], EndingAs(a[1..], e), EndingAs(b, e));
    }
  }

  /** The report after rows, by how they ended. */
  function Counting(rep: Report, rows: seq<LegacyRow>): Report {
    Report(rep.upgraded + |EndingAs(rows, Resealed)|, rep.concurrent + |EndingAs(rows, Overtaken)|,
           rep.unopenable + EndingAs(rows, Unopenable))
  }

  lemma CountingConcat(rep: Report, a: seq<LegacyRow>, b: seq<LegacyRow>)
    ensures Counting(Counting(rep, a), b) == Counting(rep, a + b)
  {
    EndingConcat(a, b, Resealed);
    EndingConcat(a, b, Overtaken);
    EndingConcat(a, b, Unopenable);
    ConcatAssociates(rep.unopenable, EndingAs(a, Unopenable), EndingAs(b, Unopenable));
  }

  lemma RowCounts(rep: Report, r: LegacyRow)
    ensures UpgradeRow(rep, r).Ok? <==> Ends(r) != Stopped
    ensures UpgradeRow(rep, r).Ok? ==> UpgradeRow(rep, r).value == Counting(rep, [r])
    ensures UpgradeRow(rep, r).Err? ==> UpgradeRow(rep, r).error != Incomplete
  {
    assert [r][1..] == [];
    assert forall e :: EndingAs([r], e) == if Ends(r) == e then [r.id] else [];
  }

  /** Rows run through exactly when none of them stops the run, and are then counted by how they ended. */
  lemma {:induction false} RowsCount(rep: Report, rows: seq<LegacyRow>)
    ensures var p := UpgradeRows(rep, rows);
      && p.report.GrewFrom(rep) && p.stop != Some(Incomplete)
      && (p.stop.None? <==> NoneStops(rows))
      && (p.stop.None? ==> p.report == Counting(rep, rows))
    decreases |rows|
  {
    if rows == [] {
      assert Counting(rep, rows) == rep;
    } else {
      RowCounts(rep, rows[0]);
      assert rows == [rows[0]] + rows[1..];
      if UpgradeRow(rep, rows[0]).Ok? {
        var next := UpgradeRow(rep, rows[0]).value;
        RowsCount(next, rows[1..]);
        CountingConcat(rep, [rows[0]], rows[1..]);
      }
    }
  }

  /** Whatever stops a run, nothing it counted is lost. */
  lemma {:induction false} RunGrows(src: Source, call: nat, cur: U64, rep: Report)
    ensures RunFrom(src, call, cur, rep).report.GrewFrom(rep)
    ensures RunFrom(src, call, cur, rep).stop != Some(Incomplete)
    decreases TWO_64 - cur
  {
    match src(call, cur)
    case Unlisted =>
    case Page(rows, next) =>
      RowsCount(rep, rows);
      if cur < next {
        RunGrows(src, call + 1, next, UpgradeRows(rep, rows).report);
      }
  }

  /** The rows a store lists, page after page, until it lists none or stops advancing. */
  function Listed(src: Source, call: nat, cur: U64): seq<LegacyRow>
    decreases TWO_64 - cur
  {
    match src(call, cur)
    case Unlisted => []
    case Page(rows, next) => if rows == [] || next <= cur then [] else rows + Listed(src, call + 1, next)
  }

  predicate NoneStops(rows: seq<LegacyRow>) {
    forall r | r in rows :: Ends(r) != Stopped
  }

  /** A row that does not stop the run is in exactly one count. */
  lemma {:induction false} CountsAddUp(rep: Report, rows: seq<LegacyRow>)
    requires NoneStops(rows)
    ensures Counting(rep, rows).Rows() == rep.Rows() + |rows|
  {
    if rows != [] {
      CountsAddUp(rep, rows[1..]);
    }
  }

  /** A run that ends without error was listed no row that stops it, and counted every row by how it ended. */
  lemma {:induction false} RunCounts(src: Source, call: nat, cur: U64, rep: Report)
    requires RunFrom(src, call, cur, rep).stop.None?
    ensures NoneStops(Listed(src, call, cur))
    ensures RunFrom(src, call, cur, rep).report == Counting(rep, Listed(src, call, cur))
    decreases TWO_64 - cur
  {
    var page := src(call, cur);
    RowsCount(rep, page.rows);
    if page.rows == [] {
      assert Counting(rep, []) == rep;
    } else {
      RunCounts(src, call + 1, page.next, UpgradeRows(rep, page.rows).report);
      CountingConcat(rep, page.rows, Listed(src, call + 1, page.next));
    }
  }

  /** Re-sealed, overtaken and unopenable rows of a run without error add up to the rows it was listed. */
  lemma RunAccounts(src: Source, rep: Report)
    requires RunFrom(src, 0, 0, rep).stop.None?
    ensures var report, rows := RunFrom(src, 0, 0, rep).report, Listed(src, 0, 0);
      NoneStops(rows) && report == Counting(rep, rows) && report.Rows() == rep.Rows() + |rows|
  {
    RunCounts(src, 0, 0, rep);
    CountsAddUp(rep, Listed(src, 0, 0));
  }

  function AllListed(srcs: seq<Source>): seq<LegacyRow> {
    if srcs == [] then [] else Listed(srcs[0], 0, 0) + AllListed(srcs[1..])
  }

  /** Nothing stopped the upgrade early: it is complete, or incomplete for unopenable rows alone. */
  predicate Ended(p: Progress) {
    p.stop.None? || p.stop == Some(Incomplete)
  }

  lemma {:induction false} AllCount(srcs: seq<Source>, rep: Report)
    ensures var p := RunAll(srcs, rep);
      && p.report.GrewFrom(rep) && (p.stop.None? ==> p.report.unopenable == [])
      && (p.stop == Some(Incomplete) ==> p.report.unopenable != [])
      && (Ended(p) ==> NoneStops(AllListed(srcs)) && p.report == Counting(rep, AllListed(srcs)))
    decreases |srcs|
  {
    if srcs == [] {
      assert Counting(rep, []) == rep;
    } else {
      var p := RunFrom(srcs[0], 0, 0, rep);
      RunGrows(srcs[0], 0, 0, rep);
      if p.stop.None? {
        RunCounts(srcs[0], 0, 0, rep);
        AllCount(srcs[1..], p.report);
        CountingConcat(rep, Listed(srcs[0], 0, 0), AllListed(srcs[1..]));
      }
    }
  }

  /**
   * Over all sources nothing counted is lost. An upgrade that is not stopped early has counted every
   * row of every source once, and it is complete exactly when no row is unopenable.
   */
  lemma AllAccounts(srcs: seq<Source>, rep: Report)
    ensures var p := RunAll(srcs, rep);
      && p.report.GrewFrom(rep)
      && (Ended(p) ==>
            && p.report == Counting(rep, AllListed(srcs)) && p.report.Rows() == rep.Rows() + |AllListed(srcs)|
            && (p.stop.None? <==> p.report.unopenable == []))
  {
    AllCount(srcs, rep);
    if Ended(RunAll(srcs, rep)) {
      CountsAddUp(rep, AllListed(srcs));
    }
  }
}
