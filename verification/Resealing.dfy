/**
 * Several upgrade runs at once over one table. Each lists the rows of the previous format page by
 * page in ascending position and writes back by compare-and-swap, while the application goes on
 * rewriting and deleting rows.
 */
module Resealing {
  import opened Prelude
  import opened Upgrade

  const PAGE_SIZE := 100

  /** A stored ciphertext: of the previous format, which some candidate opens or none, or of the current one. */
  datatype Sealed = Legacy(pt: Bytes, tag: nat, opens: bool) | Current(pt: Bytes, nonce: nat)

  type Table = map<RowId, Sealed>

  /** A listed row as it was read, and its re-sealed form once it is prepared. */
  datatype Task = Task(id: RowId, read: Sealed, ready: Option<Sealed>)

  datatype Phase = Running | Finished | Halted

  /** A run: the rows of its page still to do, its report, every row it was listed, and its cursor. */
  datatype Worker = Worker(tasks: seq<Task>, report: Report, listed: seq<RowId>, cursor: nat, phase: Phase)

  /**
   * The table, the runs, the rows re-sealed in order, the swaps that took effect although the store
   * reported an error, and the rows the application itself rewrote.
   */
  datatype World = World(
    table: Table, workers: seq<Worker>, resealed: seq<RowId>, uncounted: nat, rewritten: set<RowId>)

  datatype Event =
    | Start
    | List(i: nat, page: seq<RowId>)
    | Prepare(i: nat, k: nat, nonce: nat)
    | Swap(i: nat, k: nat)
    | SwapFails(i: nat, k: nat, committed: bool)
    | Halt(i: nat)
    | Rewrite(id: RowId, pt: Bytes, nonce: nat)
    | Delete(id: RowId)

  predicate Remains(table: Table, id: RowId) {
    id in table && table[id].Legacy?
  }

  /** A page of the listing: the next rows of the previous format above the cursor, ascending, none skipped. */
  predicate PageOf(table: Table, cursor: nat, page: seq<RowId>) {
    && |page| <= PAGE_SIZE
    && (forall i, j | 0 <= i < j < |page| :: page[i] < page[j])
    && (forall id | id in page :: Remains(table, id) && cursor < id)
    && (forall id | id in table :: Remains(table, id) && cursor < id && (page == [] || id <= page[|page| - 1]) ==> id in page)
  }

  function TasksOf(table: Table, page: seq<RowId>): seq<Task>
    requires forall id | id in page :: id in table
  {
    if page == [] then [] else [Task(page[0], table[page[0]], None)] + TasksOf(table, page[1..])
  }

  /** An empty page ends the run; any other page becomes its work and moves its cursor. */
  function Listing(table: Table, x: Worker, page: seq<RowId>): Worker
    requires forall id | id in page :: id in table
  {
    if page == [] then x.(phase := Finished)
    else Worker(TasksOf(table, page), x.report, x.listed + page, page[|page| - 1], x.phase)
  }

  function Prepared(x: Worker, k: nat, nonce: nat): Worker
    requires k < |x.tasks|
  {
    var t := x.tasks[k];
    if t.read.Legacy? && t.read.opens then
      x.(tasks := x.tasks[k := t.(ready := Some(Current(t.read.pt, nonce)))])
    else x.(tasks := Without(x.tasks, k), report := x.report.(unopenable := x.report.unopenable + [t.id]))
  }

  predicate Unchanged(table: Table, t: Task) {
    t.id in table && table[t.id] == t.read
  }

  function Done(x: Worker, k: nat, swapped: bool): Worker
    requires k < |x.tasks|
  {
    x.(tasks := Without(x.tasks, k),
       report := if swapped then x.report.(upgraded := x.report.upgraded + 1)
                 else x.report.(concurrent := x.report.concurrent + 1))
  }

  function SetWorker(w: World, i: nat, x: Worker): World
    requires i < |w.workers|
  {
    w.(workers := w.workers[i := x])
  }

  /** The write of a task that found its row unchanged. */
  function Written(w: World, t: Task): World
    requires t.ready.Some?
  {
    w.(table := w.table[t.id := t.ready.value], resealed := w.resealed + [t.id])
  }

  /** The compare-and-swap: writes only over the very ciphertext the run read. */
  function Swapped(w: World, i: nat, k: nat): World
    requires Ready(w, i, k)
  {
    var x := w.workers[i];
    var t := x.tasks[k];
    var n := SetWorker(w, i, Done(x, k, Unchanged(w.table, t)));
    if Unchanged(w.table, t) then Written(n, t) else n
  }

  /** A swap reported as an error stops the run, whether or not it took effect. */
  function SwapFailed(w: World, i: nat, k: nat, committed: bool): World
    requires Ready(w, i, k)
  {
    var t := w.workers[i].tasks[k];
    var n := SetWorker(w, i, w.workers[i].(phase := Halted));
    if committed && Unchanged(w.table, t) then Written(n, t).(uncounted := w.uncounted + 1) else n
  }

  predicate Active(w: World, i: nat) {
    i < |w.workers| && w.workers[i].phase.Running?
  }

  predicate Has(w: World, i: nat, k: nat) {
    Active(w, i) && k < |w.workers[i].tasks|
  }

  predicate Ready(w: World, i: nat, k: nat) {
    Has(w, i, k) && w.workers[i].tasks[k].ready.Some?
  }

  predicate Enabled(w: World, e: Event) {
    match e
    case Start => true
    case List(i, page) => Active(w, i) && w.workers[i].tasks == [] && PageOf(w.table, w.workers[i].cursor, page)
    case Prepare(i, k, _) => Has(w, i, k) && w.workers[i].tasks[k].ready.None?
    case Swap(i, k) => Ready(w, i, k)
    case SwapFails(i, k, _) => Ready(w, i, k)
    case Halt(i) => Active(w, i)
    case Rewrite(_, _, _) => true
    case Delete(_) => true
  }

  function Next(w: World, e: Event): World {
    if !Enabled(w, e) then w
    else
      match e
      case Start => w.(workers := w.workers + [Worker([], Report(0, 0, []), [], 0, Running)])
      case List(i, page) => SetWorker(w, i, Listing(w.table, w.workers[i], page))
      case Prepare(i, k, nonce) => SetWorker(w, i, Prepared(w.workers[i], k, nonce))
      case Swap(i, k) => Swapped(w, i, k)
      case SwapFails(i, k, committed) => SwapFailed(w, i, k, committed)
      case Halt(i) => SetWorker(w, i, w.workers[i].(phase := Halted))
      case Rewrite(id, pt, nonce) => w.(table := w.table[id := Current(pt, nonce)], rewritten := w.rewritten + {id})
      case Delete(id) => w.(table := w.table - {id})
  }

  function Run(table: Table, es: seq<Event>): World {
    if es == [] then World(table, [], [], 0, {}) else Next(Run(table, es[..|es| - 1]), es[|es| - 1])
  }

  // ---- What a run has in hand ---------------------------------------------------------------

  /** A ciphertext of the previous format was there from the start: none is ever written. */
  predicate Original(start: Table, id: RowId, c: Sealed) {
    c.Legacy? ==> id in start && c == start[id]
  }

  predicate GoodTask(start: Table, t: Task) {
    && t.read.Legacy? && Original(start, t.id, t.read)
    && (t.ready.Some? ==> t.ready.value.Current? && t.ready.value.pt == t.read.pt)
  }

  predicate GoodTasks(start: Table, ts: seq<Task>) {
    forall i | 0 <= i < |ts| :: GoodTask(start, ts[i])
  }

  /** What a run reports unopenable is. */
  predicate Truthful(start: Table, ids: seq<RowId>) {
    forall id | id in ids :: Remains(start, id) && !start[id].opens
  }

  predicate InHand(x: Worker, id: RowId) {
    id in x.report.unopenable || exists k | 0 <= k < |x.tasks| :: x.tasks[k].id == id
  }

  /** Every remaining row up to the cursor is in hand; a finished run has nothing above it and nothing to do. */
  predicate Covers(table: Table, x: Worker) {
    && (forall id | id in table :: Remains(table, id) && id <= x.cursor ==> InHand(x, id))
    && (x.phase.Finished? ==> x.tasks == [] && forall id | id in table :: Remains(table, id) ==> id <= x.cursor)
  }

  predicate GoodWorker(start: Table, table: Table, x: Worker) {
    && x.report.Rows() + |x.tasks| == |x.listed|
    && GoodTasks(start, x.tasks) && Truthful(start, x.report.unopenable) && Covers(table, x)
  }

  predicate GoodWorkers(start: Table, table: Table, xs: seq<Worker>) {
    forall i | 0 <= i < |xs| :: GoodWorker(start, table, xs[i])
  }

  lemma {:induction false} TasksOfPage(start: Table, table: Table, page: seq<RowId>)
    requires forall id | id in page :: id in table && Remains(table, id) && Original(start, id, table[id])
    ensures |TasksOf(table, page)| == |page| && GoodTasks(start, TasksOf(table, page))
    ensures forall i | 0 <= i < |page| :: TasksOf(table, page)[i].id == page[i]
  {
    if page != [] {
      TasksOfPage(start, table, page[1..]);
    }
  }

  predicate Originals(start: Table, table: Table) {
    forall id | id in table :: Original(start, id, table[id])
  }

  lemma ListingCovers(table: Table, x: Worker, page: seq<RowId>, y: Worker)
    requires Covers(table, x) && x.tasks == [] && PageOf(table, x.cursor, page) && page != [] && y.phase.Running?
    requires y.report == x.report && y.cursor == page[|page| - 1] && |y.tasks| == |page|
    requires forall i | 0 <= i < |page| :: y.tasks[i].id == page[i]
    ensures Covers(table, y)
  {
    forall id | id in table && Remains(table, id) && id <= y.cursor ensures InHand(y, id) {
      if id <= x.cursor {
        assert InHand(x, id);
      } else {
        assert id in page;
        var k :| 0 <= k < |page| && page[k] == id;
        assert y.tasks[k].id == id;
      }
    }
  }

  lemma ListingGood(start: Table, table: Table, x: Worker, page: seq<RowId>)
    requires Originals(start, table) && GoodWorker(start, table, x)
    requires x.tasks == [] && x.phase.Running? && PageOf(table, x.cursor, page)
    ensures GoodWorker(start, table, Listing(table, x, page))
  {
    var y := Listing(table, x, page);
    if page != [] {
      TasksOfPage(start, table, page);
      ListingCovers(table, x, page, y);
    } else {
      forall id | id in table && Remains(table, id) && id <= y.cursor ensures InHand(y, id) {
        assert InHand(x, id);
      }
    }
  }

  /** Handing in a task leaves every other row in hand. */
  lemma WithoutKeepsOthers(x: Worker, k: nat, id: RowId)
    requires k < |x.tasks| && InHand(x, id) && id != x.tasks[k].id
    ensures InHand(x.(tasks := Without(x.tasks, k)), id)
  {
    if id !in x.report.unopenable {
      var j :| 0 <= j < |x.tasks| && x.tasks[j].id == id;
      var l := if j < k then j else j - 1;
      assert Without(x.tasks, k)[l] == x.tasks[j];
    }
  }

  lemma WithoutGood(start: Table, ts: seq<Task>, k: nat)
    requires GoodTasks(start, ts) && k < |ts|
    ensures GoodTasks(start, Without(ts, k))
  {
    forall i | 0 <= i < |ts| - 1 ensures GoodTask(start, Without(ts, k)[i]) {
      assert Without(ts, k)[i] == ts[if i < k then i else i + 1];
    }
  }

  lemma PreparedCovers(table: Table, x: Worker, k: nat, nonce: nat)
    requires Covers(table, x) && x.phase.Running? && k < |x.tasks|
    ensures Covers(table, Prepared(x, k, nonce))
  {
    var y := Prepared(x, k, nonce);
    forall id | id in table && Remains(table, id) && id <= y.cursor ensures InHand(y, id) {
      assert InHand(x, id);
      if y.report != x.report && id != x.tasks[k].id {
        WithoutKeepsOthers(x, k, id);
      } else if y.report == x.report && id !in x.report.unopenable {
        var j :| 0 <= j < |x.tasks| && x.tasks[j].id == id;
        assert y.tasks[j].id == id;
      }
    }
  }

  lemma PreparedGood(start: Table, table: Table, x: Worker, k: nat, nonce: nat)
    requires GoodWorker(start, table, x) && x.phase.Running? && k < |x.tasks|
    ensures GoodWorker(start, table, Prepared(x, k, nonce))
    ensures Prepared(x, k, nonce).report.upgraded == x.report.upgraded
  {
    assert GoodTask(start, x.tasks[k]);
    WithoutGood(start, x.tasks, k);
    PreparedCovers(table, x, k, nonce);
  }

  /** The rows that remain are among those that did, unchanged. */
  predicate Fewer(table: Table, after: Table) {
    forall id | id in after :: Remains(after, id) ==> Remains(table, id)
  }

  lemma FewerCovers(start: Table, table: Table, after: Table, x: Worker)
    requires GoodWorker(start, table, x) && Fewer(table, after)
    ensures GoodWorker(start, after, x)
  {
    forall id | id in after && Remains(after, id) && id <= x.cursor ensures InHand(x, id) {
      assert Remains(table, id);
    }
  }

  lemma FewerCoversAll(start: Table, table: Table, after: Table, xs: seq<Worker>)
    requires GoodWorkers(start, table, xs) && Fewer(table, after)
    ensures GoodWorkers(start, after, xs)
  {
    forall i | 0 <= i < |xs| ensures GoodWorker(start, after, xs[i]) {
      FewerCovers(start, table, after, xs[i]);
    }
  }

  /** A task may be handed in once its own row no longer remains. */
  lemma DoneGood(start: Table, table: Table, x: Worker, k: nat, swapped: bool)
    requires GoodWorker(start, table, x) && x.phase.Running? && k < |x.tasks| && !Remains(table, x.tasks[k].id)
    ensures GoodWorker(start, table, Done(x, k, swapped))
  {
    var y := Done(x, k, swapped);
    WithoutGood(start, x.tasks, k);
    forall id | id in table && Remains(table, id) && id <= y.cursor ensures InHand(y, id) {
      assert InHand(x, id);
      WithoutKeepsOthers(x, k, id);
    }
  }

  // ---- Counting -----------------------------------------------------------------------------

  function TotalUpgraded(xs: seq<Worker>): nat {
    if xs == [] then 0 else TotalUpgraded(xs[..|xs| - 1]) + xs[|xs| - 1].report.upgraded
  }

  lemma {:induction false} TotalUpdate(xs: seq<Worker>, i: nat, x: Worker)
    requires i < |xs|
    ensures TotalUpgraded(xs[i := x]) == TotalUpgraded(xs) - xs[i].report.upgraded + x.report.upgraded
  {
    var init := xs[..|xs| - 1];
    if i == |xs| - 1 {
      assert xs[i := x][..|xs| - 1] == init;
    } else {
      TotalUpdate(init, i, x);
      assert xs[i := x][..|xs| - 1] == init[i := x];
    }
  }

  /** A row that was re-sealed is not of the previous format any more, so it is re-sealed once. */
  predicate Once(table: Table, resealed: seq<RowId>) {
    && (forall id | id in resealed :: !Remains(table, id))
    && (forall a, b | 0 <= a < b < |resealed| :: resealed[a] != resealed[b])
  }

  predicate SamePlaintext(start: Table, table: Table, rewritten: set<RowId>) {
    forall id | id in table && id !in rewritten :: id in start && table[id].pt == start[id].pt
  }

  predicate Valid(start: Table, w: World) {
    && Originals(start, w.table) && SamePlaintext(start, w.table, w.rewritten) && Once(w.table, w.resealed)
    && GoodWorkers(start, w.table, w.workers) && TotalUpgraded(w.workers) + w.uncounted == |w.resealed|
  }

  /** A step of one run that leaves the table and the count of re-sealed rows alone. */
  lemma WorkerKeeps(start: Table, w: World, i: nat, x: Worker)
    requires Valid(start, w) && i < |w.workers| && GoodWorker(start, w.table, x)
    requires x.report.upgraded == w.workers[i].report.upgraded
    ensures Valid(start, SetWorker(w, i, x))
  {
    TotalUpdate(w.workers, i, x);
  }

  /** Writing a task's row keeps everything about the table, and the row no longer remains. */
  lemma WrittenTable(start: Table, table: Table, resealed: seq<RowId>, rewritten: set<RowId>, t: Task)
    requires Originals(start, table) && SamePlaintext(start, table, rewritten) && Once(table, resealed)
    requires GoodTask(start, t) && t.ready.Some? && Unchanged(table, t)
    ensures var n := table[t.id := t.ready.value];
      && Originals(start, n) && SamePlaintext(start, n, rewritten) && Once(n, resealed + [t.id])
      && Fewer(table, n) && !Remains(n, t.id)
  {
    assert Remains(table, t.id);
  }

  lemma NotRemaining(start: Table, table: Table, t: Task)
    requires Originals(start, table) && GoodTask(start, t) && !Unchanged(table, t)
    ensures !Remains(table, t.id)
  {
    assert t.id in table ==> Original(start, t.id, table[t.id]);
  }

  lemma SwappedKeeps(start: Table, w: World, i: nat, k: nat)
    requires Valid(start, w) && Ready(w, i, k)
    ensures Valid(start, Swapped(w, i, k))
  {
    var x, n := w.workers[i], Swapped(w, i, k);
    var t := x.tasks[k];
    assert GoodWorker(start, w.table, x) && GoodTask(start, t);
    TotalUpdate(w.workers, i, Done(x, k, Unchanged(w.table, t)));
    if Unchanged(w.table, t) {
      WrittenTable(start, w.table, w.resealed, w.rewritten, t);
      FewerCoversAll(start, w.table, n.table, w.workers);
    } else {
      NotRemaining(start, w.table, t);
    }
    DoneGood(start, n.table, x, k, Unchanged(w.table, t));
  }

  lemma HaltedGood(start: Table, table: Table, x: Worker)
    requires GoodWorker(start, table, x)
    ensures GoodWorker(start, table, x.(phase := Halted))
  {
    forall id | id in table && Remains(table, id) && id <= x.cursor ensures InHand(x.(phase := Halted), id) {
      assert InHand(x, id);
    }
  }

  lemma SwapFailedKeeps(start: Table, w: World, i: nat, k: nat, committed: bool)
    requires Valid(start, w) && Ready(w, i, k)
    ensures Valid(start, SwapFailed(w, i, k, committed))
  {
    var x := w.workers[i];
    var t := x.tasks[k];
    assert GoodWorker(start, w.table, x) && GoodTask(start, t);
    HaltedGood(start, w.table, x);
    WorkerKeeps(start, w, i, x.(phase := Halted));
    if committed && Unchanged(w.table, t) {
      WrittenTable(start, w.table, w.resealed, w.rewritten, t);
      FewerCoversAll(start, w.table, w.table[t.id := t.ready.value], SetWorker(w, i, x.(phase := Halted)).workers);
    }
  }

  lemma StartKeeps(start: Table, w: World)
    requires Valid(start, w)
    ensures Valid(start, Next(w, Start))
  {
    var xs := Next(w, Start).workers;
    assert xs[..|w.workers|] == w.workers;
  }

  lemma TableKeeps(start: Table, w: World, e: Event)
    requires Valid(start, w) && (e.Rewrite? || e.Delete?)
    ensures Valid(start, Next(w, e))
  {
    FewerCoversAll(start, w.table, Next(w, e).table, w.workers);
  }

  lemma NextKeeps(start: Table, w: World, e: Event)
    requires Valid(start, w)
    ensures Valid(start, Next(w, e))
  {
    if Enabled(w, e) {
      match e
      case Start => StartKeeps(start, w);
      case List(i, page) =>
        assert GoodWorker(start, w.table, w.workers[i]);
        ListingGood(start, w.table, w.workers[i], page);
        WorkerKeeps(start, w, i, Listing(w.table, w.workers[i], page));
      case Prepare(i, k, nonce) =>
        assert GoodWorker(start, w.table, w.workers[i]);
        PreparedGood(start, w.table, w.workers[i], k, nonce);
        WorkerKeeps(start, w, i, Prepared(w.workers[i], k, nonce));
      case Swap(i, k) => SwappedKeeps(start, w, i, k);
      case SwapFails(i, k, committed) => SwapFailedKeeps(start, w, i, k, committed);
      case Halt(i) =>
        assert GoodWorker(start, w.table, w.workers[i]);
        HaltedGood(start, w.table, w.workers[i]);
        WorkerKeeps(start, w, i, w.workers[i].(phase := Halted));
      case Rewrite(_, _, _) => TableKeeps(start, w, e);
      case Delete(_) => TableKeeps(start, w, e);
    }
  }

  lemma {:induction false} RunsAreValid(start: Table, es: seq<Event>)
    ensures Valid(start, Run(start, es))
  {
    if es != [] {
      RunsAreValid(start, es[..|es| - 1]);
      NextKeeps(start, Run(start, es[..|es| - 1]), es[|es| - 1]);
    }
  }

  // ---- Results ------------------------------------------------------------------------------

  /**
   * However the runs interleave, each row is re-sealed at most once. The Upgraded counts add up to the
   * rows re-sealed, up to swaps that took effect behind a reported error, and each run accounts for
   * every row it was listed.
   */
  lemma ResealedOnce(start: Table, es: seq<Event>)
    ensures var w := Run(start, es);
      && (forall a, b | 0 <= a < b < |w.resealed| :: w.resealed[a] != w.resealed[b])
      && TotalUpgraded(w.workers) + w.uncounted == |w.resealed|
      && forall i | 0 <= i < |w.workers| :: w.workers[i].report.Rows() + |w.workers[i].tasks| == |w.workers[i].listed|
  {
    RunsAreValid(start, es);
    var w := Run(start, es);
    forall i | 0 <= i < |w.workers| ensures w.workers[i].report.Rows() + |w.workers[i].tasks| == |w.workers[i].listed| {
      assert GoodWorker(start, w.table, w.workers[i]);
    }
  }

  predicate Quiet(es: seq<Event>) {
    forall e | e in es :: e.SwapFails? ==> !e.committed
  }

  lemma {:induction false} QuietRunsCountAll(start: Table, es: seq<Event>)
    requires Quiet(es)
    ensures Run(start, es).uncounted == 0
  {
    if es != [] {
      QuietRunsCountAll(start, es[..|es| - 1]);
      assert es[|es| - 1] in es;
    }
  }

  /** Without such an error the Upgraded counts are exactly the rows re-sealed. */
  lemma UpgradedAddsUp(start: Table, es: seq<Event>)
    requires Quiet(es)
    ensures TotalUpgraded(Run(start, es).workers) == |Run(start, es).resealed|
  {
    ResealedOnce(start, es);
    QuietRunsCountAll(start, es);
  }

  /** No run changes a secret: a row the application did not rewrite still holds its plaintext. */
  lemma PlaintextsAreKept(start: Table, es: seq<Event>, id: RowId)
    requires id in Run(start, es).table && id !in Run(start, es).rewritten
    ensures id in start && Run(start, es).table[id].pt == start[id].pt
  {
    RunsAreValid(start, es);
  }

  /**
   * A run that finishes leaves no row of the table in the previous format but those it reports, and it
   * reports only rows that no candidate opens.
   */
  lemma FinishedRunsLeaveNothing(start: Table, es: seq<Event>, i: nat, id: RowId)
    requires i < |Run(start, es).workers| && Run(start, es).workers[i].phase.Finished?
    ensures var w := Run(start, es); var rep := w.workers[i].report;
      && (Remains(w.table, id) ==> id in rep.unopenable)
      && (id in rep.unopenable ==> Remains(start, id) && !start[id].opens)
  {
    RunsAreValid(start, es);
    var w := Run(start, es);
    assert GoodWorker(start, w.table, w.workers[i]);
    if Remains(w.table, id) {
      assert InHand(w.workers[i], id);
    }
  }
}
