/** Why each job ended as it did: deliveries, reports, drops and sends of every run of the pool, by their events. */
module DeliveryOutcomes {
  import opened Prelude
  import opened Delivery

  // ---- What happened in a run ---------------------------------------------------------------

  /** Some step of the run, taken in the world it was taken in, is of this kind. */
  ghost predicate Happened(es: seq<Event>, p: (World, Event) -> bool) {
    exists i | 0 <= i < |es| :: p(Run(es[..i]), es[i])
  }

  lemma HappenedSnoc(es: seq<Event>, e: Event, p: (World, Event) -> bool)
    ensures Happened(es + [e], p) <==> Happened(es, p) || p(Run(es), e)
  {
    var all := es + [e];
    assert all[..|es|] == es && all[|es|] == e;
    forall i | 0 <= i < |es| ensures all[..i] == es[..i] && all[i] == es[i] {
    }
    if i :| 0 <= i < |es| && p(Run(es[..i]), es[i]) {
      assert p(Run(all[..i]), all[i]);
    }
    if p(Run(es), e) {
      assert p(Run(all[..|es|]), all[|es|]);
    }
    if i :| 0 <= i < |all| && p(Run(all[..i]), all[i]) {
      assert i < |es| ==> p(Run(es[..i]), es[i]);
    }
  }

  lemma RunSnoc(es: seq<Event>)
    requires es != []
    ensures es == es[..|es| - 1] + [es[|es| - 1]] && Run(es) == Next(Run(es[..|es| - 1]), es[|es| - 1])
  {
  }

  predicate At(s: seq<Job>, i: nat, j: Job) {
    i < |s| && s[i] == j
  }

  /** A send of j ends well. */
  predicate Delivers(w: World, e: Event, j: Job) {
    e.Settle? && e.ok && At(w.crew.sending, e.i, j)
  }

  /** A worker starts to send j, having seen no abort. */
  predicate Starts(w: World, e: Event, j: Job) {
    e.CheckAbort? && At(w.crew.taken, e.i, j) && !w.gate.aborted
  }

  /** A caller is turned away with j: the pool is closed, or the queue is full. */
  predicate TurnsAway(w: World, e: Event, j: Job) {
    || (e.CheckOpen? && At(w.callers.locked, e.i, j) && w.gate.closed)
    || (e.Offer? && At(w.callers.cleared, e.i, j) && |w.queue| == QUEUE_SIZE)
  }

  /** The failure of j is reported: by its caller, after an abort, after a failed send, or by Close. */
  predicate Reports(w: World, e: Event, j: Job) {
    || (e.ReportDrop? && At(w.callers.failing, e.i, j))
    || (e.CheckAbort? && At(w.crew.taken, e.i, j) && w.gate.aborted)
    || (e.Settle? && !e.ok && At(w.crew.sending, e.i, j))
    || (e.Drain? && w.gate.closing.Draining? && At(w.queue, 0, j))
  }

  // ---- One step -----------------------------------------------------------------------------

  lemma StepDelivers(w: World, e: Event, j: Job)
    ensures j in Next(w, e).delivered <==> j in w.delivered || Delivers(w, e, j)
  {
  }

  lemma StepReports(w: World, e: Event, j: Job)
    ensures j in Next(w, e).reported <==> j in w.reported || Reports(w, e, j)
  {
  }

  lemma WithoutKeeps(s: seq<Job>, i: nat, j: Job)
    requires i < |s| && j in Without(s, i)
    ensures j in s
  {
  }

  lemma StepStarts(w: World, e: Event, j: Job)
    requires j in Next(w, e).crew.sending
    ensures j in w.crew.sending || Starts(w, e, j)
  {
    if e.Settle? && e.i < |w.crew.sending| {
      WithoutKeeps(w.crew.sending, e.i, j);
    }
  }

  lemma StepTurnsAway(w: World, e: Event, j: Job)
    requires Guarded(w) && j in Next(w, e).callers.failing
    ensures j in w.callers.failing || TurnsAway(w, e, j)
  {
    if e.ReportDrop? && e.i < |w.callers.failing| {
      WithoutKeeps(w.callers.failing, e.i, j);
    }
  }

  // ---- Results ------------------------------------------------------------------------------

  /** A job is delivered exactly by a successful send of it. */
  lemma {:induction false} DeliveredExact(es: seq<Event>, j: Job)
    ensures j in Run(es).delivered <==> Happened(es, (w, e) => Delivers(w, e, j))
  {
    if es != [] {
      var init, last := es[..|es| - 1], es[|es| - 1];
      DeliveredExact(init, j);
      RunSnoc(es);
      HappenedSnoc(init, last, (w, e) => Delivers(w, e, j));
      StepDelivers(Run(init), last, j);
    }
  }

  /** A failure is reported exactly by one of the four steps that report it. */
  lemma {:induction false} ReportedExact(es: seq<Event>, j: Job)
    ensures j in Run(es).reported <==> Happened(es, (w, e) => Reports(w, e, j))
  {
    if es != [] {
      var init, last := es[..|es| - 1], es[|es| - 1];
      ReportedExact(init, j);
      RunSnoc(es);
      HappenedSnoc(init, last, (w, e) => Reports(w, e, j));
      StepReports(Run(init), last, j);
    }
  }

  /** What is being sent was started by a worker that had seen no abort. */
  lemma {:induction false} SendingWasStarted(es: seq<Event>, j: Job)
    requires j in Run(es).crew.sending
    ensures Happened(es, (w, e) => Starts(w, e, j))
  {
    if es != [] {
      var init, last := es[..|es| - 1], es[|es| - 1];
      RunSnoc(es);
      StepStarts(Run(init), last, j);
      if j in Run(init).crew.sending {
        SendingWasStarted(init, j);
      }
      HappenedSnoc(init, last, (w, e) => Starts(w, e, j));
    }
  }

  /** A caller gives up a job only because the pool was closed or the queue full. */
  lemma {:induction false} FailingWasTurnedAway(es: seq<Event>, j: Job)
    requires j in Run(es).callers.failing
    ensures Happened(es, (w, e) => TurnsAway(w, e, j))
  {
    if es != [] {
      var init, last := es[..|es| - 1], es[|es| - 1];
      RunSnoc(es);
      RunsAreGuarded(init);
      StepTurnsAway(Run(init), last, j);
      if j in Run(init).callers.failing {
        FailingWasTurnedAway(init, j);
      }
      HappenedSnoc(init, last, (w, e) => TurnsAway(w, e, j));
    }
  }

  lemma AbortStays(w: World, e: Event)
    requires w.gate.aborted
    ensures Next(w, e).gate.aborted
  {
  }

  lemma {:induction false} AbortIsFinal(es: seq<Event>, i: nat)
    requires i <= |es| && Run(es[..i]).gate.aborted
    ensures Run(es).gate.aborted
    decreases |es|
  {
    if i < |es| {
      RunSnoc(es);
      assert es[..|es| - 1][..i] == es[..i];
      AbortIsFinal(es[..|es| - 1], i);
      AbortStays(Run(es[..|es| - 1]), es[|es| - 1]);
    } else {
      assert es[..i] == es;
    }
  }

  /** Once an abort is set, no worker starts to send. */
  lemma NoSendAfterAbort(es: seq<Event>, i: nat, k: nat, j: Job)
    requires i <= k < |es| && Run(es[..i]).gate.aborted
    ensures !Starts(Run(es[..k]), es[k], j)
  {
    assert es[..k][..i] == es[..i];
    AbortIsFinal(es[..k], i);
  }

  /** Every delivery was started before any abort and ended in a successful send. */
  lemma DeliveryIsExplained(es: seq<Event>, j: Job)
    requires j in Run(es).delivered
    ensures exists k | 0 <= k < |es| :: Delivers(Run(es[..k]), es[k], j) && Happened(es[..k], (w, e) => Starts(w, e, j))
  {
    DeliveredExact(es, j);
    var k :| 0 <= k < |es| && Delivers(Run(es[..k]), es[k], j);
    SendingWasStarted(es[..k], j);
  }

  // ---- No job is stuck ----------------------------------------------------------------------

  /** Steps the jobs at hand still have to take, at most. */
  function Work(w: World): nat {
    5 * |w.callers.locked| + 4 * |w.callers.cleared| + |w.callers.failing|
    + 3 * |w.queue| + 2 * |w.crew.taken| + |w.crew.sending|
  }

  /** A step that is possible now and moves a job on. */
  function Onward(w: World): Event {
    if w.callers.locked != [] then CheckOpen(0)
    else if w.callers.cleared != [] then Offer(0)
    else if w.callers.failing != [] then ReportDrop(0)
    else if w.crew.taken != [] then CheckAbort(0)
    else if w.crew.sending != [] then Settle(0, true)
    else Receive
  }

  lemma OnwardWorks(w: World)
    requires Guarded(w) && Staffed(w) && Work(w) > 0
    ensures Work(Next(w, Onward(w))) < Work(w)
  {
  }

  /** From wherever a run has got, also during and after Close, every job at hand can be delivered or reported. */
  lemma {:induction false} NoJobIsStuck(es: seq<Event>)
    ensures exists fs :: Work(Run(es + fs)) == 0
    decreases Work(Run(es))
  {
    var w := Run(es);
    if Work(w) == 0 {
      assert es + [] == es;
      assert Work(Run(es + [])) == 0;
    } else {
      var e := Onward(w);
      RunsAreGuarded(es);
      OnwardWorks(w);
      assert (es + [e])[..|es|] == es;
      NoJobIsStuck(es + [e]);
      var fs :| Work(Run(es + [e] + fs)) == 0;
      assert es + [e] + fs == es + ([e] + fs);
    }
  }

  // ---- Close --------------------------------------------------------------------------------

  predicate Aborted(c: Closing) {
    c.Aborting? || c.Draining? || c.Returned?
  }

  lemma AbortStep(w: World, e: Event)
    requires w.gate.aborted <==> Aborted(w.gate.closing)
    ensures Next(w, e).gate.aborted <==> Aborted(Next(w, e).gate.closing)
  {
  }

  /** Workers are told to stop exactly when Close has given up waiting, or returned. */
  lemma {:induction false} AbortExact(es: seq<Event>)
    ensures Run(es).gate.aborted <==> Aborted(Run(es).gate.closing)
  {
    if es != [] {
      AbortExact(es[..|es| - 1]);
      AbortStep(Run(es[..|es| - 1]), es[|es| - 1]);
    }
  }

  /** The next point of Close. */
  function Following(c: Closing): Closing {
    match c
    case NotCalled => Locked
    case Locked => Marked
    case Marked => Emptying
    case Emptying => Grace
    case Grace => Aborting
    case Aborting => Draining
    case Draining => Returned
    case Returned => Returned
  }

  function StepsLeft(c: Closing): nat {
    if c.Returned? then 0
    else if c.Draining? then 1
    else if c.Aborting? then 2
    else if c.Grace? then 3
    else if c.Emptying? then 4
    else if c.Marked? then 5
    else if c.Locked? then 6
    else 7
  }

  lemma FollowingWorks(w: World)
    requires Work(w) == 0 && !w.gate.closing.Returned?
    ensures var n := Next(w, Close(Following(w.gate.closing)));
      Work(n) == 0 && StepsLeft(n.gate.closing) == StepsLeft(w.gate.closing) - 1
  {
  }

  ghost predicate MayReturn(es: seq<Event>) {
    exists fs :: Run(es + fs).gate.closing.Returned?
  }

  lemma ReturnsLater(es: seq<Event>, gs: seq<Event>)
    requires MayReturn(es + gs)
    ensures MayReturn(es)
  {
    var fs :| Run(es + gs + fs).gate.closing.Returned?;
    assert es + gs + fs == es + (gs + fs);
  }

  lemma {:induction false} IdleCloseReturns(es: seq<Event>)
    requires Work(Run(es)) == 0
    ensures MayReturn(es)
    decreases StepsLeft(Run(es).gate.closing)
  {
    var w := Run(es);
    if w.gate.closing.Returned? {
      assert es + [] == es;
    } else {
      var e := Close(Following(w.gate.closing));
      FollowingWorks(w);
      assert (es + [e])[..|es|] == es;
      IdleCloseReturns(es + [e]);
      ReturnsLater(es, [e]);
    }
  }

  /** From wherever a run has got, Close can return. */
  lemma CloseCanReturn(es: seq<Event>)
    ensures MayReturn(es)
  {
    NoJobIsStuck(es);
    var gs :| Work(Run(es + gs)) == 0;
    IdleCloseReturns(es + gs);
    ReturnsLater(es, gs);
  }
}
