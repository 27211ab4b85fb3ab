/**
 * The delivery pool: callers queue messages under a read lock, four workers send them, and Close
 * lets the queue drain, then aborts. Callers, workers and the closer interleave at every lock,
 * channel and context operation.
 */
module Delivery {
  import opened Prelude

  const WORKERS: nat := 4
  const QUEUE_SIZE: nat := 256

  /** Jobs are numbered as they arrive. */
  type Job = nat

  /** Jobs still with their caller: holding the read lock, cleared to send, or about to be reported. */
  datatype Callers = Callers(locked: seq<Job>, cleared: seq<Job>, failing: seq<Job>)

  /** Jobs with a worker, just received or being sent, and the workers without a job. */
  datatype Crew = Crew(taken: seq<Job>, sending: seq<Job>, idle: nat, exited: nat)

  /** How far Close has got. */
  datatype Closing = NotCalled | Locked | Marked | Emptying | Grace | Aborting | Draining | Returned

  datatype Gate = Gate(closed: bool, channelClosed: bool, aborted: bool, closing: Closing) {
    predicate Writing() {
      closing.Locked? || closing.Marked? || closing.Emptying?
    }
  }

  datatype World = World(
    arrived: nat, callers: Callers, queue: seq<Job>, crew: Crew,
    delivered: seq<Job>, reported: seq<Job>, gate: Gate, panicked: bool)

  const NEW_POOL := World(
    0, Callers([], [], []), [], Crew([], [], WORKERS, 0), [], [], Gate(false, false, false, NotCalled), false)

  /** A step of some caller, worker or of Close; an index picks one of the jobs at that stage. */
  datatype Event =
    | Arrive
    | CheckOpen(i: nat)
    | Offer(i: nat)
    | ReportDrop(i: nat)
    | Receive
    | CheckAbort(i: nat)
    | Settle(i: nat, ok: bool)
    | Exit
    | Close(to: Closing)
    | Drain

  // ---- Callers ------------------------------------------------------------------------------

  function Arrived(w: World): World {
    if w.gate.Writing() then w
    else w.(arrived := w.arrived + 1, callers := w.callers.(locked := w.callers.locked + [w.arrived]))
  }

  function Checked(w: World, i: nat): World {
    var c := w.callers;
    if i >= |c.locked| then w
    else if w.gate.closed then w.(callers := Callers(Without(c.locked, i), c.cleared, c.failing + [c.locked[i]]))
    else w.(callers := Callers(Without(c.locked, i), c.cleared + [c.locked[i]], c.failing))
  }

  /** A caller cleared to send puts the job in the queue, or drops it when the queue is full. */
  function Offered(w: World, i: nat): World {
    var c := w.callers;
    if i >= |c.cleared| then w
    else if !w.gate.channelClosed && |w.queue| < QUEUE_SIZE then
      w.(callers := Callers(c.locked, Without(c.cleared, i), c.failing), queue := w.queue + [c.cleared[i]])
    else
      w.(callers := Callers(c.locked, Without(c.cleared, i), c.failing + [c.cleared[i]]),
         panicked := w.panicked || w.gate.channelClosed)
  }

  function Dropped(w: World, i: nat): World {
    var c := w.callers;
    if i >= |c.failing| then w
    else w.(callers := Callers(c.locked, c.cleared, Without(c.failing, i)), reported := w.reported + [c.failing[i]])
  }

  // ---- Workers ------------------------------------------------------------------------------

  function Received(w: World): World {
    var c := w.crew;
    if c.idle == 0 || w.queue == [] then w
    else w.(crew := Crew(c.taken + [w.queue[0]], c.sending, c.idle - 1, c.exited), queue := Without(w.queue, 0))
  }

  function Begun(w: World, i: nat): World {
    var c := w.crew;
    if i >= |c.taken| then w
    else if w.gate.aborted then
      w.(crew := Crew(Without(c.taken, i), c.sending, c.idle + 1, c.exited), reported := w.reported + [c.taken[i]])
    else w.(crew := Crew(Without(c.taken, i), c.sending + [c.taken[i]], c.idle, c.exited))
  }

  function Settled(w: World, i: nat, ok: bool): World {
    var c := w.crew;
    if i >= |c.sending| then w
    else
      var crew := Crew(c.taken, Without(c.sending, i), c.idle + 1, c.exited);
      if ok then w.(crew := crew, delivered := w.delivered + [c.sending[i]])
      else w.(crew := crew, reported := w.reported + [c.sending[i]])
  }

  function Exited(w: World): World {
    var c := w.crew;
    if c.idle > 0 && w.queue == [] && w.gate.channelClosed then
      w.(crew := Crew(c.taken, c.sending, c.idle - 1, c.exited + 1))
    else w
  }

  // ---- Close --------------------------------------------------------------------------------

  /** The step of Close to the given point, if that is the next one and nothing holds it back. */
  function Advance(g: Gate, reading: bool, gone: bool, empty: bool, to: Closing): Gate {
    match g.closing
    case NotCalled => if to.Locked? && !reading then g.(closing := to) else g
    case Locked => if to.Marked? then g.(closed := true, closing := to) else g
    case Marked => if to.Emptying? then g.(channelClosed := true, closing := to) else g
    case Emptying => if to.Grace? then g.(closing := to) else g
    case Grace => if to.Aborting? || (to.Returned? && gone) then g.(aborted := true, closing := to) else g
    case Aborting => if to.Draining? || (to.Returned? && gone) then g.(closing := to) else g
    case Draining => if to.Returned? && empty then g.(closing := to) else g
    case Returned => g
  }

  predicate Reading(c: Callers) {
    c.locked != [] || c.cleared != []
  }

  function Closed(w: World, to: Closing): World {
    w.(gate := Advance(w.gate, Reading(w.callers), w.crew.exited == WORKERS, w.queue == [], to))
  }

  function Drained(w: World): World {
    if !w.gate.closing.Draining? || w.queue == [] then w
    else w.(reported := w.reported + [w.queue[0]], queue := Without(w.queue, 0))
  }

  function Next(w: World, e: Event): World {
    match e
    case Arrive => Arrived(w)
    case CheckOpen(i) => Checked(w, i)
    case Offer(i) => Offered(w, i)
    case ReportDrop(i) => Dropped(w, i)
    case Receive => Received(w)
    case CheckAbort(i) => Begun(w, i)
    case Settle(i, ok) => Settled(w, i, ok)
    case Exit => Exited(w)
    case Close(to) => Closed(w, to)
    case Drain => Drained(w)
  }

  function Run(es: seq<Event>): World {
    if es == [] then NEW_POOL else Next(Run(es[..|es| - 1]), es[|es| - 1])
  }

  // ---- Conservation -------------------------------------------------------------------------

  function Tally(s: seq<Job>, j: Job): nat {
    if s == [] then 0 else Tally(s[1..], j) + Once(s[0], j)
  }

  function Once(x: Job, j: Job): nat {
    if x == j then 1 else 0
  }

  lemma {:induction false} TallySnoc(s: seq<Job>, x: Job, j: Job)
    ensures Tally(s + [x], j) == Tally(s, j) + Once(x, j)
  {
    if s == [] {
      assert s + [x] == [x];
    } else {
      TallySnoc(s[1..], x, j);
      assert (s + [x])[1..] == s[1..] + [x];
    }
  }

  lemma {:induction false} TallyWithout(s: seq<Job>, i: nat, j: Job)
    requires i < |s|
    ensures Tally(Without(s, i), j) + Once(s[i], j) == Tally(s, j)
  {
    if i == 0 {
      assert Without(s, 0) == s[1..];
    } else {
      TallyWithout(s[1..], i - 1, j);
      assert Without(s, i)[1..] == Without(s[1..], i - 1);
    }
  }

  lemma MoveConserves(a: seq<Job>, i: nat, b: seq<Job>, j: Job)
    requires i < |a|
    ensures Tally(Without(a, i), j) + Tally(b + [a[i]], j) == Tally(a, j) + Tally(b, j)
  {
    TallyWithout(a, i, j);
    TallySnoc(b, a[i], j);
  }

  function WithCaller(w: World, j: Job): nat {
    Tally(w.callers.locked, j) + Tally(w.callers.cleared, j) + Tally(w.callers.failing, j)
  }

  function WithWorker(w: World, j: Job): nat {
    Tally(w.crew.taken, j) + Tally(w.crew.sending, j)
  }

  /** In how many places a job is, counting repetitions. */
  function Places(w: World, j: Job): nat {
    WithCaller(w, j) + Tally(w.queue, j) + WithWorker(w, j) + Tally(w.delivered, j) + Tally(w.reported, j)
  }

  /** A job that arrived is in exactly one place, once; any other is nowhere. */
  predicate Conserved(w: World, j: Job) {
    Places(w, j) == if j < w.arrived then 1 else 0
  }

  lemma CheckConserves(w: World, i: nat, j: Job)
    requires Conserved(w, j)
    ensures Conserved(Checked(w, i), j)
  {
    var c := w.callers;
    if i < |c.locked| {
      MoveConserves(c.locked, i, if w.gate.closed then c.failing else c.cleared, j);
    }
  }

  lemma OfferConserves(w: World, i: nat, j: Job)
    requires Conserved(w, j)
    ensures Conserved(Offered(w, i), j)
  {
    var c := w.callers;
    if i < |c.cleared| {
      MoveConserves(c.cleared, i, if !w.gate.channelClosed && |w.queue| < QUEUE_SIZE then w.queue else c.failing, j);
    }
  }

  lemma DropConserves(w: World, i: nat, j: Job)
    requires Conserved(w, j)
    ensures Conserved(Dropped(w, i), j)
  {
    if i < |w.callers.failing| {
      MoveConserves(w.callers.failing, i, w.reported, j);
    }
  }

  lemma ReceiveConserves(w: World, j: Job)
    requires Conserved(w, j)
    ensures Conserved(Received(w), j)
  {
    if w.queue != [] {
      MoveConserves(w.queue, 0, w.crew.taken, j);
    }
  }

  lemma DrainConserves(w: World, j: Job)
    requires Conserved(w, j)
    ensures Conserved(Drained(w), j)
  {
    if w.queue != [] {
      MoveConserves(w.queue, 0, w.reported, j);
    }
  }

  lemma BeginConserves(w: World, i: nat, j: Job)
    requires Conserved(w, j)
    ensures Conserved(Begun(w, i), j)
  {
    if i < |w.crew.taken| {
      MoveConserves(w.crew.taken, i, if w.gate.aborted then w.reported else w.crew.sending, j);
    }
  }

  lemma SettleConserves(w: World, i: nat, ok: bool, j: Job)
    requires Conserved(w, j)
    ensures Conserved(Settled(w, i, ok), j)
  {
    if i < |w.crew.sending| {
      MoveConserves(w.crew.sending, i, if ok then w.delivered else w.reported, j);
    }
  }

  lemma ArriveConserves(w: World, j: Job)
    requires Conserved(w, j)
    ensures Conserved(Arrived(w), j)
  {
    TallySnoc(w.callers.locked, w.arrived, j);
  }

  /** Every step moves at most one job from one place to another; only an arrival adds one. */
  lemma StepConserves(w: World, e: Event, j: Job)
    requires Conserved(w, j)
    ensures Conserved(Next(w, e), j)
  {
    match e
    case Arrive => ArriveConserves(w, j);
    case CheckOpen(i) => CheckConserves(w, i, j);
    case Offer(i) => OfferConserves(w, i, j);
    case ReportDrop(i) => DropConserves(w, i, j);
    case Receive => ReceiveConserves(w, j);
    case CheckAbort(i) => BeginConserves(w, i, j);
    case Settle(i, ok) => SettleConserves(w, i, ok, j);
    case Exit =>
    case Close(_) =>
    case Drain => DrainConserves(w, j);
  }

  /** Every job that arrived is in exactly one place, once; no other job is anywhere. */
  lemma {:induction false} JobsAreConserved(es: seq<Event>, j: Job)
    ensures Conserved(Run(es), j)
  {
    if es != [] {
      JobsAreConserved(es[..|es| - 1], j);
      StepConserves(Run(es[..|es| - 1]), es[|es| - 1], j);
    }
  }

  // ---- Bounds and shutdown ------------------------------------------------------------------

  /** Nobody reads while Close writes; the flag and the channel follow Close's progress. */
  predicate Guarded(w: World) {
    && (w.gate.Writing() ==> !Reading(w.callers))
    && (w.gate.closed <==> !(w.gate.closing.NotCalled? || w.gate.closing.Locked?))
    && (w.gate.channelClosed <==> w.gate.closed && !w.gate.closing.Marked?)
    && (w.gate.closed ==> w.callers.cleared == [])
    && |w.queue| <= QUEUE_SIZE && !w.panicked
  }

  function Held(c: Crew): nat {
    |c.taken| + |c.sending|
  }

  predicate Staffed(w: World) {
    && w.crew.idle + Held(w.crew) + w.crew.exited == WORKERS
    && (w.crew.exited > 0 ==> w.gate.channelClosed && w.queue == [])
    && (w.gate.closing.Returned? ==> w.queue == [])
  }

  lemma GuardKept(w: World, e: Event)
    requires Guarded(w)
    ensures Guarded(Next(w, e))
  {
  }

  lemma StaffKept(w: World, e: Event)
    requires Guarded(w) && Staffed(w)
    ensures Staffed(Next(w, e))
  {
  }

  lemma {:induction false} RunsAreGuarded(es: seq<Event>)
    ensures Guarded(Run(es)) && Staffed(Run(es))
  {
    if es != [] {
      RunsAreGuarded(es[..|es| - 1]);
      GuardKept(Run(es[..|es| - 1]), es[|es| - 1]);
      StaffKept(Run(es[..|es| - 1]), es[|es| - 1]);
    }
  }

  /** The queue stays bounded and no job is ever sent to the closed channel. */
  lemma QueueIsSafe(es: seq<Event>)
    ensures |Run(es).queue| <= QUEUE_SIZE && !Run(es).panicked
  {
    RunsAreGuarded(es);
  }

  /**
   * When Close has returned the queue is empty, at most four jobs, one a worker, are still open, and
   * every other job its caller has let go of was delivered or reported, once.
   */
  lemma CloseSettles(es: seq<Event>, j: Job)
    requires Run(es).gate.closing.Returned?
    ensures Run(es).queue == [] && Held(Run(es).crew) <= WORKERS
    ensures j < Run(es).arrived && WithCaller(Run(es), j) == 0 ==>
              WithWorker(Run(es), j) + Tally(Run(es).delivered, j) + Tally(Run(es).reported, j) == 1
  {
    RunsAreGuarded(es);
    JobsAreConserved(es, j);
  }

  // ---- The loops, undisturbed ---------------------------------------------------------------

  /** Whether a worker delivers a job: it does not even try after an abort. */
  predicate Delivers(aborted: bool, send: Job -> bool, j: Job) {
    !aborted && send(j)
  }

  /** The jobs of s with the given outcome, in order. */
  function Picked(s: seq<Job>, aborted: bool, send: Job -> bool, outcome: bool): seq<Job> {
    if s == [] then []
    else if Delivers(aborted, send, s[0]) == outcome then [s[0]] + Picked(s[1..], aborted, send, outcome)
    else Picked(s[1..], aborted, send, outcome)
  }

  class Pool {
    var closed: bool
    var aborted: bool
    var queue: seq<Job>
    var delivered: seq<Job>
    var reported: seq<Job>

    constructor ()
      ensures !closed && !aborted && queue == delivered == reported == []
    {
      closed, aborted := false, false;
      queue, delivered, reported := [], [], [];
    }

    method Enqueue(j: Job)
      modifies this`queue, this`reported
      ensures if !closed && |old(queue)| < QUEUE_SIZE
              then queue == old(queue) + [j] && reported == old(reported)
              else queue == old(queue) && reported == old(reported) + [j]
    {
      if closed || |queue| >= QUEUE_SIZE {
        reported := reported + [j];
        return;
      }
      queue := queue + [j];
    }

    /** One worker alone empties the queue: in order, each job delivered or reported by its outcome. */
    method Work(send: Job -> bool)
      modifies this`queue, this`delivered, this`reported
      ensures queue == []
      ensures delivered == old(delivered) + Picked(old(queue), aborted, send, true)
      ensures reported == old(reported) + Picked(old(queue), aborted, send, false)
    {
      ghost var d, r := delivered + Picked(queue, aborted, send, true), reported + Picked(queue, aborted, send, false);
      while queue != []
        invariant d == delivered + Picked(queue, aborted, send, true)
        invariant r == reported + Picked(queue, aborted, send, false)
        decreases |queue|
      {
        var j := queue[0];
        if aborted || !send(j) {
          ConcatAssociates(reported, [j], Picked(queue[1..], aborted, send, false));
          reported := reported + [j];
        } else {
          ConcatAssociates(delivered, [j], Picked(queue[1..], aborted, send, true));
          delivered := delivered + [j];
        }
        queue := queue[1..];
      }
    }

    /** Close after the last wait: everything still queued is reported. */
    method Drain()
      modifies this`queue, this`reported
      ensures queue == [] && reported == old(reported) + old(queue)
    {
      ghost var all := reported + queue;
      while queue != []
        invariant all == reported + queue
        decreases |queue|
      {
        assert queue == [queue[0]] + queue[1..];
        reported := reported + [queue[0]];
        queue := queue[1..];
      }
    }
  }
}
