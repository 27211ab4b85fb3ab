/**
 * The security epoch of one account under concurrent security changes. A change checks the session,
 * bumps the account's epoch, reads the account again and restamps the session; logins, renewals,
 * reauthentications and changes made elsewhere interleave with it in any order.
 */
module Epochs {
  import opened Prelude
  import opened Factors
  import opened Domain
  import opened Pendings
  import opened Sessions
  import opened Histories

  /** Who bumped the epoch: a security change of one session lineage, or anything else. */
  datatype Cause = Foreign | Own(lineage: Uuid)

  datatype Change = PasswordChange | Enrolment(factor: Factor)

  /** A session value handed to a client, with the epoch at which its lineage was admitted. */
  datatype Issued = Issued(attrs: SessionAttrs, admittedAt: nat)

  /** A running security change of an issued session, and the epoch its own bump produced. */
  datatype Request = Request(session: nat, change: Change, bump: Option<nat>)

  /** The account has had the epochs 0 to |bumps|; bump number k moved it from k to k + 1. */
  datatype World = World(bumps: seq<Cause>, sessions: seq<Issued>, requests: seq<Request>)

  const NEW_ACCOUNT := World([], [], [])

  /**
   * One atomic step. An account state is read before it is used, so a step may carry any state of
   * the past; only the second read of a security change is known to follow that change's own bump.
   */
  datatype Event =
    | Bump
    | Login(pending: Pending, st: AccountState, mfa: MfaDecision, now: Time, id: NewLineage)
    | Refresh(session: nat, pending: Pending, st: AccountState, mfa: MfaDecision, now: Time)
    | Renewal(session: nat, st: AccountState, mfa: MfaDecision, claims: Byte, now: Time)
    | Begin(session: nat, change: Change, st: AccountState)
    | Mutate(request: nat)
    | Reissue(request: nat, st: AccountState, now: Time)

  predicate Seen(w: World, st: AccountState) {
    st.epoch <= |w.bumps|
  }

  predicate CanBump(w: World) {
    |w.bumps| + 1 < TWO_64
  }

  /** A password change starts only from a live session; enrolments have no such check. */
  predicate MayBegin(a: SessionAttrs, change: Change, st: AccountState) {
    change.PasswordChange? ==> st.Usable() && st.epoch == a.epoch
  }

  predicate Enabled(w: World, e: Event) {
    match e
    case Bump => CanBump(w)
    case Login(_, st, _, _, id) => Seen(w, st) && forall s | s in w.sessions :: s.attrs.lineage != id
    case Refresh(i, _, st, _, _) => i < |w.sessions| && Seen(w, st)
    case Renewal(i, st, _, _, _) => i < |w.sessions| && Seen(w, st)
    case Begin(i, change, st) => i < |w.sessions| && Seen(w, st) && MayBegin(w.sessions[i].attrs, change, st)
    case Mutate(r) => r < |w.requests| && CanBump(w) && w.requests[r].bump.None?
    case Reissue(r, st, _) =>
      && r < |w.requests| && w.requests[r].session < |w.sessions| && w.requests[r].bump.Some?
      && w.requests[r].bump.value <= st.epoch <= |w.bumps|
  }

  function Restamp(a: SessionAttrs, change: Change, st: AccountState, now: Time): Result<SessionAttrs, Error> {
    match change
    case PasswordChange => PasswordChanged(a, st, now)
    case Enrolment(f) => FactorEnrolled(a, f, st)
  }

  function Issue(w: World, r: Result<SessionAttrs, Error>, admittedAt: nat): World {
    if r.Ok? then w.(sessions := w.sessions + [Issued(r.value, admittedAt)]) else w
  }

  function LineageOf(w: World, r: Request): Uuid {
    if r.session < |w.sessions| then w.sessions[r.session].attrs.lineage else NIL_UUID
  }

  function Next(w: World, e: Event): World {
    if !Enabled(w, e) then w
    else
      match e
      case Bump => w.(bumps := w.bumps + [Foreign])
      case Login(p, st, mfa, now, id) => Issue(w, AdmitSession(p, st, mfa, now, id), st.epoch)
      case Refresh(i, p, st, mfa, now) =>
        Issue(w, Reauthenticate(w.sessions[i].attrs, p, st, mfa, now), w.sessions[i].admittedAt)
      case Renewal(i, st, mfa, claims, now) =>
        Issue(w, Renew(w.sessions[i].attrs, st, mfa, claims, now), w.sessions[i].admittedAt)
      case Begin(i, change, _) => w.(requests := w.requests + [Request(i, change, None)])
      case Mutate(r) => Mutated(w, r)
      case Reissue(r, st, now) =>
        var q := w.requests[r];
        var s := w.sessions[q.session];
        Issue(w, Restamp(s.attrs, q.change, st, now), s.admittedAt)
  }

  function Run(es: seq<Event>): World {
    if es == [] then NEW_ACCOUNT else Next(Run(es[..|es| - 1]), es[|es| - 1])
  }

  // ---- Invariant ----------------------------------------------------------------------------

  /** Every epoch the session passed through since its admission was a bump of its own lineage. */
  predicate Traced(bumps: seq<Cause>, s: Issued) {
    && s.admittedAt <= s.attrs.epoch <= |bumps|
    && forall k | s.admittedAt <= k < s.attrs.epoch :: bumps[k] == Own(s.attrs.lineage)
  }

  /** A request that has bumped did so above the epoch of the session it started from. */
  predicate Committed(w: World, r: Request) {
    && r.session < |w.sessions|
    && (r.bump.Some? ==>
          && w.sessions[r.session].attrs.epoch < r.bump.value <= |w.bumps|
          && w.bumps[r.bump.value - 1] == Own(LineageOf(w, r)))
  }

  predicate OneAdmission(s: Issued, t: Issued) {
    s.attrs.lineage == t.attrs.lineage ==> s.admittedAt == t.admittedAt
  }

  predicate Consistent(w: World) {
    && (forall s | s in w.sessions :: Traced(w.bumps, s))
    && (forall s, t | s in w.sessions && t in w.sessions :: OneAdmission(s, t))
    && (forall r | r in w.requests :: Committed(w, r))
  }

  lemma BumpKeeps(w: World, c: Cause)
    requires Consistent(w)
    ensures Consistent(w.(bumps := w.bumps + [c]))
  {
  }

  lemma IssueKeeps(w: World, s: Issued)
    requires Consistent(w) && Traced(w.bumps, s) && forall t | t in w.sessions :: OneAdmission(t, s)
    ensures Consistent(w.(sessions := w.sessions + [s]))
  {
  }

  function Mutated(w: World, r: nat): World
    requires r < |w.requests|
  {
    var q := w.requests[r];
    w.(bumps := w.bumps + [Own(LineageOf(w, q))], requests := w.requests[r := q.(bump := Some(|w.bumps| + 1))])
  }

  lemma MutateKeeps(w: World, r: nat)
    requires Consistent(w) && r < |w.requests|
    ensures Consistent(Mutated(w, r))
  {
    var q, n := w.requests[r], Mutated(w, r);
    assert Committed(w, q);
    assert Traced(w.bumps, w.sessions[q.session]);
    BumpKeeps(w, Own(LineageOf(w, q)));
    forall x | x in n.requests ensures Committed(n, x) {
      assert x in w.requests || x == q.(bump := Some(|w.bumps| + 1));
    }
  }

  /** Restamping succeeds only when the session's own bump was the one right above its epoch. */
  lemma RestampIsOwn(w: World, q: Request, st: AccountState, now: Time)
    requires Consistent(w) && q in w.requests && Committed(w, q)
    requires q.bump.Some? && q.bump.value <= st.epoch <= |w.bumps| < TWO_64
    ensures var s := w.sessions[q.session];
      var n := Restamp(s.attrs, q.change, st, now);
      n.Ok? ==> q.bump.value == st.epoch == n.value.epoch == s.attrs.epoch + 1
                && n.value.lineage == s.attrs.lineage && Traced(w.bumps, Issued(n.value, s.admittedAt))
  {
    var s := w.sessions[q.session];
    assert s in w.sessions && Traced(w.bumps, s);
  }

  lemma LoginKeeps(w: World, p: Pending, st: AccountState, mfa: MfaDecision, now: Time, id: NewLineage)
    requires Consistent(w) && Seen(w, st) && forall s | s in w.sessions :: s.attrs.lineage != id
    ensures Consistent(Issue(w, AdmitSession(p, st, mfa, now, id), st.epoch))
  {
    var r := AdmitSession(p, st, mfa, now, id);
    if r.Ok? {
      IssueKeeps(w, Issued(r.value, st.epoch));
    }
  }

  lemma BeginKeeps(w: World, q: Request)
    requires Consistent(w) && q.session < |w.sessions| && q.bump.None?
    ensures Consistent(w.(requests := w.requests + [q]))
  {
    var n := w.(requests := w.requests + [q]);
    forall r | r in n.requests ensures Committed(n, r) {
      assert r in w.requests ==> Committed(w, r);
    }
  }

  lemma ReissueKeeps(w: World, q: Request, st: AccountState, now: Time)
    requires Consistent(w) && |w.bumps| < TWO_64 && q in w.requests && q.session < |w.sessions|
    requires q.bump.Some? && q.bump.value <= st.epoch <= |w.bumps|
    ensures var s := w.sessions[q.session];
      Consistent(Issue(w, Restamp(s.attrs, q.change, st, now), s.admittedAt))
  {
    var s := w.sessions[q.session];
    var n := Restamp(s.attrs, q.change, st, now);
    assert s in w.sessions && Committed(w, q);
    RestampIsOwn(w, q, st, now);
    if n.Ok? {
      IssueKeeps(w, Issued(n.value, s.admittedAt));
    }
  }

  lemma NextKeeps(w: World, e: Event)
    requires Consistent(w) && |w.bumps| < TWO_64
    ensures Consistent(Next(w, e)) && |Next(w, e).bumps| < TWO_64
  {
    if Enabled(w, e) {
      match e
      case Bump => BumpKeeps(w, Foreign);
      case Login(p, st, mfa, now, id) => LoginKeeps(w, p, st, mfa, now, id);
      case Refresh(i, p, st, mfa, now) =>
        ContinueKeeps(w, i, Reauthenticate(w.sessions[i].attrs, p, st, mfa, now));
      case Renewal(i, st, mfa, claims, now) =>
        ContinueKeeps(w, i, Renew(w.sessions[i].attrs, st, mfa, claims, now));
      case Begin(i, change, st) => BeginKeeps(w, Request(i, change, None));
      case Mutate(r) => MutateKeeps(w, r);
      case Reissue(r, st, now) => ReissueKeeps(w, w.requests[r], st, now);
    }
  }

  /** A step that keeps lineage and epoch. */
  lemma ContinueKeeps(w: World, i: nat, r: Result<SessionAttrs, Error>)
    requires Consistent(w) && i < |w.sessions|
    requires r.Ok? ==> r.value.lineage == w.sessions[i].attrs.lineage && r.value.epoch == w.sessions[i].attrs.epoch
    ensures Consistent(Issue(w, r, w.sessions[i].admittedAt))
  {
    assert w.sessions[i] in w.sessions && Traced(w.bumps, w.sessions[i]);
    if r.Ok? {
      IssueKeeps(w, Issued(r.value, w.sessions[i].admittedAt));
    }
  }

  lemma {:induction false} RunsAreConsistent(es: seq<Event>)
    ensures Consistent(Run(es)) && |Run(es).bumps| < TWO_64
  {
    if es != [] {
      RunsAreConsistent(es[..|es| - 1]);
      NextKeeps(Run(es[..|es| - 1]), es[|es| - 1]);
    }
  }

  // ---- Results ------------------------------------------------------------------------------

  /** A session admitted before a bump and stamped at or above it belongs to the lineage that bumped. */
  lemma SingleSurvivor(es: seq<Event>, s: Issued, k: nat)
    requires s in Run(es).sessions && s.admittedAt <= k < s.attrs.epoch
    ensures k < |Run(es).bumps| && Run(es).bumps[k] == Own(s.attrs.lineage)
  {
    RunsAreConsistent(es);
    assert Traced(Run(es).bumps, s);
  }

  /** So two survivors of one bump are the same login. */
  lemma SurvivorsAgree(es: seq<Event>, s: Issued, t: Issued, k: nat)
    requires s in Run(es).sessions && s.admittedAt <= k < s.attrs.epoch
    requires t in Run(es).sessions && t.admittedAt <= k < t.attrs.epoch
    ensures s.attrs.lineage == t.attrs.lineage && s.admittedAt == t.admittedAt
  {
    SingleSurvivor(es, s, k);
    SingleSurvivor(es, t, k);
    RunsAreConsistent(es);
    assert OneAdmission(s, t);
  }

  predicate Extends(w: World, n: World) {
    w.bumps <= n.bumps && w.sessions <= n.sessions
  }

  lemma NextGrows(w: World, e: Event)
    ensures Extends(w, Next(w, e))
  {
  }

  lemma {:induction false} RunsGrow(es: seq<Event>, more: seq<Event>)
    ensures Extends(Run(es), Run(es + more))
    decreases |more|
  {
    if more == [] {
      assert es + more == es;
    } else {
      var init := more[..|more| - 1];
      RunsGrow(es, init);
      assert (es + more)[..|es + more| - 1] == es + init;
      NextGrows(Run(es + init), more[|more| - 1]);
    }
  }

  /** Left behind by bump k: no longer live, not renewed and not reauthenticated at any epoch above k. */
  ghost predicate Dead(a: SessionAttrs, k: nat) {
    && a.epoch <= k
    && (forall st: AccountState | k < st.epoch :: !MayBegin(a, PasswordChange, st))
    && (forall p, st: AccountState, mfa, now | k < st.epoch :: Reauthenticate(a, p, st, mfa, now).Err?)
    && (forall st: AccountState, mfa, claims, now | k < st.epoch :: Renew(a, st, mfa, claims, now).Err?)
  }

  lemma OvertakenIsDead(a: SessionAttrs, k: nat)
    requires a.epoch <= k
    ensures Dead(a, k)
  {
  }

  lemma OvertakenStays(w: World, s: Issued, t: Issued, k: nat)
    requires Consistent(w) && s in w.sessions && t in w.sessions && t.attrs.lineage == s.attrs.lineage
    requires s.admittedAt <= k < |w.bumps| && w.bumps[k] != Own(s.attrs.lineage)
    ensures t.attrs.epoch <= k
  {
    assert OneAdmission(s, t) && Traced(w.bumps, t);
  }

  /**
   * A session that someone else's bump overtook is dead, and so is everything its lineage is ever
   * issued afterwards, whatever runs next.
   */
  lemma DeadStaysDead(es: seq<Event>, more: seq<Event>, s: Issued, t: Issued, k: nat)
    requires s in Run(es).sessions && s.admittedAt <= k < |Run(es).bumps|
    requires Run(es).bumps[k] != Own(s.attrs.lineage)
    requires t in Run(es + more).sessions && t.attrs.lineage == s.attrs.lineage
    ensures Dead(t.attrs, k)
  {
    RunsGrow(es, more);
    RunsAreConsistent(es + more);
    OvertakenStays(Run(es + more), s, t, k);
    OvertakenIsDead(t.attrs, k);
  }

  // ---- Survival -----------------------------------------------------------------------------

  predicate Applies(change: Change, now: Time) {
    match change
    case PasswordChange => !IsZero(now)
    case Enrolment(f) => RoleOf(f) == Second
  }

  /** The three steps of a security change of session i, one after the other. */
  function Changing(w: World, i: nat, change: Change, before: AccountState, after: AccountState, now: Time): World {
    var r := |w.requests|;
    Next(Next(Next(w, Begin(i, change, before)), Mutate(r)), Reissue(r, after, now))
  }

  /** A live session that changes its password or enrols undisturbed survives its own bump, at the new epoch. */
  lemma UndisturbedChangeSurvives(w: World, i: nat, change: Change, before: AccountState, after: AccountState, now: Time)
    requires i < |w.sessions| && w.sessions[i].attrs.version != 0 && CanBump(w) && Applies(change, now)
    requires w.sessions[i].attrs.epoch == before.epoch == |w.bumps| && after.epoch == |w.bumps| + 1
    requires before.Usable() && after.Usable()
    ensures var n := Changing(w, i, change, before, after, now);
      && |n.bumps| == |w.bumps| + 1 && |n.sessions| == |w.sessions| + 1
      && (var a, s := w.sessions[i], n.sessions[|w.sessions|];
          s.attrs.lineage == a.attrs.lineage && s.attrs.epoch == |n.bumps| && s.admittedAt == a.admittedAt)
  {
    var r := |w.requests|;
    var begun := Next(w, Begin(i, change, before));
    assert begun.requests[r] == Request(i, change, None);
    var mutated := Next(begun, Mutate(r));
    assert mutated.requests[r] == Request(i, change, Some(|w.bumps| + 1)) && mutated.sessions == w.sessions;
  }

  /** A login, a reauthentication and a renewal that are granted issue their session, and one that is not issues none. */
  lemma GrantsAreIssued(w: World, e: Event)
    requires Enabled(w, e) && (e.Login? || e.Refresh? || e.Renewal?)
    ensures var granted :=
        match e
        case Login(p, st, mfa, now, id) => AdmitSession(p, st, mfa, now, id)
        case Refresh(i, p, st, mfa, now) => Reauthenticate(w.sessions[i].attrs, p, st, mfa, now)
        case Renewal(i, st, mfa, claims, now) => Renew(w.sessions[i].attrs, st, mfa, claims, now);
      var n := Next(w, e);
      && n.bumps == w.bumps && (granted.Err? <==> n.sessions == w.sessions)
      && (granted.Ok? ==> |n.sessions| == |w.sessions| + 1 && n.sessions[|w.sessions|].attrs == granted.value)
  {
  }

  // ---- Half-finished logins -----------------------------------------------------------------

  datatype PendingStep = BindStep(subject: Subject, st: AccountState)
    | HashStep(hash: Bytes)
    | AddStep(verified: Verified, st: AccountState)

  function Continue(p: Pending, steps: seq<PendingStep>): Result<Pending, Error> {
    if steps == [] then Ok(p)
    else
      match Continue(p, steps[..|steps| - 1])
      case Err(e) => Err(e)
      case Ok(q) =>
        match steps[|steps| - 1]
        case BindStep(s, st) => Bind(q, s, st)
        case HashStep(h) => WithBindHash(q, h)
        case AddStep(v, st) => Add(q, v, st)
  }

  lemma {:induction false} BoundEpochIsFixed(p: Pending, steps: seq<PendingStep>)
    requires p.Bound() && Continue(p, steps).Ok?
    ensures var q := Continue(p, steps).value; q.Bound() && q.subject == p.subject && q.epochAtBind == p.epochAtBind
  {
    if steps != [] {
      BoundEpochIsFixed(p, steps[..|steps| - 1]);
    }
  }

  /** However it continues, a bound login is refused against every account state above its epoch. */
  lemma BoundLoginRefused(p: Pending, steps: seq<PendingStep>, v: Verified, st: AccountState, mfa: MfaDecision, now: Time,
                          id: NewLineage)
    requires p.Bound() && Continue(p, steps).Ok? && p.epochAtBind < st.epoch
    ensures var q := Continue(p, steps).value; Admit(q, st, mfa, now, id).Err? && Add(q, v, st).Err?
  {
    BoundEpochIsFixed(p, steps);
  }

  predicate Known(sessions: seq<Issued>, l: Uuid) {
    exists s | s in sessions :: s.attrs.lineage == l
  }

  /** Only a lineage that was issued a session has bumped. */
  predicate Attributed(w: World) {
    forall k | 0 <= k < |w.bumps| && w.bumps[k].Own? :: Known(w.sessions, w.bumps[k].lineage)
  }

  lemma KnownGrows(ss: seq<Issued>, more: seq<Issued>, l: Uuid)
    requires ss <= more && Known(ss, l)
    ensures Known(more, l)
  {
    var s :| s in ss && s.attrs.lineage == l;
    var i :| 0 <= i < |ss| && ss[i] == s;
    assert more[i] in more;
  }

  lemma MutateAttributes(w: World, r: nat)
    requires Attributed(w) && r < |w.requests| && w.requests[r].session < |w.sessions|
    ensures Attributed(Mutated(w, r))
  {
    assert w.sessions[w.requests[r].session] in w.sessions;
  }

  /** A step that does not bump for a lineage only adds sessions. */
  lemma NextAttributes(w: World, e: Event)
    requires Consistent(w) && Attributed(w)
    ensures Attributed(Next(w, e))
  {
    NextGrows(w, e);
    var n := Next(w, e);
    if e.Mutate? && Enabled(w, e) {
      assert Committed(w, w.requests[e.request]);
      MutateAttributes(w, e.request);
    } else {
      forall k | 0 <= k < |n.bumps| && n.bumps[k].Own? ensures Known(n.sessions, n.bumps[k].lineage) {
        KnownGrows(w.sessions, n.sessions, w.bumps[k].lineage);
      }
    }
  }

  lemma {:induction false} RunsAreAttributed(es: seq<Event>)
    ensures Attributed(Run(es))
  {
    if es != [] {
      RunsAreAttributed(es[..|es| - 1]);
      RunsAreConsistent(es[..|es| - 1]);
      NextAttributes(Run(es[..|es| - 1]), es[|es| - 1]);
    }
  }

  /** A login that is admitted gets the epoch it was bound at. */
  lemma AdmittedAtBind(p: Pending, st: AccountState, mfa: MfaDecision, now: Time, id: NewLineage)
    requires AdmitSession(p, st, mfa, now, id).Ok?
    ensures var a := AdmitSession(p, st, mfa, now, id).value; a.lineage == id && a.epoch == st.epoch == p.epochAtBind
  {
  }

  lemma LoginIsOvertaken(w: World, q: Pending, st: AccountState, mfa: MfaDecision, now: Time, id: NewLineage, k: nat)
    requires Attributed(w) && Enabled(w, Login(q, st, mfa, now, id)) && AdmitSession(q, st, mfa, now, id).Ok?
    requires q.epochAtBind <= k < |w.bumps|
    ensures var s := Issued(AdmitSession(q, st, mfa, now, id).value, st.epoch);
      && s in Next(w, Login(q, st, mfa, now, id)).sessions && s.attrs.lineage == id && s.admittedAt <= k
      && Next(w, Login(q, st, mfa, now, id)).bumps == w.bumps && w.bumps[k] != Own(id)
  {
    AdmittedAtBind(q, st, mfa, now, id);
    assert !Known(w.sessions, id);
  }

  /**
   * A half-finished login stays dead. It was bound before bump k; however it continues, and even when
   * it is admitted after the bump against an account state read before it, everything its lineage is
   * ever issued stays at the old epoch.
   */
  lemma DeadLogin(es: seq<Event>, more: seq<Event>, p: Pending, steps: seq<PendingStep>, st: AccountState, mfa: MfaDecision,
                  now: Time, id: NewLineage, t: Issued, k: nat)
    requires p.Bound() && p.epochAtBind <= k < |Run(es).bumps| && Continue(p, steps).Ok?
    requires var q := Continue(p, steps).value;
      && Enabled(Run(es), Login(q, st, mfa, now, id)) && AdmitSession(q, st, mfa, now, id).Ok?
      && t in Run(es + [Login(q, st, mfa, now, id)] + more).sessions && t.attrs.lineage == id
    ensures Dead(t.attrs, k)
  {
    var q := Continue(p, steps).value;
    var e := Login(q, st, mfa, now, id);
    BoundEpochIsFixed(p, steps);
    RunsAreAttributed(es);
    LoginIsOvertaken(Run(es), q, st, mfa, now, id, k);
    assert (es + [e])[..|es|] == es;
    DeadStaysDead(es + [e], more, Issued(AdmitSession(q, st, mfa, now, id).value, st.epoch), t, k);
  }

  // ---- One change, as it runs ---------------------------------------------------------------

  /** What other requests may leave behind: any account state whose epoch has not gone back. */
  predicate Later(before: AccountState, after: AccountState) {
    before.epoch <= after.epoch
  }

  class Account {
    var st: AccountState

    constructor (initial: AccountState)
      ensures st == initial
    {
      st := initial;
    }

    /** What committing a new password does to the account state: one bump, and nothing left to change. */
    method CommitPassword()
      requires st.epoch + 1 < TWO_64
      modifies this
      ensures st == old(st).(epoch := old(st).epoch + 1, mustChange := false)
    {
      st := st.(epoch := Succ(st.epoch), mustChange := false);
    }

    method Interfere(next: AccountState)
      requires Later(st, next)
      modifies this
      ensures st == next
    {
      st := next;
    }
  }

  /**
   * The password change of session a. Other requests leave the account at mid between its check and
   * its own bump, and at late between that bump and its second read. It restamps the session exactly
   * when nobody else bumped in either gap.
   */
  method ChangePassword(acc: Account, a: SessionAttrs, passwordsOk: bool, mid: AccountState, late: AccountState, now: Time)
    returns (r: Result<SessionAttrs, Error>)
    requires Later(acc.st, mid) && mid.epoch + 1 < TWO_64 && mid.epoch + 1 <= late.epoch
    modifies acc
    ensures r.Ok? <==> old(acc.st).Usable() && passwordsOk && late.Usable() && a.version != 0 && !IsZero(now)
                       && a.epoch == old(acc.st).epoch == mid.epoch && late.epoch == mid.epoch + 1
    ensures r.Ok? ==> r.value.epoch == acc.st.epoch && r.value.lineage == a.lineage
    ensures acc.st == if old(acc.st).Usable() && old(acc.st).epoch == a.epoch && passwordsOk then late else old(acc.st)
  {
    if !acc.st.Usable() || acc.st.epoch != a.epoch {
      return Err(AccountUnusable);
    }
    if !passwordsOk {
      return Err(InvalidArgument);
    }
    acc.Interfere(mid);
    acc.CommitPassword();
    acc.Interfere(late);
    r := PasswordChanged(a, acc.st, now);
  }
}
