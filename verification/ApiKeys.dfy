/**
 * The claims of an API key: what its owner holds, narrowed to what the key grants, remembered for a
 * while under the owner's epoch. Requests interleave at every cache and store operation, with each other
 * and with changes of what owners hold.
 */
module ApiKeys {
  import opened Prelude

  const CACHE_SIZE: nat := 4096

  // ---- Intersection -------------------------------------------------------------------------

  /** The granted values that are held, once each, in grant order. */
  function Intersect(held: seq<Bytes>, granted: seq<Bytes>): seq<Bytes> {
    if granted == [] then []
    else
      var init, last := Intersect(held, granted[..|granted| - 1]), granted[|granted| - 1];
      if last in held && last !in init then init + [last] else init
  }

  method ComputeIntersect(held: seq<Bytes>, granted: seq<Bytes>) returns (out: seq<Bytes>)
    ensures out == Intersect(held, granted)
  {
    out := [];
    for i := 0 to |granted|
      invariant out == Intersect(held, granted[..i])
    {
      assert granted[..i + 1][..i] == granted[..i];
      if granted[i] in held && granted[i] !in out {
        out := out + [granted[i]];
      }
    }
    assert granted[..|granted|] == granted;
  }

  lemma {:induction false} IntersectMembers(held: seq<Bytes>, granted: seq<Bytes>)
    ensures forall v :: v in Intersect(held, granted) <==> v in held && v in granted
    ensures forall i, j | 0 <= i < j < |Intersect(held, granted)| ::
      Intersect(held, granted)[i] != Intersect(held, granted)[j]
  {
    if granted != [] {
      var init, last := granted[..|granted| - 1], granted[|granted| - 1];
      IntersectMembers(held, init);
      assert granted == init + [last];
    }
  }

  datatype Claims = Claims(roles: seq<Bytes>, scopes: seq<Bytes>, groups: seq<Bytes>, custom: nat)

  datatype Grant = Grant(roles: seq<Bytes>, scopes: seq<Bytes>, groups: seq<Bytes>)

  function Narrowed(owner: Claims, g: Grant): Claims {
    Claims(Intersect(owner.roles, g.roles), Intersect(owner.scopes, g.scopes), Intersect(owner.groups, g.groups),
           owner.custom)
  }

  // ---- Interleavings ------------------------------------------------------------------------

  type KeyId = nat

  type Owner = nat

  /** What an owner holds at an epoch; none for an unknown owner. */
  datatype Holding = Holding(owner: Owner, epoch: U64, claims: Option<Claims>)

  /** The latest holding of an owner. */
  function Current(hs: seq<Holding>, o: Owner): Holding {
    if hs == [] then Holding(o, 0, None)
    else if hs[|hs| - 1].owner == o then hs[|hs| - 1]
    else Current(hs[..|hs| - 1], o)
  }

  function Changed(hs: seq<Holding>, o: Owner, claims: Option<Claims>, bump: bool): seq<Holding>
    requires bump ==> Current(hs, o).epoch + 1 < TWO_64
  {
    var epoch := Current(hs, o).epoch;
    hs + [Holding(o, if bump then epoch + 1 else epoch, claims)]
  }

  datatype Entry = Entry(epoch: U64, at: Time, claims: Claims)

  datatype Key = Key(id: KeyId, grant: Grant)

  /**
   * A claim set computed from the owner, by which request, the epoch of the state it saw, and the
   * owner's epoch when the claims were read.
   */
  datatype Computation = Computation(call: nat, key: Key, owner: Claims, epoch: U64, stateEpoch: U64, readAt: U64, at: Time)

  datatype Phase =
    | Reading
    | Missed
    | Dropped
    | Checked(stateEpoch: U64)
    | Computed(computation: nat)
    | Returned(claims: Claims)
    | Refused

  /** A request: its key, its clock reading, and the owner's epoch it saw. */
  datatype Call = Call(key: Key, now: Time, epoch: U64, phase: Phase)

  /** Every key has one owner for good. */
  datatype World = World(recheck: Duration, owner: KeyId -> Owner, holdings: seq<Holding>, entries: map<KeyId, Entry>,
                         calls: seq<Call>, computed: seq<Computation>)

  function Held(w: World, id: KeyId): Holding {
    Current(w.holdings, w.owner(id))
  }

  datatype Event =
    | Change(owner: Owner, claims: Option<Claims>, bump: bool)
    | Arrive(key: Key, now: Time, seen: U64)
    | Forget(id: KeyId)
    | Look(i: nat)
    | Drop(i: nat)
    | ReadState(i: nat, usable: bool)
    | ReadOwner(i: nat, answered: bool)
    | Keep(i: nat, victim: KeyId)

  predicate Fresh(e: Entry, epoch: U64, now: Time, recheck: Duration) {
    e.epoch == epoch && Sub(now, e.at) < recheck && e.at <= now
  }

  /** Storing a new key in a full cache first removes some other entry. */
  function Put<V>(entries: map<KeyId, V>, id: KeyId, e: V, victim: KeyId): map<KeyId, V> {
    if id !in entries && |entries| >= CACHE_SIZE then (entries - {victim})[id := e] else entries[id := e]
  }

  function SetPhase(w: World, i: nat, p: Phase): World
    requires i < |w.calls|
  {
    w.(calls := w.calls[i := w.calls[i].(phase := p)])
  }

  function Looked(w: World, c: Call): Phase {
    if c.key.id in w.entries && Fresh(w.entries[c.key.id], c.epoch, c.now, w.recheck)
    then Returned(w.entries[c.key.id].claims) else Missed
  }

  function OwnerRead(w: World, i: nat, owner: Claims, stateEpoch: U64): World
    requires i < |w.calls|
  {
    var c := w.calls[i];
    SetPhase(w, i, Computed(|w.computed|))
      .(computed := w.computed + [Computation(i, c.key, owner, c.epoch, stateEpoch, Held(w, c.key.id).epoch, c.now)])
  }

  /** The claims are returned in any case, and kept only when the epoch did not move meanwhile. */
  function Kept(w: World, i: nat, k: Computation, victim: KeyId): World
    requires i < |w.calls|
  {
    var claims := Narrowed(k.owner, k.key.grant);
    var n := SetPhase(w, i, Returned(claims));
    if k.stateEpoch == k.epoch then n.(entries := Put(w.entries, k.key.id, Entry(k.epoch, k.at, claims), victim)) else n
  }

  predicate VictimOk(w: World, id: KeyId, victim: KeyId) {
    id !in w.entries && |w.entries| >= CACHE_SIZE ==> victim in w.entries
  }

  /** A request may see an epoch that lags behind, never one that is yet to come. */
  function Next(w: World, e: Event): World {
    match e
    case Change(o, claims, bump) =>
      if bump && Current(w.holdings, o).epoch + 1 >= TWO_64 then w
      else w.(holdings := Changed(w.holdings, o, claims, bump))
    case Arrive(key, now, seen) =>
      if seen <= Held(w, key.id).epoch then w.(calls := w.calls + [Call(key, now, seen, Reading)]) else w
    case Forget(id) => w.(entries := w.entries - {id})
    case Look(i) => if i < |w.calls| && w.calls[i].phase.Reading? then SetPhase(w, i, Looked(w, w.calls[i])) else w
    case Drop(i) =>
      if i < |w.calls| && w.calls[i].phase.Missed?
      then SetPhase(w, i, Dropped).(entries := w.entries - {w.calls[i].key.id}) else w
    case ReadState(i, usable) =>
      if i < |w.calls| && w.calls[i].phase.Dropped? then
        SetPhase(w, i, if usable then Checked(Held(w, w.calls[i].key.id).epoch) else Refused)
      else w
    case ReadOwner(i, answered) =>
      if i < |w.calls| && w.calls[i].phase.Checked? then
        var owner := Held(w, w.calls[i].key.id).claims;
        if answered && owner.Some? then OwnerRead(w, i, owner.value, w.calls[i].phase.stateEpoch)
        else SetPhase(w, i, Refused)
      else w
    case Keep(i, victim) =>
      if i < |w.calls| && w.calls[i].phase.Computed? && w.calls[i].phase.computation < |w.computed|
         && VictimOk(w, w.computed[w.calls[i].phase.computation].key.id, victim)
      then Kept(w, i, w.computed[w.calls[i].phase.computation], victim) else w
  }

  function Run(recheck: Duration, owner: KeyId -> Owner, es: seq<Event>): World {
    if es == [] then World(recheck, owner, [], map[], [], [])
    else Next(Run(recheck, owner, es[..|es| - 1]), es[|es| - 1])
  }

  // ---- Invariant ----------------------------------------------------------------------------

  /** What an entry was computed from, while the owner's epoch stood still. */
  predicate Backs(k: Computation, id: KeyId, e: Entry) {
    k.key.id == id && k.epoch == k.stateEpoch == e.epoch && k.at == e.at && e.claims == Narrowed(k.owner, k.key.grant)
  }

  predicate Backed(ks: seq<Computation>, id: KeyId, e: Entry) {
    exists n | 0 <= n < |ks| :: Backs(ks[n], id, e)
  }

  /** The computation behind a returned claim set: the request's own, or a recent one at the same epoch. */
  predicate Explains(k: Computation, i: nat, c: Call, claims: Claims, recheck: Duration) {
    && k.key.id == c.key.id && k.epoch == c.epoch && claims == Narrowed(k.owner, k.key.grant)
    && (k.call == i || (k.stateEpoch == c.epoch && k.at <= c.now && Sub(c.now, k.at) < recheck))
  }

  predicate Explained(ks: seq<Computation>, recheck: Duration, i: nat, c: Call) {
    match c.phase
    case Computed(n) => n < |ks| && ks[n].call == i && ks[n].key == c.key && ks[n].epoch == c.epoch
    case Returned(claims) => exists n | 0 <= n < |ks| :: Explains(ks[n], i, c, claims, recheck)
    case _ => true
  }

  predicate AllExplained(cs: seq<Call>, ks: seq<Computation>, recheck: Duration) {
    forall i | 0 <= i < |cs| :: Explained(ks, recheck, i, cs[i])
  }

  predicate AllBacked(m: map<KeyId, Entry>, ks: seq<Computation>) {
    forall id | id in m :: Backed(ks, id, m[id])
  }

  predicate Valid(w: World) {
    |w.entries| <= CACHE_SIZE && AllBacked(w.entries, w.computed) && AllExplained(w.calls, w.computed, w.recheck)
  }

  lemma MapSizes<V>(m: map<KeyId, V>, k: KeyId, v: V)
    ensures |m - {k}| == if k in m then |m| - 1 else |m|
    ensures |m[k := v]| == if k in m then |m| else |m| + 1
  {
    assert (m - {k}).Keys == m.Keys - {k};
    assert m[k := v].Keys == m.Keys + {k};
    assert |m| == |m.Keys| && |m - {k}| == |(m - {k}).Keys| && |m[k := v]| == |m[k := v].Keys|;
  }

  lemma PutFits<V>(m: map<KeyId, V>, id: KeyId, e: V, victim: KeyId)
    requires |m| <= CACHE_SIZE && (id !in m && |m| >= CACHE_SIZE ==> victim in m)
    ensures |Put(m, id, e, victim)| <= CACHE_SIZE
  {
    MapSizes(m, victim, e);
    MapSizes(m, id, e);
    MapSizes(m - {victim}, id, e);
  }

  lemma RemoveFits(m: map<KeyId, Entry>, id: KeyId)
    ensures |m - {id}| <= |m|
  {
    if id in m {
      MapSizes(m, id, m[id]);
    } else {
      assert m - {id} == m;
    }
  }

  lemma RemoveKeeps(w: World, id: KeyId)
    requires Valid(w)
    ensures Valid(w.(entries := w.entries - {id}))
  {
    RemoveFits(w.entries, id);
  }

  lemma PhaseKeeps(w: World, i: nat, p: Phase)
    requires Valid(w) && i < |w.calls| && Explained(w.computed, w.recheck, i, w.calls[i].(phase := p))
    ensures Valid(SetPhase(w, i, p))
  {
  }

  lemma LookKeeps(w: World, i: nat)
    requires Valid(w) && i < |w.calls|
    ensures Valid(SetPhase(w, i, Looked(w, w.calls[i])))
  {
    var c, p := w.calls[i], Looked(w, w.calls[i]);
    if p.Returned? {
      var e := w.entries[c.key.id];
      assert Backed(w.computed, c.key.id, e);
      var n :| 0 <= n < |w.computed| && Backs(w.computed[n], c.key.id, e);
      assert Explains(w.computed[n], i, c.(phase := p), p.claims, w.recheck);
    }
    PhaseKeeps(w, i, p);
  }

  /** A longer log backs what a shorter one did. */
  lemma LogBacks(m: map<KeyId, Entry>, ks: seq<Computation>, k: Computation)
    requires AllBacked(m, ks)
    ensures AllBacked(m, ks + [k])
  {
    forall id | id in m ensures Backed(ks + [k], id, m[id]) {
      assert Backed(ks, id, m[id]);
      var j :| 0 <= j < |ks| && Backs(ks[j], id, m[id]);
      assert Backs((ks + [k])[j], id, m[id]);
    }
  }

  lemma LogExplains(cs: seq<Call>, ks: seq<Computation>, recheck: Duration, k: Computation)
    requires AllExplained(cs, ks, recheck)
    ensures AllExplained(cs, ks + [k], recheck)
  {
    forall i | 0 <= i < |cs| ensures Explained(ks + [k], recheck, i, cs[i]) {
      var c := cs[i];
      assert Explained(ks, recheck, i, c);
      if c.phase.Returned? {
        var j :| 0 <= j < |ks| && Explains(ks[j], i, c, c.phase.claims, recheck);
        assert Explains((ks + [k])[j], i, c, c.phase.claims, recheck);
      }
    }
  }

  lemma OwnerKeeps(w: World, i: nat, owner: Claims, stateEpoch: U64)
    requires Valid(w) && i < |w.calls|
    ensures Valid(OwnerRead(w, i, owner, stateEpoch))
  {
    var c := w.calls[i];
    var k := Computation(i, c.key, owner, c.epoch, stateEpoch, Held(w, c.key.id).epoch, c.now);
    LogBacks(w.entries, w.computed, k);
    LogExplains(w.calls, w.computed, w.recheck, k);
    PhaseKeeps(w.(computed := w.computed + [k]), i, Computed(|w.computed|));
  }

  lemma PutKeeps(w: World, m: nat, victim: KeyId)
    requires Valid(w) && m < |w.computed| && w.computed[m].stateEpoch == w.computed[m].epoch
    requires VictimOk(w, w.computed[m].key.id, victim)
    ensures var k := w.computed[m]; var e := Entry(k.epoch, k.at, Narrowed(k.owner, k.key.grant));
      Valid(w.(entries := Put(w.entries, k.key.id, e, victim)))
  {
    var k := w.computed[m];
    var e := Entry(k.epoch, k.at, Narrowed(k.owner, k.key.grant));
    PutFits(w.entries, k.key.id, e, victim);
    assert Backs(w.computed[m], k.key.id, e);
  }

  lemma KeepKeeps(w: World, i: nat, m: nat, victim: KeyId)
    requires Valid(w) && i < |w.calls| && w.calls[i].phase == Computed(m) && m < |w.computed|
    requires VictimOk(w, w.computed[m].key.id, victim)
    ensures Valid(Kept(w, i, w.computed[m], victim))
  {
    var c, k := w.calls[i], w.computed[m];
    var claims := Narrowed(k.owner, k.key.grant);
    assert Explained(w.computed, w.recheck, i, c);
    assert Explains(w.computed[m], i, c.(phase := Returned(claims)), claims, w.recheck);
    PhaseKeeps(w, i, Returned(claims));
    if k.stateEpoch == k.epoch {
      PutKeeps(SetPhase(w, i, Returned(claims)), m, victim);
    }
  }

  lemma DropKeeps(w: World, i: nat)
    requires Valid(w) && i < |w.calls|
    ensures Valid(SetPhase(w, i, Dropped).(entries := w.entries - {w.calls[i].key.id}))
  {
    PhaseKeeps(w, i, Dropped);
    RemoveKeeps(SetPhase(w, i, Dropped), w.calls[i].key.id);
  }

  lemma NextKeeps(w: World, e: Event)
    requires Valid(w)
    ensures Valid(Next(w, e))
  {
    if Next(w, e) != w {
      match e
      case Change(o, claims, bump) =>
      case Arrive(key, now, seen) =>
      case Forget(id) => RemoveKeeps(w, id);
      case Look(i) => LookKeeps(w, i);
      case Drop(i) => DropKeeps(w, i);
      case ReadState(i, usable) => PhaseKeeps(w, i, if usable then Checked(Held(w, w.calls[i].key.id).epoch) else Refused);
      case ReadOwner(i, answered) =>
        var owner := Held(w, w.calls[i].key.id).claims;
        if answered && owner.Some? {
          OwnerKeeps(w, i, owner.value, w.calls[i].phase.stateEpoch);
        } else {
          PhaseKeeps(w, i, Refused);
        }
      case Keep(i, victim) => KeepKeeps(w, i, w.calls[i].phase.computation, victim);
    }
  }

  lemma NextKeepsSettings(w: World, e: Event)
    ensures Next(w, e).recheck == w.recheck && Next(w, e).owner == w.owner
  {
  }

  lemma {:induction false} SettingsAreFixed(recheck: Duration, owner: KeyId -> Owner, es: seq<Event>)
    ensures Run(recheck, owner, es).recheck == recheck && Run(recheck, owner, es).owner == owner
  {
    if es != [] {
      SettingsAreFixed(recheck, owner, es[..|es| - 1]);
      NextKeepsSettings(Run(recheck, owner, es[..|es| - 1]), es[|es| - 1]);
    }
  }

  // ---- Epochs -------------------------------------------------------------------------------

  lemma CurrentSnoc(hs: seq<Holding>, h: Holding, o: Owner)
    ensures Current(hs + [h], o) == if h.owner == o then h else Current(hs, o)
  {
    assert (hs + [h])[..|hs|] == hs;
  }

  lemma {:induction false} CurrentIsHeld(hs: seq<Holding>, o: Owner)
    ensures Current(hs, o).owner == o
    ensures Current(hs, o).claims.Some? ==> Current(hs, o) in hs
  {
    if hs != [] {
      CurrentIsHeld(hs[..|hs| - 1], o);
    }
  }

  /** An owner's epoch never goes back. */
  predicate Ordered(hs: seq<Holding>) {
    forall h | h in hs :: h.epoch <= Current(hs, h.owner).epoch
  }

  lemma ChangeKeepsOrder(hs: seq<Holding>, o: Owner, claims: Option<Claims>, bump: bool)
    requires Ordered(hs) && (bump ==> Current(hs, o).epoch + 1 < TWO_64)
    ensures Ordered(Changed(hs, o, claims, bump))
  {
    var all := Changed(hs, o, claims, bump);
    forall h | h in all ensures h.epoch <= Current(all, h.owner).epoch {
      CurrentSnoc(hs, all[|hs|], h.owner);
    }
  }

  /** No request has seen an epoch its owner had not reached. */
  predicate AllSeen(cs: seq<Call>, hs: seq<Holding>, owner: KeyId -> Owner) {
    forall c | c in cs :: c.epoch <= Current(hs, owner(c.key.id)).epoch
  }

  /** Read from what the owner held, at or after the epoch the request saw. */
  predicate ReadFrom(k: Computation, hs: seq<Holding>, owner: KeyId -> Owner) {
    k.epoch <= k.readAt && Holding(owner(k.key.id), k.readAt, Some(k.owner)) in hs
  }

  predicate AllRead(ks: seq<Computation>, hs: seq<Holding>, owner: KeyId -> Owner) {
    forall k | k in ks :: ReadFrom(k, hs, owner)
  }

  predicate Traced(w: World) {
    && Ordered(w.holdings) && AllSeen(w.calls, w.holdings, w.owner)
    && AllRead(w.computed, w.holdings, w.owner)
  }

  lemma ChangeKeepsTrace(w: World, o: Owner, claims: Option<Claims>, bump: bool)
    requires Traced(w) && (bump ==> Current(w.holdings, o).epoch + 1 < TWO_64)
    ensures Traced(w.(holdings := Changed(w.holdings, o, claims, bump)))
  {
    var hs := Changed(w.holdings, o, claims, bump);
    ChangeKeepsOrder(w.holdings, o, claims, bump);
    forall c | c in w.calls ensures c.epoch <= Current(hs, w.owner(c.key.id)).epoch {
      CurrentSnoc(w.holdings, hs[|w.holdings|], w.owner(c.key.id));
    }
    forall k | k in w.computed ensures ReadFrom(k, hs, w.owner) {
      assert ReadFrom(k, w.holdings, w.owner);
    }
  }

  lemma PhaseKeepsTrace(w: World, i: nat, p: Phase)
    requires Traced(w) && i < |w.calls|
    ensures Traced(SetPhase(w, i, p))
  {
    var n := SetPhase(w, i, p);
    forall c | c in n.calls ensures c.epoch <= Current(w.holdings, w.owner(c.key.id)).epoch {
      var j :| 0 <= j < |n.calls| && n.calls[j] == c;
      assert w.calls[j] in w.calls && w.calls[j].epoch == c.epoch && w.calls[j].key == c.key;
    }
  }

  lemma OwnerKeepsTrace(w: World, i: nat, stateEpoch: U64)
    requires Traced(w) && i < |w.calls| && Held(w, w.calls[i].key.id).claims.Some?
    ensures Traced(OwnerRead(w, i, Held(w, w.calls[i].key.id).claims.value, stateEpoch))
  {
    var c := w.calls[i];
    var h := Held(w, c.key.id);
    CurrentIsHeld(w.holdings, w.owner(c.key.id));
    assert c in w.calls;
    var k := Computation(i, c.key, h.claims.value, c.epoch, stateEpoch, h.epoch, c.now);
    assert ReadFrom(k, w.holdings, w.owner);
    PhaseKeepsTrace(w.(computed := w.computed + [k]), i, Computed(|w.computed|));
  }

  lemma NextKeepsTrace(w: World, e: Event)
    requires Traced(w)
    ensures Traced(Next(w, e))
  {
    if Next(w, e) != w {
      match e
      case Change(o, claims, bump) => ChangeKeepsTrace(w, o, claims, bump);
      case Arrive(key, now, seen) =>
      case Forget(id) =>
      case Look(i) => PhaseKeepsTrace(w, i, Looked(w, w.calls[i]));
      case Drop(i) => PhaseKeepsTrace(w, i, Dropped);
      case ReadState(i, usable) =>
        PhaseKeepsTrace(w, i, if usable then Checked(Held(w, w.calls[i].key.id).epoch) else Refused);
      case ReadOwner(i, answered) =>
        if answered && Held(w, w.calls[i].key.id).claims.Some? {
          OwnerKeepsTrace(w, i, w.calls[i].phase.stateEpoch);
        } else {
          PhaseKeepsTrace(w, i, Refused);
        }
      case Keep(i, victim) =>
        var k := w.computed[w.calls[i].phase.computation];
        PhaseKeepsTrace(w, i, Returned(Narrowed(k.owner, k.key.grant)));
    }
  }

  lemma {:induction false} RunsAreValid(recheck: Duration, owner: KeyId -> Owner, es: seq<Event>)
    ensures Valid(Run(recheck, owner, es)) && Traced(Run(recheck, owner, es))
  {
    if es != [] {
      RunsAreValid(recheck, owner, es[..|es| - 1]);
      NextKeeps(Run(recheck, owner, es[..|es| - 1]), es[|es| - 1]);
      NextKeepsTrace(Run(recheck, owner, es[..|es| - 1]), es[|es| - 1]);
    }
  }

  // ---- Results ------------------------------------------------------------------------------

  /**
   * Every returned claim set is the owner's claims narrowed to the grant, computed for that key at the
   * same owner epoch by the request itself or less than the recheck interval before it. The owner held
   * those claims at an epoch no older than the one the request saw.
   */
  lemma ClaimsAreRecent(recheck: Duration, owner: KeyId -> Owner, es: seq<Event>, i: nat)
    requires i < |Run(recheck, owner, es).calls| && Run(recheck, owner, es).calls[i].phase.Returned?
    ensures var w := Run(recheck, owner, es); var c := w.calls[i];
      exists n | 0 <= n < |w.computed| ::
        Explains(w.computed[n], i, c, c.phase.claims, recheck) && ReadFrom(w.computed[n], w.holdings, owner)
  {
    var w := Run(recheck, owner, es);
    RunsAreValid(recheck, owner, es);
    SettingsAreFixed(recheck, owner, es);
    assert Explained(w.computed, recheck, i, w.calls[i]);
    var n :| 0 <= n < |w.computed| && Explains(w.computed[n], i, w.calls[i], w.calls[i].phase.claims, recheck);
    assert w.computed[n] in w.computed;
  }

  predicate Among(v: Bytes, c: Claims) {
    v in c.roles || v in c.scopes || v in c.groups
  }

  /** Holding number n bumped its owner's epoch, and the value is among none of the owner's claims from there on. */
  predicate RevokedAt(hs: seq<Holding>, n: nat, v: Bytes) {
    && n < |hs|
    && (forall m | 0 <= m < n && hs[m].owner == hs[n].owner :: hs[m].epoch < hs[n].epoch)
    && (forall m | n <= m < |hs| && hs[m].owner == hs[n].owner && hs[m].claims.Some? :: !Among(v, hs[m].claims.value))
  }

  /** A bump leaves every earlier holding of its owner at a smaller epoch. */
  lemma BumpIsAhead(recheck: Duration, owner: KeyId -> Owner, es: seq<Event>, o: Owner, claims: Option<Claims>, m: nat)
    requires var hs := Run(recheck, owner, es).holdings;
      m < |hs| && hs[m].owner == o && Current(hs, o).epoch + 1 < TWO_64
    ensures var hs := Run(recheck, owner, es).holdings;
      hs[m].epoch < Changed(hs, o, claims, true)[|hs|].epoch
  {
    RunsAreValid(recheck, owner, es);
    assert Run(recheck, owner, es).holdings[m] in Run(recheck, owner, es).holdings;
  }

  /** What was revoked with a bump is served to no request that saw the bump, cached or not. */
  lemma RevokedIsNotServed(recheck: Duration, owner: KeyId -> Owner, es: seq<Event>, i: nat, n: nat, v: Bytes)
    requires i < |Run(recheck, owner, es).calls| && Run(recheck, owner, es).calls[i].phase.Returned?
    requires RevokedAt(Run(recheck, owner, es).holdings, n, v)
    requires var w := Run(recheck, owner, es);
      w.holdings[n].owner == owner(w.calls[i].key.id) && w.holdings[n].epoch <= w.calls[i].epoch
    ensures !Among(v, Run(recheck, owner, es).calls[i].phase.claims)
  {
    var w := Run(recheck, owner, es);
    var c := w.calls[i];
    ClaimsAreRecent(recheck, owner, es, i);
    var j :| 0 <= j < |w.computed| && Explains(w.computed[j], i, c, c.phase.claims, recheck)
      && ReadFrom(w.computed[j], w.holdings, owner);
    var k := w.computed[j];
    var m :| 0 <= m < |w.holdings| && w.holdings[m] == Holding(owner(k.key.id), k.readAt, Some(k.owner));
    assert n <= m;
    assert !Among(v, k.owner);
    ClaimsAreHeld(k.owner, k.key.grant, v);
  }

  /** Nothing is granted that the owner did not hold when it was computed. */
  lemma ClaimsAreHeld(owner: Claims, g: Grant, v: Bytes)
    ensures v in Narrowed(owner, g).roles <==> v in owner.roles && v in g.roles
    ensures v in Narrowed(owner, g).scopes <==> v in owner.scopes && v in g.scopes
    ensures v in Narrowed(owner, g).groups <==> v in owner.groups && v in g.groups
    ensures Narrowed(owner, g).custom == owner.custom
  {
    IntersectMembers(owner.roles, g.roles);
    IntersectMembers(owner.scopes, g.scopes);
    IntersectMembers(owner.groups, g.groups);
  }

  lemma {:induction false} CacheIsBounded(recheck: Duration, owner: KeyId -> Owner, es: seq<Event>)
    ensures |Run(recheck, owner, es).entries| <= CACHE_SIZE
  {
    RunsAreValid(recheck, owner, es);
  }
}
