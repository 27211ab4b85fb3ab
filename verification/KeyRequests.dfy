/** What an undisturbed request with an API key is answered, and that the next one is answered from the cache. */
module KeyRequests {
  import opened Prelude
  import opened ApiKeys

  /** All steps of the request that arrives next, one after the other. */
  function Request(w: World, key: Key, now: Time, seen: U64, usable: bool, answered: bool, victim: KeyId): World {
    var i := |w.calls|;
    var looked := Next(Next(w, Arrive(key, now, seen)), Look(i));
    var read := Next(Next(Next(looked, Drop(i)), ReadState(i, usable)), ReadOwner(i, answered));
    Next(read, Keep(i, victim))
  }

  predicate Cached(w: World, id: KeyId, now: Time, seen: U64) {
    && id in w.entries && w.entries[id].epoch == seen
    && w.entries[id].at <= now && Sub(now, w.entries[id].at) < w.recheck
  }

  /** Room for one more entry, once this key's own is dropped. */
  predicate VictimFits(w: World, id: KeyId, victim: KeyId) {
    |w.entries - {id}| >= CACHE_SIZE ==> victim in w.entries - {id}
  }

  lemma CachedRequest(w: World, key: Key, now: Time, seen: U64, usable: bool, answered: bool, victim: KeyId)
    requires seen <= Held(w, key.id).epoch && Cached(w, key.id, now, seen)
    ensures var n := Request(w, key, now, seen, usable, answered, victim);
      && |n.calls| == |w.calls| + 1 && n.calls[|w.calls|].phase == Returned(w.entries[key.id].claims)
      && n.entries == w.entries && n.computed == w.computed
  {
    var i := |w.calls|;
    var looked := Next(Next(w, Arrive(key, now, seen)), Look(i));
    assert looked.calls[i] == Call(key, now, seen, Returned(w.entries[key.id].claims));
    assert Next(looked, Drop(i)) == looked;
  }

  lemma UncachedLook(w: World, key: Key, now: Time, seen: U64)
    requires seen <= Held(w, key.id).epoch && !Cached(w, key.id, now, seen)
    ensures var i := |w.calls|;
      var n := Next(Next(Next(w, Arrive(key, now, seen)), Look(i)), Drop(i));
      n == w.(calls := w.calls + [Call(key, now, seen, Dropped)], entries := w.entries - {key.id})
  {
    var i := |w.calls|;
    var a := Next(w, Arrive(key, now, seen));
    var b := Next(a, Look(i));
    assert b == w.(calls := w.calls + [Call(key, now, seen, Missed)]);
  }

  /** The account is in order and the owner is known, so there are claims to compute from. */
  predicate Answerable(w: World, id: KeyId, usable: bool, answered: bool) {
    usable && answered && Held(w, id).claims.Some?
  }

  lemma RefusedRequest(w: World, key: Key, now: Time, seen: U64, usable: bool, answered: bool, victim: KeyId)
    requires seen <= Held(w, key.id).epoch && !Cached(w, key.id, now, seen) && !Answerable(w, key.id, usable, answered)
    ensures var n := Request(w, key, now, seen, usable, answered, victim);
      && |n.calls| == |w.calls| + 1 && n.calls[|w.calls|].phase == Refused
      && n.entries == w.entries - {key.id} && n.computed == w.computed
  {
    UncachedLook(w, key, now, seen);
  }

  /** The last call of a world reads the account and the owner and keeps what it computed. */
  lemma ComputedFrom(w: World, c: Call, i: nat, victim: KeyId)
    requires i == |w.calls| - 1 && w.calls[i] == c.(phase := Dropped) && c.key.id !in w.entries
    requires Held(w, c.key.id).claims.Some? && VictimOk(w, c.key.id, victim)
    ensures var held := Held(w, c.key.id);
      var k := Computation(i, c.key, held.claims.value, c.epoch, held.epoch, held.epoch, c.now);
      Next(Next(Next(w, ReadState(i, true)), ReadOwner(i, true)), Keep(i, victim)) ==
      Kept(w.(computed := w.computed + [k]), i, k, victim)
  {
    var held := Held(w, c.key.id);
    var read := Next(w, ReadState(i, true));
    assert read == SetPhase(w, i, Checked(held.epoch)) && Held(read, c.key.id) == held;
    var k := Computation(i, c.key, held.claims.value, c.epoch, held.epoch, held.epoch, c.now);
    var n := Next(read, ReadOwner(i, true));
    assert n == SetPhase(w, i, Computed(|w.computed|)).(computed := w.computed + [k]);
    assert SetPhase(n, i, Returned(Narrowed(k.owner, k.key.grant))).calls == SetPhase(w, i, Returned(Narrowed(k.owner, k.key.grant))).calls;
  }

  lemma ComputedRequest(w: World, key: Key, now: Time, seen: U64, victim: KeyId)
    requires seen <= Held(w, key.id).epoch && !Cached(w, key.id, now, seen) && Answerable(w, key.id, true, true)
    requires VictimFits(w, key.id, victim)
    ensures var n, held := Request(w, key, now, seen, true, true, victim), Held(w, key.id);
      var claims := Narrowed(held.claims.value, key.grant);
      && |n.calls| == |w.calls| + 1 && n.calls[|w.calls|].phase == Returned(claims)
      && (key.id in n.entries <==> held.epoch == seen)
      && (held.epoch == seen ==> n.entries[key.id] == Entry(seen, now, claims))
      && n.holdings == w.holdings && n.recheck == w.recheck && n.owner == w.owner
  {
    UncachedLook(w, key, now, seen);
    var c := Call(key, now, seen, Dropped);
    ComputedFrom(w.(calls := w.calls + [c], entries := w.entries - {key.id}), c, |w.calls|, victim);
  }

  /**
   * An undisturbed request gets the remembered claims when they are of the epoch it saw and not yet due for
   * a recheck. Otherwise it gets what the owner holds now, narrowed to the grant, if the account is in order,
   * and is refused if not.
   */
  lemma RequestAnswer(w: World, key: Key, now: Time, seen: U64, usable: bool, answered: bool, victim: KeyId)
    requires seen <= Held(w, key.id).epoch && VictimFits(w, key.id, victim)
    ensures var n := Request(w, key, now, seen, usable, answered, victim);
      && |n.calls| == |w.calls| + 1
      && n.calls[|w.calls|].phase ==
         if Cached(w, key.id, now, seen) then Returned(w.entries[key.id].claims)
         else if Answerable(w, key.id, usable, answered) then Returned(Narrowed(Held(w, key.id).claims.value, key.grant))
         else Refused
  {
    if Cached(w, key.id, now, seen) {
      CachedRequest(w, key, now, seen, usable, answered, victim);
    } else if Answerable(w, key.id, usable, answered) {
      ComputedRequest(w, key, now, seen, victim);
    } else {
      RefusedRequest(w, key, now, seen, usable, answered, victim);
    }
  }

  /**
   * What was computed at the current epoch answers the next request of the key within the recheck
   * interval, without another computation, even when the account can no longer be read.
   */
  lemma NextRequestIsCached(w: World, key: Key, now: Time, seen: U64, victim: KeyId, later: Time, usable: bool, answered: bool)
    requires seen == Held(w, key.id).epoch && !Cached(w, key.id, now, seen) && Answerable(w, key.id, true, true)
    requires VictimFits(w, key.id, victim) && now <= later && Sub(later, now) < w.recheck
    ensures var n := Request(w, key, now, seen, true, true, victim);
      var m := Request(n, key, later, seen, usable, answered, victim);
      && |n.calls| == |w.calls| + 1 && |m.calls| == |n.calls| + 1 && m.computed == n.computed
      && m.calls[|n.calls|].phase == n.calls[|w.calls|].phase == Returned(Narrowed(Held(w, key.id).claims.value, key.grant))
  {
    ComputedRequest(w, key, now, seen, victim);
    CachedRequest(Request(w, key, now, seen, true, true, victim), key, later, seen, usable, answered, victim);
  }
}
