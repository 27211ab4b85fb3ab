/** The claims cache in memory: slices are copied in and out, so no caller shares one with the cache. */
module ClaimsCache {
  import opened Prelude
  import opened ApiKeys

  type Slice = array<Bytes>

  datatype Slices = Slices(roles: Slice, scopes: Slice, groups: Slice, custom: nat)

  datatype Slot = Slot(epoch: U64, at: Time, slices: Slices)

  ghost function Owned(s: Slot): set<Slice> {
    {s.slices.roles, s.slices.scopes, s.slices.groups}
  }

  /** The value a slot holds now. */
  ghost function Value(s: Slot): Entry
    reads Owned(s)
  {
    Entry(s.epoch, s.at,
          Claims(s.slices.roles[..], s.slices.scopes[..], s.slices.groups[..], s.slices.custom))
  }

  method CloneSlice(s: Slice) returns (c: Slice)
    ensures fresh(c) && c[..] == s[..]
  {
    c := new Bytes[s.Length](_ => []);
    for i := 0 to s.Length
      invariant c[..i] == s[..i]
    {
      c[i] := s[i];
    }
  }

  method CloneSlot(s: Slot) returns (c: Slot)
    ensures fresh(Owned(c)) && Value(c) == Value(s)
  {
    var roles := CloneSlice(s.slices.roles);
    var scopes := CloneSlice(s.slices.scopes);
    var groups := CloneSlice(s.slices.groups);
    c := Slot(s.epoch, s.at, Slices(roles, scopes, groups, s.slices.custom));
  }

  class Cache {
    var entries: map<KeyId, Slot>
    ghost var repr: set<Slice>

    ghost predicate Valid()
      reads this
    {
      forall id | id in entries :: Owned(entries[id]) <= repr
    }

    ghost function Contents(): map<KeyId, Entry>
      requires Valid()
      reads this, repr
    {
      map id | id in entries :: Value(entries[id])
    }

    constructor ()
      ensures Valid() && repr == {} && Contents() == map[]
    {
      entries, repr := map[], {};
    }

    method Get(id: KeyId) returns (e: Option<Slot>)
      requires Valid()
      ensures e.Some? <==> id in entries
      ensures e.Some? ==> Value(e.value) == Value(entries[id]) && fresh(Owned(e.value))
    {
      if id !in entries {
        return None;
      }
      var c := CloneSlot(entries[id]);
      return Some(c);
    }

    method Drop(id: KeyId)
      requires Valid()
      modifies this`entries
      ensures Valid() && entries == old(entries) - {id}
    {
      entries := entries - {id};
    }

    /** A new key in a full cache displaces some other entry. */
    method MakeRoom(id: KeyId) returns (victim: KeyId)
      requires Valid()
      modifies this`entries
      ensures Valid() && (id !in old(entries) && |old(entries)| >= CACHE_SIZE ==> victim in old(entries))
      ensures entries == if id !in old(entries) && |old(entries)| >= CACHE_SIZE then old(entries) - {victim} else old(entries)
    {
      victim := id;
      if id !in entries && |entries| >= CACHE_SIZE {
        victim :| victim in entries;
        Drop(victim);
      }
    }

    method InsertCopy(id: KeyId, e: Slot)
      requires Valid()
      modifies this
      ensures Valid() && id in entries && entries == old(entries)[id := entries[id]]
      ensures repr == old(repr) + Owned(entries[id]) && fresh(Owned(entries[id]))
      ensures Value(entries[id]) == old(Value(e))
    {
      var c := CloneSlot(e);
      entries := entries[id := c];
      repr := repr + Owned(c);
    }

    /** Keeps a copy, within the bound. */
    method PutSlot(id: KeyId, e: Slot) returns (victim: KeyId)
      requires Valid() && |entries| <= CACHE_SIZE
      modifies this
      ensures Valid() && id in entries && entries == Put(old(entries), id, entries[id], victim)
      ensures repr == old(repr) + Owned(entries[id]) && fresh(Owned(entries[id]))
      ensures Value(entries[id]) == old(Value(e)) && |entries| <= CACHE_SIZE
    {
      victim := MakeRoom(id);
      InsertCopy(id, e);
      PutFits(old(entries), id, entries[id], victim);
    }
  }

  method Fill(s: Slice, v: Bytes)
    modifies s
    ensures forall i | 0 <= i < s.Length :: s[i] == v
  {
    for i := 0 to s.Length
      invariant forall k | 0 <= k < i :: s[k] == v
    {
      s[i] := v;
    }
  }

  method Overwrite(s: Slot, v: Bytes)
    modifies Owned(s)
  {
    Fill(s.slices.roles, v);
    Fill(s.slices.scopes, v);
    Fill(s.slices.groups, v);
  }

  /** A caller that overwrites what it was given leaves the cache as it was. */
  method GetThenOverwrite(c: Cache, id: KeyId, v: Bytes)
    requires c.Valid()
    ensures c.Valid() && c.Contents() == old(c.Contents())
  {
    var e := c.Get(id);
    if e.Some? {
      Overwrite(e.value, v);
    }
  }

  /** A caller that overwrites what it handed in changes neither what the cache kept nor any other entry. */
  method PutThenOverwrite(c: Cache, id: KeyId, e: Slot, v: Bytes) returns (victim: KeyId)
    requires c.Valid() && |c.entries| <= CACHE_SIZE && Owned(e) !! c.repr
    modifies c, Owned(e)
    ensures c.Valid() && id in c.entries && Value(c.entries[id]) == old(Value(e))
    ensures c.entries == Put(old(c.entries), id, c.entries[id], victim)
    ensures forall d | d in c.entries && d != id :: d in old(c.entries) && Value(c.entries[d]) == old(c.Contents())[d]
  {
    victim := c.PutSlot(id, e);
    Overwrite(e, v);
  }
}
