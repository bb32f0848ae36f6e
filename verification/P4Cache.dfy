/** The array code of the switch cache, proved against CacheSpec. */
module P4Cache {
  import opened Addressing
  import opened CacheSpec
  import DivMod

  class Cache {
    const hash: Hash
    const pairs: array<Mapping>
    const bits: array<nat>

    ghost predicate Valid()
      reads bits
    {
      && pairs.Length == bits.Length > 0
      && forall i :: 0 <= i < bits.Length ==> bits[i] <= 1
    }

    ghost function Contents(): (c: Slots)
      reads pairs, bits
      requires Valid()
      ensures |c| == pairs.Length
      ensures forall i :: 0 <= i < |c| ==> c[i] == Slot(pairs[i].key, pairs[i].val, bits[i] == 1)
    {
      seq(pairs.Length, i requires 0 <= i < pairs.Length reads pairs, bits =>
                          Slot(pairs[i].key, pairs[i].val, bits[i] == 1))
    }

    constructor (capacity: nat, hash: Hash)
      requires capacity > 0
      ensures Valid() && Contents() == Empty(capacity) && this.hash == hash
      ensures fresh(pairs) && fresh(bits)
    {
      this.hash := hash;
      pairs, bits := new Mapping[capacity], new nat[capacity];
      new;
      for i := 0 to capacity
        invariant forall j :: 0 <= j < i ==> pairs[j] == Mapping(0, 0) && bits[j] == 0
      {
        pairs[i] := Mapping(0, 0);
        bits[i] := 0;
      }
    }

    method GetIndex(key: Addr) returns (idx: nat)
      requires Valid()
      ensures idx == Place(hash, pairs.Length, key)
    {
      DivMod.IsQuotient(hash(key), pairs.Length);
      idx := hash(key) % pairs.Length;
    }

    method Get(key: Addr) returns (found: bool, value: Addr)
      requires Valid()
      modifies bits
      ensures Valid() && Contents() == Touch(hash, old(Contents()), key)
      ensures Lookup(hash, old(Contents()), key) == if found then Some(value) else None
    {
      var idx := GetIndex(key);
      if pairs[idx].key == key && pairs[idx].val != 0 {
        found, value := true, pairs[idx].val;
        bits[idx] := 1;
      } else {
        found, value := false, 0;
        bits[idx] := 0;
      }
    }

    method GetBit(key: Addr) returns (bit: nat)
      requires Valid()
      ensures bit == if SlotOf(hash, Contents(), key).bit then 1 else 0
    {
      var idx := GetIndex(key);
      bit := bits[idx];
    }

    method Find(key: Addr) returns (found: bool)
      requires Valid()
      ensures found <==> Lookup(hash, Contents(), key).Some?
    {
      var idx := GetIndex(key);
      found := pairs[idx].key == key && pairs[idx].val != 0;
    }

    method PutIfNotEvict(key: Addr, val: Addr) returns (stored: bool)
      requires Valid()
      modifies pairs
      ensures Valid() && Contents() == CacheSpec.PutIfNotEvict(hash, old(Contents()), key, val)
      ensures stored <==> Evicted(hash, old(Contents()), key).None?
    {
      var idx := GetIndex(key);
      if pairs[idx].key != 0 && pairs[idx].key != key {
        return false;
      }
      pairs[idx] := Mapping(key, val);
      stored := true;
    }

    method Put(key: Addr, val: Addr) returns (evicted: Option<Mapping>)
      requires Valid()
      modifies pairs, bits
      ensures Valid() && Contents() == CacheSpec.Put(hash, old(Contents()), key, val)
      ensures evicted == Evicted(hash, old(Contents()), key)
    {
      var idx := GetIndex(key);
      evicted := None;
      if pairs[idx].key != 0 && pairs[idx].key != key {
        evicted := Some(pairs[idx]);
      }
      pairs[idx] := Mapping(key, val);
      bits[idx] := 0;
    }

    /** Called only for a key the slot stores, as the source asserts. */
    method Remove(key: Addr)
      requires Valid()
      requires SlotOf(hash, Contents(), key).key == key
      modifies pairs, bits
      ensures Valid() && Contents() == CacheSpec.Remove(hash, old(Contents()), key)
    {
      var idx := GetIndex(key);
      pairs[idx] := Mapping(0, 0);
      bits[idx] := 0;
    }
  }
}
