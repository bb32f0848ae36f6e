/** The pipeline's registers as arrays and its control blocks as methods, proved against
    PipelineSpec. */
module Pipeline {
  import opened Addressing
  import opened CacheSpec
  import opened PipelineSpec

  class Registers {
    const tables: Tables
    const keys: array<Cell>
    const vals: array<Addr>
    const bf: array<nat>

    ghost predicate Valid() {
      keys.Length == vals.Length > 0 && bf != vals
    }

    ghost function Contents(): Regs
      reads keys, vals, bf
    {
      Regs(keys[..], vals[..], bf[..])
    }

    constructor (tables: Tables, cacheSize: nat, switchCount: nat)
      requires cacheSize > 0
      ensures Valid() && this.tables == tables && keys.Length == cacheSize && bf.Length == switchCount
      ensures FreeRegs(Contents()) && fresh(keys) && fresh(vals) && fresh(bf)
    {
      this.tables := tables;
      keys := new Cell[cacheSize](i => Cell(FREE, false));
      vals := new Addr[cacheSize](i => 0);
      bf := new nat[switchCount](i => 0);
    }

    // -------------------------------------------------------------- register actions

    method CheckKey(i: nat, k: Addr) returns (rv: bool)
      requires Valid() && i < keys.Length
      modifies keys
      ensures Contents() == Checked(old(Contents()), i, k) && rv == (old(keys[i].key) == k)
    {
      if keys[i].key == k {
        keys[i] := Cell(keys[i].key, true);
        rv := true;
      } else {
        keys[i] := Cell(keys[i].key, false);
        rv := false;
      }
    }

    method SetKey(i: nat, k: Addr) returns (rv: Addr)
      requires Valid() && i < keys.Length
      modifies keys
      ensures Contents() == KeySet(old(Contents()), i, k) && rv == old(keys[i].key)
    {
      rv := keys[i].key;
      keys[i] := Cell(k, false);
    }

    method SetKeyIfNotActive(i: nat, k: Addr) returns (rv: Addr)
      requires Valid() && i < keys.Length
      modifies keys
      ensures old(keys[i].active) ==> rv == 0 && Contents() == old(Contents())
      ensures !old(keys[i].active) ==> rv == old(keys[i].key) && Contents() == KeySet(old(Contents()), i, k)
    {
      if !keys[i].active {
        rv := keys[i].key;
        keys[i] := Cell(k, keys[i].active);
      } else {
        rv := 0;
      }
    }

    method ClearKey(i: nat, k: Addr)
      requires Valid() && i < keys.Length
      modifies keys
      ensures Contents() == Cleared(old(Contents()), i, k)
    {
      if keys[i].key == k {
        keys[i] := Cell(FREE, false);
      }
    }

    method SetVal(i: nat, v: Addr) returns (rv: Addr)
      requires Valid() && i < vals.Length
      modifies vals
      ensures Contents() == ValSet(old(Contents()), i, v) && rv == old(vals[i])
    {
      rv := vals[i];
      vals[i] := v;
    }

    method CheckTimeout(id: nat, now: nat) returns (rv: bool)
      requires Valid()
      modifies bf
      ensures Contents() == Restarted(tables, old(Contents()), id, now) && rv == Expired(old(Contents()), id, now)
    {
      rv := id < bf.Length && now > bf[id];
      if rv {
        bf[id] := (now + tables.timeout) % WRAP;
      }
    }

    // -------------------------------------------------------------- control blocks

    /** set_key and set_val one after the other, returning what the slot held. */
    method Store(i: nat, m: Mapping) returns (key: Addr, val: Addr)
      requires Valid() && i < keys.Length
      modifies keys, vals
      ensures Contents() == Stored(old(Contents()), i, m)
      ensures key == old(keys[i].key) && val == old(vals[i])
    {
      key := SetKey(i, m.key);
      val := SetVal(i, m.val);
    }

    /** The branch for gateway-bound packets. */
    method ApplyToGateway(h: Header, key: Addr, i: nat, now: nat) returns (h': Header, mirror: Option<Mirror>)
      requires Valid() && i < keys.Length
      modifies keys, bf
      ensures var r := old(Contents());
              Output(Contents(), h', mirror)
              == if tables.switchType == TOR && h.outerSrc in tables.misdelivering then Misdelivered(tables, r, h, now)
                 else Answered(tables, r, h, key, i)
    {
      h', mirror := h, None;
      if tables.switchType == TOR && h.outerSrc in tables.misdelivering {
        var generate := CheckTimeout(h.switchId, now);
        if generate {
          mirror := Some(Mirror(INVALIDATION, h.outerDst));
        }
        h' := h.(kind := INVALIDATION_TAG, key := h.innerDst);
      } else {
        var inCache := CheckKey(i, key);
        if inCache {
          if tables.switchType == SPINE {
            h' := h.(kind := EVICTION_TAG, key := h.innerDst, val := vals[i]);
          } else {
            h' := h.(outerDst := vals[i], switchId := tables.switchId);
          }
        }
      }
    }

    /** The branch of spines, and of cores for packets with an eviction tag. */
    method ApplySpill(h: Header, m: Mapping, i: nat) returns (h': Header)
      requires Valid() && i < keys.Length && tables.switchType != TOR && Spills(tables, h)
      modifies keys, vals
      ensures Output(Contents(), h', None) == PipelineSpec.Resolved(tables, old(Contents()), h, m, i, false)
    {
      h' := h;
      var prev := SetKeyIfNotActive(i, m.key);
      if prev != 0 {
        var val := SetVal(i, m.val);
        h' := h.(key := prev, val := val, kind := if prev == FREE then NORMAL else EVICTION_TAG);
      }
    }

    /** The branches for resolved packets. */
    method ApplyResolved(h: Header, m: Mapping, i: nat, coin: bool) returns (h': Header, mirror: Option<Mirror>)
      requires Valid() && i < keys.Length
      modifies keys, vals
      ensures Output(Contents(), h', mirror) == PipelineSpec.Resolved(tables, old(Contents()), h, m, i, coin)
    {
      h', mirror := h, None;
      if tables.switchType == TOR {
        var key, val := Store(i, m);
      } else if Spills(tables, h) {
        h' := ApplySpill(h, m, i);
      } else if tables.switchType == GW_TOR {
        if coin {
          mirror := Some(Mirror(LEARNING, h.outerDst));
        }
        var key, val := Store(i, m);
        h' := h.(key := key, val := val, kind := if key == FREE then NORMAL else EVICTION_TAG);
      }
    }

    /** Parser, gateway match and the cache's decision tree on one packet. */
    method Apply(h: Header, now: nat, coin: bool) returns (h': Header, mirror: Option<Mirror>)
      requires Valid()
      modifies keys, vals, bf
      ensures Output(Contents(), h', mirror) == Ingress(tables, old(Contents()), h, now, coin)
    {
      h', mirror := h, None;
      var m := Mapping(h.innerDst, h.outerDst);
      if h.kind == INVALIDATION || h.kind == LEARNING || h.kind == EVICTION_TAG {
        m := Mapping(h.key, h.val);
      }
      var toGw := h.outerDst in tables.gws;
      if !toGw && tables.switchType == TOR && (h.kind == NORMAL || h.kind == EVICTION_TAG) {
        m := Mapping(h.innerSrc, h.outerSrc);
      }
      var i := Place(tables.hash, keys.Length, m.key);
      if h.kind == LEARNING {
        var key, val := Store(i, m);
      } else if h.kind == INVALIDATION || h.kind == INVALIDATION_TAG {
        ClearKey(i, m.key);
      } else if toGw {
        h', mirror := ApplyToGateway(h, m.key, i, now);
      } else {
        h', mirror := ApplyResolved(h, m, i, coin);
      }
    }
  }
}
