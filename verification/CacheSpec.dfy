/** The direct-mapped address cache of a switch: what each operation means as a function of the
    slots, and what those functions guarantee. */
module CacheSpec {
  import opened Addressing
  import opened Lists
  import DivMod

  datatype Option<+T> = None | Some(value: T)

  /** A virtual address with the physical address it is believed to live at. */
  datatype Mapping = Mapping(key: Addr, val: Addr)

  /** One slot. Key 0 marks a slot the eviction test takes for empty, value 0 an entry that a
      lookup never returns; the bit is the access bit. */
  datatype Slot = Slot(key: Addr, val: Addr, bit: bool)

  type Hash = Addr -> nat

  type Slots = s: seq<Slot> | |s| > 0 witness [Slot(0, 0, false)]

  /** The slot of a key: the hash modulo the number of slots. */
  function Place(h: Hash, n: nat, key: Addr): (i: nat)
    requires n > 0
    ensures i < n
  {
    DivMod.Column(h(key), n)
  }

  function SlotOf(h: Hash, c: Slots, key: Addr): Slot {
    c[Place(h, |c|, key)]
  }

  function Store(h: Hash, c: Slots, key: Addr, s: Slot): (c': Slots)
    ensures |c'| == |c|
  {
    c[Place(h, |c|, key) := s]
  }

  // ---------------------------------------------------------------- operations

  function Lookup(h: Hash, c: Slots, key: Addr): Option<Addr> {
    var s := SlotOf(h, c, key);
    if s.key == key && s.val != 0 then Some(s.val) else None
  }

  /** The effect of Get: the slot's access bit records whether the lookup hit. */
  function Touch(h: Hash, c: Slots, key: Addr): (c': Slots)
    ensures |c'| == |c|
  {
    Store(h, c, key, SlotOf(h, c, key).(bit := Lookup(h, c, key).Some?))
  }

  function Put(h: Hash, c: Slots, key: Addr, val: Addr): (c': Slots)
    ensures |c'| == |c|
  {
    Store(h, c, key, Slot(key, val, false))
  }

  /** What Put reports as evicted. */
  function Evicted(h: Hash, c: Slots, key: Addr): Option<Mapping> {
    var s := SlotOf(h, c, key);
    if s.key != 0 && s.key != key then Some(Mapping(s.key, s.val)) else None
  }

  function PutIfNotEvict(h: Hash, c: Slots, key: Addr, val: Addr): (c': Slots)
    ensures |c'| == |c|
  {
    if Evicted(h, c, key).Some? then c
    else Store(h, c, key, Slot(key, val, SlotOf(h, c, key).bit))
  }

  function Remove(h: Hash, c: Slots, key: Addr): (c': Slots)
    ensures |c'| == |c|
  {
    Store(h, c, key, Slot(0, 0, false))
  }

  // ---------------------------------------------------------------- what they guarantee

  predicate Collide(h: Hash, n: nat, a: Addr, b: Addr)
    requires n > 0
  {
    Place(h, n, a) == Place(h, n, b)
  }

  /** Every later lookup after a Put: the new key answers, a colliding key is gone, all other
      keys answer as before. */
  lemma {:induction false} PutExact(h: Hash, c: Slots, key: Addr, val: Addr, other: Addr)
    ensures Lookup(h, Put(h, c, key, val), other)
         == if other == key then (if val != 0 then Some(val) else None)
            else if Collide(h, |c|, key, other) then None
            else Lookup(h, c, other)
  {
  }

  lemma {:induction false} PutIfNotEvictExact(h: Hash, c: Slots, key: Addr, val: Addr, other: Addr)
    ensures Lookup(h, PutIfNotEvict(h, c, key, val), other)
         == if Evicted(h, c, key).Some? || !Collide(h, |c|, key, other) then Lookup(h, c, other)
            else if other == key && val != 0 then Some(val)
            else None
  {
  }

  lemma {:induction false} RemoveExact(h: Hash, c: Slots, key: Addr, other: Addr)
    ensures Lookup(h, Remove(h, c, key), other)
         == if Collide(h, |c|, key, other) then None else Lookup(h, c, other)
  {
  }

  lemma {:induction false} TouchExact(h: Hash, c: Slots, key: Addr, other: Addr)
    ensures Lookup(h, Touch(h, c, key), other) == Lookup(h, c, other)
  {
  }

  /** Whether a mapping is stored where a lookup would find it. */
  predicate Holds(h: Hash, c: Slots, m: Mapping) {
    Lookup(h, c, m.key) == Some(m.val)
  }

  /** Put loses a stored mapping without reporting it exactly when the slot holds virtual
      address 0, which the eviction test takes for an empty slot, and another key moves in. */
  lemma {:induction false} PutReportsItsLossExceptKeyZero(h: Hash, c: Slots, key: Addr, val: Addr)
    ensures (forall m :: Holds(h, c, m) && !Holds(h, Put(h, c, key, val), m) && m.key != key ==>
                         Evicted(h, c, key) == Some(m))
       <==> !(SlotOf(h, c, key).key == 0 && SlotOf(h, c, key).val != 0 && key != 0 && Collide(h, |c|, key, 0))
  {
    var s := SlotOf(h, c, key);
    var c' := Put(h, c, key, val);
    forall m | Holds(h, c, m) && m.key != key
      ensures !Holds(h, c', m) <==> Collide(h, |c|, key, m.key)
    {
      PutExact(h, c, key, val, m.key);
    }
    if s.key == 0 && s.val != 0 && key != 0 && Collide(h, |c|, key, 0) {
      var m := Mapping(0, s.val);
      assert Holds(h, c, m) && !Holds(h, c', m) && Evicted(h, c, key) == None;
    }
  }

  /** PutIfNotEvict loses a stored mapping in exactly the same case, against its name. */
  lemma {:induction false} PutIfNotEvictKeepsAllExceptKeyZero(h: Hash, c: Slots, key: Addr, val: Addr)
    ensures (forall m :: Holds(h, c, m) && m.key != key ==> Holds(h, PutIfNotEvict(h, c, key, val), m))
       <==> !(SlotOf(h, c, key).key == 0 && SlotOf(h, c, key).val != 0 && key != 0 && Collide(h, |c|, key, 0))
  {
    var s := SlotOf(h, c, key);
    var c' := PutIfNotEvict(h, c, key, val);
    forall m | Holds(h, c, m) && m.key != key
      ensures Holds(h, c', m) <==> Evicted(h, c, key).Some? || !Collide(h, |c|, key, m.key)
    {
      PutIfNotEvictExact(h, c, key, val, m.key);
    }
    if s.key == 0 && s.val != 0 && key != 0 && Collide(h, |c|, key, 0) {
      var m := Mapping(0, s.val);
      assert Holds(h, c, m) && m.key != key && !Holds(h, c', m);
    }
  }

  /** The failing family is inhabited: with one slot, storing address 5 over address 0 loses
      the mapping of address 0 unreported. */
  lemma {:induction false} KeyZeroIsLost()
    ensures var h: Hash := (k: Addr) => 0;
            var c: Slots := [Slot(0, 9, false)];
            && Holds(h, c, Mapping(0, 9)) && Evicted(h, c, 5) == None
            && !Holds(h, Put(h, c, 5, 7), Mapping(0, 9)) && !Holds(h, PutIfNotEvict(h, c, 5, 7), Mapping(0, 9))
  {
  }

  // ---------------------------------------------------------------- access bits over histories

  datatype Op =
    | OpGet(key: Addr)
    | OpPut(key: Addr, val: Addr)
    | OpPutIfNotEvict(key: Addr, val: Addr)
    | OpRemove(key: Addr)

  function Apply(h: Hash, c: Slots, op: Op): (c': Slots)
    ensures |c'| == |c|
  {
    match op
    case OpGet(k) => Touch(h, c, k)
    case OpPut(k, v) => Put(h, c, k, v)
    case OpPutIfNotEvict(k, v) => PutIfNotEvict(h, c, k, v)
    case OpRemove(k) => Remove(h, c, k)
  }

  function Empty(n: nat): (c: Slots)
    requires n > 0
    ensures |c| == n
  {
    seq(n, (i: nat) => Slot(0, 0, false))
  }

  /** The cache after a history of operations on an empty cache of n slots. */
  function After(h: Hash, n: nat, ops: List<Op>): (c: Slots)
    requires n > 0
    ensures |c| == n
  {
    match ops
    case Nil => Empty(n)
    case Snoc(before, op) => Apply(h, After(h, n, before), op)
  }

  /** The key whose hit was the last Get, Put or Remove on slot i, if it was a hit. */
  function LastHit(h: Hash, n: nat, ops: List<Op>, i: nat): Option<Addr>
    requires n > 0
  {
    match ops
    case Nil => None
    case Snoc(before, op) =>
      if op.OpPutIfNotEvict? || Place(h, n, op.key) != i then LastHit(h, n, before, i)
      else if op.OpGet? && Lookup(h, After(h, n, before), op.key).Some? then Some(op.key)
      else None
  }

  predicate NonzeroKeys(ops: List<Op>) {
    match ops
    case Nil => true
    case Snoc(before, op) => op.key != 0 && NonzeroKeys(before)
  }

  /** What a slot and the last hit on it have to do with each other. */
  predicate BitMatches(h: Hash, n: nat, s: Slot, i: nat, last: Option<Addr>)
    requires n > 0
  {
    && (s.bit <==> last.Some?)
    && (s.bit ==> last == Some(s.key) && s.key != 0)
    && (s.key != 0 ==> Place(h, n, s.key) == i)
  }

  /** Slot i is not that of key 0, or key 0 is never used. */
  predicate NotKeyZero(h: Hash, n: nat, ops: List<Op>, i: nat)
    requires n > 0
  {
    Place(h, n, 0) != i || NonzeroKeys(ops)
  }

  lemma {:induction false} BitStep(h: Hash, c: Slots, op: Op, i: nat, last: Option<Addr>)
    requires i < |c| && BitMatches(h, |c|, c[i], i, last) && (Place(h, |c|, 0) != i || op.key != 0)
    ensures BitMatches(h, |c|, Apply(h, c, op)[i], i,
                       if op.OpPutIfNotEvict? || Place(h, |c|, op.key) != i then last
                       else if op.OpGet? && Lookup(h, c, op.key).Some? then Some(op.key)
                       else None)
  {
  }

  /** Over every history, except in the slot of key 0 if that key is used, a slot's access bit is set
      exactly when the last Get, Put or Remove on it was a hit, and then the slot still stores that
      very key. */
  lemma {:induction false} AccessBitRemembersLastHit(h: Hash, n: nat, ops: List<Op>, i: nat)
    requires n > 0 && i < n && NotKeyZero(h, n, ops, i)
    ensures BitMatches(h, n, After(h, n, ops)[i], i, LastHit(h, n, ops, i))
  {
    match ops
    case Nil =>
    case Snoc(before, op) =>
      AccessBitRemembersLastHit(h, n, before, i);
      BitStep(h, After(h, n, before), op, i, LastHit(h, n, before, i));
  }

  /** In the slot of key 0 it fails: after a hit on key 0, PutIfNotEvict takes the slot for empty and
      leaves an entry marked active that was never hit. */
  lemma {:induction false} KeyZeroLeavesItsBit()
    ensures var h: Hash := (k: Addr) => 0;
            var ops := Snoc(Snoc(Snoc(Nil, OpPut(0, 9)), OpGet(0)), OpPutIfNotEvict(5, 7));
            After(h, 1, ops)[0] == Slot(5, 7, true) && LastHit(h, 1, ops, 0) == Some(0)
  {
    var h: Hash := (k: Addr) => 0;
    var stored := Put(h, Empty(1), 0, 9);
    assert stored[0] == Slot(0, 9, false);
    assert Touch(h, stored, 0)[0] == Slot(0, 9, true);
  }

  predicate NonzeroValues(ops: List<Op>) {
    match ops
    case Nil => true
    case Snoc(before, op) => (op.OpPut? || op.OpPutIfNotEvict? ==> op.val != 0) && NonzeroValues(before)
  }

  /** If no value stored is 0, that key's value is live, so the entry is still found. */
  lemma {:induction false} LastHitIsLive(h: Hash, n: nat, ops: List<Op>, i: nat)
    requires n > 0 && i < n && NotKeyZero(h, n, ops, i) && NonzeroValues(ops)
    ensures After(h, n, ops)[i].key != 0 <==> After(h, n, ops)[i].val != 0
    ensures After(h, n, ops)[i].bit ==>
              Lookup(h, After(h, n, ops), After(h, n, ops)[i].key) == Some(After(h, n, ops)[i].val)
  {
    AccessBitRemembersLastHit(h, n, ops, i);
    match ops
    case Nil =>
    case Snoc(before, op) =>
      LastHitIsLive(h, n, before, i);
  }
}
