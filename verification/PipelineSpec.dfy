/** The register pipeline: the same cache on a programmable switch. One packet passes parser,
    decision tree, mirroring and egress; keys and values live in two register arrays. */
module PipelineSpec {
  import opened Addressing
  import opened CacheSpec

  datatype Kind = NORMAL | INVALIDATION_TAG | EVICTION_TAG | INVALIDATION | LEARNING | UNKNOWN

  datatype SwitchType = TOR | GW_TOR | SPINE | GW_SPINE | CORE

  /** The protocol header with the addresses around it. */
  datatype Header = Header(kind: Kind, switchId: nat, key: Addr, val: Addr,
                           innerSrc: Addr, innerDst: Addr, outerSrc: Addr, outerDst: Addr)

  /** An entry of the key register; key 1 marks a free one. */
  datatype Cell = Cell(key: Addr, active: bool)

  const FREE: Addr := 1

  /** The registers: keys and values are equally long. */
  datatype Regs = Regs(keys: seq<Cell>, vals: seq<Addr>, bf: seq<nat>)

  predicate Sized(r: Regs) {
    |r.keys| == |r.vals| > 0
  }

  /** What the tables hold, and the hash both index computations use. */
  datatype Tables = Tables(switchType: SwitchType, switchId: nat, gws: set<Addr>, misdelivering: set<Addr>,
                           srcToTor: Addr -> Addr, idToDst: nat -> Addr, timeout: nat, hash: Hash)

  const WRAP: nat := 0x1_0000_0000

  // ---------------------------------------------------------------- parser

  /** The key and value the pipeline works on. */
  function Parsed(h: Header): Mapping {
    if h.kind == INVALIDATION || h.kind == LEARNING || h.kind == EVICTION_TAG then Mapping(h.key, h.val)
    else Mapping(h.innerDst, h.outerDst)
  }

  predicate ToGw(t: Tables, h: Header) {
    h.outerDst in t.gws
  }

  /** A leaf works on the packet's source instead, once it is resolved. */
  predicate LearnsSource(t: Tables, h: Header) {
    !ToGw(t, h) && t.switchType == TOR && (h.kind == NORMAL || h.kind == EVICTION_TAG)
  }

  function Subject(t: Tables, h: Header): Mapping {
    if LearnsSource(t, h) then Mapping(h.innerSrc, h.outerSrc) else Parsed(h)
  }

  function IndexFor(t: Tables, r: Regs, key: Addr): (i: nat)
    requires Sized(r)
    ensures i < |r.keys|
  {
    Place(t.hash, |r.keys|, key)
  }

  // ---------------------------------------------------------------- register actions

  function Checked(r: Regs, i: nat, k: Addr): Regs
    requires i < |r.keys|
  {
    r.(keys := r.keys[i := Cell(r.keys[i].key, r.keys[i].key == k)])
  }

  function KeySet(r: Regs, i: nat, k: Addr): Regs
    requires i < |r.keys|
  {
    r.(keys := r.keys[i := Cell(k, false)])
  }

  function Cleared(r: Regs, i: nat, k: Addr): Regs
    requires i < |r.keys|
  {
    if r.keys[i].key == k then r.(keys := r.keys[i := Cell(FREE, false)]) else r
  }

  function ValSet(r: Regs, i: nat, v: Addr): Regs
    requires i < |r.vals|
  {
    r.(vals := r.vals[i := v])
  }

  /** set_key followed by set_val. */
  function Stored(r: Regs, i: nat, m: Mapping): Regs
    requires i < |r.keys| && i < |r.vals|
  {
    ValSet(KeySet(r, i, m.key), i, m.val)
  }

  // ---------------------------------------------------------------- the decision tree

  datatype Mirror = Mirror(kind: Kind, val: Addr)

  datatype Output = Output(regs: Regs, hdr: Header, mirror: Option<Mirror>)

  /** The header that takes the previous entry of a slot along. */
  function Taking(h: Header, prev: Cell, val: Addr): Header {
    h.(key := prev.key, val := val, kind := if prev.key == FREE then NORMAL else EVICTION_TAG)
  }

  predicate Expired(r: Regs, id: nat, now: nat) {
    id < |r.bf| && now > r.bf[id]
  }

  function Restarted(t: Tables, r: Regs, id: nat, now: nat): Regs {
    if Expired(r, id, now) then r.(bf := r.bf[id := (now + t.timeout) % WRAP]) else r
  }

  /** A gateway-bound packet from a machine that misdelivers, at its leaf. */
  function Misdelivered(t: Tables, r: Regs, h: Header, now: nat): Output {
    Output(Restarted(t, r, h.switchId, now), h.(kind := INVALIDATION_TAG, key := h.innerDst),
           if Expired(r, h.switchId, now) then Some(Mirror(INVALIDATION, h.outerDst)) else None)
  }

  function Answered(t: Tables, r: Regs, h: Header, key: Addr, i: nat): Output
    requires i < |r.keys| && i < |r.vals|
  {
    var r' := Checked(r, i, key);
    if r.keys[i].key != key then Output(r', h, None)
    else if t.switchType == SPINE then
      Output(r', h.(kind := EVICTION_TAG, key := h.innerDst, val := r.vals[i]), None)
    else Output(r', h.(outerDst := r.vals[i], switchId := t.switchId), None)
  }

  predicate Spills(t: Tables, h: Header) {
    (t.switchType == CORE && h.kind == EVICTION_TAG) || t.switchType == SPINE || t.switchType == GW_SPINE
  }

  function Resolved(t: Tables, r: Regs, h: Header, m: Mapping, i: nat, coin: bool): Output
    requires i < |r.keys| && i < |r.vals|
  {
    if t.switchType == TOR then Output(Stored(r, i, m), h, None)
    else if Spills(t, h) then
      if r.keys[i].active || r.keys[i].key == 0 then
        Output(if r.keys[i].active then r else KeySet(r, i, m.key), h, None)
      else Output(Stored(r, i, m), Taking(h, r.keys[i], r.vals[i]), None)
    else if t.switchType == GW_TOR then
      Output(Stored(r, i, m), Taking(h, r.keys[i], r.vals[i]),
             if coin then Some(Mirror(LEARNING, h.outerDst)) else None)
    else Output(r, h, None)
  }

  /** The ingress pipeline on one packet. */
  function Ingress(t: Tables, r: Regs, h: Header, now: nat, coin: bool): Output
    requires Sized(r)
  {
    var m := Subject(t, h);
    var i := IndexFor(t, r, m.key);
    if h.kind == LEARNING then Output(Stored(r, i, m), h, None)
    else if h.kind == INVALIDATION || h.kind == INVALIDATION_TAG then Output(Cleared(r, i, m.key), h, None)
    else if ToGw(t, h) then
      if t.switchType == TOR && h.outerSrc in t.misdelivering then Misdelivered(t, r, h, now)
      else Answered(t, r, h, m.key, i)
    else Resolved(t, r, h, m, i, coin)
  }

  /** Egress rewrites a mirrored copy into a switch-to-switch packet. */
  function Egress(t: Tables, h: Header, mirror: Mirror): Header {
    match mirror.kind
    case INVALIDATION => h.(kind := INVALIDATION, key := h.innerDst, outerDst := t.idToDst(h.switchId))
    case LEARNING => h.(kind := LEARNING, key := h.innerDst, val := mirror.val, outerDst := t.srcToTor(h.outerSrc))
    case _ => h
  }

  // ---------------------------------------------------------------- coherence

  /** The directory: which machine each container is on. No address is 0 or 1. */
  ghost predicate Addresses(truth: iset<Mapping>) {
    forall m :: m in truth ==> m.key > 1 && m.val > 1
  }

  ghost predicate CellOk(h: Hash, n: nat, c: Cell, v: Addr, i: nat, truth: iset<Mapping>)
    requires n > 0
  {
    (c.key == FREE && !c.active) || (Mapping(c.key, v) in truth && Place(h, n, c.key) == i)
  }

  /** Every slot is free or holds a true pair at its key's index. */
  ghost predicate RegsOk(h: Hash, r: Regs, truth: iset<Mapping>) {
    Sized(r) && forall i :: 0 <= i < |r.keys| ==> CellOk(h, |r.keys|, r.keys[i], r.vals[i], i, truth)
  }

  predicate SwitchToSwitch(h: Header) {
    h.kind == LEARNING || h.kind == INVALIDATION
  }

  /** What a packet may claim: eviction tags and learning packets are true pairs; a data packet is
      bound to a gateway or to its destination's machine and names its own machine as source; and a
      gateway-bound eviction tag is about the packet's own destination. */
  ghost predicate HeaderOk(gws: set<Addr>, h: Header, truth: iset<Mapping>) {
    && (h.kind == EVICTION_TAG || h.kind == LEARNING ==> Mapping(h.key, h.val) in truth)
    && (!SwitchToSwitch(h) ==>
          && Mapping(h.innerSrc, h.outerSrc) in truth
          && h.innerDst > 1
          && (h.outerDst in gws || Mapping(h.innerDst, h.outerDst) in truth)
          && (h.outerDst in gws && h.kind == EVICTION_TAG ==> h.key == h.innerDst))
  }

  lemma {:induction false} SlotOk(h: Hash, r: Regs, i: nat, truth: iset<Mapping>)
    requires RegsOk(h, r, truth) && i < |r.keys|
    ensures CellOk(h, |r.keys|, r.keys[i], r.vals[i], i, truth)
  {
  }

  lemma {:induction false} StoredOk(h: Hash, r: Regs, m: Mapping, truth: iset<Mapping>)
    requires RegsOk(h, r, truth) && m in truth
    ensures RegsOk(h, Stored(r, Place(h, |r.keys|, m.key), m), truth)
  {
  }

  lemma {:induction false} ClearedOk(h: Hash, r: Regs, i: nat, k: Addr, truth: iset<Mapping>)
    requires RegsOk(h, r, truth) && i < |r.keys|
    ensures RegsOk(h, Cleared(r, i, k), truth)
  {
  }

  lemma {:induction false} CheckedOk(h: Hash, r: Regs, i: nat, k: Addr, truth: iset<Mapping>)
    requires RegsOk(h, r, truth) && i < |r.keys| && k != FREE
    ensures RegsOk(h, Checked(r, i, k), truth)
  {
  }

  ghost predicate OutputOk(t: Tables, before: Header, o: Output, truth: iset<Mapping>) {
    && RegsOk(t.hash, o.regs, truth)
    && HeaderOk(t.gws, o.hdr, truth)
    && (o.mirror.Some? ==> HeaderOk(t.gws, Egress(t, before, o.mirror.value), truth))
  }

  lemma {:induction false} LookupKeepsOk(t: Tables, r: Regs, h: Header, truth: iset<Mapping>)
    requires Addresses(truth) && RegsOk(t.hash, r, truth) && HeaderOk(t.gws, h, truth)
    requires ToGw(t, h) && !SwitchToSwitch(h)
    ensures var k := Parsed(h).key;
            k == h.innerDst && OutputOk(t, h, Answered(t, r, h, k, IndexFor(t, r, k)), truth)
  {
    var i := IndexFor(t, r, h.innerDst);
    CheckedOk(t.hash, r, i, h.innerDst, truth);
    SlotOk(t.hash, r, i, truth);
  }

  lemma {:induction false} ResolvedKeepsOk(t: Tables, r: Regs, h: Header, m: Mapping, coin: bool, truth: iset<Mapping>)
    requires Addresses(truth) && RegsOk(t.hash, r, truth) && HeaderOk(t.gws, h, truth)
    requires !ToGw(t, h) && !SwitchToSwitch(h) && m in truth
    ensures OutputOk(t, h, Resolved(t, r, h, m, IndexFor(t, r, m.key), coin), truth)
  {
    var i := IndexFor(t, r, m.key);
    StoredOk(t.hash, r, m, truth);
    SlotOk(t.hash, r, i, truth);
  }

  /** One packet through the pipeline keeps registers, packet and mirrored copy true, in every
      switch type, for every packet type, and whatever the coin, clock and misdelivery table. */
  lemma {:induction false} PipelineKeepsTruth(t: Tables, r: Regs, h: Header, now: nat, coin: bool, truth: iset<Mapping>)
    requires Addresses(truth) && RegsOk(t.hash, r, truth) && HeaderOk(t.gws, h, truth)
    ensures OutputOk(t, h, Ingress(t, r, h, now, coin), truth)
  {
    var m := Subject(t, h);
    var i := IndexFor(t, r, m.key);
    if h.kind == LEARNING {
      StoredOk(t.hash, r, m, truth);
    } else if h.kind == INVALIDATION || h.kind == INVALIDATION_TAG {
      ClearedOk(t.hash, r, i, m.key, truth);
    } else if ToGw(t, h) {
      LookupKeepsOk(t, r, h, truth);
    } else {
      ResolvedKeepsOk(t, r, h, m, coin, truth);
    }
  }

  // ---------------------------------------------------------------- the same cache

  /** The slots of the direct-mapped cache that the registers stand for. */
  function SlotAt(r: Regs, i: nat): Slot
    requires i < |r.keys| && i < |r.vals|
  {
    if r.keys[i].key == FREE then Slot(0, 0, false) else Slot(r.keys[i].key, r.vals[i], r.keys[i].active)
  }

  ghost predicate Represents(r: Regs, c: Slots) {
    Sized(r) && |c| == |r.keys| && forall i :: 0 <= i < |c| ==> c[i] == SlotAt(r, i)
  }

  /** The register actions do to the cache what the simulator's operations do: check_key is Get,
      set_key with set_val is Put, and clear_key is Remove of a key that is stored; a check succeeds
      exactly when the lookup does, and get_val then returns its value. */
  lemma {:induction false} RegistersRefineCache(h: Hash, r: Regs, c: Slots, k: Addr, v: Addr, truth: iset<Mapping>)
    requires Addresses(truth) && RegsOk(h, r, truth) && Represents(r, c) && k > 1
    ensures var i := Place(h, |r.keys|, k);
            && Represents(Checked(r, i, k), Touch(h, c, k))
            && Represents(Stored(r, i, Mapping(k, v)), Put(h, c, k, v))
            && Represents(Cleared(r, i, k), if Lookup(h, c, k).Some? then Remove(h, c, k) else c)
            && Lookup(h, c, k) == (if r.keys[i].key == k then Some(r.vals[i]) else None)
  {
    var i := Place(h, |r.keys|, k);
    SlotOk(h, r, i, truth);
    assert c[i] == SlotAt(r, i);
  }

  /** What a spilling switch tags the packet with is what Put evicts, except that the pipeline also
      reports an entry it overwrites with the same key, where Put reports nothing. */
  lemma {:induction false} TagIsEviction(t: Tables, r: Regs, c: Slots, h: Header, m: Mapping, coin: bool,
                                         truth: iset<Mapping>)
    requires Addresses(truth) && RegsOk(t.hash, r, truth) && Represents(r, c) && m in truth
    requires Spills(t, h) && t.switchType != TOR
    ensures var i := Place(t.hash, |r.keys|, m.key);
            var o := Resolved(t, r, h, m, i, coin);
            if r.keys[i].active then Represents(o.regs, c) && o.hdr == h
            else
              && Represents(o.regs, Put(t.hash, c, m.key, m.val))
              && (r.keys[i].key != m.key ==>
                    Evicted(t.hash, c, m.key)
                    == if o.hdr.kind == EVICTION_TAG then Some(Mapping(o.hdr.key, o.hdr.val)) else None)
              && (r.keys[i].key == m.key ==> Evicted(t.hash, c, m.key) == None && o.hdr.kind == EVICTION_TAG)
  {
    var i := Place(t.hash, |r.keys|, m.key);
    SlotOk(t.hash, r, i, truth);
    assert c[i] == SlotAt(r, i);
    RegistersRefineCache(t.hash, r, c, m.key, m.val, truth);
  }

  /** What the pipeline does to the cache, in the simulator's operations. */
  function CacheAfter(t: Tables, c: Slots, h: Header): Slots {
    var m := Subject(t, h);
    if h.kind == LEARNING then Put(t.hash, c, h.key, h.val)
    else if h.kind == INVALIDATION || h.kind == INVALIDATION_TAG then
      if Lookup(t.hash, c, m.key).Some? then Remove(t.hash, c, m.key) else c
    else if ToGw(t, h) then
      if t.switchType == TOR && h.outerSrc in t.misdelivering then c else Touch(t.hash, c, h.innerDst)
    else if t.switchType == TOR || t.switchType == GW_TOR then Put(t.hash, c, m.key, m.val)
    else if Spills(t, h) && !SlotOf(t.hash, c, m.key).bit then Put(t.hash, c, m.key, m.val)
    else c
  }

  /** The pipeline refines the cache: for every packet the registers afterwards stand for the cache
      after the corresponding operation; a gateway-bound packet that hits is redirected to the
      looked-up machine with the switch's id, or tagged at a spine, and any other keeps its
      destination. */
  lemma {:induction false} PipelineRefinesCache(t: Tables, r: Regs, c: Slots, h: Header, now: nat, coin: bool,
                                                truth: iset<Mapping>)
    requires Addresses(truth) && RegsOk(t.hash, r, truth) && Represents(r, c) && HeaderOk(t.gws, h, truth)
    requires h.kind == INVALIDATION ==> h.key > 1
    ensures var o := Ingress(t, r, h, now, coin);
            var known := Lookup(t.hash, c, h.innerDst);
            var asks := ToGw(t, h) && !SwitchToSwitch(h) && h.kind != INVALIDATION_TAG
                        && !(t.switchType == TOR && h.outerSrc in t.misdelivering);
            && Represents(o.regs, CacheAfter(t, c, h))
            && (asks && known.Some? && t.switchType == SPINE ==>
                  o.hdr == h.(kind := EVICTION_TAG, key := h.innerDst, val := known.value))
            && (asks && known.Some? && t.switchType != SPINE ==>
                  o.hdr == h.(outerDst := known.value, switchId := t.switchId))
            && (!(asks && known.Some?) ==> o.hdr.outerDst == h.outerDst && o.hdr.switchId == h.switchId)
  {
    var m := Subject(t, h);
    RegistersRefineCache(t.hash, r, c, m.key, m.val, truth);
    var i := IndexFor(t, r, m.key);
    SlotOk(t.hash, r, i, truth);
    assert c[i] == SlotAt(r, i);
  }

  /** When a packet is mirrored: a resolved one at a gateway leaf if the coin says so, and a
      gateway-bound one of a misdelivering machine at its leaf if the timer has expired. */
  predicate Mirrors(t: Tables, r: Regs, h: Header, now: nat, coin: bool) {
    h.kind != INVALIDATION_TAG &&
    if ToGw(t, h) then t.switchType == TOR && h.outerSrc in t.misdelivering && Expired(r, h.switchId, now)
    else t.switchType == GW_TOR && coin
  }

  /** What a mirrored copy brings about at any switch it comes to: a learning copy, sent to the
      sender's leaf, makes lookups of the packet's destination answer with its machine; an
      invalidation copy, sent to the switch that caused the hit, makes them fail. */
  lemma {:induction false} MirroredCopyActs(t: Tables, r: Regs, h: Header, now: nat, coin: bool,
                                            t': Tables, r': Regs, c': Slots, now': nat, coin': bool,
                                              truth: iset<Mapping>)
    requires Addresses(truth) && RegsOk(t.hash, r, truth) && HeaderOk(t.gws, h, truth) && !SwitchToSwitch(h)
    requires RegsOk(t'.hash, r', truth) && Represents(r', c') && t'.gws == t.gws
    ensures var o := Ingress(t, r, h, now, coin);
            && (o.mirror.Some? <==> Mirrors(t, r, h, now, coin))
            && (o.mirror.Some? ==>
                  var copy := Egress(t, h, o.mirror.value);
                  var after := CacheAfter(t', c', copy);
                  && copy.outerDst == (if ToGw(t, h) then t.idToDst(h.switchId) else t.srcToTor(h.outerSrc))
                  && Represents(Ingress(t', r', copy, now', coin').regs, after)
                  && Lookup(t'.hash, after, h.innerDst) == if ToGw(t, h) then None else Some(h.outerDst))
  {
    var o := Ingress(t, r, h, now, coin);
    if o.mirror.Some? {
      var copy := Egress(t, h, o.mirror.value);
      PipelineKeepsTruth(t, r, h, now, coin, truth);
      PipelineRefinesCache(t', r', c', copy, now', coin', truth);
      PutExact(t'.hash, c', h.innerDst, h.outerDst, h.innerDst);
      RemoveExact(t'.hash, c', h.innerDst, h.innerDst);
    }
  }

  // ---------------------------------------------------------------- what each switch does, cell by cell

  /** After a store of m, its slot holds it, idle, and every other slot is as before. */
  ghost predicate Holding(t: Tables, r: Regs, r': Regs, m: Mapping)
    requires Sized(r)
  {
    var i := Place(t.hash, |r.keys|, m.key);
    && r'.keys == r.keys[i := Cell(m.key, false)] && r'.vals == r.vals[i := m.val] && r'.bf == r.bf
  }

  /** After key was cleared, no slot at its index holds it, and every other slot is as before. */
  ghost predicate Freed(t: Tables, r: Regs, r': Regs, key: Addr)
    requires Sized(r)
  {
    var i := Place(t.hash, |r.keys|, key);
    && r'.keys == (if r.keys[i].key == key then r.keys[i := Cell(1, false)] else r.keys)
    && r'.vals == r.vals && r'.bf == r.bf
  }

  /** What the register says of a key. */
  function Found(t: Tables, r: Regs, key: Addr): Option<Addr>
    requires Sized(r)
  {
    var i := Place(t.hash, |r.keys|, key);
    if r.keys[i].key == key then Some(r.vals[i]) else None
  }

  /** After a store every later lookup of a proper address is determined: the key answers, colliding
      keys are gone, all others answer as before. */
  lemma {:induction false} HoldingAnswers(t: Tables, r: Regs, r': Regs, m: Mapping, key: Addr)
    requires Sized(r) && Holding(t, r, r', m)
    ensures Sized(r')
    ensures Found(t, r', key)
            == if key == m.key then Some(m.val)
               else if Collide(t.hash, |r.keys|, m.key, key) then None
               else Found(t, r, key)
  {
  }

  /** A leaf learns the source of every resolved packet, with or without an eviction tag, and passes
      the packet on as it is: later lookups of the sender answer with the machine it sent from. */
  lemma {:induction false} LeavesLearnSources(t: Tables, r: Regs, h: Header, now: nat, coin: bool, key: Addr)
    requires Sized(r) && t.switchType == TOR && h.outerDst !in t.gws && (h.kind == NORMAL || h.kind == EVICTION_TAG)
    ensures var o := Ingress(t, r, h, now, coin);
            && o.hdr == h && o.mirror == None
            && Holding(t, r, o.regs, Mapping(h.innerSrc, h.outerSrc)) && Sized(o.regs)
            && Found(t, o.regs, key)
               == if key == h.innerSrc then Some(h.outerSrc)
                  else if Collide(t.hash, |r.keys|, h.innerSrc, key) then None
                  else Found(t, r, key)
  {
  }

  /** Above the leaves a resolved packet teaches its own destination, or the pair of its eviction tag,
      wherever it is learned: at a gateway leaf always, at spines into idle slots, at cores into idle
      slots and only from a tag. The packet takes the previous entry along. Only in a cell of key 0,
      which no proper address ever gives, is the key replaced without its value. */
  lemma {:induction false} OthersLearnPackets(t: Tables, r: Regs, h: Header, now: nat, coin: bool)
    requires Sized(r) && t.switchType != TOR && h.outerDst !in t.gws && (h.kind == NORMAL || h.kind == EVICTION_TAG)
    ensures var o := Ingress(t, r, h, now, coin);
            var m := if h.kind == EVICTION_TAG then Mapping(h.key, h.val) else Mapping(h.innerDst, h.outerDst);
            var i := Place(t.hash, |r.keys|, m.key);
            var learns := t.switchType == GW_TOR ||
                          (!r.keys[i].active && (t.switchType == CORE ==> h.kind == EVICTION_TAG));
            && (if learns && t.switchType != GW_TOR && r.keys[i].key == 0 then
                  o.regs == r.(keys := r.keys[i := Cell(m.key, false)]) && o.hdr == h
                else if learns then
                  && Holding(t, r, o.regs, m)
                  && o.hdr == h.(key := r.keys[i].key, val := r.vals[i],
                                 kind := if r.keys[i].key == 1 then NORMAL else EVICTION_TAG)
                else o.regs == r && o.hdr == h)
            && o.mirror == if t.switchType == GW_TOR && coin then Some(Mirror(LEARNING, h.outerDst)) else None
  {
  }

  /** A learning packet teaches its pair at every switch it passes; invalidation packets clear their
      key, tagged ones their destination, whatever value is stored. None of them is changed. */
  lemma {:induction false} ProtocolPacketsAct(t: Tables, r: Regs, h: Header, now: nat, coin: bool)
    requires Sized(r)
    ensures var o := Ingress(t, r, h, now, coin);
            && (h.kind == LEARNING || h.kind == INVALIDATION || h.kind == INVALIDATION_TAG ==>
                  o.hdr == h && o.mirror == None)
            && (h.kind == LEARNING ==> Holding(t, r, o.regs, Mapping(h.key, h.val)))
            && (h.kind == INVALIDATION ==> Freed(t, r, o.regs, h.key))
            && (h.kind == INVALIDATION_TAG ==> Freed(t, r, o.regs, h.innerDst))
  {
  }

  /** A gateway-bound packet asks for its destination, or at first for its tag's key: the slot's
      access bit tells the answer, and nothing else changes. A leaf whose machine misdelivers tags it
      instead, and mirrors it once its timer has run out. */
  lemma {:induction false} GatewayBoundPacketsAsk(t: Tables, r: Regs, h: Header, now: nat, coin: bool)
    requires Sized(r) && h.outerDst in t.gws && (h.kind == NORMAL || h.kind == EVICTION_TAG)
    ensures var o := Ingress(t, r, h, now, coin);
            var key := if h.kind == EVICTION_TAG then h.key else h.innerDst;
            var i := Place(t.hash, |r.keys|, key);
            var late := h.switchId < |r.bf| && now > r.bf[h.switchId];
            if t.switchType == TOR && h.outerSrc in t.misdelivering then
              && o.regs.keys == r.keys && o.regs.vals == r.vals
              && o.regs.bf == (if late then r.bf[h.switchId := (now + t.timeout) % 0x1_0000_0000] else r.bf)
              && o.hdr == h.(kind := INVALIDATION_TAG, key := h.innerDst)
              && o.mirror == if late then Some(Mirror(INVALIDATION, h.outerDst)) else None
            else
              && o.regs.keys == r.keys[i := Cell(r.keys[i].key, r.keys[i].key == key)]
              && o.regs.vals == r.vals && o.regs.bf == r.bf && o.mirror == None
              && o.hdr == match Found(t, r, key)
                          case None => h
                          case Some(v) =>
                            if t.switchType == SPINE then h.(kind := EVICTION_TAG, key := h.innerDst, val := v)
                            else h.(outerDst := v, switchId := t.switchId)
  {
  }

  /** A mirrored copy keeps the addresses and the switch id of its packet: an invalidation names the
      packet's destination and goes to the switch with that id, a learning copy names the destination
      with the mirrored machine and goes to the leaf of the packet's source. */
  lemma {:induction false} CopiesAreRewritten(t: Tables, h: Header, mirror: Mirror)
    ensures mirror.kind == INVALIDATION ==>
              Egress(t, h, mirror) == Header(INVALIDATION, h.switchId, h.innerDst, h.val,
                                             h.innerSrc, h.innerDst, h.outerSrc, t.idToDst(h.switchId))
    ensures mirror.kind == LEARNING ==>
              Egress(t, h, mirror) == Header(LEARNING, h.switchId, h.innerDst, mirror.val,
                                             h.innerSrc, h.innerDst, h.outerSrc, t.srcToTor(h.outerSrc))
  {
  }

  // ---------------------------------------------------------------- spilled entries

  /** A pair stored in the registers, or carried by the packet. */
  predicate InRegs(t: Tables, r: Regs, m: Mapping)
    requires Sized(r)
  {
    var i := IndexFor(t, r, m.key);
    r.keys[i].key == m.key && r.vals[i] == m.val
  }

  predicate InTag(h: Header, m: Mapping) {
    h.kind == EVICTION_TAG && Mapping(h.key, h.val) == m
  }

  ghost predicate OneValue(truth: iset<Mapping>) {
    forall m, m' :: m in truth && m' in truth && m.key == m'.key ==> m == m'
  }

  lemma {:induction false} LookupConserves(t: Tables, r: Regs, h: Header, m: Mapping, truth: iset<Mapping>)
    requires Addresses(truth) && OneValue(truth) && RegsOk(t.hash, r, truth) && HeaderOk(t.gws, h, truth)
    requires ToGw(t, h) && !SwitchToSwitch(h) && m in truth && (InRegs(t, r, m) || InTag(h, m))
    ensures var o := Answered(t, r, h, h.innerDst, IndexFor(t, r, h.innerDst));
            Sized(o.regs) && (InRegs(t, o.regs, m) || InTag(o.hdr, m))
  {
    SlotOk(t.hash, r, IndexFor(t, r, h.innerDst), truth);
  }

  lemma {:induction false} ResolvedConserves(t: Tables, r: Regs, h: Header, s: Mapping, coin: bool, m: Mapping,
                                             truth: iset<Mapping>)
    requires Addresses(truth) && OneValue(truth) && RegsOk(t.hash, r, truth) && s in truth && t.switchType != TOR
    requires InTag(h, m) ==> s == m
    requires m in truth && (InRegs(t, r, m) || InTag(h, m))
    ensures var o := Resolved(t, r, h, s, IndexFor(t, r, s.key), coin);
            Sized(o.regs) && (InRegs(t, o.regs, m) || InTag(o.hdr, m))
  {
    var i := IndexFor(t, r, s.key);
    SlotOk(t.hash, r, i, truth);
  }

  /** Above the leaves, no true pair that registers and eviction tag hold between them is lost when
      a data packet without an invalidation tag passes. A second lookup may overwrite the tag of a
      gateway-bound packet, but only with the same pair, because such a tag is about the packet's
      own destination. */
  lemma {:induction false} PipelineConservesSpills(t: Tables, r: Regs, h: Header, now: nat, coin: bool, m: Mapping,
                                                   truth: iset<Mapping>)
    requires Addresses(truth) && OneValue(truth) && RegsOk(t.hash, r, truth) && HeaderOk(t.gws, h, truth)
    requires t.switchType != TOR && !SwitchToSwitch(h) && h.kind != INVALIDATION_TAG
    requires m in truth && (InRegs(t, r, m) || InTag(h, m))
    ensures var o := Ingress(t, r, h, now, coin);
            Sized(o.regs) && (InRegs(t, o.regs, m) || InTag(o.hdr, m))
  {
    if ToGw(t, h) {
      LookupConserves(t, r, h, m, truth);
    } else {
      ResolvedConserves(t, r, h, Subject(t, h), coin, m, truth);
    }
  }

  // ---------------------------------------------------------------- runs

  /** A network of pipelines. Packets may visit switches in any order: coherence does not depend on
      the topology. */
  datatype Fabric = Fabric(regs: map<nat, Regs>, packets: seq<Header>)

  /** A host sends, a switch takes a packet from a link and puts it back (with its mirrored copy, if
      any), or a gateway resolves a packet and removes its tag. */
  datatype Step = SendFresh(h: Header) | AtSwitch(sw: nat, i: nat, now: nat, coin: bool) | AtGateway(i: nat)

  /** The fixed parts: tables per switch with the same gateways, and the directory. */
  datatype Net = Net(tables: map<nat, Tables>, gws: set<Addr>, dir: map<Addr, Addr>)

  ghost predicate ValidNet(n: Net) {
    && (forall s :: s in n.tables ==> n.tables[s].gws == n.gws)
    && (forall k :: k in n.dir ==> k > 1 && n.dir[k] > 1)
  }

  ghost function Truth(n: Net): iset<Mapping> {
    iset m: Mapping | m.key in n.dir && n.dir[m.key] == m.val
  }

  ghost predicate Enabled(n: Net, f: Fabric, step: Step) {
    match step
    case SendFresh(h) =>
      && h.kind == NORMAL && h.innerSrc in n.dir && h.outerSrc == n.dir[h.innerSrc]
      && h.innerDst in n.dir && h.outerDst in n.gws
    case AtSwitch(s, i, _, _) => s in n.tables && s in f.regs && Sized(f.regs[s]) && i < |f.packets|
    case AtGateway(i) =>
      i < |f.packets| && !SwitchToSwitch(f.packets[i]) && f.packets[i].outerDst in n.gws &&
        f.packets[i].innerDst in n.dir
  }

  ghost function Next(n: Net, f: Fabric, step: Step): Fabric
    requires Enabled(n, f, step)
  {
    match step
    case SendFresh(h) => f.(packets := f.packets + [h])
    case AtSwitch(s, i, now, coin) =>
      var o := Ingress(n.tables[s], f.regs[s], f.packets[i], now, coin);
      Fabric(f.regs[s := o.regs],
             f.packets[i := o.hdr] +
             (if o.mirror.Some? then [Egress(n.tables[s], f.packets[i], o.mirror.value)] else []))
    case AtGateway(i) =>
      f.(packets := f.packets[i := f.packets[i].(kind := NORMAL, outerDst := n.dir[f.packets[i].innerDst])])
  }

  ghost predicate FreeRegs(r: Regs) {
    Sized(r) && forall i :: 0 <= i < |r.keys| ==> r.keys[i] == Cell(FREE, false)
  }

  ghost predicate Run(n: Net, fs: seq<Fabric>, steps: seq<Step>) {
    && |fs| == |steps| + 1
    && fs[0].packets == [] && (forall s :: s in fs[0].regs ==> s in n.tables && FreeRegs(fs[0].regs[s]))
    && forall k :: 0 <= k < |steps| ==> Enabled(n, fs[k], steps[k]) && fs[k + 1] == Next(n, fs[k], steps[k])
  }

  ghost predicate Coherent(n: Net, f: Fabric) {
    && (forall s :: s in f.regs ==> s in n.tables && RegsOk(n.tables[s].hash, f.regs[s], Truth(n)))
    && (forall i :: 0 <= i < |f.packets| ==> HeaderOk(n.gws, f.packets[i], Truth(n)))
  }

  lemma {:induction false} SwitchKeepsCoherence(n: Net, f: Fabric, s: nat, i: nat, o: Output, before: Header)
    requires ValidNet(n) && Coherent(n, f) && s in n.tables && s in f.regs && i < |f.packets|
    requires OutputOk(n.tables[s], before, o, Truth(n))
    ensures Coherent(n, Fabric(f.regs[s := o.regs],
              f.packets[i := o.hdr] + (if o.mirror.Some? then [Egress(n.tables[s], before, o.mirror.value)] else [])))
  {
  }

  lemma {:induction false} StepKeepsCoherence(n: Net, f: Fabric, step: Step)
    requires ValidNet(n) && Coherent(n, f) && Enabled(n, f, step)
    ensures Coherent(n, Next(n, f, step))
  {
    match step
    case SendFresh(h) =>
    case AtSwitch(s, i, now, coin) =>
      PipelineKeepsTruth(n.tables[s], f.regs[s], f.packets[i], now, coin, Truth(n));
      SwitchKeepsCoherence(n, f, s, i, Ingress(n.tables[s], f.regs[s], f.packets[i], now, coin), f.packets[i]);
    case AtGateway(i) =>
      var f' := Next(n, f, step);
      assert HeaderOk(n.gws, f.packets[i], Truth(n));
      assert HeaderOk(n.gws, f'.packets[i], Truth(n));
  }

  /** Coherence of the pipelines over every run without migration: every slot with a key other than
      1 holds its directory value at that key's hash, every eviction tag and learning packet is a
      true pair, every gateway-bound eviction tag names the packet's own destination, and every
      data packet not bound to a gateway is bound to the machine its destination is on. */
  lemma {:induction false} PipelineCoherence(n: Net, fs: seq<Fabric>, steps: seq<Step>, k: nat)
    requires ValidNet(n) && Run(n, fs, steps) && k < |fs|
    ensures Coherent(n, fs[k])
  {
    for j := 0 to k
      invariant Coherent(n, fs[j])
    {
      StepKeepsCoherence(n, fs[j], steps[j]);
    }
  }
}
