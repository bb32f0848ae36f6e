/** What a SwitchV2P switch does with one packet, as a function of its state, the packet and
    one coin flip. */
module SwitchSpec {
  import opened Addressing
  import opened CacheSpec
  import opened BloomFilter

  datatype Role = LEAF | GW_LEAF | GW_SPINE | SPINE | CORE

  /** The switch whose cache redirected a packet. */
  datatype Hit = Hit(address: Addr, id: nat)

  /** A tunnelled data packet: inner (virtual) and outer (physical) addresses, outer TTL, the
      sender's host, and the packet tags. The last two fields count events in the packet's life;
      nothing reads them. */
  datatype Packet = Packet(
    vsrc: Addr, vdst: Addr,
    psrc: Addr, pdst: Addr,
    ttl: nat,
    source: Addr,
    hops: nat,
    evict: Option<Mapping>,
    hit: Option<Hit>,
    inval: Option<Mapping>,
    misdelivered: nat,
    gwVisits: nat)

  /** A packet from switch to switch. */
  datatype Message =
    | Learning(pair: Mapping, dst: Addr)
    | Invalidation(pair: Mapping, dst: Addr)

  datatype Config = Config(
    role: Role, address: Addr, id: nat, gws: set<Addr>,
    sourceLearning: bool, accessBit: bool,
    bloomEnabled: bool, generateInvalidation: bool,
    defaultTtl: nat, podCount: nat, hash: Hash)

  datatype State = State(cache: Slots, bloom: Marks)

  /** What one packet leads to: the new state, the packet as forwarded, a message sent, the hit
      switch an invalidation was generated for, and whether an assertion of the simulator would
      have fired (a tag added twice, a filter index out of range). */
  datatype Outcome = Outcome(state: State, packet: Packet, sent: Option<Message>,
                             generated: Option<nat>, fault: bool)

  predicate ToGateway(cfg: Config, p: Packet) {
    p.pdst in cfg.gws
  }

  /** A message leaves only if it is for another switch. */
  function Emit(cfg: Config, m: Message): Option<Message> {
    if m.dst == cfg.address then None else Some(m)
  }

  // ---------------------------------------------------------------- tagged for invalidation

  /** The cache after a packet or message tagged (key, stale): the entry goes if it is the stale
      one. */
  function Invalidate(h: Hash, c: Slots, stale: Mapping): (c': Slots)
    ensures |c'| == |c|
  {
    if Lookup(h, c, stale.key) == Some(stale.val) then Remove(h, c, stale.key) else Touch(h, c, stale.key)
  }

  /** Where a tagged packet goes on to: a cached mapping that is not the stale one wins. */
  function Redirected(h: Hash, c: Slots, stale: Mapping, pdst: Addr): Addr {
    match Lookup(h, c, stale.key)
    case Some(v) => if v != stale.val then v else pdst
    case None => pdst
  }

  function ReceiveTagged(cfg: Config, s: State, p: Packet): Outcome
    requires p.inval.Some?
  {
    var stale := p.inval.value;
    var s' := s.(cache := Invalidate(cfg.hash, s.cache, stale));
    var p' := p.(pdst := Redirected(cfg.hash, s.cache, stale, p.pdst));
    if cfg.role != LEAF || p.hit.None? then Outcome(s', p', None, None, false)
    else
      var id := p.hit.value.id;
      var generate := cfg.generateInvalidation && !(cfg.bloomEnabled && Marked(s.bloom, id));
      var message := Emit(cfg, Invalidation(Mapping(p.vdst, stale.val), p.hit.value.address));
      Outcome(if cfg.bloomEnabled then s'.(bloom := Mark(s.bloom, id)) else s',
              p'.(hit := None),
              if generate then message else None,
              if generate then Some(id) else None,
              cfg.bloomEnabled && id >= |s.bloom|)
  }

  // ---------------------------------------------------------------- learning

  /** A learning step: new cache, eviction tag the packet goes on with, message sent, and whether
      processing stops here. */
  datatype Learned = Learned(cache: Slots, evict: Option<Mapping>, sent: Option<Message>, stop: bool)

  function TtlLimit(cfg: Config): nat {
    if cfg.defaultTtl == 0 then 0xFFFF_FFFF else cfg.defaultTtl - 1
  }

  function LearnAtLeaf(cfg: Config, c: Slots, p: Packet): Learned {
    if cfg.sourceLearning && p.ttl < TtlLimit(cfg) then
      Learned(Put(cfg.hash, c, p.vsrc, p.psrc), p.evict, None, false)
    else if !ToGateway(cfg, p) then
      Learned(PutIfNotEvict(cfg.hash, c, p.vdst, p.pdst), p.evict, None, false)
    else
      Learned(c, p.evict, None, false)
  }

  /** Put with the victim taken along as the packet's eviction tag. */
  function Spill(cfg: Config, c: Slots, m: Mapping, sent: Option<Message>): Learned {
    Learned(Put(cfg.hash, c, m.key, m.val), Evicted(cfg.hash, c, m.key), sent, false)
  }

  function Active(cfg: Config, c: Slots, m: Mapping): bool {
    SlotOf(cfg.hash, c, m.key).bit
  }

  function LearnAtCore(cfg: Config, c: Slots, p: Packet): Learned {
    match p.evict
    case Some(m) =>
      if m.key == p.vdst && !Active(cfg, c, m) && Lookup(cfg.hash, c, m.key).None? then Spill(cfg, c, m, None)
      else Learned(c, p.evict, None, false)
    case None =>
      Learned(PutIfNotEvict(cfg.hash, c, p.vdst, p.pdst), None, None, false)
  }

  /** What a switch above the leaves learns: a spilled mapping if the packet carries one, else the
      packet's own resolved destination. */
  function Lesson(p: Packet): Mapping {
    match p.evict
    case Some(m) => m
    case None => Mapping(p.vdst, p.pdst)
  }

  function LearnAbove(cfg: Config, c: Slots, p: Packet, coin: bool): Learned {
    var m := Lesson(p);
    if p.evict.Some? && m == Mapping(0, 0) then
      Learned(if Lookup(cfg.hash, c, p.vdst).Some? then Remove(cfg.hash, c, p.vdst) else c, p.evict, None, true)
    else if p.evict.None? && ToGateway(cfg, p) then
      Learned(c, None, None, false)
    else if cfg.role == CORE then
      LearnAtCore(cfg, c, p)
    else if (cfg.role == SPINE || cfg.role == GW_SPINE) && cfg.accessBit then
      if Active(cfg, c, m) && Lookup(cfg.hash, c, m.key).None? then Learned(c, p.evict, None, false)
      else Spill(cfg, c, m, None)
    else
      Spill(cfg, c, m,
            if cfg.role == GW_LEAF && coin
            then Emit(cfg, Learning(m, LeafAddressForHost(cfg.podCount, p.source))) else None)
  }

  function Learn(cfg: Config, c: Slots, p: Packet, coin: bool): Learned {
    if cfg.role == LEAF then LearnAtLeaf(cfg, c, p) else LearnAbove(cfg, c, p, coin)
  }

  // ---------------------------------------------------------------- the whole step

  /** The final lookup for packets still bound to a gateway. */
  function Resolve(cfg: Config, s: State, p: Packet, sent: Option<Message>): Outcome {
    if !ToGateway(cfg, p) then Outcome(s, p, sent, None, false)
    else
      var s' := s.(cache := Touch(cfg.hash, s.cache, p.vdst));
      match Lookup(cfg.hash, s.cache, p.vdst)
      case None => Outcome(s', p, sent, None, false)
      case Some(v) =>
        Outcome(s', p.(pdst := v, hit := Some(Hit(cfg.address, cfg.id))), sent, None, p.hit.Some?)
  }

  /** A spine outside the gateway pods first looks a gateway-bound destination up. */
  predicate Promotes(cfg: Config, p: Packet) {
    cfg.role == SPINE && ToGateway(cfg, p)
  }

  function ReceiveUntagged(cfg: Config, s: State, p: Packet, coin: bool): Outcome {
    var looked := if Promotes(cfg, p) then Touch(cfg.hash, s.cache, p.vdst) else s.cache;
    if Promotes(cfg, p) && Lookup(cfg.hash, s.cache, p.vdst).Some? then
      var spilled := Mapping(p.vdst, Lookup(cfg.hash, s.cache, p.vdst).value);
      Outcome(s.(cache := looked), p.(evict := Some(spilled)), None, None, false)
    else
      var l := Learn(cfg, looked, p, coin);
      var s', p' := s.(cache := l.cache), p.(evict := l.evict);
      if l.stop then Outcome(s', p', None, None, false) else Resolve(cfg, s', p', l.sent)
  }

  /** A switch counts itself in the packet's hop tag before anything else. */
  function Hopped(p: Packet): Packet {
    p.(hops := p.hops + 1)
  }

  /** ReceivePacket in SwitchV2P mode, after the hop is counted. */
  function Receive(cfg: Config, s: State, p: Packet, coin: bool): Outcome {
    if p.inval.Some? then ReceiveTagged(cfg, s, p) else ReceiveUntagged(cfg, s, p, coin)
  }

  /** HandleProtocolPacket: an invalidation acts at every switch it passes, a learning message
      only at its target; the flag says whether the message is sent on. */
  function HandleMessage(cfg: Config, s: State, m: Message): (State, bool) {
    var here := m.dst == cfg.address;
    match m
    case Invalidation(stale, _) => (s.(cache := Invalidate(cfg.hash, s.cache, stale)), !here)
    case Learning(pair, _) =>
      (if here then s.(cache := Put(cfg.hash, s.cache, pair.key, pair.val)) else s, !here)
  }
}
