/** What one switch step guarantees, for every role, cache, packet and coin. */
module SwitchProperties {
  import opened Addressing
  import opened CacheSpec
  import opened BloomFilter
  import opened SwitchSpec

  // ---------------------------------------------------------------- a switch invents nothing

  /** Mappings that may be in circulation; none has the value 0 of an empty entry. */
  ghost predicate Sound(ok: iset<Mapping>) {
    forall m :: m in ok ==> m.val != 0
  }

  ghost predicate SlotOk(h: Hash, n: nat, s: Slot, i: nat, ok: iset<Mapping>)
    requires n > 0
  {
    (s.key == 0 && s.val == 0) || (Mapping(s.key, s.val) in ok && Place(h, n, s.key) == i)
  }

  /** Every slot is empty or holds a mapping of ok at its key's place. */
  ghost predicate SlotsOk(h: Hash, c: Slots, ok: iset<Mapping>) {
    forall i :: 0 <= i < |c| ==> SlotOk(h, |c|, c[i], i, ok)
  }

  lemma {:induction false} LookupOk(h: Hash, c: Slots, key: Addr, ok: iset<Mapping>)
    requires SlotsOk(h, c, ok)
    ensures Lookup(h, c, key).Some? ==> Mapping(key, Lookup(h, c, key).value) in ok
  {
    assert SlotOk(h, |c|, c[Place(h, |c|, key)], Place(h, |c|, key), ok);
  }

  lemma {:induction false} EvictedOk(h: Hash, c: Slots, key: Addr, ok: iset<Mapping>)
    requires SlotsOk(h, c, ok)
    ensures Evicted(h, c, key).Some? ==> Evicted(h, c, key).value in ok
  {
    assert SlotOk(h, |c|, c[Place(h, |c|, key)], Place(h, |c|, key), ok);
  }

  lemma {:induction false} UpdatesKeepOk(h: Hash, c: Slots, key: Addr, ok: iset<Mapping>)
    requires SlotsOk(h, c, ok)
    ensures SlotsOk(h, Touch(h, c, key), ok) && SlotsOk(h, Remove(h, c, key), ok)
  {
  }

  lemma {:induction false} StoreKeepsOk(h: Hash, c: Slots, m: Mapping, ok: iset<Mapping>)
    requires SlotsOk(h, c, ok) && m in ok
    ensures SlotsOk(h, Put(h, c, m.key, m.val), ok)
    ensures SlotsOk(h, PutIfNotEvict(h, c, m.key, m.val), ok)
  {
  }

  ghost predicate TagOk(tag: Option<Mapping>, ok: iset<Mapping>) {
    tag.Some? ==> tag.value in ok
  }

  ghost predicate SentOk(sent: Option<Message>, ok: iset<Mapping>) {
    sent.Some? && sent.value.Learning? ==> sent.value.pair in ok
  }

  /** The source pair a leaf would learn, where it learns sources. */
  predicate LearnsSource(cfg: Config, p: Packet) {
    cfg.role == LEAF && cfg.sourceLearning && p.ttl < TtlLimit(cfg)
  }

  /** A packet that only carries mappings of ok. */
  ghost predicate PacketOk(cfg: Config, p: Packet, ok: iset<Mapping>) {
    && TagOk(p.evict, ok)
    && (p.inval.None? && !ToGateway(cfg, p) ==> Mapping(p.vdst, p.pdst) in ok)
    && (p.inval.Some? ==> p.inval.value.key == p.vdst)
    && (p.inval.None? && LearnsSource(cfg, p) ==> Mapping(p.vsrc, p.psrc) in ok)
  }

  lemma {:induction false} LearnKeepsOk(cfg: Config, c: Slots, p: Packet, coin: bool, ok: iset<Mapping>)
    requires Sound(ok) && SlotsOk(cfg.hash, c, ok) && PacketOk(cfg, p, ok) && p.inval.None?
    ensures var l := Learn(cfg, c, p, coin);
            SlotsOk(cfg.hash, l.cache, ok) && TagOk(l.evict, ok) && SentOk(l.sent, ok) && !l.stop
  {
    if cfg.role == LEAF {
      if LearnsSource(cfg, p) {
        StoreKeepsOk(cfg.hash, c, Mapping(p.vsrc, p.psrc), ok);
      } else if !ToGateway(cfg, p) {
        StoreKeepsOk(cfg.hash, c, Mapping(p.vdst, p.pdst), ok);
      }
    } else if p.evict.Some? || !ToGateway(cfg, p) {
      var m := Lesson(p);
      StoreKeepsOk(cfg.hash, c, m, ok);
      EvictedOk(cfg.hash, c, m.key, ok);
    }
  }

  /** An outcome that holds only mappings of ok and sends the packet on to its old destination,
      or where some mapping of ok says, but not where an invalidation tag says it is not. */
  ghost predicate OutcomeOk(cfg: Config, p: Packet, o: Outcome, ok: iset<Mapping>) {
    && SlotsOk(cfg.hash, o.state.cache, ok)
    && TagOk(o.packet.evict, ok)
    && SentOk(o.sent, ok)
    && (o.packet.pdst == p.pdst ||
        (Mapping(p.vdst, o.packet.pdst) in ok && (p.inval.Some? ==> o.packet.pdst != p.inval.value.val)))
  }

  lemma {:induction false} TaggedKeepsOk(cfg: Config, s: State, p: Packet, ok: iset<Mapping>)
    requires SlotsOk(cfg.hash, s.cache, ok) && PacketOk(cfg, p, ok) && p.inval.Some?
    ensures OutcomeOk(cfg, p, ReceiveTagged(cfg, s, p), ok)
  {
    LookupOk(cfg.hash, s.cache, p.vdst, ok);
    UpdatesKeepOk(cfg.hash, s.cache, p.vdst, ok);
  }

  lemma {:induction false} ResolveKeepsOk(cfg: Config, s: State, p: Packet, sent: Option<Message>, ok: iset<Mapping>)
    requires SlotsOk(cfg.hash, s.cache, ok) && TagOk(p.evict, ok) && SentOk(sent, ok) && p.inval.None?
    ensures OutcomeOk(cfg, p, Resolve(cfg, s, p, sent), ok)
  {
    UpdatesKeepOk(cfg.hash, s.cache, p.vdst, ok);
    LookupOk(cfg.hash, s.cache, p.vdst, ok);
  }

  lemma {:induction false} UntaggedKeepsOk(cfg: Config, s: State, p: Packet, coin: bool, ok: iset<Mapping>)
    requires Sound(ok) && SlotsOk(cfg.hash, s.cache, ok) && PacketOk(cfg, p, ok) && p.inval.None?
    ensures OutcomeOk(cfg, p, ReceiveUntagged(cfg, s, p, coin), ok)
  {
    UpdatesKeepOk(cfg.hash, s.cache, p.vdst, ok);
    LookupOk(cfg.hash, s.cache, p.vdst, ok);
    var looked := if Promotes(cfg, p) then Touch(cfg.hash, s.cache, p.vdst) else s.cache;
    LearnKeepsOk(cfg, looked, p, coin, ok);
    var l := Learn(cfg, looked, p, coin);
    ResolveKeepsOk(cfg, s.(cache := l.cache), p.(evict := l.evict), l.sent, ok);
  }

  /** A switch invents nothing: over any cache, packet and coin, if cache and packet hold only
      mappings of ok, so does the outcome. */
  lemma {:induction false} ReceiveInventsNothing(cfg: Config, s: State, p: Packet, coin: bool, ok: iset<Mapping>)
    requires Sound(ok) && SlotsOk(cfg.hash, s.cache, ok) && PacketOk(cfg, p, ok)
    ensures OutcomeOk(cfg, p, Receive(cfg, s, p, coin), ok)
  {
    if p.inval.Some? {
      TaggedKeepsOk(cfg, s, p, ok);
    } else {
      UntaggedKeepsOk(cfg, s, p, coin, ok);
    }
  }

  lemma {:induction false} MessageInventsNothing(cfg: Config, s: State, m: Message, ok: iset<Mapping>)
    requires SlotsOk(cfg.hash, s.cache, ok) && (m.Learning? ==> m.pair in ok)
    ensures SlotsOk(cfg.hash, HandleMessage(cfg, s, m).0.cache, ok)
  {
    UpdatesKeepOk(cfg.hash, s.cache, m.pair.key, ok);
    if m.Learning? {
      StoreKeepsOk(cfg.hash, s.cache, m.pair, ok);
    }
  }

  /** Source learning at a leaf keeps the cache truthful exactly when it does not fire on a
      packet whose outer source is not the true host of its inner source. */
  lemma {:induction false} LeafStaysTruthfulIff(cfg: Config, s: State, p: Packet, coin: bool, ok: iset<Mapping>)
    requires cfg.role == LEAF && p.inval.None? && Sound(ok) && SlotsOk(cfg.hash, s.cache, ok)
    requires p.psrc != 0 && (!ToGateway(cfg, p) ==> Mapping(p.vdst, p.pdst) in ok)
    ensures SlotsOk(cfg.hash, Receive(cfg, s, p, coin).state.cache, ok)
       <==> !(LearnsSource(cfg, p) && Mapping(p.vsrc, p.psrc) !in ok)
  {
    if LearnsSource(cfg, p) && Mapping(p.vsrc, p.psrc) !in ok {
      var c := Put(cfg.hash, s.cache, p.vsrc, p.psrc);
      var i := Place(cfg.hash, |s.cache|, p.vsrc);
      var c' := Receive(cfg, s, p, coin).state.cache;
      assert c[i].key == p.vsrc && c[i].val == p.psrc;
      assert c'[i].key == p.vsrc && c'[i].val == p.psrc;
      assert !SlotOk(cfg.hash, |c'|, c'[i], i, ok);
    } else {
      var q := p.(evict := None);
      ReceiveInventsNothing(cfg, s, q, coin, ok);
      assert Receive(cfg, s, p, coin).state == Receive(cfg, s, q, coin).state;
    }
  }

  // ---------------------------------------------------------------- what a step leaves alone

  lemma {:induction false} UntaggedFrame(cfg: Config, s: State, p: Packet, coin: bool)
    requires p.inval.None?
    ensures var q := ReceiveUntagged(cfg, s, p, coin).packet;
            q == p.(pdst := q.pdst, evict := q.evict, hit := q.hit)
  {
    var looked := if Promotes(cfg, p) then Touch(cfg.hash, s.cache, p.vdst) else s.cache;
    var l := Learn(cfg, looked, p, coin);
    var r := Resolve(cfg, s.(cache := l.cache), p.(evict := l.evict), l.sent).packet;
    assert r == p.(evict := l.evict, pdst := r.pdst, hit := r.hit);
  }

  /** A switch changes only destination, eviction and hit tag of a packet, and the eviction tag
      of an invalidation-tagged packet stays. */
  lemma {:induction false} ReceiveFrame(cfg: Config, s: State, p: Packet, coin: bool)
    ensures var q := Receive(cfg, s, p, coin).packet;
            && q == p.(pdst := q.pdst, evict := q.evict, hit := q.hit)
            && (p.inval.Some? ==> q.evict == p.evict && (q.hit == p.hit || q.hit == None))
  {
    if p.inval.None? {
      UntaggedFrame(cfg, s, p, coin);
    }
  }

  lemma {:induction false} SizesStay(cfg: Config, s: State, p: Packet, coin: bool)
    ensures |Receive(cfg, s, p, coin).state.cache| == |s.cache|
    ensures |Receive(cfg, s, p, coin).state.bloom| == |s.bloom|
  {
    if p.inval.None? {
      UntaggedSizesStay(cfg, s, p, coin);
    }
  }

  lemma {:induction false} UntaggedSizesStay(cfg: Config, s: State, p: Packet, coin: bool)
    ensures |ReceiveUntagged(cfg, s, p, coin).state.cache| == |s.cache|
    ensures ReceiveUntagged(cfg, s, p, coin).state.bloom == s.bloom
  {
    var looked := if Promotes(cfg, p) then Touch(cfg.hash, s.cache, p.vdst) else s.cache;
    LearnKeepsSize(cfg, looked, p, coin);
  }

  lemma {:induction false} LearnKeepsSize(cfg: Config, c: Slots, p: Packet, coin: bool)
    ensures |Learn(cfg, c, p, coin).cache| == |c|
  {
  }

  /** An untagged packet gains a hit tag exactly when it is redirected, to the address the cache
      then has for its destination, and only a gateway-bound packet is; the simulator's double-tag
      assertion fires only if it had one already. */
  lemma {:induction false} HitTagMeansRedirected(cfg: Config, s: State, p: Packet, coin: bool)
    requires p.inval.None?
    ensures var o := Receive(cfg, s, p, coin);
            && ((o.packet.hit == p.hit && o.packet.pdst == p.pdst && !o.fault) ||
                (o.packet.hit == Some(Hit(cfg.address, cfg.id)) && ToGateway(cfg, p) &&
                 Lookup(cfg.hash, o.state.cache, p.vdst) == Some(o.packet.pdst)))
            && (o.fault ==> ToGateway(cfg, p) && p.hit.Some?)
  {
    var looked := if Promotes(cfg, p) then Touch(cfg.hash, s.cache, p.vdst) else s.cache;
    var l := Learn(cfg, looked, p, coin);
    var r := Resolve(cfg, s.(cache := l.cache), p.(evict := l.evict), l.sent);
    assert ToGateway(cfg, p.(evict := l.evict)) == ToGateway(cfg, p);
    TouchExact(cfg.hash, l.cache, p.vdst, p.vdst);
  }

  lemma {:induction false} LearningGoesToTheSendersLeaf(cfg: Config, c: Slots, p: Packet, coin: bool)
    ensures var l := Learn(cfg, c, p, coin);
            l.sent.Some? ==> cfg.role == GW_LEAF && l.sent.value.Learning? &&
                             l.sent.value.dst == LeafAddressForHost(cfg.podCount, p.source) != cfg.address
  {
  }

  /** An untagged packet generates no invalidation, leaves the filter alone, and makes only a
      gateway leaf send: a learning message to the leaf of the packet's sender. */
  lemma {:induction false} UntaggedSendsOnlyLearning(cfg: Config, s: State, p: Packet, coin: bool)
    requires p.inval.None?
    ensures var o := Receive(cfg, s, p, coin);
            && o.generated == None
            && o.state.bloom == s.bloom
            && (o.sent.Some? ==> cfg.role == GW_LEAF && o.sent.value.Learning? &&
                                 o.sent.value.dst == LeafAddressForHost(cfg.podCount, p.source) != cfg.address)
  {
    var looked := if Promotes(cfg, p) then Touch(cfg.hash, s.cache, p.vdst) else s.cache;
    LearningGoesToTheSendersLeaf(cfg, looked, p, coin);
  }

  lemma {:induction false} ResolveRedirectsOnHits(cfg: Config, s: State, p: Packet, sent: Option<Message>)
    requires p.hit.None? && ToGateway(cfg, p)
    ensures var o := Resolve(cfg, s, p, sent);
            var known := Lookup(cfg.hash, o.state.cache, p.vdst);
            (o.packet.hit.Some? <==> known.Some?) && (known.Some? ==> o.packet.pdst == known.value)
  {
    TouchExact(cfg.hash, s.cache, p.vdst, p.vdst);
  }

  /** A gateway-bound packet is redirected exactly when the cache, after learning, knows its
      destination, and then to that address; only a spine outside the gateway pods holds a
      packet it could redirect back, to promote the entry as an eviction tag instead. */
  lemma {:induction false} RedirectsExactlyOnHits(cfg: Config, s: State, p: Packet, coin: bool)
    requires p.inval.None? && p.hit.None? && ToGateway(cfg, p) && p.evict != Some(Mapping(0, 0))
    ensures var o := Receive(cfg, s, p, coin);
            var known := Lookup(cfg.hash, o.state.cache, p.vdst);
            if cfg.role == SPINE && Lookup(cfg.hash, s.cache, p.vdst).Some?
            then known.Some? && o.packet == p.(evict := Some(Mapping(p.vdst, known.value)))
            else (o.packet.hit.Some? <==> known.Some?) && (known.Some? ==> o.packet.pdst == known.value)
  {
    var looked := if Promotes(cfg, p) then Touch(cfg.hash, s.cache, p.vdst) else s.cache;
    if cfg.role == SPINE && Lookup(cfg.hash, s.cache, p.vdst).Some? {
      TouchExact(cfg.hash, s.cache, p.vdst, p.vdst);
    } else {
      var l := Learn(cfg, looked, p, coin);
      assert !l.stop;
      ResolveRedirectsOnHits(cfg, s.(cache := l.cache), p.(evict := l.evict), l.sent);
    }
  }

  /** What a tagged packet leads to: a stale entry of its key is gone, any other entry of its
      key redirects it, and a leaf answers a hit tag with at most one invalidation, addressed
      to the switch that caused the hit, marking that switch in the filter. */
  lemma {:induction false} TaggedPacketActs(cfg: Config, s: State, p: Packet, coin: bool)
    requires p.inval.Some?
    ensures var o := Receive(cfg, s, p, coin);
            var stale := p.inval.value;
            && Lookup(cfg.hash, o.state.cache, stale.key) != Some(stale.val)
            && (forall k :: k != stale.key && Lookup(cfg.hash, s.cache, k).Some? ==>
                            Lookup(cfg.hash, o.state.cache, k) == Lookup(cfg.hash, s.cache, k))
            && (forall v :: Lookup(cfg.hash, s.cache, stale.key) == Some(v) && v != stale.val ==>
                            o.packet.pdst == v && Lookup(cfg.hash, o.state.cache, stale.key) == Some(v))
            && (cfg.role == LEAF ==> o.packet.hit == None)
            && (cfg.role == LEAF && cfg.generateInvalidation && p.hit.Some? && p.hit.value.address != cfg.address &&
                !(cfg.bloomEnabled && Marked(s.bloom, p.hit.value.id)) ==>
                  o.sent == Some(Invalidation(Mapping(p.vdst, stale.val), p.hit.value.address)))
            && (o.generated.Some? ==> cfg.role == LEAF && p.hit.Some? && o.generated.value == p.hit.value.id)
            && (o.generated.Some? && cfg.bloomEnabled ==>
                  !Marked(s.bloom, o.generated.value) &&
                  (o.generated.value < |s.bloom| ==> Marked(o.state.bloom, o.generated.value)))
            && (forall id :: Marked(s.bloom, id) ==> Marked(o.state.bloom, id))
            && (o.sent.Some? ==>
                  p.hit.Some? && o.sent.value == Invalidation(Mapping(p.vdst, stale.val), p.hit.value.address))
  {
    forall k | k != p.inval.value.key && Lookup(cfg.hash, s.cache, k).Some?
      ensures Lookup(cfg.hash, Receive(cfg, s, p, coin).state.cache, k) == Lookup(cfg.hash, s.cache, k)
    {
      TouchExact(cfg.hash, s.cache, p.inval.value.key, k);
      RemoveExact(cfg.hash, s.cache, p.inval.value.key, k);
    }
  }

  /** When a leaf answers the hit tag of a tagged packet. */
  predicate Answers(cfg: Config, s: State, p: Packet) {
    && cfg.role == LEAF && p.hit.Some? && cfg.generateInvalidation
    && (cfg.bloomEnabled ==> !(p.hit.value.id < |s.bloom| && s.bloom[p.hit.value.id]))
  }

  /** Everything a tagged packet leads to, apart from the cache: the answer is sent exactly when it is
      recorded as generated, and to the switch that caused the hit, if that is another one; the filter
      gains exactly that switch, and a leaf takes the hit tag off. */
  lemma {:induction false} TaggedAnswersExactly(cfg: Config, s: State, p: Packet, coin: bool)
    requires p.inval.Some?
    ensures var o := Receive(cfg, s, p, coin);
            && o.generated == (if Answers(cfg, s, p) then Some(p.hit.value.id) else None)
            && o.sent == (if Answers(cfg, s, p) && p.hit.value.address != cfg.address
                          then Some(Invalidation(Mapping(p.vdst, p.inval.value.val), p.hit.value.address)) else None)
            && |o.state.bloom| == |s.bloom|
            && (forall i :: 0 <= i < |s.bloom| ==>
                  (o.state.bloom[i] <==>
                     s.bloom[i] || (cfg.bloomEnabled && cfg.role == LEAF && p.hit.Some? && p.hit.value.id == i)))
            && o.packet.hit == (if cfg.role == LEAF then None else p.hit)
            && o.packet.inval == p.inval
            && (o.fault <==> cfg.bloomEnabled && cfg.role == LEAF && p.hit.Some? && p.hit.value.id >= |s.bloom|)
  {
  }

  /** What a tagged packet leads to in the cache, and where it goes on to. */
  lemma {:induction false} TaggedCacheExactly(cfg: Config, s: State, p: Packet, coin: bool, key: Addr)
    requires p.inval.Some?
    ensures var o, stale := Receive(cfg, s, p, coin), p.inval.value;
            var known := Lookup(cfg.hash, s.cache, stale.key);
            && Lookup(cfg.hash, o.state.cache, key)
               == (if known == Some(stale.val) && key == stale.key then None else Lookup(cfg.hash, s.cache, key))
            && o.packet.pdst == (if known.Some? && known.value != stale.val then known.value else p.pdst)
  {
    TouchExact(cfg.hash, s.cache, p.inval.value.key, key);
    RemoveExact(cfg.hash, s.cache, p.inval.value.key, key);
  }

  /** An invalidation removes nothing but the stale mapping it names. */
  lemma {:induction false} InvalidationRemovesOnlyTheStaleEntry(h: Hash, c: Slots, stale: Mapping, m: Mapping)
    ensures Holds(h, c, m) && !Holds(h, Invalidate(h, c, stale), m) <==> Holds(h, c, m) && m == stale
  {
    TouchExact(h, c, stale.key, m.key);
    RemoveExact(h, c, stale.key, m.key);
  }

  // ---------------------------------------------------------------- what a switch learns, and when

  /** A slot that takes the key without an eviction. */
  predicate Vacant(h: Hash, c: Slots, key: Addr) {
    SlotOf(h, c, key).key == 0 || SlotOf(h, c, key).key == key
  }

  /** The mapping a packet teaches a switch. */
  function Taught(cfg: Config, p: Packet): Mapping {
    if LearnsSource(cfg, p) then Mapping(p.vsrc, p.psrc)
    else if cfg.role == LEAF then Mapping(p.vdst, p.pdst)
    else Lesson(p)
  }

  /** When it is learned: leaves and cores never evict for a destination, cores take a spilled
      mapping only if it is the packet's destination, is new, and finds an idle slot, spines with
      access bits spare active entries, and all others always learn. */
  predicate Learns(cfg: Config, c: Slots, p: Packet) {
    var m := Taught(cfg, p);
    var known := Lookup(cfg.hash, c, m.key).Some?;
    if cfg.role == LEAF then LearnsSource(cfg, p) || (!ToGateway(cfg, p) && Vacant(cfg.hash, c, m.key))
    else
      && (p.evict.Some? || !ToGateway(cfg, p))
      && (if cfg.role == CORE && p.evict.Some? then m.key == p.vdst && !Active(cfg, c, m) && !known
          else if cfg.role == CORE then Vacant(cfg.hash, c, m.key)
          else if cfg.role != GW_LEAF && cfg.accessBit then !Active(cfg, c, m) || known
          else true)
  }

  lemma {:induction false} LearnIsExact(cfg: Config, c: Slots, p: Packet, coin: bool, key: Addr)
    requires p.evict != Some(Mapping(0, 0)) && Taught(cfg, p).val != 0
    ensures var m, l := Taught(cfg, p), Learn(cfg, c, p, coin);
            && !l.stop
            && Lookup(cfg.hash, l.cache, key)
               == (if !Learns(cfg, c, p) || !Collide(cfg.hash, |c|, m.key, key) then Lookup(cfg.hash, c, key)
                   else if key == m.key then Some(m.val) else None)
            && l.evict == (if cfg.role == LEAF || !Learns(cfg, c, p) then p.evict else Evicted(cfg.hash, c, m.key))
            && l.sent == (if cfg.role == GW_LEAF && coin && Learns(cfg, c, p)
                             && LeafAddressForHost(cfg.podCount, p.source) != cfg.address
                          then Some(Learning(m, LeafAddressForHost(cfg.podCount, p.source))) else None)
  {
    var m := Taught(cfg, p);
    PutExact(cfg.hash, c, m.key, m.val, key);
    PutIfNotEvictExact(cfg.hash, c, m.key, m.val, key);
  }

  /** What every later lookup finds, what the packet takes along and what is sent, after a packet
      without an invalidation tag: exactly the taught mapping is added, exactly when the switch
      learns, at the cost of exactly the colliding entry, which becomes the eviction tag above the
      leaves. */
  lemma {:induction false} LearnsExactly(cfg: Config, s: State, p: Packet, coin: bool, key: Addr)
    requires p.inval.None? && (Promotes(cfg, p) ==> p.evict.None?)
    requires p.evict != Some(Mapping(0, 0)) && Taught(cfg, p).val != 0
    ensures var m, o := Taught(cfg, p), Receive(cfg, s, p, coin);
            var learns := Learns(cfg, s.cache, p);
            && Lookup(cfg.hash, o.state.cache, key)
               == (if !learns || !Collide(cfg.hash, |s.cache|, m.key, key) then Lookup(cfg.hash, s.cache, key)
                   else if key == m.key then Some(m.val) else None)
            && (!(Promotes(cfg, p) && Lookup(cfg.hash, s.cache, p.vdst).Some?) ==>
                  o.packet.evict
                  == (if cfg.role == LEAF || !learns then p.evict else Evicted(cfg.hash, s.cache, m.key)))
            && o.sent == (if cfg.role == GW_LEAF && coin && learns
                             && LeafAddressForHost(cfg.podCount, p.source) != cfg.address
                          then Some(Learning(m, LeafAddressForHost(cfg.podCount, p.source))) else None)
  {
    if Promotes(cfg, p) {
      TouchExact(cfg.hash, s.cache, p.vdst, key);
      TouchExact(cfg.hash, Touch(cfg.hash, s.cache, p.vdst), p.vdst, key);
    } else {
      LearnIsExact(cfg, s.cache, p, coin, key);
      TouchExact(cfg.hash, Learn(cfg, s.cache, p, coin).cache, p.vdst, key);
    }
  }

  /** A message acts by what every later lookup finds: a learning message stores its pair at its
      target and does nothing elsewhere, an invalidation takes away exactly the pair it names
      wherever it passes, and both go on until they are at their target. */
  lemma {:induction false} MessageActsExactly(cfg: Config, s: State, m: Message, key: Addr)
    requires m.pair.val != 0
    ensures var (s', forward) := HandleMessage(cfg, s, m);
            && forward == (m.dst != cfg.address) && s'.bloom == s.bloom
            && Lookup(cfg.hash, s'.cache, key)
               == (match m
                   case Learning(pair, _) =>
                     if forward || !Collide(cfg.hash, |s.cache|, pair.key, key) then Lookup(cfg.hash, s.cache, key)
                     else if key == pair.key then Some(pair.val) else None
                   case Invalidation(pair, _) =>
                     if Lookup(cfg.hash, s.cache, key) == Some(pair.val) && key == pair.key then None
                     else Lookup(cfg.hash, s.cache, key))
  {
    PutExact(cfg.hash, s.cache, m.pair.key, m.pair.val, key);
    TouchExact(cfg.hash, s.cache, m.pair.key, key);
    RemoveExact(cfg.hash, s.cache, m.pair.key, key);
  }

  /** With source learning on, a leaf learns the sender's machine from a gateway-bound packet exactly
      when the packet has passed a switch before, which its TTL shows: at the sender's own leaf the TTL
      is still within one of the default. A default of 0 wraps around, so then it always learns. */
  lemma {:induction false} SourcesAreLearnedAfterOneHop(cfg: Config, s: State, p: Packet, coin: bool, key: Addr)
    requires cfg.role == LEAF && p.inval.None? && p.pdst in cfg.gws && p.psrc != 0 && p.ttl < 256
    ensures var o := Receive(cfg, s, p, coin);
            Lookup(cfg.hash, o.state.cache, key)
            == if !cfg.sourceLearning || (cfg.defaultTtl > 0 && p.ttl + 1 >= cfg.defaultTtl)
                  || !Collide(cfg.hash, |s.cache|, p.vsrc, key)
               then Lookup(cfg.hash, s.cache, key)
               else if key == p.vsrc then Some(p.psrc) else None
  {
    PutExact(cfg.hash, s.cache, p.vsrc, p.psrc, key);
    TouchExact(cfg.hash, Learn(cfg, s.cache, p, coin).cache, p.vdst, key);
  }

  /** A tag (0, 0) marks an entry as obsolete: above the leaves, the slot of the packet's destination is
      emptied if it is found there, no other slot changes, not even an access bit, and the packet goes
      on as it is. No run has such a tag. */
  lemma {:induction false} ObsoleteTagPurges(cfg: Config, s: State, p: Packet, coin: bool, i: nat)
    requires cfg.role != LEAF && p.inval.None? && p.evict == Some(Mapping(0, 0)) && i < |s.cache|
    requires !(cfg.role == SPINE && p.pdst in cfg.gws)
    ensures var o := Receive(cfg, s, p, coin);
            && |o.state.cache| == |s.cache|
            && o.state.cache[i]
               == (if i == Place(cfg.hash, |s.cache|, p.vdst) && Lookup(cfg.hash, s.cache, p.vdst).Some?
                   then Slot(0, 0, false) else s.cache[i])
            && o.packet == p && o.sent == None && o.generated == None && !o.fault
  {
  }

  /** Every slot a message leaves: an invalidation asks its key's slot, which tells whether an entry of
      the key is left; a learning message writes its key's slot at its target; all else stays. */
  lemma {:induction false} MessageSlots(cfg: Config, s: State, m: Message, i: nat)
    requires i < |s.cache|
    ensures var c' := HandleMessage(cfg, s, m).0.cache;
            var mine := i == Place(cfg.hash, |s.cache|, m.pair.key);
            && |c'| == |s.cache|
            && (!mine ==> c'[i] == s.cache[i])
            && (mine && m.Learning? ==>
                  c'[i] == if m.dst == cfg.address then Slot(m.pair.key, m.pair.val, false) else s.cache[i])
            && (mine && m.Invalidation? ==>
                  c'[i] == match Lookup(cfg.hash, s.cache, m.pair.key)
                           case None => s.cache[i].(bit := false)
                           case Some(v) => if v == m.pair.val then Slot(0, 0, false) else s.cache[i].(bit := true))
  {
  }

  // ---------------------------------------------------------------- spilled entries are conserved

  /** The mappings a switch and a passing packet hold between them. */
  predicate Kept(h: Hash, c: Slots, tag: Option<Mapping>, m: Mapping) {
    Holds(h, c, m) || tag == Some(m)
  }

  /** One true value per key. */
  ghost predicate SingleValued(ok: iset<Mapping>) {
    forall m, m' :: m in ok && m' in ok && m.key == m'.key ==> m == m'
  }

  lemma {:induction false} SpillConserves(h: Hash, c: Slots, added: Mapping, m: Mapping, ok: iset<Mapping>)
    requires m.key != 0 && Sound(ok) && SingleValued(ok) && SlotsOk(h, c, ok) && added in ok
    ensures Kept(h, Put(h, c, added.key, added.val), Evicted(h, c, added.key), m) <==> Kept(h, c, Some(added), m)
  {
    var i := Place(h, |c|, added.key);
    assert SlotOk(h, |c|, c[i], i, ok);
    PutExact(h, c, added.key, added.val, m.key);
  }

  lemma {:induction false} FreePutConserves(h: Hash, c: Slots, added: Mapping, m: Mapping, ok: iset<Mapping>)
    requires m.key != 0 && Sound(ok) && SingleValued(ok) && SlotsOk(h, c, ok) && added in ok
    ensures Kept(h, c, None, m) ==> Kept(h, PutIfNotEvict(h, c, added.key, added.val), None, m)
    ensures Kept(h, PutIfNotEvict(h, c, added.key, added.val), None, m) ==> Kept(h, c, Some(added), m)
  {
    var i := Place(h, |c|, added.key);
    assert SlotOk(h, |c|, c[i], i, ok);
    PutIfNotEvictExact(h, c, added.key, added.val, m.key);
  }

  lemma {:induction false} LearnConserves(cfg: Config, c: Slots, p: Packet, coin: bool, m: Mapping, ok: iset<Mapping>)
    requires cfg.role != LEAF && p.inval.None? && m.key != 0
    requires Sound(ok) && SingleValued(ok) && SlotsOk(cfg.hash, c, ok) && PacketOk(cfg, p, ok)
    ensures var l := Learn(cfg, c, p, coin);
            && (Kept(cfg.hash, c, p.evict, m) ==> Kept(cfg.hash, l.cache, l.evict, m))
            && (Kept(cfg.hash, l.cache, l.evict, m) ==>
                  Kept(cfg.hash, c, p.evict, m) || (!ToGateway(cfg, p) && m == Mapping(p.vdst, p.pdst)))
  {
    if p.evict.Some? || !ToGateway(cfg, p) {
      SpillConserves(cfg.hash, c, Lesson(p), m, ok);
      FreePutConserves(cfg.hash, c, Lesson(p), m, ok);
    }
  }

  /** Spill conservation over one step: nothing held before is lost, and the only mapping gained
      is the packet's own resolved destination. */
  predicate Conserves(cfg: Config, before: Slots, p: Packet, after: Slots, tag: Option<Mapping>, m: Mapping) {
    && (Kept(cfg.hash, before, p.evict, m) ==> Kept(cfg.hash, after, tag, m))
    && (Kept(cfg.hash, after, tag, m) ==>
          Kept(cfg.hash, before, p.evict, m) || (!ToGateway(cfg, p) && m == Mapping(p.vdst, p.pdst)))
  }

  lemma {:induction false} UntaggedConserves(cfg: Config, s: State, p: Packet, coin: bool, m: Mapping,
                                             ok: iset<Mapping>)
    requires cfg.role != LEAF && p.inval.None? && m.key != 0
    requires Promotes(cfg, p) ==> p.evict.None?
    requires Sound(ok) && SingleValued(ok) && SlotsOk(cfg.hash, s.cache, ok) && PacketOk(cfg, p, ok)
    ensures var o := ReceiveUntagged(cfg, s, p, coin);
            Conserves(cfg, s.cache, p, o.state.cache, o.packet.evict, m)
  {
    TouchExact(cfg.hash, s.cache, p.vdst, m.key);
    if Promotes(cfg, p) && Lookup(cfg.hash, s.cache, p.vdst).Some? {
    } else {
      UpdatesKeepOk(cfg.hash, s.cache, p.vdst, ok);
      var looked := if Promotes(cfg, p) then Touch(cfg.hash, s.cache, p.vdst) else s.cache;
      LearnConserves(cfg, looked, p, coin, m, ok);
      LearnKeepsOk(cfg, looked, p, coin, ok);
      TouchExact(cfg.hash, Learn(cfg, looked, p, coin).cache, p.vdst, m.key);
    }
  }

  /** Above the leaves, no mapping of a nonzero key held by cache and eviction tag together is lost in
      a step, and the only one gained is the packet's own resolved destination. The spine condition,
      that gateway-bound packets reach a spine outside the gateway pods without an eviction tag, is a
      whole-run invariant of the topology. */
  lemma {:induction false} SpillsAreConserved(cfg: Config, s: State, p: Packet, coin: bool, m: Mapping,
                                              ok: iset<Mapping>)
    requires cfg.role != LEAF && p.inval.None? && m.key != 0
    requires Promotes(cfg, p) ==> p.evict.None?
    requires Sound(ok) && SingleValued(ok) && SlotsOk(cfg.hash, s.cache, ok) && PacketOk(cfg, p, ok)
    ensures var o := Receive(cfg, s, p, coin);
            Conserves(cfg, s.cache, p, o.state.cache, o.packet.evict, m)
  {
    UntaggedConserves(cfg, s, p, coin, m, ok);
  }

  /** A key that the cache finds or the eviction tag names. */
  predicate KeyKept(h: Hash, c: Slots, tag: Option<Mapping>, key: Addr) {
    Lookup(h, c, key).Some? || (tag.Some? && tag.value.key == key)
  }

  /** Keys are conserved even where cache and packet disagree on values, as after a migration: a
      nonzero key found or named before the step is found or named after it. */
  lemma {:induction false} KeysAreConserved(cfg: Config, s: State, p: Packet, coin: bool, key: Addr)
    requires cfg.role != LEAF && p.inval.None? && key != 0
    requires (Promotes(cfg, p) ==> p.evict.None?) && p.evict != Some(Mapping(0, 0)) && Lesson(p).val != 0
    requires KeyKept(cfg.hash, s.cache, p.evict, key)
    ensures var o := Receive(cfg, s, p, coin); KeyKept(cfg.hash, o.state.cache, o.packet.evict, key)
  {
    LearnsExactly(cfg, s, p, coin, key);
  }

  // ---------------------------------------------------------------- access bits protect

  predicate Protects(cfg: Config) {
    cfg.role == CORE || ((cfg.role == SPINE || cfg.role == GW_SPINE) && cfg.accessBit)
  }

  /** At cores, and at spines using access bits, no learning step evicts an entry of a nonzero key
      whose access bit is set, whatever cache and packet claim: it is still found afterwards, and
      with its value, unless the packet teaches a new one for that very key. */
  lemma {:induction false} AccessBitProtects(cfg: Config, s: State, p: Packet, coin: bool, key: Addr)
    requires Protects(cfg) && p.inval.None?
    requires (Promotes(cfg, p) ==> p.evict.None?) && p.evict != Some(Mapping(0, 0)) && Lesson(p).val != 0
    requires key != 0 && SlotOf(cfg.hash, s.cache, key).bit && Lookup(cfg.hash, s.cache, key).Some?
    ensures var known := Lookup(cfg.hash, Receive(cfg, s, p, coin).state.cache, key);
            known.Some? && (Lesson(p).key != key ==> known == Lookup(cfg.hash, s.cache, key))
  {
    LearnsExactly(cfg, s, p, coin, key);
  }

  // ---------------------------------------------------------------- access bits follow use

  /** Learning that writes its slot anew and so clears the access bit; a leaf learning a destination
      and a core learning from an untagged packet keep it. */
  predicate Overwrites(cfg: Config, c: Slots, p: Packet) {
    && Learns(cfg, c, p)
    && (cfg.role == LEAF ==> LearnsSource(cfg, p))
    && (cfg.role == CORE ==> p.evict.Some?)
  }

  /** Every access bit after an untagged packet: the slot asked for a gateway-bound destination tells
      whether the cache knows it, a slot written anew is idle, all others are as before. */
  lemma {:induction false} BitsFollowUse(cfg: Config, s: State, p: Packet, coin: bool, i: nat)
    requires i < |s.cache| && p.inval.None? && (Promotes(cfg, p) ==> p.evict.None?)
    requires p.evict != Some(Mapping(0, 0)) && Taught(cfg, p).val != 0
    ensures var c, c' := s.cache, Receive(cfg, s, p, coin).state.cache;
            c'[i].bit
            == if p.pdst in cfg.gws && i == Place(cfg.hash, |c|, p.vdst) then Lookup(cfg.hash, c', p.vdst).Some?
               else if Overwrites(cfg, c, p) && i == Place(cfg.hash, |c|, Taught(cfg, p).key) then false
               else c[i].bit
  {
    if !Promotes(cfg, p) {
      LearnedBits(cfg, s.cache, p, coin, i);
      LearnIsExact(cfg, s.cache, p, coin, p.vdst);
    }
  }

  lemma {:induction false} LearnedBits(cfg: Config, c: Slots, p: Packet, coin: bool, i: nat)
    requires i < |c| && p.evict != Some(Mapping(0, 0))
    ensures var l := Learn(cfg, c, p, coin);
            && |l.cache| == |c|
            && l.cache[i].bit
               == if Overwrites(cfg, c, p) && i == Place(cfg.hash, |c|, Taught(cfg, p).key) then false else c[i].bit
  {
  }

  /** And after a tagged one: the slot of the named key tells whether an entry of that key is left. */
  lemma {:induction false} TaggedBitsFollowUse(cfg: Config, s: State, p: Packet, coin: bool, i: nat)
    requires i < |s.cache| && p.inval.Some?
    ensures var c', stale := Receive(cfg, s, p, coin).state.cache, p.inval.value;
            c'[i].bit
            == if i == Place(cfg.hash, |s.cache|, stale.key) then Lookup(cfg.hash, c', stale.key).Some?
               else s.cache[i].bit
  {
  }
}
