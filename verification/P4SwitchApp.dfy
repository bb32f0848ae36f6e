/** The switch application's code, in place on its cache and filter, proved against SwitchSpec. */
module P4SwitchApp {
  import opened Addressing
  import opened CacheSpec
  import opened BloomFilter
  import opened SwitchSpec
  import P4Cache

  class Switch {
    const cfg: Config
    const cache: P4Cache.Cache
    const filter: Filter

    ghost predicate Valid()
      reads cache.bits
    {
      && cache.Valid()
      && cache.hash == cfg.hash
      && cache.bits != filter.cells
    }

    ghost function Contents(): State
      reads cache.pairs, cache.bits, filter.cells
      requires Valid()
    {
      State(cache.Contents(), filter.Contents())
    }

    constructor (cfg: Config, memorySize: nat, filterSize: nat)
      requires memorySize > 0
      ensures Valid() && this.cfg == cfg
      ensures Contents().cache == Empty(memorySize)
      ensures |Contents().bloom| == filterSize && forall i :: 0 <= i < filterSize ==> !Contents().bloom[i]
      ensures fresh(cache.pairs) && fresh(cache.bits) && fresh(filter.cells)
    {
      this.cfg := cfg;
      cache := new P4Cache.Cache(memorySize, cfg.hash);
      filter := new Filter(filterSize);
    }

    /** The lookup and removal that a (key, stale) tag causes; redirect is the address to go on to
        instead, if the cache knows a different one. */
    method ApplyInvalidation(stale: Mapping) returns (redirect: Option<Addr>)
      requires Valid()
      modifies cache.pairs, cache.bits
      ensures Valid() && filter.Contents() == old(filter.Contents())
      ensures cache.Contents() == Invalidate(cfg.hash, old(cache.Contents()), stale)
      ensures forall pdst :: Redirected(cfg.hash, old(cache.Contents()), stale, pdst)
                          == if redirect.Some? then redirect.value else pdst
    {
      redirect := None;
      var found, cachedVal := cache.Get(stale.key);
      if found {
        if cachedVal == stale.val {
          cache.Remove(stale.key);
        } else {
          redirect := Some(cachedVal);
        }
      }
    }

    method ReceiveTagged(packet: Packet)
      returns (p: Packet, sent: Option<Message>, generated: Option<nat>)
      requires Valid() && packet.inval.Some?
      requires cfg.role == LEAF && packet.hit.Some? && cfg.bloomEnabled ==> packet.hit.value.id < filter.cells.Length
      modifies cache.pairs, cache.bits, filter.cells
      ensures Valid()
      ensures Outcome(Contents(), p, sent, generated, false)
           == SwitchSpec.ReceiveTagged(cfg, old(Contents()), packet)
    {
      p, sent, generated := packet, None, None;
      var stale := p.inval.value;
      var redirect := ApplyInvalidation(stale);
      if redirect.Some? {
        p := p.(pdst := redirect.value);
      }
      if cfg.role == LEAF && p.hit.Some? {
        var hitTag := p.hit.value;
        p := p.(hit := None);
        var generate := cfg.generateInvalidation;
        if cfg.bloomEnabled {
          var marked := filter.Get(hitTag.id);
          if marked {
            generate := false;
          }
        }
        if generate {
          generated := Some(hitTag.id);
          sent := GeneratePacketToAddress(Invalidation(Mapping(p.vdst, stale.val), hitTag.address));
        }
        if cfg.bloomEnabled {
          filter.Put(hitTag.id);
        }
      }
    }

    method GeneratePacketToAddress(m: Message) returns (sent: Option<Message>)
      ensures sent == Emit(cfg, m)
    {
      if m.dst != cfg.address {
        sent := Some(m);
      } else {
        sent := None;
      }
    }

    method LearnAtLeaf(p: Packet)
      requires Valid()
      modifies cache.pairs, cache.bits
      ensures Valid() && filter.Contents() == old(filter.Contents())
      ensures cache.Contents() == SwitchSpec.LearnAtLeaf(cfg, old(cache.Contents()), p).cache
    {
      if cfg.sourceLearning && p.ttl < TtlLimit(cfg) {
        var _ := cache.Put(p.vsrc, p.psrc);
      } else if p.pdst !in cfg.gws {
        var _ := cache.PutIfNotEvict(p.vdst, p.pdst);
      }
    }

    method LearnAtCore(packet: Packet) returns (p: Packet)
      requires Valid()
      modifies cache.pairs, cache.bits
      ensures Valid() && filter.Contents() == old(filter.Contents())
      ensures var l := SwitchSpec.LearnAtCore(cfg, old(cache.Contents()), packet);
              cache.Contents() == l.cache && p == packet.(evict := l.evict)
    {
      p := packet;
      if packet.evict.Some? {
        var learn := packet.evict.value;
        p := p.(evict := None);
        var bit := cache.GetBit(learn.key);
        var inCache := cache.Find(learn.key);
        if learn.key == p.vdst && bit == 0 && !inCache {
          var evicted := cache.Put(learn.key, learn.val);
          if evicted.Some? {
            p := p.(evict := evicted);
          }
        } else {
          p := p.(evict := packet.evict);
        }
      } else {
        var _ := cache.PutIfNotEvict(p.vdst, p.pdst);
      }
    }

    /** Learning at spines and gateway leaves; learn is the mapping, packet has lost its tag. */
    method LearnOrSpill(packet: Packet, tag: Option<Mapping>, learn: Mapping, coin: bool)
      returns (p: Packet, sent: Option<Message>)
      requires Valid() && packet.evict.None? && (tag.Some? ==> tag.value == learn)
      modifies cache.pairs, cache.bits
      ensures Valid() && filter.Contents() == old(filter.Contents())
      ensures var c := old(cache.Contents());
              var keep := (cfg.role == SPINE || cfg.role == GW_SPINE) && cfg.accessBit &&
                          Active(cfg, c, learn) && Lookup(cfg.hash, c, learn.key).None?;
              && cache.Contents() == (if keep then c else Put(cfg.hash, c, learn.key, learn.val))
              && p == packet.(evict := if keep then tag else Evicted(cfg.hash, c, learn.key))
              && sent == (if cfg.role == GW_LEAF && coin
                          then Emit(cfg, Learning(learn, LeafAddressForHost(cfg.podCount, packet.source))) else None)
    {
      p, sent := packet, None;
      if (cfg.role == SPINE || cfg.role == GW_SPINE) && cfg.accessBit {
        var bit := cache.GetBit(learn.key);
        var inCache := cache.Find(learn.key);
        if bit == 1 && !inCache {
          if tag.Some? {
            p := p.(evict := tag);
          }
        } else {
          var evicted := cache.Put(learn.key, learn.val);
          if evicted.Some? {
            p := p.(evict := evicted);
          }
        }
      } else {
        if cfg.role == GW_LEAF && coin {
          sent := GeneratePacketToAddress(Learning(learn, LeafAddressForHost(cfg.podCount, p.source)));
        }
        var evicted := cache.Put(learn.key, learn.val);
        if evicted.Some? {
          p := p.(evict := evicted);
        }
      }
    }

    method LearnAbove(packet: Packet, coin: bool) returns (p: Packet, sent: Option<Message>, stop: bool)
      requires Valid()
      modifies cache.pairs, cache.bits
      ensures Valid() && filter.Contents() == old(filter.Contents())
      ensures var l := SwitchSpec.LearnAbove(cfg, old(cache.Contents()), packet, coin);
              cache.Contents() == l.cache && p == packet.(evict := l.evict) && sent == l.sent && stop == l.stop
    {
      p, sent, stop := packet, None, false;
      var learn := Mapping(p.vdst, p.pdst);
      if packet.evict.Some? {
        learn := packet.evict.value;
        if learn.key == 0 && learn.val == 0 {
          var obsolete := cache.Find(p.vdst);
          if obsolete {
            cache.Remove(p.vdst);
          }
          stop := true;
          return;
        }
      }
      if packet.evict.Some? || p.pdst !in cfg.gws {
        if cfg.role == CORE {
          p := LearnAtCore(packet);
        } else {
          p, sent := LearnOrSpill(packet.(evict := None), packet.evict, learn, coin);
        }
      }
    }

    /** The lookup of a gateway-bound packet at the end of ReceivePacket. */
    method ResolveLocally(packet: Packet) returns (p: Packet, fault: bool)
      requires Valid()
      modifies cache.bits
      ensures Valid() && filter.Contents() == old(filter.Contents())
      ensures var o := Resolve(cfg, old(Contents()), packet, None);
              Contents() == o.state && p == o.packet && fault == o.fault
    {
      p, fault := packet, false;
      if p.pdst in cfg.gws {
        var found, cachedAddr := cache.Get(p.vdst);
        if found {
          fault := p.hit.Some?;
          p := p.(hit := Some(Hit(cfg.address, cfg.id)), pdst := cachedAddr);
        }
      }
    }

    /** The lookup by which a spine outside the gateway pods promotes an entry toward the cores. */
    method Promote(packet: Packet) returns (p: Packet, done: bool)
      requires Valid()
      modifies cache.bits
      ensures Valid() && filter.Contents() == old(filter.Contents())
      ensures cache.Contents() == if Promotes(cfg, packet) then Touch(cfg.hash, old(cache.Contents()), packet.vdst)
                                  else old(cache.Contents())
      ensures done <==> Promotes(cfg, packet) && Lookup(cfg.hash, old(cache.Contents()), packet.vdst).Some?
      ensures var known := Lookup(cfg.hash, old(cache.Contents()), packet.vdst);
              p == if done then packet.(evict := Some(Mapping(packet.vdst, known.value))) else packet
    {
      p, done := packet, false;
      if cfg.role == SPINE && p.pdst in cfg.gws {
        var found, cachedVal := cache.Get(p.vdst);
        if found {
          p := p.(evict := Some(Mapping(p.vdst, cachedVal)));
          done := true;
        }
      }
    }

    /** ReceivePacket for a data packet. */
    method ReceivePacket(packet: Packet, coin: bool)
      returns (p: Packet, sent: Option<Message>, generated: Option<nat>, fault: bool)
      requires Valid()
      requires packet.inval.Some? && cfg.role == LEAF && packet.hit.Some? && cfg.bloomEnabled ==>
                 packet.hit.value.id < filter.cells.Length
      modifies cache.pairs, cache.bits, filter.cells
      ensures Valid()
      ensures Outcome(Contents(), p, sent, generated, fault) == Receive(cfg, old(Contents()), Hopped(packet), coin)
    {
      p, sent, generated, fault := packet, None, None, false;
      p := p.(hops := p.hops + 1);
      if p.inval.Some? {
        p, sent, generated := ReceiveTagged(p);
        return;
      }
      var done;
      p, done := Promote(p);
      if done {
        return;
      }
      if cfg.role == LEAF {
        LearnAtLeaf(p);
      } else {
        p, sent, done := LearnAbove(p, coin);
        if done {
          return;
        }
      }
      p, fault := ResolveLocally(p);
    }

    /** HandleProtocolPacket; forward says whether the message is sent on toward its target. */
    method HandleProtocolPacket(m: Message) returns (forward: bool)
      requires Valid()
      modifies cache.pairs, cache.bits
      ensures Valid()
      ensures (Contents(), forward) == HandleMessage(cfg, old(Contents()), m)
    {
      if m.Invalidation? {
        var _ := ApplyInvalidation(m.pair);
      }
      if m.dst == cfg.address {
        if m.Learning? {
          var _ := cache.Put(m.pair.key, m.pair.val);
        }
        forward := false;
      } else {
        forward := true;
      }
    }
  }
}
