/** Hosts and gateways: where packets enter the tunnel, are resolved, and are sent back when
    they reach a machine their destination has left. */
module Endpoints {
  import opened Addressing
  import opened CacheSpec
  import opened SwitchSpec
  import opened Topology
  import opened DivMod

  type Directory = map<Addr, Addr>

  const FRESH_TTL := 64

  // ---------------------------------------------------------------- gateways

  /** A gateway's answer to a packet: its outer destination becomes the directory's. */
  function Resolved(dir: Directory, p: Packet): Packet
    requires p.vdst in dir
  {
    p.(pdst := dir[p.vdst], gwVisits := p.gwVisits + 1)
  }

  /** What leaves the gateway after its delay: no eviction and no invalidation tag. */
  function Stripped(p: Packet): Packet {
    p.(evict := None, inval := None)
  }

  class Gateway {
    const directory: Directory

    constructor (directory: Directory)
      ensures this.directory == directory
    {
      this.directory := directory;
    }

    /** The receive loop: every waiting packet is resolved and scheduled, in order. A destination
        the directory lacks ends the simulation at that packet. */
    method ReceivePacket(waiting: seq<Packet>) returns (scheduled: seq<Packet>, known: bool)
      ensures known <==> forall i :: 0 <= i < |waiting| ==> waiting[i].vdst in directory
      ensures known ==> |scheduled| == |waiting|
      ensures |scheduled| <= |waiting|
      ensures !known ==> |scheduled| < |waiting| && waiting[|scheduled|].vdst !in directory
      ensures forall i :: 0 <= i < |scheduled| ==>
                waiting[i].vdst in directory && scheduled[i] == Resolved(directory, waiting[i])
    {
      scheduled, known := [], true;
      for i := 0 to |waiting|
        invariant |scheduled| == i && known
        invariant forall j :: 0 <= j < i ==>
                    waiting[j].vdst in directory && scheduled[j] == Resolved(directory, waiting[j])
      {
        if waiting[i].vdst !in directory {
          return scheduled, false;
        }
        scheduled := scheduled + [waiting[i].(pdst := directory[waiting[i].vdst], gwVisits := waiting[i].gwVisits + 1)];
      }
    }

    method SendPacket(packet: Packet) returns (p: Packet)
      ensures p == Stripped(packet)
    {
      p := packet.(evict := None);
      p := p.(inval := None);
    }
  }

  // ---------------------------------------------------------------- hosts

  /** Which gateway a packet uses: by flow hash, or by ranges of virtual addresses. */
  function GatewayIdx(perFlow: bool, flowHash: nat, vdst: Addr, range: nat, gateways: nat): (i: nat)
    requires gateways > 0 && range > 0
    ensures i < gateways
  {
    if perFlow then flowHash % gateways
    else if vdst / range < gateways - 1 then vdst / range
    else gateways - 1
  }

  /** Without per-flow balancing, gateway i serves the virtual addresses of the i-th range, and the
      last one also all addresses above the ranges, which exist when containers do not divide
      evenly. */
  lemma {:induction false} GatewaysServeRanges(vdst: Addr, range: nat, gateways: nat)
    requires gateways > 0 && range > 0
    ensures var i := GatewayIdx(false, 0, vdst, range, gateways);
            && Index(i, range, 0) <= vdst
            && (i < gateways - 1 ==> vdst < Index(i + 1, range, 0))
            && (vdst >= Index(gateways, range, 0) ==> i == gateways - 1)
            && (vdst < Index(gateways, range, 0) ==> vdst < Index(i + 1, range, 0))
  {
    IsQuotient(vdst, range);
    IsIndex(vdst, range);
    var p, o := Row(vdst, range), Column(vdst, range);
    Within(p, range, o, gateways);
    Within(p, range, o, gateways - 1);
    IsProduct(p, range, o);
    IsProduct(p, range, 0);
    IsProduct(p + 1, range, 0);
  }

  /** A packet as VirtualSend hands it to the tunnel for the first time. */
  function Fresh(vsrc: Addr, vdst: Addr, host: Addr, gateway: Addr): Packet {
    Packet(vsrc, vdst, host, gateway, FRESH_TTL, host, 0, None, None, None, 0, 0)
  }

  /** A packet that reached a host its destination has left: tagged with the stale mapping and
      sent on, to a gateway if a switch redirected it here, else straight to the new host. */
  function Returned(p: Packet, host: Addr, gateway: Addr, followMe: Addr): Packet {
    p.(psrc := host,
       pdst := if p.hit.Some? then gateway else followMe,
       ttl := FRESH_TTL,
       inval := Some(Mapping(p.vdst, host)),
       misdelivered := p.misdelivered + 1)
  }

  /** What VirtualSend schedules. */
  datatype Sending = Sending(packet: Packet, delayMicros: nat)

  /** The machine numbered host under leaf number leaf, if pods are width leaves wide: UpdateMappings
      computes it with the width of the topology, SendFollowMeRule with the configured one. */
  function HostAt(width: nat, leaf: nat, host: nat): Addr
    requires width > 0
  {
    NodePhysicalAddress(Row(leaf, width), Column(leaf, width), host)
  }

  class SocketHelper {
    const address: Addr
    const gateways: seq<Addr>
    const podWidth: nat
    const dstLeaf: nat
    const dstHost: nat
    var misdeliveryCount: nat

    predicate Valid() {
      podWidth > 0
    }

    constructor (address: Addr, gateways: seq<Addr>, podWidth: nat, dstLeaf: nat, dstHost: nat)
      requires podWidth > 0
      ensures Valid() && this.address == address && this.gateways == gateways
      ensures this.podWidth == podWidth && this.dstLeaf == dstLeaf && this.dstHost == dstHost
      ensures misdeliveryCount == 0
    {
      this.address, this.gateways, misdeliveryCount := address, gateways, 0;
      this.podWidth, this.dstLeaf, this.dstHost := podWidth, dstLeaf, dstHost;
    }

    /** The misdelivery branch: straight to where the container is thought to have moved. */
    method SendFollowMeRule(packet: Packet) returns (p: Packet)
      requires Valid()
      ensures p == packet.(psrc := address, pdst := HostAt(podWidth, dstLeaf, dstHost), ttl := FRESH_TTL)
    {
      IsQuotient(dstLeaf, podWidth);
      p := SendTo(packet, NodePhysicalAddress(dstLeaf / podWidth, dstLeaf % podWidth, dstHost));
    }

    /** VirtualSend in SwitchV2P mode. An inner TTL below 64 shows that this host forwarded the
        packet, that is, that it is not for a container here. */
    method VirtualSend(packet: Packet, innerTtl: nat, gwIdx: nat) returns (s: Sending, clash: bool)
      requires Valid() && gwIdx < |gateways|
      modifies this`misdeliveryCount
      ensures innerTtl < FRESH_TTL ==>
                && s == Sending(Returned(packet, address, gateways[gwIdx], HostAt(podWidth, dstLeaf, dstHost)), 10)
                && (clash <==> packet.inval.Some?)
                && misdeliveryCount == old(misdeliveryCount) + 1
      ensures innerTtl < FRESH_TTL ==>
                && s.packet.hit == packet.hit && s.packet.evict == packet.evict
                && s.packet.vsrc == packet.vsrc && s.packet.vdst == packet.vdst
                && s.packet.source == packet.source && s.packet.hops == packet.hops
                && s.packet.psrc == address && s.packet.ttl == 64
                && s.packet.inval == Some(Mapping(packet.vdst, address))
                && s.packet.pdst == (if packet.hit.Some? then gateways[gwIdx] else HostAt(podWidth, dstLeaf, dstHost))
      ensures innerTtl >= FRESH_TTL ==>
                && s == Sending(packet.(psrc := address, pdst := gateways[gwIdx], ttl := FRESH_TTL), 0)
                && !clash && misdeliveryCount == old(misdeliveryCount)
    {
      clash := false;
      if innerTtl < FRESH_TTL {
        clash := packet.inval.Some?;
        var p := packet.(inval := Some(Mapping(packet.vdst, address)));
        misdeliveryCount := misdeliveryCount + 1;
        p := p.(misdelivered := p.misdelivered + 1);
        if p.hit.Some? {
          p := SendTo(p, gateways[gwIdx]);
        } else {
          p := SendFollowMeRule(p);
        }
        return Sending(p, 10), clash;
      }
      var p := SendTo(packet, gateways[gwIdx]);
      s := Sending(p, 0);
    }

    /** The socket wraps the packet in a new outer header. */
    method SendTo(packet: Packet, dst: Addr) returns (p: Packet)
      ensures p == packet.(psrc := address, pdst := dst, ttl := FRESH_TTL)
    {
      p := packet.(psrc := address, pdst := dst, ttl := FRESH_TTL);
    }
  }

  // ---------------------------------------------------------------- migration targets

  /** The address a plan's machine has is one of the topology's. */
  lemma {:induction false} TargetIsHost(t: Topo, leaf: nat, host: nat)
    requires t.Valid() && leaf < t.leafCount && host < t.hosts[leaf]
    ensures var d := Host(Row(leaf, t.podWidth), Column(leaf, t.podWidth), host);
            && t.Has(d) && AddressOf(t.podCount, d) == HostAt(t.podWidth, leaf, host)
            && HostOf(HostAt(t.podWidth, leaf, host)) == d
  {
    FlatIndex(t, leaf);
    HostOfAddress(t.podCount, Row(leaf, t.podWidth), Column(leaf, t.podWidth), host);
  }

  lemma {:induction false} OnePod(t: Topo)
    requires t.Valid() && t.podWidth == t.leafCount
    ensures t.podCount == 1
  {
    Unique(1, 0, t.podWidth);
    IsProduct(t.podCount, t.podWidth, 0);
    Unique(t.podCount, 0, t.podWidth);
  }

  /** When the two widths give the same answer. */
  predicate FollowMeWorks(x: Params, leaf: nat) {
    x.shape == FATTREE || leaf < x.podWidth
  }

  /** The follow-me rule names the machine the container moved to exactly in a fat tree, or in a
      Clos network for destination leaves below the configured pod width; for all other leaves it
      names no machine of the network at all. */
  lemma {:induction false} FollowMeFindsTheContainerIff(x: Params, t: Topo, leaf: nat, host: nat)
    requires t.Valid() && BuiltFrom(t, x) && x.podWidth > 0 && leaf < t.leafCount && host < t.hosts[leaf]
    ensures HostAt(x.podWidth, leaf, host) == HostAt(t.podWidth, leaf, host) <==> FollowMeWorks(x, leaf)
    ensures !FollowMeWorks(x, leaf) ==>
              forall n :: t.Has(n) && n.Host? ==> AddressOf(t.podCount, n) != HostAt(x.podWidth, leaf, host)
  {
    if x.shape == CLOS {
      OnePod(t);
      ColumnAtMost(leaf, x.podWidth);
      ColumnAtMost(leaf, t.podWidth);
      var p, o := Row(leaf, x.podWidth), Column(leaf, x.podWidth);
      if leaf < x.podWidth {
        assert Column(leaf, x.podWidth) == leaf == Column(leaf, t.podWidth);
      } else {
        RowAtMost(leaf, x.podWidth);
        forall n | t.Has(n) && n.Host? ensures AddressOf(t.podCount, n) != HostAt(x.podWidth, leaf, host) {
          OtherPod(p, o, host, n.off, n.idx);
        }
        OtherPod(p, o, host, leaf, host);
      }
    }
  }

  lemma {:induction false} RowAtMost(i: nat, w: nat)
    requires w > 0
    ensures Row(i, w) <= i
  {
    if i >= w {
      RowAtMost(i - w, w);
    }
  }

  lemma {:induction false} OtherPod(p: nat, o: nat, i: nat, o': nat, i': nat)
    requires 0 < p < 255 && o < 256 && i < 256 && o' < 256 && i' < 256
    ensures NodePhysicalAddress(p, o, i) != NodePhysicalAddress(0, o', i')
  {
    DottedOctets(p + 1, o, i, 1);
    DottedOctets(1, o', i', 1);
  }

  /** A network in which it fails: eight leaves in a Clos network, the default pod width 4, and a
      container moved under leaf 5. */
  lemma {:induction false} FollowMeCanMiss()
    ensures var x := Params(CLOS, 16, 0, 4, [1, 1, 1, 1, 1, 1, 1, 1]);
            && ConstructorAsserts(x) && Derive(x).Valid() && BuiltFrom(Derive(x), x)
            && HostAt(x.podWidth, 5, 0) != HostAt(Derive(x).podWidth, 5, 0)
  {
    var x := Params(CLOS, 16, 0, 4, [1, 1, 1, 1, 1, 1, 1, 1]);
    AssertionsGiveValidTopology(x);
    FollowMeFindsTheContainerIff(x, Derive(x), 5, 0);
  }

  lemma {:induction false} ColumnAtMost(i: nat, w: nat)
    requires w > 0
    ensures Column(i, w) <= i
    ensures Row(i, w) == 0 <==> i < w
  {
    if i >= w {
      ColumnAtMost(i - w, w);
    }
  }
}
