/** Where packets are, how far they have come, and where they may still go. */
module Places {
  import opened Addressing
  import opened Lists
  import opened Forwarding
  import opened Walks
  import opened CacheSpec
  import opened SwitchSpec
  import opened SwitchProperties
  import opened Endpoints
  import opened Network
  import opened Invariants

  /** Switches still ahead of a packet at device n. */
  function Ahead(n: Node, p: Packet): nat {
    Distance(n, HostOf(p.pdst).pod, HostOf(p.pdst).off)
  }

  /** Switches a packet may pass in all: five to reach a gateway, five more to reach a host, and
      all of that once more for every return. */
  function Budget(s: Setup, p: Packet): nat {
    10 * p.misdelivered + (if p.pdst in s.gws then 5 else 10)
  }

  /** What is left at least of the outer TTL of 64 when the packet arrives. */
  function TtlFloor(s: Setup, p: Packet): nat {
    if p.pdst in s.gws then 59 else 54
  }

  predicate OutsideGatewayPods(s: Setup, n: Node) {
    (n.Leaf? || n.Spine?) && !GatewayPod(s, n.pod)
  }

  /** A gateway-bound packet has no eviction tag in a pod without gateways. */
  ghost predicate SpilledLate(s: Setup, p: Packet, n: Node) {
    p.pdst in s.gws && p.inval.None? && OutsideGatewayPods(s, n) ==> p.evict.None?
  }

  ghost predicate ArrivesRight(s: Setup, p: Packet, n: Node)
    requires Network.Valid(s)
  {
    if n.Host? then
      && s.t.Has(n) && AddressOf(s.t.podCount, n) == p.pdst
      && p.hops <= Budget(s, p) && p.ttl >= TtlFloor(s, p)
    else
      && Switch(s.t, n)
      && p.hops + Ahead(n, p) <= Budget(s, p) && p.ttl >= TtlFloor(s, p) + Ahead(n, p)
  }

  ghost predicate Placed(s: Setup, p: Packet, place: Place)
    requires Network.Valid(s)
  {
    match place
    case Arriving(n) => ArrivesRight(s, p, n)
    case AtGateway(h) =>
      h.Host? && s.t.Has(h) && p.pdst !in s.gws && p.hops <= 10 * p.misdelivered + 5 && p.ttl >= 59
    case AtHost(h) => h.Host? && s.t.Has(h) && p.hops <= 10 * p.misdelivered && p.ttl == FRESH_TTL && p.inval.Some?
    case Delivered(h) =>
      h.Host? && s.t.Has(h) && AddressOf(s.t.podCount, h) == p.pdst && p.pdst !in s.gws && p.hops <= Budget(s, p)
    case Gone => true
  }

  lemma {:induction false} BoundForHost(s: Setup, ph: Phase, p: Packet)
    requires Network.Valid(s) && FollowMeOk(s) && Aim(s, ph, p)
    ensures IsHostAddress(s.t, p.pdst)
  {
    if s.migration.Some? {
      FollowMeIsNewHost(s);
    }
    if p.pdst !in s.gws {
      AllowedIsHost(s, ph, Mapping(p.vdst, p.pdst));
    }
  }

  lemma {:induction false} AheadAtMostFive(n: Node, p: Packet)
    ensures Ahead(n, p) <= 5
    ensures !n.Host? ==> Ahead(n, p) >= 1
  {
  }

  /** A packet leaving a machine starts within its budget. */
  lemma {:induction false} LeavesRight(s: Setup, ph: Phase, p: Packet, h: Node)
    requires Network.Valid(s) && Aim(s, ph, p) && h.Host? && s.t.Has(h)
    requires p.hops + 5 <= Budget(s, p) && p.ttl >= TtlFloor(s, p) + 5
    ensures Placed(s, p, SentBy(h))
  {
    AheadAtMostFive(Leaf(h.pod, h.off), p);
  }

  /** A switch changes a destination only if it was a gateway. */
  lemma {:induction false} OnlyGatewayIsReplaced(s: Setup, ph: Phase, n: Node, st: State, p: Packet, coin: bool)
    requires Network.Valid(s) && Fate(s, ph, p) && CacheRight(s, ph, n, st)
    ensures var q := Receive(ConfigOf(s, n), st, p, coin).packet;
            q.pdst == p.pdst || (q.pdst !in s.gws && (FollowMeOk(s) ==> p.pdst in s.gws))
  {
    if s.migration.Some? && FollowMeOk(s) {
      FollowMeIsNewHost(s);
    }
    var q := Receive(ConfigOf(s, n), st, p, coin).packet;
    SwitchKeepsAim(s, ph, n, st, p, coin);
    SwitchKeepsEnds(s, ph, n, st, p, coin);
    ReceiveFrame(ConfigOf(s, n), st, p, coin);
    if p.inval.None? {
      HitTagMeansRedirected(ConfigOf(s, n), st, p, coin);
    }
    if q.pdst != p.pdst && q.pdst in s.gws {
      OrdinaryTarget(s, ph, q);
    }
  }

  /** A leaf without gateways adds no eviction tag. */
  lemma {:induction false} LeafAddsNoTag(s: Setup, n: Node, st: State, p: Packet, coin: bool)
    requires n.Leaf? && OutsideGatewayPods(s, n)
    ensures Receive(ConfigOf(s, n), st, p, coin).packet.evict == p.evict
  {
    assert RoleOf(s, n) == LEAF;
  }

  /** From a pod without gateways to a pod without gateways, a gateway-bound packet only moves
      from a leaf to a spine above it. */
  lemma {:induction false} GatewayBoundLeavesPod(s: Setup, n: Node, g: Addr, next: Node)
    requires Network.Valid(s) && Switch(s.t, n) && g in s.gws
    requires Contains(NextHops(s.t, n, g), next) && OutsideGatewayPods(s, next)
    ensures n.Leaf? && n.pod == next.pod
  {
    var d := HostOf(g);
    NextHopsTowardDevice(s.t, n, d);
    assert GatewayPod(s, d.pod);
    match n
    case Leaf(p, _) => InAllSpines(p, s.t.podWidth, next);
    case Spine(p, o) =>
      if d.pod != p {
        InAllCores(s.t, o, s.t.perSpine, next);
      }
    case Core(_) =>
  }

  lemma {:induction false} NextIsSpilledLate(s: Setup, n: Node, st: State, p: Packet, coin: bool, next: Node)
    requires Network.Valid(s) && Switch(s.t, n) && SpilledLate(s, p, n)
    requires var q := Receive(ConfigOf(s, n), st, p, coin).packet;
             Contains(NextHops(s.t, n, q.pdst), next) && (q.pdst == p.pdst || q.pdst !in s.gws)
    ensures SpilledLate(s, Receive(ConfigOf(s, n), st, p, coin).packet, next)
  {
    var q := Receive(ConfigOf(s, n), st, p, coin).packet;
    ReceiveFrame(ConfigOf(s, n), st, p, coin);
    if q.pdst in s.gws && q.inval.None? && OutsideGatewayPods(s, next) {
      GatewayBoundLeavesPod(s, n, q.pdst, next);
      LeafAddsNoTag(s, n, st, p, coin);
    }
  }

  /** The numbers after one switch, for any next hop. */
  lemma {:induction false} CountsAfterHop(s: Setup, ph: Phase, n: Node, p: Packet, q: Packet, next: Node)
    requires Network.Valid(s) && Switch(s.t, n)
    requires p.hops + Ahead(n, p) <= Budget(s, p) && p.ttl >= TtlFloor(s, p) + Ahead(n, p)
    requires q.hops == p.hops + 1 && q.ttl + 1 == p.ttl && q.misdelivered == p.misdelivered
    requires q.pdst == p.pdst || (p.pdst in s.gws && q.pdst !in s.gws)
    requires IsHostAddress(s.t, q.pdst) && Contains(NextHops(s.t, n, q.pdst), next)
    ensures ArrivesRight(s, q, next)
  {
    var d := HostOf(q.pdst);
    HopTowardHost(s.t, n, d, next);
    AheadAtMostFive(n, p);
    AheadAtMostFive(n, q);
  }

  /** Through a switch: the packet is neither dropped for its TTL nor for want of a route, and
      arrives within its budget wherever the equal-cost choice takes it. */
  lemma {:induction false} SwitchKeepsPlace(s: Setup, ph: Phase, n: Node, st: State, p: Packet, coin: bool, next: Node)
    requires Network.Valid(s) && Fate(s, ph, p) && Fate(s, ph, Hopped(p)) && CacheRight(s, ph, n, st)
    requires FollowMeOk(s) && !n.Host? && ArrivesRight(s, p, n)
    requires IsNext(s, n, Receive(ConfigOf(s, n), st, Hopped(p), coin).packet.pdst, next)
    ensures var q := Receive(ConfigOf(s, n), st, Hopped(p), coin).packet;
            && Forwarded(s, n, q, next) == Arriving(next)
            && ArrivesRight(s, Decremented(q), next)
  {
    var q := Receive(ConfigOf(s, n), st, Hopped(p), coin).packet;
    ReceiveFrame(ConfigOf(s, n), st, Hopped(p), coin);
    SwitchKeepsAim(s, ph, n, st, Hopped(p), coin);
    OnlyGatewayIsReplaced(s, ph, n, st, Hopped(p), coin);
    BoundForHost(s, ph, q);
    HostIsRoutable(s.t, n, HostOf(q.pdst));
    CountsAfterHop(s, ph, n, p, Decremented(q), next);
  }

  /** What a packet's place says about it, whether or not the follow-me rule works: a gateway holds
      it for a machine the directory has or had, a host holds it with its invalidation tag. */
  ghost predicate PlaceFits(s: Setup, ph: Phase, p: Packet, place: Place) {
    match place
    case Arriving(n) => SpilledLate(s, p, n)
    case AtGateway(h) => h.Host? && s.t.Has(h) && Tolerable(s, ph.migrated, Mapping(p.vdst, p.pdst))
    case AtHost(h) => h.Host? && s.t.Has(h) && p.inval.Some?
    case _ => true
  }

  lemma {:induction false} SwitchKeepsFit(s: Setup, ph: Phase, n: Node, st: State, p: Packet, coin: bool, next: Node)
    requires Network.Valid(s) && Switch(s.t, n) && Fate(s, ph, Hopped(p)) && CacheRight(s, ph, n, st) &&
             SpilledLate(s, p, n)
    requires IsNext(s, n, Receive(ConfigOf(s, n), st, Hopped(p), coin).packet.pdst, next)
    ensures var q := Receive(ConfigOf(s, n), st, Hopped(p), coin).packet;
            PlaceFits(s, ph, Decremented(q), Forwarded(s, n, q, next))
  {
    var q := Receive(ConfigOf(s, n), st, Hopped(p), coin).packet;
    if Forwarded(s, n, q, next).Arriving? {
      OnlyGatewayIsReplaced(s, ph, n, st, Hopped(p), coin);
      NextIsSpilledLate(s, n, st, Hopped(p), coin, next);
    }
  }
}
