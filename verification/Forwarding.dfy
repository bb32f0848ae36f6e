/** Where the installed tables send a packet: next hops in device terms, and the walks every
    equal-cost choice leads to. */
module Forwarding {
  import opened Addressing
  import opened DivMod
  import opened Lists
  import opened Topology
  import opened Routing

  // ------------------------------------------------------- lookups in the tables

  function Ifaces(base: nat, n: nat): List<nat> {
    if n == 0 then Nil else Snoc(Ifaces(base, n - 1), base + n - 1)
  }

  function One(k: nat): List<nat> {
    Snoc(Nil, k)
  }

  lemma {:induction false} FanServing(x: Prefix, base: nat, n: nat, d: Node)
    ensures Serving(Fan(x, base, n), d) == if Covers(x, d) then Ifaces(base, n) else Nil
  {
    if n > 0 {
      FanServing(x, base, n - 1, d);
    }
  }

  lemma {:induction false} Fan2Serving(x: Prefix, y: Prefix, base: nat, n: nat, d: Node)
    requires !(Covers(x, d) && Covers(y, d))
    ensures Serving(Fan2(x, y, base, n), d) == if Covers(x, d) || Covers(y, d) then Ifaces(base, n) else Nil
  {
    if n > 0 {
      Fan2Serving(x, y, base, n - 1, d);
    }
  }

  lemma {:induction false} PairServing(x: Prefix, y: Prefix, iface: nat, d: Node)
    requires !(Covers(x, d) && Covers(y, d))
    ensures Serving(Snoc(Snoc(Nil, Route(x, iface)), Route(y, iface)), d)
         == if Covers(x, d) || Covers(y, d) then One(iface) else Nil
  {
    assert Serving(Nil, d) == Nil;
  }

  /** The device index a loop's counter must reach to install routes for d; None if it never does. */
  function Turn(t: Topo, self: Node, l: Loop, d: Node): int
    requires t.podWidth > 0
  {
    match l
    case LeafToLeaf => if d.Host? || d.Leaf? then Index(d.pod, t.podWidth, d.off) else -1
    case LeafToSpine => if d.Spine? then Index(d.pod, t.podWidth, d.off) else -1
    case LeafToCore => if d.Core? then d.core else -1
    case SpineToLeaf => if d.Host? || d.Leaf? then Index(d.pod, t.podWidth, d.off) else -1
    case SpineToSpine => if d.Spine? then Index(d.pod, t.podWidth, d.off) else -1
    case SpineToCore =>
      if d.Core? && self.Spine? && t.perSpine > 0 && t.Group(d.core) == self.off
      then Column(d.core, t.perSpine) else -1
    case CoreToPod => if d.Host? || d.Spine? then Index(d.pod, t.podWidth, d.off) else -1
    case CoreToLeaf => if d.Leaf? then Index(d.pod, t.podWidth, d.off) else -1
  }

  /** What a loop contributes to the lookup of d when its turn comes. */
  function Share(t: Topo, self: Node, l: Loop, d: Node): List<nat>
    requires t.podWidth > 0
  {
    match l
    case LeafToLeaf =>
      if d.Core? || (self.Leaf? && self.pod == d.pod && self.off == d.off) then Nil
      else Ifaces(UpBase(t, self), t.podWidth)
    case LeafToSpine =>
      if d.Core? then Nil
      else if self.Leaf? && self.pod == d.pod then One(UpBase(t, self) + d.off)
      else Ifaces(UpBase(t, self), t.podWidth)
    case LeafToCore => if d.Core? then One(UpBase(t, self) + t.Group(d.core)) else Nil
    case SpineToLeaf =>
      if d.Core? then Nil
      else if self.Spine? && self.pod == d.pod then One(d.off + 1) else Ifaces(t.podWidth + 1, t.perSpine)
    case SpineToSpine =>
      if d.Core? || self == d then Nil
      else if self.Spine? && self.pod == d.pod then Ifaces(1, t.podWidth)
      else Ifaces(t.podWidth + 1, t.perSpine)
    case SpineToCore =>
      if d.Core? && self.Spine? && t.perSpine > 0 then One(t.podWidth + 1 + Column(d.core, t.perSpine)) else Nil
    case CoreToPod => if d.Core? then Nil else One(d.pod + 1)
    case CoreToLeaf => if d.Core? then Nil else One(d.pod + 1)
  }

  /** Iteration j serves d exactly when it is d's turn. */
  lemma {:induction false} BlockServing(t: Topo, self: Node, l: Loop, j: nat, d: Node)
    requires t.Valid() && t.Has(self) && Owns(self, l) && t.Has(d) && j < Bound(t, l)
    ensures Serving(Block(t, self, l, j), d) == if j == Turn(t, self, l, d) then Share(t, self, l, d) else Nil
  {
    if l == LeafToCore {
    } else if l == SpineToCore {
      CoreTurn(t, self, j, d);
    } else if self.Leaf? {
      LeafBlockServing(t, self, l, j, d);
    } else if l == SpineToLeaf {
      SpineToLeafServing(t, self, j, d);
    } else if l == SpineToSpine {
      SpineToSpineServing(t, self, j, d);
    } else {
      CoreBlockServing(t, self, l, j, d);
    }
  }

  lemma {:induction false} CoreTurn(t: Topo, self: Node, j: nat, d: Node)
    requires t.Valid() && t.Has(self) && !self.Host? && t.Has(d) && j < t.perSpine
    ensures Serving(Block(t, self, SpineToCore, j), d)
         == if j == Turn(t, self, SpineToCore, d) then Share(t, self, SpineToCore, d) else Nil
  {
    if self.Spine? && d.Core? {
      CoreGroup(t, d.core);
      Distinct(self.off, j, t.Group(d.core), Column(d.core, t.perSpine), t.perSpine);
    }
  }

  /** A block that serves device (p, o) serves d exactly when its counter is d's index. */
  predicate GridTurn(t: Topo, j: nat, d: Node)
    requires t.podWidth > 0
  {
    !d.Core? && Row(j, t.podWidth) == d.pod && Column(j, t.podWidth) == d.off
  }

  lemma {:induction false} GridTurnIsIndex(t: Topo, j: nat, d: Node)
    requires t.Valid() && t.Has(d) && j < t.leafCount
    ensures GridTurn(t, j, d) <==> !d.Core? && j == Index(d.pod, t.podWidth, d.off)
  {
    FlatIndex(t, j);
    if !d.Core? {
      Distinct(Row(j, t.podWidth), Column(j, t.podWidth), d.pod, d.off, t.podWidth);
    }
  }

  lemma {:induction false} LeafBlockServing(t: Topo, self: Node, l: Loop, j: nat, d: Node)
    requires t.Valid() && self.Leaf? && t.Has(d) && j < t.leafCount
    requires l == LeafToLeaf || l == LeafToSpine
    ensures Serving(Block(t, self, l, j), d) == if j == Turn(t, self, l, d) then Share(t, self, l, d) else Nil
  {
    var p, o := Row(j, t.podWidth), Column(j, t.podWidth);
    GridTurnIsIndex(t, j, d);
    if l == LeafToLeaf {
      Fan2Serving(HostGroup(p, o), LeafNet(p, o), UpBase(t, self), t.podWidth, d);
    } else {
      FanServing(SpineNet(p, o), UpBase(t, self), t.podWidth, d);
    }
  }

  lemma {:induction false} SpineToLeafServing(t: Topo, self: Node, j: nat, d: Node)
    requires t.Valid() && self.Spine? && t.Has(d) && j < t.leafCount
    ensures Serving(Block(t, self, SpineToLeaf, j), d)
         == if j == Turn(t, self, SpineToLeaf, d) then Share(t, self, SpineToLeaf, d) else Nil
  {
    var p, o := Row(j, t.podWidth), Column(j, t.podWidth);
    GridTurnIsIndex(t, j, d);
    if self.pod == p {
      PairServing(HostGroup(p, o), LeafNet(p, o), o + 1, d);
    } else {
      Fan2Serving(HostGroup(p, o), LeafNet(p, o), t.podWidth + 1, t.perSpine, d);
    }
  }

  lemma {:induction false} SpineToSpineServing(t: Topo, self: Node, j: nat, d: Node)
    requires t.Valid() && self.Spine? && t.Has(d) && j < t.leafCount
    ensures Serving(Block(t, self, SpineToSpine, j), d)
         == if j == Turn(t, self, SpineToSpine, d) then Share(t, self, SpineToSpine, d) else Nil
  {
    var p, o := Row(j, t.podWidth), Column(j, t.podWidth);
    GridTurnIsIndex(t, j, d);
    if self.pod == p {
      FanServing(SpineNet(p, o), 1, t.podWidth, d);
    } else {
      FanServing(SpineNet(p, o), t.podWidth + 1, t.perSpine, d);
    }
  }

  lemma {:induction false} CoreBlockServing(t: Topo, self: Node, l: Loop, j: nat, d: Node)
    requires t.Valid() && self.Core? && t.Has(d) && j < t.leafCount
    requires l == CoreToPod || l == CoreToLeaf
    ensures Serving(Block(t, self, l, j), d) == if j == Turn(t, self, l, d) then Share(t, self, l, d) else Nil
  {
    var p, o := Row(j, t.podWidth), Column(j, t.podWidth);
    GridTurnIsIndex(t, j, d);
    if l == CoreToPod {
      PairServing(HostGroup(p, o), SpineNet(p, o), p + 1, d);
    }
  }

  /** The concatenation of the lookups in the first n blocks of a loop. */
  function Shares(t: Topo, self: Node, l: Loop, n: nat, d: Node): List<nat>
    requires t.podWidth > 0 && !self.Host?
  {
    if n == 0 then Nil else Cat(Shares(t, self, l, n - 1, d), Serving(Block(t, self, l, n - 1), d))
  }

  lemma {:induction false} BlocksServeShares(t: Topo, self: Node, l: Loop, n: nat, d: Node)
    requires t.podWidth > 0 && !self.Host?
    ensures Serving(Blocks(t, self, l, n), d) == Shares(t, self, l, n, d)
  {
    if n > 0 {
      BlocksServeShares(t, self, l, n - 1, d);
      BlocksSplit(t, self, l, n);
      ServingCat(Blocks(t, self, l, n - 1), Block(t, self, l, n - 1), d);
    }
  }

  lemma {:induction false} BlocksSplit(t: Topo, self: Node, l: Loop, n: nat)
    requires t.podWidth > 0 && !self.Host? && n > 0
    ensures Blocks(t, self, l, n) == Cat(Blocks(t, self, l, n - 1), Block(t, self, l, n - 1))
  {
  }

  /** When one block of many serves d, the lookup is that block's share. */
  lemma {:induction false} OneBlockServes(t: Topo, self: Node, l: Loop, n: nat, d: Node)
    requires t.Valid() && t.Has(self) && Owns(self, l) && t.Has(d) && n <= Bound(t, l)
    ensures Shares(t, self, l, n, d) == if 0 <= Turn(t, self, l, d) < n then Share(t, self, l, d) else Nil
  {
    if n > 0 {
      OneBlockServes(t, self, l, n - 1, d);
      BlockServing(t, self, l, n - 1, d);
      CatNil(Share(t, self, l, d));
    }
  }

  predicate Owns(self: Node, l: Loop) {
    match self
    case Leaf(_, _) => l == LeafToLeaf || l == LeafToSpine || l == LeafToCore
    case Spine(_, _) => l == SpineToLeaf || l == SpineToSpine || l == SpineToCore
    case Core(_) => l == CoreToPod || l == CoreToLeaf
    case Host(_, _, _) => false
  }

  /** A whole loop serves d with d's share, or not at all. */
  lemma {:induction false} LoopServing(t: Topo, self: Node, l: Loop, d: Node)
    requires t.Valid() && t.Has(self) && Owns(self, l) && t.Has(d)
    ensures Serving(All(t, self, l), d) == if Turn(t, self, l, d) >= 0 then Share(t, self, l, d) else Nil
  {
    BlocksServeShares(t, self, l, Bound(t, l), d);
    OneBlockServes(t, self, l, Bound(t, l), d);
    TurnInBounds(t, self, l, d);
  }

  lemma {:induction false} TurnInBounds(t: Topo, self: Node, l: Loop, d: Node)
    requires t.Valid() && t.Has(d)
    ensures Turn(t, self, l, d) < Bound(t, l)
  {
    if d.Core? {
      CoreGroup(t, d.core);
    } else {
      IndexOf(t, d.pod, d.off);
    }
  }

  /** The interfaces a switch's whole table offers for a device. */
  function Offered(t: Topo, self: Node, d: Node): List<nat>
    requires t.podWidth > 0
  {
    match self
    case Host(_, _, _) => Nil
    case Leaf(_, _) =>
      Share(t, self, if d.Core? then LeafToCore else if d.Spine? then LeafToSpine else LeafToLeaf, d)
    case Spine(_, o) =>
      if d.Core? && t.Group(d.core) != o then Nil
      else Share(t, self, if d.Core? then SpineToCore else if d.Spine? then SpineToSpine else SpineToLeaf, d)
    case Core(_) => Share(t, self, CoreToPod, d)
  }

  /** What a loop adds to the lookup of d. */
  function Part(t: Topo, self: Node, l: Loop, d: Node): List<nat>
    requires t.podWidth > 0
  {
    if Turn(t, self, l, d) >= 0 then Share(t, self, l, d) else Nil
  }

  lemma {:induction false} TwoLoops(t: Topo, self: Node, a: Loop, b: Loop, d: Node)
    requires t.Valid() && t.Has(self) && t.Has(d) && Owns(self, a) && Owns(self, b)
    ensures Serving(Cat(All(t, self, a), All(t, self, b)), d) == Cat(Part(t, self, a, d), Part(t, self, b, d))
  {
    ServingCat(All(t, self, a), All(t, self, b), d);
    LoopServing(t, self, a, d);
    LoopServing(t, self, b, d);
  }

  lemma {:induction false} ThreeLoops(t: Topo, self: Node, a: Loop, b: Loop, c: Loop, d: Node)
    requires t.Valid() && t.Has(self) && t.Has(d) && Owns(self, a) && Owns(self, b) && Owns(self, c)
    ensures Serving(Cat(Cat(All(t, self, a), All(t, self, b)), All(t, self, c)), d)
         == Cat(Cat(Part(t, self, a, d), Part(t, self, b, d)), Part(t, self, c, d))
  {
    ServingCat(Cat(All(t, self, a), All(t, self, b)), All(t, self, c), d);
    TwoLoops(t, self, a, b, d);
    LoopServing(t, self, c, d);
  }

  lemma {:induction false} LeafTable(t: Topo, self: Node, d: Node)
    requires t.Valid() && t.Has(self) && self.Leaf? && t.Has(d)
    ensures Serving(Table(t, self), d) == Offered(t, self, d)
  {
    ThreeLoops(t, self, LeafToLeaf, LeafToSpine, LeafToCore, d);
    CatNil(Offered(t, self, d));
  }

  lemma {:induction false} SpineTable(t: Topo, self: Node, d: Node)
    requires t.Valid() && t.Has(self) && self.Spine? && t.Has(d)
    ensures Serving(Table(t, self), d) == Offered(t, self, d)
  {
    if d.Core? {
      CoreGroup(t, d.core);
    }
    ThreeLoops(t, self, SpineToLeaf, SpineToSpine, SpineToCore, d);
    CatNil(Offered(t, self, d));
  }

  lemma {:induction false} CoreTable(t: Topo, self: Node, d: Node)
    requires t.Valid() && t.Has(self) && self.Core? && t.Has(d)
    ensures Serving(Table(t, self), d) == Offered(t, self, d)
  {
    TwoLoops(t, self, CoreToPod, CoreToLeaf, d);
    CatNil(Offered(t, self, d));
  }

  // ------------------------------------------------------- routes of connected links

  /** The peers on links whose subnet holds an address; these routes take precedence. */
  function Connected(t: Topo, links: List<Link>, a: Addr): List<Node> {
    match links
    case Nil => Nil
    case Snoc(i, l) =>
      if IsMatch(ClassC, a, PrefixDest(t.podCount, l.net)) then Snoc(Connected(t, i, a), l.peer)
      else Connected(t, i, a)
  }

  function Direct(links: List<Link>, d: Node): List<Node> {
    match links
    case Nil => Nil
    case Snoc(i, l) => if Covers(l.net, d) then Snoc(Direct(i, d), l.peer) else Direct(i, d)
  }

  predicate LinksInPlan(t: Topo, links: List<Link>) {
    match links
    case Nil => true
    case Snoc(i, l) => PrefixInPlan(t.podCount, l.net) && !l.net.HostGroup? && LinksInPlan(t, i)
  }

  lemma {:induction false} ConnectedIsDirect(t: Topo, links: List<Link>, d: Node)
    requires t.Valid() && t.Has(d) && LinksInPlan(t, links)
    ensures Connected(t, links, AddressOf(t.podCount, d)) == Direct(links, d)
  {
    match links
    case Nil =>
    case Snoc(i, l) =>
      ConnectedIsDirect(t, i, d);
      DevicesAreInPlan(t, d);
      PrefixMatchesExactlyItsDevices(t.podCount, l.net, d);
  }

  lemma {:induction false} LinksInPlanCat(t: Topo, x: List<Link>, y: List<Link>)
    requires LinksInPlan(t, x) && LinksInPlan(t, y)
    ensures LinksInPlan(t, Cat(x, y))
  {
    match y
    case Nil =>
    case Snoc(i, _) => LinksInPlanCat(t, x, i);
  }

  lemma {:induction false} DirectCat(x: List<Link>, y: List<Link>, d: Node)
    ensures Direct(Cat(x, y), d) == Cat(Direct(x, d), Direct(y, d))
  {
    match y
    case Nil =>
    case Snoc(i, _) => DirectCat(x, i, d);
  }

  lemma {:induction false} SwitchLinksInPlan(t: Topo, p: nat, o: nat, n: nat)
    requires t.Valid() && p < t.podCount && o < 256 && n <= 256
    ensures LinksInPlan(t, UpLinks(p, o, n)) && LinksInPlan(t, DownLinks(p, o, n))
    ensures LinksInPlan(t, HostLinks(p, o, n))
  {
    if n > 0 {
      SwitchLinksInPlan(t, p, o, n - 1);
    }
  }

  lemma {:induction false} CoreLinksInPlan(t: Topo, p: nat, o: nat, n: nat)
    requires t.Valid() && p < t.podCount && o < t.podWidth && n <= t.perSpine
    ensures LinksInPlan(t, CoreLinks(p, o, t.perSpine, n))
  {
    if n > 0 {
      CoreLinksInPlan(t, p, o, n - 1);
      CoreIndex(t, o, n - 1);
    }
  }

  lemma {:induction false} PodLinksInPlan(t: Topo, g: nat, c: nat, n: nat)
    requires t.Valid() && c < t.coreCount && n <= t.podCount
    ensures LinksInPlan(t, PodLinks(g, c, n))
  {
    if n > 0 {
      PodLinksInPlan(t, g, c, n - 1);
    }
  }

  lemma {:induction false} LinksAreInPlan(t: Topo, n: Node)
    requires t.Valid() && t.Has(n)
    ensures LinksInPlan(t, Links(t, n))
  {
    match n
    case Host(_, _, _) =>
    case Leaf(p, o) =>
      SwitchLinksInPlan(t, p, o, t.HostCount(p, o));
      SwitchLinksInPlan(t, p, o, t.podWidth);
      LinksInPlanCat(t, HostLinks(p, o, t.HostCount(p, o)), UpLinks(p, o, t.podWidth));
    case Core(c) => PodLinksInPlan(t, t.Group(c), c, t.podCount);
    case Spine(p, o) =>
      SwitchLinksInPlan(t, p, o, t.podWidth);
      CoreLinksInPlan(t, p, o, t.perSpine);
      LinksInPlanCat(t, DownLinks(p, o, t.podWidth), CoreLinks(p, o, t.perSpine, t.perSpine));
  }

  lemma {:induction false} HostLinksDirect(p: nat, o: nat, n: nat, d: Node)
    ensures Direct(HostLinks(p, o, n), d)
         == if d.Host? && d.pod == p && d.off == o && d.idx < n then Snoc(Nil, d) else Nil
  {
    if n > 0 {
      HostLinksDirect(p, o, n - 1, d);
    }
  }

  lemma {:induction false} UpLinksDirect(p: nat, o: nat, n: nat, d: Node)
    requires d != Leaf(p, o)
    ensures Direct(UpLinks(p, o, n), d) == Nil
  {
    if n > 0 {
      UpLinksDirect(p, o, n - 1, d);
    }
  }

  lemma {:induction false} DownLinksDirect(p: nat, s: nat, n: nat, d: Node)
    ensures Direct(DownLinks(p, s, n), d) == if s == 0 && d.Leaf? && d.pod == p && d.off < n then Snoc(Nil, d) else Nil
  {
    if n > 0 {
      DownLinksDirect(p, s, n - 1, d);
    }
  }

  lemma {:induction false} CoreLinksDirect(t: Topo, p: nat, s: nat, n: nat, d: Node)
    requires t.Valid() && t.Has(d) && n <= t.perSpine
    ensures Direct(CoreLinks(p, s, t.perSpine, n), d)
         == if p == 0 && d.Core? && t.Group(d.core) == s && t.perSpine > 0 && Column(d.core, t.perSpine) < n
            then Snoc(Nil, d) else Nil
  {
    if n > 0 {
      CoreLinksDirect(t, p, s, n - 1, d);
      if d.Core? {
        CoreGroup(t, d.core);
        Distinct(s, n - 1, t.Group(d.core), Column(d.core, t.perSpine), t.perSpine);
      }
    }
  }

  lemma {:induction false} PodLinksDirect(g: nat, c: nat, n: nat, d: Node)
    requires d != Core(c)
    ensures Direct(PodLinks(g, c, n), d) == Nil
  {
    if n > 0 {
      PodLinksDirect(g, c, n - 1, d);
    }
  }

  // ------------------------------------------------------- next hops

  /** The devices behind a list of interface numbers; a number no interface has leads nowhere. */
  function Peers(links: List<Link>, ifaces: List<nat>): List<Node> {
    match ifaces
    case Nil => Nil
    case Snoc(i, k) =>
      if 1 <= k <= Len(links) then Snoc(Peers(links, i), At(links, k - 1).peer) else Peers(links, i)
  }

  /** The choice a switch is left with once both lookups are done. */
  function Choose(links: List<Link>, offered: List<nat>, direct: List<Node>): List<Node> {
    if direct != Nil then Snoc(Nil, At(direct, 0)) else Peers(links, offered)
  }

  /** Everywhere the tables let a packet for an address go next, over all equal-cost choices. */
  function NextHops(t: Topo, n: Node, a: Addr): List<Node>
    requires t.podWidth > 0
  {
    if n.Host? then Snoc(Nil, Leaf(n.pod, n.off))
    else Choose(Links(t, n), Candidates(t, Table(t, n), a), Connected(t, Links(t, n), a))
  }

  function AllSpines(p: nat, w: nat): List<Node> {
    if w == 0 then Nil else Snoc(AllSpines(p, w - 1), Spine(p, w - 1))
  }

  function AllLeaves(p: nat, w: nat): List<Node> {
    if w == 0 then Nil else Snoc(AllLeaves(p, w - 1), Leaf(p, w - 1))
  }

  /** The first n cores attached to the spines at offset o. */
  function AllCores(o: nat, perSpine: nat, n: nat): List<Node> {
    if n == 0 then Nil else Snoc(AllCores(o, perSpine, n - 1), Core(Index(o, perSpine, n - 1)))
  }

  /** The next hops in device terms. */
  function NextToward(t: Topo, n: Node, d: Node): List<Node> {
    match n
    case Host(p, o, _) => Snoc(Nil, Leaf(p, o))
    case Leaf(p, o) =>
      if d.Core? then Snoc(Nil, Spine(p, t.Group(d.core)))
      else if d.Spine? && d.pod == p then Snoc(Nil, d)
      else if d.Host? && d.pod == p && d.off == o then Snoc(Nil, d)
      else AllSpines(p, t.podWidth)
    case Spine(p, o) =>
      if d.Core? then (if t.Group(d.core) == o then Snoc(Nil, d) else Nil)
      else if d.pod != p then AllCores(o, t.perSpine, t.perSpine)
      else if d.Spine? then AllLeaves(p, t.podWidth)
      else Snoc(Nil, Leaf(p, d.off))
    case Core(c) => if d.Core? then Nil else Snoc(Nil, Spine(d.pod, t.Group(c)))
  }

  lemma {:induction false} PeersOfOne(links: List<Link>, k: nat)
    requires 1 <= k <= Len(links)
    ensures Peers(links, One(k)) == Snoc(Nil, At(links, k - 1).peer)
  {
    assert Peers(links, Nil) == Nil;
  }

  lemma {:induction false} UpLinkAt(p: nat, o: nat, n: nat, k: nat)
    ensures Len(UpLinks(p, o, n)) == n
    ensures k < n ==> At(UpLinks(p, o, n), k).peer == Spine(p, k)
  {
    if n > 0 {
      UpLinkAt(p, o, n - 1, k);
    }
  }

  lemma {:induction false} DownLinkAt(p: nat, s: nat, n: nat, k: nat)
    ensures Len(DownLinks(p, s, n)) == n
    ensures k < n ==> At(DownLinks(p, s, n), k).peer == Leaf(p, k)
  {
    if n > 0 {
      DownLinkAt(p, s, n - 1, k);
    }
  }

  lemma {:induction false} CoreLinkAt(p: nat, s: nat, perSpine: nat, n: nat, k: nat)
    ensures Len(CoreLinks(p, s, perSpine, n)) == n
    ensures k < n ==> At(CoreLinks(p, s, perSpine, n), k).peer == Core(Index(s, perSpine, k))
  {
    if n > 0 {
      CoreLinkAt(p, s, perSpine, n - 1, k);
    }
  }

  lemma {:induction false} PodLinkAt(g: nat, c: nat, n: nat, k: nat)
    ensures Len(PodLinks(g, c, n)) == n
    ensures k < n ==> At(PodLinks(g, c, n), k).peer == Spine(k, g)
  {
    if n > 0 {
      PodLinkAt(g, c, n - 1, k);
    }
  }

  lemma {:induction false} HostLinksLen(p: nat, o: nat, n: nat)
    ensures Len(HostLinks(p, o, n)) == n
  {
    if n > 0 {
      HostLinksLen(p, o, n - 1);
    }
  }

  /** Interfaces base and up of a leaf with base - 1 hosts are its spines in order. */
  lemma {:induction false} LeafUplink(hosts: List<Link>, p: nat, o: nat, w: nat, k: nat)
    requires k < w
    ensures Peers(Cat(hosts, UpLinks(p, o, w)), One(Len(hosts) + 1 + k)) == Snoc(Nil, Spine(p, k))
  {
    UpLinkAt(p, o, w, k);
    AtCat(hosts, UpLinks(p, o, w), Len(hosts) + k);
    PeersOfOne(Cat(hosts, UpLinks(p, o, w)), Len(hosts) + 1 + k);
  }

  lemma {:induction false} LeafUplinks(hosts: List<Link>, p: nat, o: nat, w: nat, n: nat)
    requires n <= w
    ensures Peers(Cat(hosts, UpLinks(p, o, w)), Ifaces(Len(hosts) + 1, n)) == AllSpines(p, n)
  {
    if n > 0 {
      LeafUplinks(hosts, p, o, w, n - 1);
      UpLinkAt(p, o, w, n - 1);
      AtCat(hosts, UpLinks(p, o, w), Len(hosts) + n - 1);
    }
  }

  /** Interfaces 1 .. podWidth of a spine are its leaves, the following ones its cores. */
  lemma {:induction false} SpineDownlink(p: nat, o: nat, w: nat, cores: List<Link>, k: nat)
    requires k < w
    ensures Peers(Cat(DownLinks(p, o, w), cores), One(k + 1)) == Snoc(Nil, Leaf(p, k))
  {
    DownLinkAt(p, o, w, k);
    AtCat(DownLinks(p, o, w), cores, k);
    PeersOfOne(Cat(DownLinks(p, o, w), cores), k + 1);
  }

  lemma {:induction false} SpineDownlinks(p: nat, o: nat, w: nat, cores: List<Link>, n: nat)
    requires n <= w
    ensures Peers(Cat(DownLinks(p, o, w), cores), Ifaces(1, n)) == AllLeaves(p, n)
  {
    if n > 0 {
      SpineDownlinks(p, o, w, cores, n - 1);
      DownLinkAt(p, o, w, n - 1);
      AtCat(DownLinks(p, o, w), cores, n - 1);
    }
  }

  lemma {:induction false} SpineUplink(leaves: List<Link>, p: nat, o: nat, w: nat, k: nat)
    requires k < w
    ensures Peers(Cat(leaves, CoreLinks(p, o, w, w)), One(Len(leaves) + 1 + k)) == Snoc(Nil, Core(Index(o, w, k)))
  {
    CoreLinkAt(p, o, w, w, k);
    AtCat(leaves, CoreLinks(p, o, w, w), Len(leaves) + k);
    PeersOfOne(Cat(leaves, CoreLinks(p, o, w, w)), Len(leaves) + 1 + k);
  }

  lemma {:induction false} SpineUplinks(leaves: List<Link>, p: nat, o: nat, w: nat, n: nat)
    requires n <= w
    ensures Peers(Cat(leaves, CoreLinks(p, o, w, w)), Ifaces(Len(leaves) + 1, n)) == AllCores(o, w, n)
  {
    if n > 0 {
      SpineUplinks(leaves, p, o, w, n - 1);
      CoreLinkAt(p, o, w, w, n - 1);
      AtCat(leaves, CoreLinks(p, o, w, w), Len(leaves) + n - 1);
    }
  }

  lemma {:induction false} LeafDirect(t: Topo, p: nat, o: nat, d: Node)
    requires t.Has(d) && d != Leaf(p, o)
    ensures Direct(Links(t, Leaf(p, o)), d) == if d.Host? && d.pod == p && d.off == o then Snoc(Nil, d) else Nil
  {
    DirectCat(HostLinks(p, o, t.HostCount(p, o)), UpLinks(p, o, t.podWidth), d);
    HostLinksDirect(p, o, t.HostCount(p, o), d);
    UpLinksDirect(p, o, t.podWidth, d);
  }

  lemma {:induction false} LeafNextNamed(t: Topo, p: nat, o: nat, d: Node)
    requires t.Valid() && t.Has(Leaf(p, o)) && t.Has(d) && (d.Core? || (d.Spine? && d.pod == p))
    ensures Peers(Links(t, Leaf(p, o)), Offered(t, Leaf(p, o), d)) == NextToward(t, Leaf(p, o), d)
  {
    var hosts := HostLinks(p, o, t.HostCount(p, o));
    HostLinksLen(p, o, t.HostCount(p, o));
    if d.Core? {
      CoreGroup(t, d.core);
      LeafUplink(hosts, p, o, t.podWidth, t.Group(d.core));
    } else {
      LeafUplink(hosts, p, o, t.podWidth, d.off);
    }
  }

  lemma {:induction false} LeafNextUp(t: Topo, p: nat, o: nat, d: Node)
    requires !d.Core? && (d.pod != p || (!d.Spine? && d.off != o))
    requires t.podWidth > 0
    ensures Peers(Links(t, Leaf(p, o)), Offered(t, Leaf(p, o), d)) == AllSpines(p, t.podWidth)
  {
    var hosts := HostLinks(p, o, t.HostCount(p, o));
    HostLinksLen(p, o, t.HostCount(p, o));
    LeafUplinks(hosts, p, o, t.podWidth, t.podWidth);
  }

  lemma {:induction false} LeafNext(t: Topo, p: nat, o: nat, d: Node)
    requires t.Valid() && t.Has(Leaf(p, o)) && t.Has(d) && d != Leaf(p, o)
    ensures var n := Leaf(p, o);
            Choose(Links(t, n), Offered(t, n, d), Direct(Links(t, n), d)) == NextToward(t, n, d)
  {
    var n := Leaf(p, o);
    LeafDirect(t, p, o, d);
    if d.Host? && d.pod == p && d.off == o {
    } else if d.Core? || (d.Spine? && d.pod == p) {
      LeafNextNamed(t, p, o, d);
    } else {
      LeafNextUp(t, p, o, d);
    }
    ChooseTable(Links(t, n), Offered(t, n, d), Direct(Links(t, n), d), NextToward(t, n, d));
  }

  lemma {:induction false} SpineDirect(t: Topo, p: nat, o: nat, d: Node)
    requires t.Valid() && t.Has(d)
    ensures Direct(Links(t, Spine(p, o)), d)
         == if o == 0 && d.Leaf? && d.pod == p then Snoc(Nil, d)
            else if p == 0 && d.Core? && t.Group(d.core) == o then Snoc(Nil, d)
            else Nil
  {
    DirectCat(DownLinks(p, o, t.podWidth), CoreLinks(p, o, t.perSpine, t.perSpine), d);
    DownLinksDirect(p, o, t.podWidth, d);
    CoreLinksDirect(t, p, o, t.perSpine, d);
    if d.Core? {
      CoreGroup(t, d.core);
    }
  }

  lemma {:induction false} SpineUplinkTo(t: Topo, p: nat, c: nat)
    requires t.Valid() && t.Has(Core(c))
    ensures t.perSpine > 0
    ensures Peers(Links(t, Spine(p, t.Group(c))), One(t.podWidth + 1 + Column(c, t.perSpine))) == Snoc(Nil, Core(c))
  {
    var leaves := DownLinks(p, t.Group(c), t.podWidth);
    DownLinkAt(p, t.Group(c), t.podWidth, 0);
    CoreGroup(t, c);
    SpineUplink(leaves, p, t.Group(c), t.perSpine, Column(c, t.perSpine));
  }

  lemma {:induction false} ChooseTable(links: List<Link>, offered: List<nat>, direct: List<Node>, peers: List<Node>)
    requires direct == Nil || (direct == peers && peers.Snoc? && peers.init == Nil)
    requires direct == Nil ==> Peers(links, offered) == peers
    ensures Choose(links, offered, direct) == peers
  {
    if direct != Nil {
      assert Len(direct.init) == 0;
    }
  }

  lemma {:induction false} SpineToCorePeers(t: Topo, p: nat, o: nat, c: nat)
    requires t.Valid() && t.Has(Core(c))
    ensures Peers(Links(t, Spine(p, o)), Offered(t, Spine(p, o), Core(c))) == NextToward(t, Spine(p, o), Core(c))
  {
    if t.Group(c) == o {
      SpineUplinkTo(t, p, c);
    }
  }

  lemma {:induction false} SpineAwayPeers(t: Topo, p: nat, o: nat, d: Node)
    requires t.podWidth > 0 && !d.Core? && d.pod != p
    ensures Peers(Links(t, Spine(p, o)), Offered(t, Spine(p, o), d)) == NextToward(t, Spine(p, o), d)
  {
    var leaves := DownLinks(p, o, t.podWidth);
    DownLinkAt(p, o, t.podWidth, 0);
    SpineUplinks(leaves, p, o, t.perSpine, t.perSpine);
    assert Offered(t, Spine(p, o), d) == Ifaces(Len(leaves) + 1, t.perSpine);
  }

  lemma {:induction false} SpineInPodPeers(t: Topo, p: nat, o: nat, d: Node)
    requires t.Has(d) && t.podWidth > 0 && !d.Core? && d.pod == p && d != Spine(p, o)
    ensures Peers(Links(t, Spine(p, o)), Offered(t, Spine(p, o), d)) == NextToward(t, Spine(p, o), d)
  {
    var cores := CoreLinks(p, o, t.perSpine, t.perSpine);
    if d.Spine? {
      SpineDownlinks(p, o, t.podWidth, cores, t.podWidth);
    } else {
      SpineDownlink(p, o, t.podWidth, cores, d.off);
    }
  }

  lemma {:induction false} SpineNext(t: Topo, p: nat, o: nat, d: Node)
    requires t.Valid() && t.Has(d) && d != Spine(p, o)
    ensures var n := Spine(p, o);
            Choose(Links(t, n), Offered(t, n, d), Direct(Links(t, n), d)) == NextToward(t, n, d)
  {
    var n := Spine(p, o);
    SpineDirect(t, p, o, d);
    if d.Core? {
      SpineToCorePeers(t, p, o, d.core);
    } else if d.pod != p {
      SpineAwayPeers(t, p, o, d);
    } else {
      SpineInPodPeers(t, p, o, d);
    }
    ChooseTable(Links(t, n), Offered(t, n, d), Direct(Links(t, n), d), NextToward(t, n, d));
  }

  lemma {:induction false} CoreNext(t: Topo, c: nat, d: Node)
    requires t.Valid() && t.Has(Core(c)) && t.Has(d) && d != Core(c)
    ensures var n := Core(c);
            Choose(Links(t, n), Offered(t, n, d), Direct(Links(t, n), d)) == NextToward(t, n, d)
  {
    PodLinksDirect(t.Group(c), c, t.podCount, d);
    if !d.Core? {
      PodLinkAt(t.Group(c), c, t.podCount, d.pod);
      PeersOfOne(Links(t, Core(c)), d.pod + 1);
    }
  }

  lemma {:induction false} BlocksInPlan(t: Topo, self: Node, l: Loop, n: nat)
    requires t.Valid() && t.Has(self) && !self.Host? && n <= Bound(t, l)
    ensures RoutesInPlan(t, Blocks(t, self, l, n))
  {
    if n > 0 {
      BlocksInPlan(t, self, l, n - 1);
      BlockInPlan(t, self, l, n - 1);
      RoutesInPlanCat(t, Blocks(t, self, l, n - 1), Block(t, self, l, n - 1));
    }
  }

  lemma {:induction false} FanInPlan(t: Topo, x: Prefix, base: nat, n: nat)
    requires PrefixInPlan(t.podCount, x)
    ensures RoutesInPlan(t, Fan(x, base, n))
  {
    if n > 0 {
      FanInPlan(t, x, base, n - 1);
    }
  }

  lemma {:induction false} Fan2InPlan(t: Topo, x: Prefix, y: Prefix, base: nat, n: nat)
    requires PrefixInPlan(t.podCount, x) && PrefixInPlan(t.podCount, y)
    ensures RoutesInPlan(t, Fan2(x, y, base, n))
  {
    if n > 0 {
      Fan2InPlan(t, x, y, base, n - 1);
    }
  }

  lemma {:induction false} BlockInPlan(t: Topo, self: Node, l: Loop, j: nat)
    requires t.Valid() && t.Has(self) && !self.Host? && j < Bound(t, l)
    ensures RoutesInPlan(t, Block(t, self, l, j))
  {
    var p, o := Row(j, t.podWidth), Column(j, t.podWidth);
    if l == SpineToCore {
      if self.Spine? {
        CoreIndex(t, self.off, j);
      }
    } else if l != LeafToCore {
      FlatIndex(t, j);
      Fan2InPlan(t, HostGroup(p, o), LeafNet(p, o), UpBase(t, self), t.podWidth);
      Fan2InPlan(t, HostGroup(p, o), LeafNet(p, o), t.podWidth + 1, t.perSpine);
      FanInPlan(t, SpineNet(p, o), UpBase(t, self), t.podWidth);
      FanInPlan(t, SpineNet(p, o), 1, t.podWidth);
      FanInPlan(t, SpineNet(p, o), t.podWidth + 1, t.perSpine);
    }
  }

  lemma {:induction false} RoutesInPlanCat(t: Topo, x: RouteList, y: RouteList)
    requires RoutesInPlan(t, x) && RoutesInPlan(t, y)
    ensures RoutesInPlan(t, Cat(x, y))
  {
    match y
    case Nil =>
    case Snoc(i, _) => RoutesInPlanCat(t, x, i);
  }

  lemma {:induction false} LoopsInPlan(t: Topo, self: Node, a: Loop, b: Loop)
    requires t.Valid() && t.Has(self) && !self.Host?
    ensures RoutesInPlan(t, Cat(All(t, self, a), All(t, self, b)))
  {
    BlocksInPlan(t, self, a, Bound(t, a));
    BlocksInPlan(t, self, b, Bound(t, b));
    RoutesInPlanCat(t, All(t, self, a), All(t, self, b));
  }

  lemma {:induction false} TableInPlan(t: Topo, self: Node)
    requires t.Valid() && t.Has(self) && !self.Host?
    ensures RoutesInPlan(t, Table(t, self))
  {
    match self
    case Leaf(_, _) =>
      LoopsInPlan(t, self, LeafToLeaf, LeafToSpine);
      BlocksInPlan(t, self, LeafToCore, t.coreCount);
      RoutesInPlanCat(t, Cat(All(t, self, LeafToLeaf), All(t, self, LeafToSpine)), All(t, self, LeafToCore));
    case Spine(_, _) =>
      LoopsInPlan(t, self, SpineToLeaf, SpineToSpine);
      BlocksInPlan(t, self, SpineToCore, t.perSpine);
      RoutesInPlanCat(t, Cat(All(t, self, SpineToLeaf), All(t, self, SpineToSpine)), All(t, self, SpineToCore));
    case Core(_) =>
      LoopsInPlan(t, self, CoreToPod, CoreToLeaf);
  }

  /** The address-level lookups, tables and connected routes together, send a packet for
      device d exactly to the intended next hops. */
  lemma {:induction false} NextHopsTowardDevice(t: Topo, n: Node, d: Node)
    requires t.Valid() && t.Has(n) && t.Has(d) && d != n
    ensures NextHops(t, n, AddressOf(t.podCount, d)) == NextToward(t, n, d)
  {
    if !n.Host? {
      LinksAreInPlan(t, n);
      ConnectedIsDirect(t, Links(t, n), d);
      TableInPlan(t, n);
      LookupServesDevice(t, Table(t, n), d);
      match n
      case Leaf(p, o) =>
        LeafTable(t, n, d);
        LeafNext(t, p, o, d);
      case Spine(p, o) =>
        SpineTable(t, n, d);
        SpineNext(t, p, o, d);
      case Core(c) =>
        CoreTable(t, n, d);
        CoreNext(t, c, d);
    }
  }

  lemma {:induction false} InAllSpines(p: nat, w: nat, x: Node)
    ensures Contains(AllSpines(p, w), x) <==> x.Spine? && x.pod == p && x.off < w
  {
    if w > 0 {
      InAllSpines(p, w - 1, x);
    }
  }

  lemma {:induction false} InAllLeaves(p: nat, w: nat, x: Node)
    ensures Contains(AllLeaves(p, w), x) <==> x.Leaf? && x.pod == p && x.off < w
  {
    if w > 0 {
      InAllLeaves(p, w - 1, x);
    }
  }

  /** Every core a spine at offset o forwards to is attached to offset o in all pods. */
  lemma {:induction false} InAllCores(t: Topo, o: nat, n: nat, x: Node)
    requires t.Valid() && o < t.podWidth && n <= t.perSpine && Contains(AllCores(o, t.perSpine, n), x)
    ensures x.Core? && t.Has(x) && t.Group(x.core) == o
  {
    if Contains(AllCores(o, t.perSpine, n - 1), x) {
      InAllCores(t, o, n - 1, x);
    } else {
      CoreIndex(t, o, n - 1);
    }
  }

  lemma {:induction false} AlwaysANextHop(t: Topo, n: Node, d: Node)
    requires t.Valid() && t.Has(n) && t.Has(d) && d != n
    requires d.Core? ==> n.Leaf? || (n.Spine? && t.Group(d.core) == n.off)
    ensures NextToward(t, n, d) != Nil
  {
  }
}
