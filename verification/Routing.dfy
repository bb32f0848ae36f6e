/** The hand-written routing tables and the equal-cost lookup over them. */
module Routing {
  import opened Addressing
  import opened DivMod
  import opened Lists
  import opened Topology

  /** AddNetworkRouteTo's arguments: the prefix stands for its network address and mask. */
  datatype Route = Route(to: Prefix, iface: nat)

  predicate Matches(t: Topo, r: Route, a: Addr) {
    IsMatch(PrefixMask(r.to), a, PrefixDest(t.podCount, r.to))
  }

  type RouteList = List<Route>

  /** The interfaces of all routes matching an address, in table order: every match is an
      equal-cost candidate, there is no longest-prefix rule. */
  function Candidates(t: Topo, table: RouteList, a: Addr): List<nat> {
    match table
    case Nil => Nil
    case Snoc(i, r) =>
      if Matches(t, r, a) then Snoc(Candidates(t, i, a), r.iface) else Candidates(t, i, a)
  }

  /** The first n routes of a table. */
  function Prefixed(table: RouteList, n: nat): RouteList
    requires n <= Len(table)
  {
    if n == Len(table) then table else Prefixed(table.init, n)
  }

  lemma {:induction false} PrefixedStep(table: RouteList, n: nat)
    requires n < Len(table)
    ensures Prefixed(table, n + 1) == Snoc(Prefixed(table, n), At(table, n))
  {
    if n + 1 < Len(table) {
      PrefixedStep(table.init, n);
    }
  }

  /** LookupGlobal's collection loop. */
  method LookupGlobal(t: Topo, table: RouteList, a: Addr) returns (all: List<nat>)
    ensures all == Candidates(t, table, a)
  {
    all := Nil;
    ghost var none := Prefixed(table, 0);
    PrefixedNone(table);
    for i := 0 to Len(table)
      invariant all == Candidates(t, Prefixed(table, i), a)
    {
      PrefixedStep(table, i);
      var r := At(table, i);
      if Matches(t, r, a) {
        all := Snoc(all, r.iface);
      }
    }
  }

  lemma {:induction false} PrefixedNone(table: RouteList)
    ensures Prefixed(table, 0) == Nil
  {
    if table.Snoc? {
      PrefixedNone(table.init);
    }
  }

  /** The same lookup in device terms: the routes meant for a device. */
  function Serving(table: RouteList, d: Node): List<nat> {
    match table
    case Nil => Nil
    case Snoc(i, r) => if Covers(r.to, d) then Snoc(Serving(i, d), r.iface) else Serving(i, d)
  }

  predicate RoutesInPlan(t: Topo, table: RouteList) {
    match table
    case Nil => true
    case Snoc(i, r) => PrefixInPlan(t.podCount, r.to) && RoutesInPlan(t, i)
  }

  /** Looking up a device's address finds exactly the routes meant for the device. */
  lemma {:induction false} LookupServesDevice(t: Topo, table: RouteList, d: Node)
    requires t.Valid() && t.Has(d) && RoutesInPlan(t, table)
    ensures Candidates(t, table, AddressOf(t.podCount, d)) == Serving(table, d)
  {
    match table
    case Nil =>
    case Snoc(i, r) =>
      LookupServesDevice(t, i, d);
      DevicesAreInPlan(t, d);
      PrefixMatchesExactlyItsDevices(t.podCount, r.to, d);
  }

  lemma {:induction false} ServingCat(x: RouteList, y: RouteList, d: Node)
    ensures Serving(Cat(x, y), d) == Cat(Serving(x, d), Serving(y, d))
  {
    match y
    case Nil =>
    case Snoc(i, _) => ServingCat(x, i, d);
  }

  // ------------------------------------------------------- the installed tables

  /** The route-installing loops, one name each. */
  datatype Loop =
    | LeafToLeaf | LeafToSpine | LeafToCore
    | SpineToLeaf | SpineToSpine | SpineToCore
    | CoreToPod | CoreToLeaf

  /** n equal-cost routes to one prefix over consecutive interfaces. */
  function Fan(x: Prefix, base: nat, n: nat): RouteList {
    if n == 0 then Nil else Snoc(Fan(x, base, n - 1), Route(x, base + n - 1))
  }

  /** The same for two prefixes installed alternately. */
  function Fan2(x: Prefix, y: Prefix, base: nat, n: nat): RouteList {
    if n == 0 then Nil
    else Snoc(Snoc(Fan2(x, y, base, n - 1), Route(x, base + n - 1)), Route(y, base + n - 1))
  }

  /** The first interface of a leaf that leads to a spine. */
  function UpBase(t: Topo, n: Node): nat {
    if n.Leaf? then t.HostCount(n.pod, n.off) + 1 else 0
  }

  /** What iteration j of a loop installs at a switch. */
  function Block(t: Topo, self: Node, l: Loop, j: nat): RouteList
    requires t.podWidth > 0 && !self.Host?
  {
    var p, o := Row(j, t.podWidth), Column(j, t.podWidth);
    match l
    case LeafToLeaf =>
      if self == Leaf(p, o) then Nil else Fan2(HostGroup(p, o), LeafNet(p, o), UpBase(t, self), t.podWidth)
    case LeafToSpine =>
      if self.Leaf? && self.pod == p then Snoc(Nil, Route(SpineNet(p, o), UpBase(t, self) + o))
      else Fan(SpineNet(p, o), UpBase(t, self), t.podWidth)
    case LeafToCore =>
      Snoc(Nil, Route(CoreNet(j), UpBase(t, self) + t.Group(j)))
    case SpineToLeaf =>
      if self.Spine? && self.pod == p then
        Snoc(Snoc(Nil, Route(HostGroup(p, o), o + 1)), Route(LeafNet(p, o), o + 1))
      else Fan2(HostGroup(p, o), LeafNet(p, o), t.podWidth + 1, t.perSpine)
    case SpineToSpine =>
      if self == Spine(p, o) then Nil
      else if self.Spine? && self.pod == p then Fan(SpineNet(p, o), 1, t.podWidth)
      else Fan(SpineNet(p, o), t.podWidth + 1, t.perSpine)
    case SpineToCore =>
      if self.Spine? then Snoc(Nil, Route(CoreNet(Index(self.off, t.perSpine, j)), t.podWidth + 1 + j)) else Nil
    case CoreToPod =>
      Snoc(Snoc(Nil, Route(HostGroup(p, o), p + 1)), Route(SpineNet(p, o), p + 1))
    case CoreToLeaf =>
      Snoc(Nil, Route(LeafNet(p, o), 1 + p))
  }

  function Bound(t: Topo, l: Loop): nat {
    match l
    case LeafToCore => t.coreCount
    case SpineToCore => t.perSpine
    case _ => t.leafCount
  }

  function Blocks(t: Topo, self: Node, l: Loop, n: nat): RouteList
    requires t.podWidth > 0 && !self.Host?
  {
    if n == 0 then Nil else Cat(Blocks(t, self, l, n - 1), Block(t, self, l, n - 1))
  }

  function All(t: Topo, self: Node, l: Loop): RouteList
    requires t.podWidth > 0 && !self.Host?
  {
    Blocks(t, self, l, Bound(t, l))
  }

  /** The complete table of a switch. */
  function Table(t: Topo, self: Node): RouteList
    requires t.podWidth > 0 && !self.Host?
  {
    match self
    case Leaf(_, _) => Cat(Cat(All(t, self, LeafToLeaf), All(t, self, LeafToSpine)), All(t, self, LeafToCore))
    case Spine(_, _) => Cat(Cat(All(t, self, SpineToLeaf), All(t, self, SpineToSpine)), All(t, self, SpineToCore))
    case Core(_) => Cat(All(t, self, CoreToPod), All(t, self, CoreToLeaf))
  }

  /** The innermost route loops. */
  method AddFan(x: Prefix, base: nat, n: nat) returns (r: RouteList)
    ensures r == Fan(x, base, n)
  {
    r := Nil;
    for k := 0 to n
      invariant r == Fan(x, base, k)
    {
      r := Snoc(r, Route(x, base + k));
    }
  }

  method AddFan2(x: Prefix, y: Prefix, base: nat, n: nat) returns (r: RouteList)
    ensures r == Fan2(x, y, base, n)
  {
    r := Nil;
    for k := 0 to n
      invariant r == Fan2(x, y, base, k)
    {
      r := Snoc(Snoc(r, Route(x, base + k)), Route(y, base + k));
    }
  }

  method AddLeafToLeaf(t: Topo, pod: nat, off: nat) returns (r: RouteList)
    requires t.Valid()
    ensures r == All(t, Leaf(pod, off), LeafToLeaf)
  {
    ghost var self := Leaf(pod, off);
    r := Nil;
    for j := 0 to t.leafCount
      invariant r == Blocks(t, self, LeafToLeaf, j)
    {
      var p, o := DivRem(j, t.podWidth);
      if !(o == off && p == pod) {
        var more := AddFan2(HostGroup(p, o), LeafNet(p, o), t.HostCount(pod, off) + 1, t.podWidth);
        r := Cat(r, more);
      }
    }
  }

  method AddLeafToSpine(t: Topo, pod: nat, off: nat) returns (r: RouteList)
    requires t.Valid()
    ensures r == All(t, Leaf(pod, off), LeafToSpine)
  {
    ghost var self := Leaf(pod, off);
    r := Nil;
    for j := 0 to t.leafCount
      invariant r == Blocks(t, self, LeafToSpine, j)
    {
      var p, o := DivRem(j, t.podWidth);
      var base := t.HostCount(pod, off) + 1;
      if p == pod {
        CatOne(r, Route(SpineNet(p, o), base + o));
        r := Snoc(r, Route(SpineNet(p, o), base + o));
      } else {
        var more := AddFan(SpineNet(p, o), base, t.podWidth);
        r := Cat(r, more);
      }
    }
  }

  method AddLeafToCore(t: Topo, pod: nat, off: nat) returns (r: RouteList)
    requires t.Valid()
    ensures r == All(t, Leaf(pod, off), LeafToCore)
  {
    ghost var self := Leaf(pod, off);
    r := Nil;
    for j := 0 to t.coreCount
      invariant r == Blocks(t, self, LeafToCore, j)
    {
      CoreGroup(t, j);
      IsQuotient(j, t.perSpine);
      CatOne(r, Route(CoreNet(j), t.HostCount(pod, off) + 1 + j / t.perSpine));
      r := Snoc(r, Route(CoreNet(j), t.HostCount(pod, off) + 1 + j / t.perSpine));
    }
  }

  /** The switches a loop counter stands for. */
  function LeafNumbered(t: Topo, i: nat): Node
    requires t.podWidth > 0
  {
    Leaf(Row(i, t.podWidth), Column(i, t.podWidth))
  }

  function SpineNumbered(t: Topo, k: nat): Node
    requires t.podWidth > 0
  {
    Spine(Row(k, t.podWidth), Column(k, t.podWidth))
  }

  method InstallLeafRoutes(t: Topo, i: nat) returns (table: RouteList)
    requires t.Valid() && i < t.leafCount
    ensures table == Table(t, LeafNumbered(t, i))
  {
    var pod, off := DivRem(i, t.podWidth);
    var leaves := AddLeafToLeaf(t, pod, off);
    var spines := AddLeafToSpine(t, pod, off);
    var cores := AddLeafToCore(t, pod, off);
    table := Cat(Cat(leaves, spines), cores);
  }

  method AddSpineToLeaf(t: Topo, pod: nat, off: nat) returns (r: RouteList)
    requires t.Valid()
    ensures r == All(t, Spine(pod, off), SpineToLeaf)
  {
    ghost var self := Spine(pod, off);
    r := Nil;
    for i := 0 to t.leafCount
      invariant r == Blocks(t, self, SpineToLeaf, i)
    {
      var p, o := DivRem(i, t.podWidth);
      if p == pod {
        CatTwo(r, Route(HostGroup(p, o), o + 1), Route(LeafNet(p, o), o + 1));
        r := Snoc(Snoc(r, Route(HostGroup(p, o), o + 1)), Route(LeafNet(p, o), o + 1));
      } else {
        var more := AddFan2(HostGroup(p, o), LeafNet(p, o), t.podWidth + 1, t.perSpine);
        r := Cat(r, more);
      }
    }
  }

  method AddSpineToSpine(t: Topo, pod: nat, off: nat) returns (r: RouteList)
    requires t.Valid()
    ensures r == All(t, Spine(pod, off), SpineToSpine)
  {
    ghost var self := Spine(pod, off);
    r := Nil;
    for i := 0 to t.leafCount
      invariant r == Blocks(t, self, SpineToSpine, i)
    {
      var p, o := DivRem(i, t.podWidth);
      if p == pod && o == off {
        // a spine needs no route to itself
      } else if p == pod {
        var more := AddFan(SpineNet(p, o), 1, t.podWidth);
        r := Cat(r, more);
      } else {
        var more := AddFan(SpineNet(p, o), t.podWidth + 1, t.perSpine);
        r := Cat(r, more);
      }
    }
  }

  method AddSpineToCore(t: Topo, pod: nat, off: nat) returns (r: RouteList)
    requires t.Valid()
    ensures r == All(t, Spine(pod, off), SpineToCore)
  {
    ghost var self := Spine(pod, off);
    r := Nil;
    for i := 0 to t.perSpine
      invariant r == Blocks(t, self, SpineToCore, i)
    {
      IsProduct(off, t.perSpine, i);
      CatOne(r, Route(CoreNet(off * t.perSpine + i), t.podWidth + 1 + i));
      r := Snoc(r, Route(CoreNet(off * t.perSpine + i), t.podWidth + 1 + i));
    }
  }

  method InstallSpineRoutes(t: Topo, k: nat) returns (table: RouteList)
    requires t.Valid() && k < t.leafCount
    ensures table == Table(t, SpineNumbered(t, k))
  {
    var pod, off := DivRem(k, t.podWidth);
    var leaves := AddSpineToLeaf(t, pod, off);
    var spines := AddSpineToSpine(t, pod, off);
    var cores := AddSpineToCore(t, pod, off);
    table := Cat(Cat(leaves, spines), cores);
  }

  /** Row by row, the nested pod loop visits the same leaves as one flat loop. */
  lemma {:induction false} IndexStep(p: nat, w: nat, o: nat)
    ensures Index(p, w, o + 1) == Index(p, w, o) + 1
    ensures Index(p, w, w) == Index(p + 1, w, 0)
  {
    if p > 0 {
      IndexStep(p - 1, w, o);
    }
  }

  lemma {:induction false} BlocksStep(t: Topo, self: Node, f: nat)
    requires t.podWidth > 0 && !self.Host?
    ensures Blocks(t, self, CoreToPod, f + 1) == Cat(Blocks(t, self, CoreToPod, f), Block(t, self, CoreToPod, f))
  {
  }

  /** One step of the flat count the nested pod loop keeps. */
  lemma {:induction false} PodLoopStep(t: Topo, self: Node, f: nat, i: nat, j: nat)
    requires !self.Host? && j < t.podWidth && f == Index(i, t.podWidth, j)
    ensures f + 1 == Index(i, t.podWidth, j + 1)
    ensures Block(t, self, CoreToPod, f)
         == Snoc(Snoc(Nil, Route(HostGroup(i, j), i + 1)), Route(SpineNet(i, j), i + 1))
  {
    IndexStep(i, t.podWidth, j);
    IsRowColumn(i, t.podWidth, j);
  }

  method AddPodRow(t: Topo, k: nat, i: nat, rows: RouteList, ghost f0: nat) returns (r: RouteList, ghost f: nat)
    requires f0 == Index(i, t.podWidth, 0)
    requires t.podWidth > 0 && rows == Blocks(t, Core(k), CoreToPod, f0)
    ensures f == Index(i, t.podWidth, t.podWidth)
    ensures r == Blocks(t, Core(k), CoreToPod, f)
  {
    r, f := rows, f0;
    for j := 0 to t.podWidth
      invariant f == Index(i, t.podWidth, j)
      invariant r == Blocks(t, Core(k), CoreToPod, f)
    {
      PodLoopStep(t, Core(k), f, i, j);
      BlocksStep(t, Core(k), f);
      CatTwo(r, Route(HostGroup(i, j), i + 1), Route(SpineNet(i, j), i + 1));
      r := Snoc(Snoc(r, Route(HostGroup(i, j), i + 1)), Route(SpineNet(i, j), i + 1));
      f := f + 1;
    }
  }

  method AddCoreToPod(t: Topo, k: nat) returns (r: RouteList)
    requires t.Valid()
    ensures r == All(t, Core(k), CoreToPod)
  {
    r := Nil;
    ghost var f := 0;
    for i := 0 to t.podCount
      invariant f == Index(i, t.podWidth, 0)
      invariant r == Blocks(t, Core(k), CoreToPod, f)
    {
      r, f := AddPodRow(t, k, i, r, f);
      IndexStep(i, t.podWidth, 0);
    }
  }

  method AddCoreToLeaf(t: Topo, k: nat) returns (r: RouteList)
    requires t.Valid()
    ensures r == All(t, Core(k), CoreToLeaf)
  {
    ghost var self := Core(k);
    r := Nil;
    for leaf := 0 to t.leafCount
      invariant r == Blocks(t, self, CoreToLeaf, leaf)
    {
      var p, o := DivRem(leaf, t.podWidth);
      CatOne(r, Route(LeafNet(p, o), 1 + p));
      r := Snoc(r, Route(LeafNet(p, o), 1 + p));
    }
  }

  method InstallCoreRoutes(t: Topo, k: nat) returns (table: RouteList)
    requires t.Valid()
    ensures table == Table(t, Core(k))
  {
    var pods := AddCoreToPod(t, k);
    var leaves := AddCoreToLeaf(t, k);
    table := Cat(pods, leaves);
  }

  /** The switches whose tables exist after the leaves before (p, o), the spines before (q, r)
      and the cores before c. */
  ghost predicate Installed(t: Topo, tables: map<Node, RouteList>, p: nat, o: nat, q: nat, r: nat, c: nat)
    requires t.podWidth > 0
  {
    && (forall n :: n in tables <==> (t.Has(n) && !n.Host? && match n
                                       case Leaf(x, y) => Before(x, y, p, o)
                                       case Spine(x, y) => Before(x, y, q, r)
                                       case Core(x) => x < c))
    && forall n :: n in tables ==> tables[n] == Table(t, n)
  }

  /** (p', o') is the device after (p, o) in the loops' order. */
  predicate Follows(t: Topo, p: nat, o: nat, p': nat, o': nat) {
    (p' == p && o' == o + 1 < t.podWidth) || (p' == p + 1 && o' == 0 && o + 1 == t.podWidth)
  }

  lemma {:induction false} LeafInstalled(t: Topo, tables: map<Node, RouteList>, p: nat, o: nat, p': nat, o': nat)
    requires t.Has(Leaf(p, o)) && Follows(t, p, o, p', o')
    requires Installed(t, tables, p, o, 0, 0, 0)
    ensures Installed(t, tables[Leaf(p, o) := Table(t, Leaf(p, o))], p', o', 0, 0, 0)
  {
  }

  lemma {:induction false} SpineInstalled(t: Topo, tables: map<Node, RouteList>, p: nat, o: nat, p': nat, o': nat)
    requires t.Has(Spine(p, o)) && Follows(t, p, o, p', o')
    requires Installed(t, tables, t.podCount, 0, p, o, 0)
    ensures Installed(t, tables[Spine(p, o) := Table(t, Spine(p, o))], t.podCount, 0, p', o', 0)
  {
  }

  method InstallAllLeaves(t: Topo) returns (tables: map<Node, RouteList>)
    requires t.Valid()
    ensures Installed(t, tables, t.podCount, 0, 0, 0, 0)
  {
    tables := map[];
    for i := 0 to t.leafCount
      invariant Installed(t, tables, Row(i, t.podWidth), Column(i, t.podWidth), 0, 0, 0)
    {
      FlatIndex(t, i);
      Step(i, t.podWidth);
      var p, o := DivRem(i, t.podWidth);
      var table := InstallLeafRoutes(t, i);
      LeafInstalled(t, tables, p, o, Row(i + 1, t.podWidth), Column(i + 1, t.podWidth));
      tables := tables[Leaf(p, o) := table];
    }
    LoopEnds(t);
  }

  method InstallAllSpines(t: Topo, leaves: map<Node, RouteList>) returns (tables: map<Node, RouteList>)
    requires t.Valid()
    requires Installed(t, leaves, t.podCount, 0, 0, 0, 0)
    ensures Installed(t, tables, t.podCount, 0, t.podCount, 0, 0)
  {
    tables := leaves;
    for i := 0 to t.leafCount
      invariant Installed(t, tables, t.podCount, 0, Row(i, t.podWidth), Column(i, t.podWidth), 0)
    {
      FlatIndex(t, i);
      Step(i, t.podWidth);
      var p, o := DivRem(i, t.podWidth);
      var table := InstallSpineRoutes(t, i);
      SpineInstalled(t, tables, p, o, Row(i + 1, t.podWidth), Column(i + 1, t.podWidth));
      tables := tables[Spine(p, o) := table];
    }
    LoopEnds(t);
  }

  /** AssignPhysicalIps, second part: every switch gets exactly its table. */
  method InstallRoutes(t: Topo) returns (tables: map<Node, RouteList>)
    requires t.Valid()
    ensures forall n :: n in tables <==> t.Has(n) && !n.Host?
    ensures forall n :: n in tables ==> tables[n] == Table(t, n)
  {
    tables := InstallAllLeaves(t);
    tables := InstallAllSpines(t, tables);
    for k := 0 to t.coreCount
      invariant Installed(t, tables, t.podCount, 0, t.podCount, 0, k)
    {
      var table := InstallCoreRoutes(t, k);
      tables := tables[Core(k) := table];
    }
  }
}
