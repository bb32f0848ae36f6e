/** The fat-tree (or Clos) topology: sizes, devices, and the interface numbers that address
    assignment gives every device. */
module Topology {
  import opened Addressing
  import opened DivMod
  import opened Lists

  datatype Shape = CLOS | FATTREE

  /** What the simulation is configured with; hosts[i] is the number of machines under leaf i. */
  datatype Params = Params(shape: Shape, ports: nat, numOfCore: nat, podWidth: nat, hosts: seq<nat>)

  /** The sizes the constructor derives. Spines are as many as leaves; perSpine is the number of
      cores attached to each spine. */
  datatype Topo = Topo(podWidth: nat, podCount: nat, perSpine: nat,
                       leafCount: nat, coreCount: nat, hosts: seq<nat>) {

    predicate Valid() {
      && 0 < podWidth <= 256
      && leafCount == Index(podCount, podWidth, 0)
      && coreCount == Index(podWidth, perSpine, 0)
      && coreCount <= 256
      && 3 * podCount < 255
      && (podCount > 1 ==> perSpine > 0)
      && |hosts| == leafCount
      && (forall i :: 0 <= i < leafCount ==> hosts[i] <= 255)
    }

    function HostCount(pod: nat, off: nat): nat {
      var i := Index(pod, podWidth, off);
      if i < |hosts| then hosts[i] else 0
    }

    predicate Has(n: Node) {
      match n
      case Host(p, o, i) => p < podCount && o < podWidth && i < HostCount(p, o)
      case Leaf(p, o) => p < podCount && o < podWidth
      case Spine(p, o) => p < podCount && o < podWidth
      case Core(c) => c < coreCount
    }

    /** The spine offset a core is attached to in every pod. */
    function Group(c: nat): nat {
      if perSpine == 0 then 0 else Row(c, perSpine)
    }
  }

  function Derive(x: Params): Topo {
    var leafCount := |x.hosts|;
    var podWidth := if x.shape == CLOS then leafCount else x.podWidth;
    var coreCount := if x.shape == CLOS then 0 else x.numOfCore;
    if podWidth == 0 then Topo(0, 0, 0, leafCount, coreCount, x.hosts)
    else Topo(podWidth, leafCount / podWidth, coreCount / podWidth, leafCount, coreCount, x.hosts)
  }

  /** The constructor's assertions. */
  predicate ConstructorAsserts(x: Params) {
    var t := Derive(x);
    && x.ports >= 8
    && 0 < t.podWidth <= x.ports / 2
    && (x.shape == CLOS ==> t.leafCount <= 255)
    && (x.shape == FATTREE ==> t.leafCount % t.podWidth == 0)
    && t.coreCount % t.podWidth == 0
    && t.podCount <= x.ports
    && t.podCount * 3 < 255
    && forall i :: 0 <= i < t.leafCount ==> t.hosts[i] <= 255
  }

  lemma {:induction false} WholeRows(n: nat, w: nat)
    requires w > 0 && n % w == 0
    ensures n == Index(n / w, w, 0) && n == Index(w, n / w, 0)
  {
    IsProduct(n / w, w, 0);
    IsProduct(w, n / w, 0);
    assert n == (n / w) * w + n % w;
  }

  /** A topology with the sizes the constructor derives from parameters x. */
  predicate BuiltFrom(t: Topo, x: Params) {
    && t.hosts == x.hosts
    && (x.shape == FATTREE ==> t.podWidth == x.podWidth)
    && (x.shape == CLOS ==> t.podWidth == t.leafCount <= 255)
  }

  /** The constructor's assertions give a valid topology once every index fits an address
      octet and several pods are joined by cores; a Clos network needs neither. */
  lemma {:induction false} AssertionsGiveValidTopology(x: Params)
    requires ConstructorAsserts(x)
    requires x.shape == FATTREE ==> x.podWidth <= 256 && x.numOfCore <= 256
    requires x.shape == FATTREE && Derive(x).podCount > 1 ==> x.numOfCore >= x.podWidth
    ensures Derive(x).Valid() && BuiltFrom(Derive(x), x)
    ensures x.shape == CLOS ==> Derive(x).podCount == 1 && Derive(x).coreCount == 0
  {
    var t := Derive(x);
    if x.shape == CLOS {
      Unique(1, 0, t.podWidth);
      Unique(0, 0, t.podWidth);
    }
    WholeRows(t.leafCount, t.podWidth);
    WholeRows(t.coreCount, t.podWidth);
  }

  /** Core Index(g, perSpine, j) is the j-th core attached to the spines at offset g. */
  lemma {:induction false} CoreIndex(t: Topo, g: nat, j: nat)
    requires t.Valid() && g < t.podWidth && j < t.perSpine
    ensures Index(g, t.perSpine, j) < t.coreCount
    ensures t.Group(Index(g, t.perSpine, j)) == g
    ensures Column(Index(g, t.perSpine, j), t.perSpine) == j
  {
    IsRowColumn(g, t.perSpine, j);
    Within(g, t.perSpine, j, t.podWidth);
  }

  lemma {:induction false} CoreGroup(t: Topo, c: nat)
    requires t.Valid() && c < t.coreCount
    ensures t.perSpine > 0
    ensures t.Group(c) < t.podWidth
    ensures c == Index(t.Group(c), t.perSpine, Column(c, t.perSpine))
  {
    IsProduct(t.podWidth, t.perSpine, 0);
    IsIndex(c, t.perSpine);
    Within(t.Group(c), t.perSpine, Column(c, t.perSpine), t.podWidth);
  }

  /** A loop counter over leaves or spines names one device. */
  lemma {:induction false} FlatIndex(t: Topo, i: nat)
    requires t.Valid() && i < t.leafCount
    ensures Row(i, t.podWidth) < t.podCount && Column(i, t.podWidth) < t.podWidth
    ensures i == Index(Row(i, t.podWidth), t.podWidth, Column(i, t.podWidth))
    ensures t.HostCount(Row(i, t.podWidth), Column(i, t.podWidth)) == t.hosts[i]
  {
    IsIndex(i, t.podWidth);
    Within(Row(i, t.podWidth), t.podWidth, Column(i, t.podWidth), t.podCount);
  }

  lemma {:induction false} IndexOf(t: Topo, p: nat, o: nat)
    requires t.Valid() && p < t.podCount && o < t.podWidth
    ensures Index(p, t.podWidth, o) < t.leafCount
    ensures Row(Index(p, t.podWidth, o), t.podWidth) == p
    ensures Column(Index(p, t.podWidth, o), t.podWidth) == o
  {
    IsRowColumn(p, t.podWidth, o);
    Within(p, t.podWidth, o, t.podCount);
  }

  lemma {:induction false} DevicesAreInPlan(t: Topo, n: Node)
    requires t.Valid() && t.Has(n)
    ensures NodeInPlan(t.podCount, n)
  {
  }

  // ---------------------------------------------------------------- interfaces

  /** One network interface: the device at the other end and the link's subnet. */
  datatype Link = Link(peer: Node, net: Prefix)

  function HostLinks(p: nat, o: nat, n: nat): List<Link> {
    if n == 0 then Nil else Snoc(HostLinks(p, o, n - 1), Link(Host(p, o, n - 1), HostLink(p, o, n - 1)))
  }

  function UpLinks(p: nat, o: nat, n: nat): List<Link> {
    if n == 0 then Nil else Snoc(UpLinks(p, o, n - 1), Link(Spine(p, n - 1), SwitchLink(p, n - 1, o)))
  }

  function DownLinks(p: nat, s: nat, n: nat): List<Link> {
    if n == 0 then Nil else Snoc(DownLinks(p, s, n - 1), Link(Leaf(p, n - 1), SwitchLink(p, s, n - 1)))
  }

  function CoreLinks(p: nat, s: nat, perSpine: nat, n: nat): List<Link> {
    if n == 0 then Nil
    else
      var c := Index(s, perSpine, n - 1);
      Snoc(CoreLinks(p, s, perSpine, n - 1), Link(Core(c), CoreLink(p, c)))
  }

  function PodLinks(g: nat, c: nat, n: nat): List<Link> {
    if n == 0 then Nil else Snoc(PodLinks(g, c, n - 1), Link(Spine(n - 1, g), CoreLink(n - 1, c)))
  }

  /** The interfaces of a device in order; interface k of the simulator is element k - 1,
      interface 0 being the loopback. */
  function Links(t: Topo, n: Node): List<Link> {
    match n
    case Host(p, o, i) => Snoc(Nil, Link(Leaf(p, o), HostLink(p, o, i)))
    case Leaf(p, o) => Cat(HostLinks(p, o, t.HostCount(p, o)), UpLinks(p, o, t.podWidth))
    case Spine(p, o) => Cat(DownLinks(p, o, t.podWidth), CoreLinks(p, o, t.perSpine, t.perSpine))
    case Core(c) => PodLinks(t.Group(c), c, t.podCount)
  }

  type Wiring = map<Node, List<Link>>

  function Of(w: Wiring, n: Node): List<Link> {
    if n in w then w[n] else Nil
  }

  function Attach(w: Wiring, n: Node, l: Link): Wiring {
    w[n := Snoc(Of(w, n), l)]
  }

  /** A link gives one interface to each end. */
  function Join(w: Wiring, a: Node, toB: Link, b: Node, toA: Link): (w': Wiring)
    requires a != b
    ensures Of(w', a) == Snoc(Of(w, a), toB) && Of(w', b) == Snoc(Of(w, b), toA)
    ensures forall n :: n != a && n != b ==> (n in w' <==> n in w) && Of(w', n) == Of(w, n)
    ensures a in w' && b in w'
  {
    Attach(Attach(w, a, toB), b, toA)
  }

  /** Device (p, o) comes before device (pod, off) in the loops' order. */
  predicate Before(p: nat, o: nat, pod: nat, off: nat) {
    p < pod || (p == pod && o < off)
  }

  /** The links present after the host links of the leaves before (pod, off) and j of that leaf. */
  function HostWiring(t: Topo, pod: nat, off: nat, j: nat, n: Node): List<Link> {
    match n
    case Host(p, o, x) =>
      if Before(p, o, pod, off) || (p == pod && o == off && x < j) then Links(t, n) else Nil
    case Leaf(p, o) =>
      if Before(p, o, pod, off) then HostLinks(p, o, t.HostCount(p, o))
      else if p == pod && o == off then HostLinks(p, o, j) else Nil
    case Spine(_, _) => Nil
    case Core(_) => Nil
  }

  /** The links present once the spines before (pod, off) are wired, together with j leaves and
      k cores of that spine. */
  function SpineWiring(t: Topo, pod: nat, off: nat, j: nat, k: nat, n: Node): List<Link> {
    match n
    case Host(_, _, _) => Links(t, n)
    case Leaf(p, o) =>
      Cat(HostLinks(p, o, t.HostCount(p, o)),
          UpLinks(p, o, if p < pod then t.podWidth
                        else if p > pod then 0
                        else if o < j then off + 1 else off))
    case Spine(p, o) =>
      if Before(p, o, pod, off) then Links(t, n)
      else if p == pod && o == off then Cat(DownLinks(p, o, j), CoreLinks(p, o, t.perSpine, k))
      else Nil
    case Core(c) =>
      var g := t.Group(c);
      var wired := g < off || (g == off && t.perSpine > 0 && Column(c, t.perSpine) < k);
      PodLinks(g, c, if wired then pod + 1 else pod)
  }

  ghost predicate HostWired(t: Topo, w: Wiring, pod: nat, off: nat, j: nat) {
    forall n :: if t.Has(n) then Of(w, n) == HostWiring(t, pod, off, j, n) else n !in w
  }

  ghost predicate SpineWired(t: Topo, w: Wiring, pod: nat, off: nat, j: nat, k: nat) {
    forall n :: if t.Has(n) then Of(w, n) == SpineWiring(t, pod, off, j, k, n) else n !in w
  }

  /** Every device has exactly its interfaces, in order, and nothing else is wired. */
  ghost predicate FullyWired(t: Topo, w: Wiring) {
    forall n :: if t.Has(n) then Of(w, n) == Links(t, n) else n !in w
  }

  lemma {:induction false} HostLinkStep(t: Topo, w: Wiring, w': Wiring, p: nat, o: nat, j: nat)
    requires t.Has(Host(p, o, j))
    requires HostWired(t, w, p, o, j)
    requires w' == Join(w, Host(p, o, j), Link(Leaf(p, o), HostLink(p, o, j)),
                        Leaf(p, o), Link(Host(p, o, j), HostLink(p, o, j)))
    ensures HostWired(t, w', p, o, j + 1)
  {
    assert t.Has(Leaf(p, o));
  }

  /** Moving on from a finished leaf: the next one is to its right or starts the next pod. */
  lemma {:induction false} HostRowDone(t: Topo, w: Wiring, p: nat, o: nat, p': nat, o': nat)
    requires o < t.podWidth
    requires HostWired(t, w, p, o, t.HostCount(p, o))
    requires (p' == p && o' == o + 1 < t.podWidth) || (p' == p + 1 && o' == 0 && o + 1 == t.podWidth)
    ensures HostWired(t, w, p', o', 0)
  {
  }

  lemma {:induction false} HostsDone(t: Topo, w: Wiring)
    requires HostWired(t, w, t.podCount, 0, 0)
    ensures SpineWired(t, w, 0, 0, 0, 0)
  {
    forall n | t.Has(n) ensures Of(w, n) == SpineWiring(t, 0, 0, 0, 0, n) {
      assert Of(w, n) == HostWiring(t, t.podCount, 0, 0, n);
    }
  }

  /** What one spine-to-leaf link adds, and to whom. */
  lemma {:induction false} LeafLinkAdds(t: Topo, p: nat, s: nat, j: nat)
    requires j < t.podWidth
    ensures SpineWiring(t, p, s, j + 1, 0, Leaf(p, j))
         == Snoc(SpineWiring(t, p, s, j, 0, Leaf(p, j)), Link(Spine(p, s), SwitchLink(p, s, j)))
    ensures SpineWiring(t, p, s, j + 1, 0, Spine(p, s))
         == Snoc(SpineWiring(t, p, s, j, 0, Spine(p, s)), Link(Leaf(p, j), SwitchLink(p, s, j)))
  {
  }

  lemma {:induction false} LeafLinkKeeps(t: Topo, p: nat, s: nat, j: nat, n: Node)
    requires j < t.podWidth && n != Leaf(p, j) && n != Spine(p, s)
    ensures SpineWiring(t, p, s, j + 1, 0, n) == SpineWiring(t, p, s, j, 0, n)
  {
  }

  lemma {:induction false} LeafLinkStep(t: Topo, w: Wiring, w': Wiring, p: nat, s: nat, j: nat)
    requires t.Has(Spine(p, s)) && j < t.podWidth
    requires SpineWired(t, w, p, s, j, 0)
    requires w' == Join(w, Spine(p, s), Link(Leaf(p, j), SwitchLink(p, s, j)),
                        Leaf(p, j), Link(Spine(p, s), SwitchLink(p, s, j)))
    ensures SpineWired(t, w', p, s, j + 1, 0)
  {
    forall n ensures if t.Has(n) then Of(w', n) == SpineWiring(t, p, s, j + 1, 0, n) else n !in w' {
      if n == Leaf(p, j) || n == Spine(p, s) {
        assert t.Has(n);
        LeafLinkAdds(t, p, s, j);
      } else {
        LeafLinkKeeps(t, p, s, j, n);
      }
    }
  }

  /** What one spine-to-core link adds, and to whom. */
  lemma {:induction false} CoreLinkAdds(t: Topo, p: nat, s: nat, k: nat, c: nat)
    requires t.Valid() && s < t.podWidth && k < t.perSpine && c == Index(s, t.perSpine, k)
    ensures SpineWiring(t, p, s, t.podWidth, k + 1, Core(c))
         == Snoc(SpineWiring(t, p, s, t.podWidth, k, Core(c)), Link(Spine(p, s), CoreLink(p, c)))
    ensures SpineWiring(t, p, s, t.podWidth, k + 1, Spine(p, s))
         == Snoc(SpineWiring(t, p, s, t.podWidth, k, Spine(p, s)), Link(Core(c), CoreLink(p, c)))
  {
    CoreIndex(t, s, k);
  }

  lemma {:induction false} CoreLinkKeeps(t: Topo, p: nat, s: nat, k: nat, c: nat, n: Node)
    requires t.Valid() && k < t.perSpine && c == Index(s, t.perSpine, k)
    requires t.Has(n) && n != Core(c) && n != Spine(p, s)
    ensures SpineWiring(t, p, s, t.podWidth, k + 1, n) == SpineWiring(t, p, s, t.podWidth, k, n)
  {
    if n.Core? {
      CoreGroup(t, n.core);
    }
  }

  lemma {:induction false} CoreLinkStep(t: Topo, w: Wiring, w': Wiring, p: nat, s: nat, k: nat, c: nat)
    requires t.Valid() && t.Has(Spine(p, s)) && k < t.perSpine && c == Index(s, t.perSpine, k)
    requires SpineWired(t, w, p, s, t.podWidth, k)
    requires w' == Join(w, Core(c), Link(Spine(p, s), CoreLink(p, c)), Spine(p, s), Link(Core(c), CoreLink(p, c)))
    ensures SpineWired(t, w', p, s, t.podWidth, k + 1)
  {
    CoreIndex(t, s, k);
    forall n ensures if t.Has(n) then Of(w', n) == SpineWiring(t, p, s, t.podWidth, k + 1, n) else n !in w' {
      if n == Core(c) || n == Spine(p, s) {
        assert t.Has(n);
        CoreLinkAdds(t, p, s, k, c);
      } else if t.Has(n) {
        CoreLinkKeeps(t, p, s, k, c, n);
      }
    }
  }

  lemma {:induction false} SpineRowDone(t: Topo, w: Wiring, p: nat, s: nat, p': nat, s': nat)
    requires t.Valid() && s < t.podWidth
    requires SpineWired(t, w, p, s, t.podWidth, t.perSpine)
    requires (p' == p && s' == s + 1 < t.podWidth) || (p' == p + 1 && s' == 0 && s + 1 == t.podWidth)
    ensures SpineWired(t, w, p', s', 0, 0)
  {
    forall n | t.Has(n) ensures SpineWiring(t, p, s, t.podWidth, t.perSpine, n) == SpineWiring(t, p', s', 0, 0, n) {
      match n
      case Host(_, _, _) =>
      case Leaf(_, _) =>
      case Spine(_, _) =>
      case Core(c) => CoreGroup(t, c);
    }
  }

  lemma {:induction false} SpinesDone(t: Topo, w: Wiring)
    requires t.Valid() && SpineWired(t, w, t.podCount, 0, 0, 0)
    ensures FullyWired(t, w)
  {
    forall n | t.Has(n) ensures Of(w, n) == Links(t, n) {
      assert Of(w, n) == SpineWiring(t, t.podCount, 0, 0, 0, n);
    }
  }

  lemma {:induction false} LoopEnds(t: Topo)
    requires t.Valid()
    ensures Row(t.leafCount, t.podWidth) == t.podCount && Column(t.leafCount, t.podWidth) == 0
  {
    IsRowColumn(t.podCount, t.podWidth, 0);
  }

  /** Links every host to its leaf, in loop order. */
  method AttachHosts(t: Topo) returns (w: Wiring)
    requires t.Valid()
    ensures HostWired(t, w, t.podCount, 0, 0)
  {
    w := map[];
    for i := 0 to t.leafCount
      invariant HostWired(t, w, Row(i, t.podWidth), Column(i, t.podWidth), 0)
    {
      FlatIndex(t, i);
      var p, o := DivRem(i, t.podWidth);
      for j := 0 to t.hosts[i]
        invariant HostWired(t, w, p, o, j)
      {
        ghost var before := w;
        w := Join(w, Host(p, o, j), Link(Leaf(p, o), HostLink(p, o, j)),
                  Leaf(p, o), Link(Host(p, o, j), HostLink(p, o, j)));
        HostLinkStep(t, before, w, p, o, j);
      }
      Step(i, t.podWidth);
      HostRowDone(t, w, p, o, Row(i + 1, t.podWidth), Column(i + 1, t.podWidth));
    }
    LoopEnds(t);
  }

  /** Links one spine to the leaves of its pod and to its cores. */
  method AttachSpine(t: Topo, w0: Wiring, p: nat, s: nat) returns (w: Wiring)
    requires t.Valid() && t.Has(Spine(p, s))
    requires SpineWired(t, w0, p, s, 0, 0)
    ensures SpineWired(t, w, p, s, t.podWidth, t.perSpine)
  {
    w := w0;
    for j := 0 to t.podWidth
      invariant SpineWired(t, w, p, s, j, 0)
    {
      ghost var before := w;
      w := Join(w, Spine(p, s), Link(Leaf(p, j), SwitchLink(p, s, j)),
                Leaf(p, j), Link(Spine(p, s), SwitchLink(p, s, j)));
      LeafLinkStep(t, before, w, p, s, j);
    }
    for k := 0 to t.perSpine
      invariant SpineWired(t, w, p, s, t.podWidth, k)
    {
      ghost var before := w;
      var c := CoreOf(s, t.perSpine, k);
      w := Join(w, Core(c), Link(Spine(p, s), CoreLink(p, c)), Spine(p, s), Link(Core(c), CoreLink(p, c)));
      CoreLinkStep(t, before, w, p, s, k, c);
    }
  }

  method CoreOf(s: nat, perSpine: nat, k: nat) returns (c: nat)
    ensures c == Index(s, perSpine, k)
  {
    IsProduct(s, perSpine, k);
    c := s * perSpine + k;
  }

  /** One turn of the spine loop. */
  method AttachSpineNumbered(t: Topo, w0: Wiring, i: nat) returns (w: Wiring)
    requires t.Valid() && i < t.leafCount
    requires SpineWired(t, w0, Row(i, t.podWidth), Column(i, t.podWidth), 0, 0)
    ensures SpineWired(t, w, Row(i + 1, t.podWidth), Column(i + 1, t.podWidth), 0, 0)
  {
    FlatIndex(t, i);
    var p, s := DivRem(i, t.podWidth);
    w := AttachSpine(t, w0, p, s);
    Step(i, t.podWidth);
    SpineRowDone(t, w, p, s, Row(i + 1, t.podWidth), Column(i + 1, t.podWidth));
  }

  method AttachSpines(t: Topo, w0: Wiring) returns (w: Wiring)
    requires t.Valid() && SpineWired(t, w0, 0, 0, 0, 0)
    ensures SpineWired(t, w, t.podCount, 0, 0, 0)
  {
    w := w0;
    for i := 0 to t.leafCount
      invariant SpineWired(t, w, Row(i, t.podWidth), Column(i, t.podWidth), 0, 0)
    {
      w := AttachSpineNumbered(t, w, i);
    }
    LoopEnds(t);
  }

  /** AssignPhysicalIps, first part: assigning addresses creates the interfaces, so the order of
      these loops is what fixes every interface number. */
  method AssignInterfaces(t: Topo) returns (w: Wiring)
    requires t.Valid()
    ensures FullyWired(t, w)
  {
    w := AttachHosts(t);
    HostsDone(t, w);
    w := AttachSpines(t, w);
    SpinesDone(t, w);
  }
}
