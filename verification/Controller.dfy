/** The controller's view of the network: the path it computes for a flow, what it charges for a
    packet, and how both compare with what the tables really do under per-flow balancing. */
module Controller {
  import opened Addressing
  import opened DivMod
  import opened Lists
  import opened Topology
  import opened Forwarding
  import opened Walks

  // ---------------------------------------------------------------- per-flow forwarding

  /** Per-flow balancing: the flow hash modulo the number of candidates picks the route. */
  function PerFlowNext(t: Topo, n: Node, a: Addr, hash: nat): Node
    requires t.podWidth > 0 && NextHops(t, n, a) != Nil
  {
    var all := NextHops(t, n, a);
    At(all, Column(hash, Len(all)))
  }

  /** The switches a gateway-bound packet passes, all with the same outer header and so the same
      hash, from the sender's leaf on. */
  ghost predicate FlowPath(t: Topo, s: Node, g: Node, hash: nat, path: seq<Node>)
    requires t.podWidth > 0
  {
    && |path| > 0 && s.Host? && path[0] == Leaf(s.pod, s.off)
    && (forall k :: 0 <= k < |path| ==> !path[k].Host?)
    && (forall k :: 0 < k < |path| ==> Follows(t, path[k - 1], path[k], g, hash))
  }

  ghost predicate Follows(t: Topo, n: Node, next: Node, g: Node, hash: nat)
    requires t.podWidth > 0
  {
    NextHops(t, n, AddressOf(t.podCount, g)) != Nil && next == PerFlowNext(t, n, AddressOf(t.podCount, g), hash)
  }

  lemma {:induction false} AllSpinesAt(p: nat, w: nat, k: nat)
    requires k < w
    ensures Len(AllSpines(p, w)) == w && At(AllSpines(p, w), k) == Spine(p, k)
  {
    if w > 1 {
      AllSpinesAt(p, w - 1, if k < w - 1 then k else 0);
    }
  }

  lemma {:induction false} AllCoresAt(o: nat, perSpine: nat, n: nat, k: nat)
    requires k < n
    ensures Len(AllCores(o, perSpine, n)) == n && At(AllCores(o, perSpine, n), k) == Core(Index(o, perSpine, k))
  {
    if n > 1 {
      AllCoresAt(o, perSpine, n - 1, if k < n - 1 then k else 0);
    }
  }

  /** Where the flow goes from one switch. */
  function FlowNext(t: Topo, n: Node, g: Node, hash: nat): Node
    requires t.podWidth > 0 && g.Host? && !n.Host?
    requires n.Spine? && n.pod != g.pod ==> t.perSpine > 0
  {
    match n
    case Leaf(p, o) => if p == g.pod && o == g.off then g else Spine(p, Column(hash, t.podWidth))
    case Spine(p, o) =>
      if p != g.pod then Core(Index(o, t.perSpine, Column(hash, t.perSpine))) else Leaf(p, g.off)
    case Core(c) => Spine(g.pod, t.Group(c))
  }

  lemma {:induction false} SeveralPodsHaveCores(t: Topo, p: nat, q: nat)
    requires t.Valid() && p < t.podCount && q < t.podCount && p != q
    ensures t.perSpine > 0
  {
  }

  lemma {:induction false} OnlyChoice(n: Node, hash: nat)
    ensures At(Snoc(Nil, n), Column(hash, Len(Snoc(Nil, n)))) == n
  {
    assert Len(Snoc(Nil, n)) == 1;
  }

  /** The tables send the flow exactly there. */
  lemma {:induction false} FlowHop(t: Topo, n: Node, g: Node, hash: nat)
    requires t.Valid() && Switch(t, n) && t.Has(g) && g.Host?
    ensures n.Spine? && n.pod != g.pod ==> t.perSpine > 0
    ensures NextHops(t, n, AddressOf(t.podCount, g)) != Nil
    ensures PerFlowNext(t, n, AddressOf(t.podCount, g), hash) == FlowNext(t, n, g, hash)
  {
    NextHopsTowardDevice(t, n, g);
    match n
    case Leaf(p, o) =>
      if p == g.pod && o == g.off {
        OnlyChoice(g, hash);
      } else {
        AllSpinesAt(p, t.podWidth, Column(hash, t.podWidth));
      }
    case Spine(p, o) =>
      if p == g.pod {
        OnlyChoice(Leaf(p, g.off), hash);
      } else {
        SeveralPodsHaveCores(t, p, g.pod);
        AllCoresAt(o, t.perSpine, t.perSpine, Column(hash, t.perSpine));
      }
    case Core(c) => OnlyChoice(Spine(g.pod, t.Group(c)), hash);
  }

  // ---------------------------------------------------------------- the computed path

  /** The controller's numbers for switches: leaves first, then spines, then cores. */
  function SwitchNumber(t: Topo, n: Node): nat {
    match n
    case Leaf(p, o) => Index(p, t.podWidth, o)
    case Spine(p, o) => t.leafCount + Index(p, t.podWidth, o)
    case Core(c) => t.leafCount + t.leafCount + c
    case Host(_, _, _) => 0
  }

  function LeafNumber(t: Topo, h: Node): nat
    requires h.Host?
  {
    Index(h.pod, t.podWidth, h.off)
  }

  function SpineId(t: Topo, leaf: nat, hash: nat): nat
    requires t.podWidth > 0
  {
    (leaf / t.podWidth) * t.podWidth + hash % t.podWidth
  }

  function CoreId(t: Topo, spineId: nat, hash: nat): nat
    requires t.podWidth > 0 && t.coreCount / t.podWidth > 0
  {
    (spineId % t.podWidth) * (t.coreCount / t.podWidth) + hash % (t.coreCount / t.podWidth)
  }

  function SecondSpineId(t: Topo, coreId: nat, gwPod: nat): nat
    requires t.podWidth > 0 && t.coreCount / t.podWidth > 0
  {
    coreId / (t.coreCount / t.podWidth) + t.podWidth * gwPod
  }

  lemma {:induction false} CoresPerSpine(t: Topo)
    requires t.Valid()
    ensures t.coreCount / t.podWidth == t.perSpine
  {
    IsProduct(t.podWidth, t.perSpine, 0);
    Unique(t.perSpine, 0, t.podWidth);
  }

  lemma {:induction false} PodOfLeaf(t: Topo, h: Node)
    requires t.Valid() && t.Has(h) && h.Host?
    ensures LeafNumber(t, h) / t.podWidth == h.pod
    ensures LeafNumber(t, h) < t.leafCount
  {
    IndexOf(t, h.pod, h.off);
    IsQuotient(LeafNumber(t, h), t.podWidth);
  }

  lemma {:induction false} SpineIdIs(t: Topo, s: Node, hash: nat)
    requires t.Valid() && t.Has(s) && s.Host?
    ensures SpineId(t, LeafNumber(t, s), hash) == Index(s.pod, t.podWidth, Column(hash, t.podWidth))
  {
    PodOfLeaf(t, s);
    IsQuotient(hash, t.podWidth);
    IsProduct(s.pod, t.podWidth, Column(hash, t.podWidth));
  }

  lemma {:induction false} CoreIdIs(t: Topo, p: nat, o: nat, hash: nat)
    requires t.Valid() && t.perSpine > 0 && o < t.podWidth
    ensures t.coreCount / t.podWidth > 0
    ensures CoreId(t, Index(p, t.podWidth, o), hash) == Index(o, t.perSpine, Column(hash, t.perSpine))
  {
    CoresPerSpine(t);
    IsRowColumn(p, t.podWidth, o);
    IsQuotient(Index(p, t.podWidth, o), t.podWidth);
    IsQuotient(hash, t.perSpine);
    IsProduct(o, t.perSpine, Column(hash, t.perSpine));
  }

  lemma {:induction false} SecondSpineIdIs(t: Topo, o: nat, k: nat, gwPod: nat)
    requires t.Valid() && k < t.perSpine && o < t.podWidth
    ensures t.coreCount / t.podWidth > 0
    ensures SecondSpineId(t, Index(o, t.perSpine, k), gwPod) == Index(gwPod, t.podWidth, o)
  {
    CoresPerSpine(t);
    IsRowColumn(o, t.perSpine, k);
    IsQuotient(Index(o, t.perSpine, k), t.perSpine);
    IsProduct(gwPod, t.podWidth, o);
  }

  /** The path in coordinates. */
  function Predicted(t: Topo, s: Node, g: Node, hash: nat): seq<Node>
    requires t.podWidth > 0 && s.Host? && g.Host? && (s.pod != g.pod ==> t.perSpine > 0)
  {
    var up := Column(hash, t.podWidth);
    if s.pod == g.pod && s.off == g.off then [Leaf(s.pod, s.off)]
    else if s.pod == g.pod then [Leaf(s.pod, s.off), Spine(s.pod, up), Leaf(g.pod, g.off)]
    else [Leaf(s.pod, s.off), Spine(s.pod, up), Core(Index(up, t.perSpine, Column(hash, t.perSpine))),
          Spine(g.pod, up), Leaf(g.pod, g.off)]
  }

  /** The path as the controller computes it, in its own numbers. */
  function ComputedPath(t: Topo, leaf: nat, gwLeaf: nat, hash: nat): seq<nat>
    requires t.podWidth > 0
    requires leaf / t.podWidth != gwLeaf / t.podWidth ==> t.coreCount / t.podWidth > 0
  {
    if leaf == gwLeaf then [leaf]
    else
      var spineId := SpineId(t, leaf, hash);
      if leaf / t.podWidth == gwLeaf / t.podWidth then [leaf, spineId + t.leafCount, gwLeaf]
      else
        var coreId := CoreId(t, spineId, hash);
        [leaf, spineId + t.leafCount, coreId + t.leafCount + t.leafCount,
         SecondSpineId(t, coreId, gwLeaf / t.podWidth) + t.leafCount, gwLeaf]
  }

  lemma {:induction false} ComputedIsPredicted(t: Topo, s: Node, g: Node, hash: nat)
    requires t.Valid() && t.Has(s) && s.Host? && t.Has(g) && g.Host?
    ensures s.pod != g.pod ==> t.perSpine > 0 && t.coreCount / t.podWidth > 0
    ensures LeafNumber(t, s) / t.podWidth == s.pod && LeafNumber(t, g) / t.podWidth == g.pod
    ensures var computed := ComputedPath(t, LeafNumber(t, s), LeafNumber(t, g), hash);
            var predicted := Predicted(t, s, g, hash);
            |computed| == |predicted| &&
            forall k :: 0 <= k < |computed| ==> computed[k] == SwitchNumber(t, predicted[k])
  {
    PodOfLeaf(t, s);
    PodOfLeaf(t, g);
    DivMod.Distinct(s.pod, s.off, g.pod, g.off, t.podWidth);
    SpineIdIs(t, s, hash);
    var up := Column(hash, t.podWidth);
    if s.pod != g.pod {
      SeveralPodsHaveCores(t, s.pod, g.pod);
      CoreIdIs(t, s.pod, up, hash);
      SecondSpineIdIs(t, up, Column(hash, t.perSpine), g.pod);
    }
  }

  /** One switch of the path leads to the next, and the last one to the gateway. */
  lemma {:induction false} PredictedStep(t: Topo, s: Node, g: Node, hash: nat, k: nat)
    requires t.Valid() && t.Has(s) && s.Host? && t.Has(g) && g.Host? && (s.pod != g.pod ==> t.perSpine > 0)
    requires k < |Predicted(t, s, g, hash)|
    ensures var path := Predicted(t, s, g, hash);
            && Switch(t, path[k])
            && (path[k].Spine? && path[k].pod != g.pod ==> t.perSpine > 0)
            && FlowNext(t, path[k], g, hash) == if k + 1 < |path| then path[k + 1] else g
  {
    var up := Column(hash, t.podWidth);
    if s.pod != g.pod {
      CoreIndex(t, up, Column(hash, t.perSpine));
    }
  }

  lemma {:induction false} PathIsPredicted(t: Topo, s: Node, g: Node, hash: nat, path: seq<Node>, k: nat)
    requires t.Valid() && t.Has(s) && s.Host? && t.Has(g) && g.Host? && (s.pod != g.pod ==> t.perSpine > 0)
    requires FlowPath(t, s, g, hash, path) && k < |path|
    ensures k < |Predicted(t, s, g, hash)| && path[k] == Predicted(t, s, g, hash)[k]
  {
    if k > 0 {
      PathIsPredicted(t, s, g, hash, path, k - 1);
      PredictedStep(t, s, g, hash, k - 1);
      FlowHop(t, path[k - 1], g, hash);
      assert Follows(t, path[k - 1], path[k], g, hash);
    }
  }

  lemma {:induction false} PredictedIsPath(t: Topo, s: Node, g: Node, hash: nat)
    requires t.Valid() && t.Has(s) && s.Host? && t.Has(g) && g.Host? && (s.pod != g.pod ==> t.perSpine > 0)
    ensures FlowPath(t, s, g, hash, Predicted(t, s, g, hash))
    ensures var path := Predicted(t, s, g, hash);
            path[|path| - 1] == Leaf(g.pod, g.off) && Follows(t, path[|path| - 1], g, g, hash)
  {
    var path := Predicted(t, s, g, hash);
    forall k | 0 < k < |path| ensures Follows(t, path[k - 1], path[k], g, hash) {
      PredictedStep(t, s, g, hash, k - 1);
      FlowHop(t, path[k - 1], g, hash);
    }
    PredictedStep(t, s, g, hash, |path| - 1);
    FlowHop(t, path[|path| - 1], g, hash);
  }

  /** For every hash, the path the controller computes is the path the flow takes: every flow path
      is a beginning of it, and all of it is a flow path that ends one hop before the gateway. */
  lemma {:induction false} ControllerKnowsThePath(t: Topo, s: Node, g: Node, hash: nat, path: seq<Node>)
    requires t.Valid() && t.Has(s) && s.Host? && t.Has(g) && g.Host?
    ensures LeafNumber(t, s) / t.podWidth != LeafNumber(t, g) / t.podWidth ==> t.coreCount / t.podWidth > 0
    ensures var computed := ComputedPath(t, LeafNumber(t, s), LeafNumber(t, g), hash);
            FlowPath(t, s, g, hash, path) ==>
              && |path| <= |computed|
              && (forall k :: 0 <= k < |path| ==> computed[k] == SwitchNumber(t, path[k]))
              && (|path| == |computed| ==> Follows(t, path[|path| - 1], g, g, hash))
              && (|path| < |computed| ==> exists next :: FlowPath(t, s, g, hash, path + [next]))
  {
    ComputedIsPredicted(t, s, g, hash);
    if FlowPath(t, s, g, hash, path) {
      ShareOfPath(t, s, g, hash, path, Predicted(t, s, g, hash));
    }
  }

  lemma {:induction false} ShareOfPath(t: Topo, s: Node, g: Node, hash: nat, path: seq<Node>, whole: seq<Node>)
    requires t.Valid() && t.Has(s) && s.Host? && t.Has(g) && g.Host? && (s.pod != g.pod ==> t.perSpine > 0)
    requires whole == Predicted(t, s, g, hash) && FlowPath(t, s, g, hash, path)
    ensures |path| <= |whole|
    ensures forall k :: 0 <= k < |path| ==> path[k] == whole[k]
    ensures |path| == |whole| ==> Follows(t, path[|path| - 1], g, g, hash)
    ensures |path| < |whole| ==> exists next :: FlowPath(t, s, g, hash, path + [next])
  {
    forall k | 0 <= k < |path| ensures k < |whole| && path[k] == whole[k] {
      PathIsPredicted(t, s, g, hash, path, k);
    }
    PathIsPredicted(t, s, g, hash, path, |path| - 1);
    PredictedIsPath(t, s, g, hash);
    if |path| < |whole| {
      GrowPath(t, s, g, hash, path, whole);
    }
  }

  lemma {:induction false} GrowPath(t: Topo, s: Node, g: Node, hash: nat, path: seq<Node>, whole: seq<Node>)
    requires t.podWidth > 0 && FlowPath(t, s, g, hash, whole) && |path| < |whole|
    requires forall k :: 0 <= k < |path| ==> path[k] == whole[k]
    ensures FlowPath(t, s, g, hash, path + [whole[|path|]])
  {
    FlowPathPrefix(t, s, g, hash, whole, |path| + 1);
    assert whole[..|path| + 1] == path + [whole[|path|]];
  }

  lemma {:induction false} FlowPathPrefix(t: Topo, s: Node, g: Node, hash: nat, path: seq<Node>, n: nat)
    requires t.podWidth > 0 && FlowPath(t, s, g, hash, path) && 0 < n <= |path|
    ensures FlowPath(t, s, g, hash, path[..n])
  {
  }

  // ---------------------------------------------------------------- the relaxed cost

  /** Whether some switch on the computed path is to cache the destination, as the controller
      writes it for its solver. */
  function Covered(t: Topo, leaf: nat, gwLeaf: nat, hash: nat, placed: nat -> bool): bool
    requires t.podWidth > 0
    requires leaf / t.podWidth != gwLeaf / t.podWidth ==> t.coreCount / t.podWidth > 0
  {
    if leaf == gwLeaf then placed(leaf)
    else
      var spineId := SpineId(t, leaf, hash);
      if leaf / t.podWidth == gwLeaf / t.podWidth then
        placed(leaf) || placed(spineId + t.leafCount) || placed(gwLeaf)
      else
        var coreId := CoreId(t, spineId, hash);
        placed(leaf) || placed(spineId + t.leafCount) || placed(coreId + t.leafCount + t.leafCount) ||
        placed(SecondSpineId(t, coreId, gwLeaf / t.podWidth) + t.leafCount) || placed(gwLeaf)
  }

  lemma {:induction false} CoveredIsOnPath(t: Topo, leaf: nat, gwLeaf: nat, hash: nat, placed: nat -> bool)
    requires t.podWidth > 0
    requires leaf / t.podWidth != gwLeaf / t.podWidth ==> t.coreCount / t.podWidth > 0
    ensures var path := ComputedPath(t, leaf, gwLeaf, hash);
            Covered(t, leaf, gwLeaf, hash, placed) <==> exists k :: 0 <= k < |path| && placed(path[k])
  {
    var path := ComputedPath(t, leaf, gwLeaf, hash);
    assert path[0] == leaf;
    if leaf != gwLeaf {
      assert path[1] == SpineId(t, leaf, hash) + t.leafCount;
      if leaf / t.podWidth == gwLeaf / t.podWidth {
        assert path[2] == gwLeaf;
      } else {
        var coreId := CoreId(t, SpineId(t, leaf, hash), hash);
        assert path[2] == coreId + t.leafCount + t.leafCount;
        assert path[3] == SecondSpineId(t, coreId, gwLeaf / t.podWidth) + t.leafCount;
        assert path[4] == gwLeaf;
      }
    }
  }

  /** A gateway-bound packet of the flow comes to a switch that caches its destination. */
  ghost predicate HitBeforeGateway(t: Topo, s: Node, g: Node, hash: nat, placed: nat -> bool)
    requires t.podWidth > 0
  {
    exists path :: FlowPath(t, s, g, hash, path) && placed(SwitchNumber(t, path[|path| - 1]))
  }

  /** The relaxed cost is right: its disjunction holds exactly when a gateway-bound packet would
      meet an assigned cache before the gateway. */
  lemma {:induction false} RelaxedCostMeansHit(t: Topo, s: Node, g: Node, hash: nat, placed: nat -> bool)
    requires t.Valid() && t.Has(s) && s.Host? && t.Has(g) && g.Host?
    ensures LeafNumber(t, s) / t.podWidth != LeafNumber(t, g) / t.podWidth ==> t.coreCount / t.podWidth > 0
    ensures Covered(t, LeafNumber(t, s), LeafNumber(t, g), hash, placed) <==> HitBeforeGateway(t, s, g, hash, placed)
  {
    ComputedIsPredicted(t, s, g, hash);
    CoveredIsOnPath(t, LeafNumber(t, s), LeafNumber(t, g), hash, placed);
    var computed := ComputedPath(t, LeafNumber(t, s), LeafNumber(t, g), hash);
    var whole := Predicted(t, s, g, hash);
    PredictedIsPath(t, s, g, hash);
    if k :| 0 <= k < |computed| && placed(computed[k]) {
      FlowPathPrefix(t, s, g, hash, whole, k + 1);
      assert whole[..k + 1][k] == whole[k];
    }
    if HitBeforeGateway(t, s, g, hash, placed) {
      var path :| FlowPath(t, s, g, hash, path) && placed(SwitchNumber(t, path[|path| - 1]));
      PathIsPredicted(t, s, g, hash, path, |path| - 1);
      assert placed(computed[|path| - 1]);
    }
  }

  // ---------------------------------------------------------------- the cost of a packet

  /** Links a packet crosses when the steps-th switch redirects it, by the controller's table. */
  function GetPacketCost(t: Topo, srcLeaf: nat, dstLeaf: nat, steps: nat, gwLeaf: nat, gwPod: nat): nat
    requires t.podWidth > 0
  {
    var srcPod, dstPod := srcLeaf / t.podWidth, dstLeaf / t.podWidth;
    if steps == 1 then (if srcLeaf == dstLeaf then 2 else if srcPod == dstPod then 4 else 6)
    else if steps == 2 then (if srcPod == dstPod then 4 else 6)
    else if steps == 3 then (if t.coreCount == 0 && dstLeaf == gwLeaf then 4 else 6)
    else if steps == 4 then (if dstPod == gwPod then 6 else 8)
    else if gwLeaf == dstLeaf then 6
    else if gwPod == dstPod then 8
    else 10
  }

  function CostOf(t: Topo, s: Node, d: Node, g: Node, steps: nat): nat
    requires t.podWidth > 0 && s.Host? && d.Host? && g.Host?
  {
    GetPacketCost(t, LeafNumber(t, s), LeafNumber(t, d), steps, LeafNumber(t, g), g.pod)
  }

  /** The devices a packet from s visits when it heads for g up to the steps-th switch and for d
      from there on, with any equal-cost choice at every hop. */
  ghost predicate RedirectedWalk(t: Topo, s: Node, g: Node, d: Node, steps: nat, path: seq<Node>)
    requires t.podWidth > 0
  {
    && 0 < steps <= |path| && s.Host? && path[0] == Leaf(s.pod, s.off)
    && (forall k :: 0 < k < |path| ==> Heads(t, path[k - 1], path[k], if k < steps then g else d))
  }

  predicate Heads(t: Topo, n: Node, next: Node, d: Node)
    requires t.podWidth > 0
  {
    Contains(NextHops(t, n, AddressOf(t.podCount, d)), next)
  }

  /** The walk after the redirection: its length is fixed by where the redirection happens. */
  lemma {:induction false} LinksAfterRedirection(t: Topo, s: Node, g: Node, d: Node, steps: nat, path: seq<Node>)
    requires t.Valid() && t.Has(d) && d.Host? && RedirectedWalk(t, s, g, d, steps, path)
    requires Switch(t, path[steps - 1])
    ensures var links := steps + Distance(path[steps - 1], d.pod, d.off);
            && (forall k :: steps - 1 <= k < |path| && k < links - 1 ==> Switch(t, path[k]))
            && (|path| >= links ==> path[links - 1] == d)
  {
    var rest := path[steps - 1..];
    forall i | 0 < i < |rest| ensures Contains(NextHops(t, rest[i - 1], AddressOf(t.podCount, d)), rest[i]) {
      assert Heads(t, path[steps - 1 + i - 1], path[steps - 1 + i], d);
    }
    WalkReachesHost(t, rest, d);
    assert forall k :: steps - 1 <= k < |path| ==> path[k] == rest[k - (steps - 1)];
  }

  /** What kind of switch the next one is on the way to a gateway. */
  lemma {:induction false} HopKind(t: Topo, n: Node, g: Node, next: Node)
    requires t.Valid() && Switch(t, n) && t.Has(g) && g.Host? && Heads(t, n, next, g)
    requires n != Leaf(g.pod, g.off)
    ensures Switch(t, next)
    ensures match n
            case Leaf(p, _) => next.Spine? && next.pod == p
            case Spine(p, _) => if p == g.pod then next == Leaf(g.pod, g.off) else next.Core?
            case Core(_) => next.Spine? && next.pod == g.pod
  {
    NextHopsTowardDevice(t, n, g);
    HopTowardHost(t, n, g, next);
    match n
    case Leaf(p, _) => InAllSpines(p, t.podWidth, next);
    case Spine(p, o) =>
      if p != g.pod {
        InAllCores(t, o, t.perSpine, next);
      }
    case Core(_) =>
  }

  /** The steps-th switch toward a gateway in another pod. */
  ghost predicate StageAcross(t: Topo, s: Node, g: Node, steps: nat, n: Node)
    requires s.Host? && g.Host?
  {
    Switch(t, n) &&
    if steps == 1 then n == Leaf(s.pod, s.off)
    else if steps == 2 then n.Spine? && n.pod == s.pod
    else if steps == 3 then n.Core?
    else if steps == 4 then n.Spine? && n.pod == g.pod
    else n == Leaf(g.pod, g.off)
  }

  /** The steps-th switch toward a gateway under another leaf of the same pod. */
  ghost predicate StageWithin(t: Topo, s: Node, g: Node, steps: nat, n: Node)
    requires s.Host? && g.Host?
  {
    Switch(t, n) &&
    if steps == 1 then n == Leaf(s.pod, s.off)
    else if steps == 2 then n.Spine? && n.pod == s.pod
    else n == Leaf(g.pod, g.off)
  }

  lemma {:induction false} NextStageAcross(t: Topo, s: Node, g: Node, steps: nat, n: Node, next: Node)
    requires t.Valid() && s.Host? && t.Has(g) && g.Host? && s.pod != g.pod && 1 <= steps < 5
    requires StageAcross(t, s, g, steps, n) && Heads(t, n, next, g)
    ensures StageAcross(t, s, g, steps + 1, next)
  {
    HopKind(t, n, g, next);
  }

  lemma {:induction false} NextStageWithin(t: Topo, s: Node, g: Node, steps: nat, n: Node, next: Node)
    requires t.Valid() && s.Host? && t.Has(g) && g.Host? && s.pod == g.pod && s.off != g.off && 1 <= steps < 3
    requires StageWithin(t, s, g, steps, n) && Heads(t, n, next, g)
    ensures StageWithin(t, s, g, steps + 1, next)
  {
    HopKind(t, n, g, next);
  }

  lemma {:induction false} ReachesStageAcross(t: Topo, s: Node, g: Node, d: Node, steps: nat, path: seq<Node>, k: nat)
    requires t.Valid() && t.Has(s) && s.Host? && t.Has(g) && g.Host? && d.Host? && s.pod != g.pod
    requires RedirectedWalk(t, s, g, d, steps, path) && k < steps <= 5
    ensures StageAcross(t, s, g, k + 1, path[k])
  {
    for j := 0 to k
      invariant StageAcross(t, s, g, j + 1, path[j])
    {
      assert Heads(t, path[j + 1 - 1], path[j + 1], g);
      NextStageAcross(t, s, g, j + 1, path[j], path[j + 1]);
    }
  }

  lemma {:induction false} ReachesStageWithin(t: Topo, s: Node, g: Node, d: Node, steps: nat, path: seq<Node>, k: nat)
    requires t.Valid() && t.Has(s) && s.Host? && t.Has(g) && g.Host? && d.Host? && s.pod == g.pod
    requires RedirectedWalk(t, s, g, d, steps, path) && k < steps <= 3 && (s.off == g.off ==> steps == 1)
    ensures StageWithin(t, s, g, k + 1, path[k])
  {
    for j := 0 to k
      invariant StageWithin(t, s, g, j + 1, path[j])
    {
      assert Heads(t, path[j + 1 - 1], path[j + 1], g);
      NextStageWithin(t, s, g, j + 1, path[j], path[j + 1]);
    }
  }

  /** The leaf numbers and pods the table compares. */
  lemma {:induction false} SameLeafNumber(t: Topo, a: Node, b: Node)
    requires t.Valid() && t.Has(a) && a.Host? && t.Has(b) && b.Host?
    ensures LeafNumber(t, a) == LeafNumber(t, b) <==> a.pod == b.pod && a.off == b.off
    ensures LeafNumber(t, a) / t.podWidth == a.pod && LeafNumber(t, b) / t.podWidth == b.pod
  {
    PodOfLeaf(t, a);
    PodOfLeaf(t, b);
    DivMod.Distinct(a.pod, a.off, b.pod, b.off, t.podWidth);
  }

  lemma {:induction false} HasCores(t: Topo)
    requires t.Valid()
    ensures t.coreCount > 0 <==> t.perSpine > 0
  {
    IsProduct(t.podWidth, t.perSpine, 0);
    if t.perSpine > 0 {
      assert t.podWidth * t.perSpine >= t.perSpine;
    }
  }

  /** With the gateway in another pod, the table is exact at every step and for every destination:
      whatever the equal-cost choices, the packet redirected at the steps-th switch passes only
      switches until it has crossed exactly that many links, and is then at its destination. */
  lemma {:induction false} CostIsExactAcrossPods(t: Topo, s: Node, g: Node, d: Node, steps: nat, path: seq<Node>)
    requires t.Valid() && t.Has(s) && s.Host? && t.Has(g) && g.Host? && t.Has(d) && d.Host?
    requires s.pod != g.pod && 1 <= steps <= 5 && RedirectedWalk(t, s, g, d, steps, path)
    ensures var links := CostOf(t, s, d, g, steps);
            && (forall k :: 0 <= k < |path| && k < links - 1 ==> Switch(t, path[k]))
            && (|path| >= links ==> path[links - 1] == d)
  {
    forall k | 0 <= k < steps ensures StageAcross(t, s, g, k + 1, path[k]) {
      ReachesStageAcross(t, s, g, d, steps, path, k);
    }
    LinksAfterRedirection(t, s, g, d, steps, path);
    AcrossCost(t, s, g, d, steps, path[steps - 1]);
  }

  lemma {:induction false} AcrossCost(t: Topo, s: Node, g: Node, d: Node, steps: nat, n: Node)
    requires t.Valid() && t.Has(s) && s.Host? && t.Has(g) && g.Host? && t.Has(d) && d.Host?
    requires s.pod != g.pod && 1 <= steps <= 5 && StageAcross(t, s, g, steps, n)
    ensures CostOf(t, s, d, g, steps) == steps + Distance(n, d.pod, d.off)
  {
    SameLeafNumber(t, s, d);
    SameLeafNumber(t, g, d);
    SeveralPodsHaveCores(t, s.pod, g.pod);
    HasCores(t);
  }

  /** With the gateway in the same pod, the first two steps are exact, and the third, at the
      gateway's leaf, exactly when there are no cores, or the destination is in that pod under
      another leaf. A sender under the gateway's own leaf has only the first step, so the cost the
      objective takes from the table is exact. */
  lemma {:induction false} SamePodCostIff(t: Topo, s: Node, g: Node, d: Node, steps: nat, path: seq<Node>)
    requires t.Valid() && t.Has(s) && s.Host? && t.Has(g) && g.Host? && t.Has(d) && d.Host?
    requires s.pod == g.pod && 1 <= steps <= 3 && (s.off == g.off ==> steps == 1)
    requires RedirectedWalk(t, s, g, d, steps, path)
    ensures var links := steps + Distance(path[steps - 1], d.pod, d.off);
            && (forall k :: 0 <= k < |path| && k < links - 1 ==> Switch(t, path[k]))
            && (|path| >= links ==> path[links - 1] == d)
            && (CostOf(t, s, d, g, steps) == links <==>
                  steps < 3 || t.coreCount == 0 || (d.pod == g.pod && d.off != g.off))
  {
    forall k | 0 <= k < steps ensures StageWithin(t, s, g, k + 1, path[k]) {
      ReachesStageWithin(t, s, g, d, steps, path, k);
    }
    LinksAfterRedirection(t, s, g, d, steps, path);
    WithinCost(t, s, g, d, steps, path[steps - 1]);
  }

  lemma {:induction false} WithinCost(t: Topo, s: Node, g: Node, d: Node, steps: nat, n: Node)
    requires t.Valid() && t.Has(s) && s.Host? && t.Has(g) && g.Host? && t.Has(d) && d.Host?
    requires s.pod == g.pod && 1 <= steps <= 3 && StageWithin(t, s, g, steps, n)
    ensures CostOf(t, s, d, g, steps) == steps + Distance(n, d.pod, d.off) <==>
              steps < 3 || t.coreCount == 0 || (d.pod == g.pod && d.off != g.off)
  {
    SameLeafNumber(t, s, d);
    SameLeafNumber(t, g, d);
    HasCores(t);
  }

  /** A walk on which the table is wrong: redirected at the gateway's leaf, toward another pod. */
  function LongPath(s: Node, g: Node, d: Node): seq<Node>
    requires s.Host? && g.Host? && d.Host?
  {
    [Leaf(s.pod, s.off), Spine(s.pod, 0), Leaf(g.pod, g.off),
     Spine(g.pod, 0), Core(0), Spine(d.pod, 0), Leaf(d.pod, d.off), d]
  }

  lemma {:induction false} FirstUplink(t: Topo, p: nat, o: nat, d: Node)
    requires t.Valid() && t.Has(Leaf(p, o)) && t.Has(d) && d.Host? && (d.pod != p || d.off != o)
    ensures Heads(t, Leaf(p, o), Spine(p, 0), d)
  {
    NextHopsTowardDevice(t, Leaf(p, o), d);
    InAllSpines(p, t.podWidth, Spine(p, 0));
  }

  lemma {:induction false} FirstCore(t: Topo, p: nat, d: Node)
    requires t.Valid() && t.Has(Spine(p, 0)) && t.Has(d) && d.Host? && d.pod != p
    ensures Heads(t, Spine(p, 0), Core(0), d) && t.Has(Core(0))
  {
    NextHopsTowardDevice(t, Spine(p, 0), d);
    SeveralPodsHaveCores(t, p, d.pod);
    AllCoresAt(0, t.perSpine, t.perSpine, 0);
    ContainsAt(AllCores(0, t.perSpine, t.perSpine), 0);
    CoreIndex(t, 0, 0);
  }

  lemma {:induction false} Downward(t: Topo, n: Node, d: Node)
    requires t.Valid() && Switch(t, n) && t.Has(d) && d.Host?
    ensures n == Leaf(d.pod, d.off) ==> Heads(t, n, d, d)
    ensures n == Spine(d.pod, 0) ==> Heads(t, n, Leaf(d.pod, d.off), d)
    ensures n == Core(0) ==> Heads(t, n, Spine(d.pod, 0), d)
  {
    NextHopsTowardDevice(t, n, d);
  }

  lemma {:induction false} LongHopAcross(t: Topo, s: Node, g: Node, d: Node, k: nat)
    requires t.Valid() && t.Has(s) && s.Host? && t.Has(g) && g.Host? && t.Has(d) && d.Host? && g.pod != d.pod &&
             4 <= k < 8
    ensures Heads(t, LongPath(s, g, d)[k - 1], LongPath(s, g, d)[k], d)
  {
    FirstCore(t, g.pod, d);
    if k > 4 {
      Downward(t, LongPath(s, g, d)[k - 1], d);
    }
  }

  lemma {:induction false} LongHop(t: Topo, s: Node, g: Node, d: Node, k: nat)
    requires t.Valid() && t.Has(s) && s.Host? && t.Has(g) && g.Host? && t.Has(d) && d.Host?
    requires s.pod == g.pod != d.pod && s.off != g.off && 0 < k < 8
    ensures Heads(t, LongPath(s, g, d)[k - 1], LongPath(s, g, d)[k], if k < 3 then g else d)
  {
    if k == 1 {
      FirstUplink(t, s.pod, s.off, g);
    } else if k == 2 {
      Downward(t, Spine(s.pod, 0), g);
    } else if k == 3 {
      FirstUplink(t, g.pod, g.off, d);
    } else {
      LongHopAcross(t, s, g, d, k);
    }
  }

  /** The failing placements are real: with sender and gateway under two leaves of one pod and the
      destination in another, some packet redirected at the gateway's leaf crosses eight links where
      the table says six. */
  lemma {:induction false} SamePodCostIsLow(t: Topo, s: Node, g: Node, d: Node)
    requires t.Valid() && t.Has(s) && s.Host? && t.Has(g) && g.Host? && t.Has(d) && d.Host?
    requires s.pod == g.pod != d.pod && s.off != g.off
    ensures RedirectedWalk(t, s, g, d, 3, LongPath(s, g, d))
    ensures |LongPath(s, g, d)| == 8 && LongPath(s, g, d)[7] == d && CostOf(t, s, d, g, 3) == 6
  {
    SameLeafNumber(t, g, d);
    var path := LongPath(s, g, d);
    forall k | 0 < k < |path| ensures Heads(t, path[k - 1], path[k], if k < 3 then g else d) {
      LongHop(t, s, g, d, k);
    }
  }

  /** One of them: two pods of two leaves with one machine each, and two cores. */
  lemma {:induction false} SamePodCostCanBeLow()
    ensures var t, s, g, d := Topo(2, 2, 1, 4, 2, [1, 1, 1, 1]), Host(0, 0, 0), Host(0, 1, 0), Host(1, 0, 0);
            && t.Valid() && t.Has(s) && t.Has(g) && t.Has(d)
            && RedirectedWalk(t, s, g, d, 3, LongPath(s, g, d)) && |LongPath(s, g, d)| == 8
            && CostOf(t, s, d, g, 3) == 6
  {
    assert Index(2, 2, 0) == 4 by { IsProduct(2, 2, 0); }
    assert Index(2, 1, 0) == 2 by { IsProduct(2, 1, 0); }
    assert Index(0, 2, 0) == 0 && Index(0, 2, 1) == 1;
    assert Index(1, 2, 0) == 2 by { IsProduct(1, 2, 0); }
    SamePodCostIsLow(Topo(2, 2, 1, 4, 2, [1, 1, 1, 1]), Host(0, 0, 0), Host(0, 1, 0), Host(1, 0, 0));
  }

  // ---------------------------------------------------------------- the accumulated cost

  /** One entry of a leaf's traffic matrix: the sender, the gateway used, the destination container
      with its machine, and how many packets. */
  datatype Demand = Demand(src: Node, gw: Node, dst: Addr, dstHost: Node, packets: nat)

  predicate Known(t: Topo, d: Demand) {
    && d.src.Host? && t.Has(d.src) && d.gw.Host? && t.Has(d.gw) && d.dstHost.Host? && t.Has(d.dstHost)
  }

  ghost predicate RowKnown(t: Topo, ds: seq<Demand>) {
    forall i :: 0 <= i < |ds| ==> Known(t, ds[i])
  }

  /** Which switch is to cache which container. */
  type Assignment = (nat, Addr) -> bool

  /** The hash of a flow, from its outer addresses; protocol and ports are the same for all. */
  type FlowHash = (Addr, Addr) -> nat

  function HashOf(t: Topo, h: FlowHash, d: Demand): nat {
    h(AddressOf(t.podCount, d.src), AddressOf(t.podCount, d.gw))
  }

  /** What a demand costs: packets that meet their destination in a cache on the way pay a short
      trip, the others the trip over the gateway. */
  ghost function DemandCost(t: Topo, h: FlowHash, placed: Assignment, gwCost: nat, d: Demand): nat
    requires t.podWidth > 0 && Known(t, d)
  {
    var short := if d.src.pod == d.gw.pod && d.src.off == d.gw.off then CostOf(t, d.src, d.dstHost, d.gw, 1) else 8;
    var unit := if HitBeforeGateway(t, d.src, d.gw, HashOf(t, h, d), (i: nat) => placed(i, d.dst))
                then short else gwCost;
    d.packets * unit
  }

  /** The cost of the first n demands seen by a leaf; packets of senders elsewhere do not count. */
  ghost function LeafCost(t: Topo, h: FlowHash, placed: Assignment, gwCost: nat, leaf: nat, ds: seq<Demand>,
                          n: nat): nat
    requires t.podWidth > 0 && n <= |ds| && RowKnown(t, ds)
  {
    if n == 0 then 0
    else LeafCost(t, h, placed, gwCost, leaf, ds, n - 1) +
         (if LeafNumber(t, ds[n - 1].src) == leaf then DemandCost(t, h, placed, gwCost, ds[n - 1]) else 0)
  }

  ghost predicate AllKnown(t: Topo, tms: seq<seq<Demand>>) {
    forall l :: 0 <= l < |tms| ==> RowKnown(t, tms[l])
  }

  ghost function TotalCost(t: Topo, h: FlowHash, placed: Assignment, gwCost: nat, tms: seq<seq<Demand>>, n: nat): nat
    requires t.podWidth > 0 && n <= |tms| && AllKnown(t, tms)
  {
    if n == 0 then 0
    else TotalCost(t, h, placed, gwCost, tms, n - 1) + LeafCost(t, h, placed, gwCost, n - 1, tms[n - 1], |tms[n - 1]|)
  }

  /** What a demand's packets pay over the gateway, if its sender is attached to the leaf. */
  function GatewayShare(t: Topo, gwCost: nat, leaf: nat, d: Demand): nat
    requires d.src.Host?
  {
    if Index(d.src.pod, t.podWidth, d.src.off) == leaf then gwCost * d.packets else 0
  }

  ghost function GatewayShares(t: Topo, gwCost: nat, leaf: nat, ds: seq<Demand>, n: nat): nat
    requires n <= |ds| && RowKnown(t, ds)
  {
    if n == 0 then 0 else GatewayShares(t, gwCost, leaf, ds, n - 1) + GatewayShare(t, gwCost, leaf, ds[n - 1])
  }

  /** No flow of these demands meets a cache. */
  ghost predicate NoneHits(t: Topo, h: FlowHash, placed: Assignment, ds: seq<Demand>)
    requires t.podWidth > 0 && RowKnown(t, ds)
  {
    forall i :: 0 <= i < |ds| ==> Misses(t, h, placed, ds[i])
  }

  ghost predicate Misses(t: Topo, h: FlowHash, placed: Assignment, d: Demand)
    requires t.podWidth > 0 && Known(t, d)
  {
    !HitBeforeGateway(t, d.src, d.gw, HashOf(t, h, d), (j: nat) => placed(j, d.dst))
  }

  /** If no flow of a leaf meets a cache, the leaf pays the gateway's cost for each packet of its own
      senders, and nothing for those of others. */
  lemma {:induction false} UncachedPaysForEachPacket(t: Topo, h: FlowHash, placed: Assignment, gwCost: nat, leaf: nat,
                                                     ds: seq<Demand>, n: nat)
    requires t.podWidth > 0 && n <= |ds| && RowKnown(t, ds) && NoneHits(t, h, placed, ds)
    ensures LeafCost(t, h, placed, gwCost, leaf, ds, n) == GatewayShares(t, gwCost, leaf, ds, n)
  {
    if n > 0 {
      UncachedPaysForEachPacket(t, h, placed, gwCost, leaf, ds, n - 1);
      UncachedPays(t, h, placed, gwCost, ds[n - 1]);
    }
  }

  lemma {:induction false} UncachedPays(t: Topo, h: FlowHash, placed: Assignment, gwCost: nat, d: Demand)
    requires t.podWidth > 0 && Known(t, d) && Misses(t, h, placed, d)
    ensures DemandCost(t, h, placed, gwCost, d) == gwCost * d.packets
  {
  }

  /** The same over all leaves, each with its own matrix. */
  ghost function AllGatewayShares(t: Topo, gwCost: nat, tms: seq<seq<Demand>>, n: nat): nat
    requires n <= |tms| && AllKnown(t, tms)
  {
    if n == 0 then 0
    else AllGatewayShares(t, gwCost, tms, n - 1) + GatewayShares(t, gwCost, n - 1, tms[n - 1], |tms[n - 1]|)
  }

  /** If no flow meets a cache, the whole objective is the gateway's cost for each packet, counted where
      its sender is attached. */
  lemma {:induction false} UncachedTotal(t: Topo, h: FlowHash, placed: Assignment, gwCost: nat, tms: seq<seq<Demand>>,
                                         n: nat)
    requires t.podWidth > 0 && n <= |tms| && AllKnown(t, tms)
    requires forall l :: 0 <= l < |tms| ==> NoneHits(t, h, placed, tms[l])
    ensures TotalCost(t, h, placed, gwCost, tms, n) == AllGatewayShares(t, gwCost, tms, n)
  {
    if n > 0 {
      UncachedTotal(t, h, placed, gwCost, tms, n - 1);
      UncachedPaysForEachPacket(t, h, placed, gwCost, n - 1, tms[n - 1], |tms[n - 1]|);
    }
  }

  /** What one packet of a demand pays: the gateway's cost without a hit; with one, the exact number of
      links if the sender is under the gateway's leaf, and 8 otherwise. */
  lemma {:induction false} PaysPerPacket(t: Topo, h: FlowHash, placed: Assignment, gwCost: nat, d: Demand)
    requires t.podWidth > 0 && Known(t, d)
    ensures var hit := HitBeforeGateway(t, d.src, d.gw, HashOf(t, h, d), (j: nat) => placed(j, d.dst));
            var near := d.src.pod == d.gw.pod && d.src.off == d.gw.off;
            DemandCost(t, h, placed, gwCost, d)
            == if !hit then gwCost * d.packets
               else if !near then 8 * d.packets
               else CostOf(t, d.src, d.dstHost, d.gw, 1) * d.packets
  {
  }

  /** One term of the objective. */
  method TermCost(t: Topo, h: FlowHash, placed: Assignment, gwCost: nat, d: Demand) returns (c: nat)
    requires t.Valid() && Known(t, d)
    ensures c == DemandCost(t, h, placed, gwCost, d)
  {
    var leaf, gwLeaf, hash := LeafNumber(t, d.src), LeafNumber(t, d.gw), HashOf(t, h, d);
    RelaxedCostMeansHit(t, d.src, d.gw, hash, (i: nat) => placed(i, d.dst));
    SameLeafNumber(t, d.src, d.gw);
    var unit := gwCost;
    if Covered(t, leaf, gwLeaf, hash, (i: nat) => placed(i, d.dst)) {
      var dstLeaf := LeafNumber(t, d.dstHost);
      unit := if leaf == gwLeaf then GetPacketCost(t, leaf, dstLeaf, 1, gwLeaf, gwLeaf / t.podWidth) else 8;
    }
    c := d.packets * unit;
  }

  /** The objective QuerySwitches builds: over all leaves and all demands of senders attached to
      them, packets times the cost of a hit, or of the gateway, as forwarding really decides it. */
  method QuerySwitches(t: Topo, h: FlowHash, placed: Assignment, gwCost: nat, tms: seq<seq<Demand>>) returns (cost: nat)
    requires t.Valid() && AllKnown(t, tms)
    ensures cost == TotalCost(t, h, placed, gwCost, tms, |tms|)
  {
    cost := 0;
    for leaf := 0 to |tms|
      invariant cost == TotalCost(t, h, placed, gwCost, tms, leaf)
    {
      var ds := tms[leaf];
      ghost var before := cost;
      for i := 0 to |ds|
        invariant cost == before + LeafCost(t, h, placed, gwCost, leaf, ds, i)
      {
        if LeafNumber(t, ds[i].src) == leaf {
          var c := TermCost(t, h, placed, gwCost, ds[i]);
          cost := cost + c;
        }
      }
    }
  }
}
