/** The controller's assignment at work: what it puts into the switches' caches, and which packets
    these caches then redirect. */
module ControllerCaches {
  import opened Addressing
  import opened Lists
  import opened Topology
  import opened CacheSpec
  import opened LruCache
  import opened SwitchApp
  import opened Controller

  // ---------------------------------------------------------------- what is inserted

  /** The items for one switch: exactly the containers below count that are assigned to it, with
      the machines the directory names. */
  ghost predicate ItemsFor(placed: Assignment, sw: nat, dir: map<Addr, Addr>, items: seq<Item>, count: nat) {
    && DistinctKeys(items)
    && (forall i :: 0 <= i < |items| ==> items[i].0 < count && placed(sw, items[i].0) && Names(dir, items[i]))
    && (forall v :: 0 <= v < count && placed(sw, v) ==> exists i :: 0 <= i < |items| && items[i].0 == v)
  }

  predicate Names(dir: map<Addr, Addr>, x: Item) {
    x.0 in dir && dir[x.0] == x.1
  }

  lemma {:induction false} AddItem(placed: Assignment, sw: nat, dir: map<Addr, Addr>, items: seq<Item>, j: nat)
    requires ItemsFor(placed, sw, dir, items, j) && placed(sw, j) && j in dir
    ensures ItemsFor(placed, sw, dir, items + [(j, dir[j])], j + 1)
  {
    var items' := items + [(j, dir[j])];
    forall v | 0 <= v < j + 1 && placed(sw, v) ensures exists i :: 0 <= i < |items'| && items'[i].0 == v {
      if v == j {
        assert items'[|items|].0 == v;
      } else {
        var i :| 0 <= i < |items| && items[i].0 == v;
        assert items'[i].0 == v;
      }
    }
  }

  /** The loop over all containers that collects a switch's items. */
  method CollectItems(placed: Assignment, sw: nat, dir: map<Addr, Addr>, count: nat) returns (items: seq<Item>)
    requires forall v :: 0 <= v < count ==> v in dir
    ensures ItemsFor(placed, sw, dir, items, count)
  {
    items := [];
    for j := 0 to count
      invariant ItemsFor(placed, sw, dir, items, j)
    {
      if placed(sw, j) {
        AddItem(placed, sw, dir, items, j);
        items := items + [(j, dir[j])];
      }
    }
  }

  // ---------------------------------------------------------------- the caches afterwards

  /** Caches by switch number. */
  type Caches = nat -> Queue<Addr, Addr>

  ghost predicate Shaped(capacity: nat, caches: Caches) {
    forall i :: Distinct(caches(i)) && Size(caches(i)) <= capacity
  }

  /** One interval: an assignment within the switches' memory, and the items collected from it. */
  datatype Interval = Interval(capacity: nat, count: nat, dir: map<Addr, Addr>, placed: Assignment,
                               items: nat -> seq<Item>)

  ghost predicate ValidInterval(x: Interval) {
    && x.capacity > 0
    && (forall i :: ItemsFor(x.placed, i, x.dir, x.items(i), x.count) && |x.items(i)| <= x.capacity)
  }

  /** The cache of switch i after the bulk insertion and any lookups since. */
  function Looked(q: Queue<Addr, Addr>, lookups: List<Addr>): Queue<Addr, Addr> {
    match lookups
    case Nil => q
    case Snoc(before, v) => GetQueue(Looked(q, before), v)
  }

  lemma {:induction false} LookupsChangeNoAnswer(q: Queue<Addr, Addr>, lookups: List<Addr>, v: Addr)
    requires Distinct(q)
    ensures Distinct(Looked(q, lookups)) && Find(Looked(q, lookups), v) == Find(q, v)
  {
    match lookups
    case Nil =>
    case Snoc(before, u) =>
      LookupsChangeNoAnswer(q, before, v);
      LookupsChangeNoAnswer(q, before, u);
      WithoutFacts(Looked(q, before), u);
  }

  /** The caches in an interval, from arbitrary earlier contents: they are never cleared. */
  ghost predicate InInterval(x: Interval, earlier: Caches, caches: Caches) {
    forall i :: exists lookups :: caches(i) == Looked(Inserted(x.capacity, earlier(i), x.items(i), |x.items(i)|),
                                                      lookups)
  }

  /** A switch answers for exactly the assigned containers, by the directory, and for leftovers. */
  lemma {:induction false} AnswersAre(x: Interval, earlier: Caches, caches: Caches, i: nat, v: Addr)
    requires ValidInterval(x) && Shaped(x.capacity, earlier) && InInterval(x, earlier, caches) && v < x.count
    ensures x.placed(i, v) ==> v in x.dir && Find(caches(i), v) == Some(x.dir[v])
    ensures !x.placed(i, v) && Find(caches(i), v).Some? ==> Find(caches(i), v) == Find(earlier(i), v)
  {
    var items := x.items(i);
    var filled := Inserted(x.capacity, earlier(i), items, |items|);
    var lookups :| caches(i) == Looked(filled, lookups);
    InsertedShape(x.capacity, earlier(i), items, |items|);
    LookupsChangeNoAnswer(filled, lookups, v);
    assert ItemsFor(x.placed, i, x.dir, items, x.count);
    if x.placed(i, v) {
      BulkInsertionStaysIff(x.capacity, earlier(i), items);
      var j :| 0 <= j < |items| && items[j].0 == v;
      assert Names(x.dir, items[j]);
    } else {
      LeftoversOnly(x.capacity, earlier(i), items, |items|, v);
    }
  }

  // ---------------------------------------------------------------- packets

  /** The flow's path up to the first switch that answers for v. */
  ghost predicate RedirectedAt(t: Topo, s: Node, g: Node, hash: nat, caches: Caches, v: Addr, path: seq<Node>)
    requires t.podWidth > 0
  {
    && FlowPath(t, s, g, hash, path)
    && Find(caches(SwitchNumber(t, path[|path| - 1])), v).Some?
    && forall k :: 0 <= k < |path| - 1 ==> Find(caches(SwitchNumber(t, path[k])), v).None?
  }

  /** If some switch on the path answers, there is a first one. */
  lemma {:induction false} FirstAnswer(t: Topo, s: Node, g: Node, hash: nat, caches: Caches, v: Addr, path: seq<Node>)
      returns (first: seq<Node>)
    requires t.podWidth > 0 && FlowPath(t, s, g, hash, path) && Find(caches(SwitchNumber(t, path[|path| - 1])), v).Some?
    ensures RedirectedAt(t, s, g, hash, caches, v, first)
  {
    var k := 0;
    while Find(caches(SwitchNumber(t, path[k])), v).None?
      invariant k < |path| && forall j :: 0 <= j < k ==> Find(caches(SwitchNumber(t, path[j])), v).None?
      decreases |path| - k
    {
      k := k + 1;
    }
    FlowPathPrefix(t, s, g, hash, path, k + 1);
    first := path[..k + 1];
  }

  /** Coverage in the controller's cost is redirection in the network: in an interval whose
      assignment fits the memory, whatever the caches held before, a covered gateway-bound packet is
      redirected before the gateway, and the switch that does it sends it where the directory says,
      unless it is not assigned the container and answers with a leftover of an earlier interval. */
  lemma {:induction false} CoveredIsRedirected(t: Topo, s: Node, g: Node, hash: nat, x: Interval, earlier: Caches,
                                               caches: Caches,
                                               gws: set<Addr>, v: Addr) returns (path: seq<Node>)
    requires t.Valid() && t.Has(s) && s.Host? && t.Has(g) && g.Host? && AddressOf(t.podCount, g) in gws
    requires ValidInterval(x) && Shaped(x.capacity, earlier) && InInterval(x, earlier, caches) && v < x.count
    ensures LeafNumber(t, s) / t.podWidth != LeafNumber(t, g) / t.podWidth ==> t.coreCount / t.podWidth > 0
    ensures Covered(t, LeafNumber(t, s), LeafNumber(t, g), hash, (i: nat) => x.placed(i, v)) ==>
              && RedirectedAt(t, s, g, hash, caches, v, path)
              && var i := SwitchNumber(t, path[|path| - 1]);
                 var to := Redirect(gws, caches(i), v, AddressOf(t.podCount, g));
                 if x.placed(i, v) then v in x.dir && to == x.dir[v] else Find(earlier(i), v) == Some(to)
  {
    path := [];
    var placed := (i: nat) => x.placed(i, v);
    RelaxedCostMeansHit(t, s, g, hash, placed);
    if HitBeforeGateway(t, s, g, hash, placed) {
      var hit :| FlowPath(t, s, g, hash, hit) && placed(SwitchNumber(t, hit[|hit| - 1]));
      AnswersAre(x, earlier, caches, SwitchNumber(t, hit[|hit| - 1]), v);
      path := FirstAnswer(t, s, g, hash, caches, v, hit);
      AnswersAre(x, earlier, caches, SwitchNumber(t, path[|path| - 1]), v);
    }
  }

  /** And the other way round: a packet is redirected only if it is covered, or by a leftover. */
  lemma {:induction false} RedirectedIsCovered(t: Topo, s: Node, g: Node, hash: nat, x: Interval, earlier: Caches,
                                               caches: Caches,
                                               v: Addr, path: seq<Node>)
    requires t.Valid() && t.Has(s) && s.Host? && t.Has(g) && g.Host?
    requires ValidInterval(x) && Shaped(x.capacity, earlier) && InInterval(x, earlier, caches) && v < x.count
    requires RedirectedAt(t, s, g, hash, caches, v, path)
    ensures LeafNumber(t, s) / t.podWidth != LeafNumber(t, g) / t.podWidth ==> t.coreCount / t.podWidth > 0
    ensures var i := SwitchNumber(t, path[|path| - 1]);
            || Covered(t, LeafNumber(t, s), LeafNumber(t, g), hash, (i: nat) => x.placed(i, v))
            || (!x.placed(i, v) && Find(earlier(i), v) == Find(caches(i), v))
  {
    var placed := (i: nat) => x.placed(i, v);
    RelaxedCostMeansHit(t, s, g, hash, placed);
    AnswersAre(x, earlier, caches, SwitchNumber(t, path[|path| - 1]), v);
    assert placed(SwitchNumber(t, path[|path| - 1])) ==> HitBeforeGateway(t, s, g, hash, placed);
  }
}
