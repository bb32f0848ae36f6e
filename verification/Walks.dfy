/** Whole walks through the network: every equal-cost choice at every hop. */
module Walks {
  import opened Addressing
  import opened Lists
  import opened Topology
  import opened Forwarding

  // ------------------------------------------------------- packets to hosts

  /** Switches still to visit, this one included, before a host under leaf (p, o). */
  function Distance(n: Node, p: nat, o: nat): nat {
    match n
    case Host(_, _, _) => 0
    case Leaf(p', o') => if p' != p then 5 else if o' != o then 3 else 1
    case Spine(p', _) => if p' != p then 4 else 2
    case Core(_) => 3
  }

  predicate Switch(t: Topo, n: Node) {
    t.Has(n) && !n.Host?
  }

  /** One hop toward a host: the leaf of the host delivers, every other switch gets closer,
      whatever route is chosen, and there is always a route. */
  lemma {:induction false} HopTowardHost(t: Topo, n: Node, d: Node, next: Node)
    requires t.Valid() && Switch(t, n) && t.Has(d) && d.Host?
    requires Contains(NextHops(t, n, AddressOf(t.podCount, d)), next)
    ensures n == Leaf(d.pod, d.off) ==> next == d
    ensures n != Leaf(d.pod, d.off) ==>
              Switch(t, next) && Distance(next, d.pod, d.off) == Distance(n, d.pod, d.off) - 1
  {
    NextHopsTowardDevice(t, n, d);
    match n
    case Leaf(p, _) => InAllSpines(p, t.podWidth, next);
    case Spine(_, o) =>
      if n.pod != d.pod {
        InAllCores(t, o, t.perSpine, next);
      }
    case Core(c) =>
      CoreGroup(t, c);
  }

  lemma {:induction false} HostIsRoutable(t: Topo, n: Node, d: Node)
    requires t.Valid() && Switch(t, n) && t.Has(d) && d.Host?
    ensures NextHops(t, n, AddressOf(t.podCount, d)) != Nil
  {
    NextHopsTowardDevice(t, n, d);
    AlwaysANextHop(t, n, d);
  }

  /** A walk of a packet whose outer destination is a: each step is one of the next hops. */
  ghost predicate Walk(t: Topo, path: seq<Node>, a: Addr)
    requires t.podWidth > 0
  {
    forall i :: 0 < i < |path| ==> Contains(NextHops(t, path[i - 1], a), path[i])
  }

  /** Every walk from a switch toward a host visits Distance many switches, each once, the last
      one being the host's leaf, and then the host. */
  lemma {:induction false} WalkReachesHost(t: Topo, path: seq<Node>, d: Node)
    requires t.Valid() && t.Has(d) && d.Host?
    requires |path| > 0 && Switch(t, path[0]) && Walk(t, path, AddressOf(t.podCount, d))
    ensures var far := Distance(path[0], d.pod, d.off);
            && (forall k :: 0 <= k < |path| && k < far ==> Switch(t, path[k]))
            && (forall k :: 0 <= k < |path| && k <= far ==> Distance(path[k], d.pod, d.off) == far - k)
            && (|path| >= far ==> path[far - 1] == Leaf(d.pod, d.off))
            && (|path| > far ==> path[far] == d)
  {
    var far := Distance(path[0], d.pod, d.off);
    if |path| > 1 && far > 1 {
      HopTowardHost(t, path[0], d, path[1]);
      var rest := path[1..];
      assert Walk(t, rest, AddressOf(t.podCount, d)) by {
        forall i | 0 < i < |rest| ensures Contains(NextHops(t, rest[i - 1], AddressOf(t.podCount, d)), rest[i]) {
          assert Contains(NextHops(t, path[i], AddressOf(t.podCount, d)), path[i + 1]);
        }
      }
      WalkReachesHost(t, rest, d);
      assert forall k :: 0 < k < |path| ==> path[k] == rest[k - 1];
    } else if |path| > 1 {
      HopTowardHost(t, path[0], d, path[1]);
    }
  }

  /** For every pair of hosts and every equal-cost choice: a walk from the sender's leaf passes
      at most five switches, never one twice, then arrives at the destination host, and until
      then it can always go on. */
  lemma {:induction false} HostToHost(t: Topo, s: Node, d: Node, path: seq<Node>)
    requires t.Valid() && t.Has(s) && s.Host? && t.Has(d) && d.Host?
    requires |path| > 0 && path[0] == Leaf(s.pod, s.off) && Walk(t, path, AddressOf(t.podCount, d))
    ensures var far := Distance(path[0], d.pod, d.off);
            && 1 <= far <= 5
            && (|path| > far ==> path[far] == d)
            && (forall i, j :: 0 <= i < j < |path| && j <= far ==> path[i] != path[j])
            && (|path| <= far ==> var last := path[|path| - 1];
                                  Switch(t, last) && NextHops(t, last, AddressOf(t.podCount, d)) != Nil)
  {
    WalkReachesHost(t, path, d);
    if |path| <= Distance(path[0], d.pod, d.off) {
      HostIsRoutable(t, path[|path| - 1], d);
    }
  }

  // ------------------------------------------------------- packets to switches

  /** Sends still needed to bring a protocol packet from switch n to switch s, at most. */
  function SendsLeft(t: Topo, n: Node, s: Node): nat {
    if n == s then 0
    else match s
      case Host(_, _, _) => 0
      case Leaf(p, _) =>
        (match n
         case Leaf(p', _) => if p' == p then 2 else 4
         case Spine(p', _) => if p' == p then 1 else 3
         case _ => 2)
      case Spine(p, o) =>
        (match n
         case Leaf(p', _) => if p' == p then 1 else 5
         case Spine(p', o') => if p' == p then 2 else if o' == o then 2 else 4
         case Core(c) => if t.Group(c) == o then 1 else 3
         case Host(_, _, _) => 0)
      case Core(_) => if n.Leaf? then 2 else 1
  }

  /** The switches from which the tables lead to s: all of them, unless s is a core, which is
      reached only over the spines it is attached to. */
  predicate OnTheWay(t: Topo, n: Node, s: Node) {
    Switch(t, n) && (s.Core? ==> n.Leaf? || n == s || (n.Spine? && n.off == t.Group(s.core)))
  }

  lemma {:induction false} HopTowardLeaf(t: Topo, n: Node, s: Node, next: Node)
    requires t.Valid() && Switch(t, n) && Switch(t, s) && s.Leaf? && n != s
    requires Contains(NextToward(t, n, s), next)
    ensures Switch(t, next) && SendsLeft(t, next, s) < SendsLeft(t, n, s)
  {
    match n
    case Leaf(p, _) => InAllSpines(p, t.podWidth, next);
    case Spine(p, o) =>
      if n.pod != s.pod {
        InAllCores(t, o, t.perSpine, next);
      } else {
        InAllLeaves(p, t.podWidth, next);
      }
    case Core(c) => CoreGroup(t, c);
  }

  lemma {:induction false} HopTowardSpine(t: Topo, n: Node, s: Node, next: Node)
    requires t.Valid() && Switch(t, n) && Switch(t, s) && s.Spine? && n != s
    requires Contains(NextToward(t, n, s), next)
    ensures Switch(t, next) && SendsLeft(t, next, s) < SendsLeft(t, n, s)
  {
    match n
    case Leaf(p, _) => InAllSpines(p, t.podWidth, next);
    case Spine(p, o) =>
      if n.pod != s.pod {
        InAllCores(t, o, t.perSpine, next);
      } else {
        InAllLeaves(p, t.podWidth, next);
      }
    case Core(c) => CoreGroup(t, c);
  }

  /** One re-send of a protocol packet brings it closer to its switch on every equal-cost
      choice, and a route always exists. */
  lemma {:induction false} HopTowardSwitch(t: Topo, n: Node, s: Node, next: Node)
    requires t.Valid() && OnTheWay(t, n, s) && Switch(t, s) && n != s
    requires Contains(NextHops(t, n, AddressOf(t.podCount, s)), next)
    ensures OnTheWay(t, next, s) && SendsLeft(t, next, s) < SendsLeft(t, n, s)
  {
    NextHopsTowardDevice(t, n, s);
    match s
    case Leaf(_, _) => HopTowardLeaf(t, n, s, next);
    case Spine(_, _) => HopTowardSpine(t, n, s, next);
    case Core(c) => CoreGroup(t, c);
  }

  lemma {:induction false} SwitchIsRoutable(t: Topo, n: Node, s: Node)
    requires t.Valid() && OnTheWay(t, n, s) && Switch(t, s) && n != s
    ensures NextHops(t, n, AddressOf(t.podCount, s)) != Nil
  {
    NextHopsTowardDevice(t, n, s);
    AlwaysANextHop(t, n, s);
  }

  lemma {:induction false} WalkBringsCloser(t: Topo, path: seq<Node>, s: Node, k: nat)
    requires t.Valid() && Switch(t, s) && k < |path|
    requires OnTheWay(t, path[0], s) && Walk(t, path, AddressOf(t.podCount, s))
    requires s !in path[..k]
    ensures OnTheWay(t, path[k], s) && SendsLeft(t, path[k], s) + k <= SendsLeft(t, path[0], s)
  {
    if k > 0 {
      assert path[..k - 1] == path[..k][..k - 1];
      WalkBringsCloser(t, path, s, k - 1);
      assert path[k - 1] == path[..k][k - 1];
      HopTowardSwitch(t, path[k - 1], s, path[k]);
    }
  }

  /** Protocol packets terminate: sent by any leaf to any switch, every walk the re-sends can
      take meets the switch within five sends, and until then the next send has a route. */
  lemma {:induction false} ProtocolPacketsArrive(t: Topo, from: Node, s: Node, path: seq<Node>)
    requires t.Valid() && Switch(t, from) && from.Leaf? && Switch(t, s)
    requires |path| > 0 && path[0] == from && Walk(t, path, AddressOf(t.podCount, s))
    ensures |path| >= 6 ==> s in path[..6]
    ensures s !in path ==>
              Switch(t, path[|path| - 1]) && NextHops(t, path[|path| - 1], AddressOf(t.podCount, s)) != Nil
  {
    if |path| >= 6 {
      if s !in path[..5] {
        WalkBringsCloser(t, path, s, 5);
        assert path[..6][5] == s;
      } else {
        var i :| 0 <= i < 5 && path[..5][i] == s;
        assert path[..6][i] == s;
      }
    }
    if s !in path {
      var k := |path| - 1;
      WalkBringsCloser(t, path, s, k);
      SwitchIsRoutable(t, path[k], s);
    }
  }
}
