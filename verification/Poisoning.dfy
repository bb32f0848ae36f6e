/** Source learning together with migration: how a false mapping arises, and that it arises in no
    other way. */
module Poisoning {
  import opened Addressing
  import opened DivMod
  import opened Topology
  import opened CacheSpec
  import opened SwitchSpec
  import opened SwitchProperties
  import opened Endpoints
  import opened Network
  import opened Invariants
  import opened Preservation
  import opened Journeys

  // ---------------------------------------------------------------- where false mappings come from

  /** Step j of a run: a gateway sends on a packet of sender v that a host had returned before. */
  ghost predicate SentOnAfterReturn(ws: seq<World>, steps: seq<Step>, j: nat, v: Addr)
    requires |ws| == |steps| + 1 && j < |steps|
  {
    && steps[j].GatewaySend? && steps[j].i < |ws[j].parcels|
    && TallyOf(ws, steps, steps[j].i, j).sentBack > 0
    && ws[j].parcels[steps[j].i].packet.vsrc == v
  }

  lemma {:induction false} StepTaints(s: Setup, w: World, step: Step, w': World)
    requires Network.Valid(s) && Enabled(s, w, step) && w' == Network.Next(s, w, step)
    ensures w'.tainted == if step.GatewaySend? then Tainted(w, w.parcels[step.i].packet) else w.tainted
  {
  }

  lemma {:induction false} RunTaints(s: Setup, ws: seq<World>, steps: seq<Step>, k: nat, v: Addr)
    requires Network.Valid(s) && Run(s, ws, steps) && k < |steps|
    ensures v in ws[k + 1].tainted <==> v in ws[k].tainted || SentOnAfterReturn(ws, steps, k, v)
  {
    StepTaints(s, ws[k], steps[k], ws[k + 1]);
    if steps[k].GatewaySend? {
      CarriesItsHistory(s, ws, steps, steps[k].i, k);
    }
  }

  /** The tainted senders are exactly those of packets that a gateway sent on after a return. */
  lemma {:induction false} TaintedIffSentOn(s: Setup, ws: seq<World>, steps: seq<Step>, k: nat, v: Addr)
    requires Network.Valid(s) && Run(s, ws, steps) && k < |ws|
    ensures v in ws[k].tainted <==> exists j :: 0 <= j < k && SentOnAfterReturn(ws, steps, j, v)
  {
    for q := 0 to k
      invariant v in ws[q].tainted <==> exists j :: 0 <= j < q && SentOnAfterReturn(ws, steps, j, v)
    {
      RunTaints(s, ws, steps, q, v);
    }
  }

  /** A false mapping in a cache has a source, in every run: source learning is on, the mapping is to
      the old host, and a gateway has sent on a packet of that very sender that the old host had
      returned. Before that, every cached mapping is one the directory has or had. */
  lemma {:induction false} PoisonHasASource(s: Setup, ws: seq<World>, steps: seq<Step>, k: nat, n: Node, m: Mapping)
    requires Network.Valid(s) && Run(s, ws, steps) && k < |ws| && n in ws[k].switches
    requires Holds(s.hashes(n), ws[k].switches[n].cache, m) && !Tolerable(s, ws[k].migrated, m)
    ensures s.sourceLearning && s.migration.Some? && ws[k].migrated && m.val == OldHost(s)
    ensures exists j :: 0 <= j < k && SentOnAfterReturn(ws, steps, j, m.key)
                        && ws[j].parcels[steps[j].i].packet.psrc == OldHost(s)
  {
    RunInv(s, ws, steps, k);
    CachedIsPossible(s, ws[k], n, m);
    TaintedIffSentOn(s, ws, steps, k, m.key);
    var j :| 0 <= j < k && SentOnAfterReturn(ws, steps, j, m.key);
    RunInv(s, ws, steps, j);
    CarriesItsHistory(s, ws, steps, steps[j].i, j);
    ReturnedByOldHost(s, ws[j], steps[j].i);
  }

  lemma {:induction false} ReturnedByOldHost(s: Setup, w: World, i: nat)
    requires Network.Valid(s) && Inv(s, w) && i < |w.parcels| && w.parcels[i].packet.misdelivered > 0
    ensures s.migration.Some? && w.parcels[i].packet.psrc == OldHost(s)
  {
    assert ParcelRight(s, PhaseOf(w), w.parcels[i]);
  }

  lemma {:induction false} CachedIsPossible(s: Setup, w: World, n: Node, m: Mapping)
    requires Network.Valid(s) && Inv(s, w) && n in w.switches && Holds(s.hashes(n), w.switches[n].cache, m)
    ensures Possible(s, PhaseOf(w), m)
  {
    assert SwitchRight(s, PhaseOf(w), n, w.switches[n]);
    LookupOk(s.hashes(n), w.switches[n].cache, m.key, Allowed(s, PhaseOf(w)));
  }

  // ---------------------------------------------------------------- how one arises

  /** Packet q is packet p after some switches, bound to wherever they redirected it. */
  predicate CarriedOn(p: Packet, q: Packet) {
    q.vsrc == p.vsrc && q.vdst == p.vdst && q.psrc == p.psrc && q.inval == p.inval && q.ttl <= p.ttl
  }

  lemma {:induction false} SwitchesCarryOn(cfg: Config, st: State, p: Packet, q: Packet, coin: bool)
    requires CarriedOn(p, q)
    ensures CarriedOn(p, Decremented(Receive(cfg, st, Hopped(q), coin).packet))
  {
    ReceiveFrame(cfg, st, Hopped(q), coin);
  }

  /** Every packet that a host returns to a gateway poisons the leaf it is delivered by: whatever
      switches it passes (CarriedOn) between host, gateway and leaf, and whatever that leaf's cache
      holds, the leaf then maps the sender to the host that returned the packet. */
  lemma {:induction false} ReturnsPoison(dir: Directory, cfg: Config, st: State, coin: bool, a: Addr, g: Addr,
                                         followMe: Addr,
                                         p: Packet, atGateway: Packet, atLeaf: Packet)
    requires cfg.role == LEAF && cfg.sourceLearning && cfg.defaultTtl == FRESH_TTL && a != 0
    requires CarriedOn(Returned(p, a, g, followMe), atGateway) && atGateway.vdst in dir
    requires CarriedOn(Stripped(Resolved(dir, atGateway)), atLeaf) && atLeaf.ttl < FRESH_TTL - 1
    ensures Lookup(cfg.hash, Receive(cfg, st, atLeaf, coin).state.cache, p.vsrc) == Some(a)
  {
    assert LearnsSource(cfg, atLeaf);
    var c := Put(cfg.hash, st.cache, p.vsrc, a);
    PutExact(cfg.hash, st.cache, p.vsrc, a, p.vsrc);
    TouchExact(cfg.hash, c, atLeaf.vdst, p.vsrc);
  }

  /** With source learning the moved container's old mapping can also come back: a packet that one of
      its programs still sends from the old machine teaches it to every leaf it passes later on. */
  lemma {:induction false} OldMappingComesBack(s: Setup, cfg: Config, st: State, coin: bool, vdst: Addr, g: Addr,
                                               atLeaf: Packet)
    requires Network.Valid(s) && s.migration.Some? && cfg.role == LEAF && cfg.sourceLearning &&
             cfg.defaultTtl == FRESH_TTL
    requires CarriedOn(Fresh(s.migration.value.c, vdst, OldHost(s), g), atLeaf) && atLeaf.ttl < FRESH_TTL - 1
    ensures RunsAt(s, true, s.migration.value.c, OldHost(s))
    ensures Holds(cfg.hash, Receive(cfg, st, atLeaf, coin).state.cache, StaleMapping(s))
  {
    assert LearnsSource(cfg, atLeaf);
    HostAddressNonzero(s.t, OldHost(s));
    var c := Put(cfg.hash, st.cache, atLeaf.vsrc, atLeaf.psrc);
    PutExact(cfg.hash, st.cache, atLeaf.vsrc, atLeaf.psrc, atLeaf.vsrc);
    TouchExact(cfg.hash, c, atLeaf.vdst, atLeaf.vsrc);
  }

  /** A network in which a return poisons a leaf: four leaves with one machine each. A gateway is under the
      first, container 7 under the second, and container 8 moves from the third to the fourth. */
  function MachineAddress(leaf: nat): Addr {
    AddressOf(1, Host(0, leaf, 0))
  }

  function Example(hashes: Node -> Hash): Setup {
    var hosts := [1, 1, 1, 1];
    Setup(Params(CLOS, 8, 0, 4, hosts), Topo(4, 1, 0, 4, 0, hosts), {MachineAddress(0)},
          map[7 := MachineAddress(1), 8 := MachineAddress(2)],
          true, true, false, 0, false, 16, hashes,
          Some(Migration(8, 3, 0, MachineAddress(3), MachineAddress(3))))
  }

  lemma {:induction false} ExampleMachine(hashes: Node -> Hash, leaf: nat)
    requires leaf < 4
    ensures IsHostAddress(Example(hashes).t, MachineAddress(leaf)) && HostOf(MachineAddress(leaf)) == Host(0, leaf, 0)
    ensures MachineAddress(leaf) == HostAt(4, leaf, 0)
  {
    HostOfAddress(1, 0, leaf, 0);
  }

  lemma {:induction false} ExampleIsValid(hashes: Node -> Hash)
    ensures Network.Valid(Example(hashes))
    ensures RoleOf(Example(hashes), Leaf(0, 3)) == LEAF
  {
    assert Index(1, 4, 0) == 4 by { IsProduct(1, 4, 0); }
    assert Index(4, 0, 0) == 0 by { IsProduct(4, 0, 0); }
    ExampleMachine(hashes, 0);
    ExampleMachine(hashes, 1);
    ExampleMachine(hashes, 2);
    ExampleMachine(hashes, 3);
  }

  /** There, a packet from 7 to 8 that a switch redirected to 8's old machine ends with the leaf of
      8's new machine believing that 7 lives on 8's old machine, which it never did. */
  lemma {:induction false} SourceLearningAfterMisdeliveryIsWrong(hashes: Node -> Hash, st: State, coin: bool, hit: Hit)
    ensures var s := Example(hashes);
            var left, gw := MachineAddress(2), MachineAddress(0);
            var p := Fresh(7, 8, MachineAddress(1), gw).(pdst := left, hit := Some(hit));
            var back := Returned(p, left, gw, s.migration.value.followMe);
            var sent := Stripped(Resolved(s.home[8 := s.migration.value.to], back.(ttl := 61)));
            var cfg := ConfigOf(s, Leaf(0, 3));
            && Network.Valid(s) && s.sourceLearning && back.pdst == gw && sent.pdst == MachineAddress(3)
            && Lookup(cfg.hash, Receive(cfg, st, sent.(ttl := 59), coin).state.cache, 7) == Some(left)
            && !Tolerable(s, true, Mapping(7, left))
  {
    var s := Example(hashes);
    ExampleIsValid(hashes);
    ExampleMachine(hashes, 1);
    ExampleMachine(hashes, 2);
    var left, gw := MachineAddress(2), MachineAddress(0);
    var p := Fresh(7, 8, MachineAddress(1), gw).(pdst := left, hit := Some(hit));
    var back := Returned(p, left, gw, s.migration.value.followMe);
    var sent := Stripped(Resolved(s.home[8 := s.migration.value.to], back.(ttl := 61)));
    ReturnsPoison(s.home[8 := s.migration.value.to], ConfigOf(s, Leaf(0, 3)), st, coin, left, gw,
                  s.migration.value.followMe, p, back.(ttl := 61), sent.(ttl := 59));
  }
}
