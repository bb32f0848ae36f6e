/** The whole system as a step machine: switches, packets, switch-to-switch messages, gateways
    with their delay, hosts, and at most one migration. Hashing, coin flips, equal-cost choices,
    gateway choices, timing and loss are left to the step labels. */
module Network {
  import opened Addressing
  import opened DivMod
  import opened Lists
  import opened Topology
  import opened Forwarding
  import opened CacheSpec
  import opened SwitchSpec
  import opened Endpoints
  import Walks

  /** Container c moves under leaf number leaf, to machine number host. The directory then names to;
      its old host forwards to followMe. */
  datatype Migration = Migration(c: Addr, leaf: nat, host: nat, to: Addr, followMe: Addr)

  /** What stays fixed in a run: parameters and topology, gateways, initial directory, switch
      settings. */
  datatype Setup = Setup(
    x: Params, t: Topo, gws: set<Addr>, home: Directory,
    sourceLearning: bool, accessBit: bool,
    bloomEnabled: bool, bloomSize: nat, generateInvalidation: bool,
    memorySize: nat, hashes: Node -> Hash,
    migration: Option<Migration>)

  predicate IsHostAddress(t: Topo, a: Addr) {
    HostOf(a).Host? && t.Has(HostOf(a)) && AddressOf(t.podCount, HostOf(a)) == a
  }

  /** Switch identifiers: cores are created first, then spines, then leaves. */
  function SwitchCount(t: Topo): nat {
    t.coreCount + 2 * t.leafCount
  }

  function SwitchId(t: Topo, n: Node): nat {
    match n
    case Core(c) => c
    case Spine(p, o) => t.coreCount + Index(p, t.podWidth, o)
    case Leaf(p, o) => t.coreCount + t.leafCount + Index(p, t.podWidth, o)
    case Host(_, _, _) => SwitchCount(t)
  }

  function SwitchWithId(t: Topo, id: nat): Node
    requires t.podWidth > 0
  {
    if id < t.coreCount then Core(id)
    else if id < t.coreCount + t.leafCount then
      Spine(Row(id - t.coreCount, t.podWidth), Column(id - t.coreCount, t.podWidth))
    else
      var i := id - t.coreCount - t.leafCount;
      Leaf(Row(i, t.podWidth), Column(i, t.podWidth))
  }

  /** Creating the nodes numbers them: cores, then spines, then leaves, then the machines. */
  method InitializeNodes(t: Topo) returns (nodes: List<Node>)
    requires t.Valid()
    ensures Len(nodes) >= SwitchCount(t)
    ensures forall n :: Walks.Switch(t, n) ==> SwitchId(t, n) < SwitchCount(t) && At(nodes, SwitchId(t, n)) == n
    ensures forall i :: 0 <= i < SwitchCount(t) ==> Walks.Switch(t, At(nodes, i)) && SwitchId(t, At(nodes, i)) == i
  {
    nodes := Nil;
    for c := 0 to t.coreCount
      invariant Numbered(t, nodes, c)
    {
      AddNumbered(t, nodes, c, Core(c));
      nodes := Snoc(nodes, Core(c));
    }
    for i := 0 to t.leafCount
      invariant Numbered(t, nodes, t.coreCount + i)
    {
      var p, o := DivRem(i, t.podWidth);
      AddNumbered(t, nodes, t.coreCount + i, Spine(p, o));
      nodes := Snoc(nodes, Spine(p, o));
    }
    for i := 0 to t.leafCount
      invariant Numbered(t, nodes, t.coreCount + t.leafCount + i)
    {
      var p, o := DivRem(i, t.podWidth);
      AddNumbered(t, nodes, t.coreCount + t.leafCount + i, Leaf(p, o));
      nodes := Snoc(nodes, Leaf(p, o));
    }
    ghost var switches := nodes;
    for i := 0 to t.leafCount
      invariant Extends(nodes, switches)
    {
      var p, o := DivRem(i, t.podWidth);
      for j := 0 to t.hosts[i]
        invariant Extends(nodes, switches)
      {
        AddExtends(nodes, switches, Host(p, o, j));
        nodes := Snoc(nodes, Host(p, o, j));
      }
    }
    forall n | Walks.Switch(t, n)
      ensures SwitchId(t, n) < SwitchCount(t) && At(nodes, SwitchId(t, n)) == n
    {
      IdsAreInverse(t, n);
    }
    forall i | 0 <= i < SwitchCount(t)
      ensures Walks.Switch(t, At(nodes, i)) && SwitchId(t, At(nodes, i)) == i
    {
      NumbersAreInverse(t, i);
    }
  }

  /** The first k nodes are the switches with ids below k. */
  ghost predicate Numbered(t: Topo, nodes: List<Node>, k: nat)
    requires t.podWidth > 0
  {
    Len(nodes) == k && forall i :: 0 <= i < k ==> At(nodes, i) == SwitchWithId(t, i)
  }

  ghost predicate Extends(nodes: List<Node>, start: List<Node>) {
    Len(nodes) >= Len(start) && forall i :: 0 <= i < Len(start) ==> At(nodes, i) == At(start, i)
  }

  lemma {:induction false} AddNumbered(t: Topo, nodes: List<Node>, k: nat, n: Node)
    requires t.podWidth > 0 && Numbered(t, nodes, k) && n == SwitchWithId(t, k)
    ensures Numbered(t, Snoc(nodes, n), k + 1)
  {
  }

  lemma {:induction false} AddExtends(nodes: List<Node>, start: List<Node>, n: Node)
    requires Extends(nodes, start)
    ensures Extends(Snoc(nodes, n), start)
  {
  }

  /** Ids and switches determine each other. */
  lemma {:induction false} IdsAreInverse(t: Topo, n: Node)
    requires t.Valid() && Walks.Switch(t, n)
    ensures SwitchId(t, n) < SwitchCount(t) && SwitchWithId(t, SwitchId(t, n)) == n
  {
    if !n.Core? {
      IndexOf(t, n.pod, n.off);
    }
  }

  lemma {:induction false} NumbersAreInverse(t: Topo, i: nat)
    requires t.Valid() && i < SwitchCount(t)
    ensures Walks.Switch(t, SwitchWithId(t, i)) && SwitchId(t, SwitchWithId(t, i)) == i
  {
    if i >= t.coreCount + t.leafCount {
      FlatIndex(t, i - t.coreCount - t.leafCount);
    } else if i >= t.coreCount {
      FlatIndex(t, i - t.coreCount);
    }
  }

  /** A migration of an ordinary container to a different ordinary host, with both addresses as
      the program computes them. */
  predicate ValidMigration(s: Setup, m: Migration)
    requires s.t.podWidth > 0
  {
    && m.c in s.home && s.home[m.c] !in s.gws
    && m.leaf < |s.t.hosts| && m.host < s.t.hosts[m.leaf]
    && s.x.podWidth > 0 && BuiltFrom(s.t, s.x)
    && m.to == HostAt(s.t.podWidth, m.leaf, m.host)
    && m.followMe == HostAt(s.x.podWidth, m.leaf, m.host)
    && m.to !in s.gws && m.to != s.home[m.c]
  }

  /** The setups in which the follow-me rule names the new host. */
  predicate FollowMeOk(s: Setup) {
    s.migration.Some? ==> FollowMeWorks(s.x, s.migration.value.leaf)
  }

  predicate Valid(s: Setup) {
    && s.t.Valid()
    && s.memorySize > 0
    && (forall g :: g in s.gws ==> IsHostAddress(s.t, g))
    && (forall k :: k in s.home ==> IsHostAddress(s.t, s.home[k]))
    && (s.bloomEnabled ==> s.bloomSize >= SwitchCount(s.t))
    && (s.migration.Some? ==> ValidMigration(s, s.migration.value))
  }

  predicate GatewayPod(s: Setup, pod: nat) {
    exists g :: g in s.gws && HostOf(g).pod == pod
  }

  predicate GatewayLeaf(s: Setup, pod: nat, off: nat) {
    exists g :: g in s.gws && HostOf(g).pod == pod && HostOf(g).off == off
  }

  /** The role a switch is given. */
  function RoleOf(s: Setup, n: Node): Role {
    match n
    case Leaf(p, o) => if GatewayLeaf(s, p, o) then GW_LEAF else LEAF
    case Spine(p, _) => if GatewayPod(s, p) then GW_SPINE else SPINE
    case _ => CORE
  }

  function ConfigOf(s: Setup, n: Node): Config {
    Config(RoleOf(s, n), AddressOf(s.t.podCount, n), SwitchId(s.t, n), s.gws,
           s.sourceLearning, s.accessBit, s.bloomEnabled, s.generateInvalidation,
           FRESH_TTL, s.t.podCount, s.hashes(n))
  }

  // ---------------------------------------------------------------- state

  /** Where a packet is: on a link arriving at a device, held by a gateway or by a host that is
      about to send it, delivered, or gone. */
  datatype Place =
    | Arriving(at: Node)
    | AtGateway(host: Node)
    | AtHost(host: Node)
    | Delivered(host: Node)
    | Gone

  datatype Parcel = Parcel(packet: Packet, place: Place)

  /** A switch-to-switch message, the device it is arriving at, and how often it was sent. */
  datatype Letter = Letter(message: Message, at: Option<Node>, sends: nat)

  /** The dynamic state. Packets and letters keep their position for the whole run; generated
      records for which hit switch each leaf generated invalidations; faults counts simulator
      assertions that would have fired; tainted are the senders of packets that a gateway sent on
      after a host had returned them. */
  datatype World = World(
    switches: map<Node, State>,
    parcels: seq<Parcel>,
    letters: seq<Letter>,
    directory: Directory,
    migrated: bool,
    tainted: set<Addr>,
    generated: List<(Node, nat)>,
    faults: nat)

  /** How far a run has come: whether the migration happened, and the tainted senders. */
  datatype Phase = Phase(migrated: bool, tainted: set<Addr>)

  function PhaseOf(w: World): Phase {
    Phase(w.migrated, w.tainted)
  }

  // ---------------------------------------------------------------- steps

  datatype Step =
    | Send(host: Node, vsrc: Addr, vdst: Addr, gateway: Addr)
    | AtSwitch(i: nat, coin: bool, next: Node, letterNext: Node)
    | GatewayReceive(i: nat)
    | GatewaySend(i: nat)
    | HostReceive(i: nat, gateway: Addr)
    | HostSend(i: nat)
    | LetterAtSwitch(j: nat, next: Node)
    | Migrate
    | LosePacket(i: nat)
    | LoseLetter(j: nat)

  /** A packet leaving device n for its outer destination: the next hop must be one of those the
      tables offer; with none, or when the TTL runs out, the packet is dropped. */
  function Forwarded(s: Setup, n: Node, p: Packet, next: Node): Place
    requires s.t.podWidth > 0
  {
    if p.ttl <= 1 || NextHops(s.t, n, p.pdst) == Nil then Gone else Arriving(next)
  }

  predicate IsNext(s: Setup, n: Node, a: Addr, next: Node)
    requires s.t.podWidth > 0
  {
    NextHops(s.t, n, a) == Nil || Contains(NextHops(s.t, n, a), next)
  }

  /** The outcome of processing parcel i at the switch it arrives at. */
  function OutcomeAt(s: Setup, w: World, i: nat, coin: bool): Outcome
    requires i < |w.parcels| && w.parcels[i].place.Arriving? && w.parcels[i].place.at in w.switches
  {
    var n := w.parcels[i].place.at;
    Receive(ConfigOf(s, n), w.switches[n], Hopped(w.parcels[i].packet), coin)
  }

  /** Where programs of container v run: on its first machine, and after its move on the new one
      too. */
  predicate RunsAt(s: Setup, migrated: bool, v: Addr, a: Addr) {
    v in s.home &&
    (s.home[v] == a ||
     (migrated && s.migration.Some? && v == s.migration.value.c && a == s.migration.value.to))
  }

  /** A machine takes only packets for its own address. */
  predicate AtItsMachine(s: Setup, x: Parcel) {
    && x.place.Arriving? && x.place.at.Host? && s.t.Has(x.place.at)
    && AddressOf(s.t.podCount, x.place.at) == x.packet.pdst
  }

  predicate Enabled(s: Setup, w: World, step: Step)
    requires s.t.podWidth > 0
  {
    match step
    case Send(h, vsrc, vdst, g) =>
      && h.Host? && s.t.Has(h) && g in s.gws
      && RunsAt(s, w.migrated, vsrc, AddressOf(s.t.podCount, h))
      && vdst in s.home && s.home[vdst] !in s.gws
    case AtSwitch(i, coin, next, letterNext) =>
      && i < |w.parcels| && w.parcels[i].place.Arriving? && !w.parcels[i].place.at.Host?
      && w.parcels[i].place.at in w.switches
      && var n := w.parcels[i].place.at;
         var o := OutcomeAt(s, w, i, coin);
         && IsNext(s, n, o.packet.pdst, next)
         && (o.sent.Some? ==> IsNext(s, n, o.sent.value.dst, letterNext))
    case GatewayReceive(i) =>
      && i < |w.parcels| && AtItsMachine(s, w.parcels[i]) && w.parcels[i].packet.pdst in s.gws
      && w.parcels[i].packet.vdst in w.directory
    case GatewaySend(i) => i < |w.parcels| && w.parcels[i].place.AtGateway?
    case HostReceive(i, g) =>
      && i < |w.parcels| && AtItsMachine(s, w.parcels[i]) && w.parcels[i].packet.pdst !in s.gws
      && w.parcels[i].packet.vdst in w.directory
      && g in s.gws
    case HostSend(i) => i < |w.parcels| && w.parcels[i].place.AtHost?
    case LetterAtSwitch(j, next) =>
      && j < |w.letters| && w.letters[j].at.Some? && w.letters[j].at.value in w.switches
      && IsNext(s, w.letters[j].at.value, w.letters[j].message.dst, next)
    case Migrate => s.migration.Some? && !w.migrated
    case LosePacket(i) => i < |w.parcels| && w.parcels[i].place.Arriving?
    case LoseLetter(j) => j < |w.letters| && w.letters[j].at.Some?
  }

  /** The letter a switch's message becomes when it first leaves the switch. */
  function FirstLetter(s: Setup, n: Node, m: Message, next: Node): Letter
    requires s.t.podWidth > 0
  {
    Letter(m, if NextHops(s.t, n, m.dst) == Nil then None else Some(next), 1)
  }

  function WithLetter(s: Setup, n: Node, ls: seq<Letter>, sent: Option<Message>, next: Node): seq<Letter>
    requires s.t.podWidth > 0
  {
    if sent.Some? then ls + [FirstLetter(s, n, sent.value, next)] else ls
  }

  function Decremented(p: Packet): Packet {
    p.(ttl := if p.ttl == 0 then 0 else p.ttl - 1)
  }

  /** The world after switch n has turned parcel i into outcome o. */
  function WorldAfter(s: Setup, w: World, i: nat, n: Node, o: Outcome, next: Node, letterNext: Node): World
    requires s.t.podWidth > 0 && i < |w.parcels|
  {
    World(w.switches[n := o.state],
          w.parcels[i := Parcel(Decremented(o.packet), Forwarded(s, n, o.packet, next))],
          WithLetter(s, n, w.letters, o.sent, letterNext),
          w.directory,
          w.migrated,
          w.tainted,
          if o.generated.Some? then Snoc(w.generated, (n, o.generated.value)) else w.generated,
          if o.fault then w.faults + 1 else w.faults)
  }

  function AfterSwitch(s: Setup, w: World, i: nat, coin: bool, next: Node, letterNext: Node): World
    requires s.t.podWidth > 0
    requires i < |w.parcels| && w.parcels[i].place.Arriving? && w.parcels[i].place.at in w.switches
  {
    WorldAfter(s, w, i, w.parcels[i].place.at, OutcomeAt(s, w, i, coin), next, letterNext)
  }

  /** A host keeps a packet for one of its containers and returns any other. */
  function AfterHost(s: Setup, w: World, i: nat, g: Addr): World
    requires i < |w.parcels| && w.parcels[i].place.Arriving? && w.parcels[i].packet.vdst in w.directory
  {
    var p, h := w.parcels[i].packet, w.parcels[i].place.at;
    var a := AddressOf(s.t.podCount, h);
    if w.directory[p.vdst] == a then w.(parcels := w.parcels[i := Parcel(p, Delivered(h))])
    else
      var followMe := if s.migration.Some? then s.migration.value.followMe else 0;
      w.(parcels := w.parcels[i := Parcel(Returned(p, a, g, followMe), AtHost(h))],
         faults := if p.inval.Some? then w.faults + 1 else w.faults)
  }

  /** A letter that switch n has handled and sends on, or not. */
  function LetterAfter(s: Setup, n: Node, l: Letter, forward: bool, next: Node): Letter
    requires s.t.podWidth > 0
  {
    var routable := forward && NextHops(s.t, n, l.message.dst) != Nil;
    Letter(l.message, if routable then Some(next) else None, if forward then l.sends + 1 else l.sends)
  }

  function AfterLetter(s: Setup, w: World, j: nat, next: Node): World
    requires s.t.podWidth > 0
    requires j < |w.letters| && w.letters[j].at.Some? && w.letters[j].at.value in w.switches
  {
    var l := w.letters[j];
    var n := l.at.value;
    var (state, forward) := HandleMessage(ConfigOf(s, n), w.switches[n], l.message);
    w.(switches := w.switches[n := state], letters := w.letters[j := LetterAfter(s, n, l, forward, next)])
  }

  function Next(s: Setup, w: World, step: Step): World
    requires s.t.podWidth > 0 && Enabled(s, w, step)
  {
    match step
    case Send(h, vsrc, vdst, g) =>
      var p := Fresh(vsrc, vdst, AddressOf(s.t.podCount, h), g);
      w.(parcels := w.parcels + [Parcel(p, Arriving(Leaf(h.pod, h.off)))])
    case AtSwitch(i, coin, next, letterNext) => AfterSwitch(s, w, i, coin, next, letterNext)
    case GatewayReceive(i) =>
      var x := w.parcels[i];
      w.(parcels := w.parcels[i := Parcel(Resolved(w.directory, x.packet), AtGateway(x.place.at))])
    case GatewaySend(i) =>
      var x := w.parcels[i];
      w.(parcels := w.parcels[i := Parcel(Stripped(x.packet), SentBy(x.place.host))],
         tainted := Tainted(w, x.packet))
    case HostReceive(i, g) => AfterHost(s, w, i, g)
    case HostSend(i) => w.(parcels := w.parcels[i := Parcel(w.parcels[i].packet, SentBy(w.parcels[i].place.host))])
    case LetterAtSwitch(j, next) => AfterLetter(s, w, j, next)
    case Migrate =>
      var m := s.migration.value;
      w.(directory := w.directory[m.c := m.to], migrated := true)
    case LosePacket(i) => w.(parcels := w.parcels[i := Parcel(w.parcels[i].packet, Gone)])
    case LoseLetter(j) => w.(letters := w.letters[j := w.letters[j].(at := None)])
  }

  /** The outer source of a packet that a host returned is that host, not the sender's machine. */
  function Tainted(w: World, p: Packet): set<Addr> {
    if p.misdelivered > 0 then w.tainted + {p.vsrc} else w.tainted
  }

  /** A machine's only link leads to its leaf. */
  function SentBy(h: Node): Place {
    if h.Host? then Arriving(Leaf(h.pod, h.off)) else Gone
  }

  /** The start: empty caches and filters at every switch, nothing under way. */
  ghost predicate Initial(s: Setup, w: World)
    requires s.memorySize > 0
  {
    && (forall n :: n in w.switches <==> Walks.Switch(s.t, n))
    && (forall n :: n in w.switches ==>
          && w.switches[n].cache == Empty(s.memorySize)
          && |w.switches[n].bloom| == s.bloomSize
          && forall i :: 0 <= i < s.bloomSize ==> !w.switches[n].bloom[i])
    && w.parcels == [] && w.letters == []
    && w.directory == s.home && !w.migrated && w.tainted == {}
    && w.generated == Nil && w.faults == 0
  }

  /** A run: worlds joined by enabled steps. */
  ghost predicate Run(s: Setup, ws: seq<World>, steps: seq<Step>)
    requires Valid(s)
  {
    && |ws| == |steps| + 1
    && Initial(s, ws[0])
    && forall k :: 0 <= k < |steps| ==> Enabled(s, ws[k], steps[k]) && ws[k + 1] == Next(s, ws[k], steps[k])
  }
}
