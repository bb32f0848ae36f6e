/** The address plan of the simulated network: how pods, leaves, spines, cores and hosts are
    numbered, which prefixes the routing tables name, and which addresses those prefixes match. */
module Addressing {

  /** An IPv4 address as the 32-bit number the simulator stores. */
  type Addr = nat

  /** Every addressable device. Leaves and spines are named by pod and offset in the pod,
      cores by their flat index. */
  datatype Node =
    | Host(pod: nat, off: nat, idx: nat)
    | Leaf(pod: nat, off: nat)
    | Spine(pod: nat, off: nat)
    | Core(core: nat)

  function Dotted(a: nat, b: nat, c: nat, d: nat): Addr {
    a * 0x1000000 + b * 0x10000 + c * 0x100 + d
  }

  function NodeBasePhysicalAddress(podId: nat, leafOffset: nat, id: nat): Addr {
    Dotted(podId + 1, leafOffset, id, 0)
  }

  function NodePhysicalAddress(podId: nat, leafOffset: nat, id: nat): Addr {
    NodeBasePhysicalAddress(podId, leafOffset, id) + 1
  }

  function SwitchBaseAddress(podCount: nat, podId: nat, spineOffset: nat, leafOffset: nat): Addr {
    Dotted(podCount + podId + 1, spineOffset, leafOffset, 0)
  }

  function LeafAddress(podCount: nat, podId: nat, spineOffset: nat, leafOffset: nat): Addr {
    SwitchBaseAddress(podCount, podId, spineOffset, leafOffset) + 2
  }

  function SpineFromLeafAddress(podCount: nat, podId: nat, spineOffset: nat, leafOffset: nat): Addr {
    SwitchBaseAddress(2 * podCount, podId, spineOffset, leafOffset) + 1
  }

  function CoreSwitchBaseAddress(spinePodId: nat, core: nat): Addr {
    Dotted(255, core, spinePodId, 0)
  }

  function CoreAddress(spinePodId: nat, core: nat): Addr {
    CoreSwitchBaseAddress(spinePodId, core) + 1
  }

  /** The address by which a device is reached: hosts by their link address, switches by the
      address their application binds. */
  function AddressOf(podCount: nat, n: Node): Addr {
    match n
    case Host(p, o, i) => NodePhysicalAddress(p, o, i)
    case Leaf(p, o) => LeafAddress(podCount, p, 0, o)
    case Spine(p, o) => SpineFromLeafAddress(podCount, p, o, 0)
    case Core(c) => CoreAddress(0, c)
  }

  datatype Mask = ClassB | ClassC

  /** Ipv4Mask::IsMatch for the two masks the tables use. */
  predicate IsMatch(m: Mask, a: Addr, b: Addr) {
    match m
    case ClassB => a / 0x10000 == b / 0x10000
    case ClassC => a / 0x100 == b / 0x100
  }

  /** The prefixes that occur: four kinds of installed route and three kinds of link subnet. */
  datatype Prefix =
    | HostGroup(pod: nat, off: nat)
    | LeafNet(pod: nat, off: nat)
    | SpineNet(pod: nat, off: nat)
    | CoreNet(core: nat)
    | HostLink(pod: nat, off: nat, idx: nat)
    | SwitchLink(pod: nat, spineOff: nat, leafOff: nat)
    | CoreLink(pod: nat, core: nat)

  function PrefixDest(podCount: nat, x: Prefix): Addr {
    match x
    case HostGroup(p, o) => NodePhysicalAddress(p, o, 0)
    case LeafNet(p, o) => LeafAddress(podCount, p, 0, o)
    case SpineNet(p, o) => SpineFromLeafAddress(podCount, p, o, 0)
    case CoreNet(c) => CoreAddress(0, c)
    case HostLink(p, o, i) => NodeBasePhysicalAddress(p, o, i)
    case SwitchLink(p, s, l) => SwitchBaseAddress(podCount, p, s, l)
    case CoreLink(p, c) => CoreSwitchBaseAddress(p, c)
  }

  function PrefixMask(x: Prefix): Mask {
    if x.HostGroup? then ClassB else ClassC
  }

  /** The devices a prefix is meant for. */
  predicate Covers(x: Prefix, n: Node) {
    match x
    case HostGroup(p, o) => n.Host? && n.pod == p && n.off == o
    case LeafNet(p, o) => n == Leaf(p, o)
    case SpineNet(p, o) => n == Spine(p, o)
    case CoreNet(c) => n == Core(c)
    case HostLink(p, o, i) => n == Host(p, o, i)
    case SwitchLink(p, s, l) => s == 0 && n == Leaf(p, l)
    case CoreLink(p, c) => p == 0 && n == Core(c)
  }

  predicate NodeInPlan(podCount: nat, n: Node) {
    match n
    case Host(p, o, i) => p < podCount && o < 256 && i < 256
    case Leaf(p, o) => p < podCount && o < 256
    case Spine(p, o) => p < podCount && o < 256
    case Core(c) => c < 256
  }

  predicate PrefixInPlan(podCount: nat, x: Prefix) {
    match x
    case HostGroup(p, o) => p < podCount && o < 256
    case LeafNet(p, o) => p < podCount && o < 256
    case SpineNet(p, o) => p < podCount && o < 256
    case CoreNet(c) => c < 256
    case HostLink(p, o, i) => p < podCount && o < 256 && i < 256
    case SwitchLink(p, s, l) => p < podCount && s < 256 && l < 256
    case CoreLink(p, c) => p < podCount && c < 256
  }

  lemma {:induction false} DottedOctets(a: nat, b: nat, c: nat, d: nat)
    requires b < 256 && c < 256 && d < 256
    ensures Dotted(a, b, c, d) / 0x1000000 == a
    ensures Dotted(a, b, c, d) / 0x10000 == a * 256 + b
    ensures Dotted(a, b, c, d) / 0x100 == (a * 256 + b) * 256 + c
    ensures Dotted(a, b, c, d) / 0x10000 % 256 == b
    ensures Dotted(a, b, c, d) / 0x100 % 256 == c
  {
  }

  /** The octets of a device's address: every address is Dotted of four numbers. */
  function Octets(podCount: nat, n: Node): (nat, nat, nat, nat) {
    match n
    case Host(p, o, i) => (p + 1, o, i, 1)
    case Leaf(p, o) => (podCount + p + 1, 0, o, 2)
    case Spine(p, o) => (2 * podCount + p + 1, o, 0, 1)
    case Core(c) => (255, c, 0, 1)
  }

  function PrefixOctets(podCount: nat, x: Prefix): (nat, nat, nat, nat) {
    match x
    case HostGroup(p, o) => (p + 1, o, 0, 1)
    case LeafNet(p, o) => (podCount + p + 1, 0, o, 2)
    case SpineNet(p, o) => (2 * podCount + p + 1, o, 0, 1)
    case CoreNet(c) => (255, c, 0, 1)
    case HostLink(p, o, i) => (p + 1, o, i, 0)
    case SwitchLink(p, s, l) => (podCount + p + 1, s, l, 0)
    case CoreLink(p, c) => (255, c, p, 0)
  }

  lemma {:induction false} DottedMatch(a: nat, b: nat, c: nat, d: nat, a': nat, b': nat, c': nat, d': nat)
    requires b < 256 && c < 256 && d < 256 && b' < 256 && c' < 256 && d' < 256
    ensures IsMatch(ClassB, Dotted(a, b, c, d), Dotted(a', b', c', d')) <==> a == a' && b == b'
    ensures IsMatch(ClassC, Dotted(a, b, c, d), Dotted(a', b', c', d')) <==> a == a' && b == b' && c == c'
  {
    DottedOctets(a, b, c, d);
    DottedOctets(a', b', c', d');
  }

  lemma {:induction false} AddressOctets(podCount: nat, n: Node)
    ensures var (a, b, c, d) := Octets(podCount, n); AddressOf(podCount, n) == Dotted(a, b, c, d)
  {
  }

  lemma {:induction false} PrefixDestOctets(podCount: nat, x: Prefix)
    ensures var (a, b, c, d) := PrefixOctets(podCount, x); PrefixDest(podCount, x) == Dotted(a, b, c, d)
  {
  }

  /** Agreement of octets is what a prefix is meant for. */
  lemma {:induction false} OctetsAgreeExactlyWhenCovered(podCount: nat, x: Prefix, n: Node)
    requires 3 * podCount < 255
    requires PrefixInPlan(podCount, x) && NodeInPlan(podCount, n)
    ensures var (a, b, c, d) := Octets(podCount, n);
            var (a', b', c', d') := PrefixOctets(podCount, x);
            (a == a' && b == b' && (x.HostGroup? || c == c')) <==> Covers(x, n)
  {
  }

  /** No prefix of the plan matches an address it is not meant for, and each matches every
      address it is meant for. */
  lemma {:induction false} PrefixMatchesExactlyItsDevices(podCount: nat, x: Prefix, n: Node)
    requires 3 * podCount < 255
    requires PrefixInPlan(podCount, x) && NodeInPlan(podCount, n)
    ensures IsMatch(PrefixMask(x), AddressOf(podCount, n), PrefixDest(podCount, x)) <==> Covers(x, n)
  {
    var (a, b, c, d) := Octets(podCount, n);
    var (a', b', c', d') := PrefixOctets(podCount, x);
    AddressOctets(podCount, n);
    PrefixDestOctets(podCount, x);
    DottedMatch(a, b, c, d, a', b', c', d');
    OctetsAgreeExactlyWhenCovered(podCount, x, n);
  }

  lemma {:induction false} AddressesAreDistinct(podCount: nat, n: Node, m: Node)
    requires 3 * podCount < 255
    requires NodeInPlan(podCount, n) && NodeInPlan(podCount, m)
    ensures AddressOf(podCount, n) == AddressOf(podCount, m) <==> n == m
  {
    var (a, b, c, d) := Octets(podCount, n);
    var (a', b', c', d') := Octets(podCount, m);
    assert AddressOf(podCount, n) == Dotted(a, b, c, d);
    assert AddressOf(podCount, m) == Dotted(a', b', c', d');
    DottedOctets(a, b, c, d);
    DottedOctets(a', b', c', d');
  }

  /** The leaf address GeneratePacketToLeaf derives from a host address; the subtraction wraps
      in 32 bits as the source's unsigned arithmetic does. */
  function LeafAddressForHost(podCount: nat, host: Addr): Addr {
    var podId := if host / 0x1000000 == 0 then 0xFFFF_FFFF else host / 0x1000000 - 1;
    var leafOffset := host / 0x10000 % 256;
    LeafAddress(podCount, podId, 0, leafOffset)
  }

  /** Decoding a host's address names exactly the switch address of that host's leaf. */
  lemma {:induction false} HostAddressDecodesToItsLeaf(podCount: nat, p: nat, o: nat, i: nat)
    requires o < 256 && i < 256
    ensures LeafAddressForHost(podCount, AddressOf(podCount, Host(p, o, i)))
         == AddressOf(podCount, Leaf(p, o))
  {
    assert AddressOf(podCount, Host(p, o, i)) == Dotted(p + 1, o, i, 1);
    DottedOctets(p + 1, o, i, 1);
  }

  /** The host a physical address names. */
  function HostOf(a: Addr): Node {
    Host(if a / 0x1000000 == 0 then 0 else a / 0x1000000 - 1, a / 0x10000 % 256, a / 0x100 % 256)
  }

  lemma {:induction false} HostOfAddress(podCount: nat, p: nat, o: nat, i: nat)
    requires o < 256 && i < 256
    ensures HostOf(AddressOf(podCount, Host(p, o, i))) == Host(p, o, i)
  {
    assert AddressOf(podCount, Host(p, o, i)) == Dotted(p + 1, o, i, 1);
    DottedOctets(p + 1, o, i, 1);
  }
}
