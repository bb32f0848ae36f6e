/** What every step keeps. */
module Invariants {
  import opened Addressing
  import opened Topology
  import opened Walks
  import opened CacheSpec
  import opened SwitchSpec
  import opened SwitchProperties
  import opened Endpoints
  import opened Network

  // ---------------------------------------------------------------- mappings in circulation

  /** The host the moved container left. */
  function OldHost(s: Setup): Addr
    requires s.migration.Some? && s.migration.value.c in s.home
  {
    s.home[s.migration.value.c]
  }

  /** What the directory says or said: where a container was first, and where the moved one went. */
  ghost predicate Tolerable(s: Setup, migrated: bool, m: Mapping) {
    m.key in s.home &&
    (m.val == s.home[m.key] ||
     (migrated && s.migration.Some? && m.key == s.migration.value.c && m.val == s.migration.value.to))
  }

  /** Where source learning and migration meet: a tainted sender, thought to be on the old host. */
  ghost predicate Poisoned(s: Setup, ph: Phase, m: Mapping) {
    && s.sourceLearning && ph.migrated && s.migration.Some? && s.migration.value.c in s.home
    && m.key in s.home && m.key in ph.tainted && m.val == OldHost(s)
  }

  /** The mappings that may exist. */
  ghost predicate Possible(s: Setup, ph: Phase, m: Mapping) {
    Tolerable(s, ph.migrated, m) || Poisoned(s, ph, m)
  }

  ghost function Allowed(s: Setup, ph: Phase): iset<Mapping> {
    iset m | Possible(s, ph, m)
  }

  lemma {:induction false} HostAddressNonzero(t: Topo, a: Addr)
    requires IsHostAddress(t, a)
    ensures a != 0
  {
  }

  /** The new host is one of the topology's. */
  lemma {:induction false} NewHostIsHost(s: Setup)
    requires Valid(s) && s.migration.Some?
    ensures IsHostAddress(s.t, s.migration.value.to)
  {
    TargetIsHost(s.t, s.migration.value.leaf, s.migration.value.host);
  }

  /** Where the follow-me rule works, it names the new host. */
  lemma {:induction false} FollowMeIsNewHost(s: Setup)
    requires Valid(s) && s.migration.Some? && FollowMeOk(s)
    ensures s.migration.value.followMe == s.migration.value.to
  {
    FollowMeFindsTheContainerIff(s.x, s.t, s.migration.value.leaf, s.migration.value.host);
  }

  /** Even where it does not, it names neither the old host nor a gateway. */
  lemma {:induction false} FollowMeIsElsewhere(s: Setup)
    requires Valid(s) && s.migration.Some?
    ensures s.migration.value.followMe !in s.gws && s.migration.value.followMe != OldHost(s)
  {
    FollowMeFindsTheContainerIff(s.x, s.t, s.migration.value.leaf, s.migration.value.host);
    assert forall a :: a in s.gws || a == OldHost(s) ==> IsHostAddress(s.t, a);
  }

  lemma {:induction false} AllowedIsHost(s: Setup, ph: Phase, m: Mapping)
    requires Valid(s) && Possible(s, ph, m)
    ensures IsHostAddress(s.t, m.val) && m.val != 0
  {
    if s.migration.Some? {
      NewHostIsHost(s);
    }
    HostAddressNonzero(s.t, m.val);
  }

  lemma {:induction false} AllowedSound(s: Setup, ph: Phase)
    requires Valid(s)
    ensures Sound(Allowed(s, ph))
  {
    forall m | m in Allowed(s, ph) ensures m.val != 0 {
      AllowedIsHost(s, ph, m);
    }
  }

  // ---------------------------------------------------------------- the fate of a packet

  /** End points: both containers are known, the destination is ordinary, the source tag names a
      machine. The outer source is a machine of the sender, or the old host after a return; and
      then, once the invalidation tag is gone, the sender is tainted. */
  ghost predicate Ends(s: Setup, ph: Phase, p: Packet) {
    && p.vsrc in s.home && p.vdst in s.home && s.home[p.vdst] !in s.gws
    && IsHostAddress(s.t, p.source)
    && (p.misdelivered == 0 ==> Tolerable(s, ph.migrated, Mapping(p.vsrc, p.psrc)))
    && (p.misdelivered > 0 && p.inval.None? ==> p.vsrc in ph.tainted)
  }

  /** A returned packet on its way by the follow-me rule. */
  ghost predicate FollowsMe(s: Setup, ph: Phase, p: Packet) {
    ForMoved(s, ph, p) && p.inval.Some? && p.pdst == s.migration.value.followMe
  }

  /** Addresses: an eviction tag is a possible mapping, and the packet is bound to a gateway or to
      a host its destination may be thought to be at, or follows its destination. */
  ghost predicate Aim(s: Setup, ph: Phase, p: Packet) {
    && (p.evict.Some? ==> Possible(s, ph, p.evict.value))
    && (p.pdst in s.gws || Possible(s, ph, Mapping(p.vdst, p.pdst)) || FollowsMe(s, ph, p))
  }

  /** A packet bound to a host its destination never was on was sent there by a switch. */
  ghost predicate SentByHit(s: Setup, ph: Phase, p: Packet) {
    || p.pdst in s.gws || Tolerable(s, ph.migrated, Mapping(p.vdst, p.pdst)) || p.hit.Some?
    || FollowsMe(s, ph, p)
  }

  /** A packet for the moved container, after the move. */
  ghost predicate ForMoved(s: Setup, ph: Phase, p: Packet) {
    ph.migrated && s.migration.Some? && p.vdst == s.migration.value.c
  }

  function StaleMapping(s: Setup): Mapping
    requires s.migration.Some? && s.migration.value.c in s.home
  {
    Mapping(s.migration.value.c, OldHost(s))
  }

  /** A mapping to the old host that the directory no longer confirms. Without source learning it
      can only be the moved container's. */
  ghost predicate Outdated(s: Setup, ph: Phase, m: Mapping)
    requires Valid(s)
  {
    && ph.migrated && s.migration.Some? && m.val == OldHost(s) && m.key in s.home
    && (m.key == s.migration.value.c || (s.sourceLearning && s.home[m.key] != OldHost(s)))
  }

  /** The invalidation tag names an outdated mapping of the packet's destination, and only a
      returned packet has one. */
  ghost predicate TagRight(s: Setup, ph: Phase, p: Packet)
    requires Valid(s)
  {
    p.inval.Some? ==>
      Outdated(s, ph, p.inval.value) && p.inval.value.key == p.vdst && p.misdelivered == 1
  }

  /** A packet is returned at most once, by the old host: afterwards it is never bound to that host,
      and on the way to a gateway it carries the invalidation tag. */
  ghost predicate ReturnedOnce(s: Setup, ph: Phase, p: Packet)
    requires Valid(s)
  {
    && p.misdelivered <= 1
    && (p.misdelivered == 1 ==>
          && s.migration.Some?
          && Outdated(s, ph, Mapping(p.vdst, OldHost(s)))
          && p.psrc == OldHost(s)
          && p.pdst != OldHost(s)
          && (p.pdst in s.gws ==> p.inval.Some?))
  }

  /** A gateway is visited at most once, and a hit tag is real and unique. */
  ghost predicate VisitsRight(s: Setup, p: Packet)
    requires s.t.podWidth > 0
  {
    && p.gwVisits <= 1
    && (p.pdst in s.gws ==> p.gwVisits == 0 && (p.hit.Some? ==> p.inval.Some?))
    && (p.hit.Some? && p.misdelivered == 0 ==> p.gwVisits == 0)
    && (p.hit.Some? ==> HitRight(s, p.hit.value))
  }

  ghost predicate HitRight(s: Setup, h: Hit)
    requires s.t.podWidth > 0
  {
    && h.id < SwitchCount(s.t)
    && Switch(s.t, SwitchWithId(s.t, h.id))
    && h.address == AddressOf(s.t.podCount, SwitchWithId(s.t, h.id))
  }

  ghost predicate Fate(s: Setup, ph: Phase, p: Packet)
    requires Valid(s)
  {
    Ends(s, ph, p) && Aim(s, ph, p) && SentByHit(s, ph, p) && TagRight(s, ph, p) && ReturnedOnce(s, ph, p) &&
      VisitsRight(s, p)
  }

  /** An ordinary destination never lives at a gateway. */
  lemma {:induction false} OrdinaryTarget(s: Setup, ph: Phase, p: Packet)
    requires Valid(s) && Ends(s, ph, p) && p.pdst in s.gws
    ensures !Possible(s, ph, Mapping(p.vdst, p.pdst))
  {
  }

  lemma {:induction false} SwitchIdsAreRight(s: Setup, n: Node)
    requires Valid(s) && Switch(s.t, n)
    ensures HitRight(s, Hit(AddressOf(s.t.podCount, n), SwitchId(s.t, n)))
  {
    IdsAreInverse(s.t, n);
  }

  // ---------------------------------------------------------------- one switch

  ghost predicate CacheRight(s: Setup, ph: Phase, n: Node, st: State) {
    SlotsOk(s.hashes(n), st.cache, Allowed(s, ph))
  }

  lemma {:induction false} FateIsOk(s: Setup, ph: Phase, n: Node, p: Packet)
    requires Valid(s) && Fate(s, ph, p)
    ensures PacketOk(ConfigOf(s, n), p, Allowed(s, ph))
  {
  }

  /** Aim survives a switch, and the cache stays right. */
  lemma {:induction false} SwitchKeepsAim(s: Setup, ph: Phase, n: Node, st: State, p: Packet, coin: bool)
    requires Valid(s) && Fate(s, ph, p) && CacheRight(s, ph, n, st)
    ensures var o := Receive(ConfigOf(s, n), st, p, coin);
            && CacheRight(s, ph, n, o.state)
            && Aim(s, ph, o.packet)
            && (o.packet.pdst == p.pdst ||
                (Possible(s, ph, Mapping(p.vdst, o.packet.pdst)) &&
                 (p.inval.Some? ==> o.packet.pdst != p.inval.value.val)))
            && (o.sent.Some? && o.sent.value.Learning? ==> Possible(s, ph, o.sent.value.pair))
  {
    AllowedSound(s, ph);
    FateIsOk(s, ph, n, p);
    ReceiveInventsNothing(ConfigOf(s, n), st, p, coin, Allowed(s, ph));
    ReceiveFrame(ConfigOf(s, n), st, p, coin);
    var o := Receive(ConfigOf(s, n), st, p, coin);
    assert OutcomeOk(ConfigOf(s, n), p, o, Allowed(s, ph));
  }

  lemma {:induction false} SwitchKeepsEnds(s: Setup, ph: Phase, n: Node, st: State, p: Packet, coin: bool)
    requires Ends(s, ph, p)
    ensures Ends(s, ph, Receive(ConfigOf(s, n), st, p, coin).packet)
  {
    ReceiveFrame(ConfigOf(s, n), st, p, coin);
  }

  /** A switch never undoes what a returned packet is owed: the tag stays, and the packet is not
      sent back to the old host. */
  lemma {:induction false} SwitchKeepsReturned(s: Setup, ph: Phase, n: Node, st: State, p: Packet, coin: bool)
    requires Valid(s) && Fate(s, ph, p) && CacheRight(s, ph, n, st)
    ensures var q := Receive(ConfigOf(s, n), st, p, coin).packet;
            TagRight(s, ph, q) && ReturnedOnce(s, ph, q) && SentByHit(s, ph, q)
  {
    ReceiveFrame(ConfigOf(s, n), st, p, coin);
    SwitchKeepsAim(s, ph, n, st, p, coin);
    if p.inval.None? {
      HitTagMeansRedirected(ConfigOf(s, n), st, p, coin);
    }
  }

  lemma {:induction false} SwitchKeepsVisits(s: Setup, ph: Phase, n: Node, st: State, p: Packet, coin: bool)
    requires Valid(s) && Switch(s.t, n) && Fate(s, ph, p) && CacheRight(s, ph, n, st)
    ensures VisitsRight(s, Receive(ConfigOf(s, n), st, p, coin).packet)
  {
    var q := Receive(ConfigOf(s, n), st, p, coin).packet;
    ReceiveFrame(ConfigOf(s, n), st, p, coin);
    SwitchKeepsAim(s, ph, n, st, p, coin);
    SwitchKeepsEnds(s, ph, n, st, p, coin);
    SwitchIdsAreRight(s, n);
    if p.inval.None? {
      HitTagMeansRedirected(ConfigOf(s, n), st, p, coin);
      if q.pdst in s.gws && q.pdst != p.pdst {
        OrdinaryTarget(s, ph, q);
      }
      if q.pdst in s.gws && q.hit.Some? {
        RedirectedIsOrdinary(s, ph, n, st, p, coin);
      }
    } else if q.pdst != p.pdst && q.pdst in s.gws {
      OrdinaryTarget(s, ph, q);
    }
  }

  /** A packet that just got a hit tag is bound to a host, not to a gateway. */
  lemma {:induction false} RedirectedIsOrdinary(s: Setup, ph: Phase, n: Node, st: State, p: Packet, coin: bool)
    requires Valid(s) && Fate(s, ph, p) && CacheRight(s, ph, n, st) && p.inval.None?
    ensures var q := Receive(ConfigOf(s, n), st, p, coin).packet;
            p.hit.None? && q.hit.Some? ==> q.pdst !in s.gws
  {
    var cfg := ConfigOf(s, n);
    var q := Receive(cfg, st, p, coin).packet;
    if p.hit.None? && q.hit.Some? {
      HitTagMeansRedirected(cfg, st, p, coin);
      AllowedSound(s, ph);
      FateIsOk(s, ph, n, p);
      NoObsoleteTag(p, Allowed(s, ph));
      RedirectsExactlyOnHits(cfg, st, p, coin);
      SwitchKeepsAim(s, ph, n, st, p, coin);
      LookupOk(cfg.hash, Receive(cfg, st, p, coin).state.cache, p.vdst, Allowed(s, ph));
      if q.pdst in s.gws {
        ReceiveFrame(cfg, st, p, coin);
        OrdinaryTarget(s, ph, q);
      }
    }
  }

  /** The branch for an obsolete (0, 0) eviction tag is dead: no sound mapping has value 0. */
  lemma {:induction false} NoObsoleteTag(p: Packet, ok: iset<Mapping>)
    requires Sound(ok) && TagOk(p.evict, ok)
    ensures p.evict != Some(Mapping(0, 0))
  {
  }

  /** Through a switch: cache and packet stay right. */
  lemma {:induction false} SwitchKeepsFate(s: Setup, ph: Phase, n: Node, st: State, p: Packet, coin: bool)
    requires Valid(s) && Switch(s.t, n) && Fate(s, ph, p) && CacheRight(s, ph, n, st)
    ensures var o := Receive(ConfigOf(s, n), st, p, coin);
            CacheRight(s, ph, n, o.state) && Fate(s, ph, o.packet)
  {
    SwitchKeepsEnds(s, ph, n, st, p, coin);
    SwitchKeepsAim(s, ph, n, st, p, coin);
    SwitchKeepsReturned(s, ph, n, st, p, coin);
    SwitchKeepsVisits(s, ph, n, st, p, coin);
  }

  /** No simulator assertion fires: hit tags are never doubled, filter indices are in range. */
  lemma {:induction false} SwitchNeverFaults(s: Setup, ph: Phase, n: Node, st: State, p: Packet, coin: bool)
    requires Valid(s) && Fate(s, ph, p) && |st.bloom| == s.bloomSize
    ensures !Receive(ConfigOf(s, n), st, p, coin).fault
  {
    if p.inval.None? {
      HitTagMeansRedirected(ConfigOf(s, n), st, p, coin);
    }
  }
}
