/** The invariant of the whole system, and its preservation by every step. */
module Preservation {
  import opened Addressing
  import opened Lists
  import opened Topology
  import opened Forwarding
  import opened Walks
  import opened CacheSpec
  import opened BloomFilter
  import opened SwitchSpec
  import opened SwitchProperties
  import opened Endpoints
  import opened Network
  import opened Invariants
  import opened Places

  // ---------------------------------------------------------------- letters

  /** A letter on its way to a switch it will reach within five sends in all. */
  ghost predicate Heading(s: Setup, l: Letter, n: Node, target: Node) {
    && Switch(s.t, target) && AddressOf(s.t.podCount, target) == l.message.dst
    && OnTheWay(s.t, n, target)
    && l.sends + SendsLeft(s.t, n, target) <= 5
  }

  ghost predicate ContentRight(s: Setup, ph: Phase, m: Message)
    requires Network.Valid(s)
  {
    match m
    case Learning(pair, _) => Possible(s, ph, pair)
    case Invalidation(pair, _) => Outdated(s, ph, pair)
  }

  ghost predicate LetterRight(s: Setup, ph: Phase, l: Letter)
    requires Network.Valid(s)
  {
    && ContentRight(s, ph, l.message)
    && l.sends <= 5
    && (l.at.Some? ==> exists target :: Heading(s, l, l.at.value, target))
  }

  lemma {:induction false} SendsAtMostFive(t: Topo, n: Node, target: Node)
    ensures SendsLeft(t, n, target) <= 5
  {
  }

  /** A letter's next send brings it closer, and there is a route for it. */
  lemma {:induction false} SendKeepsHeading(s: Setup, n: Node, m: Message, sends: nat, target: Node, next: Node)
    requires Network.Valid(s) && Switch(s.t, target) && AddressOf(s.t.podCount, target) == m.dst
    requires OnTheWay(s.t, n, target) && n != target && sends + SendsLeft(s.t, n, target) <= 5
    requires IsNext(s, n, m.dst, next)
    ensures NextHops(s.t, n, m.dst) != Nil
    ensures Heading(s, Letter(m, Some(next), sends + 1), next, target)
  {
    SwitchIsRoutable(s.t, n, target);
    HopTowardSwitch(s.t, n, target, next);
  }

  lemma {:induction false} OtherAddress(s: Setup, n: Node, target: Node)
    requires Network.Valid(s) && Switch(s.t, n) && Switch(s.t, target)
    requires AddressOf(s.t.podCount, n) != AddressOf(s.t.podCount, target)
    ensures n != target
  {
  }

  /** The switch a message is for: the sender's leaf, or the switch that caused a hit. */
  lemma {:induction false} MessageTarget(s: Setup, ph: Phase, n: Node, st: State, p: Packet, coin: bool)
      returns (target: Node)
    requires Network.Valid(s) && Fate(s, ph, p) && Receive(ConfigOf(s, n), st, p, coin).sent.Some?
    ensures Switch(s.t, target)
    ensures AddressOf(s.t.podCount, target) == Receive(ConfigOf(s, n), st, p, coin).sent.value.dst
    ensures AddressOf(s.t.podCount, target) != AddressOf(s.t.podCount, n)
    ensures RoleOf(s, n) == LEAF || RoleOf(s, n) == GW_LEAF
  {
    if p.inval.Some? {
      TaggedPacketActs(ConfigOf(s, n), st, p, coin);
      SentByLeaf(ConfigOf(s, n), st, p, coin);
      target := SwitchWithId(s.t, p.hit.value.id);
    } else {
      UntaggedSendsOnlyLearning(ConfigOf(s, n), st, p, coin);
      var h := HostOf(p.source);
      assert IsHostAddress(s.t, p.source);
      DevicesAreInPlan(s.t, h);
      HostAddressDecodesToItsLeaf(s.t.podCount, h.pod, h.off, h.idx);
      target := Leaf(h.pod, h.off);
    }
  }

  lemma {:induction false} SentByLeaf(cfg: Config, st: State, p: Packet, coin: bool)
    requires p.inval.Some?
    ensures Receive(cfg, st, p, coin).sent.Some? ==>
              cfg.role == LEAF && Receive(cfg, st, p, coin).sent.value.dst != cfg.address
  {
  }

  lemma {:induction false} FirstLetterHeads(s: Setup, ph: Phase, n: Node, m: Message, target: Node, next: Node)
    requires Network.Valid(s) && Switch(s.t, n) && n.Leaf? && ContentRight(s, ph, m)
    requires Switch(s.t, target) && AddressOf(s.t.podCount, target) == m.dst && n != target
    requires IsNext(s, n, m.dst, next)
    ensures LetterRight(s, ph, FirstLetter(s, n, m, next))
  {
    SendsAtMostFive(s.t, n, target);
    SendKeepsHeading(s, n, m, 0, target, next);
  }

  lemma {:induction false} FirstLetterRight(s: Setup, ph: Phase, n: Node, st: State, p: Packet, coin: bool, next: Node)
    requires Network.Valid(s) && Switch(s.t, n) && Fate(s, ph, p) && CacheRight(s, ph, n, st)
    requires Receive(ConfigOf(s, n), st, p, coin).sent.Some?
    requires IsNext(s, n, Receive(ConfigOf(s, n), st, p, coin).sent.value.dst, next)
    ensures LetterRight(s, ph, FirstLetter(s, n, Receive(ConfigOf(s, n), st, p, coin).sent.value, next))
  {
    var m := Receive(ConfigOf(s, n), st, p, coin).sent.value;
    var target := MessageTarget(s, ph, n, st, p, coin);
    FirstContentRight(s, ph, n, st, p, coin);
    FirstLetterHeads(s, ph, n, m, target, next);
  }

  lemma {:induction false} FirstContentRight(s: Setup, ph: Phase, n: Node, st: State, p: Packet, coin: bool)
    requires Network.Valid(s) && Fate(s, ph, p) && CacheRight(s, ph, n, st)
    requires Receive(ConfigOf(s, n), st, p, coin).sent.Some?
    ensures ContentRight(s, ph, Receive(ConfigOf(s, n), st, p, coin).sent.value)
  {
    if p.inval.Some? {
      TaggedPacketActs(ConfigOf(s, n), st, p, coin);
    } else {
      UntaggedSendsOnlyLearning(ConfigOf(s, n), st, p, coin);
      SwitchKeepsAim(s, ph, n, st, p, coin);
    }
  }

  // ---------------------------------------------------------------- the invariant

  ghost predicate ParcelRight(s: Setup, ph: Phase, x: Parcel)
    requires Network.Valid(s)
  {
    && Fate(s, ph, x.packet) && PlaceFits(s, ph, x.packet, x.place)
    && (FollowMeOk(s) ==> Placed(s, x.packet, x.place))
  }

  ghost predicate ParcelsRight(s: Setup, ph: Phase, xs: seq<Parcel>)
    requires Network.Valid(s)
  {
    forall i :: 0 <= i < |xs| ==> ParcelRight(s, ph, xs[i])
  }

  ghost predicate LettersRight(s: Setup, ph: Phase, ls: seq<Letter>)
    requires Network.Valid(s)
  {
    forall j :: 0 <= j < |ls| ==> LetterRight(s, ph, ls[j])
  }

  ghost predicate SwitchRight(s: Setup, ph: Phase, n: Node, st: State) {
    CacheRight(s, ph, n, st) && |st.bloom| == s.bloomSize
  }

  ghost predicate SwitchesRight(s: Setup, ph: Phase, sw: map<Node, State>) {
    && (forall n :: n in sw <==> Switch(s.t, n))
    && (forall n :: n in sw ==> SwitchRight(s, ph, n, sw[n]))
  }

  ghost predicate DirectoryRight(s: Setup, w: World) {
    && (w.migrated ==> s.migration.Some?)
    && w.directory == if w.migrated then s.home[s.migration.value.c := s.migration.value.to] else s.home
  }

  ghost predicate NoDup(log: List<(Node, nat)>) {
    match log
    case Nil => true
    case Snoc(before, e) => !Contains(before, e) && NoDup(before)
  }

  /** With the filter on, no leaf generated two invalidations for one switch, and every one it
      generated is marked. */
  ghost predicate LogRight(s: Setup, sw: map<Node, State>, log: List<(Node, nat)>) {
    s.bloomEnabled ==>
      NoDup(log) && forall n, id :: Contains(log, (n, id)) ==> n in sw && Marked(sw[n].bloom, id)
  }

  ghost predicate Inv(s: Setup, w: World)
    requires Network.Valid(s)
  {
    && SwitchesRight(s, PhaseOf(w), w.switches)
    && ParcelsRight(s, PhaseOf(w), w.parcels)
    && LettersRight(s, PhaseOf(w), w.letters)
    && DirectoryRight(s, w)
    && LogRight(s, w.switches, w.generated)
    && w.faults == 0
  }

  lemma {:induction false} InitialInv(s: Setup, w: World)
    requires Network.Valid(s) && Initial(s, w)
    ensures Inv(s, w)
  {
    forall n | n in w.switches ensures SwitchRight(s, PhaseOf(w), n, w.switches[n]) {
      var c := w.switches[n].cache;
      assert forall i :: 0 <= i < |c| ==> c[i].key == 0 && c[i].val == 0;
    }
  }

  // ---------------------------------------------------------------- packets at machines

  lemma {:induction false} SenderIsHost(s: Setup, migrated: bool, v: Addr, a: Addr)
    requires Network.Valid(s) && RunsAt(s, migrated, v, a)
    ensures IsHostAddress(s.t, a) && Tolerable(s, migrated, Mapping(v, a))
  {
    if s.migration.Some? {
      NewHostIsHost(s);
    }
  }

  lemma {:induction false} FreshFate(s: Setup, ph: Phase, vsrc: Addr, vdst: Addr, a: Addr, g: Addr)
    requires Network.Valid(s) && g in s.gws && IsHostAddress(s.t, a)
    requires Tolerable(s, ph.migrated, Mapping(vsrc, a)) && vdst in s.home && s.home[vdst] !in s.gws
    ensures Fate(s, ph, Fresh(vsrc, vdst, a, g))
  {
  }

  lemma {:induction false} FreshRight(s: Setup, ph: Phase, h: Node, vsrc: Addr, vdst: Addr, g: Addr)
    requires Network.Valid(s) && h.Host? && s.t.Has(h) && g in s.gws
    requires RunsAt(s, ph.migrated, vsrc, AddressOf(s.t.podCount, h)) && vdst in s.home && s.home[vdst] !in s.gws
    ensures ParcelRight(s, ph, Parcel(Fresh(vsrc, vdst, AddressOf(s.t.podCount, h), g), Arriving(Leaf(h.pod, h.off))))
  {
    var a := AddressOf(s.t.podCount, h);
    SenderIsHost(s, ph.migrated, vsrc, a);
    FreshFate(s, ph, vsrc, vdst, a, g);
    LeavesRight(s, ph, Fresh(vsrc, vdst, a, g), h);
  }

  lemma {:induction false} GatewayReceiveRight(s: Setup, w: World, x: Parcel)
    requires Network.Valid(s) && DirectoryRight(s, w) && ParcelRight(s, PhaseOf(w), x)
    requires AtItsMachine(s, x) && x.packet.pdst in s.gws
    requires x.packet.vdst in w.directory
    ensures ParcelRight(s, PhaseOf(w), Parcel(Resolved(w.directory, x.packet), AtGateway(x.place.at)))
  {
    var p := Resolved(w.directory, x.packet);
    assert Possible(s, PhaseOf(w), Mapping(p.vdst, p.pdst));
    assert p.pdst !in s.gws;
  }

  lemma {:induction false} GatewaySendRight(s: Setup, ph: Phase, x: Parcel)
    requires Network.Valid(s) && ParcelRight(s, ph, x) && x.place.AtGateway?
    requires x.packet.misdelivered > 0 ==> x.packet.vsrc in ph.tainted
    ensures ParcelRight(s, ph, Parcel(Stripped(x.packet), SentBy(x.place.host)))
  {
    StrippedFate(s, ph, x.packet);
    if FollowMeOk(s) {
      LeavesRight(s, ph, Stripped(x.packet), x.place.host);
    }
  }

  lemma {:induction false} StrippedFate(s: Setup, ph: Phase, p: Packet)
    requires Network.Valid(s) && Fate(s, ph, p) && Tolerable(s, ph.migrated, Mapping(p.vdst, p.pdst))
    requires p.misdelivered > 0 ==> p.vsrc in ph.tainted
    ensures Fate(s, ph, Stripped(p)) && p.pdst !in s.gws
  {
  }

  /** A host that returns a packet is the one the moved container left, and it gets the packet for
      the first time; the destination is the moved container, or, with source learning, one a
      switch wrongly believed to be there. */
  lemma {:induction false} MisdeliveredIsStale(s: Setup, w: World, x: Parcel)
    requires Network.Valid(s) && DirectoryRight(s, w) && ParcelRight(s, PhaseOf(w), x)
    requires AtItsMachine(s, x) && x.packet.pdst !in s.gws
    requires x.packet.vdst in w.directory && w.directory[x.packet.vdst] != AddressOf(s.t.podCount, x.place.at)
    ensures s.migration.Some? && x.packet.pdst == AddressOf(s.t.podCount, x.place.at) == OldHost(s)
    ensures Outdated(s, PhaseOf(w), Mapping(x.packet.vdst, OldHost(s)))
    ensures x.packet.misdelivered == 0 && x.packet.inval.None?
    ensures ForMoved(s, PhaseOf(w), x.packet) || x.packet.hit.Some?
  {
    var p := x.packet;
    if s.migration.Some? {
      FollowMeIsElsewhere(s);
      HeardOnlyByMachines(s, x.place.at);
    }
  }

  /** A follow-me address that is a machine's is the new host's. */
  lemma {:induction false} HeardOnlyByMachines(s: Setup, h: Node)
    requires Network.Valid(s) && s.migration.Some? && h.Host? && s.t.Has(h)
    ensures s.migration.value.followMe == AddressOf(s.t.podCount, h) ==>
              s.migration.value.followMe == s.migration.value.to
  {
    FollowMeFindsTheContainerIff(s.x, s.t, s.migration.value.leaf, s.migration.value.host);
  }

  lemma {:induction false} ReturnedRight(s: Setup, w: World, x: Parcel, g: Addr)
    requires Network.Valid(s) && DirectoryRight(s, w) && ParcelRight(s, PhaseOf(w), x) && g in s.gws
    requires AtItsMachine(s, x) && x.packet.pdst !in s.gws
    requires x.packet.vdst in w.directory && w.directory[x.packet.vdst] != AddressOf(s.t.podCount, x.place.at)
    ensures s.migration.Some?
    ensures ParcelRight(s, PhaseOf(w),
              Parcel(Returned(x.packet, AddressOf(s.t.podCount, x.place.at), g, s.migration.value.followMe),
                     AtHost(x.place.at)))
  {
    MisdeliveredIsStale(s, w, x);
    FollowMeIsElsewhere(s);
    ReturnedFate(s, PhaseOf(w), x.packet, g);
  }

  lemma {:induction false} ReturnedFate(s: Setup, ph: Phase, p: Packet, g: Addr)
    requires Network.Valid(s) && s.migration.Some? && Fate(s, ph, p) && g in s.gws
    requires Outdated(s, ph, Mapping(p.vdst, OldHost(s))) && p.misdelivered == 0 && p.inval.None?
    requires ForMoved(s, ph, p) || p.hit.Some?
    ensures Fate(s, ph, Returned(p, OldHost(s), g, s.migration.value.followMe))
  {
    FollowMeIsElsewhere(s);
    var q := Returned(p, OldHost(s), g, s.migration.value.followMe);
    assert Ends(s, ph, q);
    assert Aim(s, ph, q);
  }

  lemma {:induction false} HostSendRight(s: Setup, ph: Phase, x: Parcel)
    requires Network.Valid(s) && ParcelRight(s, ph, x) && x.place.AtHost?
    ensures ParcelRight(s, ph, Parcel(x.packet, SentBy(x.place.host)))
  {
    if FollowMeOk(s) {
      LeavesRight(s, ph, x.packet, x.place.host);
    }
  }

  // ---------------------------------------------------------------- updates of the collections

  lemma {:induction false} ParcelUpdated(s: Setup, ph: Phase, xs: seq<Parcel>, i: nat, x: Parcel)
    requires Network.Valid(s) && ParcelsRight(s, ph, xs) && i < |xs| && ParcelRight(s, ph, x)
    ensures ParcelsRight(s, ph, xs[i := x])
  {
  }

  lemma {:induction false} ParcelAdded(s: Setup, ph: Phase, xs: seq<Parcel>, x: Parcel)
    requires Network.Valid(s) && ParcelsRight(s, ph, xs) && ParcelRight(s, ph, x)
    ensures ParcelsRight(s, ph, xs + [x])
  {
  }

  lemma {:induction false} LetterUpdated(s: Setup, ph: Phase, ls: seq<Letter>, j: nat, l: Letter)
    requires Network.Valid(s) && LettersRight(s, ph, ls) && j < |ls| && LetterRight(s, ph, l)
    ensures LettersRight(s, ph, ls[j := l])
  {
  }

  lemma {:induction false} LetterAdded(s: Setup, ph: Phase, ls: seq<Letter>, l: Letter)
    requires Network.Valid(s) && LettersRight(s, ph, ls) && LetterRight(s, ph, l)
    ensures LettersRight(s, ph, ls + [l])
  {
  }

  lemma {:induction false} SwitchUpdated(s: Setup, ph: Phase, sw: map<Node, State>, n: Node, st: State)
    requires SwitchesRight(s, ph, sw) && n in sw && SwitchRight(s, ph, n, st)
    ensures SwitchesRight(s, ph, sw[n := st])
  {
  }

  // ---------------------------------------------------------------- a packet at a switch

  lemma {:induction false} HoppedFate(s: Setup, ph: Phase, p: Packet)
    requires Network.Valid(s) && Fate(s, ph, p)
    ensures Fate(s, ph, Hopped(p))
  {
  }

  lemma {:induction false} DecrementedFate(s: Setup, ph: Phase, p: Packet)
    requires Network.Valid(s) && Fate(s, ph, p)
    ensures Fate(s, ph, Decremented(p))
  {
  }

  lemma {:induction false} MarksGrow(s: Setup, n: Node, st: State, p: Packet, coin: bool)
    ensures var o := Receive(ConfigOf(s, n), st, p, coin);
            && |o.state.bloom| == |st.bloom|
            && (forall id :: Marked(st.bloom, id) ==> Marked(o.state.bloom, id))
            && (o.generated.Some? && s.bloomEnabled && !o.fault ==>
                  !Marked(st.bloom, o.generated.value) && Marked(o.state.bloom, o.generated.value))
  {
    SizesStay(ConfigOf(s, n), st, p, coin);
    if p.inval.Some? {
      TaggedPacketActs(ConfigOf(s, n), st, p, coin);
      FaultMeansOutOfRange(ConfigOf(s, n), st, p, coin);
    } else {
      UntaggedSendsOnlyLearning(ConfigOf(s, n), st, p, coin);
    }
  }

  lemma {:induction false} FaultMeansOutOfRange(cfg: Config, st: State, p: Packet, coin: bool)
    requires p.inval.Some?
    ensures var o := Receive(cfg, st, p, coin);
            o.generated.Some? && cfg.bloomEnabled && !o.fault ==> o.generated.value < |st.bloom|
  {
  }

  lemma {:induction false} LogStep(s: Setup, sw: map<Node, State>, log: List<(Node, nat)>, n: Node, st: State,
                                   id: Option<nat>)
    requires LogRight(s, sw, log) && n in sw
    requires forall k :: Marked(sw[n].bloom, k) ==> Marked(st.bloom, k)
    requires id.Some? && s.bloomEnabled ==> !Marked(sw[n].bloom, id.value) && Marked(st.bloom, id.value)
    ensures LogRight(s, sw[n := st], if id.Some? then Snoc(log, (n, id.value)) else log)
  {
  }

  /** The switch a packet is at, before and after. */
  lemma {:induction false} AtSwitchState(s: Setup, ph: Phase, n: Node, st: State, x: Parcel, coin: bool)
    requires Network.Valid(s) && Switch(s.t, n) && SwitchRight(s, ph, n, st)
    requires ParcelRight(s, ph, x) && x.place == Arriving(n)
    ensures var o := Receive(ConfigOf(s, n), st, Hopped(x.packet), coin);
            SwitchRight(s, ph, n, o.state) && !o.fault
  {
    HoppedFate(s, ph, x.packet);
    SwitchKeepsFate(s, ph, n, st, Hopped(x.packet), coin);
    SwitchNeverFaults(s, ph, n, st, Hopped(x.packet), coin);
    SizesStay(ConfigOf(s, n), st, Hopped(x.packet), coin);
  }

  lemma {:induction false} AtSwitchParcel(s: Setup, ph: Phase, n: Node, st: State, x: Parcel, coin: bool, next: Node)
    requires Network.Valid(s) && Switch(s.t, n) && SwitchRight(s, ph, n, st)
    requires ParcelRight(s, ph, x) && x.place == Arriving(n)
    requires IsNext(s, n, Receive(ConfigOf(s, n), st, Hopped(x.packet), coin).packet.pdst, next)
    ensures var o := Receive(ConfigOf(s, n), st, Hopped(x.packet), coin);
            ParcelRight(s, ph, Parcel(Decremented(o.packet), Forwarded(s, n, o.packet, next)))
  {
    var o := Receive(ConfigOf(s, n), st, Hopped(x.packet), coin);
    HoppedFate(s, ph, x.packet);
    SwitchKeepsFate(s, ph, n, st, Hopped(x.packet), coin);
    SwitchKeepsFit(s, ph, n, st, x.packet, coin, next);
    if FollowMeOk(s) {
      SwitchKeepsPlace(s, ph, n, st, x.packet, coin, next);
    }
    DecrementedFate(s, ph, o.packet);
  }

  lemma {:induction false} AfterSwitchLetters(s: Setup, ph: Phase, n: Node, st: State, p: Packet, coin: bool,
                                              ls: seq<Letter>, next: Node)
    requires Network.Valid(s) && Switch(s.t, n) && Fate(s, ph, p) && CacheRight(s, ph, n, st)
    requires LettersRight(s, ph, ls)
    requires var o := Receive(ConfigOf(s, n), st, p, coin); o.sent.Some? ==> IsNext(s, n, o.sent.value.dst, next)
    ensures var o := Receive(ConfigOf(s, n), st, p, coin);
            LettersRight(s, ph, WithLetter(s, n, ls, o.sent, next))
  {
    var o := Receive(ConfigOf(s, n), st, p, coin);
    if o.sent.Some? {
      FirstLetterRight(s, ph, n, st, p, coin, next);
      LetterAdded(s, ph, ls, FirstLetter(s, n, o.sent.value, next));
    }
  }

  /** Any outcome that is right in its parts gives a right world. */
  lemma {:induction false} WorldAfterInv(s: Setup, w: World, i: nat, n: Node, o: Outcome, next: Node, letterNext: Node)
    requires Network.Valid(s) && Inv(s, w) && i < |w.parcels| && n in w.switches
    requires SwitchRight(s, PhaseOf(w), n, o.state) && !o.fault
    requires ParcelRight(s, PhaseOf(w), Parcel(Decremented(o.packet), Forwarded(s, n, o.packet, next)))
    requires LettersRight(s, PhaseOf(w), WithLetter(s, n, w.letters, o.sent, letterNext))
    requires forall k :: Marked(w.switches[n].bloom, k) ==> Marked(o.state.bloom, k)
    requires o.generated.Some? && s.bloomEnabled ==>
               !Marked(w.switches[n].bloom, o.generated.value) && Marked(o.state.bloom, o.generated.value)
    ensures Inv(s, WorldAfter(s, w, i, n, o, next, letterNext))
  {
    SwitchUpdated(s, PhaseOf(w), w.switches, n, o.state);
    ParcelUpdated(s, PhaseOf(w), w.parcels, i, Parcel(Decremented(o.packet), Forwarded(s, n, o.packet, next)));
    LogStep(s, w.switches, w.generated, n, o.state, o.generated);
    InvFromParts(s, w, WorldAfter(s, w, i, n, o, next, letterNext));
  }

  lemma {:induction false} AfterSwitchInv(s: Setup, w: World, i: nat, coin: bool, next: Node, letterNext: Node)
    requires Network.Valid(s) && Inv(s, w) && Enabled(s, w, AtSwitch(i, coin, next, letterNext))
    ensures Inv(s, AfterSwitch(s, w, i, coin, next, letterNext))
  {
    var x := w.parcels[i];
    var n, st := x.place.at, w.switches[x.place.at];
    assert ParcelRight(s, PhaseOf(w), x) && SwitchRight(s, PhaseOf(w), n, st);
    AtSwitchState(s, PhaseOf(w), n, st, x, coin);
    AtSwitchParcel(s, PhaseOf(w), n, st, x, coin, next);
    MarksGrow(s, n, st, Hopped(x.packet), coin);
    HoppedFate(s, PhaseOf(w), x.packet);
    AfterSwitchLetters(s, PhaseOf(w), n, st, Hopped(x.packet), coin, w.letters, letterNext);
    WorldAfterInv(s, w, i, n, OutcomeAt(s, w, i, coin), next, letterNext);
  }

  /** The invariant from its parts, when directory and migration are untouched. */
  lemma {:induction false} InvFromParts(s: Setup, w: World, w': World)
    requires Network.Valid(s) && DirectoryRight(s, w)
    requires w'.migrated == w.migrated && w'.tainted == w.tainted && w'.directory == w.directory && w'.faults == 0
    requires SwitchesRight(s, PhaseOf(w), w'.switches) && ParcelsRight(s, PhaseOf(w), w'.parcels)
    requires LettersRight(s, PhaseOf(w), w'.letters) && LogRight(s, w'.switches, w'.generated)
    ensures Inv(s, w')
  {
  }

  // ---------------------------------------------------------------- the other steps

  /** A step that changes one parcel only. */
  lemma {:induction false} OneParcelInv(s: Setup, w: World, i: nat, x: Parcel)
    requires Network.Valid(s) && Inv(s, w) && i < |w.parcels| && ParcelRight(s, PhaseOf(w), x)
    ensures Inv(s, w.(parcels := w.parcels[i := x]))
  {
    ParcelUpdated(s, PhaseOf(w), w.parcels, i, x);
    InvFromParts(s, w, w.(parcels := w.parcels[i := x]));
  }

  lemma {:induction false} SendInv(s: Setup, w: World, h: Node, vsrc: Addr, vdst: Addr, g: Addr)
    requires Network.Valid(s) && Inv(s, w) && Enabled(s, w, Send(h, vsrc, vdst, g))
    ensures Inv(s, Network.Next(s, w, Send(h, vsrc, vdst, g)))
  {
    FreshRight(s, PhaseOf(w), h, vsrc, vdst, g);
    ParcelAdded(s, PhaseOf(w), w.parcels, Parcel(Fresh(vsrc, vdst, AddressOf(s.t.podCount, h), g),
                                                 Arriving(Leaf(h.pod, h.off))));
    InvFromParts(s, w, Network.Next(s, w, Send(h, vsrc, vdst, g)));
  }

  lemma {:induction false} HostReceiveInv(s: Setup, w: World, i: nat, g: Addr)
    requires Network.Valid(s) && Inv(s, w) && Enabled(s, w, HostReceive(i, g))
    ensures Inv(s, AfterHost(s, w, i, g))
  {
    var x := w.parcels[i];
    var a := AddressOf(s.t.podCount, x.place.at);
    assert ParcelRight(s, PhaseOf(w), x);
    if w.directory[x.packet.vdst] == a {
      DeliveredRight(s, PhaseOf(w), x);
      OneParcelInv(s, w, i, Parcel(x.packet, Delivered(x.place.at)));
    } else {
      MisdeliveredIsStale(s, w, x);
      ReturnedRight(s, w, x, g);
      OneParcelInv(s, w, i, Parcel(Returned(x.packet, a, g, s.migration.value.followMe), AtHost(x.place.at)));
    }
  }

  lemma {:induction false} DeliveredRight(s: Setup, ph: Phase, x: Parcel)
    requires Network.Valid(s) && ParcelRight(s, ph, x) && AtItsMachine(s, x) && x.packet.pdst !in s.gws
    ensures ParcelRight(s, ph, Parcel(x.packet, Delivered(x.place.at)))
  {
  }

  lemma {:induction false} MovedLetterRight(s: Setup, ph: Phase, l: Letter, n: Node, next: Node)
    requires Network.Valid(s) && Switch(s.t, n) && LetterRight(s, ph, l) && l.at == Some(n)
    requires IsNext(s, n, l.message.dst, next) && l.message.dst != AddressOf(s.t.podCount, n)
    ensures NextHops(s.t, n, l.message.dst) != Nil
    ensures LetterRight(s, ph, Letter(l.message, Some(next), l.sends + 1))
  {
    var target :| Heading(s, l, n, target);
    OtherAddress(s, n, target);
    SendKeepsHeading(s, n, l.message, l.sends, target, next);
    HeadingIsRight(s, ph, Letter(l.message, Some(next), l.sends + 1), next, target);
  }

  lemma {:induction false} HeadingIsRight(s: Setup, ph: Phase, l: Letter, n: Node, target: Node)
    requires Network.Valid(s) && ContentRight(s, ph, l.message) && l.at == Some(n) && Heading(s, l, n, target)
    ensures LetterRight(s, ph, l)
  {
  }

  lemma {:induction false} LetterStateRight(s: Setup, ph: Phase, n: Node, st: State, m: Message)
    requires Network.Valid(s) && SwitchRight(s, ph, n, st) && ContentRight(s, ph, m)
    ensures SwitchRight(s, ph, n, HandleMessage(ConfigOf(s, n), st, m).0)
    ensures HandleMessage(ConfigOf(s, n), st, m).0.bloom == st.bloom
  {
    MessageInventsNothing(ConfigOf(s, n), st, m, Allowed(s, ph));
  }

  lemma {:induction false} ProcessedLetterRight(s: Setup, ph: Phase, l: Letter, n: Node, forward: bool, next: Node)
    requires Network.Valid(s) && Switch(s.t, n) && LetterRight(s, ph, l) && l.at == Some(n)
    requires IsNext(s, n, l.message.dst, next) && forward == (l.message.dst != AddressOf(s.t.podCount, n))
    ensures LetterRight(s, ph, LetterAfter(s, n, l, forward, next))
  {
    if forward {
      MovedLetterRight(s, ph, l, n, next);
      assert LetterAfter(s, n, l, forward, next) == Letter(l.message, Some(next), l.sends + 1);
    } else {
      StoppedLetterRight(s, ph, l);
    }
  }

  lemma {:induction false} StoppedLetterRight(s: Setup, ph: Phase, l: Letter)
    requires Network.Valid(s) && LetterRight(s, ph, l)
    ensures LetterRight(s, ph, Letter(l.message, None, l.sends))
  {
  }

  /** A step that changes one switch, but not its filter, and one letter. */
  lemma {:induction false} OneLetterInv(s: Setup, w: World, n: Node, st: State, j: nat, l: Letter, w': World)
    requires Network.Valid(s) && Inv(s, w) && n in w.switches && j < |w.letters|
    requires SwitchRight(s, PhaseOf(w), n, st) && st.bloom == w.switches[n].bloom && LetterRight(s, PhaseOf(w), l)
    requires w' == w.(switches := w.switches[n := st], letters := w.letters[j := l])
    ensures Inv(s, w')
  {
    SwitchUpdated(s, PhaseOf(w), w.switches, n, st);
    LogStep(s, w.switches, w.generated, n, st, None);
    LetterUpdated(s, PhaseOf(w), w.letters, j, l);
    InvFromParts(s, w, w');
  }

  /** The switch and the letter of a letter step. */
  lemma {:induction false} LetterStepRight(s: Setup, ph: Phase, l: Letter, n: Node, st: State, next: Node)
    requires Network.Valid(s) && Switch(s.t, n) && SwitchRight(s, ph, n, st) && LetterRight(s, ph, l) && l.at == Some(n)
    requires IsNext(s, n, l.message.dst, next)
    ensures var (state, forward) := HandleMessage(ConfigOf(s, n), st, l.message);
            && SwitchRight(s, ph, n, state) && state.bloom == st.bloom
            && LetterRight(s, ph, LetterAfter(s, n, l, forward, next))
  {
    LetterStateRight(s, ph, n, st, l.message);
    ProcessedLetterRight(s, ph, l, n, l.message.dst != AddressOf(s.t.podCount, n), next);
  }

  lemma {:induction false} LetterInv(s: Setup, w: World, j: nat, next: Node, w': World)
    requires Network.Valid(s) && Inv(s, w) && Enabled(s, w, LetterAtSwitch(j, next)) && w' == AfterLetter(s, w, j, next)
    ensures Inv(s, w')
  {
    var l := w.letters[j];
    var n := l.at.value;
    assert LetterRight(s, PhaseOf(w), l) && SwitchRight(s, PhaseOf(w), n, w.switches[n]);
    LetterStepRight(s, PhaseOf(w), l, n, w.switches[n], next);
    var (state, forward) := HandleMessage(ConfigOf(s, n), w.switches[n], l.message);
    OneLetterInv(s, w, n, state, j, LetterAfter(s, n, l, forward, next), w');
  }

  /** A later phase allows all that an earlier one does. */
  predicate Later(ph: Phase, ph': Phase) {
    (ph.migrated ==> ph'.migrated) && ph.tainted <= ph'.tainted
  }

  lemma {:induction false} LaterKeepsCache(s: Setup, ph: Phase, ph': Phase, n: Node, st: State)
    requires Later(ph, ph') && SwitchRight(s, ph, n, st)
    ensures SwitchRight(s, ph', n, st)
  {
    var h, c := s.hashes(n), st.cache;
    forall i | 0 <= i < |c| ensures SlotOk(h, |c|, c[i], i, Allowed(s, ph')) {
      assert SlotOk(h, |c|, c[i], i, Allowed(s, ph));
    }
  }

  lemma {:induction false} LaterKeepsParcel(s: Setup, ph: Phase, ph': Phase, x: Parcel)
    requires Network.Valid(s) && Later(ph, ph') && ParcelRight(s, ph, x)
    ensures ParcelRight(s, ph', x)
  {
    LaterKeepsFate(s, ph, ph', x.packet);
  }

  lemma {:induction false} LaterKeepsFate(s: Setup, ph: Phase, ph': Phase, p: Packet)
    requires Network.Valid(s) && Later(ph, ph') && Fate(s, ph, p)
    ensures Fate(s, ph', p)
  {
  }

  lemma {:induction false} LaterKeepsLetter(s: Setup, ph: Phase, ph': Phase, l: Letter)
    requires Network.Valid(s) && Later(ph, ph') && LetterRight(s, ph, l)
    ensures LetterRight(s, ph', l)
  {
  }

  /** Moving on to a later phase changes nothing else. */
  lemma {:induction false} LaterInv(s: Setup, w: World, ph: Phase)
    requires Network.Valid(s) && Inv(s, w) && Later(PhaseOf(w), ph)
    ensures SwitchesRight(s, ph, w.switches) && ParcelsRight(s, ph, w.parcels) && LettersRight(s, ph, w.letters)
  {
    forall n | n in w.switches ensures SwitchRight(s, ph, n, w.switches[n]) {
      LaterKeepsCache(s, PhaseOf(w), ph, n, w.switches[n]);
    }
    forall i | 0 <= i < |w.parcels| ensures ParcelRight(s, ph, w.parcels[i]) {
      LaterKeepsParcel(s, PhaseOf(w), ph, w.parcels[i]);
    }
    forall j | 0 <= j < |w.letters| ensures LetterRight(s, ph, w.letters[j]) {
      LaterKeepsLetter(s, PhaseOf(w), ph, w.letters[j]);
    }
  }

  lemma {:induction false} MigrateInv(s: Setup, w: World)
    requires Network.Valid(s) && Inv(s, w) && Enabled(s, w, Migrate)
    ensures Inv(s, Network.Next(s, w, Migrate))
  {
    LaterInv(s, w, Phase(true, w.tainted));
  }

  /** The world in which one more sender is tainted. */
  lemma {:induction false} TaintInv(s: Setup, w: World, tainted: set<Addr>)
    requires Network.Valid(s) && Inv(s, w) && w.tainted <= tainted
    ensures Inv(s, w.(tainted := tainted))
  {
    LaterInv(s, w, Phase(w.migrated, tainted));
  }

  lemma {:induction false} GatewaySendInv(s: Setup, w: World, i: nat)
    requires Network.Valid(s) && Inv(s, w) && Enabled(s, w, GatewaySend(i))
    ensures Inv(s, Network.Next(s, w, GatewaySend(i)))
  {
    var x := w.parcels[i];
    var w' := w.(tainted := Tainted(w, x.packet));
    TaintInv(s, w, Tainted(w, x.packet));
    assert ParcelRight(s, PhaseOf(w'), w'.parcels[i]);
    GatewaySendRight(s, PhaseOf(w'), x);
    OneParcelInv(s, w', i, Parcel(Stripped(x.packet), SentBy(x.place.host)));
  }

  lemma {:induction false} LossInv(s: Setup, w: World, i: nat)
    requires Network.Valid(s) && Inv(s, w) && i < |w.parcels|
    ensures Inv(s, w.(parcels := w.parcels[i := Parcel(w.parcels[i].packet, Gone)]))
  {
    assert ParcelRight(s, PhaseOf(w), w.parcels[i]);
    OneParcelInv(s, w, i, Parcel(w.parcels[i].packet, Gone));
  }

  lemma {:induction false} LetterLossInv(s: Setup, w: World, j: nat)
    requires Network.Valid(s) && Inv(s, w) && j < |w.letters|
    ensures Inv(s, w.(letters := w.letters[j := w.letters[j].(at := None)]))
  {
    assert LetterRight(s, PhaseOf(w), w.letters[j]);
    LetterUpdated(s, PhaseOf(w), w.letters, j, w.letters[j].(at := None));
    InvFromParts(s, w, w.(letters := w.letters[j := w.letters[j].(at := None)]));
  }

  lemma {:induction false} GatewayInv(s: Setup, w: World, step: Step)
    requires Network.Valid(s) && Inv(s, w) && Enabled(s, w, step)
    requires step.GatewayReceive? || step.HostSend?
    ensures Inv(s, Network.Next(s, w, step))
  {
    var x := w.parcels[step.i];
    assert ParcelRight(s, PhaseOf(w), x);
    match step
    case GatewayReceive(i) =>
      GatewayReceiveRight(s, w, x);
      OneParcelInv(s, w, i, Parcel(Resolved(w.directory, x.packet), AtGateway(x.place.at)));
    case HostSend(i) =>
      HostSendRight(s, PhaseOf(w), x);
      OneParcelInv(s, w, i, Parcel(x.packet, SentBy(x.place.host)));
  }

  /** Every step keeps the invariant. */
  lemma {:induction false} StepInv(s: Setup, w: World, step: Step)
    requires Network.Valid(s) && Inv(s, w) && Enabled(s, w, step)
    ensures Inv(s, Network.Next(s, w, step))
  {
    match step
    case Send(h, vsrc, vdst, g) => SendInv(s, w, h, vsrc, vdst, g);
    case AtSwitch(i, coin, next, letterNext) => AfterSwitchInv(s, w, i, coin, next, letterNext);
    case GatewayReceive(_) => GatewayInv(s, w, step);
    case GatewaySend(i) => GatewaySendInv(s, w, i);
    case HostReceive(i, g) => HostReceiveInv(s, w, i, g);
    case HostSend(_) => GatewayInv(s, w, step);
    case LetterAtSwitch(j, next) => LetterInv(s, w, j, next, AfterLetter(s, w, j, next));
    case Migrate => MigrateInv(s, w);
    case LosePacket(i) => LossInv(s, w, i);
    case LoseLetter(j) => LetterLossInv(s, w, j);
  }

  /** Every world of every run satisfies the invariant. */
  lemma {:induction false} RunInv(s: Setup, ws: seq<World>, steps: seq<Step>, k: nat)
    requires Network.Valid(s) && Run(s, ws, steps) && k < |ws|
    ensures Inv(s, ws[k])
  {
    if k == 0 {
      InitialInv(s, ws[0]);
    } else {
      RunInv(s, ws, steps, k - 1);
      StepInv(s, ws[k - 1], steps[k - 1]);
    }
  }
}
