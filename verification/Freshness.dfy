/** Once the stale mapping of a moved container is gone, it stays gone. */
module Freshness {
  import opened Addressing
  import opened CacheSpec
  import opened SwitchSpec
  import opened SwitchProperties
  import opened Endpoints
  import opened Network
  import opened Invariants
  import opened Preservation

  // ---------------------------------------------------------------- nothing recreates the stale mapping

  /** Runs with a migration and without source learning; with it, a leaf can learn the old mapping
      anew from a packet of the moved container's own programs on the old machine. */
  predicate Moves(s: Setup) {
    s.migration.Some? && !s.sourceLearning
  }

  predicate UnderWay(x: Parcel) {
    !x.place.Delivered? && !x.place.Gone?
  }

  ghost predicate CacheClean(s: Setup, n: Node, st: State)
    requires Network.Valid(s) && Moves(s)
  {
    !Holds(s.hashes(n), st.cache, StaleMapping(s))
  }

  ghost predicate PacketClean(s: Setup, p: Packet)
    requires Network.Valid(s) && Moves(s)
  {
    p.evict != Some(StaleMapping(s)) && Mapping(p.vdst, p.pdst) != StaleMapping(s)
  }

  ghost predicate LetterClean(s: Setup, l: Letter)
    requires Network.Valid(s) && Moves(s)
  {
    l.at.Some? && l.message.Learning? ==> l.message.pair != StaleMapping(s)
  }

  /** After the move, no cache, no eviction tag, no destination of a packet under way (a pending
      gateway send included) and no learning message holds the stale mapping. */
  ghost predicate Clean(s: Setup, w: World)
    requires Network.Valid(s) && Moves(s)
  {
    && w.migrated
    && (forall n :: n in w.switches ==> CacheClean(s, n, w.switches[n]))
    && (forall i :: 0 <= i < |w.parcels| && UnderWay(w.parcels[i]) ==> PacketClean(s, w.parcels[i].packet))
    && (forall j :: 0 <= j < |w.letters| ==> LetterClean(s, w.letters[j]))
  }

  ghost function Current(s: Setup): iset<Mapping>
    requires Network.Valid(s) && Moves(s)
  {
    iset m | Tolerable(s, true, m) && m != StaleMapping(s)
  }

  lemma {:induction false} CurrentSound(s: Setup)
    requires Network.Valid(s) && Moves(s)
    ensures Sound(Current(s))
  {
    forall m | m in Current(s) ensures m.val != 0 {
      AllowedIsHost(s, Phase(true, {}), m);
    }
  }

  lemma {:induction false} CleanCacheIsCurrent(s: Setup, ph: Phase, n: Node, st: State)
    requires Network.Valid(s) && Moves(s) && ph.migrated && CacheRight(s, ph, n, st) && CacheClean(s, n, st)
    ensures SlotsOk(s.hashes(n), st.cache, Current(s))
  {
    var h, c := s.hashes(n), st.cache;
    forall i | 0 <= i < |c| ensures SlotOk(h, |c|, c[i], i, Current(s)) {
      assert SlotOk(h, |c|, c[i], i, Allowed(s, ph));
      AllowedIsHost(s, ph, StaleMapping(s));
      StoredIsHeld(h, c, i);
    }
  }

  lemma {:induction false} StoredIsHeld(h: Hash, c: Slots, i: nat)
    requires i < |c|
    ensures CacheSpec.Place(h, |c|, c[i].key) == i && c[i].val != 0 ==> Holds(h, c, Mapping(c[i].key, c[i].val))
  {
  }

  lemma {:induction false} CurrentCacheIsClean(s: Setup, n: Node, st: State)
    requires Network.Valid(s) && Moves(s) && SlotsOk(s.hashes(n), st.cache, Current(s))
    ensures CacheClean(s, n, st)
  {
    LookupOk(s.hashes(n), st.cache, StaleMapping(s).key, Current(s));
  }

  lemma {:induction false} CleanPacketIsCurrent(s: Setup, ph: Phase, n: Node, p: Packet)
    requires Network.Valid(s) && Moves(s) && ph.migrated && Fate(s, ph, p) && PacketClean(s, p)
    ensures PacketOk(ConfigOf(s, n), p, Current(s))
  {
  }

  /** A clean switch and a clean packet stay clean. */
  lemma {:induction false} SwitchStaysClean(s: Setup, ph: Phase, n: Node, st: State, p: Packet, coin: bool)
    requires Network.Valid(s) && Moves(s) && ph.migrated
    requires CacheRight(s, ph, n, st) && Fate(s, ph, p) && CacheClean(s, n, st) && PacketClean(s, p)
    ensures var o := Receive(ConfigOf(s, n), st, p, coin);
            && CacheClean(s, n, o.state) && PacketClean(s, o.packet)
            && (o.sent.Some? && o.sent.value.Learning? ==> o.sent.value.pair != StaleMapping(s))
  {
    var o := Receive(ConfigOf(s, n), st, p, coin);
    CurrentSound(s);
    CleanCacheIsCurrent(s, ph, n, st);
    CleanPacketIsCurrent(s, ph, n, p);
    ReceiveInventsNothing(ConfigOf(s, n), st, p, coin, Current(s));
    assert OutcomeOk(ConfigOf(s, n), p, o, Current(s));
    CurrentCacheIsClean(s, n, o.state);
    ReceiveFrame(ConfigOf(s, n), st, p, coin);
  }

  lemma {:induction false} LetterStaysClean(s: Setup, ph: Phase, n: Node, st: State, m: Message)
    requires Network.Valid(s) && Moves(s) && ph.migrated && CacheRight(s, ph, n, st) && CacheClean(s, n, st)
    requires ContentRight(s, ph, m) && (m.Learning? ==> m.pair != StaleMapping(s))
    ensures CacheClean(s, n, HandleMessage(ConfigOf(s, n), st, m).0)
  {
    CleanCacheIsCurrent(s, ph, n, st);
    MessageInventsNothing(ConfigOf(s, n), st, m, Current(s));
    CurrentCacheIsClean(s, n, HandleMessage(ConfigOf(s, n), st, m).0);
  }

  /** The outcome at a switch of a clean world is clean. */
  lemma {:induction false} OutcomeClean(s: Setup, w: World, i: nat, coin: bool, o: Outcome)
    requires Network.Valid(s) && Moves(s) && Inv(s, w) && Clean(s, w)
    requires i < |w.parcels| && w.parcels[i].place.Arriving? && w.parcels[i].place.at in w.switches
    requires o == OutcomeAt(s, w, i, coin)
    ensures CacheClean(s, w.parcels[i].place.at, o.state) && PacketClean(s, o.packet)
    ensures o.sent.Some? && o.sent.value.Learning? ==> o.sent.value.pair != StaleMapping(s)
  {
    var x := w.parcels[i];
    var n, st := x.place.at, w.switches[x.place.at];
    assert ParcelRight(s, PhaseOf(w), x) && SwitchRight(s, PhaseOf(w), n, st);
    assert UnderWay(x) && PacketClean(s, x.packet);
    HoppedFate(s, PhaseOf(w), x.packet);
    SwitchStaysClean(s, PhaseOf(w), n, st, Hopped(x.packet), coin);
  }

  lemma {:induction false} AtSwitchClean(s: Setup, w: World, step: Step, w': World)
    requires Network.Valid(s) && Moves(s) && Inv(s, w) && Clean(s, w) && step.AtSwitch? && Enabled(s, w, step)
    requires w' == AfterSwitch(s, w, step.i, step.coin, step.next, step.letterNext)
    ensures Clean(s, w')
  {
    var o := OutcomeAt(s, w, step.i, step.coin);
    OutcomeClean(s, w, step.i, step.coin, o);
    WorldAfterClean(s, w, step.i, w.parcels[step.i].place.at, o, step.next, step.letterNext, w');
  }

  lemma {:induction false} WorldAfterClean(s: Setup, w: World, i: nat, n: Node, o: Outcome, next: Node,
                                           letterNext: Node, w': World)
    requires Network.Valid(s) && Moves(s) && Clean(s, w) && i < |w.parcels|
    requires CacheClean(s, n, o.state) && PacketClean(s, o.packet)
    requires o.sent.Some? && o.sent.value.Learning? ==> o.sent.value.pair != StaleMapping(s)
    requires w' == WorldAfter(s, w, i, n, o, next, letterNext)
    ensures Clean(s, w')
  {
    assert PacketClean(s, Decremented(o.packet));
    forall j | 0 <= j < |w'.letters| ensures LetterClean(s, w'.letters[j]) {
      if j < |w.letters| {
        assert LetterClean(s, w.letters[j]);
      }
    }
  }

  lemma {:induction false} AfterLetterClean(s: Setup, w: World, j: nat, next: Node, w': World)
    requires Network.Valid(s) && Moves(s) && Inv(s, w) && Clean(s, w) && Enabled(s, w, LetterAtSwitch(j, next))
    requires w' == AfterLetter(s, w, j, next)
    ensures Clean(s, w')
  {
    var l := w.letters[j];
    var n := l.at.value;
    assert LetterRight(s, PhaseOf(w), l) && SwitchRight(s, PhaseOf(w), n, w.switches[n]) && LetterClean(s, l);
    LetterStaysClean(s, PhaseOf(w), n, w.switches[n], l.message);
    var (state, forward) := HandleMessage(ConfigOf(s, n), w.switches[n], l.message);
    OneLetterClean(s, w, n, state, j, LetterAfter(s, n, l, forward, next), w');
  }

  lemma {:induction false} OneLetterClean(s: Setup, w: World, n: Node, st: State, j: nat, l: Letter, w': World)
    requires Network.Valid(s) && Moves(s) && Clean(s, w) && j < |w.letters|
    requires CacheClean(s, n, st) && LetterClean(s, l)
    requires w' == w.(switches := w.switches[n := st], letters := w.letters[j := l])
    ensures Clean(s, w')
  {
    forall q | 0 <= q < |w'.letters| ensures LetterClean(s, w'.letters[q]) {
      assert LetterClean(s, w.letters[q]);
    }
  }

  /** A step at a machine changes one packet, and only to a clean one. */
  lemma {:induction false} MachineClean(s: Setup, w: World, i: nat, x: Parcel)
    requires Network.Valid(s) && Moves(s) && Clean(s, w) && i < |w.parcels|
    requires UnderWay(x) ==> PacketClean(s, x.packet)
    ensures Clean(s, w.(parcels := w.parcels[i := x]))
  {
  }

  lemma {:induction false} GatewayClean(s: Setup, w: World, step: Step)
    requires Network.Valid(s) && Moves(s) && DirectoryRight(s, w) && Clean(s, w) && Enabled(s, w, step)
    requires step.GatewayReceive? || step.GatewaySend? || step.HostSend?
    ensures Clean(s, Network.Next(s, w, step))
  {
    var x := w.parcels[step.i];
    if step.GatewayReceive? {
      MachineClean(s, w, step.i, Parcel(Resolved(w.directory, x.packet), AtGateway(x.place.at)));
    } else if step.GatewaySend? {
      MachineClean(s, w, step.i, Parcel(Stripped(x.packet), SentBy(x.place.host)));
    } else {
      MachineClean(s, w, step.i, Parcel(x.packet, SentBy(x.place.host)));
    }
  }

  lemma {:induction false} StepClean(s: Setup, w: World, step: Step)
    requires Network.Valid(s) && Moves(s) && Inv(s, w) && Clean(s, w) && Enabled(s, w, step)
    ensures Clean(s, Network.Next(s, w, step))
  {
    match step
    case Send(_, _, _, _) => SendClean(s, w, step);
    case AtSwitch(i, coin, next, letterNext) =>
      AtSwitchClean(s, w, step, AfterSwitch(s, w, i, coin, next, letterNext));
    case GatewayReceive(_) => GatewayClean(s, w, step);
    case GatewaySend(_) => GatewayClean(s, w, step);
    case HostReceive(i, g) => HostReceiveClean(s, w, i, g);
    case HostSend(_) => GatewayClean(s, w, step);
    case LetterAtSwitch(j, next) => AfterLetterClean(s, w, j, next, AfterLetter(s, w, j, next));
    case Migrate =>
    case LosePacket(i) => MachineClean(s, w, i, Parcel(w.parcels[i].packet, Gone));
    case LoseLetter(j) => LoseLetterClean(s, w, j);
  }

  lemma {:induction false} LoseLetterClean(s: Setup, w: World, j: nat)
    requires Network.Valid(s) && Moves(s) && Clean(s, w) && j < |w.letters|
    ensures Clean(s, w.(letters := w.letters[j := w.letters[j].(at := None)]))
  {
    var w' := w.(letters := w.letters[j := w.letters[j].(at := None)]);
    forall q | 0 <= q < |w'.letters| ensures LetterClean(s, w'.letters[q]) {
      assert LetterClean(s, w.letters[q]);
    }
  }

  lemma {:induction false} SendClean(s: Setup, w: World, step: Step)
    requires Network.Valid(s) && Moves(s) && Clean(s, w) && step.Send? && Enabled(s, w, step)
    ensures Clean(s, Network.Next(s, w, step))
  {
    var w' := Network.Next(s, w, step);
    forall i | 0 <= i < |w'.parcels| && UnderWay(w'.parcels[i]) ensures PacketClean(s, w'.parcels[i].packet) {
      if i < |w.parcels| {
        assert w'.parcels[i] == w.parcels[i];
      }
    }
  }

  lemma {:induction false} HostReceiveClean(s: Setup, w: World, i: nat, g: Addr)
    requires Network.Valid(s) && Moves(s) && Inv(s, w) && Clean(s, w) && Enabled(s, w, HostReceive(i, g))
    ensures Clean(s, AfterHost(s, w, i, g))
  {
    var x := w.parcels[i];
    var a := AddressOf(s.t.podCount, x.place.at);
    assert ParcelRight(s, PhaseOf(w), x) && UnderWay(x) && PacketClean(s, x.packet);
    if w.directory[x.packet.vdst] == a {
      MachineClean(s, w, i, Parcel(x.packet, Delivered(x.place.at)));
    } else {
      MisdeliveredIsStale(s, w, x);
      assert false;
    }
  }

  lemma {:induction false} NextClean(s: Setup, w: World, step: Step, w': World)
    requires Network.Valid(s) && Moves(s) && Inv(s, w) && Clean(s, w) && Enabled(s, w, step)
    requires w' == Network.Next(s, w, step)
    ensures Clean(s, w')
  {
    StepClean(s, w, step);
  }

  /** One step of a run, taken out of it. */
  lemma {:induction false} RunClean(s: Setup, ws: seq<World>, steps: seq<Step>, k: nat)
    requires Network.Valid(s) && Moves(s) && Run(s, ws, steps) && k < |steps| && Clean(s, ws[k])
    ensures Clean(s, ws[k + 1])
  {
    RunInv(s, ws, steps, k);
    NextClean(s, ws[k], steps[k], ws[k + 1]);
  }

  /** Staleness dies out for good: once no cache, tag, packet under way or message holds the old
      mapping of the moved container, no later step of the run brings it back. */
  lemma {:induction false} StaleMappingNeverReturns(s: Setup, ws: seq<World>, steps: seq<Step>, k: nat, later: nat)
    requires Network.Valid(s) && Moves(s) && Run(s, ws, steps) && k <= later < |ws|
    requires Clean(s, ws[k])
    ensures Clean(s, ws[later])
  {
    for j := k to later
      invariant Clean(s, ws[j])
    {
      RunClean(s, ws, steps, j);
    }
  }
}
