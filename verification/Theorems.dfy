/** The guarantees of the whole system, for every topology, every run and every world in it. */
module Theorems {
  import opened Addressing
  import opened Lists
  import opened Topology
  import opened Forwarding
  import opened Walks
  import opened CacheSpec
  import opened SwitchSpec
  import opened SwitchProperties
  import opened Network
  import opened Invariants
  import opened Places
  import opened Preservation

  // ---------------------------------------------------------------- runs without migration

  /** A mapping the directory confirms. */
  predicate True(w: World, m: Mapping) {
    m.key in w.directory && w.directory[m.key] == m.val
  }

  /** Coherence: while nothing migrates, with source learning on or off, every cache entry, every
      eviction tag, every learning message and every host a packet is bound to is what the
      gateways' directory says, and no invalidation exists. */
  lemma {:induction false} Coherence(s: Setup, ws: seq<World>, steps: seq<Step>, k: nat)
    requires Network.Valid(s) && s.migration.None? && Run(s, ws, steps) && k < |ws|
    ensures var w := ws[k];
            && w.directory == s.home
            && (forall n, m :: n in w.switches && Holds(s.hashes(n), w.switches[n].cache, m) ==> True(w, m))
            && (forall i :: 0 <= i < |w.parcels| ==>
                  var p := w.parcels[i].packet;
                  && (p.evict.Some? ==> True(w, p.evict.value))
                  && (p.pdst in s.gws || True(w, Mapping(p.vdst, p.pdst)))
                  && p.inval.None?)
            && (forall j :: 0 <= j < |w.letters| ==>
                  w.letters[j].message.Learning? && True(w, w.letters[j].message.pair))
  {
    RunInv(s, ws, steps, k);
    var w := ws[k];
    forall n, m | n in w.switches && Holds(s.hashes(n), w.switches[n].cache, m) ensures True(w, m) {
      assert SwitchRight(s, PhaseOf(w), n, w.switches[n]);
      LookupOk(s.hashes(n), w.switches[n].cache, m.key, Allowed(s, PhaseOf(w)));
    }
    forall i | 0 <= i < |w.parcels|
      ensures var p := w.parcels[i].packet;
              && (p.evict.Some? ==> True(w, p.evict.value))
              && (p.pdst in s.gws || True(w, Mapping(p.vdst, p.pdst)))
              && p.inval.None?
    {
      assert ParcelRight(s, PhaseOf(w), w.parcels[i]);
    }
    forall j | 0 <= j < |w.letters|
      ensures w.letters[j].message.Learning? && True(w, w.letters[j].message.pair)
    {
      assert LetterRight(s, PhaseOf(w), w.letters[j]);
    }
  }

  /** End to end: while nothing migrates, a delivered packet is at the host the directory names,
      was never misdelivered, saw at most one gateway, and passed at most ten switches. */
  lemma {:induction false} DeliveryIsRightAndShort(s: Setup, ws: seq<World>, steps: seq<Step>, k: nat, i: nat)
    requires Network.Valid(s) && s.migration.None? && Run(s, ws, steps) && k < |ws| && i < |ws[k].parcels|
    requires ws[k].parcels[i].place.Delivered?
    ensures var w, p, h := ws[k], ws[k].parcels[i].packet, ws[k].parcels[i].place.host;
            && h.Host? && s.t.Has(h) && p.vdst in w.directory && w.directory[p.vdst] == AddressOf(s.t.podCount, h)
            && p.misdelivered == 0 && p.gwVisits <= 1 && p.hops <= 10
  {
    RunInv(s, ws, steps, k);
    var w, x := ws[k], ws[k].parcels[i];
    assert ParcelRight(s, PhaseOf(w), x);
    assert Possible(s, PhaseOf(w), Mapping(x.packet.vdst, x.packet.pdst));
  }

  // ---------------------------------------------------------------- every run

  /** The network itself never drops a packet: at every switch there is a route for whatever
      destination the switch decides on, and the TTL has not run out. */
  lemma {:induction false} SwitchesNeverDrop(s: Setup, ws: seq<World>, steps: seq<Step>, k: nat)
    requires Network.Valid(s) && FollowMeOk(s) && Run(s, ws, steps) && k < |steps| && steps[k].AtSwitch?
    ensures ws[k + 1].parcels[steps[k].i].place == Arriving(steps[k].next)
    ensures ws[k + 1].parcels[steps[k].i].packet.ttl >= 54
  {
    RunInv(s, ws, steps, k);
    StepNeverDrops(s, ws[k], steps[k], ws[k + 1]);
  }

  lemma {:induction false} StepNeverDrops(s: Setup, w: World, step: Step, w': World)
    requires Network.Valid(s) && FollowMeOk(s) && Inv(s, w) && step.AtSwitch? && Enabled(s, w, step)
    requires w' == Network.Next(s, w, step)
    ensures w'.parcels[step.i].place == Arriving(step.next) && w'.parcels[step.i].packet.ttl >= 54
  {
    var x := w.parcels[step.i];
    assert ParcelRight(s, PhaseOf(w), x) && SwitchRight(s, PhaseOf(w), x.place.at, w.switches[x.place.at]);
    HoppedFate(s, PhaseOf(w), x.packet);
    SwitchKeepsPlace(s, PhaseOf(w), x.place.at, w.switches[x.place.at], x.packet, step.coin, step.next);
  }

  /** Tag discipline: no assertion of the simulator ever fires, a gateway-bound packet with a hit
      tag has an invalidation tag, and eviction tags carry nonzero values, so the branch for an
      obsolete (0, 0) tag is dead. */
  lemma {:induction false} TagDiscipline(s: Setup, ws: seq<World>, steps: seq<Step>, k: nat)
    requires Network.Valid(s) && Run(s, ws, steps) && k < |ws|
    ensures ws[k].faults == 0
    ensures forall i :: 0 <= i < |ws[k].parcels| ==>
              var p := ws[k].parcels[i].packet;
              && (p.pdst in s.gws && p.hit.Some? ==> p.inval.Some?)
              && (p.evict.Some? ==> p.evict.value.val != 0)
  {
    RunInv(s, ws, steps, k);
    var w := ws[k];
    forall i | 0 <= i < |w.parcels|
      ensures var p := w.parcels[i].packet;
              && (p.pdst in s.gws && p.hit.Some? ==> p.inval.Some?)
              && (p.evict.Some? ==> p.evict.value.val != 0)
    {
      assert ParcelRight(s, PhaseOf(w), w.parcels[i]);
      if w.parcels[i].packet.evict.Some? {
        AllowedIsHost(s, PhaseOf(w), w.parcels[i].packet.evict.value);
      }
    }
  }

  /** What leaves a gateway carries no eviction and no invalidation tag, starts at the gateway's
      leaf, and is bound to a machine the directory names or named for its destination. */
  lemma {:induction false} GatewaysSendClean(s: Setup, ws: seq<World>, steps: seq<Step>, k: nat)
    requires Network.Valid(s) && Run(s, ws, steps) && k < |steps| && steps[k].GatewaySend?
    ensures var i := steps[k].i;
            var h, x := ws[k].parcels[i].place.host, ws[k + 1].parcels[i];
            && h.Host? && x.place == Arriving(Leaf(h.pod, h.off))
            && x.packet == ws[k].parcels[i].packet.(evict := None, inval := None)
            && x.packet.pdst !in s.gws && Tolerable(s, ws[k].migrated, Mapping(x.packet.vdst, x.packet.pdst))
  {
    RunInv(s, ws, steps, k);
    GatewayStepIsClean(s, ws[k], steps[k].i, ws[k + 1]);
  }

  lemma {:induction false} GatewayStepIsClean(s: Setup, w: World, i: nat, w': World)
    requires Network.Valid(s) && Inv(s, w) && Enabled(s, w, GatewaySend(i)) && w' == Network.Next(s, w, GatewaySend(i))
    ensures var h, x := w.parcels[i].place.host, w'.parcels[i];
            && h.Host? && x.place == Arriving(Leaf(h.pod, h.off))
            && x.packet == w.parcels[i].packet.(evict := None, inval := None)
            && x.packet.pdst !in s.gws && Tolerable(s, w.migrated, Mapping(x.packet.vdst, x.packet.pdst))
  {
    assert ParcelRight(s, PhaseOf(w), w.parcels[i]);
  }

  /** Every switch-to-switch message reaches its switch within five sends: it is never sent more
      often, and while it is under way it is at a switch that is its target or has a route. */
  lemma {:induction false} LettersArrive(s: Setup, ws: seq<World>, steps: seq<Step>, k: nat, j: nat)
    requires Network.Valid(s) && Run(s, ws, steps) && k < |ws| && j < |ws[k].letters|
    ensures var l := ws[k].letters[j];
            && l.sends <= 5
            && (l.at.Some? ==> Switch(s.t, l.at.value) &&
                               (AddressOf(s.t.podCount, l.at.value) == l.message.dst ||
                                (l.sends < 5 && NextHops(s.t, l.at.value, l.message.dst) != Nil)))
  {
    RunInv(s, ws, steps, k);
    var l := ws[k].letters[j];
    assert LetterRight(s, PhaseOf(ws[k]), l);
    if l.at.Some? {
      var target :| Heading(s, l, l.at.value, target);
      if l.at.value != target {
        SwitchIsRoutable(s.t, l.at.value, target);
        NotThereYet(s.t, l.at.value, target);
      }
    }
  }

  lemma {:induction false} NotThereYet(t: Topo, n: Node, target: Node)
    requires OnTheWay(t, n, target) && Switch(t, target) && n != target
    ensures SendsLeft(t, n, target) > 0
  {
  }

  /** With the filter on and at least as large as the number of switches, no leaf ever generates
      two invalidations for the same hit switch. */
  lemma {:induction false} AtMostOneInvalidationPerSwitch(s: Setup, ws: seq<World>, steps: seq<Step>, k: nat)
    requires Network.Valid(s) && s.bloomEnabled && Run(s, ws, steps) && k < |ws|
    ensures NoDup(ws[k].generated)
  {
    RunInv(s, ws, steps, k);
  }

  // ---------------------------------------------------------------- runs with a migration

  /** What an invalidation may name: a mapping to the old host, for a container that is elsewhere. */
  ghost predicate Refuted(s: Setup, w: World, m: Mapping)
    requires Network.Valid(s)
  {
    && s.migration.Some? && w.migrated && m.val == OldHost(s)
    && m.key in w.directory && w.directory[m.key] != m.val
    && (!s.sourceLearning ==> m == StaleMapping(s))
  }

  lemma {:induction false} OutdatedIsRefuted(s: Setup, w: World, m: Mapping)
    requires Network.Valid(s) && DirectoryRight(s, w) && Outdated(s, PhaseOf(w), m)
    ensures Refuted(s, w, m)
  {
  }

  /** With one migration: mappings for every other container stay exact, and for the moved one only
      its old and its new host occur, and only the old one before the move. With source learning on
      there is one more kind, and no other: a tainted sender, mapped to the old host. A packet under
      way may also be bound by the follow-me rule. Invalidations name only mappings to the old host
      that the directory refutes. All this holds whether or not the follow-me rule works. */
  lemma {:induction false} MigrationStaleness(s: Setup, ws: seq<World>, steps: seq<Step>, k: nat)
    requires Network.Valid(s) && s.migration.Some? && Run(s, ws, steps) && k < |ws|
    ensures var w := ws[k];
            && (forall n, m :: n in w.switches && Holds(s.hashes(n), w.switches[n].cache, m) ==>
                  Possible(s, PhaseOf(w), m))
            && (forall i :: 0 <= i < |w.parcels| ==>
                  var p := w.parcels[i].packet;
                  && (p.evict.Some? ==> Possible(s, PhaseOf(w), p.evict.value))
                  && (p.pdst in s.gws || Possible(s, PhaseOf(w), Mapping(p.vdst, p.pdst)) ||
                      FollowsMe(s, PhaseOf(w), p))
                  && (p.inval.Some? ==> Refuted(s, w, p.inval.value)))
            && (forall j :: 0 <= j < |w.letters| ==>
                  if w.letters[j].message.Learning? then Possible(s, PhaseOf(w), w.letters[j].message.pair)
                  else Refuted(s, w, w.letters[j].message.pair))
  {
    RunInv(s, ws, steps, k);
    var w := ws[k];
    forall n, m | n in w.switches && Holds(s.hashes(n), w.switches[n].cache, m) ensures Possible(s, PhaseOf(w), m) {
      assert SwitchRight(s, PhaseOf(w), n, w.switches[n]);
      LookupOk(s.hashes(n), w.switches[n].cache, m.key, Allowed(s, PhaseOf(w)));
    }
    forall i | 0 <= i < |w.parcels|
      ensures var p := w.parcels[i].packet;
              && (p.evict.Some? ==> Possible(s, PhaseOf(w), p.evict.value))
              && (p.pdst in s.gws || Possible(s, PhaseOf(w), Mapping(p.vdst, p.pdst)) || FollowsMe(s, PhaseOf(w), p))
              && (p.inval.Some? ==> Refuted(s, w, p.inval.value))
    {
      assert ParcelRight(s, PhaseOf(w), w.parcels[i]);
      if w.parcels[i].packet.inval.Some? {
        OutdatedIsRefuted(s, w, w.parcels[i].packet.inval.value);
      }
    }
    forall j | 0 <= j < |w.letters|
      ensures if w.letters[j].message.Learning? then Possible(s, PhaseOf(w), w.letters[j].message.pair)
              else Refuted(s, w, w.letters[j].message.pair)
    {
      assert LetterRight(s, PhaseOf(w), w.letters[j]);
      if w.letters[j].message.Invalidation? {
        OutdatedIsRefuted(s, w, w.letters[j].message.pair);
      }
    }
  }

  /** A switch step of a tagged packet, or an invalidation message, at switch n. */
  predicate InvalidatesAt(s: Setup, w: World, step: Step, n: Node)
    requires s.t.podWidth > 0 && Enabled(s, w, step)
  {
    (step.AtSwitch? && w.parcels[step.i].place.at == n && w.parcels[step.i].packet.inval.Some?) ||
    (step.LetterAtSwitch? && w.letters[step.j].at == Some(n) && w.letters[step.j].message.Invalidation?)
  }

  /** An invalidation only ever removes a stale entry: the one removed names the old host, while the
      directory names another. */
  lemma {:induction false} InvalidationsRemoveOnlyStale(s: Setup, ws: seq<World>, steps: seq<Step>, k: nat, n: Node,
                                                        m: Mapping)
    requires Network.Valid(s) && Run(s, ws, steps) && k < |steps| && n in ws[k].switches
    requires InvalidatesAt(s, ws[k], steps[k], n)
    requires Holds(s.hashes(n), ws[k].switches[n].cache, m)
    requires n in ws[k + 1].switches && !Holds(s.hashes(n), ws[k + 1].switches[n].cache, m)
    ensures Refuted(s, ws[k], m)
  {
    RunInv(s, ws, steps, k);
    if steps[k].AtSwitch? {
      PacketRemovesOnlyStale(s, ws[k], steps[k].i, steps[k].coin, m);
    } else {
      LetterRemovesOnlyStale(s, ws[k], steps[k].j, m);
    }
  }

  lemma {:induction false} PacketRemovesOnlyStale(s: Setup, w: World, i: nat, coin: bool, m: Mapping)
    requires Network.Valid(s) && Inv(s, w) && i < |w.parcels| && w.parcels[i].place.Arriving?
    requires w.parcels[i].place.at in w.switches && w.parcels[i].packet.inval.Some?
    ensures var n := w.parcels[i].place.at;
            Holds(s.hashes(n), w.switches[n].cache, m) &&
              !Holds(s.hashes(n), OutcomeAt(s, w, i, coin).state.cache, m) ==>
              Refuted(s, w, m)
  {
    var n := w.parcels[i].place.at;
    assert ParcelRight(s, PhaseOf(w), w.parcels[i]);
    TaggedCache(ConfigOf(s, n), w.switches[n], Hopped(w.parcels[i].packet), coin);
    InvalidationRemovesOnlyTheStaleEntry(s.hashes(n), w.switches[n].cache, w.parcels[i].packet.inval.value, m);
    OutdatedIsRefuted(s, w, w.parcels[i].packet.inval.value);
  }

  lemma {:induction false} LetterRemovesOnlyStale(s: Setup, w: World, j: nat, m: Mapping)
    requires Network.Valid(s) && Inv(s, w) && j < |w.letters| && w.letters[j].at.Some?
    requires w.letters[j].at.value in w.switches && w.letters[j].message.Invalidation?
    ensures var n := w.letters[j].at.value;
            Holds(s.hashes(n), w.switches[n].cache, m) &&
            !Holds(s.hashes(n), HandleMessage(ConfigOf(s, n), w.switches[n], w.letters[j].message).0.cache, m) ==>
              Refuted(s, w, m)
  {
    var n := w.letters[j].at.value;
    assert LetterRight(s, PhaseOf(w), w.letters[j]);
    InvalidationRemovesOnlyTheStaleEntry(s.hashes(n), w.switches[n].cache, w.letters[j].message.pair, m);
    OutdatedIsRefuted(s, w, w.letters[j].message.pair);
  }

  lemma {:induction false} TaggedCache(cfg: Config, st: State, p: Packet, coin: bool)
    requires p.inval.Some?
    ensures Receive(cfg, st, p, coin).state.cache == Invalidate(cfg.hash, st.cache, p.inval.value)
  {
  }
}
