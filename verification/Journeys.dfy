/** What happens to one packet over a whole run, and to the entries of one switch: the step
    lemmas of a switch, with every assumption discharged by the run. */
module Journeys {
  import opened Addressing
  import opened Walks
  import opened CacheSpec
  import opened SwitchSpec
  import opened SwitchProperties
  import opened Network
  import opened Invariants
  import opened Places
  import opened Preservation

  // ---------------------------------------------------------------- counting a packet's steps

  /** How often a packet was sent back by a host, entered a gateway, and entered a switch. */
  datatype Tally = Tally(sentBack: nat, visits: nat, hops: nat)

  /** What one step adds to the tally of packet i; w' is the world after it. */
  function Counted(step: Step, w': World, i: nat, t: Tally): Tally
    requires i < |w'.parcels|
  {
    match step
    case AtSwitch(j, _, _, _) => if i == j then t.(hops := t.hops + 1) else t
    case GatewayReceive(j) => if i == j then t.(visits := t.visits + 1) else t
    case HostReceive(j, _) =>
      if i == j && w'.parcels[i].place.AtHost? then t.(sentBack := t.sentBack + 1) else t
    case _ => t
  }

  /** The steps of packet i among the first k of a run. */
  function TallyOf(ws: seq<World>, steps: seq<Step>, i: nat, k: nat): Tally
    requires |ws| == |steps| + 1 && k <= |steps|
  {
    if k == 0 || i >= |ws[k].parcels| then Tally(0, 0, 0)
    else Counted(steps[k - 1], ws[k], i, TallyOf(ws, steps, i, k - 1))
  }

  function Carried(p: Packet): Tally {
    Tally(p.misdelivered, p.gwVisits, p.hops)
  }

  lemma {:induction false} CountedAtSwitch(cfg: Config, st: State, p: Packet, coin: bool)
    ensures Carried(Decremented(Receive(cfg, st, Hopped(p), coin).packet))
         == Carried(p).(hops := p.hops + 1)
  {
    ReceiveFrame(cfg, st, Hopped(p), coin);
  }

  /** A step that concerns packet i, when that packet exists already. */
  predicate Mentions(step: Step, i: nat) {
    match step
    case AtSwitch(j, _, _, _) => i == j
    case GatewayReceive(j) => i == j
    case GatewaySend(j) => i == j
    case HostReceive(j, _) => i == j
    case HostSend(j) => i == j
    case LosePacket(j) => i == j
    case _ => false
  }

  /** All other steps leave the packet alone; only sending adds one. */
  lemma {:induction false} OthersStay(s: Setup, w: World, step: Step, w': World)
    requires Network.Valid(s) && Enabled(s, w, step) && w' == Network.Next(s, w, step)
    ensures |w'.parcels| == |w.parcels| + if step.Send? then 1 else 0
    ensures forall i :: 0 <= i < |w.parcels| && !Mentions(step, i) ==> w'.parcels[i] == w.parcels[i]
    ensures step.Send? ==> w'.parcels[|w.parcels|].place.Arriving?
    ensures step.Send? ==> Carried(w'.parcels[|w.parcels|].packet) == Tally(0, 0, 0)
  {
  }

  lemma {:induction false} SwitchStepCounts(s: Setup, w: World, step: Step, w': World)
    requires Network.Valid(s) && step.AtSwitch? && Enabled(s, w, step) && w' == Network.Next(s, w, step)
    ensures step.i < |w'.parcels|
    ensures Carried(w'.parcels[step.i].packet) == Counted(step, w', step.i, Carried(w.parcels[step.i].packet))
    ensures w'.parcels[step.i].place.Arriving? || w'.parcels[step.i].place.Gone?
  {
    var n := w.parcels[step.i].place.at;
    CountedAtSwitch(ConfigOf(s, n), w.switches[n], w.parcels[step.i].packet, step.coin);
  }

  lemma {:induction false} MachineStepCounts(s: Setup, w: World, step: Step, w': World, i: nat)
    requires Network.Valid(s) && !step.AtSwitch? && Mentions(step, i) && Enabled(s, w, step) &&
             w' == Network.Next(s, w, step)
    ensures i < |w'.parcels|
    ensures Carried(w'.parcels[i].packet) == Counted(step, w', i, Carried(w.parcels[i].packet))
  {
  }

  /** One step changes what the packet carries as it is counted. */
  lemma {:induction false} StepCounts(s: Setup, w: World, step: Step, w': World, i: nat)
    requires Network.Valid(s) && Enabled(s, w, step) && w' == Network.Next(s, w, step)
    ensures |w.parcels| <= |w'.parcels|
    ensures i < |w.parcels| ==> Carried(w'.parcels[i].packet) == Counted(step, w', i, Carried(w.parcels[i].packet))
    ensures |w.parcels| <= i < |w'.parcels| ==> Carried(w'.parcels[i].packet) == Tally(0, 0, 0) && step.Send?
  {
    OthersStay(s, w, step, w');
    if i < |w.parcels| && Mentions(step, i) {
      if step.AtSwitch? {
        SwitchStepCounts(s, w, step, w');
      } else {
        MachineStepCounts(s, w, step, w', i);
      }
    }
  }

  lemma {:induction false} RunCounts(s: Setup, ws: seq<World>, steps: seq<Step>, i: nat, k: nat)
    requires Network.Valid(s) && Run(s, ws, steps) && k < |steps| && i < |ws[k + 1].parcels|
    requires i < |ws[k].parcels| ==> TallyOf(ws, steps, i, k) == Carried(ws[k].parcels[i].packet)
    ensures TallyOf(ws, steps, i, k + 1) == Carried(ws[k + 1].parcels[i].packet)
  {
    StepCounts(s, ws[k], steps[k], ws[k + 1], i);
  }

  /** The numbers a packet carries are its history. */
  lemma {:induction false} CarriesItsHistory(s: Setup, ws: seq<World>, steps: seq<Step>, i: nat, k: nat)
    requires Network.Valid(s) && Run(s, ws, steps) && k < |ws| && i < |ws[k].parcels|
    ensures TallyOf(ws, steps, i, k) == Carried(ws[k].parcels[i].packet)
  {
    for q := 0 to k
      invariant i < |ws[q].parcels| ==> TallyOf(ws, steps, i, q) == Carried(ws[q].parcels[i].packet)
    {
      if i < |ws[q + 1].parcels| {
        RunCounts(s, ws, steps, i, q);
      }
    }
  }

  /** A packet's whole journey, in every run with at most one migration, with source learning on or
      off: it is sent back by a host at most once, and never without a migration, and it enters a
      gateway at most once. Once returned, it is never bound to the host that returned it: only to a
      gateway, to where the directory now says its destination is, or where the follow-me rule says.
      Where that rule works, the latter is the same, and the packet enters at most ten switches, and
      ten more after a return. Without source learning only packets for the moved container are ever
      returned. */
  lemma {:induction false} JourneyIsShort(s: Setup, ws: seq<World>, steps: seq<Step>, i: nat, k: nat)
    requires Network.Valid(s) && Run(s, ws, steps) && k < |ws| && i < |ws[k].parcels|
    ensures var t, w, p := TallyOf(ws, steps, i, k), ws[k], ws[k].parcels[i].packet;
            && t.sentBack <= 1 && t.visits <= 1
            && (FollowMeOk(s) && !w.parcels[i].place.Gone? ==> t.hops <= 10 + 10 * t.sentBack)
            && (t.sentBack == 1 ==> BoundAfterReturn(s, w, p))
  {
    CarriesItsHistory(s, ws, steps, i, k);
    RunInv(s, ws, steps, k);
    assert ParcelRight(s, PhaseOf(ws[k]), ws[k].parcels[i]);
    if FollowMeOk(s) && !ws[k].parcels[i].place.Gone? {
      PlacedWithinBudget(s, ws[k].parcels[i].packet, ws[k].parcels[i].place);
    }
    if TallyOf(ws, steps, i, k).sentBack == 1 {
      ReturnedIsBoundRight(s, ws[k], ws[k].parcels[i].packet);
    }
  }

  /** Where a packet goes after a return. */
  ghost predicate BoundAfterReturn(s: Setup, w: World, p: Packet)
    requires Network.Valid(s)
  {
    && s.migration.Some? && w.migrated && p.pdst != OldHost(s) && p.vdst in w.directory
    && (p.pdst in s.gws || p.pdst == w.directory[p.vdst] || (!FollowMeOk(s) && p.pdst == s.migration.value.followMe))
    && (!s.sourceLearning ==> p.vdst == s.migration.value.c)
  }

  lemma {:induction false} ReturnedIsBoundRight(s: Setup, w: World, p: Packet)
    requires Network.Valid(s) && DirectoryRight(s, w) && Fate(s, PhaseOf(w), p) && p.misdelivered == 1
    ensures BoundAfterReturn(s, w, p)
  {
    if FollowMeOk(s) {
      FollowMeIsNewHost(s);
    }
  }

  lemma {:induction false} PlacedWithinBudget(s: Setup, p: Packet, place: Place)
    requires Network.Valid(s) && Placed(s, p, place) && !place.Gone?
    ensures p.hops <= 10 + 10 * p.misdelivered
  {
  }

  // ---------------------------------------------------------------- entries in migration-free runs

  /** The gateways' directory as a set of mappings. */
  lemma {:induction false} DirectoryIsSingleValued(s: Setup, ph: Phase)
    requires Network.Valid(s) && s.migration.None?
    ensures SingleValued(Allowed(s, ph))
  {
  }

  /** What a run guarantees of the switch and the packet of a switch step. */
  lemma {:induction false} SwitchStepFacts(s: Setup, w: World, i: nat)
    requires Network.Valid(s) && s.migration.None? && Inv(s, w)
    requires i < |w.parcels| && w.parcels[i].place.Arriving? && w.parcels[i].place.at in w.switches
    ensures var n, p := w.parcels[i].place.at, Hopped(w.parcels[i].packet);
            && !n.Host?
            && CacheRight(s, PhaseOf(w), n, w.switches[n])
            && PacketOk(ConfigOf(s, n), p, Allowed(s, PhaseOf(w)))
            && p.inval.None?
            && (Promotes(ConfigOf(s, n), p) ==> p.evict.None?)
  {
    var x := w.parcels[i];
    var n := x.place.at;
    assert ParcelRight(s, PhaseOf(w), x) && SwitchRight(s, PhaseOf(w), n, w.switches[n]);
    HoppedFate(s, PhaseOf(w), x.packet);
    FateIsOk(s, PhaseOf(w), n, Hopped(x.packet));
    SpineSeesNoTag(s, n, x.packet);
  }

  lemma {:induction false} SpineSeesNoTag(s: Setup, n: Node, p: Packet)
    requires Network.Valid(s) && Switch(s.t, n) && SpilledLate(s, p, n) && p.inval.None?
    ensures Promotes(ConfigOf(s, n), Hopped(p)) ==> p.evict.None?
  {
  }

  /** Spilled entries are conserved in every migration-free run: at every switch above the ordinary
      leaves, no mapping of a nonzero key that switch and packet held between them before the step is
      lost in it, and none appears but the packet's own. */
  lemma {:induction false} RunsConserveSpills(s: Setup, ws: seq<World>, steps: seq<Step>, k: nat, m: Mapping)
    requires Network.Valid(s) && s.migration.None? && m.key != 0 && Run(s, ws, steps)
    requires k < |steps| && steps[k].AtSwitch?
    requires RoleOf(s, ws[k].parcels[steps[k].i].place.at) != LEAF
    ensures var i, n := steps[k].i, ws[k].parcels[steps[k].i].place.at;
            n in ws[k + 1].switches && i < |ws[k + 1].parcels| &&
            Conserves(ConfigOf(s, n), ws[k].switches[n].cache, ws[k].parcels[i].packet,
                      ws[k + 1].switches[n].cache, ws[k + 1].parcels[i].packet.evict, m)
  {
    RunInv(s, ws, steps, k);
    StepConservesSpills(s, ws[k], steps[k], ws[k + 1], m);
  }

  lemma {:induction false} StepConservesSpills(s: Setup, w: World, step: Step, w': World, m: Mapping)
    requires Network.Valid(s) && s.migration.None? && m.key != 0 && Inv(s, w)
    requires step.AtSwitch? && Enabled(s, w, step) && w' == Network.Next(s, w, step)
    requires RoleOf(s, w.parcels[step.i].place.at) != LEAF
    ensures var n := w.parcels[step.i].place.at;
            n in w'.switches && step.i < |w'.parcels| &&
            Conserves(ConfigOf(s, n), w.switches[n].cache, w.parcels[step.i].packet,
                      w'.switches[n].cache, w'.parcels[step.i].packet.evict, m)
  {
    var n, p := w.parcels[step.i].place.at, Hopped(w.parcels[step.i].packet);
    SwitchStepFacts(s, w, step.i);
    AllowedSound(s, PhaseOf(w));
    DirectoryIsSingleValued(s, PhaseOf(w));
    SpillsAreConserved(ConfigOf(s, n), w.switches[n], p, step.coin, m, Allowed(s, PhaseOf(w)));
  }

  // ---------------------------------------------------------------- active entries in all runs

  lemma {:induction false} LessonIsLive(s: Setup, ph: Phase, p: Packet)
    requires Network.Valid(s) && Fate(s, ph, p) && p.inval.None?
    ensures Lesson(p).val != 0 && p.evict != Some(Mapping(0, 0))
  {
    if p.evict.Some? {
      AllowedIsHost(s, ph, p.evict.value);
    } else if p.pdst in s.gws {
      HostAddressNonzero(s.t, p.pdst);
    } else {
      AllowedIsHost(s, ph, Mapping(p.vdst, p.pdst));
    }
  }

  /** An entry that is found, with a nonzero key and its access bit set. */
  predicate ActiveEntry(s: Setup, n: Node, st: State, key: Addr) {
    key != 0 && SlotOf(s.hashes(n), st.cache, key).bit && Lookup(s.hashes(n), st.cache, key).Some?
  }

  /** An entry that was just used survives, in every run, with migration and source learning allowed:
      at a core, or at a spine with access bits on, no packet without an invalidation tag evicts an
      entry of a nonzero key whose access bit is set. It is still found, and with its value unless
      the packet brings a newer one for that very key; without a migration none does. */
  lemma {:induction false} RunsSpareActiveEntries(s: Setup, ws: seq<World>, steps: seq<Step>, k: nat, key: Addr)
    requires Network.Valid(s) && Run(s, ws, steps) && k < |steps| && steps[k].AtSwitch?
    requires ws[k].parcels[steps[k].i].packet.inval.None?
    requires var n := ws[k].parcels[steps[k].i].place.at;
             Protects(ConfigOf(s, n)) && ActiveEntry(s, n, ws[k].switches[n], key)
    ensures var n := ws[k].parcels[steps[k].i].place.at;
            && n in ws[k + 1].switches
            && var before, known := Lookup(s.hashes(n), ws[k].switches[n].cache, key),
                                    Lookup(s.hashes(n), ws[k + 1].switches[n].cache, key);
               && known.Some?
               && (Lesson(ws[k].parcels[steps[k].i].packet).key != key || s.migration.None? ==> known == before)
  {
    RunInv(s, ws, steps, k);
    StepSparesActive(s, ws[k], steps[k], ws[k + 1], key);
    if s.migration.None? {
      RunInv(s, ws, steps, k + 1);
      EntriesStayExact(s, ws[k], ws[k + 1], ws[k].parcels[steps[k].i].place.at, key);
    }
  }

  lemma {:induction false} StepSparesActive(s: Setup, w: World, step: Step, w': World, key: Addr)
    requires Network.Valid(s) && Inv(s, w) && step.AtSwitch? && Enabled(s, w, step) && w' == Network.Next(s, w, step)
    requires w.parcels[step.i].packet.inval.None?
    requires var n := w.parcels[step.i].place.at;
             Protects(ConfigOf(s, n)) && ActiveEntry(s, n, w.switches[n], key)
    ensures var n := w.parcels[step.i].place.at;
            && n in w'.switches
            && var known := Lookup(s.hashes(n), w'.switches[n].cache, key);
               && known.Some?
               && (Lesson(w.parcels[step.i].packet).key != key ==>
                     known == Lookup(s.hashes(n), w.switches[n].cache, key))
  {
    var x := w.parcels[step.i];
    var n := x.place.at;
    assert ParcelRight(s, PhaseOf(w), x) && SwitchRight(s, PhaseOf(w), n, w.switches[n]);
    LessonIsLive(s, PhaseOf(w), x.packet);
    SpineSeesNoTag(s, n, x.packet);
    AccessBitProtects(ConfigOf(s, n), w.switches[n], Hopped(x.packet), step.coin, key);
  }

  /** Without a migration, an entry found before and after a step has one value. */
  lemma {:induction false} EntriesStayExact(s: Setup, w: World, w': World, n: Node, key: Addr)
    requires Network.Valid(s) && s.migration.None? && Inv(s, w) && Inv(s, w') && n in w.switches && n in w'.switches
    requires Lookup(s.hashes(n), w.switches[n].cache, key).Some? && Lookup(s.hashes(n), w'.switches[n].cache, key).Some?
    ensures Lookup(s.hashes(n), w'.switches[n].cache, key) == Lookup(s.hashes(n), w.switches[n].cache, key)
  {
    assert SwitchRight(s, PhaseOf(w), n, w.switches[n]) && SwitchRight(s, PhaseOf(w'), n, w'.switches[n]);
    LookupOk(s.hashes(n), w.switches[n].cache, key, Allowed(s, PhaseOf(w)));
    LookupOk(s.hashes(n), w'.switches[n].cache, key, Allowed(s, PhaseOf(w')));
  }

  // ---------------------------------------------------------------- keys in all runs

  /** In every run, with migration and source learning allowed, no nonzero key is lost to switch and
      packet together when a packet without an invalidation tag passes a switch above the ordinary
      leaves. */
  lemma {:induction false} RunsConserveKeys(s: Setup, ws: seq<World>, steps: seq<Step>, k: nat, key: Addr)
    requires Network.Valid(s) && Run(s, ws, steps) && k < |steps| && steps[k].AtSwitch? && key != 0
    requires var x := ws[k].parcels[steps[k].i];
             && x.packet.inval.None? && RoleOf(s, x.place.at) != LEAF
             && KeyKept(s.hashes(x.place.at), ws[k].switches[x.place.at].cache, x.packet.evict, key)
    ensures var n := ws[k].parcels[steps[k].i].place.at;
            && n in ws[k + 1].switches && steps[k].i < |ws[k + 1].parcels|
            && KeyKept(s.hashes(n), ws[k + 1].switches[n].cache, ws[k + 1].parcels[steps[k].i].packet.evict, key)
  {
    RunInv(s, ws, steps, k);
    StepConservesKeys(s, ws[k], steps[k], ws[k + 1], key);
  }

  lemma {:induction false} StepConservesKeys(s: Setup, w: World, step: Step, w': World, key: Addr)
    requires Network.Valid(s) && Inv(s, w) && step.AtSwitch? && Enabled(s, w, step) && w' == Network.Next(s, w, step)
    requires var x := w.parcels[step.i];
             && key != 0 && x.packet.inval.None? && RoleOf(s, x.place.at) != LEAF
             && KeyKept(s.hashes(x.place.at), w.switches[x.place.at].cache, x.packet.evict, key)
    ensures var n := w.parcels[step.i].place.at;
            && n in w'.switches && step.i < |w'.parcels|
            && KeyKept(s.hashes(n), w'.switches[n].cache, w'.parcels[step.i].packet.evict, key)
  {
    var x := w.parcels[step.i];
    var n := x.place.at;
    assert ParcelRight(s, PhaseOf(w), x) && SwitchRight(s, PhaseOf(w), n, w.switches[n]);
    LessonIsLive(s, PhaseOf(w), x.packet);
    SpineSeesNoTag(s, n, x.packet);
    KeysAreConserved(ConfigOf(s, n), w.switches[n], Hopped(x.packet), step.coin, key);
  }
}
