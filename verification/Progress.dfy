/** No packet is stuck and none wanders: with the bound on its steps, a packet that is not lost
    arrives. */
module Progress {
  import opened Addressing
  import opened Lists
  import opened CacheSpec
  import opened SwitchSpec
  import opened SwitchProperties
  import opened Forwarding
  import opened Walks
  import opened Network
  import opened Preservation
  import opened Journeys
  import opened Theorems

  /** A step that takes packet i further. */
  predicate Advances(step: Step, i: nat) {
    match step
    case AtSwitch(j, _, _, _) => i == j
    case GatewayReceive(j) => i == j
    case GatewaySend(j) => i == j
    case HostReceive(j, _) => i == j
    case HostSend(j) => i == j
    case _ => false
  }

  // ---------------------------------------------------------------- there is always a step

  /** A choice of next hop. */
  function SomeNext(s: Setup, n: Node, a: Addr): (next: Node)
    requires s.t.podWidth > 0
    ensures IsNext(s, n, a, next)
  {
    var all := NextHops(s.t, n, a);
    if all == Nil then n else all.last
  }

  lemma {:induction false} SwitchCanAct(s: Setup, w: World, i: nat)
    requires Network.Valid(s) && i < |w.parcels| && w.parcels[i].place.Arriving? && !w.parcels[i].place.at.Host?
    requires w.parcels[i].place.at in w.switches
    ensures exists step :: Advances(step, i) && Enabled(s, w, step)
  {
    var n, o := w.parcels[i].place.at, OutcomeAt(s, w, i, false);
    var letterNext := if o.sent.Some? then SomeNext(s, n, o.sent.value.dst) else n;
    var step := AtSwitch(i, false, SomeNext(s, n, o.packet.pdst), letterNext);
    assert Advances(step, i) && Enabled(s, w, step);
  }

  lemma {:induction false} MachineCanAct(s: Setup, w: World, i: nat, g: Addr)
    requires Network.Valid(s) && i < |w.parcels| && AtItsMachine(s, w.parcels[i])
    requires w.parcels[i].packet.vdst in w.directory && g in s.gws
    ensures exists step :: Advances(step, i) && Enabled(s, w, step)
  {
    var step := if w.parcels[i].packet.pdst in s.gws then GatewayReceive(i) else HostReceive(i, g);
    assert Advances(step, i) && Enabled(s, w, step);
  }

  lemma {:induction false} HolderCanAct(s: Setup, w: World, i: nat)
    requires Network.Valid(s) && i < |w.parcels| && (w.parcels[i].place.AtGateway? || w.parcels[i].place.AtHost?)
    ensures exists step :: Advances(step, i) && Enabled(s, w, step)
  {
    var step := if w.parcels[i].place.AtGateway? then GatewaySend(i) else HostSend(i);
    assert Advances(step, i) && Enabled(s, w, step);
  }

  /** What the invariant says of an arriving packet. */
  lemma {:induction false} ArrivingFacts(s: Setup, w: World, i: nat)
    requires Network.Valid(s) && FollowMeOk(s) && Inv(s, w) && i < |w.parcels| && w.parcels[i].place.Arriving?
    ensures w.parcels[i].packet.vdst in w.directory
    ensures if w.parcels[i].place.at.Host? then AtItsMachine(s, w.parcels[i]) else w.parcels[i].place.at in w.switches
  {
    assert ParcelRight(s, PhaseOf(w), w.parcels[i]);
  }

  /** There is a gateway once a packet was sent. */
  lemma {:induction false} SentMeansGateway(s: Setup, ws: seq<World>, steps: seq<Step>, k: nat)
    requires Network.Valid(s) && Run(s, ws, steps) && k < |ws| && ws[k].parcels != []
    ensures exists g :: g in s.gws
  {
    for q := 0 to k
      invariant ws[q].parcels != [] ==> exists g :: g in s.gws
    {
      StepNeedsGateway(s, ws[q], steps[q], ws[q + 1]);
    }
  }

  lemma {:induction false} StepNeedsGateway(s: Setup, w: World, step: Step, w': World)
    requires Network.Valid(s) && Enabled(s, w, step) && w' == Network.Next(s, w, step)
    ensures w'.parcels != [] ==> w.parcels != [] || exists g :: g in s.gws
  {
    if step.Send? {
      assert step.gateway in s.gws;
    }
  }

  // ---------------------------------------------------------------- and only so many

  /** The steps that took packet i further, among the first k. */
  function Advanced(steps: seq<Step>, i: nat, k: nat): nat
    requires k <= |steps|
  {
    if k == 0 then 0 else Advanced(steps, i, k - 1) + if Advances(steps[k - 1], i) then 1 else 0
  }

  /** The same number, from what the packet carries and where it is. */
  function Credit(x: Parcel): int {
    x.packet.hops + 2 * x.packet.gwVisits + 2 * x.packet.misdelivered +
    match x.place
    case AtGateway(_) => -1
    case AtHost(_) => -1
    case Delivered(_) => 1
    case _ => 0
  }

  lemma {:induction false} SwitchCredits(s: Setup, w: World, step: Step, w': World)
    requires Network.Valid(s) && step.AtSwitch? && Enabled(s, w, step) && w' == Network.Next(s, w, step)
    ensures step.i < |w'.parcels| && Credit(w'.parcels[step.i]) == Credit(w.parcels[step.i]) + 1
  {
    SwitchStepCounts(s, w, step, w');
  }

  lemma {:induction false} SentByLink(h: Node)
    ensures SentBy(h).Arriving? || SentBy(h).Gone?
  {
  }

  lemma {:induction false} MachineCredits(s: Setup, w: World, step: Step, w': World, i: nat)
    requires Network.Valid(s) && !step.AtSwitch? && Mentions(step, i) && Enabled(s, w, step) &&
             w' == Network.Next(s, w, step)
    ensures i < |w'.parcels| && Credit(w'.parcels[i]) == Credit(w.parcels[i]) + if Advances(step, i) then 1 else 0
  {
    if step.GatewaySend? || step.HostSend? {
      SentByLink(w.parcels[i].place.host);
    } else if step.HostReceive? {
      HostCredits(s, w, i, step.gateway);
    }
  }

  lemma {:induction false} HostCredits(s: Setup, w: World, i: nat, g: Addr)
    requires Network.Valid(s) && i < |w.parcels| && w.parcels[i].place.Arriving? &&
             w.parcels[i].packet.vdst in w.directory
    ensures Credit(AfterHost(s, w, i, g).parcels[i]) == Credit(w.parcels[i]) + 1
  {
  }

  lemma {:induction false} StepCredits(s: Setup, w: World, step: Step, w': World, i: nat)
    requires Network.Valid(s) && Enabled(s, w, step) && w' == Network.Next(s, w, step) && i < |w'.parcels|
    ensures i < |w.parcels| ==> Credit(w'.parcels[i]) == Credit(w.parcels[i]) + if Advances(step, i) then 1 else 0
    ensures i >= |w.parcels| ==> Credit(w'.parcels[i]) == 0 && !Advances(step, i)
  {
    OthersStay(s, w, step, w');
    if i < |w.parcels| && Mentions(step, i) {
      if step.AtSwitch? {
        SwitchCredits(s, w, step, w');
      } else {
        MachineCredits(s, w, step, w', i);
      }
    }
  }

  lemma {:induction false} NoAdvanceBefore(s: Setup, w: World, step: Step, w': World, i: nat)
    requires Network.Valid(s) && Enabled(s, w, step) && w' == Network.Next(s, w, step) && i >= |w'.parcels|
    ensures i >= |w.parcels| && !Advances(step, i)
  {
    OthersStay(s, w, step, w');
  }

  /** What is counted of packet i, which need not exist yet. */
  predicate CreditOk(w: World, i: nat, advanced: nat) {
    if i < |w.parcels| then advanced == Credit(w.parcels[i]) else advanced == 0
  }

  lemma {:induction false} StepKeepsCredit(s: Setup, w: World, step: Step, w': World, i: nat, advanced: nat)
    requires Network.Valid(s) && Enabled(s, w, step) && w' == Network.Next(s, w, step) && CreditOk(w, i, advanced)
    ensures CreditOk(w', i, advanced + if Advances(step, i) then 1 else 0)
  {
    if i < |w'.parcels| {
      StepCredits(s, w, step, w', i);
    } else {
      NoAdvanceBefore(s, w, step, w', i);
    }
  }

  lemma {:induction false} AdvancedIsCredit(s: Setup, ws: seq<World>, steps: seq<Step>, i: nat, k: nat)
    requires Network.Valid(s) && Run(s, ws, steps) && k < |ws|
    ensures CreditOk(ws[k], i, Advanced(steps, i, k))
  {
    for q := 0 to k
      invariant CreditOk(ws[q], i, Advanced(steps, i, q))
    {
      StepKeepsCredit(s, ws[q], steps[q], ws[q + 1], i, Advanced(steps, i, q));
    }
  }

  // ---------------------------------------------------------------- so it arrives

  /** Only loss on a link makes a packet disappear. */
  lemma {:induction false} GoneMeansLost(s: Setup, ws: seq<World>, steps: seq<Step>, i: nat, k: nat)
    requires Network.Valid(s) && FollowMeOk(s) && Run(s, ws, steps) && k < |ws| && i < |ws[k].parcels|
    requires ws[k].parcels[i].place.Gone?
    ensures exists j :: 0 <= j < k && steps[j] == LosePacket(i)
  {
    for q := 0 to k
      invariant i < |ws[q].parcels| && ws[q].parcels[i].place.Gone? ==>
                  exists j :: 0 <= j < q && steps[j] == LosePacket(i)
    {
      RunInv(s, ws, steps, q);
      OnlyLossRemoves(s, ws[q], steps[q], ws[q + 1], i);
    }
  }

  /** A packet at a switch goes on to the next one. */
  lemma {:induction false} SwitchRemovesNothing(s: Setup, w: World, step: Step, w': World, i: nat)
    requires Network.Valid(s) && FollowMeOk(s) && Inv(s, w) && step.AtSwitch? && Enabled(s, w, step)
    requires w' == Network.Next(s, w, step) && i < |w'.parcels|
    ensures w'.parcels[i].place.Gone? ==> w.parcels[i].place.Gone?
  {
    if i == step.i {
      StepNeverDrops(s, w, step, w');
    }
  }

  /** A machine that holds a packet has a link for it. */
  lemma {:induction false} SendersHaveLinks(s: Setup, w: World, i: nat)
    requires Network.Valid(s) && Inv(s, w) && i < |w.parcels| &&
             (w.parcels[i].place.AtGateway? || w.parcels[i].place.AtHost?)
    ensures SentBy(w.parcels[i].place.host).Arriving?
  {
    assert ParcelRight(s, PhaseOf(w), w.parcels[i]);
  }

  lemma {:induction false} OthersRemoveNothing(s: Setup, w: World, step: Step, w': World, i: nat)
    requires Network.Valid(s) && Enabled(s, w, step) && !step.AtSwitch? && w' == Network.Next(s, w, step) &&
             i < |w'.parcels|
    requires step.GatewaySend? || step.HostSend? ==> SentBy(w.parcels[step.i].place.host).Arriving?
    ensures w'.parcels[i].place.Gone? ==> (i < |w.parcels| && w.parcels[i].place.Gone?) || step == LosePacket(i)
  {
    OthersStay(s, w, step, w');
  }

  lemma {:induction false} OnlyLossRemoves(s: Setup, w: World, step: Step, w': World, i: nat)
    requires Network.Valid(s) && FollowMeOk(s) && Inv(s, w) && Enabled(s, w, step) && w' == Network.Next(s, w, step)
    ensures i < |w'.parcels| && w'.parcels[i].place.Gone? ==>
              (i < |w.parcels| && w.parcels[i].place.Gone?) || step == LosePacket(i)
  {
    if i < |w'.parcels| {
      if step.AtSwitch? {
        SwitchRemovesNothing(s, w, step, w', i);
      } else {
        if step.GatewaySend? || step.HostSend? {
          SendersHaveLinks(s, w, step.i);
        }
        OthersRemoveNothing(s, w, step, w', i);
      }
    }
  }

  /** Every packet arrives. In every run in which the follow-me rule works, a packet that was never
      lost on a link and is not delivered yet has a step that takes it further, and no packet ever
      takes more than 25 such steps: so a run that goes on long enough for it delivers it. */
  lemma {:induction false} EveryPacketArrives(s: Setup, ws: seq<World>, steps: seq<Step>, i: nat, k: nat)
    requires Network.Valid(s) && FollowMeOk(s) && Run(s, ws, steps) && k < |ws| && i < |ws[k].parcels|
    requires forall j :: 0 <= j < k ==> steps[j] != LosePacket(i)
    ensures Advanced(steps, i, k) <= 25
    ensures ws[k].parcels[i].place.Delivered? || exists step :: Advances(step, i) && Enabled(s, ws[k], step)
  {
    NotLostIsNotGone(s, ws, steps, i, k);
    FewSteps(s, ws, steps, i, k);
    RunInv(s, ws, steps, k);
    SentMeansGateway(s, ws, steps, k);
    CanAdvance(s, ws[k], i);
  }

  lemma {:induction false} NotLostIsNotGone(s: Setup, ws: seq<World>, steps: seq<Step>, i: nat, k: nat)
    requires Network.Valid(s) && FollowMeOk(s) && Run(s, ws, steps) && k < |ws| && i < |ws[k].parcels|
    requires forall j :: 0 <= j < k ==> steps[j] != LosePacket(i)
    ensures !ws[k].parcels[i].place.Gone?
  {
    if ws[k].parcels[i].place.Gone? {
      GoneMeansLost(s, ws, steps, i, k);
    }
  }

  lemma {:induction false} FewSteps(s: Setup, ws: seq<World>, steps: seq<Step>, i: nat, k: nat)
    requires Network.Valid(s) && FollowMeOk(s) && Run(s, ws, steps) && k < |ws| && i < |ws[k].parcels|
    requires !ws[k].parcels[i].place.Gone?
    ensures Advanced(steps, i, k) <= 25
  {
    AdvancedIsCredit(s, ws, steps, i, k);
    JourneyIsShort(s, ws, steps, i, k);
    CarriesItsHistory(s, ws, steps, i, k);
  }

  lemma {:induction false} CanAdvance(s: Setup, w: World, i: nat)
    requires Network.Valid(s) && FollowMeOk(s) && Inv(s, w) && i < |w.parcels| && !w.parcels[i].place.Gone?
    requires exists g :: g in s.gws
    ensures w.parcels[i].place.Delivered? || exists step :: Advances(step, i) && Enabled(s, w, step)
  {
    var place := w.parcels[i].place;
    if place.Arriving? {
      ArrivingFacts(s, w, i);
      if place.at.Host? {
        var g :| g in s.gws;
        MachineCanAct(s, w, i, g);
      } else {
        SwitchCanAct(s, w, i);
      }
    } else if !place.Delivered? {
      HolderCanAct(s, w, i);
    }
  }

  // ---------------------------------------------------------------- messages and the migration

  /** Where a letter goes after switch n. */
  lemma {:induction false} LetterGoesOn(s: Setup, ph: Phase, n: Node, l: Letter, next: Node)
    requires Network.Valid(s) && Switch(s.t, n) && LetterRight(s, ph, l) && l.at == Some(n)
    requires IsNext(s, n, l.message.dst, next)
    ensures var l' := LetterAfter(s, n, l, l.message.dst != AddressOf(s.t.podCount, n), next);
            && l'.message == l.message
            && (l.message.dst == AddressOf(s.t.podCount, n) ==> l'.at == None)
            && (l.message.dst != AddressOf(s.t.podCount, n) ==>
                  l'.at == Some(next) && l'.sends == l.sends + 1 && Contains(NextHops(s.t, n, l.message.dst), next))
  {
    if l.message.dst != AddressOf(s.t.podCount, n) {
      MovedLetterRight(s, ph, l, n, next);
    }
  }

  lemma {:induction false} LetterSteps(s: Setup, w: World, j: nat, next: Node, w': World)
    requires Network.Valid(s) && Enabled(s, w, LetterAtSwitch(j, next))
    requires w' == Network.Next(s, w, LetterAtSwitch(j, next))
    ensures |w'.letters| == |w.letters|
    ensures var l := w.letters[j];
            w'.letters[j]
            == LetterAfter(s, l.at.value, l, l.message.dst != AddressOf(s.t.podCount, l.at.value), next)
  {
  }

  /** A message under way can always be handled, and what its handling leads to: at its target it
      ends; elsewhere it goes on to a next hop toward the target. */
  lemma {:induction false} LettersCanMove(s: Setup, w: World, j: nat, next: Node, w': World)
    requires Network.Valid(s) && Inv(s, w) && j < |w.letters| && w.letters[j].at.Some?
    requires IsNext(s, w.letters[j].at.value, w.letters[j].message.dst, next)
    ensures Enabled(s, w, LetterAtSwitch(j, next))
    ensures var l, n := w.letters[j], w.letters[j].at.value;
            w' == Network.Next(s, w, LetterAtSwitch(j, next)) ==>
              && |w'.letters| == |w.letters| && w'.letters[j].message == l.message
              && (l.message.dst == AddressOf(s.t.podCount, n) ==> w'.letters[j].at == None)
              && (l.message.dst != AddressOf(s.t.podCount, n) ==>
                    && w'.letters[j].at == Some(next) && w'.letters[j].sends == l.sends + 1
                    && Contains(NextHops(s.t, n, l.message.dst), next))
  {
    LetterFacts(s, w, j);
    LetterGoesOn(s, PhaseOf(w), w.letters[j].at.value, w.letters[j], next);
    if w' == Network.Next(s, w, LetterAtSwitch(j, next)) {
      LetterSteps(s, w, j, next, w');
    }
  }

  lemma {:induction false} LetterFacts(s: Setup, w: World, j: nat)
    requires Network.Valid(s) && Inv(s, w) && j < |w.letters| && w.letters[j].at.Some?
    ensures LetterRight(s, PhaseOf(w), w.letters[j])
    ensures w.letters[j].at.value in w.switches && Switch(s.t, w.letters[j].at.value)
  {
    assert LetterRight(s, PhaseOf(w), w.letters[j]);
  }

  /** A planned migration can happen at any time, once; from then on the directory names the new host
      of the moved container and, for every other, what it named before. */
  lemma {:induction false} MigrationCanHappen(s: Setup, w: World)
    requires Network.Valid(s) && s.migration.Some? && !w.migrated
    ensures Enabled(s, w, Migrate)
    ensures var w' := Network.Next(s, w, Migrate);
            && w'.migrated && !Enabled(s, w', Migrate)
            && w'.directory.Keys == w.directory.Keys + {s.migration.value.c}
            && (forall v :: v in w'.directory ==>
                  w'.directory[v] == if v == s.migration.value.c then s.migration.value.to else w.directory[v])
            && w' == w.(migrated := true, directory := w'.directory)
  {
  }

  /** A switch passes a packet on with its TTL lowered, unless it runs out or there is no route. */
  lemma {:induction false} SwitchesForward(s: Setup, w: World, step: Step, w': World)
    requires Network.Valid(s) && step.AtSwitch? && Enabled(s, w, step) && w' == Network.Next(s, w, step)
    ensures var x, x' := w.parcels[step.i], w'.parcels[step.i];
            && x'.packet.ttl == (if x.packet.ttl == 0 then 0 else x.packet.ttl - 1)
            && x'.place == (if x.packet.ttl <= 1 || NextHops(s.t, x.place.at, x'.packet.pdst) == Nil then Gone
                            else Arriving(step.next))
            && (x'.place.Arriving? ==> Contains(NextHops(s.t, x.place.at, x'.packet.pdst), step.next))
  {
    var n := w.parcels[step.i].place.at;
    ReceiveFrame(ConfigOf(s, n), w.switches[n], Hopped(w.parcels[step.i].packet), step.coin);
  }
}
