/** What each step of the system changes, and that it changes nothing else: every field of every
    packet, message, switch and directory after a step, in terms of the world before it. */
module Steps {
  import opened Addressing
  import opened Lists
  import opened CacheSpec
  import opened SwitchSpec
  import opened SwitchProperties
  import opened Network

  /** A sent packet is new: from its machine to a gateway, with TTL 64, no tags and no history, on the
      link to the machine's leaf. */
  lemma {:induction false} SentPacketsAreFresh(s: Setup, w: World, step: Step, w': World)
    requires Network.Valid(s) && step.Send? && Enabled(s, w, step) && w' == Network.Next(s, w, step)
    ensures |w'.parcels| == |w.parcels| + 1
    ensures var x, a := w'.parcels[|w.parcels|], AddressOf(s.t.podCount, step.host);
            && x.place == Arriving(Leaf(step.host.pod, step.host.off))
            && x.packet == Packet(step.vsrc, step.vdst, a, step.gateway, 64, a, 0, None, None, None, 0, 0)
  {
  }

  /** A gateway holds a packet for the machine the directory now names and changes nothing else in it
      but the count of its visits. */
  lemma {:induction false} GatewaysResolveWhole(s: Setup, w: World, i: nat, w': World)
    requires Network.Valid(s) && Enabled(s, w, GatewayReceive(i)) && w' == Network.Next(s, w, GatewayReceive(i))
    ensures i < |w'.parcels|
    ensures var x, x' := w.parcels[i], w'.parcels[i];
            && x'.place == AtGateway(x.place.at)
            && x'.packet == x.packet.(pdst := w.directory[x.packet.vdst], gwVisits := x.packet.gwVisits + 1)
  {
  }

  /** What a machine holds it sends to its leaf: a host as it is, a gateway without tags. Loss on a
      link takes the packet away and changes nothing in it. */
  lemma {:induction false} HeldPacketsLeave(s: Setup, w: World, step: Step, w': World)
    requires Network.Valid(s) && (step.GatewaySend? || step.HostSend? || step.LosePacket?)
    requires Enabled(s, w, step) && w' == Network.Next(s, w, step)
    ensures step.i < |w'.parcels|
    ensures var x, x' := w.parcels[step.i], w'.parcels[step.i];
            && x'.packet == (if step.GatewaySend? then x.packet.(evict := None, inval := None) else x.packet)
            && (step.LosePacket? ==> x'.place == Gone)
            && (!step.LosePacket? && x.place.host.Host? ==> x'.place == Arriving(Leaf(x.place.host.pod,
                                                                                      x.place.host.off)))
  {
  }

  /** A packet passing a switch keeps all but destination, eviction and hit tag, loses one from its TTL
      and gains one hop. */
  lemma {:induction false} PassingPacketsKeepTheRest(s: Setup, w: World, step: Step, w': World)
    requires Network.Valid(s) && step.AtSwitch? && Enabled(s, w, step) && w' == Network.Next(s, w, step)
    ensures step.i < |w'.parcels|
    ensures var p, q := w.parcels[step.i].packet, w'.parcels[step.i].packet;
            q == p.(hops := p.hops + 1, ttl := if p.ttl == 0 then 0 else p.ttl - 1,
                    pdst := q.pdst, evict := q.evict, hit := q.hit)
  {
    var n := w.parcels[step.i].place.at;
    ReceiveFrame(ConfigOf(s, n), w.switches[n], Hopped(w.parcels[step.i].packet), step.coin);
  }

  /** The switch a step is at, if it is at one. */
  function SwitchOf(w: World, step: Step): Option<Node> {
    match step
    case AtSwitch(i, _, _, _) =>
      if i < |w.parcels| && w.parcels[i].place.Arriving? then Some(w.parcels[i].place.at) else None
    case LetterAtSwitch(j, _) => if j < |w.letters| then w.letters[j].at else None
    case _ => None
  }

  /** A step changes at most one switch: a packet's or a message's, as that switch handles it. */
  lemma {:induction false} OtherSwitchesStay(s: Setup, w: World, step: Step, w': World)
    requires Network.Valid(s) && Enabled(s, w, step) && w' == Network.Next(s, w, step)
    ensures w'.switches.Keys == w.switches.Keys
    ensures forall n :: n in w.switches && SwitchOf(w, step) != Some(n) ==> w'.switches[n] == w.switches[n]
    ensures step.AtSwitch? ==>
              var n, p := w.parcels[step.i].place.at, w.parcels[step.i].packet;
              w'.switches[n]
              == Receive(ConfigOf(s, n), w.switches[n], p.(hops := p.hops + 1), step.coin).state
    ensures step.LetterAtSwitch? ==>
              var n := w.letters[step.j].at.value;
              w'.switches[n] == HandleMessage(ConfigOf(s, n), w.switches[n], w.letters[step.j].message).0
  {
  }

  /** A step that handles or loses message j. */
  predicate Handles(step: Step, j: nat) {
    (step.LetterAtSwitch? && step.j == j) || (step.LoseLetter? && step.j == j)
  }

  /** Messages change only where they are handled or lost, and enter only at switch steps; only the
      migration changes the directory. */
  lemma {:induction false} OtherMessagesStay(s: Setup, w: World, step: Step, w': World)
    requires Network.Valid(s) && Enabled(s, w, step) && w' == Network.Next(s, w, step)
    ensures |w'.letters| >= |w.letters| && (!step.AtSwitch? ==> |w'.letters| == |w.letters|)
    ensures forall j :: 0 <= j < |w.letters| && !Handles(step, j) ==> w'.letters[j] == w.letters[j]
    ensures step.LoseLetter? ==> w'.letters[step.j] == w.letters[step.j].(at := None)
    ensures !step.Migrate? ==> w'.directory == w.directory && w'.migrated == w.migrated
  {
  }

  /** The records of a run only grow, and only at switches: by the invalidation a switch generates and
      by the assertions that would have fired there or at a host that tags a packet twice. */
  lemma {:induction false} RecordsGrow(s: Setup, w: World, step: Step, w': World)
    requires Network.Valid(s) && Enabled(s, w, step) && w' == Network.Next(s, w, step)
    ensures !step.AtSwitch? ==> w'.generated == w.generated
    ensures !step.AtSwitch? && !step.HostReceive? ==> w'.faults == w.faults
    ensures step.HostReceive? && w'.parcels[step.i].place.AtHost? ==>
              w'.faults == w.faults + if w.parcels[step.i].packet.inval.Some? then 1 else 0
    ensures step.AtSwitch? ==>
              var n, p := w.parcels[step.i].place.at, w.parcels[step.i].packet;
              var o := Receive(ConfigOf(s, n), w.switches[n], p.(hops := p.hops + 1), step.coin);
              && w'.generated == (if o.generated.Some? then Snoc(w.generated, (n, o.generated.value)) else w.generated)
              && w'.faults == w.faults + if o.fault then 1 else 0
  {
  }

  /** Anything on a link may be lost. */
  lemma {:induction false} LinksMayLose(s: Setup, w: World, i: nat)
    requires Network.Valid(s)
    ensures Enabled(s, w, LosePacket(i)) <==> i < |w.parcels| && w.parcels[i].place.Arriving?
    ensures Enabled(s, w, LoseLetter(i)) <==> i < |w.letters| && w.letters[i].at.Some?
  {
  }
}
