/** What hosts return and what switches send, over whole runs: a returned packet keeps what its
    answer needs, every message a switch sends enters the network, a returned packet is answered
    with an invalidation, and no leaf sends two of them to one switch. */
module Messages {
  import opened Addressing
  import opened Lists
  import opened Topology
  import opened Forwarding
  import opened Walks
  import opened CacheSpec
  import opened BloomFilter
  import opened SwitchSpec
  import opened SwitchProperties
  import opened Network
  import opened Invariants
  import opened Preservation
  import opened Journeys

  // ---------------------------------------------------------------- what a host does

  /** A host keeps a packet for one of its containers as it is. Any other it returns: tagged with the
      pair that sent it here, from its own address, with a fresh TTL, to a gateway if a switch had
      redirected it and to the follow-me address if not; all else in the packet stays. */
  lemma {:induction false} HostsReturnWhole(s: Setup, w: World, i: nat, g: Addr, w': World)
    requires Network.Valid(s) && Enabled(s, w, HostReceive(i, g)) && w' == Network.Next(s, w, HostReceive(i, g))
    ensures i < |w'.parcels|
    ensures var p, q, h := w.parcels[i].packet, w'.parcels[i].packet, w.parcels[i].place.at;
            var a := AddressOf(s.t.podCount, h);
            if w.directory[p.vdst] == a then q == p && w'.parcels[i].place == Delivered(h)
            else
              && w'.parcels[i].place == AtHost(h)
              && q.hit == p.hit && q.evict == p.evict && q.source == p.source && q.hops == p.hops
              && q.vsrc == p.vsrc && q.vdst == p.vdst && q.gwVisits == p.gwVisits
              && q.psrc == a && q.ttl == 64 && q.inval == Some(Mapping(p.vdst, a))
              && q.misdelivered == p.misdelivered + 1
              && (p.hit.Some? ==> q.pdst == g)
              && (p.hit.None? && s.migration.Some? ==> q.pdst == s.migration.value.followMe)
  {
  }

  // ---------------------------------------------------------------- what enters the network

  /** The letters after a switch step: those before, and the message the switch sends, if it sends
      one, as the last of them, on the link to one of the next hops toward its target. */
  lemma {:induction false} SentMessagesEnter(s: Setup, w: World, step: Step, w': World)
    requires Network.Valid(s) && Inv(s, w) && step.AtSwitch? && Enabled(s, w, step) && w' == Network.Next(s, w, step)
    ensures var x := w.parcels[step.i];
            var n := x.place.at;
            var sent := Receive(ConfigOf(s, n), w.switches[n], Hopped(x.packet), step.coin).sent;
            if sent.None? then w'.letters == w.letters
            else
              && |w'.letters| == |w.letters| + 1
              && (forall j :: 0 <= j < |w.letters| ==> w'.letters[j] == w.letters[j])
              && w'.letters[|w.letters|] == Letter(sent.value, Some(step.letterNext), 1)
              && Contains(NextHops(s.t, n, sent.value.dst), step.letterNext)
  {
    var x := w.parcels[step.i];
    var n, st := x.place.at, w.switches[x.place.at];
    assert ParcelRight(s, PhaseOf(w), x) && SwitchRight(s, PhaseOf(w), n, st);
    HoppedFate(s, PhaseOf(w), x.packet);
    if Receive(ConfigOf(s, n), st, Hopped(x.packet), step.coin).sent.Some? {
      SentIsRoutable(s, PhaseOf(w), n, st, Hopped(x.packet), step.coin);
    }
  }

  /** A switch that sends a message has a route for it. */
  lemma {:induction false} SentIsRoutable(s: Setup, ph: Phase, n: Node, st: State, p: Packet, coin: bool)
    requires Network.Valid(s) && Switch(s.t, n) && Fate(s, ph, p)
    requires Receive(ConfigOf(s, n), st, p, coin).sent.Some?
    ensures NextHops(s.t, n, Receive(ConfigOf(s, n), st, p, coin).sent.value.dst) != Nil
  {
    var target := MessageTarget(s, ph, n, st, p, coin);
    OtherAddress(s, n, target);
    SwitchIsRoutable(s.t, n, target);
  }

  // ---------------------------------------------------------------- returned packets are answered

  /** A step that may take tags off packet i: at an ordinary leaf, a gateway or a host. */
  predicate Untags(s: Setup, w: World, step: Step, i: nat)
    requires s.t.podWidth > 0 && Enabled(s, w, step)
  {
    || (step.AtSwitch? && step.i == i && RoleOf(s, w.parcels[i].place.at) == LEAF)
    || (step.GatewaySend? && step.i == i)
    || (step.HostReceive? && step.i == i)
  }

  /** The part of a packet its answer needs. */
  predicate SameTags(p: Packet, q: Packet) {
    q.vdst == p.vdst && q.hit == p.hit && q.inval == p.inval
  }

  lemma {:induction false} SwitchKeepsTags(cfg: Config, st: State, p: Packet, coin: bool)
    requires p.inval.Some? && cfg.role != LEAF
    ensures SameTags(p, Receive(cfg, st, p, coin).packet)
  {
    TaggedAnswersExactly(cfg, st, p, coin);
    ReceiveFrame(cfg, st, p, coin);
  }

  lemma {:induction false} TagsLast(s: Setup, w: World, step: Step, w': World, i: nat)
    requires Network.Valid(s) && Enabled(s, w, step) && w' == Network.Next(s, w, step) && i < |w.parcels|
    requires w.parcels[i].packet.inval.Some? && !Untags(s, w, step, i)
    ensures i < |w'.parcels| && SameTags(w.parcels[i].packet, w'.parcels[i].packet)
  {
    OthersStay(s, w, step, w');
    if step.AtSwitch? && step.i == i {
      var n := w.parcels[i].place.at;
      SwitchKeepsTags(ConfigOf(s, n), w.switches[n], Hopped(w.parcels[i].packet), step.coin);
    }
  }

  lemma {:induction false} RunTagsLast(s: Setup, ws: seq<World>, steps: seq<Step>, i: nat, k0: nat, k: nat)
    requires Network.Valid(s) && Run(s, ws, steps) && k0 <= k < |ws| && i < |ws[k0].parcels|
    requires ws[k0].parcels[i].packet.inval.Some?
    requires forall j :: k0 <= j < k ==> !Untags(s, ws[j], steps[j], i)
    ensures i < |ws[k].parcels| && SameTags(ws[k0].parcels[i].packet, ws[k].parcels[i].packet)
  {
    for j := k0 to k
      invariant i < |ws[j].parcels| && SameTags(ws[k0].parcels[i].packet, ws[j].parcels[i].packet)
    {
      TagsLast(s, ws[j], steps[j], ws[j + 1], i);
    }
  }

  /** Step k puts one message for dst on a link, at switch n. */
  ghost predicate Emits(ws: seq<World>, steps: seq<Step>, k: nat, n: Node, m: Message)
    requires |ws| == |steps| + 1 && k < |steps|
  {
    && steps[k].AtSwitch? && steps[k].i < |ws[k].parcels| && ws[k].parcels[steps[k].i].place == Arriving(n)
    && |ws[k + 1].letters| == |ws[k].letters| + 1
    && ws[k + 1].letters[|ws[k].letters|] == Letter(m, Some(steps[k].letterNext), 1)
  }

  /** A redirected packet that a host returned is answered at the first ordinary leaf it passes with
      its tags: that leaf sends the switch that had redirected it an invalidation of the pair that
      switch used, unless it is that switch itself or has answered for it before. */
  lemma {:induction false} ReturnIsAnswered(s: Setup, ws: seq<World>, steps: seq<Step>, i: nat, k0: nat, k: nat,
                                            n: Node)
    requires Network.Valid(s) && Run(s, ws, steps) && k0 < k < |steps| && s.generateInvalidation
    requires steps[k0].HostReceive? && steps[k0].i == i && ws[k0].parcels[i].packet.hit.Some?
    requires i < |ws[k0 + 1].parcels| && ws[k0 + 1].parcels[i].place.AtHost?
    requires forall j :: k0 < j < k ==> !Untags(s, ws[j], steps[j], i)
    requires steps[k].AtSwitch? && steps[k].i == i && ws[k].parcels[i].place == Arriving(n) && RoleOf(s, n) == LEAF
    requires var h := ws[k0].parcels[i].packet.hit.value;
             && h.address != AddressOf(s.t.podCount, n)
             && (s.bloomEnabled ==> !Marked(ws[k].switches[n].bloom, h.id))
    ensures var p, host := ws[k0].parcels[i].packet, ws[k0].parcels[i].place.at;
            Emits(ws, steps, k, n,
                  Invalidation(Mapping(p.vdst, AddressOf(s.t.podCount, host)), p.hit.value.address))
  {
    HostsReturnWhole(s, ws[k0], i, steps[k0].gateway, ws[k0 + 1]);
    RunTagsLast(s, ws, steps, i, k0 + 1, k);
    TaggedAnswersExactly(ConfigOf(s, n), ws[k].switches[n], Hopped(ws[k].parcels[i].packet), steps[k].coin);
    RunInv(s, ws, steps, k);
    SentMessagesEnter(s, ws[k], steps[k], ws[k + 1]);
  }

  /** A gateway leaf teaches the sender's leaf what it learns, whenever the coin says so. */
  lemma {:induction false} GatewayLeavesTeach(s: Setup, ws: seq<World>, steps: seq<Step>, k: nat, n: Node)
    requires Network.Valid(s) && Run(s, ws, steps) && k < |steps| && steps[k].AtSwitch? && steps[k].coin
    requires ws[k].parcels[steps[k].i].place == Arriving(n) && RoleOf(s, n) == GW_LEAF
    requires var p := ws[k].parcels[steps[k].i].packet; p.inval.None? && (p.evict.Some? || p.pdst !in s.gws)
    ensures var p := ws[k].parcels[steps[k].i].packet;
            var leaf := Leaf(HostOf(p.source).pod, HostOf(p.source).off);
            leaf != n ==> Emits(ws, steps, k, n, Learning(Lesson(p), AddressOf(s.t.podCount, leaf)))
  {
    RunInv(s, ws, steps, k);
    StepTeaches(s, ws[k], steps[k], n);
    SentMessagesEnter(s, ws[k], steps[k], ws[k + 1]);
  }

  lemma {:induction false} StepTeaches(s: Setup, w: World, step: Step, n: Node)
    requires Network.Valid(s) && Inv(s, w) && step.AtSwitch? && step.coin && Enabled(s, w, step)
    requires w.parcels[step.i].place == Arriving(n) && RoleOf(s, n) == GW_LEAF
    requires var p := w.parcels[step.i].packet; p.inval.None? && (p.evict.Some? || p.pdst !in s.gws)
    ensures var p := w.parcels[step.i].packet;
            var leaf := Leaf(HostOf(p.source).pod, HostOf(p.source).off);
            leaf != n ==>
              Receive(ConfigOf(s, n), w.switches[n], Hopped(p), step.coin).sent
              == Some(Learning(Lesson(p), AddressOf(s.t.podCount, leaf)))
  {
    var x := w.parcels[step.i];
    assert ParcelRight(s, PhaseOf(w), x) && SwitchRight(s, PhaseOf(w), n, w.switches[n]);
    LessonIsLive(s, PhaseOf(w), x.packet);
    SendersLeaf(s, x.packet.source, n);
    LearnsExactly(ConfigOf(s, n), w.switches[n], Hopped(x.packet), step.coin, x.packet.vdst);
  }

  /** The leaf of a machine, and its address, which no other switch has. */
  lemma {:induction false} SendersLeaf(s: Setup, a: Addr, n: Node)
    requires Network.Valid(s) && IsHostAddress(s.t, a) && Switch(s.t, n)
    ensures var leaf := Leaf(HostOf(a).pod, HostOf(a).off);
            && LeafAddressForHost(s.t.podCount, a) == AddressOf(s.t.podCount, leaf)
            && (leaf != n ==> AddressOf(s.t.podCount, leaf) != AddressOf(s.t.podCount, n))
  {
    var h := HostOf(a);
    DevicesAreInPlan(s.t, h);
    HostAddressDecodesToItsLeaf(s.t.podCount, h.pod, h.off, h.idx);
    DevicesAreInPlan(s.t, n);
    DevicesAreInPlan(s.t, Leaf(h.pod, h.off));
    AddressesAreDistinct(s.t.podCount, Leaf(h.pod, h.off), n);
  }

  // ---------------------------------------------------------------- one invalidation per switch

  /** Switch number id is the one at address dst; a filter has newly marked it. */
  predicate NewlyMarked(s: Setup, before: Marks, after: Marks, id: nat, dst: Addr)
    requires s.t.podWidth > 0
  {
    && id < SwitchCount(s.t) && AddressOf(s.t.podCount, SwitchWithId(s.t, id)) == dst
    && Marked(after, id) && !Marked(before, id)
  }

  /** A leaf that sends an invalidation had not marked its target, and marks it. */
  lemma {:induction false} AnswerMarks(s: Setup, ph: Phase, n: Node, st: State, p: Packet, coin: bool) returns (id: nat)
    requires Network.Valid(s) && s.bloomEnabled && Fate(s, ph, p) && |st.bloom| == s.bloomSize
    requires var o := Receive(ConfigOf(s, n), st, p, coin); o.sent.Some? && o.sent.value.Invalidation?
    ensures var o := Receive(ConfigOf(s, n), st, p, coin);
            NewlyMarked(s, st.bloom, o.state.bloom, id, o.sent.value.dst)
  {
    SentInvalidationIsAnswer(ConfigOf(s, n), st, p, coin);
    TaggedAnswersExactly(ConfigOf(s, n), st, p, coin);
    id := p.hit.value.id;
  }

  lemma {:induction false} StepState(s: Setup, w: World, step: Step, w': World, n: Node)
    requires Network.Valid(s) && step.AtSwitch? && Enabled(s, w, step) && w' == Network.Next(s, w, step)
    requires w.parcels[step.i].place == Arriving(n)
    ensures n in w'.switches
    ensures w'.switches[n]
            == Receive(ConfigOf(s, n), w.switches[n], Hopped(w.parcels[step.i].packet), step.coin).state
  {
  }

  lemma {:induction false} SendingMarks(s: Setup, ws: seq<World>, steps: seq<Step>, k: nat, n: Node, m: Message)
      returns (id: nat)
    requires Network.Valid(s) && s.bloomEnabled && Run(s, ws, steps) && k < |steps|
    requires Emits(ws, steps, k, n, m) && m.Invalidation?
    ensures n in ws[k].switches && n in ws[k + 1].switches
    ensures NewlyMarked(s, ws[k].switches[n].bloom, ws[k + 1].switches[n].bloom, id, m.dst)
  {
    RunInv(s, ws, steps, k);
    id := StepMarks(s, ws[k], steps[k], ws[k + 1], n, m);
  }

  lemma {:induction false} StepMarks(s: Setup, w: World, step: Step, w': World, n: Node, m: Message) returns (id: nat)
    requires Network.Valid(s) && s.bloomEnabled && Inv(s, w) && step.AtSwitch? && Enabled(s, w, step)
    requires w' == Network.Next(s, w, step) && w.parcels[step.i].place == Arriving(n) && m.Invalidation?
    requires |w'.letters| == |w.letters| + 1 && w'.letters[|w.letters|].message == m
    ensures n in w.switches && n in w'.switches
    ensures NewlyMarked(s, w.switches[n].bloom, w'.switches[n].bloom, id, m.dst)
  {
    var x := w.parcels[step.i];
    assert ParcelRight(s, PhaseOf(w), x) && SwitchRight(s, PhaseOf(w), n, w.switches[n]);
    HoppedFate(s, PhaseOf(w), x.packet);
    SentMessagesEnter(s, w, step, w');
    StepState(s, w, step, w', n);
    id := AnswerMarks(s, PhaseOf(w), n, w.switches[n], Hopped(x.packet), step.coin);
  }

  lemma {:induction false} SentInvalidationIsAnswer(cfg: Config, st: State, p: Packet, coin: bool)
    requires Receive(cfg, st, p, coin).sent.Some? && Receive(cfg, st, p, coin).sent.value.Invalidation?
    ensures p.inval.Some?
  {
    if p.inval.None? {
      UntaggedSendsOnlyLearning(cfg, st, p, coin);
    }
  }

  lemma {:induction false} MarksStay(s: Setup, w: World, step: Step, w': World, n: Node, id: nat)
    requires Network.Valid(s) && Enabled(s, w, step) && w' == Network.Next(s, w, step)
    requires n in w.switches && Marked(w.switches[n].bloom, id)
    ensures n in w'.switches && Marked(w'.switches[n].bloom, id)
  {
    if step.AtSwitch? {
      var m := w.parcels[step.i].place.at;
      MarksGrow(s, m, w.switches[m], Hopped(w.parcels[step.i].packet), step.coin);
    } else if step.LetterAtSwitch? {
      var m := w.letters[step.j].at.value;
      MessagesMarkNothing(ConfigOf(s, m), w.switches[m], w.letters[step.j].message);
    }
  }

  lemma {:induction false} MessagesMarkNothing(cfg: Config, st: State, m: Message)
    ensures HandleMessage(cfg, st, m).0.bloom == st.bloom
  {
  }

  lemma {:induction false} RunMarksStay(s: Setup, ws: seq<World>, steps: seq<Step>, k: nat, later: nat, n: Node,
                                        id: nat)
    requires Network.Valid(s) && Run(s, ws, steps) && k <= later < |ws|
    requires n in ws[k].switches && Marked(ws[k].switches[n].bloom, id)
    ensures n in ws[later].switches && Marked(ws[later].switches[n].bloom, id)
  {
    for j := k to later
      invariant n in ws[j].switches && Marked(ws[j].switches[n].bloom, id)
    {
      MarksStay(s, ws[j], steps[j], ws[j + 1], n, id);
    }
  }

  lemma {:induction false} SameTarget(s: Setup, id: nat, id': nat)
    requires Network.Valid(s) && id < SwitchCount(s.t) && id' < SwitchCount(s.t)
    requires AddressOf(s.t.podCount, SwitchWithId(s.t, id)) == AddressOf(s.t.podCount, SwitchWithId(s.t, id'))
    ensures id == id'
  {
    NumbersAreInverse(s.t, id);
    NumbersAreInverse(s.t, id');
    DevicesAreInPlan(s.t, SwitchWithId(s.t, id));
    DevicesAreInPlan(s.t, SwitchWithId(s.t, id'));
    AddressesAreDistinct(s.t.podCount, SwitchWithId(s.t, id), SwitchWithId(s.t, id'));
  }

  /** With the filter on and large enough, no leaf ever sends two invalidations to one switch: of any
      two steps of a run at one leaf that put an invalidation on a link, the targets differ. */
  lemma {:induction false} NoLeafInvalidatesTwice(s: Setup, ws: seq<World>, steps: seq<Step>, k: nat, k': nat, n: Node,
                                                  m: Message, m': Message)
    requires Network.Valid(s) && s.bloomEnabled && Run(s, ws, steps) && k < k' < |steps|
    requires Emits(ws, steps, k, n, m) && Emits(ws, steps, k', n, m') && m.Invalidation? && m'.Invalidation?
    ensures m.dst != m'.dst
  {
    var id := SendingMarks(s, ws, steps, k, n, m);
    var id' := SendingMarks(s, ws, steps, k', n, m');
    RunMarksStay(s, ws, steps, k + 1, k', n, id);
    if m.dst == m'.dst {
      SameTarget(s, id, id');
    }
  }

  // ---------------------------------------------------------------- marks have a cause

  /** Step j of a run: leaf n answers, or could have answered, the hit of switch id. */
  predicate Answered(ws: seq<World>, steps: seq<Step>, j: nat, n: Node, id: nat)
    requires |ws| == |steps| + 1 && j < |steps|
  {
    && steps[j].AtSwitch? && steps[j].i < |ws[j].parcels| && ws[j].parcels[steps[j].i].place == Arriving(n)
    && var p := ws[j].parcels[steps[j].i].packet;
       p.inval.Some? && p.hit.Some? && p.hit.value.id == id
  }

  lemma {:induction false} StepMarksOnlyAnswered(s: Setup, w: World, step: Step, w': World, n: Node, id: nat)
    requires Network.Valid(s) && Enabled(s, w, step) && w' == Network.Next(s, w, step)
    requires n in w'.switches && Marked(w'.switches[n].bloom, id)
    ensures n in w.switches
    ensures Marked(w.switches[n].bloom, id) ||
            (step.AtSwitch? && w.parcels[step.i].place == Arriving(n) &&
             var p := w.parcels[step.i].packet; p.inval.Some? && p.hit.Some? && p.hit.value.id == id)
  {
    if step.AtSwitch? {
      var m, p := w.parcels[step.i].place.at, Hopped(w.parcels[step.i].packet);
      if p.inval.Some? {
        TaggedAnswersExactly(ConfigOf(s, m), w.switches[m], p, step.coin);
      } else {
        UntaggedSendsOnlyLearning(ConfigOf(s, m), w.switches[m], p, step.coin);
      }
    } else if step.LetterAtSwitch? {
      var m := w.letters[step.j].at.value;
      MessagesMarkNothing(ConfigOf(s, m), w.switches[m], w.letters[step.j].message);
    }
  }

  lemma {:induction false} RunMarksOnlyAnswered(s: Setup, ws: seq<World>, steps: seq<Step>, k: nat, n: Node, id: nat)
    requires Network.Valid(s) && Run(s, ws, steps) && k < |steps| && MarkedAt(ws[k + 1], n, id)
    ensures MarkedAt(ws[k], n, id) || Answered(ws, steps, k, n, id)
  {
    StepMarksOnlyAnswered(s, ws[k], steps[k], ws[k + 1], n, id);
  }

  predicate MarkedAt(w: World, n: Node, id: nat) {
    n in w.switches && Marked(w.switches[n].bloom, id)
  }

  lemma {:induction false} UnmarkedAtFirst(s: Setup, w: World, n: Node, id: nat)
    requires Network.Valid(s) && Initial(s, w)
    ensures !MarkedAt(w, n, id)
  {
  }

  /** A filter marks a switch only after a packet with that switch's hit tag came back to the leaf. */
  lemma {:induction false} MarksHaveACause(s: Setup, ws: seq<World>, steps: seq<Step>, k: nat, n: Node, id: nat)
    requires Network.Valid(s) && Run(s, ws, steps) && k < |ws| && MarkedAt(ws[k], n, id)
    ensures exists j :: 0 <= j < k && Answered(ws, steps, j, n, id)
  {
    UnmarkedAtFirst(s, ws[0], n, id);
    for q := 0 to k
      invariant MarkedAt(ws[q], n, id) ==> exists j :: 0 <= j < q && Answered(ws, steps, j, n, id)
    {
      if MarkedAt(ws[q + 1], n, id) {
        RunMarksOnlyAnswered(s, ws, steps, q, n, id);
      }
    }
  }
}
