/** What holds in every run of the Bluebird slow path, over every interleaving of its events. */
module BluebirdProperties {
  import opened Addressing
  import opened CacheSpec
  import opened LruCache
  import opened BluebirdSpec

  // ---------------------------------------------------------------- one transmission starts

  lemma {:induction false} HeldAfterStart(aw: seq<Timed<Pkt>>, q: seq<Pkt>, due: Time)
    requires q != []
    ensures Packets(aw + [At(due, q[0])]) + q[1..] == Packets(aw) + q
  {
  }

  lemma {:induction false} DueAfterStart(cfg: Settings, aw: seq<Timed<Pkt>>, now: Time, tx: Time, p: Pkt)
    requires DueInOrder(cfg, aw, now)
    ensures DueInOrder(cfg, aw + [At(now + tx + cfg.delay, p)], now + tx + COMPLETION_GAP)
  {
  }

  lemma {:induction false} ProgramAfterStart(cfg: Settings, aw: seq<Timed<Pkt>>, programming: seq<Timed<Addr>>,
                                             now: Time, tx: Time, p: Pkt)
    requires ProgramInOrder(cfg, aw, programming, now)
    ensures ProgramInOrder(cfg, aw + [At(now + tx + cfg.delay, p)], programming, now + tx + COMPLETION_GAP)
  {
  }

  lemma {:induction false} StartedDue(cfg: Settings, d: Device, now: Time, q: seq<Pkt>)
    requires d.completions == [] && q != [] && NothingDueBefore(d, now)
    ensures var d' := TxStart(cfg, d.(queue := q[1..]), now, q[0]);
            NothingDueBefore(d', now) && TransmitterOk(d')
  {
  }

  /** Starting the oldest of the waiting packets on a free transmitter. */
  lemma {:induction false} StartKeepsClockwork(cfg: Settings, d: Device, now: Time, q: seq<Pkt>)
    requires d.completions == [] && q != [] && NothingDueBefore(d, now) && DueInOrder(cfg, d.awaiting, now)
    requires ProgramInOrder(cfg, d.awaiting, d.programming, now)
    ensures var d' := TxStart(cfg, d.(queue := q[1..]), now, q[0]);
            ClockworkOk(cfg, d', now) && Held(d') == Packets(d.awaiting) + q
  {
    var tx := cfg.txTime(q[0].size);
    StartedDue(cfg, d, now, q);
    HeldAfterStart(d.awaiting, q, now + tx + cfg.delay);
    DueAfterStart(cfg, d.awaiting, now, tx, q[0]);
    ProgramAfterStart(cfg, d.awaiting, d.programming, now, tx, q[0]);
  }

  // ---------------------------------------------------------------- arrivals

  /** Time passes up to the next event without harm. */
  lemma {:induction false} TimePasses(cfg: Settings, d: Device, now: Time, at: Time)
    requires ClockworkOk(cfg, d, now) && now <= at && NothingDueBefore(d, at)
    ensures ClockworkOk(cfg, d, at)
  {
  }

  lemma {:induction false} AcceptedClockwork(cfg: Settings, d: Device, now: Time, p: Pkt)
    requires ClockworkOk(cfg, d, now) && Fits(cfg, d.queue, p)
    ensures ClockworkOk(cfg, Missed(cfg, d, now, p), now)
    ensures Held(Missed(cfg, d, now, p)) == Held(d) + [p]
    ensures var d' := Missed(cfg, d, now, p);
            d'.sockets == d.sockets && d'.cache == d.cache && d'.programming == d.programming
  {
    if !d.busy {
      assert d.queue + [p] == [p];
      StartKeepsClockwork(cfg, d, now, [p]);
    }
  }

  lemma {:induction false} SocketsAdd(held: seq<Pkt>, sockets: map<nat, nat>, p: Pkt, socket: nat)
    requires SocketsOk(held, sockets) && p.uid !in sockets
    ensures SocketsOk(held + [p], sockets[p.uid := socket])
  {
    var held', sockets' := held + [p], sockets[p.uid := socket];
    forall u | u in sockets' ensures exists i :: 0 <= i < |held'| && held'[i].uid == u {
      if u == p.uid {
        assert held'[|held|].uid == u;
      } else {
        var i :| 0 <= i < |held| && held[i].uid == u;
        assert held'[i].uid == u;
      }
    }
  }

  /** Bytes is the sum of the sizes. */
  lemma {:induction false} BytesOfOne(p: Pkt)
    ensures Bytes([p]) == p.size && Bytes([]) == 0
  {
    assert [p][..0] == [];
  }

  lemma {:induction false} BytesSplit(a: seq<Pkt>, b: seq<Pkt>)
    ensures Bytes(a + b) == Bytes(a) + Bytes(b)
  {
    if b == [] {
      assert a + b == a;
    } else {
      BytesSplit(a, b[..|b| - 1]);
      assert (a + b)[..|a + b| - 1] == a + b[..|b| - 1];
    }
  }

  lemma {:induction false} TailFits(cfg: Settings, q: seq<Pkt>)
    requires QueueOk(cfg, q)
    ensures q != [] ==> QueueOk(cfg, q[1..])
  {
    if q != [] {
      BytesSplit([q[0]], q[1..]);
      assert [q[0]] + q[1..] == q;
    }
  }

  lemma {:induction false} InterleavesLeft(all: seq<Pkt>, a: seq<Pkt>, b: seq<Pkt>, p: Pkt)
    requires Interleaves(all, a, b)
    ensures Interleaves(all + [p], a + [p], b) && Interleaves(all + [p], a, b + [p])
  {
    assert (all + [p])[..|all|] == all && (a + [p])[..|a|] == a && (b + [p])[..|b|] == b;
  }

  lemma {:induction false} GetKeepsCache(cfg: Settings, q: Queue<Addr, Addr>, v: Addr)
    requires CacheOk(cfg, q)
    ensures CacheOk(cfg, GetQueue(q, v))
  {
    WithoutFacts(q, v);
  }

  lemma {:induction false} PutKeepsCache(cfg: Settings, q: Queue<Addr, Addr>, v: Addr)
    requires CacheOk(cfg, q) && v in cfg.dir && cfg.capacity > 0
    ensures CacheOk(cfg, PutQueue(cfg.capacity, q, v, cfg.dir[v]))
  {
    OperationsKeepShape(cfg.capacity, q, v, cfg.dir[v]);
    WithoutFacts(q, v);
    if Size(q) > 0 {
      TakeFacts(q, Size(q) - 1);
    }
  }

  lemma {:induction false} SocketsUntouched(sockets: map<nat, nat>, u: nat, s: nat)
    requires u !in sockets
    ensures sockets[u := s] - {u} == sockets
  {
  }

  /** The invariant from its parts; held is what the device holds. */
  lemma {:induction false} InvFromParts(cfg: Settings, m: Machine, held: seq<Pkt>)
    requires ClockworkOk(cfg, m.dev, m.now) && held == Held(m.dev)
    requires LogOk(held, m.missed, m.accepted, m.dropped, m.processed) && HeldOk(cfg, held, m.dev.sockets)
    requires CacheOk(cfg, m.dev.cache) && ProgrammingKnown(cfg, m.dev.programming)
    requires ProgramLogOk(m.processed, m.programmed, m.dev.programming) && QueueOk(cfg, m.dev.queue)
    ensures Inv(cfg, m)
  {
  }

  /** A device that differs only in its cache. */
  lemma {:induction false} CacheDoesNotMatter(cfg: Settings, d: Device, cache: Queue<Addr, Addr>, now: Time)
    requires ClockworkOk(cfg, d, now)
    ensures ClockworkOk(cfg, d.(cache := cache), now) && Held(d.(cache := cache)) == Held(d)
  {
  }

  /** A packet that does not enter the queue leaves the device as it was, but for the clock and
      the cache's order. */
  lemma {:induction false} PassingPacketInv(cfg: Settings, m: Machine, at: Time, dropped: seq<Pkt>, missed: seq<Pkt>,
                                            cache: Queue<Addr, Addr>)
    requires Inv(cfg, m) && m.now <= at && NothingDueBefore(m.dev, at)
    requires Interleaves(missed, m.accepted, dropped) && CacheOk(cfg, cache)
    ensures Inv(cfg, m.(now := at, dev := m.dev.(cache := cache), missed := missed, dropped := dropped))
  {
    TimePasses(cfg, m.dev, m.now, at);
    CacheDoesNotMatter(cfg, m.dev, cache, at);
    InvFromParts(cfg, m.(now := at, dev := m.dev.(cache := cache), missed := missed, dropped := dropped), Held(m.dev));
  }

  lemma {:induction false} LogAccepts(held: seq<Pkt>, missed: seq<Pkt>, accepted: seq<Pkt>, dropped: seq<Pkt>,
                                      processed: seq<Pkt>, p: Pkt)
    requires LogOk(held, missed, accepted, dropped, processed)
    ensures LogOk(held + [p], missed + [p], accepted + [p], dropped, processed)
  {
    InterleavesLeft(missed, accepted, dropped, p);
  }

  lemma {:induction false} AcceptedInv(cfg: Settings, m: Machine, at: Time, socket: nat, p: Pkt, d: Device)
    requires Inv(cfg, m) && p.vdst in cfg.dir && p.uid !in m.dev.sockets
    requires ClockworkOk(cfg, d, at) && Held(d) == Held(m.dev) + [p] && QueueOk(cfg, d.queue)
    requires d.sockets == m.dev.sockets[p.uid := socket] && d.cache == m.dev.cache && d.programming == m.dev.programming
    ensures Inv(cfg, m.(now := at, dev := d, missed := m.missed + [p], accepted := m.accepted + [p]))
  {
    SocketsAdd(Held(m.dev), m.dev.sockets, p, socket);
    LogAccepts(Held(m.dev), m.missed, m.accepted, m.dropped, m.processed, p);
    InvFromParts(cfg, m.(now := at, dev := d, missed := m.missed + [p], accepted := m.accepted + [p]),
                 Held(m.dev) + [p]);
  }

  lemma {:induction false} QueuedInv(cfg: Settings, m: Machine, at: Time, socket: nat, p: Pkt)
    requires Inv(cfg, m) && m.now <= at && NothingDueBefore(m.dev, at)
    requires p.vdst in cfg.dir && p.uid !in m.dev.sockets && Fits(cfg, m.dev.queue, p)
    ensures Inv(cfg, m.(now := at, dev := Missed(cfg, m.dev.(sockets := m.dev.sockets[p.uid := socket]), at, p),
                        missed := m.missed + [p], accepted := m.accepted + [p]))
  {
    var d := m.dev.(sockets := m.dev.sockets[p.uid := socket]);
    TimePasses(cfg, m.dev, m.now, at);
    AcceptedClockwork(cfg, d, at, p);
    BytesSplit(d.queue, [p]);
    AcceptedInv(cfg, m, at, socket, p, Missed(cfg, d, at, p));
  }

  lemma {:induction false} ArriveInv(cfg: Settings, m: Machine, at: Time, socket: nat, p: Pkt, pdst: Addr)
    requires Inv(cfg, m) && Enabled(cfg, m, Arrive(at, socket, p, pdst))
    ensures Inv(cfg, Next(cfg, m, Arrive(at, socket, p, pdst)))
  {
    SocketsUntouched(m.dev.sockets, p.uid, socket);
    if !Misses(cfg, m.dev, p, pdst) {
      GetKeepsCache(cfg, m.dev.cache, p.vdst);
      var cache := if pdst in cfg.gws then GetQueue(m.dev.cache, p.vdst) else m.dev.cache;
      PassingPacketInv(cfg, m, at, m.dropped, m.missed, cache);
    } else if Fits(cfg, m.dev.queue, p) {
      QueuedInv(cfg, m, at, socket, p);
    } else {
      InterleavesLeft(m.missed, m.accepted, m.dropped, p);
      PassingPacketInv(cfg, m, at, m.dropped + [p], m.missed + [p], m.dev.cache);
    }
  }

  // ---------------------------------------------------------------- events

  lemma {:induction false} OldestIsFirst(cfg: Settings, aw: seq<Timed<Pkt>>, free: Time, i: nat)
    requires DueInOrder(cfg, aw, free) && i < |aw| && forall a :: a in aw ==> aw[i].due <= a.due
    ensures i == 0 && Erased(aw, i) == aw[1..]
  {
    assert aw[0] in aw;
  }

  lemma {:induction false} SocketsRemove(held: seq<Pkt>, sockets: map<nat, nat>)
    requires SocketsOk(held, sockets) && held != []
    ensures SocketsOk(held[1..], sockets - {held[0].uid})
  {
    var held', sockets' := held[1..], sockets - {held[0].uid};
    forall u | u in sockets' ensures exists i :: 0 <= i < |held'| && held'[i].uid == u {
      var i :| 0 <= i < |held| && held[i].uid == u;
      assert held'[i - 1].uid == u;
    }
  }

  /** The device after its oldest packet was processed at its due time. */
  ghost predicate ProcessedOldest(cfg: Settings, d: Device, d': Device) {
    && d.awaiting != [] && d'.awaiting == d.awaiting[1..]
    && d'.queue == d.queue && d'.busy == d.busy && d'.completions == d.completions && d'.cache == d.cache
    && d'.sockets == d.sockets - {d.awaiting[0].what.uid}
    && d'.programming == d.programming + [At(d.awaiting[0].due + cfg.programmingDelay, d.awaiting[0].what.vdst)]
  }

  lemma {:induction false} HeldRest(d: Device, d': Device)
    requires d.awaiting != [] && d'.awaiting == d.awaiting[1..] && d'.queue == d.queue
    ensures Held(d) != [] && Held(d)[0] == d.awaiting[0].what && Held(d') == Held(d)[1..]
  {
    assert Held(d') == Held(d)[1..];
  }

  lemma {:induction false} DueRest(cfg: Settings, aw: seq<Timed<Pkt>>, rest: seq<Timed<Pkt>>, free: Time, free': Time)
    requires DueInOrder(cfg, aw, free) && aw != [] && rest == aw[1..] && free <= free'
    ensures DueInOrder(cfg, rest, free')
    ensures forall a :: a in rest ==> aw[0].due <= a.due
  {
  }

  lemma {:induction false} ProgramRest(cfg: Settings, aw: seq<Timed<Pkt>>, rest: seq<Timed<Pkt>>,
                                       programming: seq<Timed<Addr>>,
                                       programming': seq<Timed<Addr>>, free: Time, free': Time)
    requires DueInOrder(cfg, aw, free) && ProgramInOrder(cfg, aw, programming, free)
    requires aw != [] && rest == aw[1..] && free <= free'
    requires programming' == programming + [At(aw[0].due + cfg.programmingDelay, aw[0].what.vdst)]
    ensures ProgramInOrder(cfg, rest, programming', free')
  {
  }

  lemma {:induction false} ProcessedDue(cfg: Settings, d: Device, d': Device)
    requires ProcessedOldest(cfg, d, d') && NothingDueBefore(d, d.awaiting[0].due)
    requires forall a :: a in d'.awaiting ==> d.awaiting[0].due <= a.due
    ensures NothingDueBefore(d', d.awaiting[0].due)
  {
  }

  lemma {:induction false} ProcessedClockwork(cfg: Settings, d: Device, now: Time, d': Device)
    requires ClockworkOk(cfg, d, now) && ProcessedOldest(cfg, d, d') && NothingDueBefore(d, d.awaiting[0].due)
    ensures ClockworkOk(cfg, d', d.awaiting[0].due)
    ensures Held(d) != [] && Held(d)[0] == d.awaiting[0].what && Held(d') == Held(d)[1..]
  {
    var due := d.awaiting[0].due;
    assert d.awaiting[0] in d.awaiting;
    HeldRest(d, d');
    DueRest(cfg, d.awaiting, d'.awaiting, FreeAt(d, now), FreeAt(d', due));
    ProgramRest(cfg, d.awaiting, d'.awaiting, d.programming, d'.programming, FreeAt(d, now), FreeAt(d', due));
    ProcessedDue(cfg, d, d');
  }

  lemma {:induction false} LogProcesses(held: seq<Pkt>, missed: seq<Pkt>, accepted: seq<Pkt>, dropped: seq<Pkt>,
                                        processed: seq<Pkt>)
    requires LogOk(held, missed, accepted, dropped, processed) && held != []
    ensures LogOk(held[1..], missed, accepted, dropped, processed + [held[0]])
  {
    assert held == [held[0]] + held[1..];
  }

  lemma {:induction false} HeldShrinks(cfg: Settings, held: seq<Pkt>, sockets: map<nat, nat>)
    requires HeldOk(cfg, held, sockets) && held != []
    ensures HeldOk(cfg, held[1..], sockets - {held[0].uid})
  {
    SocketsRemove(held, sockets);
  }

  lemma {:induction false} ProcessedInv(cfg: Settings, m: Machine, now: Time, x: Pkt, d: Device)
    requires Inv(cfg, m) && Held(m.dev) != [] && x == Held(m.dev)[0] && Held(d) == Held(m.dev)[1..]
    requires ClockworkOk(cfg, d, now) && ProgrammingKnown(cfg, d.programming) && d.queue == m.dev.queue
    requires ProgramLogOk(m.processed + [x], m.programmed, d.programming)
    requires d.sockets == m.dev.sockets - {x.uid} && d.cache == m.dev.cache
    ensures Inv(cfg, m.(now := now, processed := m.processed + [x], dev := d))
  {
    var held := Held(m.dev);
    HeldShrinks(cfg, held, m.dev.sockets);
    LogProcesses(held, m.missed, m.accepted, m.dropped, m.processed);
    InvFromParts(cfg, m.(now := now, processed := m.processed + [x], dev := d), held[1..]);
  }

  lemma {:induction false} ProgramLogGrows(processed: seq<Pkt>, programmed: seq<Addr>, programming: seq<Timed<Addr>>,
                                           p: Pkt, due: Time)
    requires ProgramLogOk(processed, programmed, programming)
    ensures ProgramLogOk(processed + [p], programmed, programming + [At(due, p.vdst)])
  {
    assert Pending(programming + [At(due, p.vdst)]) == Pending(programming) + [p.vdst];
    assert Destinations(processed + [p]) == Destinations(processed) + [p.vdst];
  }

  lemma {:induction false} ProgramLogMoves(processed: seq<Pkt>, programmed: seq<Addr>, programming: seq<Timed<Addr>>)
    requires ProgramLogOk(processed, programmed, programming) && programming != []
    ensures ProgramLogOk(processed, programmed + [programming[0].what], programming[1..])
  {
    assert Pending(programming) == [programming[0].what] + Pending(programming[1..]);
  }

  lemma {:induction false} OldestEntryIsFirst(cfg: Settings, aw: seq<Timed<Pkt>>, programming: seq<Timed<Addr>>,
                                              free: Time, i: nat)
    requires ProgramInOrder(cfg, aw, programming, free) && i < |programming|
    requires forall e :: e in programming ==> programming[i].due <= e.due
    ensures i == 0 && Erased(programming, i) == programming[1..]
  {
    assert programming[0] in programming;
  }

  lemma {:induction false} KnownGrows(cfg: Settings, held: seq<Pkt>, programming: seq<Timed<Addr>>, due: Time)
    requires Known(cfg, held) && held != [] && ProgrammingKnown(cfg, programming)
    ensures ProgrammingKnown(cfg, programming + [At(due, held[0].vdst)])
  {
  }

  /** Processing the oldest packet: the logs. */
  lemma {:induction false} ProcessedLogs(cfg: Settings, m: Machine, d: Device)
    requires Inv(cfg, m) && ProcessedOldest(cfg, m.dev, d)
    ensures ProgramLogOk(m.processed + [m.dev.awaiting[0].what], m.programmed, d.programming)
    ensures ProgrammingKnown(cfg, d.programming)
  {
    var e := m.dev.awaiting[0];
    assert Held(m.dev)[0] == e.what;
    ProgramLogGrows(m.processed, m.programmed, m.dev.programming, e.what, e.due + cfg.programmingDelay);
    KnownGrows(cfg, Held(m.dev), m.dev.programming, e.due + cfg.programmingDelay);
  }

  lemma {:induction false} ProcessOldestInv(cfg: Settings, m: Machine, e: Timed<Pkt>, d: Device)
    requires Inv(cfg, m) && ProcessedOldest(cfg, m.dev, d) && e == m.dev.awaiting[0] && NothingDueBefore(m.dev, e.due)
    ensures Inv(cfg, m.(now := e.due, processed := m.processed + [e.what], dev := d))
  {
    ProcessedClockwork(cfg, m.dev, m.now, d);
    ProcessedLogs(cfg, m, d);
    ProcessedInv(cfg, m, e.due, e.what, d);
  }

  lemma {:induction false} FirstIsOldest(cfg: Settings, d: Device)
    requires d.awaiting != []
    ensures ProcessedOldest(cfg, d, Processed(cfg, d.(awaiting := Erased(d.awaiting, 0)), d.awaiting[0].due,
                                              d.awaiting[0].what))
  {
    assert Erased(d.awaiting, 0) == d.awaiting[1..];
  }

  lemma {:induction false} ProcessInv(cfg: Settings, m: Machine, i: nat)
    requires Inv(cfg, m) && Enabled(cfg, m, ProcessNext(i))
    ensures Inv(cfg, Next(cfg, m, ProcessNext(i)))
  {
    OldestIsFirst(cfg, m.dev.awaiting, FreeAt(m.dev, m.now), i);
    FirstIsOldest(cfg, m.dev);
    var e := m.dev.awaiting[0];
    ProcessOldestInv(cfg, m, e, Processed(cfg, m.dev.(awaiting := Erased(m.dev.awaiting, 0)), e.due, e.what));
  }

  lemma {:induction false} CompletedClockwork(cfg: Settings, d: Device, now: Time)
    requires ClockworkOk(cfg, d, now) && |d.completions| == 1 && NothingDueBefore(d, d.completions[0])
    ensures var d' := TxComplete(cfg, d.(completions := []), d.completions[0]);
            && ClockworkOk(cfg, d', d.completions[0]) && Held(d') == Held(d)
            && d'.sockets == d.sockets && d'.cache == d.cache && d'.programming == d.programming
  {
    if d.queue != [] {
      StartKeepsClockwork(cfg, d.(completions := [], busy := false), d.completions[0], d.queue);
    }
  }

  lemma {:induction false} CompleteInv(cfg: Settings, m: Machine, i: nat)
    requires Inv(cfg, m) && Enabled(cfg, m, CompleteTx(i))
    ensures Inv(cfg, Next(cfg, m, CompleteTx(i)))
  {
    assert Erased(m.dev.completions, i) == [];
    CompletedClockwork(cfg, m.dev, m.now);
    TailFits(cfg, m.dev.queue);
    InvFromParts(cfg, Next(cfg, m, CompleteTx(i)), Held(m.dev));
  }

  /** One event less, and perhaps a new cache. */
  lemma {:induction false} ProgrammedClockwork(cfg: Settings, d: Device, now: Time, rest: seq<Timed<Addr>>,
                                               cache: Queue<Addr, Addr>)
    requires ClockworkOk(cfg, d, now) && d.programming != [] && rest == d.programming[1..]
    requires NothingDueBefore(d, d.programming[0].due)
    ensures var d' := d.(programming := rest, cache := cache);
            ClockworkOk(cfg, d', d.programming[0].due) && Held(d') == Held(d)
  {
    assert d.programming[0] in d.programming;
    TimePasses(cfg, d, now, d.programming[0].due);
    assert forall x :: x in rest ==> x in d.programming;
  }

  lemma {:induction false} PopulateOldestInv(cfg: Settings, m: Machine, rest: seq<Timed<Addr>>,
                                             cache: Queue<Addr, Addr>)
    requires Inv(cfg, m) && m.dev.programming != [] && rest == m.dev.programming[1..] && CacheOk(cfg, cache)
    requires NothingDueBefore(m.dev, m.dev.programming[0].due)
    ensures var e := m.dev.programming[0];
            Inv(cfg, m.(now := e.due, programmed := m.programmed + [e.what],
                        dev := m.dev.(programming := rest, cache := cache)))
  {
    var e := m.dev.programming[0];
    ProgrammedClockwork(cfg, m.dev, m.now, rest, cache);
    ProgramLogMoves(m.processed, m.programmed, m.dev.programming);
    InvFromParts(cfg, m.(now := e.due, programmed := m.programmed + [e.what],
                         dev := m.dev.(programming := rest, cache := cache)), Held(m.dev));
  }

  lemma {:induction false} PopulateInv(cfg: Settings, m: Machine, i: nat)
    requires cfg.capacity > 0 && Inv(cfg, m) && Enabled(cfg, m, Populate(i))
    ensures Inv(cfg, Next(cfg, m, Populate(i)))
  {
    OldestEntryIsFirst(cfg, m.dev.awaiting, m.dev.programming, FreeAt(m.dev, m.now), i);
    var v := m.dev.programming[0].what;
    PutKeepsCache(cfg, m.dev.cache, v);
    PopulateOldestInv(cfg, m, Erased(m.dev.programming, i), PutQueue(cfg.capacity, m.dev.cache, v, cfg.dir[v]));
  }

  lemma {:induction false} StepInv(cfg: Settings, m: Machine, step: Step)
    requires cfg.capacity > 0 && Inv(cfg, m) && Enabled(cfg, m, step)
    ensures Inv(cfg, Next(cfg, m, step))
  {
    match step
    case Arrive(at, socket, p, pdst) => ArriveInv(cfg, m, at, socket, p, pdst);
    case ProcessNext(i) => ProcessInv(cfg, m, i);
    case CompleteTx(i) => CompleteInv(cfg, m, i);
    case Populate(i) => PopulateInv(cfg, m, i);
  }

  lemma {:induction false} RunInv(cfg: Settings, ms: seq<Machine>, steps: seq<Step>, k: nat)
    requires cfg.capacity > 0 && Run(cfg, ms, steps) && k < |ms|
    ensures Inv(cfg, ms[k])
  {
    for j := 0 to k
      invariant Inv(cfg, ms[j])
    {
      StepInv(cfg, ms[j], steps[j]);
    }
  }

  // ---------------------------------------------------------------- guarantees

  /** Over every run: the transmitter is idle only with an empty queue and busy exactly while one
      completion is pending; what was accepted is what was processed followed by what is awaiting
      processing followed by the queue, so packets are processed once each and in order; every
      packet that missed was accepted or dropped, once; and the socket map's keys are the packets
      awaiting or queued. */
  lemma {:induction false} SlowPathIsFifo(cfg: Settings, ms: seq<Machine>, steps: seq<Step>, k: nat)
    requires cfg.capacity > 0 && Run(cfg, ms, steps) && k < |ms|
    ensures var m, d := ms[k], ms[k].dev;
            && (!d.busy ==> d.queue == [])
            && (d.busy <==> |d.completions| == 1) && |d.completions| <= 1
            && m.accepted == m.processed + Packets(d.awaiting) + d.queue
            && Interleaves(m.missed, m.accepted, m.dropped)
            && (forall u :: u in d.sockets <==> exists p :: p in Packets(d.awaiting) + d.queue && p.uid == u)
  {
    RunInv(cfg, ms, steps, k);
    SocketKeys(Held(ms[k].dev), ms[k].dev.sockets);
    assert ms[k].processed + Held(ms[k].dev) == ms[k].processed + Packets(ms[k].dev.awaiting) + ms[k].dev.queue;
  }

  lemma {:induction false} SocketKeys(held: seq<Pkt>, sockets: map<nat, nat>)
    requires SocketsOk(held, sockets)
    ensures forall u :: u in sockets <==> exists p :: p in held && p.uid == u
  {
    forall u ensures u in sockets <==> exists p :: p in held && p.uid == u {
      if u in sockets {
        var i :| 0 <= i < |held| && held[i].uid == u;
        assert held[i] in held;
      }
    }
  }

  /** When no event is left, nothing is stuck: every accepted packet was processed and no socket
      is remembered. */
  lemma {:induction false} NothingIsStuck(cfg: Settings, ms: seq<Machine>, steps: seq<Step>, k: nat)
    requires cfg.capacity > 0 && Run(cfg, ms, steps) && k < |ms|
    requires ms[k].dev.awaiting == [] && ms[k].dev.completions == []
    ensures ms[k].processed == ms[k].accepted && ms[k].dev.queue == [] && ms[k].dev.sockets == map[]
  {
    RunInv(cfg, ms, steps, k);
    assert Held(ms[k].dev) == [];
    assert forall u :: u !in ms[k].dev.sockets;
    assert ms[k].processed + [] == ms[k].processed;
  }

  /** The cache is programmed once for every processed packet, in the order of processing, with
      what the directory says; only the latest may still be pending. */
  lemma {:induction false} ProgrammingFollowsProcessing(cfg: Settings, ms: seq<Machine>, steps: seq<Step>, k: nat)
    requires cfg.capacity > 0 && Run(cfg, ms, steps) && k < |ms|
    ensures Destinations(ms[k].processed) == ms[k].programmed + Pending(ms[k].dev.programming)
    ensures CacheTrue(cfg, ms[k].dev.cache)
  {
    RunInv(cfg, ms, steps, k);
  }

  /** A packet that hits the cache is forwarded to the host the directory names. */
  lemma {:induction false} HitsAreTrue(cfg: Settings, ms: seq<Machine>, steps: seq<Step>, k: nat)
    requires cfg.capacity > 0 && Run(cfg, ms, steps) && k < |steps| && steps[k].Arrive? && steps[k].pdst in cfg.gws
    ensures var (d, to) := Received(cfg, ms[k].dev, steps[k].at, steps[k].socket, steps[k].p, steps[k].pdst);
            to.Some? ==> steps[k].p.vdst in cfg.dir && to.value == cfg.dir[steps[k].p.vdst]
  {
    RunInv(cfg, ms, steps, k);
  }

  // ---------------------------------------------------------------- what each event does

  /** In every run the waiting packets fit the queue. */
  lemma {:induction false} QueueFits(cfg: Settings, ms: seq<Machine>, steps: seq<Step>, k: nat)
    requires cfg.capacity > 0 && Run(cfg, ms, steps) && k < |ms|
    ensures Bytes(ms[k].dev.queue) <= cfg.maxBytes
  {
    RunInv(cfg, ms, steps, k);
  }

  /** A packet for a gateway whose destination the cache lacks is accepted exactly when it still fits
      behind the waiting ones: on an idle device it is sent at once, due after its transmission and
      the delay, else it joins the queue; its socket is remembered. If it does not fit it is dropped
      and nothing is left of it. */
  lemma {:induction false} MissedPacketIsQueuedIffItFits(cfg: Settings, m: Machine, at: Time, socket: nat, p: Pkt,
                                                         pdst: Addr)
    requires Inv(cfg, m) && Enabled(cfg, m, Arrive(at, socket, p, pdst))
    requires pdst in cfg.gws && Find(m.dev.cache, p.vdst).None?
    ensures var m' := Next(cfg, m, Arrive(at, socket, p, pdst));
            && m'.now == at && m'.missed == m.missed + [p] && m'.processed == m.processed
            && if Bytes(m.dev.queue) + p.size <= cfg.maxBytes then
                 && m'.accepted == m.accepted + [p] && m'.dropped == m.dropped
                 && m'.dev.busy && m'.dev.sockets == m.dev.sockets[p.uid := socket]
                 && m'.dev.cache == m.dev.cache && m'.dev.programming == m.dev.programming
                 && (m.dev.busy ==>
                       && m'.dev.queue == m.dev.queue + [p]
                       && m'.dev.awaiting == m.dev.awaiting && m'.dev.completions == m.dev.completions)
                 && (!m.dev.busy ==>
                       && m'.dev.queue == []
                       && m'.dev.awaiting == m.dev.awaiting + [At(at + cfg.txTime(p.size) + cfg.delay, p)]
                       && m'.dev.completions == [at + cfg.txTime(p.size) + 250])
               else
                 m'.accepted == m.accepted && m'.dropped == m.dropped + [p] && m'.dev == m.dev
  {
    SocketsUntouched(m.dev.sockets, p.uid, socket);
    if !m.dev.busy {
      BytesOfOne(p);
      assert m.dev.queue + [p] == [p];
    }
  }

  /** Any other packet passes at once: to the cached machine, which becomes the most recent, or on to
      where it is bound; the slow path does not see it. */
  lemma {:induction false} OtherPacketsPass(cfg: Settings, m: Machine, at: Time, socket: nat, p: Pkt, pdst: Addr)
    requires Inv(cfg, m) && Enabled(cfg, m, Arrive(at, socket, p, pdst))
    requires pdst !in cfg.gws || Find(m.dev.cache, p.vdst).Some?
    ensures var m' := Next(cfg, m, Arrive(at, socket, p, pdst));
            var to := Received(cfg, m.dev, at, socket, p, pdst).1;
            var cache := if pdst in cfg.gws then GetQueue(m.dev.cache, p.vdst) else m.dev.cache;
            && m' == m.(now := at, dev := m.dev.(cache := cache))
            && to == if pdst in cfg.gws then Find(m.dev.cache, p.vdst) else Some(pdst)
  {
    SocketsUntouched(m.dev.sockets, p.uid, socket);
  }

  /** When the transmitter completes, it takes the oldest waiting packet, due after its transmission
      and the delay, or goes idle. */
  lemma {:induction false} CompletionTakesNext(cfg: Settings, m: Machine)
    requires Inv(cfg, m) && Enabled(cfg, m, CompleteTx(0))
    ensures var t, m' := m.dev.completions[0], Next(cfg, m, CompleteTx(0));
            if m.dev.queue == [] then m' == m.(now := t, dev := m.dev.(busy := false, completions := []))
            else
              var q := m.dev.queue[0];
              m' == m.(now := t, dev := m.dev.(
                queue := m.dev.queue[1..],
                awaiting := m.dev.awaiting + [At(t + cfg.txTime(q.size) + cfg.delay, q)],
                completions := [t + cfg.txTime(q.size) + 250]))
  {
    assert Erased(m.dev.completions, 0) == [];
  }

  /** When its time has come, the oldest sent packet is processed: its socket is forgotten and its
      destination will be programmed after the programming delay. */
  lemma {:induction false} ProcessingForgetsAndProgrammes(cfg: Settings, m: Machine)
    requires Inv(cfg, m) && Enabled(cfg, m, ProcessNext(0))
    ensures var e, m' := m.dev.awaiting[0], Next(cfg, m, ProcessNext(0));
            && m'.now == e.due && m'.processed == m.processed + [e.what]
            && m'.missed == m.missed && m'.accepted == m.accepted && m'.dropped == m.dropped
            && ProcessedOldest(cfg, m.dev, m'.dev)
  {
    FirstIsOldest(cfg, m.dev);
  }

  /** After programming, a lookup of the address answers by the directory, and all other addresses
      that are still found answer as before. */
  lemma {:induction false} ProgrammedIsFound(cfg: Settings, m: Machine, v: Addr)
    requires cfg.capacity > 0 && Inv(cfg, m) && Enabled(cfg, m, Populate(0))
    ensures var u, m' := m.dev.programming[0].what, Next(cfg, m, Populate(0));
            && m'.now == m.dev.programming[0].due && m'.programmed == m.programmed + [u]
            && m'.dev == m.dev.(programming := m.dev.programming[1..], cache := m'.dev.cache)
            && Find(m'.dev.cache, u) == Some(cfg.dir[u])
            && (v != u && Find(m'.dev.cache, v).Some? ==> Find(m'.dev.cache, v) == Find(m.dev.cache, v))
  {
    assert Erased(m.dev.programming, 0) == m.dev.programming[1..];
    var u := m.dev.programming[0].what;
    WithoutFacts(m.dev.cache, u);
    if Size(m.dev.cache) > 0 {
      TakeFacts(m.dev.cache, Size(m.dev.cache) - 1);
    }
  }

  // ---------------------------------------------------------------- events can happen

  /** Packets can arrive at any time, several at once. */
  lemma {:induction false} PacketsCanArrive(cfg: Settings, m: Machine, socket: nat, p: Pkt, pdst: Addr)
    requires Inv(cfg, m) && p.vdst in cfg.dir && p.uid !in m.dev.sockets
    ensures Enabled(cfg, m, Arrive(m.now, socket, p, pdst))
  {
  }

  lemma {:induction false} FirstAwaiting(cfg: Settings, aw: seq<Timed<Pkt>>, free: Time)
    requires DueInOrder(cfg, aw, free)
    ensures forall a :: a in aw ==> aw[0].due <= a.due
  {
  }

  lemma {:induction false} FirstProgramming(cfg: Settings, aw: seq<Timed<Pkt>>, programming: seq<Timed<Addr>>,
                                            free: Time)
    requires ProgramInOrder(cfg, aw, programming, free)
    ensures forall e :: e in programming ==> programming[0].due <= e.due
  {
  }

  lemma {:induction false} FirstIsDueFirst(cfg: Settings, d: Device, now: Time)
    requires ClockworkOk(cfg, d, now)
    ensures forall a :: a in d.awaiting ==> d.awaiting[0].due <= a.due
    ensures forall c :: c in d.completions ==> d.completions[0] <= c
    ensures forall e :: e in d.programming ==> d.programming[0].due <= e.due
  {
    FirstAwaiting(cfg, d.awaiting, FreeAt(d, now));
    FirstProgramming(cfg, d.awaiting, d.programming, FreeAt(d, now));
  }

  /** While any event is pending, one can fire: nothing waits for ever. */
  lemma {:induction false} SomeEventCanFire(cfg: Settings, m: Machine)
    requires Inv(cfg, m) && (m.dev.awaiting != [] || m.dev.completions != [] || m.dev.programming != [])
    ensures Enabled(cfg, m, ProcessNext(0)) || Enabled(cfg, m, CompleteTx(0)) || Enabled(cfg, m, Populate(0))
  {
    FirstIsDueFirst(cfg, m.dev, m.now);
    var d := m.dev;
    var last := (if d.awaiting != [] then d.awaiting[0].due else 0) +
                (if d.completions != [] then d.completions[0] else 0) +
                (if d.programming != [] then d.programming[0].due else 0);
    var a := if d.awaiting != [] then d.awaiting[0].due else last;
    var c := if d.completions != [] then d.completions[0] else last;
    var e := if d.programming != [] then d.programming[0].due else last;
    if d.awaiting != [] && a <= c && a <= e {
      assert NothingDueBefore(d, a);
    } else if d.completions != [] && c <= a && c <= e {
      assert NothingDueBefore(d, c);
    } else {
      assert NothingDueBefore(d, e);
    }
  }
}
