/** The slow path of a Bluebird leaf: packets that miss the cache wait in a queue for one
    transmitter to the control plane, which resolves them and later programs the cache. */
module BluebirdSpec {
  import opened Addressing
  import opened CacheSpec
  import opened LruCache

  /** A packet as the slow path sees it; sizes and times are in bytes and nanoseconds. */
  datatype Pkt = Pkt(uid: nat, vdst: Addr, size: nat)

  type Time = nat

  const COMPLETION_GAP: Time := 250

  /** Settings. txTime is the transmission time of a packet by its size. */
  datatype Settings = Settings(gws: set<Addr>, dir: map<Addr, Addr>, capacity: nat, maxBytes: nat,
                               delay: Time, programmingDelay: Time, txTime: nat -> Time)

  datatype Timed<T> = At(due: Time, what: T)

  /** The device and the simulator events it has pending: packets to process, completions of the
      transmitter, and cache entries to program. */
  datatype Device = Device(
    queue: seq<Pkt>, busy: bool, sockets: map<nat, nat>, cache: Queue<Addr, Addr>,
    awaiting: seq<Timed<Pkt>>, completions: seq<Time>, programming: seq<Timed<Addr>>)

  function Bytes(q: seq<Pkt>): nat {
    if q == [] then 0 else Bytes(q[..|q| - 1]) + q[|q| - 1].size
  }

  predicate Fits(cfg: Settings, q: seq<Pkt>, p: Pkt) {
    Bytes(q) + p.size <= cfg.maxBytes
  }

  // ---------------------------------------------------------------- the handlers

  function TxStart(cfg: Settings, d: Device, now: Time, p: Pkt): Device {
    var tx := cfg.txTime(p.size);
    d.(busy := true,
       awaiting := d.awaiting + [At(now + tx + cfg.delay, p)],
       completions := d.completions + [now + tx + COMPLETION_GAP])
  }

  function TxComplete(cfg: Settings, d: Device, now: Time): Device {
    if d.queue == [] then d.(busy := false)
    else TxStart(cfg, d.(busy := false, queue := d.queue[1..]), now, d.queue[0])
  }

  /** The packet leaves for the host the directory names; its cache entry is on its way. */
  function Processed(cfg: Settings, d: Device, now: Time, p: Pkt): Device {
    d.(sockets := d.sockets - {p.uid}, programming := d.programming + [At(now + cfg.programmingDelay, p.vdst)])
  }

  function Populated(cfg: Settings, d: Device, v: Addr): Device
    requires v in cfg.dir
  {
    d.(cache := PutQueue(cfg.capacity, d.cache, v, cfg.dir[v]))
  }

  predicate Misses(cfg: Settings, d: Device, p: Pkt, pdst: Addr) {
    pdst in cfg.gws && Find(d.cache, p.vdst).None?
  }

  /** A packet that missed: queued, or dropped when the queue is full. */
  function Missed(cfg: Settings, d: Device, now: Time, p: Pkt): Device {
    if !Fits(cfg, d.queue, p) then d.(sockets := d.sockets - {p.uid})
    else
      var q := d.queue + [p];
      if d.busy then d.(queue := q) else TxStart(cfg, d.(queue := q[1..]), now, q[0])
  }

  /** The device after a packet arrived, and the destination it is forwarded to at once, if it is. */
  function Received(cfg: Settings, d: Device, now: Time, socket: nat, p: Pkt, pdst: Addr): (Device, Option<Addr>) {
    if Misses(cfg, d, p, pdst) then (Missed(cfg, d.(sockets := d.sockets[p.uid := socket]), now, p), None)
    else
      var d' := d.(sockets := d.sockets[p.uid := socket] - {p.uid});
      if pdst !in cfg.gws then (d', Some(pdst))
      else (d'.(cache := GetQueue(d.cache, p.vdst)), Some(Find(d.cache, p.vdst).value))
  }

  // ---------------------------------------------------------------- runs

  /** The device with the clock and a log: packets that missed the cache, those queued, dropped and
      processed, and the addresses programmed, each in order. */
  datatype Machine = Machine(now: Time, dev: Device,
                             missed: seq<Pkt>, accepted: seq<Pkt>, dropped: seq<Pkt>, processed: seq<Pkt>,
                             programmed: seq<Addr>)

  datatype Step =
    | Arrive(at: Time, socket: nat, p: Pkt, pdst: Addr)
    | ProcessNext(i: nat)
    | CompleteTx(i: nat)
    | Populate(i: nat)

  function Erased<T>(s: seq<T>, i: nat): seq<T>
    requires i < |s|
  {
    s[..i] + s[i + 1..]
  }

  /** No pending event is due before time t. */
  ghost predicate NothingDueBefore(d: Device, t: Time) {
    && (forall a :: a in d.awaiting ==> t <= a.due)
    && (forall c :: c in d.completions ==> t <= c)
    && (forall e :: e in d.programming ==> t <= e.due)
  }

  /** The simulator fires events in order of time; events due at the same time, and arrivals at
      that time, may come in any order. A packet is in one place at a time, so the switch does not
      hold an arriving one already. */
  ghost predicate Enabled(cfg: Settings, m: Machine, step: Step) {
    match step
    case Arrive(at, _, p, _) =>
      m.now <= at && NothingDueBefore(m.dev, at) && p.vdst in cfg.dir && p.uid !in m.dev.sockets
    case ProcessNext(i) => i < |m.dev.awaiting| && NothingDueBefore(m.dev, m.dev.awaiting[i].due)
    case CompleteTx(i) => i < |m.dev.completions| && NothingDueBefore(m.dev, m.dev.completions[i])
    case Populate(i) =>
      i < |m.dev.programming| && NothingDueBefore(m.dev, m.dev.programming[i].due) &&
        m.dev.programming[i].what in cfg.dir
  }

  ghost function Next(cfg: Settings, m: Machine, step: Step): Machine
    requires Enabled(cfg, m, step)
  {
    match step
    case Arrive(at, socket, p, pdst) =>
      var m' := m.(now := at, dev := Received(cfg, m.dev, at, socket, p, pdst).0);
      if !Misses(cfg, m.dev, p, pdst) then m'
      else if Fits(cfg, m.dev.queue, p) then m'.(missed := m.missed + [p], accepted := m.accepted + [p])
      else m'.(missed := m.missed + [p], dropped := m.dropped + [p])
    case ProcessNext(i) =>
      var e := m.dev.awaiting[i];
      m.(now := e.due, processed := m.processed + [e.what],
         dev := Processed(cfg, m.dev.(awaiting := Erased(m.dev.awaiting, i)), e.due, e.what))
    case CompleteTx(i) =>
      var t := m.dev.completions[i];
      m.(now := t, dev := TxComplete(cfg, m.dev.(completions := Erased(m.dev.completions, i)), t))
    case Populate(i) =>
      var e := m.dev.programming[i];
      m.(now := e.due, programmed := m.programmed + [e.what],
         dev := Populated(cfg, m.dev.(programming := Erased(m.dev.programming, i)), e.what))
  }

  const EmptyDevice := Device([], false, map[], End, [], [], [])

  ghost predicate Run(cfg: Settings, ms: seq<Machine>, steps: seq<Step>) {
    && |ms| == |steps| + 1
    && ms[0] == Machine(0, EmptyDevice, [], [], [], [], [])
    && forall k :: 0 <= k < |steps| ==> Enabled(cfg, ms[k], steps[k]) && ms[k + 1] == Next(cfg, ms[k], steps[k])
  }

  // ---------------------------------------------------------------- the invariant

  /** The transmitter: idle only with an empty queue, busy exactly while one completion is
      pending. */
  predicate TransmitterOk(d: Device) {
    (!d.busy ==> d.queue == []) && |d.completions| == if d.busy then 1 else 0
  }

  /** When the transmitter is free again. */
  function FreeAt(d: Device, now: Time): Time {
    if |d.completions| == 1 then d.completions[0] else now
  }

  /** Packets are due for processing in the order they were sent, and any packet sent from now on
      is due later than all of them. */
  ghost predicate DueInOrder(cfg: Settings, awaiting: seq<Timed<Pkt>>, free: Time) {
    && (forall i, j :: 0 <= i < j < |awaiting| ==> awaiting[i].due < awaiting[j].due)
    && (forall i :: 0 <= i < |awaiting| ==> awaiting[i].due + COMPLETION_GAP <= free + cfg.delay)
  }

  function Packets(awaiting: seq<Timed<Pkt>>): seq<Pkt> {
    seq(|awaiting|, i requires 0 <= i < |awaiting| => awaiting[i].what)
  }

  /** Packets the device holds, oldest first. */
  function Held(d: Device): seq<Pkt> {
    Packets(d.awaiting) + d.queue
  }

  /** The socket map has one entry for each held packet and no other. */
  ghost predicate SocketsOk(held: seq<Pkt>, sockets: map<nat, nat>) {
    && (forall i, j :: 0 <= i < j < |held| ==> held[i].uid != held[j].uid)
    && (forall i :: 0 <= i < |held| ==> held[i].uid in sockets)
    && (forall u :: u in sockets ==> exists i :: 0 <= i < |held| && held[i].uid == u)
  }

  /** The first list is the other two interleaved. */
  ghost predicate Interleaves(all: seq<Pkt>, a: seq<Pkt>, b: seq<Pkt>)
    decreases |all|
  {
    if all == [] then a == [] && b == []
    else
      var init, x := all[..|all| - 1], all[|all| - 1];
      || (a != [] && a[|a| - 1] == x && Interleaves(init, a[..|a| - 1], b))
      || (b != [] && b[|b| - 1] == x && Interleaves(init, a, b[..|b| - 1]))
  }

  ghost predicate CacheTrue(cfg: Settings, q: Queue<Addr, Addr>) {
    forall v :: Find(q, v).Some? ==> v in cfg.dir && Find(q, v).value == cfg.dir[v]
  }

  ghost predicate CacheOk(cfg: Settings, q: Queue<Addr, Addr>) {
    Distinct(q) && Size(q) <= cfg.capacity && CacheTrue(cfg, q)
  }

  /** Cache entries are programmed in the order their packets were processed, and before that of
      any packet still to be processed. */
  ghost predicate ProgramInOrder(cfg: Settings, awaiting: seq<Timed<Pkt>>, programming: seq<Timed<Addr>>, free: Time) {
    && (forall i, j :: 0 <= i < j < |programming| ==> programming[i].due < programming[j].due)
    && (forall i, j :: 0 <= i < |programming| && 0 <= j < |awaiting| ==>
          programming[i].due < awaiting[j].due + cfg.programmingDelay)
    && (forall i :: 0 <= i < |programming| ==>
          programming[i].due + COMPLETION_GAP <= free + cfg.delay + cfg.programmingDelay)
  }

  /** The clockwork of the device: transmitter and due times. */
  ghost predicate ClockworkOk(cfg: Settings, d: Device, now: Time) {
    && TransmitterOk(d) && NothingDueBefore(d, now)
    && DueInOrder(cfg, d.awaiting, FreeAt(d, now))
    && ProgramInOrder(cfg, d.awaiting, d.programming, FreeAt(d, now))
  }

  function Destinations(ps: seq<Pkt>): seq<Addr> {
    seq(|ps|, i requires 0 <= i < |ps| => ps[i].vdst)
  }

  function Pending(programming: seq<Timed<Addr>>): seq<Addr> {
    seq(|programming|, i requires 0 <= i < |programming| => programming[i].what)
  }

  /** Every processed packet's destination was programmed or is about to be, in order. */
  ghost predicate ProgramLogOk(processed: seq<Pkt>, programmed: seq<Addr>, programming: seq<Timed<Addr>>) {
    Destinations(processed) == programmed + Pending(programming)
  }

  /** What was accepted is what was processed and what is held, in this order, and all that missed
      was accepted or dropped. */
  ghost predicate LogOk(held: seq<Pkt>, missed: seq<Pkt>, accepted: seq<Pkt>, dropped: seq<Pkt>, processed: seq<Pkt>) {
    accepted == processed + held && Interleaves(missed, accepted, dropped)
  }

  ghost predicate Known(cfg: Settings, held: seq<Pkt>) {
    forall i :: 0 <= i < |held| ==> held[i].vdst in cfg.dir
  }

  ghost predicate ProgrammingKnown(cfg: Settings, programming: seq<Timed<Addr>>) {
    forall i :: 0 <= i < |programming| ==> programming[i].what in cfg.dir
  }

  ghost predicate HeldOk(cfg: Settings, held: seq<Pkt>, sockets: map<nat, nat>) {
    SocketsOk(held, sockets) && Known(cfg, held)
  }

  /** The waiting packets fit the queue. */
  predicate QueueOk(cfg: Settings, q: seq<Pkt>) {
    Bytes(q) <= cfg.maxBytes
  }

  ghost predicate Inv(cfg: Settings, m: Machine) {
    && QueueOk(cfg, m.dev.queue)
    && ClockworkOk(cfg, m.dev, m.now)
    && LogOk(Held(m.dev), m.missed, m.accepted, m.dropped, m.processed)
    && HeldOk(cfg, Held(m.dev), m.dev.sockets)
    && CacheOk(cfg, m.dev.cache)
    && ProgrammingKnown(cfg, m.dev.programming)
    && ProgramLogOk(m.processed, m.programmed, m.dev.programming)
  }
}
