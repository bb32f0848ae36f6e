/** The Bluebird methods of the switch application, in place on queue, flag, socket map and cache,
    proved against BluebirdSpec. What they schedule is appended to the pending events; the
    simulator removes an event before it calls its handler. */
module Bluebird {
  import opened Addressing
  import opened CacheSpec
  import opened LruCache
  import opened BluebirdSpec

  /** The device after the first n packets waiting at a socket were received. */
  function ReceivedAll(cfg: Settings, d: Device, now: Time, socket: nat, waiting: seq<(Pkt, Addr)>, n: nat): Device
    requires n <= |waiting|
  {
    if n == 0 then d
    else Received(cfg, ReceivedAll(cfg, d, now, socket, waiting, n - 1), now, socket, waiting[n - 1].0,
                  waiting[n - 1].1).0
  }

  /** Where each of them was forwarded to at once, if it was. */
  function ForwardedAll(cfg: Settings, d: Device, now: Time, socket: nat, waiting: seq<(Pkt, Addr)>,
                        n: nat): seq<Option<Addr>>
    requires n <= |waiting|
  {
    if n == 0 then []
    else ForwardedAll(cfg, d, now, socket, waiting, n - 1) +
         [Received(cfg, ReceivedAll(cfg, d, now, socket, waiting, n - 1), now, socket, waiting[n - 1].0,
                   waiting[n - 1].1).1]
  }

  /** One more packet received. */
  lemma {:induction false} ReceivedOneMore(cfg: Settings, d: Device, now: Time, socket: nat,
                                           waiting: seq<(Pkt, Addr)>, n: nat, d': Device,
                                           out: seq<Option<Addr>>, to: Option<Addr>)
    requires n < |waiting| && out == ForwardedAll(cfg, d, now, socket, waiting, n)
    requires (d', to) == Received(cfg, ReceivedAll(cfg, d, now, socket, waiting, n), now, socket, waiting[n].0,
                                  waiting[n].1)
    ensures d' == ReceivedAll(cfg, d, now, socket, waiting, n + 1)
    ensures out + [to] == ForwardedAll(cfg, d, now, socket, waiting, n + 1)
  {
  }

  class Slowpath {
    const cfg: Settings
    const cache: LRUCache<Addr, Addr>
    var queue: seq<Pkt>
    var busy: bool
    var sockets: map<nat, nat>
    var awaiting: seq<Timed<Pkt>>
    var completions: seq<Time>
    var programming: seq<Timed<Addr>>

    ghost predicate Valid()
      reads cache
    {
      cache.Valid() && cache.capacity == cfg.capacity > 0
    }

    ghost function Contents(): Device
      reads this, cache
      requires Valid()
    {
      Device(queue, busy, sockets, cache.Contents(), awaiting, completions, programming)
    }

    constructor (cfg: Settings)
      requires cfg.capacity > 0
      ensures Valid() && fresh(cache) && this.cfg == cfg && Contents() == EmptyDevice
    {
      this.cfg := cfg;
      cache := new LRUCache(cfg.capacity);
      queue, busy, sockets, awaiting, completions, programming := [], false, map[], [], [], [];
    }

    method BluebirdTxStart(now: Time, p: Pkt)
      requires Valid()
      modifies this
      ensures Valid() && Contents() == TxStart(cfg, old(Contents()), now, p)
    {
      busy := true;
      var txTime := cfg.txTime(p.size);
      awaiting := awaiting + [At(now + txTime + cfg.delay, p)];
      completions := completions + [now + txTime + COMPLETION_GAP];
    }

    method BluebirdTxComplete(now: Time)
      requires Valid()
      modifies this
      ensures Valid() && Contents() == TxComplete(cfg, old(Contents()), now)
    {
      busy := false;
      if queue == [] {
        return;
      }
      var p := queue[0];
      queue := queue[1..];
      BluebirdTxStart(now, p);
    }

    /** Resolves a packet; an unknown destination is an error of the simulation. */
    method BluebirdProcessPacket(now: Time, p: Pkt) returns (to: Addr)
      requires Valid() && p.vdst in cfg.dir
      modifies this
      ensures Valid() && Contents() == Processed(cfg, old(Contents()), now, p)
      ensures to == cfg.dir[p.vdst]
    {
      to := cfg.dir[p.vdst];
      sockets := sockets - {p.uid};
      programming := programming + [At(now + cfg.programmingDelay, p.vdst)];
    }

    method PopulateBluebirdCache(v: Addr)
      requires Valid() && v in cfg.dir
      modifies cache
      ensures Valid() && Contents() == Populated(cfg, old(Contents()), v)
    {
      var removed := cache.Put(v, cfg.dir[v]);
    }

    method Enqueue(p: Pkt) returns (ok: bool)
      requires Valid()
      modifies this`queue
      ensures Valid() && ok == Fits(cfg, old(queue), p)
      ensures queue == if ok then old(queue) + [p] else old(queue)
    {
      ok := Bytes(queue) + p.size <= cfg.maxBytes;
      if ok {
        queue := queue + [p];
      }
    }

    method QueueMissed(now: Time, p: Pkt)
      requires Valid()
      modifies this
      ensures Valid() && Contents() == Missed(cfg, old(Contents()), now, p)
    {
      var ok := Enqueue(p);
      if ok {
        if !busy {
          var first := queue[0];
          queue := queue[1..];
          BluebirdTxStart(now, first);
        }
      } else {
        sockets := sockets - {p.uid};
      }
    }

    /** The destination a packet is forwarded to at once; None keeps it from being forwarded. */
    method BluebirdLogic(now: Time, p: Pkt, pdst: Addr) returns (to: Option<Addr>)
      requires Valid()
      modifies this, cache
      ensures Valid()
      ensures to.None? <==> Misses(cfg, old(Contents()), p, pdst)
      ensures to.None? ==> Contents() == Missed(cfg, old(Contents()), now, p)
      ensures to.Some? && pdst !in cfg.gws ==> to.value == pdst && Contents() == old(Contents())
      ensures to.Some? && pdst in cfg.gws ==>
                && to == Find(old(cache.Contents()), p.vdst)
                && Contents() == old(Contents()).(cache := GetQueue(old(cache.Contents()), p.vdst))
    {
      to := Some(pdst);
      if pdst in cfg.gws {
        var hit, value := cache.Get(p.vdst, 0);
        if hit {
          return Some(value);
        } else {
          QueueMissed(now, p);
          return None;
        }
      }
    }

    method ReceiveOne(now: Time, socket: nat, p: Pkt, pdst: Addr) returns (to: Option<Addr>)
      requires Valid()
      modifies this, cache
      ensures Valid()
      ensures (Contents(), to) == Received(cfg, old(Contents()), now, socket, p, pdst)
    {
      sockets := sockets[p.uid := socket];
      to := BluebirdLogic(now, p, pdst);
      if to.Some? {
        sockets := sockets - {p.uid};
      }
    }

    /** Empties a socket: every waiting packet is received in order. */
    method ReceiveRawPacket(now: Time, socket: nat, waiting: seq<(Pkt, Addr)>) returns (out: seq<Option<Addr>>)
      requires Valid()
      modifies this, cache
      ensures Valid() && Contents() == ReceivedAll(cfg, old(Contents()), now, socket, waiting, |waiting|)
      ensures out == ForwardedAll(cfg, old(Contents()), now, socket, waiting, |waiting|)
    {
      out := [];
      ghost var d := Contents();
      for i := 0 to |waiting|
        invariant Valid()
        invariant Contents() == ReceivedAll(cfg, d, now, socket, waiting, i)
        invariant out == ForwardedAll(cfg, d, now, socket, waiting, i)
      {
        var to := ReceiveOne(now, socket, waiting[i].0, waiting[i].1);
        ReceivedOneMore(cfg, d, now, socket, waiting, i, Contents(), out, to);
        out := out + [to];
      }
    }
  }
}
