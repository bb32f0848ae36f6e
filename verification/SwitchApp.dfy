/** A controller-mode switch: it redirects gateway-bound packets that hit its LRU cache, which the
    controller fills in bulk. */
module SwitchApp {
  import opened Addressing
  import opened CacheSpec
  import opened LruCache

  type Item = (Addr, Addr)

  /** The cache after the first n items were put in. */
  function Inserted(capacity: nat, q: Queue<Addr, Addr>, items: seq<Item>, n: nat): Queue<Addr, Addr>
    requires n <= |items|
  {
    if n == 0 then q
    else PutQueue(capacity, Inserted(capacity, q, items, n - 1), items[n - 1].0, items[n - 1].1)
  }

  /** The first n items alone, latest first. */
  function Latest(items: seq<Item>, n: nat): Queue<Addr, Addr>
    requires n <= |items|
  {
    if n == 0 then End else Front(items[n - 1].0, items[n - 1].1, Latest(items, n - 1))
  }

  predicate DistinctKeys(items: seq<Item>) {
    forall i, j :: 0 <= i < j < |items| ==> items[i].0 != items[j].0
  }

  lemma {:induction false} LatestFinds(items: seq<Item>, n: nat, i: nat)
    requires DistinctKeys(items) && n <= |items| && i < |items|
    ensures Find(Latest(items, n), items[i].0) == if i < n then Some(items[i].1) else None
    ensures Size(Latest(items, n)) == n
  {
    if n > 0 {
      LatestFinds(items, n - 1, i);
    }
  }

  lemma {:induction false} LatestIsDistinct(items: seq<Item>, n: nat)
    requires DistinctKeys(items) && n <= |items|
    ensures Distinct(Latest(items, n))
  {
    if n > 0 {
      LatestIsDistinct(items, n - 1);
      LatestFinds(items, n - 1, n - 1);
    }
  }

  /** The item put in first is the last to appear. */
  lemma {:induction false} FirstItemIsLast(items: seq<Item>, n: nat, c: nat)
    requires DistinctKeys(items) && c < n <= |items|
    ensures Find(Take(Latest(items, n), c), items[0].0) == None
  {
    if c > 0 {
      FirstItemIsLast(items, n - 1, c - 1);
    }
  }

  lemma {:induction false} InsertedShape(capacity: nat, q: Queue<Addr, Addr>, items: seq<Item>, n: nat)
    requires capacity > 0 && Distinct(q) && Size(q) <= capacity && n <= |items|
    ensures Distinct(Inserted(capacity, q, items, n)) && Size(Inserted(capacity, q, items, n)) <= capacity
  {
    if n > 0 {
      InsertedShape(capacity, q, items, n - 1);
      OperationsKeepShape(capacity, Inserted(capacity, q, items, n - 1), items[n - 1].0, items[n - 1].1);
    }
  }

  lemma {:induction false} PutOnTop(capacity: nat, q: Queue<Addr, Addr>, k: Addr, v: Addr, j: nat)
    requires capacity > 0 && Distinct(q) && Size(q) <= capacity && j < capacity
    requires Find(Take(q, j), k).None?
    ensures Take(PutQueue(capacity, q, k, v), j + 1) == Front(k, v, Take(q, j))
  {
    PromoteTaken(q, j, k);
    if Size(q) == capacity && Find(q, k).None? {
      TakeTwice(q, j, Size(q) - 1);
    }
  }

  function Least(a: nat, b: nat): nat {
    if a < b then a else b
  }

  /** One more item on top of the latest ones. */
  lemma {:induction false} NextOnTop(capacity: nat, before: Queue<Addr, Addr>, items: seq<Item>, n: nat, top: nat)
    requires capacity > 0 && Distinct(before) && Size(before) <= capacity && n < |items| && DistinctKeys(items)
    requires top == Least(n, capacity) && Take(before, top) == Take(Latest(items, n), top)
    ensures var j := Least(n + 1, capacity);
            Take(PutQueue(capacity, before, items[n].0, items[n].1), j) == Take(Latest(items, n + 1), j)
  {
    var latest, j := Latest(items, n), Least(n + 1, capacity) - 1;
    LatestIsDistinct(items, n);
    TakeTwice(before, j, top);
    TakeTwice(latest, j, top);
    LatestFinds(items, n, n);
    TakeFacts(latest, j);
    PutOnTop(capacity, before, items[n].0, items[n].1, j);
  }

  /** On top of the cache are the latest items, as many as fit. */
  lemma {:induction false} LatestOnTop(capacity: nat, q: Queue<Addr, Addr>, items: seq<Item>, n: nat)
    requires capacity > 0 && Distinct(q) && Size(q) <= capacity && n <= |items| && DistinctKeys(items)
    ensures Take(Inserted(capacity, q, items, n), Least(n, capacity)) == Take(Latest(items, n), Least(n, capacity))
  {
    if n > 0 {
      LatestOnTop(capacity, q, items, n - 1);
      InsertedShape(capacity, q, items, n - 1);
      NextOnTop(capacity, Inserted(capacity, q, items, n - 1), items, n - 1, Least(n - 1, capacity));
    }
  }

  /** A bulk insertion of distinct keys leaves every item in the cache exactly when the items fit
      its capacity, whatever was there before. */
  lemma {:induction false} BulkInsertionStaysIff(capacity: nat, q: Queue<Addr, Addr>, items: seq<Item>)
    requires capacity > 0 && Distinct(q) && Size(q) <= capacity && DistinctKeys(items)
    ensures (forall i :: 0 <= i < |items| ==>
               Find(Inserted(capacity, q, items, |items|), items[i].0) == Some(items[i].1))
       <==> |items| <= capacity
  {
    var all, n := Inserted(capacity, q, items, |items|), |items|;
    LatestOnTop(capacity, q, items, n);
    InsertedShape(capacity, q, items, n);
    TakeFacts(all, Least(n, capacity));
    if n <= capacity {
      forall i | 0 <= i < n ensures Find(all, items[i].0) == Some(items[i].1) {
        LatestFinds(items, n, i);
        LatestIsDistinct(items, n);
        TakeFacts(Latest(items, n), n);
      }
    } else {
      FirstItemIsLast(items, n, capacity);
    }
  }

  /** The other entries of the cache are left over from before. */
  lemma {:induction false} LeftoversOnly(capacity: nat, q: Queue<Addr, Addr>, items: seq<Item>, n: nat, v: Addr)
    requires capacity > 0 && Distinct(q) && Size(q) <= capacity && n <= |items|
    requires forall i :: 0 <= i < n ==> items[i].0 != v
    ensures Find(Inserted(capacity, q, items, n), v).Some? ==> Find(Inserted(capacity, q, items, n), v) == Find(q, v)
  {
    if n > 0 {
      var before := Inserted(capacity, q, items, n - 1);
      LeftoversOnly(capacity, q, items, n - 1, v);
      InsertedShape(capacity, q, items, n - 1);
      WithoutFacts(before, items[n - 1].0);
      if Size(before) > 0 {
        TakeFacts(before, Size(before) - 1);
      }
    }
  }

  /** Where a packet goes on to from a switch with cache q. */
  function Redirect(gws: set<Addr>, q: Queue<Addr, Addr>, vdst: Addr, pdst: Addr): Addr {
    var known: Option<Addr> := Find(q, vdst);
    if pdst in gws && known.Some? then known.value else pdst
  }

  class ControllerSwitch {
    const gws: set<Addr>
    const cache: LRUCache<Addr, Addr>

    constructor (gws: set<Addr>, memorySize: nat)
      ensures this.gws == gws && fresh(cache) && cache.Valid()
      ensures cache.capacity == memorySize && cache.Contents() == End
    {
      this.gws := gws;
      cache := new LRUCache(memorySize);
    }

    method BulkInsertToCache(items: seq<Item>)
      requires cache.Valid() && cache.capacity > 0
      modifies cache
      ensures cache.Valid()
      ensures cache.Contents() == Inserted(cache.capacity, old(cache.Contents()), items, |items|)
    {
      for i := 0 to |items|
        invariant cache.Valid()
        invariant cache.Contents() == Inserted(cache.capacity, old(cache.Contents()), items, i)
      {
        var removed := cache.Put(items[i].0, items[i].1);
      }
    }

    /** The new outer destination of a packet. */
    method ReceivePacket(vdst: Addr, pdst: Addr) returns (to: Addr)
      requires cache.Valid()
      modifies cache
      ensures cache.Valid()
      ensures to == Redirect(gws, old(cache.Contents()), vdst, pdst)
      ensures pdst !in gws || Find(old(cache.Contents()), vdst).None? ==> to == pdst
      ensures pdst in gws && Find(old(cache.Contents()), vdst).Some? ==>
                Find(old(cache.Contents()), vdst) == Some(to)
      ensures cache.Contents() == if pdst in gws then GetQueue(old(cache.Contents()), vdst) else old(cache.Contents())
    {
      to := pdst;
      if pdst in gws {
        var hit, value := cache.Get(vdst, 0);
        if hit {
          to := value;
        }
      }
    }
  }
}
