/** The least-recently-used cache of the controller-driven switches: a queue of keys, most recent
    first, beside a map. The specification is a queue of key-value pairs. */
module LruCache {
  import opened Lists
  import opened CacheSpec

  datatype Queue<K, V> = End | Front(key: K, val: V, rest: Queue<K, V>)

  // ---------------------------------------------------------------- the specification

  function Size<K, V>(q: Queue<K, V>): nat {
    match q
    case End => 0
    case Front(_, _, r) => 1 + Size(r)
  }

  function Find<K(==), V>(q: Queue<K, V>, k: K): Option<V> {
    match q
    case End => None
    case Front(key, v, r) => if key == k then Some(v) else Find(r, k)
  }

  function Without<K(==), V>(q: Queue<K, V>, k: K): Queue<K, V> {
    match q
    case End => End
    case Front(key, v, r) => if key == k then r else Front(key, v, Without(r, k))
  }

  /** The first n entries. */
  function Take<K, V>(q: Queue<K, V>, n: nat): Queue<K, V> {
    match q
    case End => End
    case Front(k, v, r) => if n == 0 then End else Front(k, v, Take(r, n - 1))
  }

  /** Make k, with value v, the most recent entry. */
  function Promote<K(==), V>(q: Queue<K, V>, k: K, v: V): Queue<K, V> {
    Front(k, v, Without(q, k))
  }

  function GetQueue<K(==), V>(q: Queue<K, V>, k: K): Queue<K, V> {
    match Find(q, k)
    case None => q
    case Some(v) => Promote(q, k, v)
  }

  /** What stays behind a key that is put: a full cache gives up its last entry for a new key. */
  function Remaining<K(==), V>(capacity: nat, q: Queue<K, V>, k: K): Queue<K, V> {
    if Find(q, k).Some? then Without(q, k)
    else if Size(q) == capacity && Size(q) > 0 then Take(q, Size(q) - 1)
    else q
  }

  function PutQueue<K(==), V>(capacity: nat, q: Queue<K, V>, k: K, v: V): Queue<K, V> {
    Front(k, v, Remaining(capacity, q, k))
  }

  predicate Distinct<K(==), V>(q: Queue<K, V>) {
    match q
    case End => true
    case Front(k, _, r) => Find(r, k).None? && Distinct(r)
  }

  // ---------------------------------------------------------------- facts about queues

  lemma {:induction false} WithoutFacts<K, V>(q: Queue<K, V>, k: K)
    requires Distinct(q)
    ensures Distinct(Without(q, k))
    ensures Find(Without(q, k), k).None?
    ensures forall x :: x != k ==> Find(Without(q, k), x) == Find(q, x)
    ensures Find(q, k).None? ==> Without(q, k) == q
    ensures Size(Without(q, k)) == if Find(q, k).Some? then Size(q) - 1 else Size(q)
  {
    if q.Front? {
      WithoutFacts(q.rest, k);
    }
  }

  lemma {:induction false} TakeFacts<K, V>(q: Queue<K, V>, n: nat)
    requires Distinct(q)
    ensures Distinct(Take(q, n))
    ensures forall x :: Find(Take(q, n), x).Some? ==> Find(Take(q, n), x) == Find(q, x)
    ensures Size(Take(q, n)) == if n < Size(q) then n else Size(q)
    ensures n >= Size(q) ==> Take(q, n) == q
  {
    if q.Front? && n > 0 {
      TakeFacts(q.rest, n - 1);
    }
  }

  /** Every operation keeps keys distinct and the size within the capacity. */
  lemma {:induction false} OperationsKeepShape<K, V>(capacity: nat, q: Queue<K, V>, k: K, v: V)
    requires Distinct(q) && Size(q) <= capacity && capacity > 0
    ensures Distinct(GetQueue(q, k)) && Size(GetQueue(q, k)) == Size(q)
    ensures Distinct(PutQueue(capacity, q, k, v)) && Size(PutQueue(capacity, q, k, v)) <= capacity
    ensures Find(PutQueue(capacity, q, k, v), k) == Some(v)
  {
    WithoutFacts(q, k);
    if Size(q) > 0 {
      TakeFacts(q, Size(q) - 1);
    }
  }

  /** Key a is more recent than key b. */
  predicate Precedes<K(==), V>(q: Queue<K, V>, a: K, b: K) {
    match q
    case End => false
    case Front(k, _, r) => if k == a then Find(r, b).Some? else k != b && Precedes(r, a, b)
  }

  lemma {:induction false} WithoutKeepsOrder<K, V>(q: Queue<K, V>, k: K, a: K, b: K)
    requires Distinct(q) && a != k && b != k
    ensures Precedes(Without(q, k), a, b) <==> Precedes(q, a, b)
  {
    if q.Front? {
      WithoutFacts(q.rest, k);
      if q.key != k {
        WithoutKeepsOrder(q.rest, k, a, b);
      }
    }
  }

  /** Dropping the last entry drops a key that no other follows, and keeps the order of the rest. */
  lemma {:induction false} LastIsLeastRecent<K, V>(q: Queue<K, V>, a: K, b: K)
    requires Distinct(q) && q.Front?
    ensures var q' := Take(q, Size(q) - 1);
            && (Find(q, a).Some? && Find(q', a).None? && Find(q, b).Some? && a != b ==> Precedes(q, b, a))
            && (Find(q', a).Some? && Find(q', b).Some? ==> (Precedes(q', a, b) <==> Precedes(q, a, b)))
  {
    if q.rest.Front? {
      LastIsLeastRecent(q.rest, a, b);
      TakeFacts(q.rest, Size(q.rest) - 1);
      assert Take(q, Size(q) - 1) == Front(q.key, q.val, Take(q.rest, Size(q.rest) - 1));
    } else {
      assert Find(q.rest, a).None? && Find(q.rest, b).None?;
    }
  }

  /** A Get that hits, or a Put, puts its key first with its value and changes the order of no others;
      a Put drops at most the least recent of them, and only from a full cache for a new key. */
  lemma {:induction false} UsesPutFirst<K, V>(capacity: nat, q: Queue<K, V>, k: K, v: V, a: K, b: K)
    requires Distinct(q) && 0 < Size(q) <= capacity && a != k && b != k && a != b
    ensures Find(q, k).Some? ==>
              var q' := GetQueue(q, k);
              && q'.Front? && q'.key == k && Some(q'.val) == Find(q, k)
              && Find(q', a) == Find(q, a) && (Precedes(q', a, b) <==> Precedes(q, a, b))
    ensures Find(q, k).None? ==> GetQueue(q, k) == q
    ensures var q' := PutQueue(capacity, q, k, v);
            && q'.Front? && q'.key == k && q'.val == v
            && (Find(q', a).Some? ==> Find(q', a) == Find(q, a))
            && (Find(q', a).Some? && Find(q', b).Some? ==> (Precedes(q', a, b) <==> Precedes(q, a, b)))
            && (Find(q, a).Some? && Find(q', a).None? ==>
                  && Find(q, k).None? && Size(q) == capacity
                  && (Find(q, b).Some? ==> Precedes(q, b, a) && Find(q', b).Some?))
  {
    WithoutFacts(q, k);
    WithoutKeepsOrder(q, k, a, b);
    LastIsLeastRecent(q, a, b);
    TakeFacts(q, Size(q) - 1);
    if Find(q, a).Some? && Find(q, b).Some? && Find(Take(q, Size(q) - 1), a).None? {
      OnlyOneIsDropped(q, a, b);
    }
  }

  lemma {:induction false} OnlyOneIsDropped<K, V>(q: Queue<K, V>, a: K, b: K)
    requires Distinct(q) && q.Front? && a != b && Find(q, a).Some? && Find(q, b).Some?
    ensures Find(Take(q, Size(q) - 1), a).Some? || Find(Take(q, Size(q) - 1), b).Some?
  {
    if q.rest.Front? && q.key != a && q.key != b {
      OnlyOneIsDropped(q.rest, a, b);
    }
  }

  // ---------------------------------------------------------------- inclusion

  /** The small queue is a subsequence of the large one, with the same values. */
  predicate Within<K(==), V(==)>(small: Queue<K, V>, large: Queue<K, V>) {
    match (small, large)
    case (End, _) => true
    case (Front(_, _, _), End) => false
    case (Front(k, v, r), Front(k', v', r')) => if k == k' then v == v' && Within(r, r') else Within(small, r')
  }

  lemma {:induction false} WithinFacts<K, V>(small: Queue<K, V>, large: Queue<K, V>, k: K)
    requires Within(small, large) && Distinct(small) && Distinct(large)
    ensures Find(small, k).Some? ==> Find(large, k) == Find(small, k)
    ensures Size(small) <= Size(large)
  {
    if small.Front? && large.Front? {
      if small.key == large.key {
        WithinFacts(small.rest, large.rest, k);
      } else {
        WithinFacts(small, large.rest, k);
        WithinFacts(small, large.rest, large.key);
      }
    }
  }

  lemma {:induction false} WithinWithout<K, V>(small: Queue<K, V>, large: Queue<K, V>, k: K)
    requires Within(small, large) && Distinct(small) && Distinct(large)
    ensures Within(Without(small, k), Without(large, k))
  {
    if small.Front? && large.Front? {
      if small.key == large.key {
        if small.key != k {
          WithinWithout(small.rest, large.rest, k);
        }
      } else if large.key == k {
        WithinFacts(small, large.rest, k);
        WithoutFacts(small, k);
      } else {
        WithinWithout(small, large.rest, k);
        HeadSurvives(small, large.rest, k, large.key);
      }
    }
  }

  /** A key that is not in the small queue does not get in the way of inclusion. */
  lemma {:induction false} HeadSurvives<K, V>(small: Queue<K, V>, large: Queue<K, V>, k: K, other: K)
    requires Within(small, large) && Distinct(small) && Distinct(large) && Find(large, other).None?
    ensures Find(Without(small, k), other).None?
  {
    WithinFacts(small, large, other);
    WithoutFacts(small, k);
  }

  /** Dropping the last entry of the small queue, or of both. */
  lemma {:induction false} WithinTake<K, V>(small: Queue<K, V>, large: Queue<K, V>)
    requires Within(small, large) && Distinct(small) && Distinct(large) && small.Front?
    ensures large.Front?
    ensures Within(Take(small, Size(small) - 1), large)
    ensures Within(Take(small, Size(small) - 1), Take(large, Size(large) - 1))
  {
    if small.key == large.key {
      if small.rest.Front? {
        WithinTake(small.rest, large.rest);
      }
    } else {
      WithinTake(small, large.rest);
      HeadTakes(small, large.rest, large.key);
    }
  }

  lemma {:induction false} HeadTakes<K, V>(small: Queue<K, V>, large: Queue<K, V>, other: K)
    requires Within(small, large) && Distinct(small) && Distinct(large) && Find(large, other).None? && small.Front?
    ensures Find(Take(small, Size(small) - 1), other).None?
  {
    WithinFacts(small, large, other);
    TakeFacts(small, Size(small) - 1);
  }

  /** Two caches that have seen the same operations. */
  ghost predicate Included<K, V>(c1: nat, c2: nat, small: Queue<K, V>, large: Queue<K, V>) {
    && Distinct(small) && Distinct(large)
    && Size(small) <= c1 && Size(large) <= c2
    && Within(small, large)
    && Size(large) - Size(small) <= c2 - c1
  }

  lemma {:induction false} GetKeepsInclusion<K, V>(c1: nat, c2: nat, small: Queue<K, V>, large: Queue<K, V>, k: K)
    requires Included(c1, c2, small, large)
    ensures Included(c1, c2, GetQueue(small, k), GetQueue(large, k))
  {
    WithinFacts(small, large, k);
    WithinWithout(small, large, k);
    WithoutFacts(small, k);
    WithoutFacts(large, k);
  }

  /** The size gap rules out the one dangerous case: a large cache that must evict while the small
      one still has room. */
  lemma {:induction false} PutKeepsInclusion<K, V>(c1: nat, c2: nat, small: Queue<K, V>, large: Queue<K, V>, k: K, v: V)
    requires 1 <= c1 <= c2 && Included(c1, c2, small, large)
    ensures Included(c1, c2, PutQueue(c1, small, k, v), PutQueue(c2, large, k, v))
  {
    OperationsKeepShape(c1, small, k, v);
    OperationsKeepShape(c2, large, k, v);
    WithinFacts(small, large, k);
    WithinWithout(small, large, k);
    WithoutFacts(small, k);
    WithoutFacts(large, k);
    if small.Front? {
      WithinTake(small, large);
      TakeFacts(small, Size(small) - 1);
      TakeFacts(large, Size(large) - 1);
      if Find(small, k).None? && Find(large, k).Some? && Size(small) == c1 {
        WithinTakeOfRest(small, Without(large, k));
      }
    }
  }

  lemma {:induction false} WithinTakeOfRest<K, V>(small: Queue<K, V>, large: Queue<K, V>)
    requires Within(small, large) && Distinct(small) && Distinct(large) && small.Front?
    ensures Within(Take(small, Size(small) - 1), large)
  {
    WithinTake(small, large);
  }

  datatype Use<K, V> = Get(key: K) | Put(key: K, val: V)

  function Apply<K(==), V>(capacity: nat, q: Queue<K, V>, u: Use<K, V>): Queue<K, V> {
    match u
    case Get(k) => GetQueue(q, k)
    case Put(k, v) => PutQueue(capacity, q, k, v)
  }

  /** The cache after a trace on an empty cache. */
  function Trace<K(==), V>(capacity: nat, uses: List<Use<K, V>>): Queue<K, V> {
    match uses
    case Nil => End
    case Snoc(before, u) => Apply(capacity, Trace(capacity, before), u)
  }

  /** LRU inclusion: after any trace of Get and Put, the smaller of two caches is a subsequence of
      the larger, the larger leads by at most the difference in capacity, and every hit in the
      smaller one is a hit with the same value in the larger one. */
  lemma {:induction false} InclusionProperty<K, V>(c1: nat, c2: nat, uses: List<Use<K, V>>, k: K)
    requires 1 <= c1 <= c2
    ensures Included(c1, c2, Trace(c1, uses), Trace(c2, uses))
    ensures Find(Trace(c1, uses), k).Some? ==> Find(Trace(c2, uses), k) == Find(Trace(c1, uses), k)
  {
    match uses {
      case Nil =>
      case Snoc(before, u) =>
        InclusionProperty(c1, c2, before, k);
        match u {
          case Get(key) => GetKeepsInclusion(c1, c2, Trace(c1, before), Trace(c2, before), key);
          case Put(key, v) => PutKeepsInclusion(c1, c2, Trace(c1, before), Trace(c2, before), key, v);
        }
    }
    WithinFacts(Trace(c1, uses), Trace(c2, uses), k);
  }

  // ---------------------------------------------------------------- it is the recency order

  /** All keys ever used, most recently used first, without any capacity. A use is a Put, or a Get
      that hits the bounded cache. */
  function Recency<K(==), V>(capacity: nat, uses: List<Use<K, V>>): Queue<K, V> {
    match uses
    case Nil => End
    case Snoc(before, Put(k, v)) => Promote(Recency(capacity, before), k, v)
    case Snoc(before, Get(k)) =>
      match Find(Trace(capacity, before), k)
      case None => Recency(capacity, before)
      case Some(v) => Promote(Recency(capacity, before), k, v)
  }

  lemma {:induction false} PromoteTaken<K, V>(q: Queue<K, V>, n: nat, k: K)
    requires Distinct(q)
    ensures Find(Take(q, n + 1), k).Some? ==> Without(Take(q, n + 1), k) == Take(Without(q, k), n)
    ensures Find(Take(q, n), k).None? ==> Take(Without(q, k), n) == Take(q, n)
  {
    if q.Front? && n > 0 {
      PromoteTaken(q.rest, n - 1, k);
    } else if q.Front? {
      var e := Take(q.rest, n);
      assert e == End && Find(e, k).None? && Take(q, n + 1) == Front(q.key, q.val, e);
      assert Take(Without(q, k), n) == End;
    }
  }

  lemma {:induction false} TakeTwice<K, V>(q: Queue<K, V>, n: nat, m: nat)
    requires n <= m
    ensures Take(Take(q, m), n) == Take(q, n)
  {
    if q.Front? && n > 0 {
      TakeTwice(q.rest, n - 1, m - 1);
    }
  }

  /** The bounded cache holds exactly the most recently used keys, in order of use. */
  lemma {:induction false} HoldsTheMostRecentlyUsed<K, V>(capacity: nat, uses: List<Use<K, V>>)
    requires capacity > 0
    ensures Distinct(Recency(capacity, uses))
    ensures Trace(capacity, uses) == Take(Recency(capacity, uses), capacity)
  {
    match uses
    case Nil =>
    case Snoc(before, u) =>
      HoldsTheMostRecentlyUsed(capacity, before);
      var q, r := Trace(capacity, before), Recency(capacity, before);
      WithoutFacts(r, u.key);
      if u.Put? {
        UseKeepsRecency(capacity, q, r, u.key, u.val);
      } else if Find(q, u.key).Some? {
        UseKeepsRecency(capacity, q, r, u.key, Find(q, u.key).value);
      }
  }

  lemma {:induction false} UseKeepsRecency<K, V>(capacity: nat, q: Queue<K, V>, r: Queue<K, V>, k: K, v: V)
    requires capacity > 0 && Distinct(r) && q == Take(r, capacity)
    ensures PutQueue(capacity, q, k, v) == Take(Promote(r, k, v), capacity)
  {
    PromoteTaken(r, capacity - 1, k);
    TakeFacts(r, capacity);
    if Find(q, k).None? {
      TakeTwice(r, capacity - 1, capacity);
      TakeFacts(q, capacity - 1);
      TakeFacts(r, capacity - 1);
    }
  }

  // ---------------------------------------------------------------- the class

  /** The queue a key sequence and a map stand for. */
  ghost function Paired<K, V>(dq: seq<K>, m: map<K, V>): Queue<K, V>
    requires forall k :: k in dq ==> k in m
  {
    if dq == [] then End else Front(dq[0], m[dq[0]], Paired(dq[1..], m))
  }

  ghost predicate NoRepeats<K>(dq: seq<K>) {
    forall i, j :: 0 <= i < j < |dq| ==> dq[i] != dq[j]
  }

  lemma {:induction false} PairedFinds<K, V>(dq: seq<K>, m: map<K, V>, k: K)
    requires (forall x :: x in dq ==> x in m) && NoRepeats(dq)
    ensures Find(Paired(dq, m), k) == if k in dq then Some(m[k]) else None
    ensures Size(Paired(dq, m)) == |dq|
    ensures Distinct(Paired(dq, m))
  {
    if dq != [] {
      PairedFinds(dq[1..], m, k);
      PairedFinds(dq[1..], m, dq[0]);
    }
  }

  /** Only the values of queued keys matter. */
  lemma {:induction false} PairedFrame<K, V>(dq: seq<K>, m: map<K, V>, m': map<K, V>)
    requires forall x :: x in dq ==> x in m && x in m' && m[x] == m'[x]
    ensures Paired(dq, m) == Paired(dq, m')
  {
    if dq != [] {
      PairedFrame(dq[1..], m, m');
    }
  }

  lemma {:induction false} ErasedKeys<K>(dq: seq<K>, i: nat)
    requires NoRepeats(dq) && i < |dq|
    ensures forall x :: x in dq[..i] + dq[i + 1..] ==> x in dq && x != dq[i]
    ensures NoRepeats(dq[..i] + dq[i + 1..])
    ensures forall x :: x in dq && x != dq[i] ==> x in dq[..i] + dq[i + 1..]
  {
    var e := dq[..i] + dq[i + 1..];
    forall x | x in dq && x != dq[i] ensures x in e {
      var j :| 0 <= j < |dq| && dq[j] == x;
      assert x == if j < i then e[j] else e[j - 1];
    }
  }

  lemma {:induction false} ErasedIsWithout<K, V>(dq: seq<K>, m: map<K, V>, i: nat)
    requires (forall x :: x in dq ==> x in m) && NoRepeats(dq) && i < |dq|
    ensures (forall x :: x in dq[..i] + dq[i + 1..] ==> x in m && x != dq[i])
    ensures Paired(dq[..i] + dq[i + 1..], m) == Without(Paired(dq, m), dq[i])
  {
    var e := dq[..i] + dq[i + 1..];
    ErasedKeys(dq, i);
    if i == 0 {
      assert e == dq[1..];
    } else {
      ErasedIsWithout(dq[1..], m, i - 1);
      assert e[1..] == dq[1..][..i - 1] + dq[1..][i..];
      assert e[0] == dq[0] != dq[i];
    }
  }

  lemma {:induction false} PoppedIsTaken<K, V>(dq: seq<K>, m: map<K, V>)
    requires (forall x :: x in dq ==> x in m) && dq != []
    ensures Paired(dq[..|dq| - 1], m) == Take(Paired(dq, m), |dq| - 1)
  {
    if |dq| > 1 {
      PoppedIsTaken(dq[1..], m);
      assert dq[..|dq| - 1][1..] == dq[1..][..|dq| - 2];
    }
  }

  lemma {:induction false} PushedIsFront<K, V>(dq: seq<K>, m: map<K, V>, k: K)
    requires (forall x :: x in dq ==> x in m) && k in m
    ensures Paired([k] + dq, m) == Front(k, m[k], Paired(dq, m))
  {
    assert ([k] + dq)[1..] == dq;
  }

  class LRUCache<K(==), V> {
    const capacity: nat
    var dq: seq<K>
    var m: map<K, V>

    ghost predicate Valid()
      reads this
    {
      && NoRepeats(dq) && |dq| <= capacity
      && (forall k :: k in dq ==> k in m) && (forall k :: k in m ==> k in dq)
    }

    ghost function Contents(): Queue<K, V>
      reads this
      requires Valid()
    {
      Paired(dq, m)
    }

    constructor (capacity: nat)
      ensures Valid() && this.capacity == capacity && Contents() == End
    {
      this.capacity, dq, m := capacity, [], map[];
    }

    /** The search both operations make for a queued key. */
    method Search(key: K) returns (i: nat)
      requires Valid() && key in m
      ensures i < |dq| && dq[i] == key
    {
      i := 0;
      while dq[i] != key
        invariant i < |dq| && key in dq[i..]
        decreases |dq| - i
      {
        i := i + 1;
      }
    }

    /** A hit returns the value and makes the key the most recent; a miss changes nothing. */
    method Get(key: K, default: V) returns (hit: bool, value: V)
      requires Valid()
      modifies this`dq
      ensures Valid() && Contents() == GetQueue(old(Contents()), key)
      ensures hit <==> Find(old(Contents()), key).Some?
      ensures value == if hit then Find(old(Contents()), key).value else default
    {
      PairedFinds(dq, m, key);
      if key !in m {
        return false, default;
      }
      var i := Search(key);
      ErasedIsWithout(dq, m, i);
      ErasedKeys(dq, i);
      dq := dq[..i] + dq[i + 1..];
      PushedIsFront(dq, m, key);
      dq := [key] + dq;
      return true, m[key];
    }

    method PopBack() returns (removed: (K, V))
      requires Valid() && dq != []
      modifies this`dq, this`m
      ensures Valid() && Contents() == Take(old(Contents()), |old(dq)| - 1)
      ensures |dq| == |old(dq)| - 1 && removed.0 in old(m) && removed.1 == old(m)[removed.0]
      ensures m == old(m) - {removed.0}
    {
      var last := dq[|dq| - 1];
      ghost var before := m;
      PoppedIsTaken(dq, m);
      assert forall x :: x in dq[..|dq| - 1] ==> x in dq && x != last;
      removed := (last, m[last]);
      dq := dq[..|dq| - 1];
      m := m - {last};
      PairedFrame(dq, before, m);
    }

    method PushFront(key: K, value: V)
      requires Valid() && key !in m && |dq| < capacity
      modifies this`dq, this`m
      ensures Valid() && Contents() == Front(key, value, old(Contents()))
      ensures m == old(m)[key := value]
    {
      ghost var before := m;
      m := m[key := value];
      PairedFrame(dq, before, m);
      PushedIsFront(dq, m, key);
      dq := [key] + dq;
    }

    /** Puts the key first with its new value; a full cache evicts its last key for a new one and
        reports it. The capacity must be positive: an empty queue has no last key. */
    method Put(key: K, value: V) returns (removed: Option<(K, V)>)
      requires Valid() && capacity > 0
      modifies this`dq, this`m
      ensures Valid() && Contents() == PutQueue(capacity, old(Contents()), key, value)
      ensures removed.Some? <==> Find(old(Contents()), key).None? && Size(old(Contents())) == capacity
      ensures removed.Some? ==> Find(old(Contents()), removed.value.0) == Some(removed.value.1)
                                && Find(Contents(), removed.value.0).None?
    {
      removed := None;
      ghost var dq0, m0 := dq, m;
      PairedFinds(dq, m, key);
      if key !in m {
        if |dq| == capacity {
          var last := PopBack();
          removed := Some(last);
        }
      } else {
        Remove(key);
      }
      PushFront(key, value);
      if removed.Some? {
        PairedFinds(dq0, m0, removed.value.0);
        PairedFinds(dq, m, removed.value.0);
      }
    }

    /** Removes a key; the search needs it to be there. */
    method Remove(key: K)
      requires Valid() && key in m
      modifies this`dq, this`m
      ensures Valid() && Contents() == Without(old(Contents()), key)
      ensures |dq| == |old(dq)| - 1 && m == old(m) - {key}
    {
      var i := Search(key);
      ErasedIsWithout(dq, m, i);
      ErasedKeys(dq, i);
      ghost var before := m;
      dq := dq[..i] + dq[i + 1..];
      m := m - {key};
      PairedFrame(dq, before, m);
    }
  }
}
