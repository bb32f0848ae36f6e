/** Flat indices: the simulator numbers leaves, spines and cores with one counter and recovers
    row and column by division. Index, Row and Column are defined by repeated addition and
    subtraction so that proofs about rows and columns stay linear; the Is... lemmas tie them to
    the products, quotients and remainders the program computes. */
module DivMod {

  /** Column o of row p, with rows w wide. */
  function Index(p: nat, w: nat, o: nat): nat {
    if p == 0 then o else w + Index(p - 1, w, o)
  }

  function Row(i: nat, w: nat): nat
    requires w > 0
  {
    if i < w then 0 else 1 + Row(i - w, w)
  }

  function Column(i: nat, w: nat): (r: nat)
    requires w > 0
    ensures r < w
  {
    if i < w then i else Column(i - w, w)
  }

  lemma {:induction false} IsProduct(p: nat, w: nat, o: nat)
    ensures Index(p, w, o) == p * w + o
  {
    if p > 0 {
      IsProduct(p - 1, w, o);
      assert p * w == (p - 1) * w + w;
    }
  }

  lemma {:induction false} IsIndex(i: nat, w: nat)
    requires w > 0
    ensures Index(Row(i, w), w, Column(i, w)) == i
  {
    if i >= w {
      IsIndex(i - w, w);
    }
  }

  lemma {:induction false} IsRowColumn(p: nat, w: nat, o: nat)
    requires o < w
    ensures Row(Index(p, w, o), w) == p && Column(Index(p, w, o), w) == o
  {
    if p > 0 {
      IsRowColumn(p - 1, w, o);
    }
  }

  lemma {:induction false} Grows(d: nat, w: nat)
    requires d > 0
    ensures d * w >= w
  {
  }

  lemma {:induction false} Unique(q: nat, r: nat, w: nat)
    requires r < w
    ensures (q * w + r) / w == q && (q * w + r) % w == r
  {
    var i := q * w + r;
    assert i == (i / w) * w + i % w;
    if i / w > q {
      Grows(i / w - q, w);
    } else if i / w < q {
      Grows(q - i / w, w);
    }
  }

  lemma {:induction false} IsQuotient(i: nat, w: nat)
    requires w > 0
    ensures i / w == Row(i, w) && i % w == Column(i, w)
  {
    IsIndex(i, w);
    IsProduct(Row(i, w), w, Column(i, w));
    Unique(Row(i, w), Column(i, w), w);
  }

  /** An index lies in the first n rows exactly when its row does. */
  lemma {:induction false} Within(p: nat, w: nat, o: nat, n: nat)
    requires o < w
    ensures Index(p, w, o) < Index(n, w, 0) <==> p < n
  {
    if p > 0 && n > 0 {
      Within(p - 1, w, o, n - 1);
    } else if p > 0 {
      IndexGrows(p - 1, w, o);
    }
  }

  lemma {:induction false} IndexGrows(p: nat, w: nat, o: nat)
    ensures Index(p, w, o) >= o
  {
    if p > 0 {
      IndexGrows(p - 1, w, o);
    }
  }

  /** How row and column change when a loop counter steps. */
  lemma {:induction false} Step(i: nat, w: nat)
    requires w > 0
    ensures Column(i, w) + 1 < w ==> Row(i + 1, w) == Row(i, w) && Column(i + 1, w) == Column(i, w) + 1
    ensures Column(i, w) + 1 == w ==> Row(i + 1, w) == Row(i, w) + 1 && Column(i + 1, w) == 0
  {
    if i >= w {
      Step(i - w, w);
    }
  }

  lemma {:induction false} Distinct(p: nat, o: nat, p': nat, o': nat, w: nat)
    requires o < w && o' < w
    ensures Index(p, w, o) == Index(p', w, o') <==> p == p' && o == o'
  {
    IsRowColumn(p, w, o);
    IsRowColumn(p', w, o');
  }

  /** The division the route and link loops perform on their counters. */
  method DivRem(i: nat, w: nat) returns (q: nat, r: nat)
    requires w > 0
    ensures q == Row(i, w) && r == Column(i, w)
  {
    IsQuotient(i, w);
    q, r := i / w, i % w;
  }
}
