/** Lists that grow at the end, as the simulator's route and interface lists do. */
module Lists {

  datatype List<T> = Nil | Snoc(init: List<T>, last: T)

  function Len<T>(x: List<T>): nat {
    match x
    case Nil => 0
    case Snoc(i, _) => Len(i) + 1
  }

  /** Element k in order of insertion. */
  function At<T>(x: List<T>, k: nat): T
    requires k < Len(x)
  {
    if k == Len(x) - 1 then x.last else At(x.init, k)
  }

  function Cat<T>(x: List<T>, y: List<T>): List<T> {
    match y
    case Nil => x
    case Snoc(i, l) => Snoc(Cat(x, i), l)
  }

  predicate Contains<T(==)>(x: List<T>, a: T) {
    match x
    case Nil => false
    case Snoc(i, l) => l == a || Contains(i, a)
  }

  lemma {:induction false} CatNil<T>(y: List<T>)
    ensures Cat(Nil, y) == y
  {
    match y
    case Nil =>
    case Snoc(i, _) => CatNil(i);
  }

  /** Pushing one element, or two, is appending a short list. */
  lemma {:induction false} CatOne<T>(x: List<T>, a: T)
    ensures Cat(x, Snoc(Nil, a)) == Snoc(x, a)
  {
    assert Cat(x, Nil) == x;
  }

  lemma {:induction false} CatTwo<T>(x: List<T>, a: T, b: T)
    ensures Cat(x, Snoc(Snoc(Nil, a), b)) == Snoc(Snoc(x, a), b)
  {
    CatOne(x, a);
  }

  lemma {:induction false} LenCat<T>(x: List<T>, y: List<T>)
    ensures Len(Cat(x, y)) == Len(x) + Len(y)
  {
    match y
    case Nil =>
    case Snoc(i, _) => LenCat(x, i);
  }

  lemma {:induction false} AtCat<T>(x: List<T>, y: List<T>, k: nat)
    requires k < Len(x) + Len(y)
    ensures Len(Cat(x, y)) == Len(x) + Len(y)
    ensures At(Cat(x, y), k) == if k < Len(x) then At(x, k) else At(y, k - Len(x))
  {
    LenCat(x, y);
    match y
    case Nil =>
    case Snoc(i, _) =>
      if k < Len(x) + Len(i) {
        AtCat(x, i, k);
      }
  }

  lemma {:induction false} ContainsAt<T>(x: List<T>, k: nat)
    requires k < Len(x)
    ensures Contains(x, At(x, k))
  {
    if k < Len(x) - 1 {
      ContainsAt(x.init, k);
    }
  }
}
