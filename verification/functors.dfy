/**
  The Option functor and monad of the functional teaching snippets, and the
  "map" that turns a one-argument function into a functor (function
  composition). Every operation is a pure higher-order function; the laws
  that make Option a functor and a monad are stated as lemmas.
*/
module Functors {

  /** The sealed Option class: either nothing, or exactly one value. */
  datatype Option<+T> = None | Some(value: T)

  /** Option.map: transform the wrapped value, if there is one. */
  function Map<T, R>(o: Option<T>, transform: T -> R): (r: Option<R>)
    ensures r.Some? <==> o.Some?
    ensures o.Some? ==> r.value == transform(o.value)
  {
    match o
    case None => None
    case Some(v) => Some(transform(v))
  }

  /** The map over functions: first apply `f`, then `transform` to its result. */
  function MapFn<A(!new), B, C>(f: A -> B, transform: B -> C): (h: A -> C)
    ensures forall a :: h(a) == transform(f(a))
  {
    a => transform(f(a))
  }

  /** Option.flatMap: bind the wrapped value to a function that itself yields an Option. */
  function FlatMap<T, R>(o: Option<T>, fm: T -> Option<R>): (r: Option<R>)
    ensures o.None? ==> r.None?
    ensures o.Some? ==> r == fm(o.value)
  {
    match o
    case None => None
    case Some(v) => fm(v)
  }

  /** Option.mapWithFlatMap: map written with flatMap and Some. */
  function MapWithFlatMap<T, R>(o: Option<T>, transform: T -> R): (r: Option<R>)
    ensures r == Map(o, transform)
  {
    FlatMap(o, t => Some(transform(t)))
  }

  /** The price table used by calculateProductPrice. */
  function PriceOf(name: string): Option<real>
  {
    if name == "productA" then Some(50.0)
    else if name == "productB" then Some(100.0)
    else None
  }

  /** calculateProductPrice: look the price of a possibly absent product up with flatMap. */
  function CalculateProductPrice(product: Option<string>): (r: Option<real>)
    ensures r == Some(50.0) <==> product == Some("productA")
    ensures r == Some(100.0) <==> product == Some("productB")
    ensures r == None <==> product == None || (product.value != "productA" && product.value != "productB")
  {
    FlatMap(product, PriceOf)
  }

  /** Combines two optional values with flatMap nested in flatMap (first form of lookieHere). */
  function CombineWithFlatMaps<A, B, C>(m1: Option<A>, m2: Option<B>, combine: (A, B) -> C): (r: Option<C>)
    ensures r.Some? <==> m1.Some? && m2.Some?
    ensures r.Some? ==> r.value == combine(m1.value, m2.value)
  {
    FlatMap(m1, (outer: A) => FlatMap(m2, (inner: B) => Some(combine(outer, inner))))
  }

  /** Combines two optional values with map nested in flatMap (second form of lookieHere). */
  function CombineWithMap<A, B, C>(m1: Option<A>, m2: Option<B>, combine: (A, B) -> C): (r: Option<C>)
    ensures r.Some? <==> m1.Some? && m2.Some?
    ensures r.Some? ==> r.value == combine(m1.value, m2.value)
  {
    FlatMap(m1, (outer: A) => Map(m2, (inner: B) => combine(outer, inner)))
  }

  /** The function map is associative: `f.map(g).map(h)` and `f.map(g.map(h))` agree everywhere. */
  lemma MapFnAssociative<A(!new), B(!new), C, D>(f: A -> B, g: B -> C, h: C -> D, a: A)
    ensures MapFn(MapFn(f, g), h)(a) == MapFn(f, MapFn(g, h))(a)
  {
  }

  // Functor laws

  lemma MapIdentity<T>(o: Option<T>)
    ensures Map(o, (t: T) => t) == o
  {
  }

  lemma MapComposition<A(!new), B, C>(o: Option<A>, f: A -> B, g: B -> C)
    ensures Map(Map(o, f), g) == Map(o, MapFn(f, g))
  {
  }

  // Monad laws

  lemma FlatMapLeftIdentity<T, R>(v: T, fm: T -> Option<R>)
    ensures FlatMap(Some(v), fm) == fm(v)
  {
  }

  lemma FlatMapRightIdentity<T>(o: Option<T>)
    ensures FlatMap(o, (t: T) => Some(t)) == o
  {
  }

  lemma FlatMapAssociative<A, B, C>(o: Option<A>, f: A -> Option<B>, g: B -> Option<C>)
    ensures FlatMap(FlatMap(o, f), g) == FlatMap(o, (a: A) => FlatMap(f(a), g))
  {
  }

  /** Both forms of lookieHere compute the same Option for every pair of inputs. */
  lemma CombineFormsAgree<A, B, C>(m1: Option<A>, m2: Option<B>, combine: (A, B) -> C)
    ensures CombineWithFlatMaps(m1, m2, combine) == CombineWithMap(m1, m2, combine)
  {
  }

  // The worked examples in the snippets

  /** `{ x + 3 }.map { x * 2 }` applied to 3 gives 12. */
  lemma Add3AndMulBy2Example()
    ensures MapFn((x: int) => x + 3, (x: int) => x * 2)(3) == 12
  {
  }

  /** Some(40) and Some(20) multiplied in either form give Some(800). */
  lemma LookieHereExample()
    ensures CombineWithFlatMaps(Some(40), Some(20), (a: int, b: int) => a * b) == Some(800)
    ensures CombineWithMap(Some(40), Some(20), (a: int, b: int) => a * b) == Some(800)
  {
  }

  /** calculateProductPrice(Some("productA")) is Some(50.0), as in the driver. */
  lemma ProductPriceExample()
    ensures CalculateProductPrice(Some("productA")) == Some(50.0)
    ensures CalculateProductPrice(Some("productC")) == None
    ensures CalculateProductPrice(None) == None
  {
  }
}
