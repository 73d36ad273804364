/** The JavaScript value semantics that the two adapters of the page rely on:
    nullish values, the `??` and `?.` operators, out-of-range array reads,
    the outcome of a fetch, and an `Array.prototype.map` whose callback may throw. */
module Json {

  /** A value read from a parsed JSON body. `None` stands for both `null` and a
      missing key (`undefined`): the code only ever tests them with `??` and `?.`,
      which treat the two alike. */
  datatype Option<+T> = None | Some(value: T)

  /** A JavaScript number. The page only copies numbers, so no arithmetic is modelled. */
  type Number = real

  /** The outcome of evaluating an expression that may throw a TypeError
      (reading a property of `undefined` or `null`). */
  datatype Result<+T> = Ok(value: T) | Thrown

  /** What `await fetch(...)` followed by `await res.json()` produced: either one of
      the failures that reject the promise (a network error, a body that is not JSON)
      or the parsed body. A body that parses to an array, a number, a string or
      `null` has no list under the expected key, so it is a `Received` body whose list
      is `None`, and the `.map` that follows throws. */
  datatype Fetch<+B> = Failed | Received(body: B)

  /** `x ?? d`: the default replaces only a nullish value. */
  function Coalesce<T>(x: Option<T>, d: T): T
  {
    match x
    case None => d
    case Some(v) => v
  }

  /** `out` is what `raw ?? d` yields: `raw` itself when present (even when it is
      an empty string) and `d` when it is nullish. */
  predicate NullishDefault<T(==)>(raw: Option<T>, d: T, out: T)
  {
    (raw.None? ==> out == d) && (raw.Some? ==> out == raw.value)
  }

  /** `a[i]` on a JSON array whose elements may be `null`: an index past the end
      reads `undefined` rather than throwing. */
  function At<T>(a: seq<Option<T>>, i: nat): Option<T>
  {
    if i < |a| then a[i] else None
  }

  /** A localized-name object `{ th: ... }` of the rainfall provider. */
  datatype LocalName = LocalName(th: Option<string>)

  /** `o?.th`: nullish when the object itself is nullish. */
  function Th(o: Option<LocalName>): Option<string>
  {
    match o
    case None => None
    case Some(n) => n.th
  }

  /** `xs.map(f)` where the callback `f` may throw: the first throw aborts the whole
      call, so the outcome is either one result per element, in order, or a throw. */
  function Traverse<A, B>(f: A -> Result<B>, xs: seq<A>): (r: Result<seq<B>>)
    ensures r.Ok? <==> forall i :: 0 <= i < |xs| ==> f(xs[i]).Ok?
    ensures r.Ok? ==> |r.value| == |xs| && forall i :: 0 <= i < |xs| ==> f(xs[i]) == Ok(r.value[i])
  {
    if xs == [] then Ok([])
    else
      match f(xs[0])
      case Thrown => Thrown
      case Ok(y) =>
        match Traverse(f, xs[1..])
        case Thrown => Thrown
        case Ok(ys) => Ok([y] + ys)
  }
}
