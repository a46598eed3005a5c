/** Result types and finite sums shared by the other modules. */
module Prelude {
  datatype Option<+T> = None | Some(value: T)

  function OrZero(x: Option<real>): real {
    if x.Some? then x.value else 0.0
  }

  /** The text that an optional field turns into. */
  function StrOf(x: Option<string>): string {
    if x.Some? then x.value else "None"
  }

  datatype Result<+T, +E> = Success(value: T) | Failure(error: E)

  ghost predicate Distinct<T>(s: seq<T>) {
    forall i, j | 0 <= i < j < |s| :: s[i] != s[j]
  }

  /** The sum of `f` over the elements of `keys`. */
  ghost function Total(keys: seq<string>, f: string -> real): real {
    if keys == [] then 0.0 else f(keys[0]) + Total(keys[1..], f)
  }

  lemma {:induction false} TotalOfSum(keys: seq<string>, f: string -> real, g: string -> real, h: string -> real)
    requires forall k | k in keys :: h(k) == f(k) + g(k)
    ensures Total(keys, h) == Total(keys, f) + Total(keys, g)
  {
    if keys != [] {
      TotalOfSum(keys[1..], f, g, h);
    }
  }

  /** When `f` vanishes outside one key that occurs in `keys`, the sum is its value there. */
  lemma {:induction false} TotalOfOne(keys: seq<string>, f: string -> real, key: string)
    requires Distinct(keys)
    requires forall k | k in keys && k != key :: f(k) == 0.0
    ensures Total(keys, f) == if key in keys then f(key) else 0.0
  {
    if keys != [] {
      TotalOfOne(keys[1..], f, key);
    }
  }
}
