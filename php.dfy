/**
 * The few pieces of PHP's own semantics that the paginator's arithmetic
 * depends on: truthiness and the `?:` operator on an int-or-null, the loose
 * `<` between a possibly-null value and an int, `rtrim` with one character,
 * and `array_slice` from offset 0 (what `Collection::slice(0, $n)` does).
 */
module Php {
  import opened Wrappers

  function Min(a: int, b: int): int { if a <= b then a else b }

  function Max(a: int, b: int): int { if a <= b then b else a }

  /** An int-or-null is truthy unless it is `null` or `0`. */
  predicate Truthy(x: Option<int>) {
    x.Some? && x.value != 0
  }

  /** `x ?: fallback`: the value of `x` when truthy, otherwise the fallback. */
  function Elvis(x: Option<int>, fallback: int): (r: int)
    ensures Truthy(x) ==> r == x.value
    ensures !Truthy(x) ==> r == fallback
  {
    if Truthy(x) then x.value else fallback
  }

  /**
   * PHP's `a < b` where `a` may be `null` and `b` is an int. An int compared
   * with an int is the arithmetic comparison; `null` compared with anything
   * that is not a string converts both sides to bool, and `false < (bool)b`
   * holds exactly when `b` is non-zero.
   */
  predicate LooseLess(a: Option<int>, b: int)
    ensures a.Some? ==> (LooseLess(a, b) <==> a.value < b)
    ensures a.None? ==> (LooseLess(a, b) <==> b != 0)
  {
    match a
    case None => b != 0
    case Some(x) => x < b
  }

  /**
   * `rtrim(s, c)`: `s` without the run of `c` characters at its end.
   * The result is the longest prefix of `s` that does not end in `c` and
   * after which `s` holds nothing but `c`.
   */
  function RTrim(s: string, c: char): (r: string)
    ensures |r| <= |s| && r == s[..|r|]
    ensures r == [] || r[|r| - 1] != c
    ensures forall i :: |r| <= i < |s| ==> s[i] == c
    decreases |s|
  {
    if |s| > 0 && s[|s| - 1] == c then RTrim(s[..|s| - 1], c) else s
  }

  /** The three properties in RTrim's contract determine its result. */
  lemma {:induction false} RTrimUnique(s: string, c: char, t: string)
    requires |t| <= |s| && t == s[..|t|]
    requires t == [] || t[|t| - 1] != c
    requires forall i :: |t| <= i < |s| ==> s[i] == c
    ensures t == RTrim(s, c)
  {
  }

  /**
   * `array_slice(s, 0, length)`: the first `length` elements when `length`
   * is non-negative (all of them when there are fewer), and everything but
   * the last `-length` elements when `length` is negative. Order is kept.
   */
  function Slice<T>(s: seq<T>, length: int): (r: seq<T>)
    ensures |r| <= |s| && r == s[..|r|]
    ensures length >= 0 ==> |r| == Min(length, |s|)
    ensures length < 0 ==> |r| == Max(0, |s| + length)
  {
    if length >= 0 then s[..Min(length, |s|)] else s[..Max(0, |s| + length)]
  }
}
