/** The few JavaScript built-in semantics the composables rely on: optional
    values, truthiness and `||` fallbacks, the `%` operator and
    `Array.prototype.splice(start, 1)`. */
module Js {

  /** `undefined`/`null` versus a present value. */
  datatype Option<T> = None | Some(value: T)

  /** JavaScript truthiness of an optional string: `undefined`, `null` and
      the empty string are falsy, every other string is truthy. */
  predicate Truthy(v: Option<string>) {
    v.Some? && v.value != ""
  }

  /** The expression `v || fallback` on an optional string. */
  function Or(v: Option<string>, fallback: string): (r: string)
    ensures Truthy(v) ==> r == v.value
    ensures !Truthy(v) ==> r == fallback
    ensures fallback != "" ==> r != ""
  {
    if Truthy(v) then v.value else fallback
  }

  /** JavaScript's `a % n` for a positive divisor: the remainder takes the
      sign of the dividend (truncating division), unlike Dafny's `%`. */
  function Rem(a: int, n: int): (r: int)
    requires n > 0
    ensures -n < r < n
    ensures a >= 0 ==> 0 <= r && r == a % n
    ensures a < 0 ==> r <= 0
  {
    if a >= 0 then a % n else -((-a) % n)
  }

  /** The position `splice` starts at: a negative start counts from the end
      and is clamped at 0, a start past the end is clamped to the length. */
  function SpliceStart(len: nat, start: int): (k: nat)
    ensures k <= len
  {
    if start < 0 then (if len + start < 0 then 0 else len + start)
    else if start > len then len
    else start
  }

  /** The array left behind by `a.splice(start, 1)`. */
  function SpliceOne<T>(s: seq<T>, start: int): (r: seq<T>)
    ensures 0 <= start < |s| ==>
      && |r| == |s| - 1
      && (forall i :: 0 <= i < start ==> r[i] == s[i])
      && (forall i :: start <= i < |r| ==> r[i] == s[i + 1])
    ensures start >= |s| ==> r == s
    ensures -|s| <= start < 0 ==> r == s[..|s| + start] + s[|s| + start + 1..]
    ensures start < -|s| && s != [] ==> r == s[1..]
    ensures s == [] ==> r == []
  {
    var k := SpliceStart(|s|, start);
    if k < |s| then s[..k] + s[k + 1..] else s
  }

  /** A splice at a valid index removes exactly that element: the rest is a
      permutation of what remains. */
  lemma SpliceOneRemovesElement<T>(s: seq<T>, start: int)
    requires 0 <= start < |s|
    ensures multiset(SpliceOne(s, start)) + multiset{s[start]} == multiset(s)
  {
    assert s == s[..start] + [s[start]] + s[start + 1..];
  }

  /** Splicing out the last element of `s + [x]` gives `s` back. */
  lemma SpliceAfterPush<T>(s: seq<T>, x: T)
    ensures SpliceOne(s + [x], |s|) == s
  {
    assert (s + [x])[..|s|] == s;
  }

  /** Splicing out the first element of `[x] + s` gives `s` back. */
  lemma SpliceAfterUnshift<T>(x: T, s: seq<T>)
    ensures SpliceOne([x] + s, 0) == s
  {
    assert ([x] + s)[1..] == s;
  }
}
