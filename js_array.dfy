/** The two JavaScript array updates the form performs on copies of its
    state: `a.splice(index, 1)` and the index assignment `a[index] = v`,
    which pads a short array with holes (`undefined`). */
module JsArray {

  /** Where `splice(index, ...)` starts: a negative index counts from the end,
      and the start is clamped to `[0, len]`. */
  function SpliceStart(len: nat, index: int): (k: nat)
    ensures k <= len
  {
    if index < 0 then (if len + index < 0 then 0 else len + index)
    else if index > len then len
    else index
  }

  /** `a.splice(index, 1)`: the element at the start position is removed; a
      start at or past the end removes nothing. */
  function SpliceOne<T>(a: seq<T>, index: int): (r: seq<T>)
    ensures |r| == if SpliceStart(|a|, index) < |a| then |a| - 1 else |a|
  {
    var k := SpliceStart(|a|, index);
    if k < |a| then a[..k] + a[k + 1..] else a
  }

  /** Removing an index inside the array drops exactly that element and keeps
      the others in their relative order. */
  lemma SpliceOneInside<T>(a: seq<T>, i: int)
    requires 0 <= i < |a|
    ensures SpliceOne(a, i) == a[..i] + a[i + 1..]
    ensures |SpliceOne(a, i)| == |a| - 1
    ensures multiset(SpliceOne(a, i)) + multiset{a[i]} == multiset(a)
    ensures forall j :: 0 <= j < |a| - 1 ==> SpliceOne(a, i)[j] == a[if j < i then j else j + 1]
  {
    assert a == a[..i] + [a[i]] + a[i + 1..];
  }

  /** An index at or past the end leaves the array as it was. */
  lemma SpliceOnePastEnd<T>(a: seq<T>, i: int)
    requires i >= |a|
    ensures SpliceOne(a, i) == a
  {
  }

  /** `a[index] = v` on a JavaScript array: inside the array it overwrites;
      past the end it first extends the array with holes up to `index`. */
  function AssignAt<T>(a: seq<T>, index: nat, v: T, hole: T): (r: seq<T>)
    ensures |r| == if index < |a| then |a| else index + 1
    ensures r[index] == v
    ensures forall j :: 0 <= j < |a| && j != index ==> r[j] == a[j]
    ensures forall j :: |a| <= j < index ==> r[j] == hole
  {
    if index < |a| then a[index := v]
    else a + seq(index - |a|, _ => hole) + [v]
  }
}
