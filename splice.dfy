/**
 * `Array.prototype.splice(start, 1)` on a copy of a list: the list with at most
 * one element removed, at the position splice computes from `start`.
 */
module Splice {

  /**
   * The position splice starts at: a negative `start` counts back from the end,
   * and the result is clamped to `[0, len]`.
   */
  function SpliceStart(len: nat, start: int): (k: nat)
    ensures k <= len
    ensures 0 <= start ==> k == (if start < len then start else len)
    ensures start < 0 ==> k == (if -start <= len then len + start else 0)
  {
    if start < 0 then (if len + start < 0 then 0 else len + start)
    else if start > len then len
    else start
  }

  /** The list with the element at `SpliceStart(|s|, start)` removed, if there is one. */
  function SpliceOne<T>(s: seq<T>, start: int): (r: seq<T>)
    ensures var k := SpliceStart(|s|, start);
      && |r| == (if k < |s| then |s| - 1 else |s|)
      && (forall j :: 0 <= j < k && j < |r| ==> r[j] == s[j])
      && (forall j :: k <= j < |r| ==> r[j] == s[j + 1])
  {
    var k := SpliceStart(|s|, start);
    if k < |s| then s[..k] + s[k + 1..] else s
  }

  /** Exactly one occurrence of the element at the start position is removed; everything else stays. */
  lemma SpliceOneRemovesOne<T>(s: seq<T>, start: int)
    requires SpliceStart(|s|, start) < |s|
    ensures multiset(SpliceOne(s, start)) + multiset{s[SpliceStart(|s|, start)]} == multiset(s)
  {
    var k := SpliceStart(|s|, start);
    assert s == s[..k] + [s[k]] + s[k + 1..];
  }
}
