/** Drawing without replacement from a list, as the game does twice: an
    entry is picked at a random position of what is left, taken out with
    `List.RemoveAt`, and offered. */
module Sampling {
  import opened Common

  /** `List.RemoveAt`. */
  function RemoveAt<T>(s: seq<T>, k: nat): (r: seq<T>)
    requires k < |s|
    ensures |r| == |s| - 1
  {
    s[..k] + s[k + 1..]
  }

  /** Removing an entry takes exactly that entry out of the multiset. */
  lemma RemoveAtTakesOne<T>(s: seq<T>, k: nat)
    requires k < |s|
    ensures multiset(RemoveAt(s, k)) + multiset{s[k]} == multiset(s)
  {
    assert s == s[..k] + [s[k]] + s[k + 1..];
  }

  /** The state of a drawing loop after its first `i` draws: the entries
      offered so far and what is left of the copied pool. */
  datatype Drawing<T> = Drawing(offers: seq<T>, rest: seq<T>)

  /** The first `i` draws from `pool`: draw `j` removes the entry at
      position `rand(d0 + j)` modulo the size of the rest and offers it. */
  function DrawSteps<T>(pool: seq<T>, i: nat, rand: nat -> nat, d0: nat): (r: Drawing<T>)
    requires i <= |pool|
    ensures |r.offers| == i && |r.rest| == |pool| - i
    decreases i
  {
    if i == 0 then Drawing([], pool)
    else
      var prev := DrawSteps(pool, i - 1, rand, d0);
      var k := Pick(rand, d0 + i - 1, |prev.rest|);
      Drawing(prev.offers + [prev.rest[k]], RemoveAt(prev.rest, k))
  }

  /** One more draw from a known state, in the order a loop makes it. */
  lemma DrawStepsStep<T>(pool: seq<T>, i: nat, rand: nat -> nat, d0: nat, offers: seq<T>, rest: seq<T>, k: nat)
    requires i < |pool| && DrawSteps(pool, i, rand, d0) == Drawing(offers, rest)
    requires k == Pick(rand, d0 + i, |rest|)
    ensures k < |rest|
    ensures DrawSteps(pool, i + 1, rand, d0) == Drawing(offers + [rest[k]], RemoveAt(rest, k))
  {
  }

  /** Nothing is offered twice and nothing is lost: after any number of
      draws the offers and the rest together are exactly the pool. */
  lemma {:induction false} DrawStepsKeepPool<T>(pool: seq<T>, i: nat, rand: nat -> nat, d0: nat)
    requires i <= |pool|
    ensures multiset(DrawSteps(pool, i, rand, d0).offers) + multiset(DrawSteps(pool, i, rand, d0).rest) == multiset(pool)
    decreases i
  {
    if i > 0 {
      var prev := DrawSteps(pool, i - 1, rand, d0);
      var k := Pick(rand, d0 + i - 1, |prev.rest|);
      var cur := DrawSteps(pool, i, rand, d0);
      assert cur == Drawing(prev.offers + [prev.rest[k]], RemoveAt(prev.rest, k));
      assert multiset(cur.offers) == multiset(prev.offers) + multiset{prev.rest[k]};
      RemoveAtTakesOne(prev.rest, k);
      DrawStepsKeepPool(pool, i - 1, rand, d0);
    }
  }

  /** `count` draws, or as many as the pool allows. */
  function Draw<T>(pool: seq<T>, count: int, rand: nat -> nat, d0: nat): (r: seq<T>)
    ensures |r| == Min(if count < 0 then 0 else count, |pool|)
    ensures multiset(r) <= multiset(pool)
  {
    var n := Min(if count < 0 then 0 else count, |pool|);
    DrawStepsKeepPool(pool, n, rand, d0);
    DrawSteps(pool, n, rand, d0).offers
  }

  predicate Distinct<T(==)>(s: seq<T>) {
    forall i, j :: 0 <= i < j < |s| ==> s[i] != s[j]
  }

  /** A sub-multiset of a repetition-free pool holds every element at most once. */
  lemma {:induction false} SubsetOfDistinct<T>(s: seq<T>, pool: seq<T>)
    requires Distinct(pool) && multiset(s) <= multiset(pool)
    ensures Distinct(s)
  {
    forall i, j | 0 <= i < j < |s|
      ensures s[i] != s[j]
    {
      if s[i] == s[j] {
        assert multiset(s)[s[i]] >= 2 by {
          assert s == s[..i] + [s[i]] + s[i + 1..j] + [s[j]] + s[j + 1..];
        }
        DistinctCountsOne(pool, s[i]);
      }
    }
  }

  lemma {:induction false} DistinctCountsOne<T>(s: seq<T>, x: T)
    requires Distinct(s)
    ensures multiset(s)[x] <= 1
    decreases |s|
  {
    if |s| > 0 {
      assert s == [s[0]] + s[1..];
      assert Distinct(s[1..]);
      DistinctCountsOne(s[1..], x);
      if s[0] == x {
        assert x !in s[1..];
      }
    }
  }
}
