/**
  The injected randomness and the shuffle built on it. A random source is a stream of numbers in
  [0, 1); the index drawn from one of them is the floor of its product with the number of choices.
 */
module Random {
  import opened Collections

  type UnitReal = r: real | 0.0 <= r < 1.0 witness 0.0
  type Stream = nat -> UnitReal

  /** The index `Math.floor(rng() * n)` picks among `n` choices. */
  function DrawIndex(r: UnitReal, n: nat): (j: nat)
    requires n > 0
    ensures j < n
  {
    assert 0.0 <= r * (n as real) < n as real by {
      MulBelow(r, n as real);
    }
    (r * (n as real)).Floor
  }

  lemma MulBelow(r: real, n: real)
    requires 0.0 <= r < 1.0 && n > 0.0
    ensures 0.0 <= r * n < n
  {
  }

  lemma QuotientBelowOne(j: real, n: real)
    requires 0.0 <= j < n
    ensures 0.0 <= j / n < 1.0
  {
  }

  /** Every one of the `n` choices is drawn by some random number, so no outcome is out of reach. */
  lemma DrawIndexOnto(n: nat, j: nat)
    requires j < n
    ensures exists r: UnitReal :: DrawIndex(r, n) == j
  {
    var r: real := (j as real) / (n as real);
    assert r * (n as real) == j as real;
    QuotientBelowOne(j as real, n as real);
    var u: UnitReal := r;
    assert DrawIndex(u, n) == j;
  }

  /** `draws[i]` is the index that position `i` is exchanged with; position 0 has only itself. */
  ghost predicate ValidDraws(draws: seq<nat>, n: nat) {
    |draws| == n && forall i :: 0 <= i < n ==> draws[i] <= i
  }

  function Swap<T>(s: seq<T>, i: nat, j: nat): (r: seq<T>)
    requires i < |s| && j < |s|
    ensures |r| == |s|
  {
    s[i := s[j]][j := s[i]]
  }

  /** The exchanges at positions `i`, `i - 1`, ..., 1. */
  function ShuffleFrom<T>(s: seq<T>, i: nat, draws: seq<nat>): (r: seq<T>)
    requires ValidDraws(draws, |s|)
    requires i < |s|
    ensures |r| == |s|
    decreases i
  {
    if i == 0 then s else ShuffleFrom(Swap(s, i, draws[i]), i - 1, draws)
  }

  function Shuffled<T>(s: seq<T>, draws: seq<nat>): (r: seq<T>)
    requires ValidDraws(draws, |s|)
    ensures |r| == |s|
  {
    if s == [] then s else ShuffleFrom(s, |s| - 1, draws)
  }

  /** The draws a stream of random numbers makes while `n` items are shuffled. */
  function DrawsOf(rng: Stream, n: nat): (draws: seq<nat>)
    ensures ValidDraws(draws, n)
    ensures forall i :: 0 <= i < n ==> draws[i] == DrawIndex(rng(i), i + 1)
  {
    if n == 0 then [] else DrawsOf(rng, n - 1) + [DrawIndex(rng(n - 1), n)]
  }

  // ---- What a shuffle does -------------------------------------------------------------------

  lemma SwapPermutes<T>(s: seq<T>, i: nat, j: nat)
    requires j <= i < |s|
    ensures Permutation(Swap(s, i, j), s)
    ensures multiset(Swap(s, i, j)[..i + 1]) == multiset(s[..i + 1])
    ensures Swap(s, i, j)[i + 1..] == s[i + 1..]
  {
    var p := s[..i + 1];
    assert Swap(s, i, j)[..i + 1] == p[i := p[j]][j := p[i]];
    assert s == s[..i + 1] + s[i + 1..];
    assert Swap(s, i, j) == Swap(s, i, j)[..i + 1] + s[i + 1..];
  }

  /** A shuffle rearranges: it loses nothing and invents nothing. */
  lemma {:induction false} ShuffleFromPermutes<T>(s: seq<T>, i: nat, draws: seq<nat>)
    requires ValidDraws(draws, |s|) && i < |s|
    ensures Permutation(ShuffleFrom(s, i, draws), s)
    ensures ShuffleFrom(s, i, draws)[i + 1..] == s[i + 1..]
    ensures ShuffleFrom(s, i, draws)[i] == if i == 0 then s[0] else s[draws[i]]
    decreases i
  {
    if i > 0 {
      var t := Swap(s, i, draws[i]);
      SwapPermutes(s, i, draws[i]);
      ShuffleFromPermutes(t, i - 1, draws);
      var r := ShuffleFrom(t, i - 1, draws);
      assert r[i] == r[i..][0] == t[i..][0];
      assert r[i + 1..] == r[i..][1..] == t[i..][1..] == t[i + 1..];
    }
  }

  lemma ShuffledPermutes<T>(s: seq<T>, draws: seq<nat>)
    requires ValidDraws(draws, |s|)
    ensures Permutation(Shuffled(s, draws), s)
  {
    if s != [] {
      ShuffleFromPermutes(s, |s| - 1, draws);
    }
  }

  /** The item that ends up at position `i` tells the draw made there. */
  lemma SameDraw<T>(s: seq<T>, i: nat, draws: seq<nat>, draws': seq<nat>)
    requires ValidDraws(draws, |s|) && ValidDraws(draws', |s|) && 0 < i < |s|
    requires Distinct(s)
    requires ShuffleFrom(s, i, draws) == ShuffleFrom(s, i, draws')
    ensures draws[i] == draws'[i]
  {
    ShuffleFromPermutes(s, i, draws);
    ShuffleFromPermutes(s, i, draws');
    assert s[draws[i]] == s[draws'[i]];
  }

  lemma {:induction false} ShuffleFromInjective<T>(s: seq<T>, i: nat, draws: seq<nat>, draws': seq<nat>)
    requires ValidDraws(draws, |s|) && ValidDraws(draws', |s|) && i < |s|
    requires Distinct(s)
    requires ShuffleFrom(s, i, draws) == ShuffleFrom(s, i, draws')
    ensures draws[..i + 1] == draws'[..i + 1]
    decreases i
  {
    if i > 0 {
      SameDraw(s, i, draws, draws');
      SwapPermutes(s, i, draws[i]);
      PermutationDistinct(Swap(s, i, draws[i]), s);
      hide Swap, Distinct, Permutation;
      ShuffleFromInjective(Swap(s, i, draws[i]), i - 1, draws, draws');
      assert draws[..i + 1] == draws[..i] + [draws[i]];
      assert draws'[..i + 1] == draws'[..i] + [draws'[i]];
    }
  }

  /** Distinct draws give distinct orders: no order is reached twice. */
  lemma ShuffleInjective<T>(s: seq<T>, draws: seq<nat>, draws': seq<nat>)
    requires Distinct(s)
    requires ValidDraws(draws, |s|) && ValidDraws(draws', |s|)
    requires Shuffled(s, draws) == Shuffled(s, draws')
    ensures draws == draws'
  {
    if s != [] {
      ShuffleFromInjective(s, |s| - 1, draws, draws');
      assert draws == draws[..|s|] && draws' == draws'[..|s|];
    }
  }

  lemma WithoutLast<T>(t: seq<T>, i: nat)
    requires i < |t|
    ensures multiset(t[..i]) == multiset(t[..i + 1]) - multiset{t[i]}
    ensures t[i..] == [t[i]] + t[i + 1..]
  {
    assert t[..i + 1] == t[..i] + [t[i]];
  }

  /** An exchange that brings `t[i]` to position `i` leaves the same problem one position shorter. */
  lemma FixLast<T>(s: seq<T>, t: seq<T>, i: nat) returns (j: nat)
    requires |t| == |s| && 0 < i < |s|
    requires multiset(t[..i + 1]) == multiset(s[..i + 1]) && t[i + 1..] == s[i + 1..]
    ensures j <= i
    ensures multiset(t[..i]) == multiset(Swap(s, i, j)[..i]) && t[i..] == Swap(s, i, j)[i..]
  {
    var before, after := s[..i + 1], t[..i + 1];
    assert after[i] in multiset(after);
    j :| 0 <= j <= i && before[j] == after[i];
    SwapPermutes(s, i, j);
    WithoutLast(t, i);
    WithoutLast(Swap(s, i, j), i);
  }

  lemma {:induction false} ShuffleFromOnto<T>(s: seq<T>, t: seq<T>, i: nat, later: seq<nat>) returns (draws: seq<nat>)
    requires |t| == |s| && i < |s|
    requires multiset(t[..i + 1]) == multiset(s[..i + 1]) && t[i + 1..] == s[i + 1..]
    requires |later| == |s| && forall k :: i < k < |s| ==> later[k] <= k
    ensures ValidDraws(draws, |s|)
    ensures forall k :: i < k < |s| ==> draws[k] == later[k]
    ensures ShuffleFrom(s, i, draws) == t
    decreases i
  {
    if i == 0 {
      draws := later[0 := 0];
      assert t[..1] == [t[0]] && s[..1] == [s[0]];
      assert t[0] in multiset(s[..1]);
      assert s == s[..1] + s[1..] && t == t[..1] + t[1..];
    } else {
      var j := FixLast(s, t, i);
      draws := ShuffleFromOnto(Swap(s, i, j), t, i - 1, later[i := j]);
    }
  }

  /** Every order is reached: for each rearrangement there are draws that produce it. */
  lemma ShuffleOnto<T>(s: seq<T>, t: seq<T>)
    requires Permutation(t, s)
    ensures exists draws :: ValidDraws(draws, |s|) && Shuffled(s, draws) == t
  {
    PermutationMembers(t, s);
    if s == [] {
      assert ValidDraws([], 0) && Shuffled(s, []) == t;
    } else {
      assert t[..|s|] == t && s[..|s|] == s;
      var draws := ShuffleFromOnto(s, t, |s| - 1, seq(|s|, i => 0));
      assert Shuffled(s, draws) == t;
    }
  }

  /** Any valid draws come from some stream of random numbers, so the two lemmas above speak of `rng`. */
  lemma DrawsRealised(draws: seq<nat>)
    requires ValidDraws(draws, |draws|)
    ensures exists rng: Stream :: DrawsOf(rng, |draws|) == draws
  {
    var rng: Stream := RealiseDraws(draws);
    assert DrawsOf(rng, |draws|) == draws;
  }

  ghost function RealiseDraws(draws: seq<nat>): (rng: Stream)
    requires ValidDraws(draws, |draws|)
    ensures forall i :: 0 <= i < |draws| ==> DrawIndex(rng(i), i + 1) == draws[i]
  {
    (i: nat) =>
      if i < |draws| then
        DrawIndexOnto(i + 1, draws[i]);
        var r: UnitReal :| DrawIndex(r, i + 1) == draws[i];
        r
      else 0.0
  }

  // ---- The operations --------------------------------------------------------------------------

  /** The shuffle as the rest of the model uses it. */
  function Shuffle<T(!new)>(items: seq<T>, rng: Stream): (r: seq<T>)
    ensures |r| == |items|
    ensures Permutation(r, items)
    ensures forall x :: x in r <==> x in items
    ensures Distinct(items) ==> Distinct(r)
  {
    var r := Shuffled(items, DrawsOf(rng, |items|));
    ShuffledPermutes(items, DrawsOf(rng, |items|));
    PermutationMembers(r, items);
    assert Distinct(items) ==> Distinct(r) by {
      if Distinct(items) {
        PermutationDistinct(r, items);
      }
    }
    r
  }

  /** Copies the items and exchanges them in place, last position first. */
  method ShuffleInPlace<T(!new)>(items: seq<T>, rng: Stream) returns (result: array<T>)
    ensures fresh(result)
    ensures result[..] == Shuffle(items, rng)
  {
    hide Shuffle, Permutation, Distinct, Shuffled, ShuffleFrom, Swap, DrawsOf;
    result := new T[|items|](i requires 0 <= i < |items| => items[i]);
    assert result[..] == items;
    ghost var draws := DrawsOf(rng, |items|);
    ShuffleIs(items, rng);
    if |items| == 0 {
      return;
    }
    var i := result.Length - 1;
    while i > 0
      invariant 0 <= i < result.Length == |items|
      invariant ShuffleFrom(result[..], i, draws) == Shuffled(items, draws)
    {
      var j := DrawIndex(rng(i), i + 1);
      assert j == draws[i];
      ghost var before := result[..];
      ShuffleStep(before, i, draws);
      var tmp := result[i];
      result[i] := result[j];
      result[j] := tmp;
      assert result[..] == before[i := before[j]][j := before[i]];
      i := i - 1;
    }
    ShuffleStep(result[..], 0, draws);
  }

  lemma ShuffleIs<T(!new)>(items: seq<T>, rng: Stream)
    ensures var draws := DrawsOf(rng, |items|);
            && Shuffle(items, rng) == Shuffled(items, draws)
            && (items == [] ==> Shuffled(items, draws) == items)
            && (items != [] ==> Shuffled(items, draws) == ShuffleFrom(items, |items| - 1, draws))
  {
  }

  lemma ShuffleStep<T>(s: seq<T>, i: nat, draws: seq<nat>)
    requires ValidDraws(draws, |s|) && i < |s|
    ensures i == 0 ==> ShuffleFrom(s, i, draws) == s
    ensures i > 0 ==> ShuffleFrom(s, i, draws) == ShuffleFrom(s[i := s[draws[i]]][draws[i] := s[i]], i - 1, draws)
  {
  }

  /** `count` items clamped to what there is: distinct members of the pool whenever the pool is. */
  function RandomSubset<T(!new)>(pool: seq<T>, count: int, rng: Stream): (r: seq<T>)
    ensures |r| == Max(0, Min(count, |pool|))
    ensures forall x :: x in r ==> x in pool
    ensures Distinct(pool) ==> Distinct(r)
  {
    Shuffle(pool, rng)[..Max(0, Min(count, |pool|))]
  }

  /** Every distinct selection of the clamped size can come out, so the subset is not biased by construction. */
  lemma RandomSubsetOnto<T(!new)>(pool: seq<T>, chosen: seq<T>)
    requires multiset(chosen) <= multiset(pool)
    ensures exists rng: Stream :: RandomSubset(pool, |chosen|, rng) == chosen
  {
    var left := Listing(multiset(pool) - multiset(chosen));
    var order := chosen + left;
    assert Permutation(order, pool);
    PermutationMembers(order, pool);
    ShuffleOnto(pool, order);
    var draws :| ValidDraws(draws, |pool|) && Shuffled(pool, draws) == order;
    DrawsRealised(draws);
    var rng: Stream :| DrawsOf(rng, |draws|) == draws;
    assert RandomSubset(pool, |chosen|, rng) == order[..|chosen|] == chosen;
  }

  lemma {:induction false} Listing<T>(m: multiset<T>) returns (s: seq<T>)
    ensures multiset(s) == m
    decreases |m|
  {
    if m == multiset{} {
      s := [];
    } else {
      var x :| x in m;
      var rest := Listing(m - multiset{x});
      s := [x] + rest;
    }
  }

  /** One member of a non-empty pool; the source throws on an empty one, which no caller passes. */
  function RandomChoice<T>(pool: seq<T>, rng: Stream): (r: T)
    requires pool != []
    ensures r in pool
  {
    pool[Min(DrawIndex(rng(0), |pool|), |pool| - 1)]
  }

  /** Every rearrangement comes out for some random numbers. */
  lemma ShuffleReaches<T(!new)>(items: seq<T>, t: seq<T>) returns (rng: Stream)
    requires Permutation(t, items)
    ensures Shuffle(items, rng) == t
  {
    ShuffleOnto(items, t);
    var draws :| ValidDraws(draws, |items|) && Shuffled(items, draws) == t;
    DrawsRealised(draws);
    rng :| DrawsOf(rng, |draws|) == draws;
    hide Shuffled, DrawsOf;
    ShuffleIs(items, rng);
  }

  /** So does every member of a pool. */
  lemma ChoiceReaches<T(!new)>(items: seq<T>, x: T) returns (rng: Stream)
    requires x in items
    ensures RandomChoice(items, rng) == x
  {
    var j :| 0 <= j < |items| && items[j] == x;
    DrawIndexOnto(|items|, j);
    var r: UnitReal :| DrawIndex(r, |items|) == j;
    rng := (i: nat) => r;
  }
}
