/** Facts about a rotation: a sequence made of consecutive blocks, each naming everybody exactly once. */
module AdminRotation {
  import opened Collections
  import opened SpeakingOrder

  /** `turns` splits into consecutive blocks, each a rearrangement of `ids`. */
  ghost predicate Blocks(turns: seq<PlayerId>, ids: seq<PlayerId>)
    decreases |turns|
  {
    turns == []
    || (ids != [] && |turns| >= |ids| && Permutation(turns[..|ids|], ids) && Blocks(turns[|ids|..], ids))
  }

  /** The turns already taken and those still queued make up whole blocks, and the queue is less than one. */
  ghost predicate Rotation(taken: seq<PlayerId>, queue: seq<PlayerId>, ids: seq<PlayerId>) {
    && Blocks(taken + queue, ids)
    && (queue != [] ==> |queue| < |ids|)
    && forall id :: id in queue ==> id in ids
  }

  lemma {:induction false} BlocksAppend(turns: seq<PlayerId>, block: seq<PlayerId>, ids: seq<PlayerId>)
    requires Blocks(turns, ids) && ids != [] && Permutation(block, ids)
    ensures Blocks(turns + block, ids)
    decreases |turns|
  {
    if turns == [] {
      PermutationLength(block, ids);
      assert turns + block == block && block[..|ids|] == block && block[|ids|..] == [];
    } else {
      BlocksAppend(turns[|ids|..], block, ids);
      assert (turns + block)[..|ids|] == turns[..|ids|];
      assert (turns + block)[|ids|..] == turns[|ids|..] + block;
    }
  }

  /** Taking the head of a queue that is not empty leaves the whole sequence as it was. */
  lemma TakeQueued(taken: seq<PlayerId>, queue: seq<PlayerId>, ids: seq<PlayerId>)
    requires Rotation(taken, queue, ids) && queue != []
    ensures Rotation(taken + [queue[0]], queue[1..], ids)
  {
    assert (taken + [queue[0]]) + queue[1..] == taken + queue;
  }

  /** When the queue is empty the next turn comes from a fresh arrangement of everybody. */
  lemma TakeFresh(taken: seq<PlayerId>, block: seq<PlayerId>, ids: seq<PlayerId>)
    requires Rotation(taken, [], ids) && ids != [] && Permutation(block, ids)
    ensures block != [] && Rotation(taken + [block[0]], block[1..], ids)
  {
    PermutationMembers(block, ids);
    assert taken + [] == taken;
    BlocksAppend(taken, block, ids);
    assert (taken + [block[0]]) + block[1..] == taken + block;
    assert forall id :: id in block[1..] ==> id in block;
  }

  lemma CountOfPrefix(block: seq<PlayerId>, m: nat, id: PlayerId)
    requires Distinct(block) && m <= |block|
    ensures 0 <= Count(block[..m], id) <= 1
  {
    DistinctCounts(block);
    assert block == block[..m] + block[m..];
    if id !in block {
      assert id !in block[..m];
    }
  }

  /** However long the rotation runs and wherever it is cut, turn counts of two players differ by at most one. */
  lemma {:induction false} TurnsDifferByOne(turns: seq<PlayerId>, ids: seq<PlayerId>, m: nat, p: PlayerId, q: PlayerId)
    requires Blocks(turns, ids) && Distinct(ids) && m <= |turns| && p in ids && q in ids
    ensures Count(turns[..m], p) <= Count(turns[..m], q) + 1
    decreases |turns|
  {
    if turns != [] {
      var n := |ids|;
      var block, rest := turns[..n], turns[n..];
      PermutationDistinct(block, ids);
      if m <= n {
        assert turns[..m] == block[..m];
        CountOfPrefix(block, m, p);
        CountOfPrefix(block, m, q);
      } else {
        TurnsDifferByOne(rest, ids, m - n, p, q);
        assert turns[..m] == block + rest[..m - n];
        DistinctCounts(ids);
      }
    }
  }

  lemma FairSoFar(taken: seq<PlayerId>, queue: seq<PlayerId>, ids: seq<PlayerId>, p: PlayerId, q: PlayerId)
    requires Rotation(taken, queue, ids) && Distinct(ids) && p in ids && q in ids
    ensures Count(taken, p) <= Count(taken, q) + 1
  {
    assert taken == (taken + queue)[..|taken|];
    TurnsDifferByOne(taken + queue, ids, |taken|, p, q);
  }
}
