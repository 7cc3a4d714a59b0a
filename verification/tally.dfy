/**
 The tally resolver: turns the revealed 4-slot vote vector into a
 settlement outcome. An all-zero tally is a push; otherwise the maximum wins,
 and a tie among several maxima is broken by an injected entropy value
 (a block hash in the deployed engine).
 */
module TallyResolver {
  import opened CircuitTypes

  datatype Settlement = Settlement(pushAll: bool, winningPathline: nat)

  /** The largest count in `v` (0 for an empty vector). */
  function MaxCount(v: seq<nat>): (m: nat)
    ensures forall i :: 0 <= i < |v| ==> v[i] <= m
    ensures |v| > 0 ==> exists i :: 0 <= i < |v| && v[i] == m
  {
    if |v| == 0 then 0
    else
      var rest := MaxCount(v[1..]);
      assert forall i :: 1 <= i < |v| ==> v[i] == v[1..][i - 1];
      if v[0] >= rest then v[0] else rest
  }

  /** Indices `i` with `from <= i < |v|` and `v[i] == m`, in ascending order. */
  function TiedFrom(v: seq<nat>, m: nat, from: nat): (r: seq<nat>)
    ensures forall k :: 0 <= k < |r| ==> from <= r[k] < |v| && v[r[k]] == m
    ensures forall i :: from <= i < |v| && v[i] == m ==> i in r
    ensures forall k, l :: 0 <= k < l < |r| ==> r[k] < r[l]
    decreases |v| - from
  {
    if from >= |v| then []
    else if v[from] == m then [from] + TiedFrom(v, m, from + 1)
    else TiedFrom(v, m, from + 1)
  }

  /** The pathlines holding the maximum count, ascending. */
  function TiedMaxima(v: seq<nat>): (r: seq<nat>)
    ensures forall k :: 0 <= k < |r| ==> r[k] < |v| && v[r[k]] == MaxCount(v)
    ensures forall i :: 0 <= i < |v| && v[i] == MaxCount(v) ==> i in r
    ensures |v| > 0 ==> |r| > 0
  {
    TiedFrom(v, MaxCount(v), 0)
  }

  /** Settlement of a revealed tally with the given tie-break entropy. */
  function Resolve(v: Votes, entropy: nat): (s: Settlement)
    ensures s.pushAll <==> Sum(v) == 0
    ensures s.pushAll ==> s.winningPathline == NO_WINNER
    ensures !s.pushAll ==> s.winningPathline < PATHLINE_COUNT
    ensures !s.pushAll ==> forall i :: 0 <= i < PATHLINE_COUNT ==> v[i] <= v[s.winningPathline]
  {
    if Sum(v) == 0 then Settlement(true, NO_WINNER)
    else
      var tied := TiedMaxima(v);
      Settlement(false, tied[entropy % |tied|])
  }

  /** A pathline whose count beats every other count wins, whatever the entropy. */
  lemma UniqueMaximumWins(v: Votes, entropy: nat, k: nat)
    requires k < PATHLINE_COUNT
    requires forall j :: 0 <= j < PATHLINE_COUNT && j != k ==> v[j] < v[k]
    ensures Resolve(v, entropy) == Settlement(false, k)
  {
    var tied := TiedMaxima(v);
    assert v[k] > 0 by {
      assert v[k] > v[(k + 1) % PATHLINE_COUNT];
    }
    SumZeroIffAllZero(v);
    assert MaxCount(v) == v[k];
    assert forall t :: 0 <= t < |tied| ==> tied[t] == k;
  }

  /** The outcome is a push exactly when no votes were cast. */
  lemma PushIffNoVotes(v: Votes, entropy: nat)
    ensures Resolve(v, entropy).pushAll <==> v == ZERO_VOTES
  {
    SumZeroIffAllZero(v);
    if forall i :: 0 <= i < |v| ==> v[i] == 0 {
      assert v == ZERO_VOTES;
    }
  }

  /**
   With some votes cast, the winner is one of the tied maxima, and every tied
   maximum is the winner for some entropy value (the tie-break excludes none).
   */
  lemma TieBreakAmongMaxima(v: Votes, entropy: nat, i: nat)
    requires Sum(v) > 0
    ensures Resolve(v, entropy).winningPathline in TiedMaxima(v)
    ensures i < PATHLINE_COUNT && v[i] == MaxCount(v) ==>
      exists e: nat :: Resolve(v, e).winningPathline == i
  {
    var tied := TiedMaxima(v);
    assert Resolve(v, entropy).winningPathline == tied[entropy % |tied|];
    if i < PATHLINE_COUNT && v[i] == MaxCount(v) {
      assert i in tied;
      var k :| 0 <= k < |tied| && tied[k] == i;
      ModBelow(k, |tied|);
      assert Resolve(v, k).winningPathline == tied[k % |tied|];
    }
  }

  lemma ModBelow(k: nat, n: nat)
    requires k < n
    ensures k % n == k
  {
  }

  /** Tally [5,3,2,0]: pathline 0 (Nova) wins outright. */
  lemma ExampleClearWinner(entropy: nat)
    ensures Resolve([5, 3, 2, 0], entropy) == Settlement(false, 0)
  {
    UniqueMaximumWins([5, 3, 2, 0], entropy, 0);
  }

  /** Tally [5,5,2,0]: the winner is 0 or 1, chosen by the entropy. */
  lemma ExampleTie(entropy: nat)
    ensures !Resolve([5, 5, 2, 0], entropy).pushAll
    ensures Resolve([5, 5, 2, 0], entropy).winningPathline in {0, 1}
  {
    var v: Votes := [5, 5, 2, 0];
    assert MaxCount(v) == 5;
  }

  /** Tally [0,0,0,0]: a push with winning pathline 255. */
  lemma ExamplePush(entropy: nat)
    ensures Resolve([0, 0, 0, 0], entropy) == Settlement(true, NO_WINNER)
  {
  }
}
