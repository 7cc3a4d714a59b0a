/**
 Constants and value types shared by the settlement engine and the frontend:
 the four pathlines, the duration bounds, and the 4-slot vote vector.
 */
module CircuitTypes {
  import opened Results

  /** Number of outcomes a circuit offers. */
  const PATHLINE_COUNT: nat := 4

  /** Shortest allowed circuit duration: 10 minutes, in seconds. */
  const MIN_DURATION: nat := 10 * 60

  /** Longest allowed circuit duration: 96 hours, in seconds. */
  const MAX_DURATION: nat := 96 * 60 * 60

  /** The largest 8-bit value, used as the winning pathline meaning "no winner". */
  const NO_WINNER: nat := 255

  /** A vote count per pathline, indexed by pathline. */
  type Votes = v: seq<nat> | |v| == PATHLINE_COUNT witness [0, 0, 0, 0]

  const ZERO_VOTES: Votes := [0, 0, 0, 0]

  /** The four outcomes, in index order. */
  datatype Pathline = Nova | Ember | Tidal | Quake

  function PathlineIndex(p: Pathline): (i: nat)
    ensures i < PATHLINE_COUNT
  {
    match p
    case Nova => 0
    case Ember => 1
    case Tidal => 2
    case Quake => 3
  }

  function PathlineAt(i: nat): (r: Option<Pathline>)
    ensures r.Some? <==> i < PATHLINE_COUNT
  {
    if i == 0 then Some(Nova)
    else if i == 1 then Some(Ember)
    else if i == 2 then Some(Tidal)
    else if i == 3 then Some(Quake)
    else None
  }

  /** Index and pathline are mutually inverse: every index below 4 names exactly one pathline. */
  lemma PathlineIndexRoundTrip(p: Pathline, i: nat)
    ensures PathlineAt(PathlineIndex(p)) == Some(p)
    ensures i < PATHLINE_COUNT ==> PathlineIndex(PathlineAt(i).value) == i
  {
  }

  predicate ValidDuration(d: int) {
    MIN_DURATION <= d <= MAX_DURATION
  }

  /** Total number of votes in a vector. */
  function Sum(v: seq<nat>): nat {
    if |v| == 0 then 0 else v[0] + Sum(v[1..])
  }

  /** A vote vector sums to zero exactly when every slot is zero. */
  lemma {:induction false} SumZeroIffAllZero(v: seq<nat>)
    ensures Sum(v) == 0 <==> forall i :: 0 <= i < |v| ==> v[i] == 0
  {
    if |v| > 0 {
      SumZeroIffAllZero(v[1..]);
      assert forall i :: 1 <= i < |v| ==> v[i] == v[1..][i - 1];
    }
  }

  /** The total of a vote vector is the sum of its four slots. */
  lemma SumOfVotes(v: Votes)
    ensures Sum(v) == v[0] + v[1] + v[2] + v[3]
  {
    assert Sum(v[3..]) == v[3] + Sum(v[4..]);
    assert Sum(v[2..]) == v[2] + Sum(v[2..][1..]) && v[2..][1..] == v[3..];
    assert Sum(v[1..]) == v[1] + Sum(v[1..][1..]) && v[1..][1..] == v[2..];
  }
}
