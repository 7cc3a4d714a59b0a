/**
 The circuit list page: the status-tab filter, the case-insensitive search
 over headline and id, and the three sort orders.
 */
module CircuitList {
  import opened Text
  import opened ContractUtils

  /** A circuit is shown when it passes the tab filter and the search matches its headline or its id. */
  predicate Matches(c: ViewCircuit, filter: string, search: string) {
    && (filter == "all" || StatusName(c.status) == filter)
    && (Contains(Lower(c.headline), Lower(search)) || Contains(Lower(c.circuitId), Lower(search)))
  }

  /** The circuits of `cs` that `keep` accepts, in their order in `cs`. */
  function Keep(cs: seq<ViewCircuit>, keep: ViewCircuit -> bool): (r: seq<ViewCircuit>)
    ensures forall i :: 0 <= i < |r| ==> keep(r[i])
    ensures forall x :: multiset(r)[x] == if keep(x) then multiset(cs)[x] else 0
    decreases |cs|
  {
    if |cs| == 0 then []
    else
      var rest := Keep(cs[1..], keep);
      assert cs == [cs[0]] + cs[1..];
      if keep(cs[0]) then [cs[0]] + rest else rest
  }

  /** Keeping distributes over concatenation. */
  lemma {:induction false} KeepAppend(a: seq<ViewCircuit>, b: seq<ViewCircuit>, keep: ViewCircuit -> bool)
    ensures Keep(a + b, keep) == Keep(a, keep) + Keep(b, keep)
    decreases |a|
  {
    if |a| == 0 {
      assert a + b == b;
    } else {
      var ab := a + b;
      assert ab[0] == a[0];
      assert ab[1..] == a[1..] + b;
      KeepAppend(a[1..], b, keep);
      var ra := Keep(a[1..], keep);
      var rb := Keep(b, keep);
      if keep(a[0]) {
        assert Keep(ab, keep) == [a[0]] + (ra + rb);
        assert Keep(a, keep) == [a[0]] + ra;
      } else {
        assert Keep(ab, keep) == ra + rb;
        assert Keep(a, keep) == ra;
      }
    }
  }

  /** When every circuit is accepted, nothing is dropped. */
  lemma {:induction false} KeepAll(cs: seq<ViewCircuit>, keep: ViewCircuit -> bool)
    requires forall i :: 0 <= i < |cs| ==> keep(cs[i])
    ensures Keep(cs, keep) == cs
    decreases |cs|
  {
    if |cs| > 0 {
      assert keep(cs[0]);
      KeepAll(cs[1..], keep);
      assert [cs[0]] + cs[1..] == cs;
    }
  }

  /** The match rule as a test on one circuit. */
  function MatchTest(filter: string, search: string): ViewCircuit -> bool {
    c => Matches(c, filter, search)
  }

  /**
   The list page's filter step: the matching circuits, in their original
   order (see `FilterAppend`), each as often as it occurs in the input.
   */
  function FilterCircuits(cs: seq<ViewCircuit>, filter: string, search: string): (r: seq<ViewCircuit>)
    ensures forall i :: 0 <= i < |r| ==> Matches(r[i], filter, search)
    ensures forall i :: 0 <= i < |cs| && Matches(cs[i], filter, search) ==> cs[i] in r
    ensures multiset(r) <= multiset(cs)
    ensures forall x :: multiset(r)[x] == if Matches(x, filter, search) then multiset(cs)[x] else 0
  {
    var keep := MatchTest(filter, search);
    var r := Keep(cs, keep);
    assert forall x :: keep(x) == Matches(x, filter, search);
    assert forall i :: 0 <= i < |cs| ==> cs[i] in multiset(cs);
    r
  }

  /**
   Filtering distributes over concatenation. With `FilterOne` this fixes the
   output as the matching circuits in input order.
   */
  lemma FilterAppend(a: seq<ViewCircuit>, b: seq<ViewCircuit>, filter: string, search: string)
    ensures FilterCircuits(a + b, filter, search) == FilterCircuits(a, filter, search) + FilterCircuits(b, filter, search)
  {
    KeepAppend(a, b, MatchTest(filter, search));
  }

  /** A single circuit is kept exactly when it matches. */
  lemma FilterOne(x: ViewCircuit, filter: string, search: string)
    ensures FilterCircuits([x], filter, search) == if Matches(x, filter, search) then [x] else []
  {
    assert [x][1..] == [];
  }

  /** With the "all" tab and an empty search every circuit is kept, in order. */
  lemma EmptySearchKeepsAll(cs: seq<ViewCircuit>)
    ensures FilterCircuits(cs, "all", "") == cs
  {
    assert Lower("") == "";
    forall i | 0 <= i < |cs|
      ensures MatchTest("all", "")(cs[i])
    {
      ContainsEmpty(Lower(cs[i].headline));
    }
    KeepAll(cs, MatchTest("all", ""));
  }

  /**
   The sort key of each order, ascending: "ending" by lock time, earliest
   first; "participants" by entrant count, largest first; anything else by
   lock time, latest first.
   */
  function SortKey(c: ViewCircuit, sort: string): int {
    if sort == "ending" then c.lockTime
    else if sort == "participants" then -(c.totalEntrants as int)
    else -c.lockTime
  }

  predicate SortedBy(cs: seq<ViewCircuit>, sort: string) {
    forall i, j :: 0 <= i < j < |cs| ==> SortKey(cs[i], sort) <= SortKey(cs[j], sort)
  }

  /** Inserts `x` before the first element whose key is not below its own. */
  function Insert(x: ViewCircuit, cs: seq<ViewCircuit>, sort: string): (r: seq<ViewCircuit>)
    requires SortedBy(cs, sort)
    ensures SortedBy(r, sort)
    ensures multiset(r) == multiset(cs) + multiset{x}
    decreases |cs|
  {
    if |cs| == 0 then [x]
    else if SortKey(x, sort) <= SortKey(cs[0], sort) then [x] + cs
    else
      var rest := Insert(x, cs[1..], sort);
      assert cs == [cs[0]] + cs[1..];
      BoundedAfterInsert(x, cs[1..], rest, sort, SortKey(cs[0], sort));
      [cs[0]] + rest
  }

  /** A lower bound on every key survives adding one more element above it. */
  lemma BoundedAfterInsert(x: ViewCircuit, cs: seq<ViewCircuit>, r: seq<ViewCircuit>, sort: string, lo: int)
    requires multiset(r) == multiset(cs) + multiset{x}
    requires lo <= SortKey(x, sort)
    requires forall k :: 0 <= k < |cs| ==> lo <= SortKey(cs[k], sort)
    ensures forall k :: 0 <= k < |r| ==> lo <= SortKey(r[k], sort)
  {
    forall k | 0 <= k < |r|
      ensures lo <= SortKey(r[k], sort)
    {
      assert r[k] in multiset(r);
      if r[k] != x {
        assert r[k] in multiset(cs);
        var j :| 0 <= j < |cs| && cs[j] == r[k];
      }
    }
  }

  /** The circuits of `cs` whose key is `k`, in their order in `cs`. */
  function WithKey(cs: seq<ViewCircuit>, sort: string, k: int): seq<ViewCircuit>
    decreases |cs|
  {
    if |cs| == 0 then []
    else (if SortKey(cs[0], sort) == k then [cs[0]] else []) + WithKey(cs[1..], sort, k)
  }

  /** Unfolds `WithKey` on a sequence with a known first element. */
  lemma WithKeyCons(x: ViewCircuit, rest: seq<ViewCircuit>, sort: string, k: int)
    ensures WithKey([x] + rest, sort, k) == (if SortKey(x, sort) == k then [x] else []) + WithKey(rest, sort, k)
  {
    assert ([x] + rest)[1..] == rest;
  }

  /** Insertion puts `x` in front of every element with the same key. */
  lemma {:induction false} InsertFirstAmongEquals(x: ViewCircuit, cs: seq<ViewCircuit>, sort: string, k: int)
    requires SortedBy(cs, sort)
    ensures WithKey(Insert(x, cs, sort), sort, k) ==
      (if SortKey(x, sort) == k then [x] else []) + WithKey(cs, sort, k)
    decreases |cs|
  {
    if |cs| == 0 {
      WithKeyCons(x, [], sort, k);
    } else if SortKey(x, sort) <= SortKey(cs[0], sort) {
      WithKeyCons(x, cs, sort, k);
    } else {
      var rest := Insert(x, cs[1..], sort);
      InsertFirstAmongEquals(x, cs[1..], sort, k);
      WithKeyCons(cs[0], rest, sort, k);
      WithKeyCons(cs[0], cs[1..], sort, k);
      assert [cs[0]] + cs[1..] == cs;
    }
  }

  /**
   Insertion sort by the order's key; earlier elements go first among equal
   keys (see `SortIsStable`).
   */
  function SortCircuits(cs: seq<ViewCircuit>, sort: string): (r: seq<ViewCircuit>)
    ensures SortedBy(r, sort)
    ensures multiset(r) == multiset(cs)
    decreases |cs|
  {
    if |cs| == 0 then []
    else
      assert cs == [cs[0]] + cs[1..];
      Insert(cs[0], SortCircuits(cs[1..], sort), sort)
  }

  /**
   The sort is stable: for every key, the circuits with that key keep their
   input order. With `SortedBy` and the permutation this determines the
   output completely.
   */
  lemma {:induction false} SortIsStable(cs: seq<ViewCircuit>, sort: string, k: int)
    ensures WithKey(SortCircuits(cs, sort), sort, k) == WithKey(cs, sort, k)
    decreases |cs|
  {
    if |cs| > 0 {
      SortIsStable(cs[1..], sort, k);
      InsertFirstAmongEquals(cs[0], SortCircuits(cs[1..], sort), sort, k);
    }
  }

  /** The list page's filter-then-sort. */
  function FilteredCircuits(cs: seq<ViewCircuit>, filter: string, search: string, sort: string): (r: seq<ViewCircuit>)
    ensures multiset(r) == multiset(FilterCircuits(cs, filter, search))
    ensures SortedBy(r, sort)
  {
    SortCircuits(FilterCircuits(cs, filter, search), sort)
  }

  /**
   The list shows exactly the matching circuits, each as often as it occurs
   in the input: nothing is added or duplicated.
   */
  lemma FilteredIsMatchingSubset(cs: seq<ViewCircuit>, filter: string, search: string, sort: string)
    ensures var r := FilteredCircuits(cs, filter, search, sort);
      && multiset(r) <= multiset(cs)
      && (forall i :: 0 <= i < |r| ==> Matches(r[i], filter, search))
      && (forall i :: 0 <= i < |cs| && Matches(cs[i], filter, search) ==> cs[i] in r)
  {
    var kept := FilterCircuits(cs, filter, search);
    var r := FilteredCircuits(cs, filter, search, sort);
    forall i | 0 <= i < |r|
      ensures Matches(r[i], filter, search)
    {
      assert r[i] in multiset(kept);
    }
    forall i | 0 <= i < |cs| && Matches(cs[i], filter, search)
      ensures cs[i] in r
    {
      assert cs[i] in multiset(kept);
      assert cs[i] in multiset(r);
    }
  }

  /**
   The three orders: "ending" gives nondecreasing lock times,
   "participants" nonincreasing entrant counts, anything else nonincreasing
   lock times.
   */
  lemma SortOrders(cs: seq<ViewCircuit>, filter: string, search: string, sort: string)
    ensures var r := FilteredCircuits(cs, filter, search, sort);
      && (sort == "ending" ==> forall i, j :: 0 <= i < j < |r| ==> r[i].lockTime <= r[j].lockTime)
      && (sort == "participants" ==> forall i, j :: 0 <= i < j < |r| ==> r[i].totalEntrants >= r[j].totalEntrants)
      && (sort != "ending" && sort != "participants" ==>
            forall i, j :: 0 <= i < j < |r| ==> r[i].lockTime >= r[j].lockTime)
  {
    var r := FilteredCircuits(cs, filter, search, sort);
    assert forall i, j :: 0 <= i < j < |r| ==> SortKey(r[i], sort) <= SortKey(r[j], sort);
  }

  /**
   Circuits that tie under the chosen order are shown in the order the
   filter kept them, which is their input order.
   */
  lemma ShownTieOrder(cs: seq<ViewCircuit>, filter: string, search: string, sort: string, k: int)
    ensures WithKey(FilteredCircuits(cs, filter, search, sort), sort, k) == WithKey(FilterCircuits(cs, filter, search), sort, k)
  {
    SortIsStable(FilterCircuits(cs, filter, search), sort, k);
  }

  /**
   The match rule against the positional reading of `includes`: the tab
   agrees, and the lower-cased search occurs at some position of the
   lower-cased headline or id.
   */
  lemma MatchesByPosition(c: ViewCircuit, filter: string, search: string)
    ensures Matches(c, filter, search) <==>
      (filter == "all" || StatusName(c.status) == filter)
      && (OccursSomewhere(Lower(c.headline), Lower(search)) || OccursSomewhere(Lower(c.circuitId), Lower(search)))
  {
    ContainsAt(Lower(c.headline), Lower(search));
    ContainsAt(Lower(c.circuitId), Lower(search));
  }

  /** Search matching is case-insensitive on both sides. */
  lemma SearchIgnoresCase(c: ViewCircuit, filter: string, search: string)
    ensures Matches(c, filter, search) == Matches(c, filter, Lower(search))
  {
    LowerIdempotent(search);
  }
}
