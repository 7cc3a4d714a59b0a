/**
 The behaviour the engine's test suite exercises, stated for all inputs
 where the tests use sample values, and as concrete runs where the test is
 a concrete lifecycle.
 */
module EngineScenarios {
  import opened Results
  import opened CircuitTypes
  import opened CircuitEngine
  import opened EngineProperties
  import TallyResolver

  /** The deployed constants. */
  lemma DeployedConstants()
    ensures PATHLINE_COUNT == 4 && MIN_DURATION == 600 && MAX_DURATION == 345600 && NO_WINNER == 255
  {
  }

  /** Durations 300 and 360000 are rejected; exactly 600 and exactly 345600 are accepted. */
  lemma DurationBoundaries(e: Engine, caller: Address, now: nat, id: CircuitId, headline: string)
    requires id !in e.circuits
    ensures CreateCircuit(e, caller, now, id, headline, 300) == Err(InvalidDuration)
    ensures CreateCircuit(e, caller, now, id, headline, 360000) == Err(InvalidDuration)
    ensures CreateCircuit(e, caller, now, id, headline, 600).Ok?
    ensures CreateCircuit(e, caller, now, id, headline, 345600).Ok?
  {
  }

  /** Neither the id nor the headline is validated: an empty id and a 1000-character headline are accepted. */
  lemma IdAndHeadlineUnconstrained(caller: Address, now: nat)
    ensures CreateCircuit(Deployed, caller, now, "", "Empty ID Test", 3600).Ok?
    ensures CreateCircuit(Deployed, caller, now, "long-headline", seq(1000, _ => 'A'), 3600).Ok?
  {
  }

  /** Once an id is registered, creating it again fails with CircuitExists, whatever the other inputs. */
  lemma DuplicateIdRejected(e: Engine, caller: Address, now: nat, id: CircuitId, headline: string, duration: nat,
                            caller2: Address, now2: nat, headline2: string, duration2: nat)
    requires CreateCircuit(e, caller, now, id, headline, duration).Ok?
    ensures CreateCircuit(CreateCircuit(e, caller, now, id, headline, duration).value,
                          caller2, now2, id, headline2, duration2) == Err(CircuitExists)
  {
  }

  /**
   A fresh circuit reads back with the given id and headline, the caller as
   creator, no flags set and no entrants; nobody has entered it; and its id
   is appended to the list exactly once.
   */
  lemma FreshCircuitReadsBack(e: Engine, caller: Address, now: nat, id: CircuitId, headline: string,
                              duration: nat, anyone: Address)
    requires Valid(e)
    requires CreateCircuit(e, caller, now, id, headline, duration).Ok?
    ensures var e' := CreateCircuit(e, caller, now, id, headline, duration).value;
      && GetCircuit(e', id) == Ok(CircuitSnapshot(true, id, headline, caller, now + duration,
                                                 false, false, false, NO_WINNER, ZERO_VOTES, 0))
      && HasEntered(e', id, anyone) == Ok(false)
      && GetEntrants(e', id) == Ok([])
      && ListCircuitIds(e') == ListCircuitIds(e) + [id]
      && multiset(ListCircuitIds(e'))[id] == 1
  {
    var e' := CreateCircuit(e, caller, now, id, headline, duration).value;
    assert id !in e.ids;
    assert multiset(e.ids)[id] == 0;
  }

  /** Before the lock time, reveal, tally submission and settlement all fail with NotLocked. */
  lemma TooEarlyIsNotLocked(e: Engine, now: nat, id: CircuitId, votes: Votes, entropy: nat)
    requires id in e.circuits
    requires !e.circuits[id].cancelled && !e.circuits[id].settled
    requires now < e.circuits[id].lockTime
    ensures RequestVoteReveal(e, now, id) == Err(NotLocked)
    ensures SubmitDecryptedVotes(e, now, id, votes) == Err(NotLocked)
    ensures SettleCircuit(e, now, id, entropy) == Err(NotLocked)
  {
  }

  /**
   The cancellation test: the creator cancels, and after the lock time
   settlement fails with Locked; any other caller is refused with NotCreator.
   */
  lemma CancelThenSettle(e: Engine, creator: Address, other: Address, id: CircuitId, now: nat, entropy: nat)
    requires Valid(e)
    requires id in e.circuits && e.circuits[id].creator == creator && other != creator
    requires !e.circuits[id].cancelled && !e.circuits[id].settled
    ensures CancelCircuit(e, other, id) == Err(NotCreator)
    ensures CancelCircuit(e, creator, id).Ok?
    ensures var e' := CancelCircuit(e, creator, id).value;
      && GetCircuit(e', id).Ok? && GetCircuit(e', id).value.cancelled
      && e'.log[|e'.log| - 1] == CircuitCancelled(id)
      && SettleCircuit(e', now, id, entropy) == Err(Locked)
  {
  }

  /** A second settlement fails with AlreadySettled, so the first outcome stands. */
  lemma DoubleSettlementRejected(e: Engine, now: nat, id: CircuitId, entropy: nat, now2: nat, entropy2: nat)
    requires SettleCircuit(e, now, id, entropy).Ok?
    ensures SettleCircuit(SettleCircuit(e, now, id, entropy).value, now2, id, entropy2) == Err(AlreadySettled)
  {
  }

  /** A second entry by the same user while the circuit is still open fails with AlreadyEntered. */
  lemma DoubleEntryRejected(e: Engine, user: Address, now: nat, id: CircuitId, ct: Ciphertext, proof: InputProof,
                            now2: nat, ct2: Ciphertext, proof2: InputProof, verify: Verifier)
    requires EnterCircuit(e, user, now, id, ct, proof, verify).Ok?
    requires now2 < e.circuits[id].lockTime
    ensures EnterCircuit(EnterCircuit(e, user, now, id, ct, proof, verify).value,
                         user, now2, id, ct2, proof2, verify) == Err(AlreadyEntered)
  {
  }

  /** A successful entry emits EntryPlaced, marks the user entered and adds one entrant. */
  lemma EntryRecorded(e: Engine, user: Address, now: nat, id: CircuitId, ct: Ciphertext, proof: InputProof,
                      verify: Verifier)
    requires EnterCircuit(e, user, now, id, ct, proof, verify).Ok?
    ensures var e' := EnterCircuit(e, user, now, id, ct, proof, verify).value;
      && HasEntered(e', id, user) == Ok(true)
      && |GetEntrants(e', id).value| == |GetEntrants(e, id).value| + 1
      && GetUserChoice(e', id, user) == Ok(ct)
      && e'.log[|e'.log| - 1] == EntryPlaced(id, user)
  {
  }

  /** Three distinct users enter a fresh circuit: all three are entered and there are three entrants. */
  lemma ThreeUsersEnter(owner: Address, t: nat, alice: Address, bob: Address, carol: Address,
                        ca: Ciphertext, cb: Ciphertext, cc: Ciphertext, p: InputProof, verify: Verifier)
    requires alice != bob && bob != carol && alice != carol
    requires verify(ca, p, alice) && verify(cb, p, bob) && verify(cc, p, carol)
    ensures var id := "fhe-entry-test";
      var e0 := CreateCircuit(Deployed, owner, t, id, "FHE Entry Test", 3600).value;
      var e1 := EnterCircuit(e0, alice, t, id, ca, p, verify);
      && e1.Ok?
      && var e2 := EnterCircuit(e1.value, bob, t + 1, id, cb, p, verify);
      && e2.Ok?
      && var e3 := EnterCircuit(e2.value, carol, t + 2, id, cc, p, verify);
      && e3.Ok?
      && HasEntered(e3.value, id, alice) == Ok(true)
      && HasEntered(e3.value, id, bob) == Ok(true)
      && HasEntered(e3.value, id, carol) == Ok(true)
      && GetEntrants(e3.value, id) == Ok([alice, bob, carol])
  {
    var id := "fhe-entry-test";
    var e0 := CreateCircuit(Deployed, owner, t, id, "FHE Entry Test", 3600).value;
    assert e0.circuits[id].entrants == [] && e0.circuits[id].lockTime == t + 3600;
    var e1 := EnterCircuit(e0, alice, t, id, ca, p, verify);
    assert e1.Ok? && e1.value.circuits[id].entrants == [alice];
    var e2 := EnterCircuit(e1.value, bob, t + 1, id, cb, p, verify);
    assert e2.Ok? && e2.value.circuits[id].entrants == [alice, bob];
    var e3 := EnterCircuit(e2.value, carol, t + 2, id, cc, p, verify);
    assert e3.Ok? && e3.value.circuits[id].entrants == [alice, bob, carol];
  }

  /** Reveal and tally submission leave every stored ciphertext exactly as it was entered. */
  lemma RevealKeepsChoices(e: Engine, now: nat, id: CircuitId, votes: Votes, x: CircuitId, user: Address)
    ensures RequestVoteReveal(e, now, id).Ok? ==>
      GetUserChoice(RequestVoteReveal(e, now, id).value, x, user) == GetUserChoice(e, x, user)
    ensures SubmitDecryptedVotes(e, now, id, votes).Ok? ==>
      GetUserChoice(SubmitDecryptedVotes(e, now, id, votes).value, x, user) == GetUserChoice(e, x, user)
  {
  }

  /**
   The full lifecycle: create, pass the lock time without any reveal
   request, submit [5,3,2,0], settle. Pathline 0 wins without a push.
   */
  lemma FullLifecycle(owner: Address, t: nat, entropy: nat)
    ensures var id := "full-lifecycle-test";
      var votes: Votes := [5, 3, 2, 0];
      var e1 := CreateCircuit(Deployed, owner, t, id, "Nova vs Ember vs Tidal vs Quake", 3600);
      && e1.Ok?
      && var e2 := SubmitDecryptedVotes(e1.value, t + 3601, id, votes);
      && e2.Ok?
      && e2.value.log[|e2.value.log| - 1] == VotesRevealed(id, votes)
      && var e3 := SettleCircuit(e2.value, t + 3601, id, entropy);
      && e3.Ok?
      && e3.value.log[|e3.value.log| - 1] == CircuitSettled(id, false, 0)
      && GetCircuit(e3.value, id).value.settled
      && !GetCircuit(e3.value, id).value.pushAll
      && GetCircuit(e3.value, id).value.winningPathline == 0
      && GetCircuit(e3.value, id).value.revealedVotes == votes
  {
    TallyResolver.ExampleClearWinner(entropy);
  }

  /** Tied tally [5,5,2,0]: settlement succeeds and the winner is pathline 0 or 1. */
  lemma TiedLifecycle(owner: Address, t: nat, entropy: nat)
    ensures var id := "full-lifecycle-test";
      var e1 := CreateCircuit(Deployed, owner, t, id, "tie", 3600).value;
      var e2 := SubmitDecryptedVotes(e1, t + 3601, id, [5, 5, 2, 0]).value;
      var e3 := SettleCircuit(e2, t + 3601, id, entropy);
      && e3.Ok?
      && GetCircuit(e3.value, id).value.settled
      && GetCircuit(e3.value, id).value.winningPathline in {0, 1}
  {
    TallyResolver.ExampleTie(entropy);
  }

  /** All-zero tally: settlement is a push with winning pathline 255. */
  lemma PushLifecycle(owner: Address, t: nat, entropy: nat)
    ensures var id := "full-lifecycle-test";
      var e1 := CreateCircuit(Deployed, owner, t, id, "push", 3600).value;
      var e2 := SubmitDecryptedVotes(e1, t + 3601, id, ZERO_VOTES).value;
      var e3 := SettleCircuit(e2, t + 3601, id, entropy);
      && e3.Ok?
      && e3.value.log[|e3.value.log| - 1] == CircuitSettled(id, true, NO_WINNER)
      && GetCircuit(e3.value, id).value.settled
      && GetCircuit(e3.value, id).value.pushAll
  {
  }

  /** Reveal is refused one second before the lock time and accepted exactly at it. */
  lemma RevealAtLockTime(e: Engine, id: CircuitId)
    requires id in e.circuits && !e.circuits[id].cancelled && e.circuits[id].lockTime > 0
    ensures RequestVoteReveal(e, e.circuits[id].lockTime - 1, id) == Err(NotLocked)
    ensures RequestVoteReveal(e, e.circuits[id].lockTime, id).Ok?
  {
  }
}
