/**
 The circuit settlement engine: a registry of circuits keyed by a
 caller-supplied id, the lifecycle guards of each circuit, the store of
 encrypted entries, and the append-only event log.

 Every operation is a pure function of the engine state and explicit
 inputs: the block timestamp `now`, the transaction sender `caller`, the
 tie-break `entropy`, and the injected proof checker `verify`. A reverted
 transaction is an `Err`, which carries no state: a failed call leaves the
 engine exactly as it was.
 */
module CircuitEngine {
  import opened Results
  import opened CircuitTypes
  import TallyResolver

  type Address = string
  type CircuitId = string

  /** An encrypted pathline choice (an FHE ciphertext handle); the engine never looks inside it. */
  datatype Ciphertext = Ciphertext(handle: seq<bv8>)

  /** The input proof that accompanies a ciphertext. */
  datatype InputProof = InputProof(bytes: seq<bv8>)

  /** Injected proof check: does `proof` attest that `user` encrypted `ct` for this engine? */
  type Verifier = (Ciphertext, InputProof, Address) -> bool

  datatype Circuit = Circuit(
    circuitId: CircuitId,
    headline: string,
    creator: Address,
    lockTime: nat,
    cancelled: bool,
    settled: bool,
    pushAll: bool,
    winningPathline: nat,
    revealedVotes: Votes,
    votesRevealed: bool,                  // the oracle tally has been stored
    revealRequested: bool,                // stored ciphertexts are publicly decryptable
    entrants: seq<Address>,               // in entry order
    choices: map<Address, Ciphertext>)    // one ciphertext per entrant

  datatype Event =
    | CircuitCreated(circuitId: CircuitId, creator: Address, lockTime: nat)
    | EntryPlaced(circuitId: CircuitId, user: Address)
    | VoteRevealRequested(circuitId: CircuitId)
    | VotesRevealed(circuitId: CircuitId, votes: Votes)
    | CircuitSettled(circuitId: CircuitId, pushAll: bool, winningPathline: nat)
    | CircuitCancelled(circuitId: CircuitId)

  /** The engine's revert reasons. */
  datatype Error =
    | CircuitExists
    | InvalidDuration
    | CircuitMissing
    | NotCreator
    | NotLocked
    | Locked
    | AlreadySettled
    | AlreadyEntered
    | InvalidProof
    | NotEntered
    | VotesAlreadyRevealed
    | VotesNotRevealed

  datatype Engine = Engine(
    circuits: map<CircuitId, Circuit>,
    ids: seq<CircuitId>,                  // insertion order
    log: seq<Event>)

  /** The engine right after deployment. */
  const Deployed: Engine := Engine(map[], [], [])

  /** What `getCircuit` returns. */
  datatype CircuitSnapshot = CircuitSnapshot(
    present: bool,
    circuitId: CircuitId,
    headline: string,
    creator: Address,
    lockTime: nat,
    cancelled: bool,
    settled: bool,
    pushAll: bool,
    winningPathline: nat,
    revealedVotes: Votes,
    totalEntrants: nat)

  // ----- derived state ---------------------------------------------------

  /** "Locked" is not stored: it is the lock time having been reached. */
  predicate IsLocked(c: Circuit, now: nat) {
    now >= c.lockTime
  }

  /** Entries are accepted only while the circuit is live and before its lock time. */
  predicate EntryOpen(c: Circuit, now: nat) {
    !c.cancelled && !c.settled && now < c.lockTime
  }

  predicate Entered(c: Circuit, user: Address) {
    user in c.choices
  }

  /** Every circuit other than `id` is present and identical in `e'`. */
  ghost predicate OthersUnchanged(e: Engine, e': Engine, id: CircuitId) {
    forall x :: x in e.circuits && x != id ==> x in e'.circuits && e'.circuits[x] == e.circuits[x]
  }

  /** The set of circuits and their order are unchanged. */
  ghost predicate SameRegistry(e: Engine, e': Engine) {
    e'.circuits.Keys == e.circuits.Keys && e'.ids == e.ids
  }

  /** `e'` differs from `e` at most in circuit `id`, and only through `c'`. */
  ghost predicate UpdatedOnly(e: Engine, e': Engine, id: CircuitId, c': Circuit) {
    id in e'.circuits && e'.circuits[id] == c' && SameRegistry(e, e') && OthersUnchanged(e, e', id)
  }

  function Snapshot(c: Circuit): CircuitSnapshot {
    CircuitSnapshot(true, c.circuitId, c.headline, c.creator, c.lockTime, c.cancelled, c.settled,
                    c.pushAll, c.winningPathline, c.revealedVotes, |c.entrants|)
  }

  function NewCircuit(id: CircuitId, headline: string, creator: Address, lockTime: nat): Circuit {
    Circuit(id, headline, creator, lockTime, false, false, false, NO_WINNER, ZERO_VOTES,
            false, false, [], map[])
  }

  function Replace(e: Engine, id: CircuitId, c: Circuit, ev: Event): Engine {
    e.(circuits := e.circuits[id := c], log := e.log + [ev])
  }

  // ----- registry ----------------------------------------------------------

  /** `createCircuit(id, headline, duration)` sent by `caller` at time `now`. */
  function CreateCircuit(e: Engine, caller: Address, now: nat, id: CircuitId, headline: string,
                         duration: nat): (r: Result<Engine, Error>)
    ensures id in e.circuits ==> r == Err(CircuitExists)
    ensures id !in e.circuits && !ValidDuration(duration) ==> r == Err(InvalidDuration)
    ensures r.Ok? <==> id !in e.circuits && ValidDuration(duration)
    ensures r.Ok? ==>
      && r.value.ids == e.ids + [id]
      && r.value.circuits.Keys == e.circuits.Keys + {id}
      && OthersUnchanged(e, r.value, id)
      && r.value.log == e.log + [CircuitCreated(id, caller, now + duration)]
    ensures r.Ok? ==>
      var c := r.value.circuits[id];
      && c.circuitId == id && c.headline == headline && c.creator == caller
      && c.lockTime == now + duration
      && !c.cancelled && !c.settled && !c.pushAll && c.winningPathline == NO_WINNER
      && c.revealedVotes == ZERO_VOTES && !c.votesRevealed && !c.revealRequested
      && c.entrants == [] && c.choices == map[]
  {
    if id in e.circuits then Err(CircuitExists)
    else if !ValidDuration(duration) then Err(InvalidDuration)
    else
      var lockTime := now + duration;
      Ok(Engine(e.circuits[id := NewCircuit(id, headline, caller, lockTime)],
                e.ids + [id],
                e.log + [CircuitCreated(id, caller, lockTime)]))
  }

  /** `getCircuit(id)`. */
  function GetCircuit(e: Engine, id: CircuitId): (r: Result<CircuitSnapshot, Error>)
    ensures r.Err? <==> id !in e.circuits
    ensures r.Err? ==> r.error == CircuitMissing
    ensures r.Ok? ==>
      var c := e.circuits[id];
      && r.value.present && r.value.circuitId == c.circuitId && r.value.headline == c.headline
      && r.value.creator == c.creator && r.value.lockTime == c.lockTime
      && r.value.cancelled == c.cancelled && r.value.settled == c.settled
      && r.value.pushAll == c.pushAll && r.value.winningPathline == c.winningPathline
      && r.value.revealedVotes == c.revealedVotes && r.value.totalEntrants == |c.entrants|
  {
    if id in e.circuits then Ok(Snapshot(e.circuits[id])) else Err(CircuitMissing)
  }

  /** `listCircuitIds()`: every id ever created, in creation order. */
  function ListCircuitIds(e: Engine): seq<CircuitId> {
    e.ids
  }

  /** `hasEntered(id, user)`. */
  function HasEntered(e: Engine, id: CircuitId, user: Address): (r: Result<bool, Error>)
    ensures r.Err? <==> id !in e.circuits
    ensures r.Err? ==> r.error == CircuitMissing
    ensures r.Ok? ==> (r.value <==> user in e.circuits[id].choices)
  {
    if id in e.circuits then Ok(Entered(e.circuits[id], user)) else Err(CircuitMissing)
  }

  /** `getEntrants(id)`: the entrants in entry order, without their ciphertexts. */
  function GetEntrants(e: Engine, id: CircuitId): (r: Result<seq<Address>, Error>)
    ensures r.Err? <==> id !in e.circuits
    ensures r.Err? ==> r.error == CircuitMissing
    ensures r.Ok? ==> r.value == e.circuits[id].entrants
  {
    if id in e.circuits then Ok(e.circuits[id].entrants) else Err(CircuitMissing)
  }

  /** `getUserChoice(id, user)`: the ciphertext exactly as it was stored. */
  function GetUserChoice(e: Engine, id: CircuitId, user: Address): (r: Result<Ciphertext, Error>)
    ensures id !in e.circuits ==> r == Err(CircuitMissing)
    ensures id in e.circuits && user !in e.circuits[id].choices ==> r == Err(NotEntered)
    ensures r.Ok? <==> id in e.circuits && user in e.circuits[id].choices
    ensures r.Ok? ==> r.value == e.circuits[id].choices[user]
  {
    if id !in e.circuits then Err(CircuitMissing)
    else if user !in e.circuits[id].choices then Err(NotEntered)
    else Ok(e.circuits[id].choices[user])
  }

  // ----- lifecycle ---------------------------------------------------------

  /** `enterCircuit(id, ct, proof)` sent by `caller` at time `now`. */
  function EnterCircuit(e: Engine, caller: Address, now: nat, id: CircuitId, ct: Ciphertext,
                        proof: InputProof, verify: Verifier): (r: Result<Engine, Error>)
    ensures id !in e.circuits ==> r == Err(CircuitMissing)
    ensures id in e.circuits ==>
      var c := e.circuits[id];
      && (!EntryOpen(c, now) ==> r == Err(Locked))
      && (EntryOpen(c, now) && Entered(c, caller) ==> r == Err(AlreadyEntered))
      && (EntryOpen(c, now) && !Entered(c, caller) && !verify(ct, proof, caller) ==> r == Err(InvalidProof))
      && (r.Ok? <==> EntryOpen(c, now) && !Entered(c, caller) && verify(ct, proof, caller))
    ensures r.Ok? ==>
      var c := e.circuits[id];
      && UpdatedOnly(e, r.value, id,
           c.(entrants := c.entrants + [caller], choices := c.choices[caller := ct]))
      && r.value.log == e.log + [EntryPlaced(id, caller)]
  {
    if id !in e.circuits then Err(CircuitMissing)
    else
      var c := e.circuits[id];
      if !EntryOpen(c, now) then Err(Locked)
      else if Entered(c, caller) then Err(AlreadyEntered)
      else if !verify(ct, proof, caller) then Err(InvalidProof)
      else
        Ok(Replace(e, id, c.(entrants := c.entrants + [caller], choices := c.choices[caller := ct]),
                   EntryPlaced(id, caller)))
  }

  /**
   `requestVoteReveal(id)`: marks every stored ciphertext publicly decryptable.
   Anyone may call it once the lock time is reached; a repeated call changes nothing.
   */
  function RequestVoteReveal(e: Engine, now: nat, id: CircuitId): (r: Result<Engine, Error>)
    ensures id !in e.circuits ==> r == Err(CircuitMissing)
    ensures id in e.circuits ==>
      var c := e.circuits[id];
      && (c.cancelled ==> r == Err(Locked))
      && (!c.cancelled && !IsLocked(c, now) ==> r == Err(NotLocked))
      && (r.Ok? <==> !c.cancelled && IsLocked(c, now))
      && (r.Ok? && c.revealRequested ==> r.value == e)
    ensures r.Ok? && !e.circuits[id].revealRequested ==>
      && UpdatedOnly(e, r.value, id, e.circuits[id].(revealRequested := true))
      && r.value.log == e.log + [VoteRevealRequested(id)]
  {
    if id !in e.circuits then Err(CircuitMissing)
    else
      var c := e.circuits[id];
      if c.cancelled then Err(Locked)
      else if !IsLocked(c, now) then Err(NotLocked)
      else if c.revealRequested then Ok(e)
      else Ok(Replace(e, id, c.(revealRequested := true), VoteRevealRequested(id)))
  }

  /**
   `submitDecryptedVotes(id, votes)`: the oracle's tally, trusted as given and
   stored verbatim. No prior reveal request is needed.
   */
  function SubmitDecryptedVotes(e: Engine, now: nat, id: CircuitId, votes: Votes): (r: Result<Engine, Error>)
    ensures id !in e.circuits ==> r == Err(CircuitMissing)
    ensures id in e.circuits ==>
      var c := e.circuits[id];
      && (c.cancelled ==> r == Err(Locked))
      && (!c.cancelled && !IsLocked(c, now) ==> r == Err(NotLocked))
      && (!c.cancelled && IsLocked(c, now) && c.votesRevealed ==> r == Err(VotesAlreadyRevealed))
      && (r.Ok? <==> !c.cancelled && IsLocked(c, now) && !c.votesRevealed)
    ensures r.Ok? ==>
      var c := e.circuits[id];
      && UpdatedOnly(e, r.value, id, c.(revealedVotes := votes, votesRevealed := true))
      && r.value.log == e.log + [VotesRevealed(id, votes)]
  {
    if id !in e.circuits then Err(CircuitMissing)
    else
      var c := e.circuits[id];
      if c.cancelled then Err(Locked)
      else if !IsLocked(c, now) then Err(NotLocked)
      else if c.votesRevealed then Err(VotesAlreadyRevealed)
      else Ok(Replace(e, id, c.(revealedVotes := votes, votesRevealed := true), VotesRevealed(id, votes)))
  }

  /** `settleCircuit(id)` at time `now`, with the tie-break `entropy` of that block. */
  function SettleCircuit(e: Engine, now: nat, id: CircuitId, entropy: nat): (r: Result<Engine, Error>)
    ensures id !in e.circuits ==> r == Err(CircuitMissing)
    ensures id in e.circuits ==>
      var c := e.circuits[id];
      && (c.cancelled ==> r == Err(Locked))
      && (!c.cancelled && c.settled ==> r == Err(AlreadySettled))
      && (!c.cancelled && !c.settled && !IsLocked(c, now) ==> r == Err(NotLocked))
      && (!c.cancelled && !c.settled && IsLocked(c, now) && !c.votesRevealed ==> r == Err(VotesNotRevealed))
      && (r.Ok? <==> !c.cancelled && !c.settled && IsLocked(c, now) && c.votesRevealed)
    ensures r.Ok? ==> id in e.circuits && id in r.value.circuits
    ensures r.Ok? ==>
      var c := e.circuits[id];
      var c' := r.value.circuits[id];
      && UpdatedOnly(e, r.value, id, c')
      && c' == c.(settled := true, pushAll := c'.pushAll, winningPathline := c'.winningPathline)
      && (c'.pushAll <==> c.revealedVotes == ZERO_VOTES)
      && (c'.pushAll ==> c'.winningPathline == NO_WINNER)
      && (!c'.pushAll ==> c'.winningPathline < PATHLINE_COUNT)
      && (!c'.pushAll ==>
            forall i :: 0 <= i < PATHLINE_COUNT ==> c.revealedVotes[i] <= c.revealedVotes[c'.winningPathline])
      && r.value.log == e.log + [CircuitSettled(id, c'.pushAll, c'.winningPathline)]
  {
    if id !in e.circuits then Err(CircuitMissing)
    else
      var c := e.circuits[id];
      if c.cancelled then Err(Locked)
      else if c.settled then Err(AlreadySettled)
      else if !IsLocked(c, now) then Err(NotLocked)
      else if !c.votesRevealed then Err(VotesNotRevealed)
      else
        var outcome := TallyResolver.Resolve(c.revealedVotes, entropy);
        TallyResolver.PushIffNoVotes(c.revealedVotes, entropy);
        Ok(Replace(e, id, c.(settled := true, pushAll := outcome.pushAll, winningPathline := outcome.winningPathline),
                   CircuitSettled(id, outcome.pushAll, outcome.winningPathline)))
  }

  /** `cancelCircuit(id)` sent by `caller`: creator only, and not once settled. */
  function CancelCircuit(e: Engine, caller: Address, id: CircuitId): (r: Result<Engine, Error>)
    ensures id !in e.circuits ==> r == Err(CircuitMissing)
    ensures id in e.circuits ==>
      var c := e.circuits[id];
      && (caller != c.creator ==> r == Err(NotCreator))
      && (caller == c.creator && c.settled ==> r == Err(AlreadySettled))
      && (caller == c.creator && !c.settled && c.cancelled ==> r == Err(Locked))
      && (r.Ok? <==> caller == c.creator && !c.settled && !c.cancelled)
    ensures r.Ok? ==>
      && UpdatedOnly(e, r.value, id, e.circuits[id].(cancelled := true))
      && r.value.log == e.log + [CircuitCancelled(id)]
  {
    if id !in e.circuits then Err(CircuitMissing)
    else
      var c := e.circuits[id];
      if caller != c.creator then Err(NotCreator)
      else if c.settled then Err(AlreadySettled)
      else if c.cancelled then Err(Locked)
      else Ok(Replace(e, id, c.(cancelled := true), CircuitCancelled(id)))
  }
}
