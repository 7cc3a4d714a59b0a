/**
 Properties of the settlement engine that relate several calls: the state
 invariant every transaction preserves, the history every transaction
 respects (immutable fields, monotone flags, append-only log), and the
 behaviour the engine's test suite pins down, stated for all inputs.
 */
module EngineProperties {
  import opened Results
  import opened CircuitTypes
  import opened CircuitEngine
  import TallyResolver

  // ----- the state invariant -----------------------------------------------

  ghost predicate CircuitValid(id: CircuitId, c: Circuit) {
    && c.circuitId == id
    && (forall i, j :: 0 <= i < j < |c.entrants| ==> c.entrants[i] != c.entrants[j])
    && (forall a :: a in c.choices <==> a in c.entrants)
    && (c.settled && !c.pushAll ==> c.winningPathline < PATHLINE_COUNT)
    && (!(c.settled && !c.pushAll) ==> c.winningPathline == NO_WINNER)
    && (c.pushAll ==> c.settled)
    && (c.settled ==> c.votesRevealed && !c.cancelled)
  }

  /**
   Ids are unique and listed exactly for the registered circuits; each
   circuit's entrants are unique and are exactly the holders of a ciphertext;
   the winning pathline is a real pathline exactly when the circuit settled
   with a winner; a settled circuit had its tally and was never cancelled.
   */
  ghost predicate Valid(e: Engine) {
    && (forall i, j :: 0 <= i < j < |e.ids| ==> e.ids[i] != e.ids[j])
    && (forall id :: id in e.circuits <==> id in e.ids)
    && (forall id :: id in e.circuits ==> CircuitValid(id, e.circuits[id]))
  }

  /** One transaction, with the inputs the chain supplies made explicit. */
  datatype Op =
    | Create(caller: Address, now: nat, id: CircuitId, headline: string, duration: nat)
    | Enter(caller: Address, now: nat, id: CircuitId, ct: Ciphertext, proof: InputProof)
    | RequestReveal(now: nat, id: CircuitId)
    | Submit(now: nat, id: CircuitId, votes: Votes)
    | Settle(now: nat, id: CircuitId, entropy: nat)
    | Cancel(caller: Address, id: CircuitId)

  function Attempt(e: Engine, op: Op, verify: Verifier): Result<Engine, Error> {
    match op
    case Create(caller, now, id, headline, duration) => CreateCircuit(e, caller, now, id, headline, duration)
    case Enter(caller, now, id, ct, proof) => EnterCircuit(e, caller, now, id, ct, proof, verify)
    case RequestReveal(now, id) => RequestVoteReveal(e, now, id)
    case Submit(now, id, votes) => SubmitDecryptedVotes(e, now, id, votes)
    case Settle(now, id, entropy) => SettleCircuit(e, now, id, entropy)
    case Cancel(caller, id) => CancelCircuit(e, caller, id)
  }

  /** The state after a transaction: a reverted transaction changes nothing. */
  function Step(e: Engine, op: Op, verify: Verifier): Engine {
    var r := Attempt(e, op, verify);
    if r.Ok? then r.value else e
  }

  /** The state after a sequence of transactions. */
  function Run(e: Engine, ops: seq<Op>, verify: Verifier): Engine
    decreases |ops|
  {
    if |ops| == 0 then e else Run(Step(e, ops[0], verify), ops[1..], verify)
  }

  lemma DeployedValid()
    ensures Valid(Deployed)
  {
  }

  lemma CreatePreservesValid(e: Engine, caller: Address, now: nat, id: CircuitId, headline: string, duration: nat)
    requires Valid(e)
    requires CreateCircuit(e, caller, now, id, headline, duration).Ok?
    ensures Valid(CreateCircuit(e, caller, now, id, headline, duration).value)
  {
    var e' := CreateCircuit(e, caller, now, id, headline, duration).value;
    forall i, j | 0 <= i < j < |e'.ids|
      ensures e'.ids[i] != e'.ids[j]
    {
      if j == |e.ids| {
        assert e.ids[i] in e.circuits;
      }
    }
  }

  lemma EnterPreservesValid(e: Engine, caller: Address, now: nat, id: CircuitId, ct: Ciphertext,
                            proof: InputProof, verify: Verifier)
    requires Valid(e)
    requires EnterCircuit(e, caller, now, id, ct, proof, verify).Ok?
    ensures Valid(EnterCircuit(e, caller, now, id, ct, proof, verify).value)
  {
    var e' := EnterCircuit(e, caller, now, id, ct, proof, verify).value;
    var c := e.circuits[id];
    var c' := e'.circuits[id];
    assert CircuitValid(id, c);
    forall i, j | 0 <= i < j < |c'.entrants|
      ensures c'.entrants[i] != c'.entrants[j]
    {
      if j == |c.entrants| {
        assert c.entrants[i] in c.choices;
      }
    }
    assert CircuitValid(id, c');
  }

  /**
   In every reachable state the id list names each registered circuit
   exactly once: an id is listed iff `getCircuit` finds it, and no id is
   listed twice.
   */
  lemma ListedIdsAreRegistry(ops: seq<Op>, verify: Verifier)
    ensures var e := Run(Deployed, ops, verify);
      && (forall id :: id in ListCircuitIds(e) <==> GetCircuit(e, id).Ok?)
      && (forall i, j :: 0 <= i < j < |ListCircuitIds(e)| ==> ListCircuitIds(e)[i] != ListCircuitIds(e)[j])
  {
    DeployedValid();
    RunPreservesValid(Deployed, ops, verify);
  }

  lemma StepPreservesValid(e: Engine, op: Op, verify: Verifier)
    requires Valid(e)
    ensures Valid(Step(e, op, verify))
  {
    var r := Attempt(e, op, verify);
    if r.Ok? {
      match op
      case Create(caller, now, id, headline, duration) =>
        CreatePreservesValid(e, caller, now, id, headline, duration);
      case Enter(caller, now, id, ct, proof) =>
        EnterPreservesValid(e, caller, now, id, ct, proof, verify);
      case RequestReveal(now, id) =>
        RevealPreservesValid(e, now, id);
      case Submit(now, id, votes) =>
        SubmitPreservesValid(e, now, id, votes);
      case Settle(now, id, entropy) =>
        SettlePreservesValid(e, now, id, entropy);
      case Cancel(caller, id) =>
        CancelPreservesValid(e, caller, id);
    }
  }

  lemma RevealPreservesValid(e: Engine, now: nat, id: CircuitId)
    requires Valid(e)
    requires RequestVoteReveal(e, now, id).Ok?
    ensures Valid(RequestVoteReveal(e, now, id).value)
  {
    assert CircuitValid(id, e.circuits[id]);
  }

  lemma SubmitPreservesValid(e: Engine, now: nat, id: CircuitId, votes: Votes)
    requires Valid(e)
    requires SubmitDecryptedVotes(e, now, id, votes).Ok?
    ensures Valid(SubmitDecryptedVotes(e, now, id, votes).value)
  {
    assert CircuitValid(id, e.circuits[id]);
  }

  lemma SettlePreservesValid(e: Engine, now: nat, id: CircuitId, entropy: nat)
    requires Valid(e)
    requires SettleCircuit(e, now, id, entropy).Ok?
    ensures Valid(SettleCircuit(e, now, id, entropy).value)
  {
    assert CircuitValid(id, e.circuits[id]);
  }

  lemma CancelPreservesValid(e: Engine, caller: Address, id: CircuitId)
    requires Valid(e)
    requires CancelCircuit(e, caller, id).Ok?
    ensures Valid(CancelCircuit(e, caller, id).value)
  {
    assert CircuitValid(id, e.circuits[id]);
  }

  /** Every state reachable from deployment satisfies the invariant. */
  lemma {:induction false} RunPreservesValid(e: Engine, ops: seq<Op>, verify: Verifier)
    requires Valid(e)
    ensures Valid(Run(e, ops, verify))
    decreases |ops|
  {
    if |ops| > 0 {
      StepPreservesValid(e, ops[0], verify);
      RunPreservesValid(Step(e, ops[0], verify), ops[1..], verify);
    }
  }

  // ----- history -------------------------------------------------------------

  /**
   `e'` extends `e`: no circuit disappears; id, headline, creator and lock
   time never change; cancelled and settled only go from false to true; a
   settled outcome and a stored tally are final; entrants are only appended
   and a stored ciphertext is never altered; ids and the log only grow at the end.
   */
  ghost predicate Extends(e: Engine, e': Engine) {
    && e.ids <= e'.ids
    && e.log <= e'.log
    && forall id :: id in e.circuits ==>
      && id in e'.circuits
      && var c := e.circuits[id];
      && var c' := e'.circuits[id];
      && c'.circuitId == c.circuitId && c'.headline == c.headline
      && c'.creator == c.creator && c'.lockTime == c.lockTime
      && (c.cancelled ==> c'.cancelled)
      && (c.settled ==> c'.settled && c'.pushAll == c.pushAll && c'.winningPathline == c.winningPathline)
      && (c.votesRevealed ==> c'.votesRevealed && c'.revealedVotes == c.revealedVotes)
      && (c.revealRequested ==> c'.revealRequested)
      && c.entrants <= c'.entrants
      && (forall a :: a in c.choices ==> a in c'.choices && c'.choices[a] == c.choices[a])
  }

  lemma StepExtends(e: Engine, op: Op, verify: Verifier)
    requires Valid(e)
    ensures Extends(e, Step(e, op, verify))
  {
    var r := Attempt(e, op, verify);
    if r.Ok? {
      match op
      case Create(caller, now, id, headline, duration) =>
        CreateExtends(e, caller, now, id, headline, duration);
      case Enter(caller, now, id, ct, proof) =>
        EnterExtends(e, caller, now, id, ct, proof, verify);
      case RequestReveal(now, id) =>
        RevealExtends(e, now, id);
      case Submit(now, id, votes) =>
        SubmitExtends(e, now, id, votes);
      case Settle(now, id, entropy) =>
        SettleExtends(e, now, id, entropy);
      case Cancel(caller, id) =>
        CancelExtends(e, caller, id);
    }
  }

  lemma CreateExtends(e: Engine, caller: Address, now: nat, id: CircuitId, headline: string, duration: nat)
    requires CreateCircuit(e, caller, now, id, headline, duration).Ok?
    ensures Extends(e, CreateCircuit(e, caller, now, id, headline, duration).value)
  {
  }

  lemma EnterExtends(e: Engine, caller: Address, now: nat, id: CircuitId, ct: Ciphertext,
                     proof: InputProof, verify: Verifier)
    requires Valid(e)
    requires EnterCircuit(e, caller, now, id, ct, proof, verify).Ok?
    ensures Extends(e, EnterCircuit(e, caller, now, id, ct, proof, verify).value)
  {
    assert CircuitValid(id, e.circuits[id]);
  }

  lemma RevealExtends(e: Engine, now: nat, id: CircuitId)
    requires RequestVoteReveal(e, now, id).Ok?
    ensures Extends(e, RequestVoteReveal(e, now, id).value)
  {
  }

  lemma SubmitExtends(e: Engine, now: nat, id: CircuitId, votes: Votes)
    requires Valid(e)
    requires SubmitDecryptedVotes(e, now, id, votes).Ok?
    ensures Extends(e, SubmitDecryptedVotes(e, now, id, votes).value)
  {
    assert CircuitValid(id, e.circuits[id]);
  }

  lemma SettleExtends(e: Engine, now: nat, id: CircuitId, entropy: nat)
    requires SettleCircuit(e, now, id, entropy).Ok?
    ensures Extends(e, SettleCircuit(e, now, id, entropy).value)
  {
  }

  lemma CancelExtends(e: Engine, caller: Address, id: CircuitId)
    requires CancelCircuit(e, caller, id).Ok?
    ensures Extends(e, CancelCircuit(e, caller, id).value)
  {
  }

  lemma ExtendsTransitive(e1: Engine, e2: Engine, e3: Engine)
    requires Extends(e1, e2) && Extends(e2, e3)
    ensures Extends(e1, e3)
  {
  }

  /** Over any run, the history only grows (see `Extends`). */
  lemma {:induction false} RunExtends(e: Engine, ops: seq<Op>, verify: Verifier)
    requires Valid(e)
    ensures Extends(e, Run(e, ops, verify))
    decreases |ops|
  {
    if |ops| == 0 {
    } else {
      var e1 := Step(e, ops[0], verify);
      StepExtends(e, ops[0], verify);
      StepPreservesValid(e, ops[0], verify);
      RunExtends(e1, ops[1..], verify);
      ExtendsTransitive(e, e1, Run(e1, ops[1..], verify));
    }
  }
}
