/**
 The frontend's interpretation of engine state: status derivation,
 conversion of the contract's snapshot into the view model, address
 abbreviation and the status predicates. `Date.now()` is the explicit
 parameter `now`, in milliseconds.
 */
module ContractUtils {
  import opened Results
  import opened CircuitTypes
  import CircuitEngine

  /** The four statuses a circuit is shown with. */
  datatype Status = Open | Locked | Settled | Cancelled

  /** The status as the string the view compares filters against. */
  function StatusName(s: Status): string {
    match s
    case Open => "open"
    case Locked => "locked"
    case Settled => "settled"
    case Cancelled => "cancelled"
  }

  /** The snapshot `getCircuit` returns, as the frontend decodes it; `revealedVotes` may be absent. */
  datatype ContractSnapshot = ContractSnapshot(
    present: bool,
    circuitId: string,
    headline: string,
    creator: string,
    lockTime: nat,                        // seconds
    cancelled: bool,
    settled: bool,
    pushAll: bool,
    winningPathline: nat,
    revealedVotes: Option<seq<nat>>,
    totalEntrants: nat)

  /** The frontend's view model of a circuit. */
  datatype ViewCircuit = ViewCircuit(
    circuitId: string,
    headline: string,
    creator: string,
    totalEntrants: nat,
    lockTime: int,                        // milliseconds
    status: Status,
    votes: seq<nat>,
    winningPathline: Option<nat>,
    entrants: seq<string>)

  /** Decoding of an engine snapshot: every field arrives, including the tally. */
  function Decode(s: CircuitEngine.CircuitSnapshot): ContractSnapshot {
    ContractSnapshot(s.present, s.circuitId, s.headline, s.creator, s.lockTime, s.cancelled, s.settled,
                     s.pushAll, s.winningPathline, Some(s.revealedVotes), s.totalEntrants)
  }

  /** Seconds on chain to milliseconds in the browser. */
  function ToMillis(seconds: nat): (ms: nat)
    ensures ms == seconds * 1000
    ensures ms / 1000 == seconds && ms % 1000 == 0
  {
    seconds * 1000
  }

  /**
   Status precedence: cancelled, then settled, then the lock-time comparison
   (reached means locked, otherwise open).
   */
  function GetCircuitStatus(data: ContractSnapshot, now: int): (s: Status)
    ensures data.cancelled ==> s == Cancelled
    ensures !data.cancelled && data.settled ==> s == Settled
    ensures !data.cancelled && !data.settled ==> (s == Locked <==> now >= data.lockTime * 1000)
    ensures !data.cancelled && !data.settled ==> (s == Open <==> now < data.lockTime * 1000)
    ensures s == Open ==> !data.cancelled && !data.settled
  {
    if data.cancelled then Cancelled
    else if data.settled then Settled
    else if now >= ToMillis(data.lockTime) then Locked
    else Open
  }

  /** `convertContractCircuit`. */
  function ConvertContractCircuit(data: ContractSnapshot, now: int): (v: ViewCircuit)
    ensures v.circuitId == data.circuitId && v.headline == data.headline && v.creator == data.creator
    ensures v.totalEntrants == data.totalEntrants
    ensures v.lockTime == data.lockTime * 1000
    ensures v.status == GetCircuitStatus(data, now)
    ensures data.revealedVotes.Some? ==> v.votes == data.revealedVotes.value
    ensures data.revealedVotes.None? ==> v.votes == ZERO_VOTES
    ensures v.winningPathline.Some? <==> data.settled
    ensures data.settled ==> v.winningPathline.value == data.winningPathline
    ensures v.entrants == []
  {
    ViewCircuit(
      data.circuitId, data.headline, data.creator, data.totalEntrants, ToMillis(data.lockTime),
      GetCircuitStatus(data, now),
      if data.revealedVotes.Some? then data.revealedVotes.value else ZERO_VOTES,
      if data.settled then Some(data.winningPathline) else None,
      [])
  }

  /** `convertContractCircuits`: `None` stands for `undefined` or a value that is not an array. */
  function ConvertContractCircuits(circuits: Option<seq<ContractSnapshot>>, now: int): (r: seq<ViewCircuit>)
    ensures circuits.None? ==> r == []
    ensures circuits.Some? ==> |r| == |circuits.value|
    ensures circuits.Some? ==>
      forall i :: 0 <= i < |r| ==> r[i] == ConvertContractCircuit(circuits.value[i], now)
  {
    match circuits
    case None => []
    case Some(cs) => seq(|cs|, i requires 0 <= i < |cs| => ConvertContractCircuit(cs[i], now))
  }

  /**
   `formatAddress`: an address shorter than 10 characters (the empty one
   included) is shown as is; otherwise its first 6 and last 4 characters
   around an ellipsis.
   */
  function FormatAddress(address: string): (r: string)
    ensures |address| < 10 ==> r == address
    ensures |address| >= 10 ==> |r| == 13
    ensures |address| >= 10 ==> r[..6] == address[..6] && r[6..9] == "..." && r[9..] == address[|address| - 4..]
  {
    if |address| < 10 then address
    else address[..6] + "..." + address[|address| - 4..]
  }

  /** `isCircuitOpen`: shown open and the lock time still ahead. */
  predicate IsCircuitOpen(c: ViewCircuit, now: int) {
    c.status == Open && now < c.lockTime
  }

  predicate IsCircuitLocked(c: ViewCircuit) {
    c.status == Locked
  }

  predicate IsCircuitSettled(c: ViewCircuit) {
    c.status == Settled
  }

  predicate IsCircuitCancelled(c: ViewCircuit) {
    c.status == Cancelled
  }

  /** At most one status predicate holds, and an open circuit's lock time is ahead. */
  lemma StatusPredicatesExclusive(c: ViewCircuit, now: int)
    ensures IsCircuitOpen(c, now) ==> c.status == Open && now < c.lockTime
    ensures IsCircuitOpen(c, now) ==> !IsCircuitLocked(c) && !IsCircuitSettled(c) && !IsCircuitCancelled(c)
    ensures IsCircuitLocked(c) ==> !IsCircuitSettled(c) && !IsCircuitCancelled(c)
    ensures IsCircuitSettled(c) ==> !IsCircuitCancelled(c)
  {
  }

  /** For a freshly converted circuit, "open" status and `isCircuitOpen` coincide. */
  lemma ConvertedOpenAgrees(data: ContractSnapshot, now: int)
    ensures IsCircuitOpen(ConvertContractCircuit(data, now), now) <==>
      ConvertContractCircuit(data, now).status == Open
  {
  }

  /**
   The four status predicates on a circuit converted from the engine's
   snapshot at millisecond `ms` of block second `sec`: open means the engine
   accepts entries, locked means live but past the lock time, settled means
   settled, cancelled means cancelled.
   */
  lemma PredicatesAgreeWithEngine(c: CircuitEngine.Circuit, sec: nat, ms: nat)
    requires ms < 1000
    ensures var now := sec * 1000 + ms;
      var v := ConvertContractCircuit(Decode(CircuitEngine.Snapshot(c)), now);
      && (IsCircuitOpen(v, now) <==> CircuitEngine.EntryOpen(c, sec))
      && (IsCircuitLocked(v) <==> !c.cancelled && !c.settled && CircuitEngine.IsLocked(c, sec))
      && (IsCircuitSettled(v) <==> c.settled && !c.cancelled)
      && (IsCircuitCancelled(v) <==> c.cancelled)
  {
    MillisCompare(sec, ms, c.lockTime);
  }

  lemma MillisCompare(sec: nat, ms: nat, lock: nat)
    requires ms < 1000
    ensures sec * 1000 + ms < lock * 1000 <==> sec < lock
  {
    if sec < lock {
      assert sec * 1000 + 1000 <= lock * 1000;
    } else {
      assert lock * 1000 <= sec * 1000;
    }
  }

  /**
   The browser and the engine agree: at any millisecond of block second
   `sec`, a circuit is shown open exactly when the engine would accept an
   entry, and shown locked exactly when it is live but past its lock time.
   */
  lemma StatusAgreesWithEngine(c: CircuitEngine.Circuit, sec: nat, ms: nat)
    requires ms < 1000
    ensures var s := GetCircuitStatus(Decode(CircuitEngine.Snapshot(c)), sec * 1000 + ms);
      && (s == Open <==> CircuitEngine.EntryOpen(c, sec))
      && (s == Locked <==> !c.cancelled && !c.settled && CircuitEngine.IsLocked(c, sec))
  {
    MillisCompare(sec, ms, c.lockTime);
  }
}
