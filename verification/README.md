# RiftParlayCircuit in Dafny

A model of RiftParlayCircuit, a prediction market with private entries. A
**circuit** is one market, created under a caller-chosen id with a headline
and a lock time. Participants enter one encrypted choice among four
**pathlines** (Nova, Ember, Tidal, Quake). After the lock time an oracle
submits the decrypted tally, and settlement picks the winner. An all-zero
tally is a **push**; ties between maxima are broken by block entropy. The
creator may cancel the circuit.

The Solidity contract is not part of this model. The engine's behaviour is
taken from the repository's three Hardhat test files. They spell it out call
by call. The cases that need real encryption are written out but skipped or
commented. The frontend helpers that read engine state are modelled from their
TypeScript source.

Modules:

- `Results`: `Option` and `Result`. A reverted transaction or thrown error is an `Err`. It carries no state, so a failed call leaves the engine unchanged.
- `Text`: ASCII lower-casing, `includes`, decimal rendering and parsing.
- `CircuitTypes`: the constants (4 pathlines, durations 600..345600 s, "no winner" = 255) and the 4-slot vote vector.
- `TallyResolver`: settlement of a tally (push, arg-max, entropy tie-break).
- `CircuitEngine`: the registry, the lifecycle guards, the encrypted-choice store and the event log. These are pure functions of the state and of explicit `now`, `caller`, `entropy` and `verify` inputs.
- `EngineProperties`: the state invariant, one transaction step, runs of steps, and the history each step respects.
- `EngineScenarios`: the tested behaviours, stated for all inputs or as concrete lifecycles.
- `ContractUtils`, `FheClient`, `CreateCircuitForm`, `Countdown`, `CircuitList`: the frontend helpers, with `Date.now()` as a parameter.

Engine guard order where the tests fix only some of the cases:

- **Per-circuit call on an unknown id:** fails with `CircuitMissing`. The settle test notes that an unknown id would revert with `CircuitMissing`.
- **create:** `CircuitExists` is checked before `InvalidDuration`.
- **enter:** `Locked` when the circuit is cancelled, settled or past its lock time. Then `AlreadyEntered`, then `InvalidProof`.
- **requestVoteReveal:** `Locked` if cancelled, then `NotLocked`. A repeated request changes nothing and logs no second event.
- **submitDecryptedVotes:** `Locked` if cancelled, then `NotLocked`, then `VotesAlreadyRevealed` on a second tally. No reveal request is needed first.
- **settleCircuit:** `Locked` if cancelled, then `AlreadySettled`, then `NotLocked`, then `VotesNotRevealed` if no tally was submitted.
- **cancelCircuit:** `NotCreator`, then `AlreadySettled`, then `Locked` if already cancelled.

Cancellation takes precedence over the time guards. The tests only show a
cancelled circuit failing with `Locked` after its lock time. The error names
`Locked`, `CircuitExists` and `CircuitMissing` are the ones the tests expect.

## Model

| member | source | states |
|---|---|---|
| `EngineScenarios.DeployedConstants` | test/RiftParlayCircuit.test.ts:28-38 | PATHLINE_COUNT is 4, MIN_DURATION is 600 s, MAX_DURATION is 345600 s, and "no winner" is 255 |
| `CircuitTypes.PathlineIndexRoundTrip` | frontend/src/lib/types.ts:23-28 | Nova, Ember, Tidal and Quake are indices 0..3; index and pathline convert both ways |
| `TallyResolver.Resolve` | test/RiftParlayCircuit.integration.test.ts:53-107 | push iff the tally sums to 0, and then winner 255; otherwise the winner is a pathline 0..3 whose count is not beaten by any other |
| `TallyResolver.UniqueMaximumWins` | test/RiftParlayCircuit.integration.test.ts:53-63 | a count strictly above all others wins, for every entropy value |
| `TallyResolver.PushIffNoVotes` | test/RiftParlayCircuit.integration.test.ts:87-107 | the outcome is a push exactly when the tally is [0,0,0,0] |
| `TallyResolver.TieBreakAmongMaxima` | test/RiftParlayCircuit.integration.test.ts:66-85 | the winner is always one of the tied maxima, and each tied maximum wins for some entropy value |
| `TallyResolver.ExampleClearWinner` | test/RiftParlayCircuit.integration.test.ts:47-63 | [5,3,2,0] settles with no push and winner 0 |
| `TallyResolver.ExampleTie` | test/RiftParlayCircuit.integration.test.ts:73-85 | [5,5,2,0] settles with no push and winner 0 or 1 |
| `TallyResolver.ExamplePush` | test/RiftParlayCircuit.integration.test.ts:94-107 | [0,0,0,0] settles as a push with winner 255 |
| `CircuitEngine.CreateCircuit` | test/RiftParlayCircuit.test.ts:41-92 | a taken id fails with CircuitExists; a free id fails with InvalidDuration iff the duration is outside [600, 345600]; success appends the id to the list and creates a circuit with the caller as creator, lockTime = now + duration, no flags, no entrants and tally [0,0,0,0]; it logs CircuitCreated and leaves every other circuit alone |
| `CircuitEngine.GetCircuit` | test/RiftParlayCircuit.test.ts:103-120 | an unknown id fails with CircuitMissing; a known one gives a snapshot with `exists` set, every stored field, and totalEntrants = number of entrants |
| `CircuitEngine.HasEntered` | test/RiftParlayCircuit.test.ts:170-173 | true exactly when the user holds a stored ciphertext in that circuit |
| `CircuitEngine.GetEntrants` | test/RiftParlayCircuit.test.ts:175-178 | the entrants of the circuit in entry order, with no ciphertexts |
| `CircuitEngine.GetUserChoice` | test/RiftParlayCircuit.fhe.test.ts:317-325 | the ciphertext exactly as stored for that user; fails if the user never entered |
| `CircuitEngine.EnterCircuit` | test/RiftParlayCircuit.fhe.test.ts:52-113 | accepted iff the circuit is not cancelled, not settled, before its lock time, the user has not entered, and the proof verifies; stores the ciphertext, appends the user, logs EntryPlaced(id, user), and changes nothing else |
| `CircuitEngine.RequestVoteReveal` | test/RiftParlayCircuit.integration.test.ts:159-171 | NotLocked while now < lockTime and accepted from lockTime on (cancelled gives Locked); sets the publicly-decryptable flag once; a repeat is a no-op |
| `CircuitEngine.SubmitDecryptedVotes` | test/RiftParlayCircuit.integration.test.ts:42-51 | NotLocked before lockTime; after it, accepted with no reveal request; stores the votes verbatim and logs VotesRevealed(id, votes) |
| `CircuitEngine.SettleCircuit` | test/RiftParlayCircuit.integration.test.ts:53-107 | cancelled gives Locked, settled gives AlreadySettled, and before lockTime gives NotLocked; otherwise marks the circuit settled; push iff the tally is all zero; winner 255 on push, else a maximal pathline; logs CircuitSettled(id, pushAll, winner) |
| `CircuitEngine.CancelCircuit` | test/RiftParlayCircuit.test.ts:142-155 | a non-creator gets NotCreator; the creator's call sets cancelled, logs CircuitCancelled(id), and leaves every other circuit unchanged |
| `EngineProperties.CreatePreservesValid` | test/RiftParlayCircuit.test.ts:122-132 | creation keeps ids unique and the id list equal to the registered circuits |
| `EngineProperties.EnterPreservesValid` | test/RiftParlayCircuit.fhe.test.ts:97-139 | entry keeps entrants unique and equal to the holders of a ciphertext |
| `EngineProperties.StepPreservesValid` | test/RiftParlayCircuit.integration.test.ts:28-64 | every transaction, accepted or reverted, keeps the invariant: unique ids, unique entrants, winner in 0..3 exactly when settled without push (else 255), settled only after a tally and never together with cancelled |
| `EngineProperties.ListedIdsAreRegistry` | test/RiftParlayCircuit.test.ts:122-132 | in every reachable state, `listCircuitIds` (`CircuitEngine.ListCircuitIds`) lists an id iff `getCircuit` finds it, and never lists an id twice |
| `EngineProperties.RunPreservesValid` | test/RiftParlayCircuit.integration.test.ts:28-64 | every state reachable by any sequence of transactions satisfies the invariant |
| `EngineProperties.StepExtends` | test/RiftParlayCircuit.fhe.test.ts:303-325 | no transaction removes a circuit or changes its id, headline, creator or lockTime; cancelled/settled only turn on; a settled outcome, a stored tally and a stored ciphertext never change; ids, entrants and the log only grow at the end |
| `EngineProperties.RunExtends` | test/RiftParlayCircuit.integration.test.ts:193-212 | the same history guarantees hold across any sequence of transactions |
| `EngineScenarios.DurationBoundaries` | test/RiftParlayCircuit.test.ts:63-81 | durations 300 and 360000 fail with InvalidDuration; exactly 600 and exactly 345600 succeed |
| `EngineScenarios.IdAndHeadlineUnconstrained` | test/RiftParlayCircuit.test.ts:240-257 | an empty id and a 1000-character headline are both accepted |
| `EngineScenarios.DuplicateIdRejected` | test/RiftParlayCircuit.test.ts:51-61 | after a creation, any second creation under the same id fails with CircuitExists |
| `EngineScenarios.FreshCircuitReadsBack` | test/RiftParlayCircuit.test.ts:103-114 | a fresh circuit reads back with exists, id, headline and creator = caller, no flags and 0 entrants; hasEntered is false for anyone, entrants are empty, and the id appears once in the list |
| `EngineScenarios.TooEarlyIsNotLocked` | test/RiftParlayCircuit.test.ts:192-218 | before lockTime, reveal, tally submission and settlement all fail with NotLocked |
| `EngineScenarios.CancelThenSettle` | test/RiftParlayCircuit.test.ts:142-160 | a non-creator gets NotCreator; the creator's cancel sets cancelled and logs CircuitCancelled; later settlement fails with Locked at any time |
| `EngineScenarios.DoubleSettlementRejected` | test/RiftParlayCircuit.integration.test.ts:193-212 | a second settlement fails with AlreadySettled, so the first outcome stays |
| `EngineScenarios.DoubleEntryRejected` | test/RiftParlayCircuit.fhe.test.ts:97-109 | a second entry by the same user while the circuit is open fails with AlreadyEntered |
| `EngineScenarios.EntryRecorded` | test/RiftParlayCircuit.fhe.test.ts:71-77 | a successful entry logs EntryPlaced(id, user), makes hasEntered true, adds one entrant, and stores the ciphertext |
| `EngineScenarios.ThreeUsersEnter` | test/RiftParlayCircuit.fhe.test.ts:115-139 | three distinct users entering a fresh circuit are all entered, and the entrants are exactly those three |
| `EngineScenarios.RevealKeepsChoices` | test/RiftParlayCircuit.fhe.test.ts:317-325 | reveal and tally submission leave every stored ciphertext readable unchanged |
| `EngineScenarios.FullLifecycle` | test/RiftParlayCircuit.integration.test.ts:28-64 | create, pass lockTime, submit [5,3,2,0] with no reveal request, then settle: VotesRevealed and CircuitSettled(id, false, 0) are logged; the circuit is settled with winner 0, no push, and the tally stored |
| `EngineScenarios.TiedLifecycle` | test/RiftParlayCircuit.integration.test.ts:66-85 | the same lifecycle with [5,5,2,0] settles with winner 0 or 1 |
| `EngineScenarios.PushLifecycle` | test/RiftParlayCircuit.integration.test.ts:87-107 | the same lifecycle with [0,0,0,0] settles as a push and logs CircuitSettled(id, true, 255) |
| `EngineScenarios.RevealAtLockTime` | test/RiftParlayCircuit.integration.test.ts:159-171 | reveal fails with NotLocked one second before lockTime and succeeds exactly at lockTime |
| `ContractUtils.ToMillis` | frontend/src/lib/contract-utils.ts:12 | the lock time in milliseconds is seconds × 1000, and dividing by 1000 gives the seconds back |
| `ContractUtils.GetCircuitStatus` | frontend/src/lib/contract-utils.ts:20-28 | cancelled beats settled, which beats time; when neither flag is set, the status is locked iff now ≥ lockTime·1000, else open |
| `ContractUtils.ConvertContractCircuit` | frontend/src/lib/contract-utils.ts:4-18 | copies id, headline, creator and entrant count; the lock time in ms; votes copied or [0,0,0,0] when absent; a winning pathline only when settled; no entrants |
| `ContractUtils.ConvertContractCircuits` | frontend/src/lib/contract-utils.ts:30-35 | undefined or a non-array gives []; otherwise each element is converted, same length and order |
| `ContractUtils.FormatAddress` | frontend/src/lib/contract-utils.ts:37-40 | under 10 characters is unchanged; otherwise 13 characters: the first 6, then "...", then the last 4 |
| `ContractUtils.StatusPredicatesExclusive` | frontend/src/lib/contract-utils.ts:42-56 | isCircuitOpen implies status open and now < lockTime; at most one status predicate holds |
| `ContractUtils.ConvertedOpenAgrees` | frontend/src/lib/contract-utils.ts:42-44 | for a freshly converted circuit, isCircuitOpen holds exactly when the status is open |
| `ContractUtils.PredicatesAgreeWithEngine` | frontend/src/lib/contract-utils.ts:42-56 | on a circuit converted from the engine: `isCircuitOpen` (`ContractUtils.IsCircuitOpen`) iff the engine accepts entries; `isCircuitLocked` iff live and past lockTime; `isCircuitSettled` iff settled and not cancelled; `isCircuitCancelled` iff cancelled |
| `ContractUtils.StatusAgreesWithEngine` | scripts/check-circuit.js:33-35 | at any millisecond of a block second, the browser shows "open" exactly when the engine accepts entries (not cancelled, not settled, now < lockTime), and "locked" exactly when it is live and past lockTime |
| `FheClient.InitializeFhe` | frontend/src/lib/fhe.ts:32-51 | a held instance is returned without any check; otherwise fails on no browser, then no provider, then no SDK, leaving the state unchanged; on success the new instance is held |
| `FheClient.InitializeIdempotent` | frontend/src/lib/fhe.ts:33 | after a successful initialisation, initialising again returns the same instance and changes nothing |
| `FheClient.ResetFheInstance` | frontend/src/lib/fhe.ts:75-77 | after a reset no instance is held |
| `FheClient.ReadyLifecycle` | frontend/src/lib/fhe.ts:71-77 | isFheReady is true after a successful initialisation and false after a reset; initialising after a reset creates a fresh instance |
| `FheClient.EncryptChoice` | frontend/src/lib/fhe.ts:86-120 | a choice below 0 or above 3 is refused before the SDK is touched (state unchanged); a failed initialisation passes its error through; a malformed user address fails after the instance is created and kept; otherwise the choice is encrypted, for the checksummed address, with the held or new instance |
| `FheClient.EncryptChoiceIgnoresSpelling` | frontend/src/lib/fhe.ts:98-105 | two spellings of one address give the same call, since the SDK only sees the checksummed form |
| `FheClient.NormalizeFindsLastMatch` | frontend/src/lib/fhe.ts:133-137 | the normalized table has a handle's lower-cased key iff some entry matches it ignoring case, and holds the last such entry's value |
| `FheClient.PublicDecryptHandles` | frontend/src/lib/fhe.ts:125-146 | an empty handle list throws before the SDK, state unchanged; otherwise the instance is obtained and kept as initialisation leaves it, a failed initialisation passes its error through, and on success there is one value per handle in order: the last case-insensitive match, or 0 |
| `FheClient.LookupIgnoresCase` | frontend/src/lib/fhe.ts:139 | handles that differ only in ASCII case get the same value |
| `FheClient.OccurrencesPartition` | frontend/src/lib/fhe.ts:153-157 | the four per-pathline counts add up to the number of in-range choices, which is at most the number of choices |
| `FheClient.CountVotes` | frontend/src/lib/fhe.ts:151-159 | slot p is the number of choices equal to p; the total equals the number of in-range choices and is ≤ the number of choices |
| `CreateCircuitForm.PresetsWithinBounds` | frontend/src/pages/CreateCircuit.tsx:17-24 | every preset is a digit string naming a whole number of minutes within [600, 345600] |
| `CreateCircuitForm.DefaultIsPreset` | frontend/src/pages/CreateCircuit.tsx:42 | the default "86400" is one of the presets |
| `CreateCircuitForm.SanitizeId` | frontend/src/pages/CreateCircuit.tsx:122 | the sanitised id contains only [a-z0-9-] and is no longer than the input |
| `CreateCircuitForm.SanitizeIsCharwise` | frontend/src/pages/CreateCircuit.tsx:122 | sanitising distributes over concatenation, so order is kept; each character becomes its lower-case form if allowed and is dropped otherwise; A–Z become a–z |
| `CreateCircuitForm.SanitizeKeepsClean` | frontend/src/pages/CreateCircuit.tsx:122 | a string of allowed characters is returned unchanged |
| `CreateCircuitForm.SanitizeIdempotent` | frontend/src/pages/CreateCircuit.tsx:122 | sanitising twice equals sanitising once |
| `CreateCircuitForm.DurationRoundTrip` | frontend/src/hooks/useCircuitContract.ts:192 | floor(d/60)·60 is ≤ d and less than 60 below it, and equals d when d is a whole number of minutes |
| `CreateCircuitForm.PresetsRoundTrip` | frontend/src/pages/CreateCircuit.tsx:81 | every preset reaches the engine unchanged after the minutes round trip |
| `CreateCircuitForm.HandleSubmit` | frontend/src/pages/CreateCircuit.tsx:64-87 | no wallet: refused; empty id or headline: refused; otherwise createCircuit with the form's id and headline and a duration that is a whole number of minutes, at most the chosen one and less than a minute below it |
| `CreateCircuitForm.PresetSubmitsExactly` | frontend/src/pages/CreateCircuit.tsx:17-24 | submitting any preset with a connected wallet and a filled form creates the circuit with exactly the preset's duration |
| `Countdown.Decompose` | frontend/src/components/CountdownTimer.tsx:25-28 | d·86400000 + h·3600000 + m·60000 + s·1000 ≤ diff < that + 1000, with h < 24, m < 60 and s < 60 |
| `Countdown.CalculateTimeLeft` | frontend/src/components/CountdownTimer.tsx:14-37 | diff ≤ 0 gives "Ended" and keeps the urgent flag; otherwise urgent iff diff < 3,600,000; days/hours shows d ≥ 1 and h < 24 with d·day + h·hour ≤ diff < d·day + (h+1)·hour; hours/minutes shows 1 ≤ h < 24 and m < 60 with h·hour + m·minute ≤ diff < h·hour + (m+1)·minute; minutes/seconds shows m, s < 60 with m·minute + s·second ≤ diff < m·minute + (s+1)·second |
| `Countdown.LabelByMagnitude` | frontend/src/components/CountdownTimer.tsx:30-36 | the days/hours form iff at least a day is left; hours/minutes iff an hour up to a day; minutes/seconds iff under an hour, which is exactly when it is urgent |
| `Countdown.RenderParses` | frontend/src/components/CountdownTimer.tsx:30-36 | the text "{d}d {h}h", "{h}h {m}m", "{m}m {s}s" or "Ended" (`Countdown.Render`) reads back to the label it came from, numbers included, so the text shows exactly the label's values |
| `Text.ContainsAt` | frontend/src/pages/Circuits.tsx:25-26 | `includes` holds iff the needle occurs at some position of the string |
| `CircuitList.MatchesByPosition` | frontend/src/pages/Circuits.tsx:24-27 | a circuit matches (`CircuitList.Matches`) iff the tab is "all" or equals its status, and the lower-cased search occurs at some position of its lower-cased headline or id |
| `Text.DecimalRoundTrip` | frontend/src/components/CountdownTimer.tsx:30-36 | a rendered number parses back to itself |
| `Text.NatToDecimal` | frontend/src/components/CountdownTimer.tsx:30-36 | a number is rendered as a non-empty digit string with no leading zero |
| `CircuitList.FilterCircuits` | frontend/src/pages/Circuits.tsx:23-27 | keeps only circuits that pass the tab filter and whose lower-cased headline or id contains the lower-cased search; each matching circuit appears as often as in the input, any other not at all |
| `CircuitList.FilterAppend` | frontend/src/pages/Circuits.tsx:23-27 | filtering a concatenation is concatenating the filtered parts, so kept circuits stay in input order |
| `CircuitList.FilterOne` | frontend/src/pages/Circuits.tsx:23-27 | a single circuit is kept exactly when it matches |
| `CircuitList.EmptySearchKeepsAll` | frontend/src/pages/Circuits.tsx:23-27 | the "all" tab with an empty search keeps every circuit in order |
| `CircuitList.SortCircuits` | frontend/src/pages/Circuits.tsx:28-37 | the output is a permutation of the input, ordered by the chosen key |
| `CircuitList.SortIsStable` | frontend/src/pages/Circuits.tsx:28-37 | for every key, the circuits with that key appear in the same order as in the input (JavaScript's sort is stable) |
| `CircuitList.FilteredCircuits` | frontend/src/pages/Circuits.tsx:22-38 | the output is a permutation of the filtered circuits, ordered by the chosen key |
| `CircuitList.ShownTieOrder` | frontend/src/pages/Circuits.tsx:22-38 | circuits that tie under the chosen order are shown in the order the filter kept them |
| `CircuitList.FilteredIsMatchingSubset` | frontend/src/pages/Circuits.tsx:22-28 | the output is a sub-multiset of the input; every element matches, and every matching input appears |
| `CircuitList.SortOrders` | frontend/src/pages/Circuits.tsx:28-37 | "ending" gives nondecreasing lockTime; "participants" gives nonincreasing totalEntrants; any other value gives nonincreasing lockTime |
| `CircuitList.SearchIgnoresCase` | frontend/src/pages/Circuits.tsx:25-26 | lower-casing the search first changes nothing |

## Left out

- The contract's FHE work is left out. That covers `FHE.fromExternal` proof checking, `FHE.allowThis`/`FHE.allow` grants and `makePubliclyDecryptable`. Proof checking is the injected `verify`. Public decryptability is one `revealRequested` flag per circuit. Ciphertexts are opaque handles.
- The relayer SDK is left out. That covers `initSDK`, `createInstance`, `encrypt` and `publicDecrypt`, and their internal failures. They are the injected `Environment`, `encrypt` and `decrypt` parameters.
- The oracle is trusted. The engine never checks a submitted tally against the ciphertexts. A circuit that never gets a tally cannot settle, and there is no timeout or escape hatch.
- The tests do not pin these engine behaviours, so the model's choices above are not claims about the contract: cancelling a settled circuit, a second tally submission, settling without a tally, the order of guards in cases the tests leave open, `NotEntered` from `getUserChoice` for a user who never entered, the `VoteRevealRequested` event on a reveal request, and the arguments of `CircuitCreated` (the tests check only that the event is emitted).
- Fees and prize pools are left out. The current tests never exercise them. The gas-estimate test is left out too.
- Integer widths are left out. Votes, lock times and entrant counts are unbounded naturals. `now + duration` cannot overflow in the model. The model treats `Number(bigint)` as exact; JavaScript rounds above 2^53.
- ContractUtils.GetCircuitStatus: `Date.now()` is the explicit `now` argument, in milliseconds. Elsewhere, block time, `caller` and block-hash entropy are explicit arguments.
- Countdown.CalculateTimeLeft: covers one tick only. The `setInterval` loop and the React state setters are left out.
- FheClient.CountVotes: choices are integers. A fractional JavaScript number in 0..3 would write a non-index property, and that is not modelled.
- FheClient.PublicDecryptHandles: clear values are integers. `Number(value)` turning a non-numeric value into NaN is not modelled, and neither is `clearValues` being absent rather than empty. The SDK's ABI-encoded clear values and decryption proof, which the function also returns, are not modelled; only the values are.
- FheClient.InitializeFhe: calls are sequential. Two overlapping asynchronous calls can both find no instance and both create one; the later assignment wins and the first caller keeps an instance the module no longer holds. `InitializeIdempotent` holds only for calls made one after another.
- FheClient.EncryptChoice: the choice is an integer. A fractional number such as 1.5 passes the range guard in JavaScript and is not modelled. The contract address's checksum is assumed valid; only the user's address is checked.
- FheClient.InitializeFhe: the provider checks (argument, `window.ethereum`, OKX wallet) are one `hasProvider` flag. `getFHEInstance` is the `instance` field itself.
- CreateCircuitForm.HandleSubmit: requires the duration to be a digit string. The form's select only offers the preset strings.
- CreateCircuitForm.SanitizeId: lower-casing covers ASCII only. Unicode case mapping is left out, here and in the list search.
- Transaction toasts, navigation after creation, and the wagmi/viem read and write hooks are left out. The minutes-to-seconds conversion is the exception.
- Presentation components and pages are left out: the landing page, detail and "my circuits" pages, cards, badges, header, selectors and vote bars. The vote bar's floating-point percentages go with them.
- Deployment and demo scripts, address checks and the Hardhat configuration are left out.
