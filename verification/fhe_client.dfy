/**
 The browser-side FHE helper: the held SDK instance and its lazy
 initialisation, the range guard applied before encrypting a choice, the
 post-processing of public decryption results, and the vote count the
 oracle submits. The relayer SDK itself (initialisation, encryption,
 decryption) is an injected parameter.
 */
module FheClient {
  import opened Results
  import opened CircuitTypes
  import opened Text

  /** An initialised relayer-SDK instance; its internals are not modelled. */
  datatype Instance = Instance(id: nat)

  /** The module-level `fheInstance` variable. */
  datatype FheState = FheState(instance: Option<Instance>)

  /**
   What the browser offers at call time: whether a `window` exists, whether
   any wallet provider was passed or injected, whether the SDK script loaded,
   and the instance the SDK would create.
   */
  datatype Environment = Environment(isBrowser: bool, hasProvider: bool, sdkLoaded: bool, created: Instance)

  datatype FheError = NotBrowser | NoWalletProvider | SdkNotLoaded | InvalidChoice | InvalidAddress | NoHandles

  /** An encrypted choice as the SDK returns it: handle and input proof. */
  datatype EncryptedChoicePayload = EncryptedChoicePayload(handle: seq<bv8>, proof: seq<bv8>)

  /** The result of a call together with the module state after it. */
  datatype Call<T> = Call(result: Result<T, FheError>, state: FheState)

  const Unloaded: FheState := FheState(None)

  /** `isFheReady`: an instance is held. */
  predicate IsFheReady(st: FheState) {
    st.instance.Some?
  }

  /** `resetFHEInstance`. */
  function ResetFheInstance(st: FheState): (st': FheState)
    ensures !IsFheReady(st')
  {
    Unloaded
  }

  /**
   `initializeFHE`: a held instance is returned at once, without touching
   the environment; otherwise the browser, provider and SDK are checked in
   that order and a new instance is created and kept.
   */
  function InitializeFhe(st: FheState, env: Environment): (c: Call<Instance>)
    ensures st.instance.Some? ==> c == Call(Ok(st.instance.value), st)
    ensures st.instance.None? && !env.isBrowser ==> c == Call(Err(NotBrowser), st)
    ensures st.instance.None? && env.isBrowser && !env.hasProvider ==> c == Call(Err(NoWalletProvider), st)
    ensures st.instance.None? && env.isBrowser && env.hasProvider && !env.sdkLoaded ==>
      c == Call(Err(SdkNotLoaded), st)
    ensures c.result.Ok? ==> c.state.instance == Some(c.result.value) && IsFheReady(c.state)
    ensures c.result.Err? ==> c.state == st
  {
    if st.instance.Some? then Call(Ok(st.instance.value), st)
    else if !env.isBrowser then Call(Err(NotBrowser), st)
    else if !env.hasProvider then Call(Err(NoWalletProvider), st)
    else if !env.sdkLoaded then Call(Err(SdkNotLoaded), st)
    else Call(Ok(env.created), FheState(Some(env.created)))
  }

  /** Initialising twice is initialising once: the second call returns the same instance and changes nothing. */
  lemma InitializeIdempotent(st: FheState, env: Environment, env2: Environment)
    requires InitializeFhe(st, env).result.Ok?
    ensures var c := InitializeFhe(st, env);
      InitializeFhe(c.state, env2) == c
  {
  }

  /** Ready after a successful initialisation, not ready after a reset, and initialisation after a reset starts over. */
  lemma ReadyLifecycle(st: FheState, env: Environment)
    ensures InitializeFhe(st, env).result.Ok? ==> IsFheReady(InitializeFhe(st, env).state)
    ensures !IsFheReady(ResetFheInstance(st))
    ensures env.isBrowser && env.hasProvider && env.sdkLoaded ==>
      InitializeFhe(ResetFheInstance(st), env) == Call(Ok(env.created), FheState(Some(env.created)))
  {
  }

  /** A pathline index the contract accepts. */
  predicate ValidChoice(choice: int) {
    0 <= choice <= 3
  }

  /**
   `encryptChoice`: the range guard fires before the SDK is reached, so an
   out-of-range choice neither initialises the SDK nor calls `encrypt`. The
   user's address is checksummed only after the instance exists, so a
   malformed address fails with the instance already kept; the SDK receives
   the checksummed form. `checksum` is the address parser: the canonical
   spelling of a well-formed address, `None` for a malformed one.
   */
  function EncryptChoice(st: FheState, env: Environment, choice: int, user: string,
                         checksum: string -> Option<string>,
                         encrypt: (Instance, int, string) -> EncryptedChoicePayload): (c: Call<EncryptedChoicePayload>)
    ensures !ValidChoice(choice) ==> c == Call(Err(InvalidChoice), st)
    ensures ValidChoice(choice) ==> c.state == InitializeFhe(st, env).state
    ensures ValidChoice(choice) && InitializeFhe(st, env).result.Err? ==>
      c.result == Err(InitializeFhe(st, env).result.error)
    ensures ValidChoice(choice) && InitializeFhe(st, env).result.Ok? && checksum(user).None? ==>
      c.result == Err(InvalidAddress) && IsFheReady(c.state)
    ensures c.result.Ok? <==> ValidChoice(choice) && InitializeFhe(st, env).result.Ok? && checksum(user).Some?
    ensures c.result.Ok? ==>
      c.result.value == encrypt(InitializeFhe(st, env).result.value, choice, checksum(user).value)
  {
    if !ValidChoice(choice) then Call(Err(InvalidChoice), st)
    else
      var init := InitializeFhe(st, env);
      match init.result
      case Err(err) => Call(Err(err), init.state)
      case Ok(inst) =>
        match checksum(user)
        case None => Call(Err(InvalidAddress), init.state)
        case Some(addr) => Call(Ok(encrypt(inst, choice, addr)), init.state)
  }

  /**
   Two spellings of one address (the same checksummed form) give the same
   encryption request.
   */
  lemma EncryptChoiceIgnoresSpelling(st: FheState, env: Environment, choice: int, u1: string, u2: string,
                                     checksum: string -> Option<string>,
                                     encrypt: (Instance, int, string) -> EncryptedChoicePayload)
    requires checksum(u1) == checksum(u2)
    ensures EncryptChoice(st, env, choice, u1, checksum, encrypt) == EncryptChoice(st, env, choice, u2, checksum, encrypt)
  {
  }

  // ----- public decryption -----------------------------------------------------

  /** The `clearValues` entries, keyed by lower-cased handle; a later entry overwrites an earlier one. */
  function Normalize(entries: seq<(string, int)>): map<string, int>
    decreases |entries|
  {
    if |entries| == 0 then map[]
    else
      var last := entries[|entries| - 1];
      Normalize(entries[..|entries| - 1])[Lower(last.0) := last.1]
  }

  /** Reference definition: the value of the last entry whose key matches `handle` ignoring ASCII case. */
  function LastMatch(entries: seq<(string, int)>, handle: string): Option<int>
    decreases |entries|
  {
    if |entries| == 0 then None
    else if Lower(entries[|entries| - 1].0) == Lower(handle) then Some(entries[|entries| - 1].1)
    else LastMatch(entries[..|entries| - 1], handle)
  }

  /** The normalized table finds exactly the last case-insensitive match. */
  lemma {:induction false} NormalizeFindsLastMatch(entries: seq<(string, int)>, handle: string)
    ensures Lower(handle) in Normalize(entries) <==> LastMatch(entries, handle).Some?
    ensures LastMatch(entries, handle).Some? ==>
      Normalize(entries)[Lower(handle)] == LastMatch(entries, handle).value
    decreases |entries|
  {
    if |entries| > 0 {
      NormalizeFindsLastMatch(entries[..|entries| - 1], handle);
    }
  }

  /** The value decrypted for a handle, looked up by its lower-cased form; 0 when there is none. */
  function Lookup(normalized: map<string, int>, handle: string): int {
    if Lower(handle) in normalized then normalized[Lower(handle)] else 0
  }

  /**
   `publicDecryptHandles`: an empty handle list is refused before the SDK is
   reached; otherwise `decrypt` (the SDK's `publicDecrypt`) yields the
   clear-value entries and each handle, in order, gets the value of its
   last case-insensitive match, or 0 when it has none.
   */
  function PublicDecryptHandles(st: FheState, env: Environment, handles: seq<string>,
                                decrypt: (Instance, seq<string>) -> seq<(string, int)>): (c: Call<seq<int>>)
    ensures |handles| == 0 ==> c == Call(Err(NoHandles), st)
    ensures |handles| > 0 ==> c.state == InitializeFhe(st, env).state
    ensures |handles| > 0 && InitializeFhe(st, env).result.Err? ==>
      c.result == Err(InitializeFhe(st, env).result.error)
    ensures c.result.Ok? <==> |handles| > 0 && InitializeFhe(st, env).result.Ok?
    ensures c.result.Ok? ==>
      var entries := decrypt(InitializeFhe(st, env).result.value, handles);
      && |c.result.value| == |handles|
      && forall i :: 0 <= i < |handles| ==>
           c.result.value[i] == (match LastMatch(entries, handles[i]) case Some(v) => v case None => 0)
  {
    if |handles| == 0 then Call(Err(NoHandles), st)
    else
      var init := InitializeFhe(st, env);
      match init.result
      case Err(err) => Call(Err(err), init.state)
      case Ok(inst) =>
        var normalized := Normalize(decrypt(inst, handles));
        var values := seq(|handles|, i requires 0 <= i < |handles| => Lookup(normalized, handles[i]));
        assert forall i :: 0 <= i < |handles| ==> values[i] == Lookup(normalized, handles[i]);
        NormalizeAll(decrypt(inst, handles), handles);
        Call(Ok(values), init.state)
  }

  lemma NormalizeAll(entries: seq<(string, int)>, handles: seq<string>)
    ensures forall i :: 0 <= i < |handles| ==>
      Lookup(Normalize(entries), handles[i]) ==
        (match LastMatch(entries, handles[i]) case Some(v) => v case None => 0)
  {
    forall i | 0 <= i < |handles| {
      NormalizeFindsLastMatch(entries, handles[i]);
    }
  }

  /** Handles that differ only in ASCII case decrypt to the same value. */
  lemma LookupIgnoresCase(entries: seq<(string, int)>, h1: string, h2: string)
    requires Lower(h1) == Lower(h2)
    ensures Lookup(Normalize(entries), h1) == Lookup(Normalize(entries), h2)
  {
  }

  // ----- vote counting ----------------------------------------------------------

  /** Reference definition: how many times `v` occurs in `xs`. */
  function Occurrences(xs: seq<int>, v: int): nat
    decreases |xs|
  {
    if |xs| == 0 then 0
    else Occurrences(xs[..|xs| - 1], v) + (if xs[|xs| - 1] == v then 1 else 0)
  }

  /** How many entries of `xs` are valid pathline indices. */
  function InRangeCount(xs: seq<int>): nat
    decreases |xs|
  {
    if |xs| == 0 then 0
    else InRangeCount(xs[..|xs| - 1]) + (if ValidChoice(xs[|xs| - 1]) then 1 else 0)
  }

  /** The four per-pathline counts add up to the number of in-range choices, which is at most the number of choices. */
  lemma {:induction false} OccurrencesPartition(xs: seq<int>)
    ensures Occurrences(xs, 0) + Occurrences(xs, 1) + Occurrences(xs, 2) + Occurrences(xs, 3) == InRangeCount(xs)
    ensures InRangeCount(xs) <= |xs|
    decreases |xs|
  {
    if |xs| > 0 {
      OccurrencesPartition(xs[..|xs| - 1]);
    }
  }

  /**
   `countVotes`: slot `p` of the result is the number of choices equal to
   `p`; choices outside 0..3 are skipped, so the total is the number of
   in-range choices.
   */
  method CountVotes(choices: seq<int>) returns (votes: Votes)
    ensures forall p :: 0 <= p < PATHLINE_COUNT ==> votes[p] == Occurrences(choices, p)
    ensures Sum(votes) == InRangeCount(choices) <= |choices|
  {
    votes := ZERO_VOTES;
    for i := 0 to |choices|
      invariant forall p :: 0 <= p < PATHLINE_COUNT ==> votes[p] == Occurrences(choices[..i], p)
    {
      var choice := choices[i];
      assert choices[..i + 1][..i] == choices[..i];
      if ValidChoice(choice) {
        votes := votes[choice := votes[choice] + 1];
      }
    }
    assert choices[..|choices|] == choices;
    OccurrencesPartition(choices);
    SumOfVotes(votes);
  }
}
