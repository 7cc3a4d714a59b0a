/**
 The circuit-creation form: its duration presets, the circuit-id
 sanitiser applied on every keystroke, the seconds-to-minutes conversion
 of the form and its inverse in the write hook, and the guards of the
 submit handler.
 */
module CreateCircuitForm {
  import opened Results
  import opened CircuitTypes
  import opened Text

  /** One entry of the duration selector: the option value (seconds, as a string) and the text shown for it. */
  datatype Preset = Preset(value: string, caption: string)

  const DURATIONS: seq<Preset> := [
    Preset("600", "10 minutes"),
    Preset("3600", "1 hour"),
    Preset("21600", "6 hours"),
    Preset("86400", "24 hours"),
    Preset("259200", "3 days"),
    Preset("345600", "4 days")
  ]

  /** The duration the form starts with. */
  const DEFAULT_DURATION: string := "86400"

  /** Every preset is a whole number of minutes within the engine's duration bounds. */
  lemma PresetsWithinBounds()
    ensures forall i :: 0 <= i < |DURATIONS| ==>
      && AllDigits(DURATIONS[i].value)
      && DecimalValue(DURATIONS[i].value) % 60 == 0
      && ValidDuration(DecimalValue(DURATIONS[i].value))
  {
    PresetValues();
  }

  /** The numbers the preset strings denote. */
  lemma PresetValues()
    ensures DecimalValue("600") == 600 && DecimalValue("3600") == 3600
    ensures DecimalValue("21600") == 21600 && DecimalValue("86400") == 86400
    ensures DecimalValue("259200") == 259200 && DecimalValue("345600") == 345600
  {
    assert "600"[..2] == "60" && "60"[..1] == "6" && "6"[..0] == "";
    assert "3600"[..3] == "360" && "360"[..2] == "36" && "36"[..1] == "3" && "3"[..0] == "";
    assert "21600"[..4] == "2160" && "2160"[..3] == "216" && "216"[..2] == "21" && "21"[..1] == "2" && "2"[..0] == "";
    assert "86400"[..4] == "8640" && "8640"[..3] == "864" && "864"[..2] == "86" && "86"[..1] == "8" && "8"[..0] == "";
    assert "259200"[..5] == "25920" && "25920"[..4] == "2592" && "2592"[..3] == "259";
    assert "259"[..2] == "25" && "25"[..1] == "2";
    assert "345600"[..5] == "34560" && "34560"[..4] == "3456" && "3456"[..3] == "345";
    assert "345"[..2] == "34" && "34"[..1] == "3";
  }

  /** The default duration is one of the presets (24 hours). */
  lemma DefaultIsPreset()
    ensures exists i :: 0 <= i < |DURATIONS| && DURATIONS[i].value == DEFAULT_DURATION
    ensures DecimalValue(DEFAULT_DURATION) == 86400
  {
    assert DURATIONS[3].value == DEFAULT_DURATION;
    PresetValues();
  }

  // ----- id sanitiser ------------------------------------------------------------

  /** The characters a circuit id may keep: `[a-z0-9-]`. */
  predicate IdChar(c: char) {
    IsLower(c) || IsDigit(c) || c == '-'
  }

  function KeepIdChars(s: string): (r: string)
    ensures forall i :: 0 <= i < |r| ==> IdChar(r[i])
    decreases |s|
  {
    if |s| == 0 then []
    else (if IdChar(s[0]) then [s[0]] else []) + KeepIdChars(s[1..])
  }

  /** The id field's input rule: lower-case the text, then drop every character other than a-z, 0-9 and '-' (ASCII only). */
  function SanitizeId(s: string): (r: string)
    ensures forall i :: 0 <= i < |r| ==> IdChar(r[i])
    ensures |r| <= |s|
  {
    KeepIdsLength(Lower(s));
    KeepIdChars(Lower(s))
  }

  lemma {:induction false} KeepIdsLength(s: string)
    ensures |KeepIdChars(s)| <= |s|
    decreases |s|
  {
    if |s| > 0 {
      KeepIdsLength(s[1..]);
    }
  }

  lemma {:induction false} KeepIdCharsAppend(a: string, b: string)
    ensures KeepIdChars(a + b) == KeepIdChars(a) + KeepIdChars(b)
    decreases |a|
  {
    if |a| > 0 {
      assert (a + b)[0] == a[0];
      assert (a + b)[1..] == a[1..] + b;
      KeepIdCharsAppend(a[1..], b);
      var head := if IdChar(a[0]) then [a[0]] else [];
      calc {
        KeepIdChars(a + b);
        head + KeepIdChars(a[1..] + b);
        head + (KeepIdChars(a[1..]) + KeepIdChars(b));
        (head + KeepIdChars(a[1..])) + KeepIdChars(b);
        KeepIdChars(a) + KeepIdChars(b);
      }
    } else {
      assert a + b == b;
    }
  }

  lemma {:induction false} LowerAppend(a: string, b: string)
    ensures Lower(a + b) == Lower(a) + Lower(b)
  {
  }

  /**
   The sanitiser works character by character and keeps order: it
   distributes over concatenation, a single character becomes its
   lower-case form when that is allowed and disappears otherwise, and an
   ASCII capital letter becomes its lower-case letter.
   */
  lemma SanitizeIsCharwise(a: string, b: string, c: char)
    ensures SanitizeId(a + b) == SanitizeId(a) + SanitizeId(b)
    ensures SanitizeId([c]) == if IdChar(LowerChar(c)) then [LowerChar(c)] else []
    ensures IsUpper(c) ==> SanitizeId([c]) == [(c as int + 32) as char]
  {
    LowerAppend(a, b);
    KeepIdCharsAppend(Lower(a), Lower(b));
    assert Lower([c]) == [LowerChar(c)];
    assert KeepIdChars([LowerChar(c)]) == (if IdChar(LowerChar(c)) then [LowerChar(c)] else []) + KeepIdChars([]);
  }

  /** A string made only of allowed characters is left unchanged. */
  lemma {:induction false} SanitizeKeepsClean(s: string)
    requires forall i :: 0 <= i < |s| ==> IdChar(s[i])
    ensures SanitizeId(s) == s
    decreases |s|
  {
    if |s| > 0 {
      SanitizeKeepsClean(s[1..]);
      assert Lower(s) == [s[0]] + Lower(s[1..]);
    }
  }

  /** Sanitising twice is sanitising once. */
  lemma SanitizeIdempotent(s: string)
    ensures SanitizeId(SanitizeId(s)) == SanitizeId(s)
  {
    SanitizeKeepsClean(SanitizeId(s));
  }

  // ----- duration conversion -----------------------------------------------------

  /** The form converts the chosen duration to whole minutes, rounding down. */
  function DurationMinutes(seconds: nat): nat {
    seconds / 60
  }

  /** The write hook converts minutes back to the seconds the engine takes. */
  function MinutesToSeconds(minutes: nat): nat {
    minutes * 60
  }

  /**
   The round trip through minutes truncates to a whole minute: the result is
   at most the input and less than a minute below it, and exact for whole
   minutes.
   */
  lemma DurationRoundTrip(d: nat)
    ensures MinutesToSeconds(DurationMinutes(d)) <= d < MinutesToSeconds(DurationMinutes(d)) + 60
    ensures d % 60 == 0 ==> MinutesToSeconds(DurationMinutes(d)) == d
  {
  }

  /** Every preset survives the round trip unchanged, so the engine receives the duration shown. */
  lemma PresetsRoundTrip()
    ensures forall i :: 0 <= i < |DURATIONS| ==>
      MinutesToSeconds(DurationMinutes(DecimalValue(DURATIONS[i].value))) == DecimalValue(DURATIONS[i].value)
  {
    PresetsWithinBounds();
    forall i | 0 <= i < |DURATIONS| {
      DurationRoundTrip(DecimalValue(DURATIONS[i].value));
    }
  }

  // ----- submit handler ------------------------------------------------------------

  /** The form state; `duration` is always one of the preset values. */
  datatype FormData = FormData(circuitId: string, headline: string, duration: string)

  datatype SubmitAction =
    | WalletNotConnected
    | MissingFields
    | Create(circuitId: string, headline: string, durationSeconds: nat)

  /**
   `handleSubmit`: refuse without a connected wallet, then refuse an empty id
   or headline; otherwise call `createCircuit` with the duration converted
   to minutes and back.
   */
  function HandleSubmit(form: FormData, isConnected: bool, address: Option<string>): (a: SubmitAction)
    requires AllDigits(form.duration)
    ensures !isConnected || address.None? ==> a == WalletNotConnected
    ensures isConnected && address.Some? && (form.circuitId == "" || form.headline == "") ==> a == MissingFields
    ensures a.Create? <==> isConnected && address.Some? && form.circuitId != "" && form.headline != ""
    ensures a.Create? ==> a.circuitId == form.circuitId && a.headline == form.headline
    ensures a.Create? ==> a.durationSeconds <= DecimalValue(form.duration) < a.durationSeconds + 60
    ensures a.Create? ==> a.durationSeconds % 60 == 0
  {
    if !isConnected || address.None? then WalletNotConnected
    else if form.circuitId == "" || form.headline == "" then MissingFields
    else
      DurationRoundTrip(DecimalValue(form.duration));
      Create(form.circuitId, form.headline, MinutesToSeconds(DurationMinutes(DecimalValue(form.duration))))
  }

  /** Submitting a preset sends the engine exactly the duration the preset names. */
  lemma PresetSubmitsExactly(circuitId: string, headline: string, i: nat, address: string)
    requires i < |DURATIONS| && circuitId != "" && headline != ""
    ensures AllDigits(DURATIONS[i].value)
    ensures HandleSubmit(FormData(circuitId, headline, DURATIONS[i].value), true, Some(address))
      == Create(circuitId, headline, DecimalValue(DURATIONS[i].value))
  {
    PresetsWithinBounds();
    var d := DecimalValue(DURATIONS[i].value);
    var a := HandleSubmit(FormData(circuitId, headline, DURATIONS[i].value), true, Some(address));
    assert d == (d / 60) * 60;
    assert a.durationSeconds == (a.durationSeconds / 60) * 60;
  }
}
