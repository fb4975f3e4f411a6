/**
 Reading the application's configuration: `getEnvVariable` checks that a
 value is present and not blank, and filters placeholder voice ids.
 */
module Env {
  import opened Js

  const VoiceIdKey := "VITE_ELEVENLABS_VOICE_ID"
  const VoiceIdPlaceholder := "your_elevenlabs_voice_id_here"

  /** The console message a lookup emits, if any. */
  datatype Report = Silent | MissingError | PlaceholderWarning

  /** The value a lookup returns (`None` for `undefined`) and what it logs. */
  datatype Lookup = Lookup(value: Option<string>, report: Report)

  /** A voice id that looks like the template's placeholder text. */
  predicate LooksLikePlaceholder(v: string) {
    v == VoiceIdPlaceholder || Includes(v, "your_") || Includes(v, "_here")
  }

  /** Whether a raw configuration value is missing or consists only of white space. */
  ghost predicate Missing(raw: Option<string>) {
    raw.None? || IsBlank(raw.value)
  }

  /**
   `getEnvVariable(key, isOptional)` where `raw` is the configured value of
   `key` (`None` for `undefined` or `null`).
   */
  function GetEnvVariable(key: string, raw: Option<string>, isOptional: bool): (r: Lookup)
    ensures r.value.Some? <==> !Missing(raw) && !(key == VoiceIdKey && LooksLikePlaceholder(raw.value))
    ensures r.value.Some? ==> r.value == raw && Trim(r.value.value) != ""
    ensures r.report == MissingError <==> Missing(raw) && !isOptional
    ensures r.report == PlaceholderWarning <==> !Missing(raw) && key == VoiceIdKey && LooksLikePlaceholder(raw.value)
  {
    if raw.None? || Trim(raw.value) == "" then
      TrimEmptyIffBlank(if raw.None? then "" else raw.value);
      Lookup(None, if isOptional then Silent else MissingError)
    else
      TrimEmptyIffBlank(raw.value);
      if key == VoiceIdKey && LooksLikePlaceholder(raw.value) then
        Lookup(None, PlaceholderWarning)
      else
        Lookup(raw, Silent)
  }

  /** `isOptional` only decides whether a missing value is logged as an error. */
  lemma OptionalOnlyAffectsLogging(key: string, raw: Option<string>)
    ensures GetEnvVariable(key, raw, true).value == GetEnvVariable(key, raw, false).value
    ensures GetEnvVariable(key, raw, true).report != MissingError
  {
  }

  /** Every accepted value is truthy, so a `if (value)` test is a presence test. */
  lemma AcceptedIsTruthy(key: string, raw: Option<string>, isOptional: bool)
    ensures GetEnvVariable(key, raw, isOptional).value.Some? <==> Truthy(GetEnvVariable(key, raw, isOptional).value)
  {
  }

  /** The literal placeholder is already caught by the `your_` test. */
  lemma {:induction false} PlaceholderContainsMarker()
    ensures Includes(VoiceIdPlaceholder, "your_")
    ensures Includes(VoiceIdPlaceholder, "_here")
  {
    assert OccursAt(VoiceIdPlaceholder, "your_", 0);
    assert OccursAt(VoiceIdPlaceholder, "_here", 24);
  }

  /** Keys other than the voice id pass placeholder-looking values through unchanged. */
  lemma OtherKeysKeepPlaceholders(key: string, v: string, isOptional: bool)
    requires key != VoiceIdKey && !IsBlank(v)
    ensures GetEnvVariable(key, Some(v), isOptional).value == Some(v)
  {
  }

  /** `ELEVENLABS_VOICE_ID`: the voice id lookup, which is not optional. */
  function ElevenLabsVoiceId(raw: Option<string>): (v: Option<string>)
    ensures v.Some? ==> v == raw && !LooksLikePlaceholder(v.value) && Truthy(v)
  {
    GetEnvVariable(VoiceIdKey, raw, false).value
  }
}
