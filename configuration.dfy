/**
  config.py: the shared `Config` class attribute `OPENROUTER_API_KEY` and
  `Config.validate`, which strips the stored key in place and raises `ValueError`
  when it is missing or blank.  The constants the back end sends with each request
  (model name, token limit) live here too.
 */
module Configuration {
  import opened Wrappers
  import opened Text

  const ModelName := "xiaomi/mimo-v2-flash:free"
  const MaxTokens := 4000
  const KeyPrefix := "sk-or-"

  const MissingKeyMessage := "OPENROUTER_API_KEY environment variable is required. Get your API key from https://openrouter.ai/keys"
  const BlankKeyMessage := "OPENROUTER_API_KEY is empty or whitespace. Please set a valid API key from https://openrouter.ai/keys"

  /** What `validate` reports: `True`, with or without the printed warning about the
      key prefix, or the `ValueError` message. */
  datatype Validation = Valid(prefixWarning: bool) | Invalid(message: string)

  /** Python `not key` for an optional string. */
  predicate Blank(key: Option<string>) {
    key.None? || key.value == []
  }

  /** The outcome of `validate` on stored key `key`. */
  function ValidateOutcome(key: Option<string>): (r: Validation)
    ensures r.Valid? <==> key.Some? && PyStrip(key.value) != []
    ensures r.Invalid? ==> r.message in {MissingKeyMessage, BlankKeyMessage}
    // A missing or empty key is reported as missing; a present key that strips to
    // nothing is reported as blank.
    ensures Blank(key) ==> r == Invalid(MissingKeyMessage)
    ensures !Blank(key) && PyStrip(key.value) == [] ==> r == Invalid(BlankKeyMessage)
    ensures r.Valid? ==> (r.prefixWarning <==> !StartsWith(PyStrip(key.value), KeyPrefix))
  {
    if Blank(key) then Invalid(MissingKeyMessage)
    else if PyStrip(key.value) == [] then Invalid(BlankKeyMessage)
    else Valid(!StartsWith(PyStrip(key.value), KeyPrefix))
  }

  /** The key stored after `validate`: stripped, unless it was missing or empty. */
  function KeyAfterValidate(key: Option<string>): (r: Option<string>)
    ensures r.Some? <==> key.Some?
    ensures r.Some? ==> Trimmed(Py, r.value)
    // A present key is replaced by its stripped text; a missing or empty one is left.
    ensures !Blank(key) ==> r == Some(PyStrip(key.value))
    ensures Blank(key) ==> r == key
  {
    if Blank(key) then key
    else
      TrimShape(Py, key.value);
      Some(PyStrip(key.value))
  }

  class Config {
    /** `Config.OPENROUTER_API_KEY`; `None` when the environment variable is unset. */
    var apiKey: Option<string>

    constructor(key: Option<string>)
      ensures apiKey == key
    {
      apiKey := key;
    }

    /** `Config.validate()`. */
    method Validate() returns (r: Validation)
      modifies this
      ensures r == ValidateOutcome(old(apiKey))
      ensures apiKey == KeyAfterValidate(old(apiKey))
    {
      if apiKey.None? || apiKey.value == [] {
        return Invalid(MissingKeyMessage);
      }
      apiKey := Some(PyStrip(apiKey.value));
      if apiKey.value == [] {
        return Invalid(BlankKeyMessage);
      }
      r := Valid(!StartsWith(apiKey.value, KeyPrefix));
    }
  }

  /** A second `validate` after a successful one keeps the stored key and succeeds
      again with the same warning. */
  lemma ValidateIdempotent(key: Option<string>)
    requires ValidateOutcome(key).Valid?
    ensures KeyAfterValidate(KeyAfterValidate(key)) == KeyAfterValidate(key)
    ensures ValidateOutcome(KeyAfterValidate(key)) == ValidateOutcome(key)
  {
    TrimShape(Py, key.value);
    TrimIdempotent(Py, PyStrip(key.value));
  }

  /** A key made only of whitespace is rejected, but is still stored stripped to "". */
  lemma BlankKeyStoredEmpty(key: string)
    requires key != [] && forall i :: 0 <= i < |key| ==> IsPySpace(key[i])
    ensures ValidateOutcome(Some(key)) == Invalid(BlankKeyMessage)
    ensures KeyAfterValidate(Some(key)) == Some([])
  {
    TrimShape(Py, key);
  }
}
