/** Process configuration read from the environment (src/config.js). */
module Config {
  import opened Wrappers

  /** The spellings `parseBool` accepts as true, after lower-casing. */
  const TruthyWords: seq<string> := ["1", "true", "yes", "on"]

  /** Defaults used when the corresponding environment variable is unset or empty. */
  const DefaultCacheTtlSeconds: nat := 3600
  const DefaultDatabaseUrl: string := "sqlite:///./data/products.db"
  const DefaultSeedData: bool := true

  /** `toLowerCase` on one character. Only ASCII capitals change. */
  function LowerChar(c: char): char {
    if 'A' <= c <= 'Z' then (c as int - 'A' as int + 'a' as int) as char else c
  }

  /** `toLowerCase` on a string: the same length, lowered character by character. */
  function ToLower(s: string): (r: string)
    ensures |r| == |s|
    ensures forall i :: 0 <= i < |s| ==> r[i] == LowerChar(s[i])
  {
    if s == [] then [] else [LowerChar(s[0])] + ToLower(s[1..])
  }

  /** `s` spells `w` when capitals are ignored (`w` is lower-case). */
  predicate SpellsIgnoringCase(s: string, w: string) {
    |s| == |w| && forall i :: 0 <= i < |s| ==> LowerChar(s[i]) == w[i]
  }

  /** `parseBool(value, defaultValue)`: an unset variable gives the default,
      a set one is true exactly when it lower-cases to one of TruthyWords. */
  function ParseBool(value: Option<string>, default: bool): bool {
    match value
    case None => default
    case Some(v) => ToLower(v) in TruthyWords
  }

  /** `process.env.X || fallback`: an unset or empty variable falls back. */
  function OrElse(value: Option<string>, fallback: string): string {
    if value.Some? && value.value != "" then value.value else fallback
  }

  /** SEED_DATA, given the raw environment variable. */
  function SeedData(env: Option<string>): bool {
    ParseBool(env, DefaultSeedData)
  }

  /** DATABASE_URL, given the raw environment variable. */
  function DatabaseUrl(env: Option<string>): string {
    OrElse(env, DefaultDatabaseUrl)
  }

  /** An unset variable yields the default. */
  lemma ParseBoolUnset(default: bool)
    ensures ParseBool(None, default) == default
  {
  }

  /** A set variable is true exactly when it spells one of the truthy words,
      capitals ignored, whatever the default. */
  lemma ParseBoolDefined(v: string, default: bool)
    ensures ParseBool(Some(v), default) <==> exists w :: w in TruthyWords && SpellsIgnoringCase(v, w)
    ensures ParseBool(Some(v), default) == ParseBool(Some(v), !default)
  {
    assert SpellsIgnoringCase(v, ToLower(v));
    forall w | SpellsIgnoringCase(v, w)
      ensures ToLower(v) == w
    {
    }
  }

  /** Lower-casing is idempotent. */
  lemma ToLowerIdempotent(s: string)
    ensures ToLower(ToLower(s)) == ToLower(s)
  {
  }

  /** Matching does not depend on case: a value and its lower-cased form agree. */
  lemma ParseBoolCaseInsensitive(v: string, default: bool)
    ensures ParseBool(Some(v), default) == ParseBool(Some(ToLower(v)), default)
  {
    ToLowerIdempotent(v);
  }

  /** The spellings the settings are documented with. */
  lemma ParseBoolExamples(default: bool)
    ensures ParseBool(Some("TRUE"), default)
    ensures ParseBool(Some("On"), default)
    ensures ParseBool(Some("Yes"), default)
    ensures ParseBool(Some("1"), default)
    ensures !ParseBool(Some("false"), default)
    ensures !ParseBool(Some("0"), default)
    ensures !ParseBool(Some(""), default)
  {
    assert ToLower("TRUE") == "true";
    assert ToLower("On") == "on";
    assert ToLower("Yes") == "yes";
    assert ToLower("1") == "1";
    assert ToLower("false") == "false";
    assert ToLower("0") == "0";
  }

  /** Defaults: seeding is on, and the database URL is the relative sqlite URL;
      an empty DATABASE_URL counts as unset, and "false" turns seeding off. */
  lemma ConfigDefaults()
    ensures SeedData(None)
    ensures !SeedData(Some("false"))
    ensures DatabaseUrl(None) == DatabaseUrl(Some("")) == "sqlite:///./data/products.db"
    ensures DefaultCacheTtlSeconds == 3600
  {
  }

  /** DATABASE_URL is never empty, whatever the environment holds: the empty
      value falls back like an unset one. */
  lemma DatabaseUrlNonEmpty(env: Option<string>)
    ensures DatabaseUrl(env) != ""
  {
  }
}
