/**
 * Resolution of a human-readable venue name to the trading-client identifier of
 * the exchange and to its API credentials (server.ts:24-52). Both failures are
 * raised before any exchange object is built and before any order is placed.
 */
module Venues {
  import opened Wrappers

  /** The fixed mapping from lower-case venue names to exchange identifiers. */
  const ExchangeIds: map<string, string> :=
    map["coinbase" := "coinbasepro", "binance" := "binanceus", "bybit" := "bybit"]

  /** The configuration errors, which propagate to the caller. */
  datatype ConfigError =
    | UnsupportedExchange(name: string)
    | MissingCredentials

  datatype Credentials = Credentials(apiKey: string, secret: string, passphrase: string)

  datatype Venue = Venue(exchangeId: string, credentials: Credentials)

  function LowerChar(c: char): char
  {
    if 'A' <= c <= 'Z' then (c as int + 32) as char else c
  }

  function UpperChar(c: char): char
  {
    if 'a' <= c <= 'z' then (c as int - 32) as char else c
  }

  /** Case mapping restricted to ASCII letters. */
  function ToLower(s: string): (r: string)
    ensures |r| == |s|
    ensures forall i :: 0 <= i < |r| ==> !('A' <= r[i] <= 'Z')
  {
    seq(|s|, i requires 0 <= i < |s| => LowerChar(s[i]))
  }

  function ToUpper(s: string): (r: string)
    ensures |r| == |s|
    ensures forall i :: 0 <= i < |r| ==> !('a' <= r[i] <= 'z')
  {
    seq(|s|, i requires 0 <= i < |s| => UpperChar(s[i]))
  }

  /** Looking a name up ignores the case of its letters: an upper-cased name resolves like the name itself. */
  lemma LowerOfUpper(s: string)
    ensures ToLower(ToUpper(s)) == ToLower(s)
  {
    forall i | 0 <= i < |s|
      ensures ToLower(ToUpper(s))[i] == ToLower(s)[i]
    {
      var c := s[i];
      if 'a' <= c <= 'z' {
        assert UpperChar(c) as int == c as int - 32;
      }
    }
  }

  /**
   * The exchange identifier for a venue name: the name is lower-cased and looked
   * up among the map's own keys; any other name is unsupported, and the error
   * carries the name as the caller spelled it.
   */
  function ExchangeIdOf(name: string): (r: Result<string, ConfigError>)
    ensures r.Success? <==> ToLower(name) in ExchangeIds.Keys
    ensures r.Success? ==> r.value == ExchangeIds[ToLower(name)]
    ensures r.Success? ==> r.value in {"coinbasepro", "binanceus", "bybit"}
    ensures r.Failure? ==> r.error == UnsupportedExchange(name)
  {
    var key := ToLower(name);
    if key in ExchangeIds then Success(ExchangeIds[key]) else Failure(UnsupportedExchange(name))
  }

  lemma ExchangeIdIgnoresCase(name: string)
    ensures ExchangeIdOf(ToUpper(name)).Success? == ExchangeIdOf(name).Success?
    ensures ExchangeIdOf(name).Success? ==> ExchangeIdOf(ToUpper(name)).value == ExchangeIdOf(name).value
  {
    LowerOfUpper(name);
  }

  /** The three supported venues, in any letter case. */
  lemma KnownVenues()
    ensures ExchangeIdOf("Coinbase") == Success("coinbasepro")
    ensures ExchangeIdOf("BINANCE") == Success("binanceus")
    ensures ExchangeIdOf("ByBit") == Success("bybit")
  {
    assert ToLower("Coinbase") == "coinbase";
    assert ToLower("BINANCE") == "binance";
    assert ToLower("ByBit") == "bybit";
  }

  /** The example caller passes the trading-client identifier rather than a venue name, so it is rejected. */
  lemma ExampleNameUnsupported(env: map<string, string>)
    ensures Resolve(env, "coinbasepro") == Failure(UnsupportedExchange("coinbasepro"))
  {
    assert ToLower("coinbasepro") == "coinbasepro";
  }

  /** The environment variable holding one credential of an exchange, e.g. COINBASEPRO_API_KEY. */
  function EnvName(exchangeId: string, suffix: string): (r: string)
    ensures |r| == |exchangeId| + 1 + |suffix|
    ensures r[|exchangeId|] == '_' && r[|exchangeId| + 1..] == suffix
    ensures forall i :: 0 <= i < |exchangeId| ==> !('a' <= r[i] <= 'z')
    ensures ToLower(r[..|exchangeId|]) == ToLower(exchangeId)
  {
    var r := ToUpper(exchangeId) + "_" + suffix;
    assert r[..|exchangeId|] == ToUpper(exchangeId);
    LowerOfUpper(exchangeId);
    r
  }

  /** An environment value counts only when it is set and not empty (JavaScript truthiness). */
  predicate IsSet(env: map<string, string>, key: string)
    ensures IsSet(env, key) ==> key in env && |env[key]| > 0
    ensures key !in env ==> !IsSet(env, key)
  {
    key in env && env[key] != ""
  }

  /**
   * The three credentials of an exchange; if any of them is unset or empty the
   * credentials are missing.
   */
  function CredentialsOf(env: map<string, string>, exchangeId: string): (r: Result<Credentials, ConfigError>)
    ensures r.Success? <==>
      IsSet(env, EnvName(exchangeId, "API_KEY")) &&
      IsSet(env, EnvName(exchangeId, "API_SECRET")) &&
      IsSet(env, EnvName(exchangeId, "API_PASSPHRASE"))
    ensures r.Success? ==>
      r.value.apiKey == env[EnvName(exchangeId, "API_KEY")] &&
      r.value.secret == env[EnvName(exchangeId, "API_SECRET")] &&
      r.value.passphrase == env[EnvName(exchangeId, "API_PASSPHRASE")]
    ensures r.Failure? ==> r.error == MissingCredentials
  {
    var key, secret, pass := EnvName(exchangeId, "API_KEY"), EnvName(exchangeId, "API_SECRET"), EnvName(exchangeId, "API_PASSPHRASE");
    if IsSet(env, key) && IsSet(env, secret) && IsSet(env, pass) then
      Success(Credentials(env[key], env[secret], env[pass]))
    else
      Failure(MissingCredentials)
  }

  /** The venue check comes first, then the credential check. */
  function Resolve(env: map<string, string>, name: string): (r: Result<Venue, ConfigError>)
    ensures ToLower(name) !in ExchangeIds.Keys ==> r == Failure(UnsupportedExchange(name))
    ensures r.Success? ==> r.value.exchangeId == ExchangeIds[ToLower(name)]
    ensures r.Success? ==> r.value.credentials.apiKey != "" && r.value.credentials.secret != "" && r.value.credentials.passphrase != ""
    ensures r.Failure? ==> r.error == UnsupportedExchange(name) || r.error == MissingCredentials
    ensures ToLower(name) in ExchangeIds.Keys ==>
      var id := ExchangeIds[ToLower(name)];
      (r.Success? <==> IsSet(env, EnvName(id, "API_KEY")) && IsSet(env, EnvName(id, "API_SECRET")) && IsSet(env, EnvName(id, "API_PASSPHRASE"))) &&
      (r.Failure? ==> r.error == MissingCredentials) &&
      (r.Success? ==> r.value.credentials == Credentials(env[EnvName(id, "API_KEY")], env[EnvName(id, "API_SECRET")], env[EnvName(id, "API_PASSPHRASE")]))
  {
    match ExchangeIdOf(name)
    case Failure(e) => Failure(e)
    case Success(id) =>
      match CredentialsOf(env, id)
      case Failure(e) => Failure(e)
      case Success(c) => Success(Venue(id, c))
  }

  /** A supported venue with all three credentials set always resolves, whatever else the environment holds. */
  lemma ResolveSucceeds(env: map<string, string>, name: string)
    requires ToLower(name) in ExchangeIds.Keys
    requires IsSet(env, EnvName(ExchangeIds[ToLower(name)], "API_KEY"))
    requires IsSet(env, EnvName(ExchangeIds[ToLower(name)], "API_SECRET"))
    requires IsSet(env, EnvName(ExchangeIds[ToLower(name)], "API_PASSPHRASE"))
    ensures Resolve(env, name).Success?
  {
  }

  // The lookup as the source writes it reads a property of a plain JavaScript
  // object, so names inherited from Object.prototype are found as well.

  /**
   * The names a plain JavaScript object inherits from Object.prototype that are
   * spelled in lower case; only these can equal a lower-cased venue name.
   */
  const InheritedNames: set<string> := {
    "constructor", "__proto__"
  }

  /** Whether `if (!exchangeId)` lets the name through as written: own and inherited properties are both truthy. */
  predicate GuardPassesAsWritten(name: string)
  {
    ToLower(name) in ExchangeIds.Keys || ToLower(name) in InheritedNames
  }

  /**
   * A name that is no venue passes the guard as written; the value found is a
   * function, not a string, so the following `toUpperCase()` call fails with a
   * TypeError instead of "Unsupported exchange". The corrected lookup rejects it.
   */
  lemma InheritedNamePassesGuard()
    ensures GuardPassesAsWritten("Constructor")
    ensures ExchangeIdOf("Constructor") == Failure(UnsupportedExchange("Constructor"))
  {
    assert ToLower("Constructor") == "constructor";
  }
}
