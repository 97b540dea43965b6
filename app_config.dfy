/**
 * The demo application's configuration: environment values with fixed fallbacks,
 * and the construction of API endpoint URLs from the base URL.
 */
module AppConfig {
  import opened Wrappers
  import Text

  const DEFAULT_API_BASE_URL: string := "https://mpbahqqt37.execute-api.us-east-1.amazonaws.com/latest"
  const DEFAULT_SDK_KEY: string := "d33968c0-6f5b-4baf-b74c-2486ead0d3ee"

  /** The environment variables read at start-up; None is an unset variable. */
  datatype Env = Env(apiBaseUrl: Option<string>, sdkKey: Option<string>, nodeEnv: Option<string>)

  datatype Config = Config(apiBaseUrl: string, sdkKey: string, isDevelopment: bool)

  /** `value || fallback` for an optional string: unset and empty both fall back. */
  function OrDefault(value: Option<string>, fallback: string): string {
    if value.Some? && value.value != "" then value.value else fallback
  }

  /**
   * getConfig: each setting is the environment's value unless that is unset or empty,
   * in which case it is the fixed default; development mode iff NODE_ENV is "development".
   */
  function GetConfig(env: Env): (c: Config)
    ensures c.apiBaseUrl == DEFAULT_API_BASE_URL <==> env.apiBaseUrl in {None, Some(""), Some(DEFAULT_API_BASE_URL)}
    ensures env.apiBaseUrl.Some? && env.apiBaseUrl.value != "" ==> c.apiBaseUrl == env.apiBaseUrl.value
    ensures c.sdkKey == DEFAULT_SDK_KEY <==> env.sdkKey in {None, Some(""), Some(DEFAULT_SDK_KEY)}
    ensures env.sdkKey.Some? && env.sdkKey.value != "" ==> c.sdkKey == env.sdkKey.value
    ensures c.apiBaseUrl != "" && c.sdkKey != ""
    ensures c.isDevelopment <==> env.nodeEnv == Some("development")
  {
    Config(OrDefault(env.apiBaseUrl, DEFAULT_API_BASE_URL), OrDefault(env.sdkKey, DEFAULT_SDK_KEY),
           env.nodeEnv == Some("development"))
  }

  /** The path with a leading slash, added when missing. */
  function NormalizedPath(path: string): (r: string)
    ensures Text.StartsWith(r, "/")
    ensures Text.StartsWith(path, "/") ==> r == path
    ensures !Text.StartsWith(path, "/") ==> r == "/" + path
  {
    if Text.StartsWith(path, "/") then path else "/" + path
  }

  /** getApiEndpoint: the base URL followed by the path, with exactly the slash the path lacked. */
  function GetApiEndpoint(config: Config, path: string): (r: string)
    ensures Text.StartsWith(r, config.apiBaseUrl)
    ensures r[|config.apiBaseUrl|..] == NormalizedPath(path)
    ensures Text.StartsWith(path, "/") ==> r == config.apiBaseUrl + path
    ensures !Text.StartsWith(path, "/") ==> r == config.apiBaseUrl + "/" + path
  {
    var p := NormalizedPath(path);
    assert (config.apiBaseUrl + p)[..|config.apiBaseUrl|] == config.apiBaseUrl;
    config.apiBaseUrl + p
  }

  /** A path without its leading slash names the same endpoint as the path with it. */
  lemma EndpointSlashInsensitive(config: Config, x: string)
    requires !Text.StartsWith(x, "/")
    ensures GetApiEndpoint(config, x) == GetApiEndpoint(config, "/" + x)
  {
    assert Text.StartsWith("/" + x, "/");
  }

  /** Normalising is idempotent, so building an endpoint from a normalised path changes nothing. */
  lemma EndpointOfNormalized(config: Config, path: string)
    ensures GetApiEndpoint(config, NormalizedPath(path)) == GetApiEndpoint(config, path)
  {
  }
}
