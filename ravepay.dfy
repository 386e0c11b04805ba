// ravepay.go: the Client, the package-level resource table and NewClient.
//
// The endpoint tables come from types.LoadConfigs, which reads a JSON file;
// here they are the parameter `cfg`. The service objects other than the card
// service and the request builder are not part of this model.

/** The endpoints of one API version in one environment (types.VersionEnv). */
datatype VersionEnv = VersionEnv(
  tokenize: string,
  charge: string,
  validate: string,
  preauth: string,
  capture: string,
  refund: string,
  avs: string,
  status: string)

/** Go's zero VersionEnv: every endpoint empty. */
const EmptyVersionEnv: VersionEnv := VersionEnv("", "", "", "", "", "", "", "")

/** The staging and production tables of one API version. */
datatype EnvTables = EnvTables(staging: VersionEnv, production: VersionEnv)

/** types.CardResources: the tables of both API versions. */
datatype CardResources = CardResources(v1: EnvTables, v2: EnvTables)

/** The package-level variables `resources` and `DefaultVersion`. */
class PackageState {
  var resources: VersionEnv
  var defaultVersion: string

  /** The package as it is loaded: zero resources, DefaultVersion "v1". */
  constructor ()
    ensures resources == EmptyVersionEnv && defaultVersion == "v1"
  {
    resources := EmptyVersionEnv;
    defaultVersion := "v1";
  }
}

/** The *http.Client a Client sends with: http.DefaultClient, or one the
    caller supplied, told apart by an identity. */
datatype HttpClient = DefaultClient | CustomClient(id: nat)

// ---------------------------------------------------------------------------
// Environment names

/** strings.ToLower on one character, for the ASCII range. */
function LowerChar(c: char): (r: char)
  ensures 'A' <= c <= 'Z' ==> r as int == c as int + 32
  ensures !('A' <= c <= 'Z') ==> r == c
  ensures !('A' <= r <= 'Z')
{
  if 'A' <= c <= 'Z' then (c as int + 32) as char else c
}

/** strings.ToLower, for the ASCII range. */
function ToLower(s: string): (r: string)
  ensures |r| == |s|
  ensures forall i | 0 <= i < |s| :: r[i] == LowerChar(s[i])
{
  seq(|s|, i requires 0 <= i < |s| => LowerChar(s[i]))
}

/** Lower-casing twice is lower-casing once. */
lemma ToLowerIdempotent(s: string)
  ensures ToLower(ToLower(s)) == ToLower(s)
{
  forall i | 0 <= i < |s|
    ensures ToLower(ToLower(s))[i] == ToLower(s)[i]
  {
    assert !('A' <= ToLower(s)[i] <= 'Z');
  }
}

/** The environment names that select the staging table. */
predicate IsStagingEnv(env: string)
{
  ToLower(env) == "staging" || ToLower(env) == "test"
}

/** The environment name that selects the production table. */
predicate IsProductionEnv(env: string)
{
  ToLower(env) == "production"
}

// ---------------------------------------------------------------------------
// Version and resource selection

/** NewClient's version step: a non-empty version is replaced by the
    package default, and an empty one stays empty. */
function NormalizeVersion(defaultVersion: string, version: string): (r: string)
  ensures r == "" <==> version == "" || defaultVersion == ""
  ensures r != "" ==> r == defaultVersion
{
  if version != "" then defaultVersion else version
}

/** Under the package default "v1", a normalised version is "" or "v1", so
    the "v2" branch of NewClient's switch is never taken. */
lemma NormalizedVersionIsEmptyOrV1(version: string)
  ensures NormalizeVersion("v1", version) in {"", "v1"}
  ensures NormalizeVersion("v1", version) != "v2"
{
}

/** The resource table NewClient's switch leaves in the package variable,
    given the one that was there before. */
function SelectResources(cfg: CardResources, version: string, env: string, current: VersionEnv): (r: VersionEnv)
  ensures (version == "v1" || version == "v2") && IsStagingEnv(env) ==> r == cfg.v1.staging
  ensures (version == "v1" || version == "v2") && IsProductionEnv(env) ==> r == cfg.v1.production
  ensures !((version == "v1" || version == "v2") && (IsStagingEnv(env) || IsProductionEnv(env))) ==> r == current
{
  if version == "v1" || version == "v2" then
    var staged := if IsStagingEnv(env) then cfg.v1.staging else current;
    if IsProductionEnv(env) then cfg.v1.production else staged
  else current
}

/** Selection depends on the environment name only up to letter case. */
lemma SelectionIgnoresCase(cfg: CardResources, version: string, env1: string, env2: string, current: VersionEnv)
  requires ToLower(env1) == ToLower(env2)
  ensures SelectResources(cfg, version, env1, current) == SelectResources(cfg, version, env2, current)
{
}

/** "v2" selects exactly what "v1" does, and the V2 tables are never read. */
lemma V2SelectsV1Tables(cfg: CardResources, other: EnvTables, env: string, current: VersionEnv)
  ensures SelectResources(cfg, "v2", env, current) == SelectResources(cfg, "v1", env, current)
  ensures SelectResources(cfg, "v2", env, current) == SelectResources(cfg.(v2 := other), "v2", env, current)
{
}

// ---------------------------------------------------------------------------
// Client

/** The API client. Go's *url.URL BaseURL is kept as the string it was
    parsed from, None for nil. */
class Client {
  var baseURL: Option<string>
  var userAgent: string
  var merchantKey: string
  var apiKey: string
  var environment: string
  var httpClient: HttpClient
  var version: string
  var card: CardService?
  var request: RequestService?

  /** The composite literal of NewClient: the given fields, every other
      field zero. */
  constructor (merchantKey: string, apiKey: string, environment: string, httpClient: HttpClient)
    ensures this.merchantKey == merchantKey && this.apiKey == apiKey
    ensures this.environment == environment && this.httpClient == httpClient
    ensures baseURL == None && userAgent == "" && version == ""
    ensures card == null && request == null
  {
    this.merchantKey := merchantKey;
    this.apiKey := apiKey;
    this.environment := environment;
    this.httpClient := httpClient;
    baseURL := None;
    userAgent := "";
    version := "";
    card := null;
    request := null;
  }

  function GetMerchantKey(): string
    reads this
  {
    merchantKey
  }

  function GetAPIKey(): string
    reads this
  {
    apiKey
  }

  function GetEnv(): string
    reads this
  {
    environment
  }

  /** The key CryptoService.GetPublicKey reads. */
  function PublicKey(): string
    reads this
  {
    merchantKey
  }

  /** The key CryptoService.GetSecretKey reads. */
  function SecretKey(): string
    reads this
  {
    apiKey
  }
}

/** NewClient: normalise the version, let the switch update the package's
    resource table, then build the client and wire its services to it. The
    version is never stored on the client. */
method NewClient(pkg: PackageState, cfg: CardResources, httpClient: Option<HttpClient>,
                 merchantKey: string, apiKey: string, env: string, version: string)
  returns (c: Client)
  modifies pkg
  ensures pkg.resources == SelectResources(cfg, NormalizeVersion(old(pkg.defaultVersion), version), env, old(pkg.resources))
  ensures pkg.defaultVersion == old(pkg.defaultVersion)
  ensures fresh(c)
  ensures c.httpClient == (if httpClient.None? then DefaultClient else httpClient.value)
  ensures c.GetMerchantKey() == merchantKey && c.GetAPIKey() == apiKey && c.GetEnv() == env
  ensures c.version == "" && c.userAgent == "" && c.baseURL == None
  ensures c.card != null && fresh(c.card) && c.card.client == c
  ensures c.request != null && fresh(c.request) && c.request.client == c
  ensures c.request.baseURL == "" && c.request.data == None
{
  var client := if httpClient.None? then DefaultClient else httpClient.value;
  var v := version;
  if v != "" {
    v := pkg.defaultVersion;
  }
  var lowered := ToLower(env);
  if v == "v1" || v == "v2" {
    // both branches of the source's switch read the V1 tables
    if lowered == "staging" || lowered == "test" {
      pkg.resources := cfg.v1.staging;
    }
    if lowered == "production" {
      pkg.resources := cfg.v1.production;
    }
  }
  c := new Client(merchantKey, apiKey, env, client);
  var card := new CardService(c);
  var request := new RequestService(c);
  c.card := card;
  c.request := request;
}
