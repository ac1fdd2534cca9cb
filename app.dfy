/** The service's startup and request path (src/main.py): the environment tag,
    the required-key check, the choice of inference client, the API-key gate
    and the order of checks in the recommendation handler. The inference
    clients themselves are opaque: only which one is built, and from what. */
module App {
  import opened Values
  import opened AwsUtils
  import opened Config

  /** `(config.get("env") or "dev").lower()`. A truthy value that is not a
      string has no `.lower`, which raises at startup. */
  function EnvTag(config: Config): (r: Result<string, Error>)
    ensures !Truthy(Get(config, Env)) ==> r == Ok("dev")
    ensures Get(config, Env).Str? && Truthy(Get(config, Env)) ==> r == Ok(Lower(Get(config, Env).s))
    ensures r.Err? <==> Truthy(Get(config, Env)) && !Get(config, Env).Str?
    ensures r.Err? ==> r.error == AttributeError("lower")
    ensures r.Ok? ==> r.value != "" && Lower(r.value) == r.value
  {
    var chosen := if Truthy(Get(config, Env)) then Get(config, Env) else Str("dev");
    match chosen
    case Str(s) =>
      LowerIdempotent(s);
      assert Lower("dev") == "dev";
      Ok(Lower(s))
    case _ => Err(AttributeError("lower"))
  }

  /** The three kinds of inference client. */
  datatype Strategy = LocalMock | AmbientBedrock | CognitoBedrock

  /** The client selection's if/elif: "local", "dev", and everything else. */
  function StrategyFor(tag: string): Strategy {
    if tag == "local" then LocalMock
    else if tag == "dev" then AmbientBedrock
    else CognitoBedrock
  }

  /** The keys each client kind requires, in the order they are checked. */
  function RequiredKeys(s: Strategy): seq<Key> {
    match s
    case LocalMock => [Region]
    case AmbientBedrock => [Region]
    case CognitoBedrock => [Region, UserPoolId, ClientId, IdentityPoolId, CognitoUsername, CognitoPassword]
  }

  /** The list comprehension of `_require_keys`: the requested keys whose value
      is falsy, each as often as it was requested, in the order requested. */
  function MissingKeys(config: Config, keys: seq<Key>): (r: seq<Key>)
    ensures forall k :: k in r <==> k in keys && !Truthy(Get(config, k))
    decreases |keys|
  {
    if keys == [] then []
    else
      var rest := MissingKeys(config, keys[1..]);
      if Truthy(Get(config, keys[0])) then rest else [keys[0]] + rest
  }

  /** The missing list keeps the requested order. */
  lemma {:induction false} MissingKeysKeepsOrder(config: Config, keys: seq<Key>)
    ensures IsSubsequence(MissingKeys(config, keys), keys)
    decreases |keys|
  {
    if keys != [] {
      MissingKeysKeepsOrder(config, keys[1..]);
    }
  }

  /** Each missing key appears as often as it was requested; each truthy key not at all.
      With MissingKeysKeepsOrder, this pins the list down: the request with exactly
      the truthy keys dropped. */
  lemma {:induction false} MissingKeysCounts(config: Config, keys: seq<Key>)
    ensures forall k ::
      multiset(MissingKeys(config, keys))[k] == (if Truthy(Get(config, k)) then 0 else multiset(keys)[k])
    decreases |keys|
  {
    if keys != [] {
      MissingKeysCounts(config, keys[1..]);
      assert keys == [keys[0]] + keys[1..];
    }
  }

  /** The dictionary keys of `keys`. */
  function Names(keys: seq<Key>): (r: seq<string>)
    ensures |r| == |keys| && forall i :: 0 <= i < |keys| ==> r[i] == Name(keys[i])
  {
    seq(|keys|, i requires 0 <= i < |keys| => Name(keys[i]))
  }

  function MissingMessage(missing: seq<Key>): string {
    "Missing required config keys: " + Join(Names(missing), ", ")
  }

  /** `_require_keys`: passes exactly when every requested key is truthy, and
      otherwise raises a RuntimeError whose message names every missing key. */
  function RequireKeys(config: Config, keys: seq<Key>): (r: Outcome<Error>)
    ensures r.Pass? <==> forall k :: k in keys ==> Truthy(Get(config, k))
    ensures r.Fail? ==> r.error == RuntimeError(MissingMessage(MissingKeys(config, keys)))
  {
    var missing := MissingKeys(config, keys);
    if missing == [] then Pass
    else
      assert missing[0] in missing;
      Fail(RuntimeError(MissingMessage(missing)))
  }

  /** A failed `_require_keys` names every missing key in its message, not just the first. */
  lemma RequireKeysNamesEveryMissingKey(config: Config, keys: seq<Key>)
    ensures RequireKeys(config, keys).Fail? ==>
      forall k :: k in keys && !Truthy(Get(config, k)) ==> Contains(RequireKeys(config, keys).error.message, Name(k))
  {
    MessageNamesEach(MissingKeys(config, keys));
  }

  /** The error message names every key in the missing list. */
  lemma MessageNamesEach(missing: seq<Key>)
    ensures forall k :: k in missing ==> Contains(MissingMessage(missing), Name(k))
  {
    var prefix := "Missing required config keys: ";
    forall k | k in missing ensures Contains(MissingMessage(missing), Name(k)) {
      var j :| 0 <= j < |missing| && missing[j] == k;
      assert Names(missing)[j] == Name(k);
      JoinContainsEach(Names(missing), ", ", Name(k));
      var i :| OccursAt(Join(Names(missing), ", "), Name(k), i);
      OccursAfterPrefix(prefix, Join(Names(missing), ", "), Name(k), i);
    }
  }

  /** The inference client built at startup, with the arguments it is built from. */
  datatype Client =
    | LocalClient(region: Value, endpoint: Value)
    | AwsClient(region: Value, endpoint: Value)
    | CognitoClient(region: Value, config: Config, endpoint: Value)
  {
    function Kind(): Strategy {
      match this
      case LocalClient(_, _) => LocalMock
      case AwsClient(_, _) => AmbientBedrock
      case CognitoClient(_, _, _) => CognitoBedrock
    }
  }

  /** One branch of the client selection: check the strategy's required keys,
      then build its client from `config["region"]` and `config.get("aws_endpoint")`. */
  function Build(config: Config, strategy: Strategy): (r: Result<Client, Error>)
    ensures r.Ok? <==> forall k :: k in RequiredKeys(strategy) ==> Truthy(Get(config, k))
    ensures r.Ok? ==> r.value.Kind() == strategy
    ensures r.Ok? ==> Truthy(r.value.region) && r.value.region == Get(config, Region)
    ensures r.Ok? ==> r.value.endpoint == Get(config, AwsEndpoint)
    ensures r.Ok? && r.value.CognitoClient? ==> r.value.config == config
    ensures r.Err? ==> r.error == RuntimeError(MissingMessage(MissingKeys(config, RequiredKeys(strategy))))
  {
    match RequireKeys(config, RequiredKeys(strategy))
    case Fail(e) => Err(e)
    case Pass =>
      assert RequiredKeys(strategy)[0] == Region;
      match strategy
      case LocalMock => Ok(LocalClient(config[Region], Get(config, AwsEndpoint)))
      case AmbientBedrock => Ok(AwsClient(config[Region], Get(config, AwsEndpoint)))
      case CognitoBedrock => Ok(CognitoClient(config[Region], config, Get(config, AwsEndpoint)))
  }

  /** The client selection's if/elif over the tag. */
  function SelectClient(config: Config, tag: string): (r: Result<Client, Error>)
    ensures r.Ok? ==> r.value.Kind() == StrategyFor(tag)
  {
    Build(config, StrategyFor(tag))
  }

  /** Tag "local": the mock client, needing only a region. */
  lemma LocalNeedsOnlyRegion(config: Config)
    ensures SelectClient(config, "local") ==
      if Truthy(Get(config, Region)) then Ok(LocalClient(Get(config, Region), Get(config, AwsEndpoint)))
      else Err(RuntimeError(MissingMessage([Region])))
  {
  }

  /** Tag "dev": the ambient-credential Bedrock client, needing only a region. */
  lemma DevNeedsOnlyRegion(config: Config)
    ensures SelectClient(config, "dev") ==
      if Truthy(Get(config, Region)) then Ok(AwsClient(Get(config, Region), Get(config, AwsEndpoint)))
      else Err(RuntimeError(MissingMessage([Region])))
  {
  }

  /** Any other tag, unrecognised ones included, selects the Cognito client, which needs all six keys. */
  lemma OtherTagsSelectCognito(config: Config, tag: string)
    requires tag != "local" && tag != "dev"
    ensures SelectClient(config, tag).Ok? <==>
      Truthy(Get(config, Region)) && Truthy(Get(config, UserPoolId)) && Truthy(Get(config, ClientId)) &&
      Truthy(Get(config, IdentityPoolId)) && Truthy(Get(config, CognitoUsername)) && Truthy(Get(config, CognitoPassword))
    ensures SelectClient(config, tag).Ok? ==>
      SelectClient(config, tag).value == CognitoClient(Get(config, Region), config, Get(config, AwsEndpoint))
  {
  }

  /** With the Cognito client selected and `client_id` and `cognito_password` unset,
      startup fails with a message naming both, not just the first. */
  lemma CognitoMissingTwoNamesBoth(config: Config, tag: string)
    requires StrategyFor(tag) == CognitoBedrock
    requires !Truthy(Get(config, ClientId)) && !Truthy(Get(config, CognitoPassword))
    ensures SelectClient(config, tag).Err?
    ensures Contains(SelectClient(config, tag).error.message, Name(ClientId))
    ensures Contains(SelectClient(config, tag).error.message, Name(CognitoPassword))
  {
    var keys := RequiredKeys(CognitoBedrock);
    assert ClientId in keys && CognitoPassword in keys by {
      assert keys[2] == ClientId && keys[5] == CognitoPassword;
    }
    var check := RequireKeys(config, keys);
    assert check.Fail?;
    assert SelectClient(config, tag) == Err(check.error);
    RequireKeysNamesEveryMissingKey(config, keys);
  }

  /** The state fixed at import time: the configuration, the tag and the client. */
  datatype Server = Server(config: Config, env: string, client: Client)

  /** Module import: load the configuration, normalise the tag, check the
      selected client's required keys, then construct that client. What the
      constructor does (the Cognito client logs in through the user pool and
      the identity pool) is not modelled; `construct` is whether it raises. */
  function Startup(env: map<string, string>, svc: Services, construct: Client -> Outcome<Error>): (r: Result<Server, Error>)
    ensures var config := LoadConfig(env, svc);
      r.Ok? <==>
        && EnvTag(config).Ok?
        && (forall k :: k in RequiredKeys(StrategyFor(EnvTag(config).value)) ==> Truthy(Get(config, k)))
        && construct(Build(config, StrategyFor(EnvTag(config).value)).value).Pass?
    ensures r.Ok? ==> r.value.config == LoadConfig(env, svc) && EnvTag(r.value.config) == Ok(r.value.env)
    ensures r.Ok? ==> r.value.client == Build(r.value.config, StrategyFor(r.value.env)).value
    ensures r.Ok? ==> r.value.client.Kind() == StrategyFor(r.value.env)
    ensures var config := LoadConfig(env, svc);
      EnvTag(config).Err? ==> r == Err(AttributeError("lower"))
    ensures var config := LoadConfig(env, svc);
      EnvTag(config).Ok? && Build(config, StrategyFor(EnvTag(config).value)).Err? ==>
        r == Err(RuntimeError(MissingMessage(MissingKeys(config, RequiredKeys(StrategyFor(EnvTag(config).value))))))
    ensures var config := LoadConfig(env, svc);
      EnvTag(config).Ok? && Build(config, StrategyFor(EnvTag(config).value)).Ok? ==>
        var failed := construct(Build(config, StrategyFor(EnvTag(config).value)).value);
        failed.Fail? ==> r == Err(failed.error)
  {
    var config := LoadConfig(env, svc);
    match EnvTag(config)
    case Err(e) => Err(e)
    case Ok(tag) =>
      match SelectClient(config, tag)
      case Err(e) => Err(e)
      case Ok(client) =>
        match construct(client)
        case Fail(e) => Err(e)
        case Pass => Ok(Server(config, tag, client))
  }

  /** An HTTP error response. */
  datatype HttpError = HttpError(status: int, detail: string)

  const ApiKeyNotConfigured := HttpError(500, "API_KEY is not configured")
  const InvalidApiKey := HttpError(401, "Invalid API key")
  const ModelIdNotConfigured := HttpError(500, "BEDROCK_MODEL_ID is not configured")

  /** `verify_api_key`, strict: an unset or empty expected key is a 500 whatever
      is presented; otherwise the presented key passes exactly when it equals
      the expected one, and gets 401 when it does not. */
  function VerifyApiKey(config: Config, provided: string): (r: Outcome<HttpError>)
    ensures r == Fail(ApiKeyNotConfigured) <==> !Truthy(Get(config, ApiKey))
    ensures r.Pass? <==> Truthy(Get(config, ApiKey)) && Get(config, ApiKey) == Str(provided)
    ensures r == Fail(InvalidApiKey) <==> Truthy(Get(config, ApiKey)) && Get(config, ApiKey) != Str(provided)
  {
    var expected := Get(config, ApiKey);
    if !Truthy(expected) then Fail(ApiKeyNotConfigured)
    else if Str(provided) != expected then Fail(InvalidApiKey)
    else Pass
  }

  /** At most one presented key opens the gate, and an empty one never does. */
  lemma GateAdmitsOneKey(config: Config, p1: string, p2: string)
    requires VerifyApiKey(config, p1).Pass? && VerifyApiKey(config, p2).Pass?
    ensures p1 == p2 && p1 != ""
  {
  }

  /** What the handler does with a request. */
  datatype Response =
    | Recommend(client: Client, modelId: Value)   // delegated to the startup client with this model id
    | Rejected(error: HttpError)

  /** `handle_recommendation`: the API-key dependency runs first, then the model-id check. */
  function HandleRecommendation(server: Server, provided: string): (r: Response)
    ensures VerifyApiKey(server.config, provided).Fail? ==> r == Rejected(VerifyApiKey(server.config, provided).error)
    ensures r.Recommend? <==>
      VerifyApiKey(server.config, provided).Pass? && Truthy(Get(server.config, BedrockModelId))
    ensures r.Recommend? ==> r == Recommend(server.client, Get(server.config, BedrockModelId))
    ensures VerifyApiKey(server.config, provided).Pass? && !Truthy(Get(server.config, BedrockModelId)) ==>
      r == Rejected(ModelIdNotConfigured)
  {
    match VerifyApiKey(server.config, provided)
    case Fail(e) => Rejected(e)
    case Pass =>
      var modelId := Get(server.config, BedrockModelId);
      if !Truthy(modelId) then Rejected(ModelIdNotConfigured)
      else Recommend(server.client, modelId)
  }

  /** The gate's errors take precedence over a missing model id. */
  lemma GateBeforeModelCheck(server: Server, provided: string)
    requires !Truthy(Get(server.config, BedrockModelId))
    ensures !Truthy(Get(server.config, ApiKey)) ==> HandleRecommendation(server, provided) == Rejected(ApiKeyNotConfigured)
    ensures Truthy(Get(server.config, ApiKey)) && Get(server.config, ApiKey) != Str(provided) ==>
      HandleRecommendation(server, provided) == Rejected(InvalidApiKey)
  {
  }
}
