/** The configuration loader of src/core/config.py: the twelve configuration
    keys come from the secret store when it answers with a JSON object, and
    from the process environment otherwise. Loading never fails. */
module Config {
  import opened Values
  import opened AwsUtils

  /** The twelve configuration keys. */
  datatype Key =
    | Env | Region | AwsEndpoint | BedrockModelId | BedrockMock
    | UserPoolId | ClientId | ClientSecret | IdentityPoolId
    | CognitoUsername | CognitoPassword | ApiKey

  const AllKeys: set<Key> := {
    Env, Region, AwsEndpoint, BedrockModelId, BedrockMock, UserPoolId, ClientId,
    ClientSecret, IdentityPoolId, CognitoUsername, CognitoPassword, ApiKey}

  lemma AllKeysComplete()
    ensures forall k: Key :: k in AllKeys
  {
    forall k: Key ensures k in AllKeys {
      match k
      case Env => case Region => case AwsEndpoint => case BedrockModelId =>
      case BedrockMock => case UserPoolId => case ClientId => case ClientSecret =>
      case IdentityPoolId => case CognitoUsername => case CognitoPassword => case ApiKey =>
    }
  }

  /** The configuration mapping. */
  type Config = map<Key, Value>

  /** The dictionary key the service uses for `k`. */
  function Name(k: Key): string {
    match k
    case Env => "env"
    case Region => "region"
    case AwsEndpoint => "aws_endpoint"
    case BedrockModelId => "bedrock_model_id"
    case BedrockMock => "bedrock_mock"
    case UserPoolId => "user_pool_id"
    case ClientId => "client_id"
    case ClientSecret => "client_secret"
    case IdentityPoolId => "identity_pool_id"
    case CognitoUsername => "cognito_username"
    case CognitoPassword => "cognito_password"
    case ApiKey => "api_key"
  }

  /** The name `k` is read under, in the secret object and in the environment. */
  function SourceName(k: Key): string {
    match k
    case Env => "ENV"
    case Region => "REGION"
    case AwsEndpoint => "AWS_ENDPOINT"
    case BedrockModelId => "BEDROCK_MODEL_ID"
    case BedrockMock => "BEDROCK_MOCK"
    case UserPoolId => "USER_POOL_ID"
    case ClientId => "CLIENT_ID"
    case ClientSecret => "CLIENT_SECRET"
    case IdentityPoolId => "IDENTITY_POOL_ID"
    case CognitoUsername => "COGNITO_USERNAME"
    case CognitoPassword => "COGNITO_PASSWORD"
    case ApiKey => "API_KEY"
  }

  // The upper-case facts behind SourceNamesAreUpperCase, three per lemma to keep each proof small.
  lemma UpperCaseGeneral()
    ensures Upper("env") == "ENV" && Upper("region") == "REGION" && Upper("aws_endpoint") == "AWS_ENDPOINT"
  {
  }

  lemma UpperCaseBedrock()
    ensures Upper("bedrock_model_id") == "BEDROCK_MODEL_ID" && Upper("bedrock_mock") == "BEDROCK_MOCK"
    ensures Upper("api_key") == "API_KEY"
  {
  }

  lemma UpperCasePools()
    ensures Upper("user_pool_id") == "USER_POOL_ID" && Upper("identity_pool_id") == "IDENTITY_POOL_ID"
    ensures Upper("client_id") == "CLIENT_ID"
  {
  }

  lemma UpperCaseCognito()
    ensures Upper("client_secret") == "CLIENT_SECRET" && Upper("cognito_username") == "COGNITO_USERNAME"
    ensures Upper("cognito_password") == "COGNITO_PASSWORD"
  {
  }

  /** Every key is read under its own name in upper case. */
  lemma SourceNamesAreUpperCase()
    ensures forall k: Key :: SourceName(k) == Upper(Name(k))
  {
    UpperCaseGeneral();
    UpperCaseBedrock();
    UpperCasePools();
    UpperCaseCognito();
    forall k: Key ensures SourceName(k) == Upper(Name(k)) {
      match k
      case Env => case Region => case AwsEndpoint => case BedrockModelId =>
      case BedrockMock => case UserPoolId => case ClientId => case ClientSecret =>
      case IdentityPoolId => case CognitoUsername => case CognitoPassword => case ApiKey =>
    }
  }

  /** `_load_secrets`: project the secret's JSON object onto the twelve keys.
      `region` is the secret's REGION entry whenever that entry is present,
      even as null, and the bootstrap region otherwise; every other key is the
      entry under its own name in upper case, None when absent. A payload that
      is not an object has no `.get`, which raises. */
  function LoadSecrets(secrets: Value, region: Value): (r: Result<Config, Error>)
    ensures r.Ok? <==> secrets.Object?
    ensures r.Err? ==> r.error == AttributeError("get")
    ensures r.Ok? ==> r.value.Keys == AllKeys
    ensures r.Ok? ==> r.value[Region] == if "REGION" in secrets.fields then secrets.fields["REGION"] else region
    ensures r.Ok? ==> forall k: Key :: k != Region ==> k in r.value && r.value[k] == Get(secrets.fields, SourceName(k))
  {
    AllKeysComplete();
    match secrets
    case Object(s) =>
      Ok(map k | k in AllKeys ::
           if k == Region then (if "REGION" in s then s["REGION"] else region)
           else Get(s, SourceName(k)))
    case _ => Err(AttributeError("get"))
  }

  /** `_load_env_vars`: every key is the environment variable of its own name
      in upper case, None when unset. */
  function LoadEnvVars(env: map<string, string>): (r: Config)
    ensures r.Keys == AllKeys
    ensures forall k: Key :: k in r && r[k] == EnvGet(env, SourceName(k))
  {
    AllKeysComplete();
    map k | k in AllKeys :: EnvGet(env, SourceName(k))
  }

  /** The accessor `load_config` builds from the bootstrap variables: no identity pool. */
  function BootstrapAccessor(env: map<string, string>): (u: AwsUtils)
    ensures u.regionName == EnvGet(env, "REGION") && u.awsEndpointUrl == EnvGet(env, "AWS_ENDPOINT")
    ensures u.identityPoolId == Null && !Truthy(u.identityPoolId)
  {
    AwsUtils(EnvGet(env, "REGION"), EnvGet(env, "AWS_ENDPOINT"))
  }

  /** `load_config`, over the environment as it stands once `.env` is merged in.
      It never fails: any failure of the secret path, in the fetch or in the
      projection, gives the environment-variable configuration. */
  function LoadConfig(env: map<string, string>, svc: Services): (r: Config)
    ensures r.Keys == AllKeys
  {
    var secretName := EnvGet(env, "SECRET_NAME");
    var region := EnvGet(env, "REGION");
    match GetSecrets(BootstrapAccessor(env), secretName, svc).result
    case Ok(secrets) =>
      (match LoadSecrets(secrets, region)
       case Ok(config) => config
       case Err(_) => LoadEnvVars(env))
    case Err(_) => LoadEnvVars(env)
  }

  /** The configuration a secret-store object yields, with REGION taken from the environment. */
  lemma LoadConfigFromSecret(env: map<string, string>, svc: Services, text: string, fields: map<string, Value>)
    requires svc.secretString(PrimaryClient(BootstrapAccessor(env)), EnvGet(env, "SECRET_NAME")) == Ok(text)
    requires svc.jsonLoads(text) == Ok(Object(fields))
    ensures LoadConfig(env, svc) == LoadSecrets(Object(fields), EnvGet(env, "REGION")).value
  {
    PrimarySuccessSkipsPool(BootstrapAccessor(env), EnvGet(env, "SECRET_NAME"), svc);
  }

  /** `load_config` never takes the identity-pool fallback: the ambient fetch is its only remote call. */
  lemma LoadConfigSkipsPool(env: map<string, string>, svc: Services)
    ensures GetSecrets(BootstrapAccessor(env), EnvGet(env, "SECRET_NAME"), svc).calls ==
      [GetSecretValue(PrimaryClient(BootstrapAccessor(env)), EnvGet(env, "SECRET_NAME"))]
  {
  }

  /** Any failure of the ambient fetch, a malformed SecretString included, gives the environment configuration. */
  lemma LoadConfigFallsBack(env: map<string, string>, svc: Services)
    requires FetchWith(svc, PrimaryClient(BootstrapAccessor(env)), EnvGet(env, "SECRET_NAME")).Err?
    ensures LoadConfig(env, svc) == LoadEnvVars(env)
  {
  }

  /** A secret that parses to something other than an object gives the environment configuration. */
  lemma NonObjectSecretFallsBack(env: map<string, string>, svc: Services, payload: Value)
    requires FetchWith(svc, PrimaryClient(BootstrapAccessor(env)), EnvGet(env, "SECRET_NAME")) == Ok(payload)
    requires !payload.Object?
    ensures LoadConfig(env, svc) == LoadEnvVars(env)
  {
  }
}
