/** The secret-store accessor of src/core/aws_utils.py: fetch a secret with the
    process's ambient credentials, and only when that fails and an identity
    pool is configured, retry with anonymous identity-pool credentials.
    The AWS services are not modelled; their answers are the `Services` input. */
module AwsUtils {
  import opened Values

  /** The accessor's three fields, fixed by `__init__`; the endpoint and the
      identity pool default to None. */
  datatype AwsUtils = AwsUtils(regionName: Value, awsEndpointUrl: Value := Null, identityPoolId: Value := Null)

  /** Temporary credentials as `get_credentials_for_identity` returns them. */
  datatype Credentials = Credentials(accessKeyId: string, secretKey: string, sessionToken: string)

  /** The Secrets Manager client a fetch goes through. */
  datatype SecretsClient =
    | AmbientClient(region: Value, endpoint: Value)
    | TemporaryClient(region: Value, creds: Credentials, endpoint: Value)

  /** One call to a remote service, in the order it is made. */
  datatype Call =
    | GetSecretValue(client: SecretsClient, secretId: Value)
    | GetId(region: Value, identityPoolId: Value)
    | GetCredentialsForIdentity(region: Value, identityId: string)

  /** What the remote services and `json.loads` answer. Each answer is either
      the value the source reads out of the response or the exception raised
      while obtaining it. */
  datatype Services = Services(
    secretString: (SecretsClient, Value) -> Result<string, Error>,
    jsonLoads: string -> Result<Value, Error>,
    getId: (Value, Value) -> Result<string, Error>,
    getCredentialsForIdentity: (Value, string) -> Result<Credentials, Error>)

  /** The outcome of `get_secrets` together with the remote calls it made. */
  datatype Fetch = Fetch(result: Result<Value, Error>, calls: seq<Call>)

  /** `get_secret_value` through `client`, then `json.loads` of its SecretString;
      a failure of either is the fetch's failure. */
  function FetchWith(svc: Services, client: SecretsClient, secretName: Value): Result<Value, Error> {
    match svc.secretString(client, secretName)
    case Err(e) => Err(e)
    case Ok(text) => svc.jsonLoads(text)
  }

  /** The client the first tier uses: ambient credentials, the configured endpoint as given. */
  function PrimaryClient(u: AwsUtils): SecretsClient {
    AmbientClient(u.regionName, u.awsEndpointUrl)
  }

  /** The client the identity-pool tier builds from `creds`: a falsy endpoint is passed on as None. */
  function FallbackClient(u: AwsUtils, creds: Credentials): SecretsClient {
    TemporaryClient(u.regionName, creds, if Truthy(u.awsEndpointUrl) then u.awsEndpointUrl else Null)
  }

  /** `_client_with_identity_pool_creds`: an anonymous identity from the pool,
      its temporary credentials, and a Secrets Manager client built from exactly
      those credentials. */
  function ClientWithIdentityPoolCreds(u: AwsUtils, svc: Services): (r: (Result<SecretsClient, Error>, seq<Call>))
    ensures var id := svc.getId(u.regionName, u.identityPoolId);
      && r.1 == (if id.Err? then [GetId(u.regionName, u.identityPoolId)]
                 else [GetId(u.regionName, u.identityPoolId), GetCredentialsForIdentity(u.regionName, id.value)])
      && (id.Err? ==> r.0 == Err(id.error))
    ensures var id := svc.getId(u.regionName, u.identityPoolId);
      id.Ok? ==>
        var creds := svc.getCredentialsForIdentity(u.regionName, id.value);
        r.0 == if creds.Err? then Err(creds.error) else Ok(FallbackClient(u, creds.value))
  {
    var getId := GetId(u.regionName, u.identityPoolId);
    match svc.getId(u.regionName, u.identityPoolId)
    case Err(e) => (Err(e), [getId])
    case Ok(identityId) =>
      var getCreds := GetCredentialsForIdentity(u.regionName, identityId);
      match svc.getCredentialsForIdentity(u.regionName, identityId)
      case Err(e) => (Err(e), [getId, getCreds])
      case Ok(creds) => (Ok(FallbackClient(u, creds)), [getId, getCreds])
  }

  /** The outcome a call hands back to `get_secrets` when it is the last call made:
      a secret fetch decides the result itself, an identity-pool step only by failing. */
  predicate DecidedBy(svc: Services, last: Call, result: Result<Value, Error>) {
    match last
    case GetSecretValue(client, secretId) => result == FetchWith(svc, client, secretId)
    case GetId(region, poolId) =>
      svc.getId(region, poolId).Err? && result == Err(svc.getId(region, poolId).error)
    case GetCredentialsForIdentity(region, identityId) =>
      svc.getCredentialsForIdentity(region, identityId).Err? &&
      result == Err(svc.getCredentialsForIdentity(region, identityId).error)
  }

  /** `get_secrets`: the two-tier fetch. The first call is always the ambient
      fetch; the identity pool is consulted exactly when that fails and a pool
      id is set; and the result is whatever the last call made decides, so a
      failed fallback surfaces its own error, not the original one. */
  function GetSecrets(u: AwsUtils, secretName: Value, svc: Services): (f: Fetch)
    ensures |f.calls| >= 1 && f.calls[0] == GetSecretValue(PrimaryClient(u), secretName)
    ensures |f.calls| > 1 <==>
      FetchWith(svc, PrimaryClient(u), secretName).Err? && Truthy(u.identityPoolId)
    ensures DecidedBy(svc, f.calls[|f.calls| - 1], f.result)
    ensures |f.calls| == 1 ==> f.result == FetchWith(svc, PrimaryClient(u), secretName)
    ensures |f.calls| > 1 ==>
      var pool := ClientWithIdentityPoolCreds(u, svc);
      && f.calls[1..] == pool.1 + (if pool.0.Ok? then [GetSecretValue(pool.0.value, secretName)] else [])
      && f.result == (if pool.0.Err? then Err(pool.0.error) else FetchWith(svc, pool.0.value, secretName))
  {
    var primaryCall := GetSecretValue(PrimaryClient(u), secretName);
    match FetchWith(svc, PrimaryClient(u), secretName)
    case Ok(secrets) => Fetch(Ok(secrets), [primaryCall])
    case Err(e) =>
      if !Truthy(u.identityPoolId) then Fetch(Err(e), [primaryCall])
      else
        var (client, poolCalls) := ClientWithIdentityPoolCreds(u, svc);
        match client
        case Err(e') => Fetch(Err(e'), [primaryCall] + poolCalls)
        case Ok(c) =>
          Fetch(FetchWith(svc, c, secretName), [primaryCall] + poolCalls + [GetSecretValue(c, secretName)])
  }

  /** A successful ambient fetch is returned as parsed, and the identity pool is never contacted. */
  lemma PrimarySuccessSkipsPool(u: AwsUtils, secretName: Value, svc: Services)
    requires FetchWith(svc, PrimaryClient(u), secretName).Ok?
    ensures GetSecrets(u, secretName, svc) ==
      Fetch(FetchWith(svc, PrimaryClient(u), secretName), [GetSecretValue(PrimaryClient(u), secretName)])
  {
  }

  /** Without an identity pool id, a failed ambient fetch re-raises its own error and nothing else is tried. */
  lemma NoPoolReraisesOriginal(u: AwsUtils, secretName: Value, svc: Services, e: Error)
    requires FetchWith(svc, PrimaryClient(u), secretName) == Err(e)
    requires !Truthy(u.identityPoolId)
    ensures GetSecrets(u, secretName, svc) == Fetch(Err(e), [GetSecretValue(PrimaryClient(u), secretName)])
  {
  }

  /** A SecretString that `json.loads` rejects is a primary failure like any other:
      with a pool id set, the next call is the identity-pool `get_id`. */
  lemma MalformedSecretTriggersFallback(u: AwsUtils, secretName: Value, svc: Services, text: string)
    requires svc.secretString(PrimaryClient(u), secretName) == Ok(text)
    requires svc.jsonLoads(text).Err?
    requires Truthy(u.identityPoolId)
    ensures var f := GetSecrets(u, secretName, svc);
      |f.calls| > 1 && f.calls[1] == GetId(u.regionName, u.identityPoolId)
  {
  }

  /** The identity-pool tier: `get_id` on the pool, `get_credentials_for_identity`
      for that identity, then a fetch through a client holding exactly those
      credentials, whose outcome is the result. */
  lemma FallbackCallOrder(u: AwsUtils, secretName: Value, svc: Services, identityId: string, creds: Credentials)
    requires FetchWith(svc, PrimaryClient(u), secretName).Err?
    requires Truthy(u.identityPoolId)
    requires svc.getId(u.regionName, u.identityPoolId) == Ok(identityId)
    requires svc.getCredentialsForIdentity(u.regionName, identityId) == Ok(creds)
    ensures var f := GetSecrets(u, secretName, svc);
      f.calls == [
        GetSecretValue(PrimaryClient(u), secretName),
        GetId(u.regionName, u.identityPoolId),
        GetCredentialsForIdentity(u.regionName, identityId),
        GetSecretValue(FallbackClient(u, creds), secretName)] &&
      f.result == FetchWith(svc, FallbackClient(u, creds), secretName)
  {
  }

  /** When the fallback runs and fails, its error surfaces and the ambient one is dropped. */
  lemma FallbackErrorSurfaces(u: AwsUtils, secretName: Value, svc: Services)
    requires FetchWith(svc, PrimaryClient(u), secretName).Err?
    requires Truthy(u.identityPoolId)
    requires GetSecrets(u, secretName, svc).result.Err?
    ensures var f := GetSecrets(u, secretName, svc);
      var id := svc.getId(u.regionName, u.identityPoolId);
      f.result.error == (
        if id.Err? then id.error
        else if svc.getCredentialsForIdentity(u.regionName, id.value).Err? then
          svc.getCredentialsForIdentity(u.regionName, id.value).error
        else FetchWith(svc, FallbackClient(u, svc.getCredentialsForIdentity(u.regionName, id.value).value), secretName).error)
  {
  }
}
