# Recommendation engine: configuration and credential resolution

This project models, in Dafny, how the recommendation engine's backend works
out its configuration and its inference client at startup, and how it gates
each request. It covers four steps:

- **Secret fetch** (`AwsUtils`, src/core/aws_utils.py). A secret is fetched
  from Secrets Manager with the process's ambient credentials. Only when that
  fails and an identity-pool id is set does the accessor retry. The retry gets
  an anonymous Cognito identity, exchanges it for temporary credentials and
  fetches again with exactly those credentials.
- **Configuration loading** (`Config`, src/core/config.py). The secret's JSON
  object is projected onto twelve configuration keys. If the fetch or the
  projection fails, the same twelve keys are read from the process environment
  instead. Loading never fails.
- **Startup** (`App`, src/main.py). The environment tag is the lower-cased
  `env` value, `"dev"` by default. It selects the local mock (`"local"`), the
  ambient-credential Bedrock client (`"dev"`) or the Cognito Bedrock client
  (any other tag). Each choice has its own list of required keys, and startup
  fails with a message naming every missing key.
- **Request gate** (`App`, src/main.py). The API key is checked first: 500 when
  no key is configured, 401 on a mismatch. A request that passes is refused
  with 500 if no model id is configured. Otherwise it is handed to the client
  built at startup.

The AWS services and `json.loads` are not modelled. Their answers are the
fields of a `Services` value. Each answer is either the data the code reads out
of the response or the exception raised while getting it. `GetSecrets` also
returns the sequence of remote calls it made, so the order of the calls and
their arguments can be stated.

Python values are modelled by `Values.Value`, a JSON-like datatype whose `Null`
stands for `None`. `Values.Truthy` is Python truthiness. The configuration is a
map from the twelve keys, a datatype `Config.Key`, to values. `Config.Name`
gives each key's dictionary spelling.

Three policies of the code are worth stating plainly, because they are easy
to misread:

- API gate. There is no open mode: when no API key is configured, every
  request is answered with 500, and so `VerifyApiKey` does.
- Required keys. A key counts as missing when its value is falsy, an empty
  string included, not only when it is absent, and so `MissingKeys` counts it.
- Identity-pool fallback. `load_config` builds its accessor without an
  identity-pool id, so configuration loading never takes the fallback; only an
  accessor given a pool id does.

## Model

| member | source | states |
|---|---|---|
| `AwsUtils.GetSecrets` | src/core/aws_utils.py:30-48 | The first call is always the ambient fetch. More calls are made exactly when that fetch (including `json.loads`) fails and the identity-pool id is truthy. With one call the result is the ambient fetch's. Otherwise the remaining calls are exactly the identity-pool steps followed, when they produced a client, by the fetch through it, and the result is that fetch's outcome or the failing step's error; the ambient error is dropped. |
| `AwsUtils.ClientWithIdentityPoolCreds` | src/core/aws_utils.py:12-28 | `get_id` on the pool comes first. `get_credentials_for_identity` follows only if `get_id` succeeded, and uses the identity id it returned. The client carries exactly the returned credentials, with a falsy endpoint passed on as None. The first failing step's error is the outcome. |
| `AwsUtils.PrimarySuccessSkipsPool` | src/core/aws_utils.py:31-36 | A successful ambient fetch returns the parsed SecretString, and the ambient fetch is the only call made. |
| `AwsUtils.NoPoolReraisesOriginal` | src/core/aws_utils.py:38-41 | When the ambient fetch fails and the pool id is falsy, the original error is re-raised and nothing else is tried. |
| `AwsUtils.MalformedSecretTriggersFallback` | src/core/aws_utils.py:31-40 | A SecretString that `json.loads` rejects counts as a primary failure. With a pool id set, the next call is `get_id`. |
| `AwsUtils.FallbackCallOrder` | src/core/aws_utils.py:12-28 | The fallback's calls are `get_id`, then `get_credentials_for_identity` for that identity, then a fetch through a client built from exactly those credentials. The fallback fetch's outcome is the result. |
| `AwsUtils.FallbackErrorSurfaces` | src/core/aws_utils.py:43-48 | When the fallback runs and fails, the error is the fallback's own, from whichever of its steps failed. The ambient error is dropped. |
| `Config.SourceNamesAreUpperCase` | src/core/config.py:11-49 | Every key is read under its own name in upper case, in the secret and in the environment. |
| `Config.LoadSecrets` | src/core/config.py:9-28 | An object payload yields exactly the twelve keys. `region` is the secret's REGION entry whenever present, null included, and the bootstrap region otherwise. Every other key is the entry under its upper-case name, None when absent. A non-object payload raises AttributeError. |
| `Config.LoadEnvVars` | src/core/config.py:30-49 | Exactly the twelve keys, each the environment variable of its upper-case name, None when unset. The key set is the same as `LoadSecrets`'. |
| `Config.BootstrapAccessor` | src/core/config.py:55-59 | The accessor takes its region and endpoint from the environment. Its identity-pool id is left at the constructor's None default. |
| `Config.LoadConfig` | src/core/config.py:51-67 | Loading never fails, and always yields exactly the twelve keys. |
| `Config.LoadConfigFromSecret` | src/core/config.py:56-64 | When the ambient fetch returns an object, the configuration is its projection, with the bootstrap REGION from the environment. |
| `Config.LoadConfigFallsBack` | src/core/config.py:61-67 | Any failure of the secret fetch, including a malformed SecretString, gives the environment configuration. |
| `Config.NonObjectSecretFallsBack` | src/core/config.py:61-67 | A secret that parses to a non-object makes the projection raise, which also gives the environment configuration. |
| `Config.LoadConfigSkipsPool` | src/core/config.py:59 | The accessor `load_config` builds never takes the identity-pool fallback: the ambient fetch is its only remote call. |
| `App.EnvTag` | src/main.py:16 | An absent or falsy `env` gives `"dev"`. A non-empty string gives its lower-case form. A truthy non-string raises AttributeError on `lower`. Any tag is non-empty and already lower case. |
| `App.MissingKeys` | src/main.py:19 | A key is in the missing list exactly when it was requested and its value is falsy. An empty string counts as missing. |
| `App.MissingKeysKeepsOrder` | src/main.py:19 | The missing list is a subsequence of the request, so it keeps the requested order. |
| `App.MissingKeysCounts` | src/main.py:19 | Each falsy key appears as often as it was requested, and each truthy key not at all. |
| `App.RequireKeys` | src/main.py:18-21 | Passes exactly when every requested key is truthy. Otherwise the RuntimeError message is the fixed prefix followed by the missing keys joined by `", "`. |
| `App.MessageNamesEach` | src/main.py:21 | The error message contains the name of every missing key. |
| `App.RequireKeysNamesEveryMissingKey` | src/main.py:18-21 | A failed check names every requested falsy key in its message, not just the first. |
| `App.Build` | src/main.py:27-39 | A client is built exactly when all of the strategy's required keys are truthy. It is of that strategy's kind, built from the truthy `region` and from `aws_endpoint`. The Cognito client also gets the whole configuration. Otherwise the error is the missing-keys message. |
| `App.SelectClient` | src/main.py:27-39 | The client built is of the kind the tag selects. |
| `App.LocalNeedsOnlyRegion` | src/main.py:27-29 | Tag `"local"` builds the local mock from `region` and `aws_endpoint` when `region` is truthy. Otherwise it fails naming only `region`. |
| `App.DevNeedsOnlyRegion` | src/main.py:30-32 | Tag `"dev"` builds the ambient-credential Bedrock client when `region` is truthy. Otherwise it fails naming only `region`. |
| `App.OtherTagsSelectCognito` | src/main.py:33-39 | Any other tag builds the Cognito client exactly when region, user_pool_id, client_id, identity_pool_id, cognito_username and cognito_password are all truthy. |
| `App.CognitoMissingTwoNamesBoth` | src/main.py:19-21 | Under the Cognito branch, with `client_id` and `cognito_password` unset, startup fails with a message naming both. |
| `App.Startup` | src/main.py:15-39 | Startup succeeds exactly when the tag lowers, every key the tag's client kind requires is truthy, and that client's constructor does not raise. A started server holds the loaded configuration, its tag, and the client built from them. A truthy non-string `env` fails with AttributeError (a falsy one gives `"dev"`), missing keys with the message naming all of them, and a raising constructor with its own error. The secret store never makes startup fail. |
| `App.VerifyApiKey` | src/main.py:46-51 | A falsy expected key gives 500 whatever key is presented, so there is no open mode. Otherwise the presented key passes exactly when it equals the expected one, and gets 401 exactly when it differs. |
| `App.GateAdmitsOneKey` | src/main.py:47-51 | At most one presented key passes the gate, and the empty key never does. |
| `App.HandleRecommendation` | src/main.py:60-68 | A gate failure is returned unchanged. A request that passes the gate is refused with 500 when `bedrock_model_id` is falsy. Otherwise it is delegated to the startup client with that model id. |
| `App.GateBeforeModelCheck` | src/main.py:62-66 | With no model id configured, an unset API key still yields the API_KEY 500 and a wrong key yields 401. The API-key check runs first. |

## Left out

- The boto3 calls (Secrets Manager, Cognito Identity, client construction) are foreign network calls. Their outcomes are inputs, the fields of `AwsUtils.Services`.
- `json.loads` is also an input (`Services.jsonLoads`). JSON numbers are modelled as integers only.
- `load_dotenv` and reading `.env` are file I/O. The environment is the map as it stands after `.env` has been merged in.
- The `print` logging in `load_config` is not modelled.
- `str.lower` and `str.upper` are modelled on ASCII letters only. Python's Unicode case mapping is not modelled.
- FastAPI machinery is not modelled: routing, the `X-API-Key` header extraction, the response it gives when the header is missing, the request and response models, and async handling. The gate takes the presented key as a string.
- The Bedrock client classes and `recommend_objective` are external inference code. A client is modelled by which kind it is and the arguments it is built from. A handled request is modelled by the client and model id it is delegated to.
- App.Startup: what the client constructors do (for the Cognito client, the user-pool login and the identity-pool exchange) is not modelled. Whether a constructor raises is the input `construct`, applied to the client `App.Build` describes.
- Temporary-credential expiry and refresh are not modelled, because the code does not handle them.
- Exceptions that are not `Exception` subclasses are not modelled. They would escape both `except Exception` clauses.
