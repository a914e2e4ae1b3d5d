# go-force session core, modelled in Dafny

This project models the session core of `go-force`, a Go client for the force.com REST API (`force/force.go`). It is one Dafny module, `Force`, in `force.dfy`.

**Construction.** The three entry points are `Create` (password grant), `CreateWithAccessToken` (pre-issued token) and `CreateWithRefreshToken` (refresh grant). Each one:

- allocates a `ForceApi` with empty resource, SObject and SObject-description maps, the credential record and the API version;
- then runs a fixed sequence of steps, returning no session and the step's error at the first failure.

The step bodies (`Authenticate`, `RefreshToken`, `Validate`, `getApiResources`, `getApiSObjects`) are not part of this model. What each step answers is a parameter, `Remote`: a token, an error, or a listing. `Authenticate` and `Validate` are methods of the credential record, so their answers depend on it alone. `RefreshToken` and the two listings are methods of the `ForceApi`, so their answers may depend on the whole session as it stands when they run, including a resource map that an earlier listing filled.

The model has three layers:

- `Apply` gives the effect of one step on the session value.
- `Run` runs a plan of steps in order and stops at the first failure. It records which steps ran.
- The three constructors are straight-line methods over a `ForceApi` object. A `Service` object stands for the remote end and keeps a ghost record, `calls`, of every step any `ForceApi` performs against it. Each constructor is proved to match what `Run` gives for its plan, on success and on failure alike:
  - the calls it adds to the service are exactly the steps `Run` ran, so nothing runs after a failed step and no step outside the plan runs on any object;
  - the result is either the finished session with no error, or no session with the failing step's error, unchanged.

**Tracing.** `TraceOn`, `TraceOff` and `trace` (`ForceApi.Trace` here) are methods that update the `logger` and `logPrefix` fields in place. A `Logger` object records the lines it is given.

## Model

| member | source | states |
|---|---|---|
| `Force.ForceApi.constructor` | force/force.go:34-40 | a fresh ForceApi holds the given version and credentials, empty resource/SObject/description maps, no logger and an empty prefix |
| `Force.Apply` | force/force.go:42-56 | a successful step never changes the version, the description cache or the credential fields; only token steps change the token, only getApiResources/getApiSObjects change their map, and each replaces it wholesale with what the service listed; Validate succeeds exactly when validation reports no error |
| `Force.PasswordCredentials` | force/force.go:24-32 | the password-flow credential record holds the seven given fields, with the token and instance URL at Go's zero value "" |
| `Force.TokenCredentials` | force/force.go:62-66 | the access- and refresh-token credential record holds the given client id, token and instance URL, with every other credential field "" |
| `Force.Run` | force/force.go:42-58 | the steps that ran are a prefix of the plan; the first step always runs; success means every step ran; a failed run ran at least one step |
| `Force.RunFailure` | force/force.go:42-56 | a failed run failed at the last step it ran: every step before it succeeded, and that step, applied to the session they left, returned exactly the error of the run |
| `Force.ForceApi.Perform` | force/force.go:43-55 | one step on the object, appended to the service's record of calls: on success the session becomes the step's result; on failure the error is returned unchanged and the session is untouched; the trace fields never change |
| `Force.Create` | force/force.go:22-59 | adds to the service's calls exactly the steps of running Authenticate, getApiResources, getApiSObjects in order up to the first error; returns a fresh fully listed session and no error, or no session and that step's error |
| `Force.CreateWithAccessToken` | force/force.go:61-92 | adds to the service's calls exactly the steps of running Validate, getApiResources, getApiSObjects in order up to the first error, with the same no-partial-session result |
| `Force.CreateWithRefreshToken` | force/force.go:94-130 | adds to the service's calls exactly the steps of running RefreshToken, Validate, getApiResources, getApiSObjects in order up to the first error, with the same no-partial-session result |
| `Force.RunSplit` | force/force.go:109-129 | running plan p then q is running p, followed by q only if p succeeded, with the steps that ran concatenated |
| `Force.RunKeepsCredentials` | force/force.go:24-40 | no plan changes the API version, the credential fields or the description cache; a plan without token steps leaves the credential record exactly as passed |
| `Force.NeverRunsOutsidePlan` | force/force.go:76-91 | a step that is not in a plan never runs |
| `Force.FirstFailureStops` | force/force.go:42-46 | if the first step fails, only it ran and its error is the result |
| `Force.AuthenticateFailureStopsCreate` | force/force.go:42-46 | in Create a failed Authenticate is the whole outcome: no listing runs and its error is returned |
| `Force.AccessTokenNeverContactsTokenEndpoint` | force/force.go:76-91 | CreateWithAccessToken never runs Authenticate or RefreshToken |
| `Force.RefreshTokenRunsFirst` | force/force.go:109-117 | CreateWithRefreshToken runs RefreshToken first and no other token step; if the refresh fails, Validate and both listings are skipped |
| `Force.RefreshThenAccessToken` | force/force.go:109-129 | CreateWithRefreshToken is the refresh followed by exactly the CreateWithAccessToken steps, run on the refreshed credentials, only if the refresh succeeded |
| `Force.SObjectsOnlyAfterResources` | force/force.go:48-56 | for any plan ending in the two listings, getApiSObjects runs if and only if everything up to and including getApiResources succeeded |
| `Force.ReadySessionHoldsListings` | force/force.go:48-58 | a finished session holds exactly the resource map listed for the session the earlier steps left, and the SObject map listed for that session once its resource map was filled; the credentials are those the earlier steps left |
| `Force.PasswordScenario` | force/force.go:22-58 | password flow against a service issuing token "tok1" and listing `sobjects`: the session has that token and instance URL and exactly that resource map |
| `Force.LogPrefix` | force/force.go:159-163 | the stored prefix is empty exactly when the given one is; otherwise it ends in one space, and dropping that space gives back the given prefix |
| `Force.ForceApi.TraceOn` | force/force.go:157-164 | sets the logger to the one given, even when it is nil, and the prefix to its normalised form; the session is untouched |
| `Force.ForceApi.TraceOff` | force/force.go:166-170 | clears the logger and the prefix, which is the fresh trace state, whatever they were before (hence idempotent); the session is untouched |
| `Force.Logger.Printf` | force/force.go:143-145 | a logger call appends exactly one line to what the logger has recorded |
| `Force.ForceApi.Trace` | force/force.go:172-177 | with a logger, exactly one line `prefix + name + " " + value + "\n"` is appended; without one, nothing is modified |
| `Force.TraceLine` | force/force.go:174-175 | the logged line is the prefix, then the name, one space, the value and a closing newline: its length is the sum of the parts plus two, it starts with the prefix, has a space right after the name and ends in a newline |
| `Force.TraceLineRoundTrip` | force/force.go:174-175 | a trace line parses back to its field name and value when the name has no space |
| `Force.TraceRequestExample` | force/force.go:157-177 | TraceOn("REQ", l) followed by tracing `method`/`GET` logs exactly `"REQ method GET\n"` |
| `Force.TraceOffSilences` | force/force.go:157-177 | after TraceOn and then TraceOff, tracing logs nothing, whatever the prefix |

## Left out

- The bodies of `Authenticate`, `RefreshToken`, `Validate`, `getApiResources` and `getApiSObjects` are not part of this model: they do HTTP and JSON work. `Remote` supplies their answers. Each answer is a total function of the credentials (for `Authenticate` and `Validate`) or of the whole session (for `RefreshToken` and the listings), so the model is deterministic.
- `Validate`'s actual checks (for example, rejecting an empty token or instance URL) are not modelled. The model only says that `Validate` runs and that its error is passed through.
- A token step on success is modelled as setting the access token and instance URL from the token response. Any other fields the real step decodes are not modelled.
- A failing step is modelled as leaving the session unchanged. Whatever the real body leaves behind cannot be observed, because the constructor discards the session.
- The post-construction `RefreshToken` operation and the lazy entity-description cache are not part of this model. Neither body is in `force/force.go`; only the empty description map they start from is modelled.
- The forceOauth record is held by value in the session, not behind a pointer. No other object holds it, so nothing is lost by this.
- `createTest` and the test constants (force/force.go:11-20, 133-141) are test setup that exits the process; they are not modelled.
- Force.ForceApi.Trace: takes the value already formatted. Go's `fmt` rendering of an arbitrary `interface{}` value under `format` is not modelled, including the `%!v(MISSING)`-style output when `format` does not have exactly one verb.
- Force.Logger.Printf: receives the finished line rather than a format string and arguments.
- Errors are one opaque `Error` value, passed through unchanged. The source does not distinguish authentication, validation and catalogue errors by type; it returns each step's `error` as is, and the model follows the code.
- There is no concurrency. The code takes no locks, and the model is sequential.
