# Forced-JSON request rewrite and client set-up, verified

This project models the only self-contained logic of the integration-test
configuration of the commercial-event-notification API client
(`src/test/java/tests/utils/Config.java`):

- **`withJsonFormat`**: the URI rewrite done by the forced-JSON network
  interceptor. It appends a `Format=JSON` query parameter. The joining
  character is `&` when the URI already contains a `?` anywhere, and `?`
  otherwise. The test is a plain substring search (`String.contains`) and does
  not parse the URI: a `?` inside a fragment also selects `&`. Module
  `ForceJsonResponse` (`json_format.dfy`) defines the rewrite as a function
  (`JsonFormatted`). It also has an imperative method (`WithJsonFormat`) that
  builds the result on a string builder, as the source does, and is proved to
  return that function. Lemmas state its shape and what happens when it is
  applied more than once.
- **`setupApiClient`**: the client factory. Module `Config` (`config.dfy`)
  models the generated API client as a class with its base path, its
  debugging flag and its HTTP client's list of network interceptors.
  Interceptors are opaque tags. `SetupApiClient` is proved to set the base
  path, switch debugging on, and register exactly the caller's interceptor
  followed by the OAuth1 signer. An abstract request-chain model
  (`UrlReaching`) then shows that this order hands the signer the rewritten
  URL, so the signature covers the `Format=JSON` parameter.

`wrappers.dfy` holds the `Option` type used by the chain model.

## Model

| member | source | states |
|---|---|---|
| `ForceJsonResponse.Contains` | src/test/java/tests/utils/Config.java:91 | `String.contains` as a left-to-right search: a match needs a pattern no longer than the string, and the empty pattern is always found |
| `ForceJsonResponse.ContainsOccurs` | src/test/java/tests/utils/Config.java:91 | the search succeeds exactly when the pattern occurs in the string at some start index, in both directions |
| `ForceJsonResponse.ContainsSingleChar` | src/test/java/tests/utils/Config.java:91 | searching for the one-character string `"?"` succeeds exactly when the character `?` occurs somewhere in the string, in both directions |
| `ForceJsonResponse.Separator` | src/test/java/tests/utils/Config.java:91 | the joining character is `&` if and only if the URI contains `?`, and `?` if and only if it does not |
| `ForceJsonResponse.JsonFormatted` | src/test/java/tests/utils/Config.java:89-94 | the value `withJsonFormat` returns: it keeps the URI as its prefix and is exactly 12 characters longer |
| `ForceJsonResponse.JsonFormattedShape` | src/test/java/tests/utils/Config.java:89-94 | the rewritten URI starts with the original URI unchanged; the next character is `&` exactly when the URI held a `?` and `?` exactly when it did not; it ends with `Format=JSON`; it is 12 characters longer; and it always contains a `?` |
| `ForceJsonResponse.StringBuilder.constructor` | src/test/java/tests/utils/Config.java:90 | the builder starts out holding the original URI |
| `ForceJsonResponse.StringBuilder.Append` | src/test/java/tests/utils/Config.java:91-92 | appending adds the given text at the end and keeps everything already there |
| `ForceJsonResponse.WithJsonFormat` | src/test/java/tests/utils/Config.java:89-94 | building the result with a seeded builder and two appends returns exactly the rewrite described by `JsonFormatted`, so every property of `JsonFormattedShape` holds of it |
| `ForceJsonResponse.RewriteWithQuery` | src/test/java/tests/utils/Config.java:91-92 | for a URI that already holds a `?`, the rewrite only appends `&Format=JSON` |
| `ForceJsonResponse.SecondRewriteAppendsAmpersand` | src/test/java/tests/utils/Config.java:91-93 | rewriting twice equals rewriting once and then appending `&Format=JSON`, and it differs from rewriting once: the rewrite is not idempotent |
| `ForceJsonResponse.RepeatedRewrites` | src/test/java/tests/utils/Config.java:91-93 | after `n >= 1` rewrites the URI is the first rewrite followed by `n - 1` copies of `&Format=JSON` |
| `ForceJsonResponse.RepeatedRewritesLength` | src/test/java/tests/utils/Config.java:91-93 | `n` rewrites make the URI exactly `12 * n` characters longer |
| `Config.OkHttpClient.constructor` | src/test/java/tests/utils/Config.java:69 | the HTTP client that a new API client creates starts with no network interceptors |
| `Config.OkHttpClient.AddNetworkInterceptor` | src/test/java/tests/utils/Config.java:72-73 | adding a network interceptor appends it at the end of the list and leaves every earlier entry unchanged |
| `Config.ApiClient.constructor` | src/test/java/tests/utils/Config.java:69 | a new client has debugging off and a fresh HTTP client with no network interceptors |
| `Config.ApiClient.SetBasePath` | src/test/java/tests/utils/Config.java:70 | the base path becomes the given one; the debugging flag is unchanged |
| `Config.ApiClient.SetDebugging` | src/test/java/tests/utils/Config.java:71 | the debugging flag becomes the given value; the base path is unchanged |
| `Config.SetupApiClient` | src/test/java/tests/utils/Config.java:68-75 | the returned client is new, its base path is the sandbox end point, debugging is on, and its network interceptors are exactly the caller's interceptor at index 0 followed by the OAuth1 signer for the given consumer key and signing key at index 1 |
| `Config.Rewrite` | src/test/java/tests/utils/Config.java:82-86 | the forced-JSON interceptor passes on the URL it receives as a known URL, with that URL as its prefix and exactly 12 characters longer; after any other interceptor the URL is unknown |
| `Config.UrlReaching` | src/test/java/tests/utils/Config.java:72-73 | the URL handed to the interceptor at index `k` is known exactly when every earlier interceptor is the forced-JSON rewrite, and it is then the request URL rewritten `k` times. This assumes the HTTP library runs network interceptors in list order, each one receiving the request its predecessor passed on |
| `Config.UrlReachingIgnoresLater` | src/test/java/tests/utils/Config.java:72-73 | interceptors appended to the end of the list do not change the URL that any earlier interceptor is handed |
| `Config.SignerSeesRewrittenUrl` | src/test/java/tests/utils/Config.java:72-73 | when the forced-JSON rewrite and then the signer are appended to a chain that delivers a known URL `u` (a chain made only of rewrites), the signer sits right after the new rewrite and is handed `JsonFormatted(u)` |
| `Config.RewrittenUrlOnlyAfterOneRewrite` | src/test/java/tests/utils/Config.java:72-73 | the converse: in any chain, an interceptor is known to be handed the once-rewritten URL only if it sits at index 1 and the interceptor at index 0 is the forced-JSON rewrite; after an interceptor whose effect is unknown, no URL is known at all |
| `Config.OtherPositionsSeeOtherUrl` | src/test/java/tests/utils/Config.java:72-73 | in a chain made only of forced-JSON rewrites, every position other than index 1 is handed a known URL different from the once-rewritten one, so a signer registered first, or after two or more rewrites, would sign a different URL |
| `Config.SetupTestClient` | src/test/java/tests/SubscriptionApiTest.java:47-48 | the client each test class sets up, with the forced-JSON interceptor passed to the factory, has exactly two network interceptors, the signer second, and the signer is handed every request URL already rewritten |

## Left out

- The test classes `SubscriptionApiTest`, `NotificationApiTest` and `FieldMappingApiTest`: they only call the generated client against a live remote service and check its answers. Only their call to the factory is used, in `SetupTestClient`.
- OAuth1 request signing and PKCS12 key loading: these belong to an external signing library and use cryptography. The signer is an opaque tag, and a loaded key is an opaque handle (`SigningKey`).
- `ForceJsonResponseInterceptor.intercept` (Config.java:82-86): reading the request, building a new one and `proceed` are HTTP-library plumbing. `Rewrite` captures only its effect on the URL string. The model assumes that `URI.toString` and `Builder.url` hand the string through unchanged.
- The HTTP library's network-interceptor chain: the model assumes, as OkHttp documents, that network interceptors run in list order and each receives the request its predecessor passed on (`UrlReaching`). The chain itself is not modelled.
- The effect of any interceptor other than the forced-JSON rewrite is not modelled. Once a request passes one, `UrlReaching` reports the URL as unknown (`None`).
- The generated `ApiClient` is not part of this model. Its constructor is assumed to install no network interceptors and to leave debugging off. Its default base path is not stated. `setDebugging` is modelled as setting the flag only; any logging interceptor it installs is taken to sit in the application-interceptor list, which the model leaves out.
- Gson decoding of notification content, the clock-dependent notification dates (`LocalDateTime.now`), the random subscription-name suffixes (`Random.nextInt`), and the hard-coded credentials, pagination values and lookup strings: foreign libraries, nondeterminism, or bare constants. Only `BASE_PATH` is kept, because the factory uses it.
