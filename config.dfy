/** The test configuration's client factory: a fresh API client gets the
    service's base path, debugging switched on, and two network interceptors
    appended in order, the caller's interceptor (the forced-JSON rewrite in
    every test class) and then the OAuth1 request signer. The HTTP library runs
    network interceptors in list order (an assumption of this model, stated
    by `UrlReaching`), so the signer is handed the URL after the rewrite and
    the signature covers the `Format=JSON` parameter. */
module Config {
  import opened Wrappers
  import opened ForceJsonResponse

  /** The service end point every test talks to. */
  const BasePath: string := "https://sandbox.api.mastercard.com/commercial-event-notifications"

  /** A loaded private signing key, kept as an opaque handle. */
  datatype SigningKey = SigningKey(handle: nat)

  /** A network interceptor, as a tag: the forced-JSON rewrite, the OAuth1
      signer built from a consumer key and a signing key, or any other
      interceptor a caller might pass. */
  datatype Interceptor =
    | ForceJsonResponseInterceptor
    | OAuth1Signer(consumerKey: string, signingKey: SigningKey)
    | OtherInterceptor(name: string)

  /** The HTTP client inside an API client, reduced to its list of network
      interceptors. */
  class OkHttpClient {
    var networkInterceptors: seq<Interceptor>

    constructor ()
      ensures networkInterceptors == []
    {
      networkInterceptors := [];
    }

    /** `networkInterceptors().add(i)`: append at the end of the list. */
    method AddNetworkInterceptor(i: Interceptor)
      modifies this
      ensures networkInterceptors == old(networkInterceptors) + [i]
    {
      networkInterceptors := networkInterceptors + [i];
    }
  }

  /** The generated API client, reduced to the state the factory touches. */
  class ApiClient {
    var basePath: string
    var debugging: bool
    const httpClient: OkHttpClient

    /** A new client: debugging off and no network interceptors. Its built-in
        default base path is not part of this model. */
    constructor ()
      ensures !debugging
      ensures fresh(httpClient) && httpClient.networkInterceptors == []
    {
      basePath := "";
      debugging := false;
      httpClient := new OkHttpClient();
    }

    method SetBasePath(path: string)
      modifies this
      ensures basePath == path
      ensures debugging == old(debugging)
    {
      basePath := path;
    }

    method SetDebugging(on: bool)
      modifies this
      ensures debugging == on
      ensures basePath == old(basePath)
    {
      debugging := on;
    }
  }

  /** `setupApiClient`: a fresh client with the base path set, debugging on,
      and exactly two network interceptors, the caller's first and the OAuth1
      signer second. */
  method SetupApiClient(consumerKey: string, signingKey: SigningKey, interceptor: Interceptor)
    returns (client: ApiClient)
    ensures fresh(client) && fresh(client.httpClient)
    ensures client.basePath == BasePath
    ensures client.debugging
    ensures client.httpClient.networkInterceptors == [interceptor, OAuth1Signer(consumerKey, signingKey)]
  {
    client := new ApiClient();
    client.SetBasePath(BasePath);
    client.SetDebugging(true);
    client.httpClient.AddNetworkInterceptor(interceptor);
    client.httpClient.AddNetworkInterceptor(OAuth1Signer(consumerKey, signingKey));
  }

  /** What one interceptor does to the URL it passes on
      (`ForceJsonResponseInterceptor.intercept`). Only the forced-JSON rewrite
      is known here; past any other interceptor the URL is unknown. */
  function Rewrite(i: Interceptor, url: string): (r: Option<string>)
    ensures r.Some? <==> i == ForceJsonResponseInterceptor
    ensures r.Some? ==> |r.value| == |url| + 12 && r.value[..|url|] == url
  {
    match i
    case ForceJsonResponseInterceptor => Some(JsonFormatted(url))
    case _ => None
  }

  /** The URL handed to the interceptor at index `k` of `chain` when a request
      for `url` enters it (index `|chain|` is the request sent on the wire),
      or `None` once it has passed an interceptor whose effect is unknown.
      Network interceptors run in list order, each receiving the request its
      predecessor passed on. The URL is known exactly when every interceptor
      before `k` is the forced-JSON rewrite, and it is then `url` rewritten
      `k` times. */
  function UrlReaching(chain: seq<Interceptor>, k: nat, url: string): (r: Option<string>)
    requires k <= |chain|
    ensures r == if forall j :: 0 <= j < k ==> chain[j] == ForceJsonResponseInterceptor
                 then Some(RewrittenTimes(url, k)) else None
  {
    if k == 0 then Some(url)
    else match UrlReaching(chain, k - 1, url)
         case None => None
         case Some(u) => Rewrite(chain[k - 1], u)
  }

  /** Appending interceptors does not change what the earlier ones see. */
  lemma {:induction false} UrlReachingIgnoresLater(chain: seq<Interceptor>, later: seq<Interceptor>, k: nat, url: string)
    requires k <= |chain|
    ensures UrlReaching(chain + later, k, url) == UrlReaching(chain, k, url)
  {
    if k > 0 {
      UrlReachingIgnoresLater(chain, later, k - 1, url);
      assert (chain + later)[k - 1] == chain[k - 1];
    }
  }

  /** When the forced-JSON rewrite and then the signer are appended to a chain
      that delivers a known URL `u` (in this model, a chain made only of
      forced-JSON rewrites), the signer sits right after the new rewrite and is
      handed `JsonFormatted(u)`. */
  lemma SignerSeesRewrittenUrl(before: seq<Interceptor>, consumerKey: string, signingKey: SigningKey,
                               url: string, u: string)
    requires UrlReaching(before, |before|, url) == Some(u)
    ensures var chain := before + [ForceJsonResponseInterceptor, OAuth1Signer(consumerKey, signingKey)];
      chain[|before|] == ForceJsonResponseInterceptor &&
      chain[|before| + 1] == OAuth1Signer(consumerKey, signingKey) &&
      UrlReaching(chain, |before| + 1, url) == Some(JsonFormatted(u))
  {
  }

  /** The converse: an interceptor at index `j` of any chain is known to be
      handed the once-rewritten URL only if exactly one interceptor runs
      before it and that one is the forced-JSON rewrite. Past an interceptor
      whose effect is unknown the model knows no URL at all, so this does not
      say such a chain hands over a different one. */
  lemma RewrittenUrlOnlyAfterOneRewrite(chain: seq<Interceptor>, j: nat, url: string)
    requires j <= |chain|
    requires UrlReaching(chain, j, url) == Some(JsonFormatted(url))
    ensures j == 1 && chain[0] == ForceJsonResponseInterceptor
  {
    RepeatedRewritesLength(url, j);
  }

  /** In a chain made only of forced-JSON rewrites, every position other than
      index 1 is handed a known URL that differs from the once-rewritten one:
      a signer registered first, or after two or more rewrites, would sign a
      different URL from the one the single rewrite produces. */
  lemma OtherPositionsSeeOtherUrl(chain: seq<Interceptor>, j: nat, url: string)
    requires forall i :: 0 <= i < |chain| ==> chain[i] == ForceJsonResponseInterceptor
    requires j <= |chain| && j != 1
    ensures UrlReaching(chain, j, url).Some?
    ensures UrlReaching(chain, j, url).value != JsonFormatted(url)
  {
    RepeatedRewritesLength(url, j);
  }

  /** The set-up each test class runs before its tests
      (`setupApiClient(consumerKey, signingKey, new ForceJsonResponseInterceptor())`):
      the client it returns has two network interceptors, and the signer,
      second, is handed every request URL already rewritten. */
  method SetupTestClient(consumerKey: string, signingKey: SigningKey) returns (client: ApiClient)
    ensures fresh(client)
    ensures |client.httpClient.networkInterceptors| == 2
    ensures client.httpClient.networkInterceptors[1] == OAuth1Signer(consumerKey, signingKey)
    ensures forall url :: UrlReaching(client.httpClient.networkInterceptors, 1, url) == Some(JsonFormatted(url))
  {
    client := SetupApiClient(consumerKey, signingKey, ForceJsonResponseInterceptor);
  }
}
