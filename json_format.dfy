/** The URI rewrite done by the forced-JSON network interceptor: every outgoing
    request URI gets one more query parameter, `Format=JSON`, joined with `&`
    when the URI already holds a `?` and with `?` otherwise. The test for `?`
    is a plain substring search over the whole string; it does not parse the
    URI, so a `?` inside a fragment also selects `&`. */
module ForceJsonResponse {

  /** The query parameter that asks the service for a JSON response body. */
  const FormatParam: string := "Format=JSON"

  /** `t` occurs in `s` as a contiguous substring (Java's `String.contains`),
      found by trying each start position from the left. */
  predicate Contains(s: string, t: string)
    ensures Contains(s, t) ==> |t| <= |s|
    ensures |t| == 0 ==> Contains(s, t)
    decreases |s|
  {
    if |s| < |t| then false
    else s[..|t|] == t || Contains(s[1..], t)
  }

  /** `t` occurs in `s` starting at index `i`. */
  predicate OccursAt(s: string, t: string, i: int)
  {
    0 <= i <= |s| - |t| && s[i..i + |t|] == t
  }

  /** The left-to-right search succeeds exactly when `t` occurs in `s` at
      some start index. */
  lemma {:induction false} ContainsOccurs(s: string, t: string)
    ensures Contains(s, t) <==> exists i :: OccursAt(s, t, i)
    decreases |s|
  {
    if |s| >= |t| {
      assert OccursAt(s, t, 0) <==> s[..|t|] == t;
    }
    if |s| >= |t| && |s| > 0 {
      ContainsOccurs(s[1..], t);
      forall i | OccursAt(s[1..], t, i)
        ensures OccursAt(s, t, i + 1)
      {
        assert s[1..][i..i + |t|] == s[i + 1..i + 1 + |t|];
      }
      forall i | OccursAt(s, t, i) && i > 0
        ensures OccursAt(s[1..], t, i - 1)
      {
        assert s[1..][i - 1..i - 1 + |t|] == s[i..i + |t|];
      }
    }
  }

  /** Searching for a one-character string is the same as asking whether that
      character occurs anywhere in `s`. */
  lemma {:induction false} ContainsSingleChar(s: string, c: char)
    ensures Contains(s, [c]) <==> c in s
    decreases |s|
  {
    if |s| >= 1 {
      ContainsSingleChar(s[1..], c);
      assert s == [s[0]] + s[1..];
      assert s[..1] == [s[0]];
    }
  }

  /** The character placed between the URI and `Format=JSON`. */
  function Separator(uri: string): (c: char)
    ensures c == '&' <==> '?' in uri
    ensures c == '?' <==> '?' !in uri
  {
    ContainsSingleChar(uri, '?');
    if Contains(uri, "?") then '&' else '?'
  }

  /** What `withJsonFormat` returns for `uri`. */
  function JsonFormatted(uri: string): (r: string)
    ensures |r| == |uri| + 12
    ensures r[..|uri|] == uri
  {
    uri + [Separator(uri)] + FormatParam
  }

  /** The rewrite keeps `uri` as a prefix, follows it with `&` exactly when
      `uri` already holds a `?` (and with `?` otherwise), ends with
      `Format=JSON`, is 12 characters longer, and always holds a `?`. */
  lemma JsonFormattedShape(uri: string)
    ensures |JsonFormatted(uri)| == |uri| + 12
    ensures JsonFormatted(uri)[..|uri|] == uri
    ensures JsonFormatted(uri)[|uri|] == '&' <==> '?' in uri
    ensures JsonFormatted(uri)[|uri|] == '?' <==> '?' !in uri
    ensures JsonFormatted(uri)[|uri| + 1..] == FormatParam
    ensures '?' in JsonFormatted(uri)
  {
  }

  /** Java's `StringBuilder`, reduced to the two operations the rewrite uses:
      seeding it with a string and appending to its end. */
  class StringBuilder {
    var chars: string

    constructor (init: string)
      ensures chars == init
    {
      chars := init;
    }

    method Append(s: string)
      modifies this
      ensures chars == old(chars) + s
    {
      chars := chars + s;
    }
  }

  /** `withJsonFormat`: the rewrite built step by step on a string builder. */
  method WithJsonFormat(uri: string) returns (r: string)
    ensures r == JsonFormatted(uri)
  {
    var newUri := new StringBuilder(uri);
    newUri.Append(if Contains(uri, "?") then "&" else "?");
    newUri.Append(FormatParam);
    r := newUri.chars;
  }

  /** Once the URI holds a `?`, a rewrite only appends `&Format=JSON`. */
  lemma RewriteWithQuery(uri: string)
    requires '?' in uri
    ensures JsonFormatted(uri) == uri + "&" + FormatParam
  {
  }

  /** Two rewrites in a row: the second one always joins with `&` (the first
      one left a `?` behind), so the result gains a second `Format=JSON`
      parameter and the rewrite is not idempotent. */
  lemma SecondRewriteAppendsAmpersand(uri: string)
    ensures JsonFormatted(JsonFormatted(uri)) == JsonFormatted(uri) + "&" + FormatParam
    ensures JsonFormatted(JsonFormatted(uri)) != JsonFormatted(uri)
  {
  }

  /** `uri` rewritten `n` times in a row, as happens when the interceptor is
      registered more than once. */
  function RewrittenTimes(uri: string, n: nat): string
  {
    if n == 0 then uri else JsonFormatted(RewrittenTimes(uri, n - 1))
  }

  /** `s` written out `k` times one after the other. */
  function Repeat(s: string, k: nat): (r: string)
    ensures |r| == k * |s|
  {
    if k == 0 then [] else Repeat(s, k - 1) + s
  }

  /** After `n >= 1` rewrites the URI is the first rewrite followed by
      `n - 1` copies of `&Format=JSON`. */
  lemma {:induction false} RepeatedRewrites(uri: string, n: nat)
    requires n >= 1
    ensures RewrittenTimes(uri, n) == JsonFormatted(uri) + Repeat("&" + FormatParam, n - 1)
  {
    if n > 1 {
      var amp := "&" + FormatParam;
      var first := JsonFormatted(uri);
      var rest := Repeat(amp, n - 2);
      var prev := RewrittenTimes(uri, n - 1);
      RepeatedRewrites(uri, n - 1);
      assert prev == first + rest;
      JsonFormattedShape(uri);
      assert '?' in first + rest;
      RewriteWithQuery(prev);
      assert first + rest + amp == first + (rest + amp);
    }
  }

  /** Each rewrite adds exactly 12 characters. */
  lemma RepeatedRewritesLength(uri: string, n: nat)
    ensures |RewrittenTimes(uri, n)| == |uri| + 12 * n
  {
  }
}
