/** How the receiving web server reads a request URL: the path, and the query string split
    into `key=value` pairs as PHP fills `$_GET` (percent-decoding and array keys are not
    modelled; see the README). */
module Urls {
  import opened Wrappers
  import opened Strings
  import opened Sequences

  /** A request as the server sees it: a path and its query parameters, in order. */
  datatype Url = Url(path: string, query: seq<(string, string)>)

  /** One `key=value` pair, split at the first `=`; a pair without `=` has an empty value. */
  function ParsePair(p: string): (kv: (string, string))
    ensures '=' !in p ==> kv == (p, "")
    ensures '=' in p ==> p == kv.0 + "=" + kv.1 && '=' !in kv.0
  {
    if '=' in p then
      var k := IndexOf(p, '=');
      assert p == p[..k] + "=" + p[k + 1..];
      (p[..k], p[k + 1..])
    else (p, "")
  }

  /** Each pair of an `&`-separated list. */
  function ParsePairs(fields: seq<string>): (r: seq<(string, string)>)
    ensures |r| == |fields| && forall i :: 0 <= i < |fields| ==> r[i] == ParsePair(fields[i])
  {
    seq(|fields|, i requires 0 <= i < |fields| => ParsePair(fields[i]))
  }

  /** A query string; the empty string holds no parameter. */
  function ParseQuery(q: string): seq<(string, string)> {
    if q == "" then [] else ParsePairs(Split(q, '&'))
  }

  /** Whether what follows the origin ends its authority (host and port) there: nothing,
      a path, a query string or a fragment. A backslash counts as `/` in an `http` URL.
      Anything else (`@evil.example/`, `0/` after a port) names another server. */
  predicate EndsAuthority(rest: string) {
    rest == [] || rest[0] in "/\\?#"
  }

  /** `s` up to its first `c`, or all of `s` when it has none. */
  function UpTo(s: string, c: char): (r: string)
    ensures c !in r && StartsWith(s, r)
    ensures c in s ==> s[|r|] == c
    ensures c !in s ==> r == s
  {
    if c in s then s[..IndexOf(s, c)] else s
  }

  /** A URL on the server whose origin is `origin`: the fragment (from the first `#`) is
      not sent; of the rest, what precedes the first `?` is the path and what follows it
      the query. `None` when the URL is not on that origin. */
  function Parse(url: string, origin: string): (r: Option<Url>)
    ensures r.Some? <==> StartsWith(url, origin) && EndsAuthority(url[|origin|..])
    ensures r.Some? ==> '?' !in r.value.path && '#' !in r.value.path
  {
    if !StartsWith(url, origin) || !EndsAuthority(url[|origin|..]) then None
    else
      var rest := UpTo(url[|origin|..], '#');
      if '?' in rest then
        var k := IndexOf(rest, '?');
        assert forall i :: 0 <= i < k ==> rest[..k][i] == rest[i];
        Some(Url(rest[..k], ParseQuery(rest[k + 1..])))
      else Some(Url(rest, []))
  }

  /** `$_GET[key]`: the value of the last pair with that key (a later pair overwrites). */
  function Get(query: seq<(string, string)>, key: string): (r: Option<string>)
    ensures r.Some? <==> exists i :: 0 <= i < |query| && query[i].0 == key
    ensures r.Some? ==> (key, r.value) in query
    ensures r.Some? ==> exists i :: 0 <= i < |query| && query[i] == (key, r.value)
                                    && forall j :: i < j < |query| ==> query[j].0 != key
  {
    if query == [] then None
    else
      var last := query[|query| - 1];
      if last.0 == key then Some(last.1)
      else
        var r := Get(query[..|query| - 1], key);
        assert forall i :: 0 <= i < |query| - 1 ==> query[..|query| - 1][i] == query[i];
        r
  }

  /** `remove_query_arg(key)`: the same request without any `key` pair, others kept in order. */
  function RemoveArg(u: Url, key: string): (r: Url)
    ensures r.path == u.path && Get(r.query, key).None?
    ensures forall kv :: kv in r.query <==> kv in u.query && kv.0 != key
  {
    var q := Filter(u.query, (kv: (string, string)) => kv.0 != key);
    assert forall i :: 0 <= i < |q| ==> q[i].0 != key by {
      forall i | 0 <= i < |q| ensures q[i].0 != key {
        assert q[i] in q;
      }
    }
    Url(u.path, q)
  }

  /** A query string made of one pair whose key has no `=` and whose value has no `&`. */
  lemma ParseSinglePair(key: string, value: string)
    requires '=' !in key && '&' !in key && '&' !in value
    ensures ParseQuery(key + "=" + value) == [(key, value)]
  {
    var q := key + "=" + value;
    assert '&' !in q by {
      assert forall i :: 0 <= i < |q| ==> q[i] == (if i < |key| then key[i] else if i == |key| then '=' else value[i - |key| - 1]);
    }
    SplitNoSeparator(q, '&');
    assert ParseQuery(q) == [ParsePair(q)];
    assert q[|key|] == '=';
    var k := IndexOf(q, '=');
    assert k == |key|;
    assert q[..k] == key && q[k + 1..] == value;
  }

  /** Parsing a list of fields distributes over concatenation. */
  lemma ParsePairsAppend(a: seq<string>, b: seq<string>)
    ensures ParsePairs(a + b) == ParsePairs(a) + ParsePairs(b)
  {
    assert forall i :: 0 <= i < |a + b| ==> (a + b)[i] == (if i < |a| then a[i] else b[i - |a|]);
  }

  /** Appending `&key=value` to a query string appends that one pair to the pairs of the
      query string's fields (an empty query string contributes one empty pair). */
  lemma ParseAppendedPair(q: string, key: string, value: string)
    requires '=' !in key && '&' !in key && '&' !in value
    ensures ParseQuery(q + ['&'] + (key + "=" + value)) == ParsePairs(Split(q, '&')) + [(key, value)]
  {
    var pair := key + "=" + value;
    var s := q + ['&'] + pair;
    assert s[|q|] == '&';
    SplitConcat(q, '&', pair);
    ParseSinglePair(key, value);
    assert pair[|key|] == '=';
    assert ParsePairs(Split(pair, '&')) == [(key, value)];
    ParsePairsAppend(Split(q, '&'), Split(pair, '&'));
  }

  /** A path in the sense of `Parse`: empty or starting with `/`, with no `?` and no `#`. */
  predicate PlainPath(path: string) {
    (path == [] || path[0] == '/') && '?' !in path && '#' !in path
  }

  /** A URL on `origin` with a plain path, followed by `?` and a query string without `#`. */
  lemma ParseWithQuery(origin: string, path: string, q: string)
    requires PlainPath(path) && '#' !in q
    ensures Parse(origin + path + ['?'] + q, origin) == Some(Url(path, ParseQuery(q)))
  {
    var url := origin + path + ['?'] + q;
    assert url[..|origin|] == origin;
    var rest := url[|origin|..];
    assert rest == path + ['?'] + q;
    assert rest[|path|] == '?';
    assert EndsAuthority(rest) by {
      if path != [] {
        assert rest[0] == path[0];
      }
    }
    assert UpTo(rest, '#') == rest;
    var k := IndexOf(rest, '?');
    assert k == |path|;
    assert rest[..k] == path;
    assert rest[k + 1..] == q;
  }

  /** A URL on `origin` with a plain path and no query string at all. */
  lemma ParseWithoutQuery(origin: string, path: string)
    requires PlainPath(path)
    ensures Parse(origin + path, origin) == Some(Url(path, []))
  {
    var url := origin + path;
    assert url[..|origin|] == origin;
    assert url[|origin|..] == path;
  }

  /** A fragment appended to a URL is not part of what the server reads. */
  lemma ParseDropsFragment(origin: string, rest: string, fragment: string)
    requires EndsAuthority(rest) && '#' !in rest && (fragment == [] || fragment[0] == '#')
    ensures Parse(origin + rest + fragment, origin) == Parse(origin + rest, origin)
  {
    var url, url' := origin + rest + fragment, origin + rest;
    assert url[..|origin|] == origin && url'[..|origin|] == origin;
    assert url[|origin|..] == rest + fragment;
    assert url'[|origin|..] == rest;
    assert EndsAuthority(rest + fragment) by {
      if rest != [] {
        assert (rest + fragment)[0] == rest[0];
      }
    }
    UpToFragment(rest, fragment);
  }

  /** Cutting at the first `#` removes exactly a fragment that follows a `#`-free string. */
  lemma UpToFragment(rest: string, fragment: string)
    requires '#' !in rest && (fragment == [] || fragment[0] == '#')
    ensures UpTo(rest + fragment, '#') == rest
  {
    if fragment != [] {
      assert (rest + fragment)[|rest|] == '#';
      var k := IndexOf(rest + fragment, '#');
      assert k >= |rest|;
      assert (rest + fragment)[..|rest|] == rest;
    } else {
      assert rest + fragment == rest;
    }
  }

  /** A pair appended with `&` to a URL's query string is what `$_GET` reads for its key. */
  lemma GetAppendedPair(origin: string, path: string, q: string, key: string, value: string)
    requires PlainPath(path) && '#' !in q && '#' !in key && '#' !in value
    requires '=' !in key && '&' !in key && '&' !in value
    ensures Parse(origin + path + ['?'] + (q + ['&'] + (key + "=" + value)), origin).Some?
    ensures Get(Parse(origin + path + ['?'] + (q + ['&'] + (key + "=" + value)), origin).value.query, key)
            == Some(value)
  {
    ParseWithQuery(origin, path, q + ['&'] + (key + "=" + value));
    ParseAppendedPair(q, key, value);
  }

  /** A URL on `origin` with the single pair `key=value` as its query string. */
  lemma ParseSingleQuery(origin: string, path: string, key: string, value: string)
    requires PlainPath(path) && '#' !in key && '#' !in value
    requires '=' !in key && '&' !in key && '&' !in value
    ensures Parse(origin + path + ['?'] + (key + "=" + value), origin) == Some(Url(path, [(key, value)]))
    ensures Get([(key, value)], key) == Some(value)
  {
    ParseWithQuery(origin, path, key + "=" + value);
    ParseSinglePair(key, value);
  }
}
