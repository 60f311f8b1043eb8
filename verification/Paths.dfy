/** Request paths of the proxy and the key of the limiter map. */
module Paths {
  import opened ApiServer

  function TrimPrefix(path: string, prefix: string): string {
    if prefix <= path then path[|prefix|..] else path
  }

  /** The first slash, or the length. */
  function Slash(s: string): (i: nat)
    ensures i <= |s|
    ensures forall k :: 0 <= k < i ==> s[k] != '/'
    ensures i < |s| ==> s[i] == '/'
  {
    if s == [] || s[0] == '/' then 0 else 1 + Slash(s[1..])
  }

  /** parsePathSegments: the trimmed path split at its first slash. */
  function ParsePathSegments(path: string, prefix: string): Option<(string, string)> {
    var trimmed := TrimPrefix(path, prefix);
    var i := Slash(trimmed);
    if i == |trimmed| || i == 0 || i + 1 == |trimmed| then None
    else Some((trimmed[..i], trimmed[i + 1..]))
  }

  function Key(namespace: string, name: string): string {
    namespace + "/" + name
  }

  ghost predicate Segments(namespace: string, name: string) {
    namespace != "" && name != "" && '/' !in namespace
  }

  /** A path is accepted as (namespace, name) exactly when, trimmed, it spells the limiter key
      of a non-empty slash-free namespace and a non-empty name, slashes allowed. */
  lemma ParsedExactly(path: string, prefix: string, namespace: string, name: string)
    ensures ParsePathSegments(path, prefix) == Some((namespace, name))
            <==> Segments(namespace, name) && TrimPrefix(path, prefix) == Key(namespace, name)
  {
    var trimmed := TrimPrefix(path, prefix);
    var i := Slash(trimmed);
    if Segments(namespace, name) && trimmed == Key(namespace, name) {
      assert trimmed[|namespace|] == '/';
      assert forall k :: 0 <= k < |namespace| ==> trimmed[k] == namespace[k] && namespace[k] in namespace;
      assert i == |namespace|;
      assert trimmed[..i] == namespace && trimmed[i + 1..] == name;
    }
    if ParsePathSegments(path, prefix) == Some((namespace, name)) {
      assert trimmed == trimmed[..i] + [trimmed[i]] + trimmed[i + 1..];
    }
  }

  /** Building a path and parsing it gives the segments back. */
  lemma PathRoundTrip(prefix: string, namespace: string, name: string)
    requires Segments(namespace, name)
    ensures ParsePathSegments(prefix + Key(namespace, name), prefix) == Some((namespace, name))
  {
    var path := prefix + Key(namespace, name);
    assert path[|prefix|..] == Key(namespace, name);
    ParsedExactly(path, prefix, namespace, name);
  }

  /** An accepted path that carries the prefix rebuilds to itself. */
  lemma PathRebuilds(path: string, prefix: string)
    requires prefix <= path && ParsePathSegments(path, prefix).Some?
    ensures var (namespace, name) := ParsePathSegments(path, prefix).value;
            path == prefix + Key(namespace, name)
  {
    var (namespace, name) := ParsePathSegments(path, prefix).value;
    ParsedExactly(path, prefix, namespace, name);
    assert path == prefix + path[|prefix|..];
  }

  /** Two accepted requests share a bucket exactly when they name the same endpoint. */
  lemma SameKeySameEndpoint(path1: string, path2: string, prefix: string)
    requires ParsePathSegments(path1, prefix).Some? && ParsePathSegments(path2, prefix).Some?
    ensures var (ns1, n1), (ns2, n2) := ParsePathSegments(path1, prefix).value, ParsePathSegments(path2, prefix).value;
            Key(ns1, n1) == Key(ns2, n2) <==> ns1 == ns2 && n1 == n2
  {
    var (ns1, n1) := ParsePathSegments(path1, prefix).value;
    var (ns2, n2) := ParsePathSegments(path2, prefix).value;
    ParsedExactly(path1, prefix, ns1, n1);
    ParsedExactly(path2, prefix, ns2, n2);
    if Key(ns1, n1) == Key(ns2, n2) {
      ParsedExactly(path1, prefix, ns2, n2);
    }
  }
}
