/// Request signing for the exchange: the pre-hash string assembled from
/// timestamp, method, path, query and body, and its keyed signature.
///
/// HMAC-SHA256 (RFC 2104) and base64 (RFC 4648, section 4) are not
/// modelled: a signature is the value `Signed(secret, message)`, so equal
/// inputs give equal signatures and nothing else is assumed of the digest.
module Encryption {
  import opened Wrappers
  import opened Text

  /// base64(HMAC-SHA256(secret, message)), left uninterpreted.
  datatype Signature = Signed(secret: string, message: string)

  /// "?" followed by the query, only for a present, non-empty query.
  function QueryPart(query: Option<string>): (r: string)
    ensures query.None? || query.value == [] ==> r == []
    ensures query.Some? && query.value != [] ==> r == ['?'] + query.value
  {
    match query
    case Some(q) => if q != [] then ['?'] + q else []
    case None => []
  }

  /// The body, or nothing when there is none.
  function BodyPart(body: Option<string>): (r: string)
    ensures r == body.UnwrapOr([])
  {
    match body
    case Some(b) => b
    case None => []
  }

  /// The string that is signed: timestamp, upper-cased method, path, the
  /// query part and the body, in that order and with no separators.
  function PreHash(timestamp: string, httpMethod: string, path: string,
                   query: Option<string>, body: Option<string>): (r: string)
    ensures |r| == |timestamp| + |httpMethod| + |path| + |QueryPart(query)| + |BodyPart(body)|
    ensures r[..|timestamp|] == timestamp
    ensures r[|timestamp|..|timestamp| + |httpMethod|] == ToUpper(httpMethod)
    ensures r[|timestamp| + |httpMethod|..|timestamp| + |httpMethod| + |path|] == path
    ensures r[|r| - |BodyPart(body)|..] == BodyPart(body)
  {
    var head := timestamp + ToUpper(httpMethod);
    var withPath := head + path;
    var withQuery := withPath + QueryPart(query);
    assert withQuery[..|timestamp|] == timestamp;
    assert withQuery[|timestamp|..|timestamp| + |httpMethod|] == ToUpper(httpMethod);
    assert withQuery[|timestamp| + |httpMethod|..|timestamp| + |httpMethod| + |path|] == path;
    withQuery + BodyPart(body)
  }

  /// An absent query and an empty one sign the same string.
  lemma EmptyQueryIsNoQuery(timestamp: string, httpMethod: string, path: string, body: Option<string>)
    ensures PreHash(timestamp, httpMethod, path, None, body) == PreHash(timestamp, httpMethod, path, Some([]), body)
  {
  }

  /// An absent body and an empty one sign the same string.
  lemma EmptyBodyIsNoBody(timestamp: string, httpMethod: string, path: string, query: Option<string>)
    ensures PreHash(timestamp, httpMethod, path, query, None) == PreHash(timestamp, httpMethod, path, query, Some([]))
  {
  }

  /// The case of the method does not matter: "post" and "POST" sign alike.
  lemma MethodCaseIrrelevant(timestamp: string, m1: string, m2: string, path: string,
                             query: Option<string>, body: Option<string>)
    requires ToLower(m1) == ToLower(m2)
    ensures PreHash(timestamp, m1, path, query, body) == PreHash(timestamp, m2, path, query, body)
  {
    UpperIgnoresCase(m1, m2);
  }

  /// A non-empty query appears right after the path, behind a '?'.
  lemma QueryFollowsPath(timestamp: string, httpMethod: string, path: string,
                         q: string, body: Option<string>)
    requires q != []
    ensures var r := PreHash(timestamp, httpMethod, path, Some(q), body);
            var at := |timestamp| + |httpMethod| + |path|;
            r[at] == '?' && r[at + 1..at + 1 + |q|] == q
  {
    var r := PreHash(timestamp, httpMethod, path, Some(q), body);
    var at := |timestamp| + |httpMethod| + |path|;
    var head := timestamp + ToUpper(httpMethod) + path;
    assert r == head + (['?'] + q) + BodyPart(body);
    assert |head| == at;
  }

  /// `bitget_sign`: builds the pre-hash by successive appends, then signs
  /// it with the secret.
  method Sign(secret: string, timestamp: string, httpMethod: string, path: string,
              query: Option<string>, body: Option<string>) returns (sig: Signature)
    ensures sig == Signed(secret, PreHash(timestamp, httpMethod, path, query, body))
  {
    var prehash := "";
    prehash := prehash + timestamp;
    prehash := prehash + ToUpper(httpMethod);
    prehash := prehash + path;
    ghost var head := timestamp + ToUpper(httpMethod) + path;
    assert prehash == head;
    if query.Some? {
      var q := query.value;
      if q != [] {
        prehash := prehash + ['?'];
        prehash := prehash + q;
        assert prehash == head + (['?'] + q);
      }
    }
    ghost var withQuery := head + QueryPart(query);
    assert prehash == withQuery;
    if body.Some? {
      prehash := prehash + body.value;
    }
    assert prehash == withQuery + BodyPart(body);
    sig := Signed(secret, prehash);
  }
}
