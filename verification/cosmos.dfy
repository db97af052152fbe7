/**
 * `get_cosmos_aad_authorization`: the `Authorization` header value for an
 * Entra ID token, `type=aad&ver=<version>&sig=<token>` form-URL-encoded.
 * The identity provider is a parameter: it maps a scope to a token, or to
 * `None` when `get_token` raises.
 */
module Authorization {
  import opened Outcomes
  import opened Errors
  import FormEncoding

  const KeyType: string := "aad"
  const DefaultTokenVersion: string := "1.0"

  /** The scope the token is requested for. */
  function Scope(account: string): (r: string)
    ensures |r| == |account| + 37
    ensures r[..8] == "https://" && r[8..8 + |account|] == account
    ensures r[8 + |account|..] == ".documents.azure.com/.default"
  {
    "https://" + account + ".documents.azure.com/.default"
  }

  /** The value before encoding. */
  function Composed(version: string, token: string): (r: string)
    ensures |r| == |version| + |token| + 18
    ensures r[..13] == "type=aad&ver=" && r[13..13 + |version|] == version
    ensures r[13 + |version|..18 + |version|] == "&sig=" && r[18 + |version|..] == token
  {
    "type=" + KeyType + "&ver=" + version + "&sig=" + token
  }

  /**
   * When `get_token` raises, the exception is printed and swallowed, and the
   * composition then reads the unbound `signature`: the call aborts and no
   * value is returned.
   */
  function GetAuthorization(account: string, version: string, tokenFor: string -> Option<string>): (r: Result<string, Error>)
    ensures r.Success? <==> tokenFor(Scope(account)).Some?
    ensures r.Failure? ==> r.error == AuthenticationError
    ensures r.Success? ==>
      FormEncoding.UnquotePlus(r.value) == Some("type=aad&ver=" + version + "&sig=" + tokenFor(Scope(account)).value)
    ensures r.Success? ==> '&' !in r.value && '=' !in r.value && ' ' !in r.value
  {
    match tokenFor(Scope(account))
    case None => Failure(AuthenticationError)
    case Some(token) =>
      assert Composed(version, token) == "type=aad&ver=" + version + "&sig=" + token;
      FormEncoding.UnquoteQuotePlus(Composed(version, token));
      Success(FormEncoding.QuotePlus(Composed(version, token)))
  }

  /**
   * A token made only of unreserved characters (letters, digits, `_.-~`,
   * as in a base64url JWT without its dots) appears in the header verbatim
   * after the encoded prefix.
   */
  lemma EncodedSignatureVerbatim(version: string, token: string)
    requires forall i :: 0 <= i < |token| ==> FormEncoding.Unreserved(token[i] as int)
    requires forall i :: 0 <= i < |version| ==> FormEncoding.Unreserved(version[i] as int)
    ensures FormEncoding.QuotePlus(Composed(version, token)) == "type%3Daad%26ver%3D" + version + "%26sig%3D" + token
  {
    var prefix, middle := "type=aad&ver=", "&sig=";
    calc {
      FormEncoding.QuotePlus(Composed(version, token));
    == { assert Composed(version, token) == prefix + version + middle + token; }
      FormEncoding.QuotePlus(prefix + version + middle + token);
    == { FormEncoding.QuotePlusConcat(prefix + version + middle, token); }
      FormEncoding.QuotePlus(prefix + version + middle) + FormEncoding.QuotePlus(token);
    == { FormEncoding.QuotePlusConcat(prefix + version, middle); }
      FormEncoding.QuotePlus(prefix + version) + FormEncoding.QuotePlus(middle) + FormEncoding.QuotePlus(token);
    == { FormEncoding.QuotePlusConcat(prefix, version); }
      FormEncoding.QuotePlus(prefix) + FormEncoding.QuotePlus(version) + FormEncoding.QuotePlus(middle) + FormEncoding.QuotePlus(token);
    == { EncodedPrefix(); EncodedMiddle(); FormEncoding.QuotePlusUnreserved(version); FormEncoding.QuotePlusUnreserved(token); }
      "type%3Daad%26ver%3D" + version + "%26sig%3D" + token;
    }
  }

  lemma EncodedPrefix()
    ensures FormEncoding.QuotePlus("type=aad&ver=") == "type%3Daad%26ver%3D"
  {
    PrefixPieces();
    FormEncoding.QuotePlusConcat("type=" + "aad&", "ver=");
    FormEncoding.QuotePlusConcat("type=", "aad&");
    EncodedType();
    EncodedKeyType();
    EncodedVersionKey();
  }

  lemma PrefixPieces()
    ensures "type=aad&ver=" == "type=" + "aad&" + "ver="
    ensures "type%3Daad%26ver%3D" == "type%3D" + "aad%26" + "ver%3D"
  {
  }

  lemma EncodedType()
    ensures FormEncoding.QuotePlus("type=") == "type%3D"
  {
  }

  lemma EncodedKeyType()
    ensures FormEncoding.QuotePlus("aad&") == "aad%26"
  {
  }

  lemma EncodedVersionKey()
    ensures FormEncoding.QuotePlus("ver=") == "ver%3D"
  {
  }

  lemma EncodedMiddle()
    ensures FormEncoding.QuotePlus("&sig=") == "%26sig%3D"
  {
  }
}

/** The collection's document-feed URL, built the same way by both scripts. */
module CosmosUrl {
  import opened Outcomes

  const HostSuffix: string := ".documents.azure.com:443"

  function DocsUrl(account: string, database: string, collection: string): (r: string)
    ensures |r| == |account| + |database| + |collection| + 49
    ensures r[..8] == "https://" && r[8..8 + |account|] == account
    ensures r[8 + |account|..37 + |account|] == HostSuffix + "/dbs/"
    ensures r[|r| - 5..] == "/docs"
  {
    "https://" + account + HostSuffix + "/dbs/" + database + "/colls/" + collection + "/docs"
  }

  /** `s.split("/")`. */
  function Split(s: string): (parts: seq<string>)
    ensures |parts| >= 1
  {
    if s == [] then [""]
    else
      var rest := Split(s[1..]);
      if s[0] == '/' then [""] + rest else [[s[0]] + rest[0]] + rest[1..]
  }

  lemma {:induction false} SplitNoSlash(a: string)
    requires '/' !in a
    ensures Split(a) == [a]
  {
    if a != [] {
      SplitNoSlash(a[1..]);
      assert [a[0]] + a[1..] == a;
    }
  }

  lemma {:induction false} SplitSegment(a: string, b: string)
    requires '/' !in a
    ensures Split(a + "/" + b) == [a] + Split(b)
  {
    if a == [] {
      assert a + "/" + b == "/" + b;
      assert ("/" + b)[1..] == b;
    } else {
      var s := a + "/" + b;
      assert s[1..] == a[1..] + "/" + b;
      SplitSegment(a[1..], b);
      assert [a[0]] + a[1..] == a;
    }
  }

  /** The account, database and collection a document-feed URL names. */
  function ParseDocsUrl(url: string): Option<(string, string, string)>
  {
    var parts := Split(url);
    if |parts| == 8 && parts[0] == "https:" && parts[1] == "" && parts[3] == "dbs"
       && parts[5] == "colls" && parts[7] == "docs"
       && |parts[2]| >= |HostSuffix| && parts[2][|parts[2]| - |HostSuffix|..] == HostSuffix
    then Some((parts[2][..|parts[2]| - |HostSuffix|], parts[4], parts[6]))
    else None
  }

  /** `"/".join(parts)`. */
  function Join(parts: seq<string>): string
    requires |parts| >= 1
  {
    if |parts| == 1 then parts[0] else parts[0] + "/" + Join(parts[1..])
  }

  lemma {:induction false} SplitJoin(parts: seq<string>)
    requires |parts| >= 1
    requires forall i :: 0 <= i < |parts| ==> '/' !in parts[i]
    ensures Split(Join(parts)) == parts
  {
    if |parts| == 1 {
      SplitNoSlash(parts[0]);
    } else {
      SplitJoin(parts[1..]);
      SplitSegment(parts[0], Join(parts[1..]));
      assert [parts[0]] + parts[1..] == parts;
    }
  }

  lemma PathIsJoin(database: string, collection: string)
    ensures Join(["dbs", database, "colls", collection, "docs"]) ==
      "dbs/" + database + "/colls/" + collection + "/docs"
  {
    var parts := ["dbs", database, "colls", collection, "docs"];
    assert Join(parts[4..]) == "docs";
    assert Join(parts[3..]) == collection + "/docs";
    assert Join(parts[2..]) == "colls/" + collection + "/docs";
    assert Join(parts[1..]) == database + "/colls/" + collection + "/docs";
  }

  lemma DocsUrlIsJoin(account: string, database: string, collection: string)
    ensures DocsUrl(account, database, collection) ==
      Join(["https:", "", account + HostSuffix, "dbs", database, "colls", collection, "docs"])
  {
    var parts := ["https:", "", account + HostSuffix, "dbs", database, "colls", collection, "docs"];
    var path := "dbs/" + database + "/colls/" + collection + "/docs";
    PathIsJoin(database, collection);
    assert parts[3..] == ["dbs", database, "colls", collection, "docs"];
    assert Join(parts[2..]) == account + HostSuffix + "/" + path;
    assert Join(parts[1..]) == "/" + account + HostSuffix + "/" + path;
    assert Join(parts) == "https://" + account + HostSuffix + "/" + path;
  }

  /** The `/`-separated parts of a document-feed URL. */
  lemma DocsUrlParts(account: string, database: string, collection: string)
    requires '/' !in account && '/' !in database && '/' !in collection
    ensures Split(DocsUrl(account, database, collection)) ==
      ["https:", "", account + HostSuffix, "dbs", database, "colls", collection, "docs"]
  {
    var host := account + HostSuffix;
    assert '/' !in host by {
      assert forall c | c in host :: c in account || c in HostSuffix;
    }
    DocsUrlIsJoin(account, database, collection);
    SplitJoin(["https:", "", host, "dbs", database, "colls", collection, "docs"]);
  }

  /** The URL names exactly the account, database and collection it was built from. */
  lemma ParseDocsUrlRoundTrip(account: string, database: string, collection: string)
    requires '/' !in account && '/' !in database && '/' !in collection
    ensures ParseDocsUrl(DocsUrl(account, database, collection)) == Some((account, database, collection))
  {
    DocsUrlParts(account, database, collection);
    var host := account + HostSuffix;
    assert host[|host| - |HostSuffix|..] == HostSuffix;
    assert host[..|host| - |HostSuffix|] == account;
  }

  /** Two different collections (names without `/`) never share a URL. */
  lemma DocsUrlInjective(a: string, d: string, c: string, a': string, d': string, c': string)
    requires '/' !in a && '/' !in d && '/' !in c && '/' !in a' && '/' !in d' && '/' !in c'
    requires DocsUrl(a, d, c) == DocsUrl(a', d', c')
    ensures a == a' && d == d' && c == c'
  {
    ParseDocsUrlRoundTrip(a, d, c);
    ParseDocsUrlRoundTrip(a', d', c');
  }
}

/** The header names and defaults both copies of `get_cosmos_headers` share. */
module CosmosHeaders {
  import opened Outcomes
  import opened Http

  const AuthorizationHeader: string := "Authorization"
  const VersionHeader: string := "x-ms-version"
  const DateHeader: string := "x-ms-date"
  const ContinuationHeader: string := "x-ms-continuation"
  const PartitionKeyHeader: string := "x-ms-documentdb-partitionkey"
  const DefaultApiVersion: string := "2018-12-31"

  /**
   * The four headers every request starts with; the continuation slot is
   * present and `None`.  `date` is the formatted `utcnow()` reading.
   */
  function BaseHeaders(authorization: string, version: string, date: string): (h: Headers)
    ensures h.Keys == {AuthorizationHeader, VersionHeader, DateHeader, ContinuationHeader}
    ensures h[AuthorizationHeader] == Some(authorization)
    ensures h[VersionHeader] == Some(version)
    ensures h[DateHeader] == Some(date)
    ensures h[ContinuationHeader] == None
  {
    map[AuthorizationHeader := Some(authorization), VersionHeader := Some(version),
        DateHeader := Some(date), ContinuationHeader := None]
  }
}
