/**
 * How the client addresses requests: the target URI composed from its
 * settings, and the per-operation URLs Fetch and Delete derive from it.
 * Everything is plain concatenation: nothing is encoded or normalised.
 */
module Addressing {
  import opened Wrappers
  import opened Config
  import opened Decimal

  /** updateURI: the target URI of the client, or an error when BaseURI or Resource is empty. */
  function UpdateURI(s: Settings): (r: Result<string, Error>)
    ensures r.Success? <==> Addressable(s)
    ensures r.Failure? ==> r.error == MissingMandatoryField
    ensures r.Success? ==> r.value == s.protocol + "://" + s.host + ":" + s.port + s.baseURI + s.resource + "/"
  {
    if s.baseURI != "" && s.resource != "" then
      Success(s.protocol + "://" + s.host + ":" + s.port + s.baseURI + s.resource + "/")
    else
      Failure(MissingMandatoryField)
  }

  /** Scheme, host and port: the part of the target URI that precedes the path. */
  function Origin(s: Settings): string {
    s.protocol + "://" + s.host + ":" + s.port
  }

  /** The target URI is the origin followed by the path BaseURI + Resource, closed by a slash. */
  lemma UpdateURIShape(s: Settings)
    requires Addressable(s)
    ensures var uri := UpdateURI(s).value;
      |uri| == |Origin(s)| + |s.baseURI| + |s.resource| + 1 &&
      uri[..|Origin(s)|] == Origin(s) &&
      uri[|Origin(s)|..|uri| - 1] == s.baseURI + s.resource &&
      uri[|uri| - 1] == '/'
  {
  }

  /** Two clients with the same origin share a target URI exactly when their
      paths BaseURI + Resource are the same string: no separator is inserted. */
  lemma {:induction false} UpdateURIDeterminesPath(s: Settings, t: Settings)
    requires Addressable(s) && Addressable(t) && Origin(s) == Origin(t)
    ensures UpdateURI(s) == UpdateURI(t) <==> s.baseURI + s.resource == t.baseURI + t.resource
  {
    UpdateURIShape(s);
    UpdateURIShape(t);
    if s.baseURI + s.resource == t.baseURI + t.resource {
      assert UpdateURI(s).value == Origin(s) + (s.baseURI + s.resource) + "/";
      assert UpdateURI(t).value == Origin(t) + (t.baseURI + t.resource) + "/";
    }
  }

  /** The integration tests' client (host "accountapi", default port and protocol) addresses http://accountapi:8080/v1/organisation/accounts/. */
  lemma DefaultTargetURI()
    ensures UpdateURI(Settings(CheckProtocol(""), "accountapi", CheckPort(""), "/v1/organisation/",
                               CheckContentType(Parameters("/v1/organisation/", "", "accounts")), "accounts"))
            == Success("http://accountapi:8080/v1/organisation/accounts/")
  {
    assert CheckProtocol("") == "http" && CheckPort("") == "8080";
    assert "http" + "://" + "accountapi" == "http://accountapi";
    assert "http://accountapi" + ":" + "8080" == "http://accountapi:8080";
    assert "http://accountapi:8080" + "/v1/organisation/" == "http://accountapi:8080/v1/organisation/";
    assert "http://accountapi:8080/v1/organisation/" + "accounts" + "/"
        == "http://accountapi:8080/v1/organisation/accounts/";
  }

  /** Fetch's URL: the target URI followed by the resource id. */
  function FetchTarget(uri: string, id: string): (t: string)
    ensures |t| == |uri| + |id| && t[..|uri|] == uri && t[|uri|..] == id
  {
    uri + id
  }

  const VersionQuery := "?version="

  /** Delete's URL: the Fetch URL followed by the version query. */
  function DeleteTarget(uri: string, id: string, version: int): (t: string)
    ensures |t| > |uri| + |id| && t[..|uri| + |id|] == FetchTarget(uri, id)
  {
    uri + id + VersionQuery + Itoa(version)
  }

  /** The index of the first occurrence of c in s, if any. */
  function FirstIndexOf(s: string, c: char): (r: Option<nat>)
    ensures r.Some? ==> r.value < |s| && s[r.value] == c && forall j :: 0 <= j < r.value ==> s[j] != c
    ensures r.None? ==> forall j :: 0 <= j < |s| ==> s[j] != c
  {
    if s == [] then None
    else if s[0] == c then Some(0)
    else match FirstIndexOf(s[1..], c)
      case None => None
      case Some(k) => Some(k + 1)
  }

  /** A URL as http.NewRequest reads it: what precedes the first '#' is
      sent, and that part splits at its first '?' into what comes before the
      query (scheme, authority and path together) and the query itself. */
  datatype SentURL = SentURL(beforeQuery: string, query: Option<string>)

  function Split(t: string): SentURL {
    var sent := match FirstIndexOf(t, '#') case None => t case Some(k) => t[..k];
    match FirstIndexOf(sent, '?')
    case None => SentURL(sent, None)
    case Some(k) => SentURL(sent[..k], Some(sent[k + 1..]))
  }

  /** Neither '?', '#' nor '%': text that stays inside the path of a URL
      and that net/url reads back unchanged, with no escape to decode. */
  predicate PathSafe(s: string) {
    forall i :: 0 <= i < |s| ==> s[i] != '?' && s[i] != '#' && s[i] != '%'
  }

  const VersionKey := "version="

  /** The id and version a server receives from a URL built under the
      target URI uri: the path after uri, and the query's version parameter. */
  function ParseDeleteTarget(uri: string, t: string): Option<(string, int)> {
    var sent := Split(t);
    if |sent.beforeQuery| < |uri| || sent.beforeQuery[..|uri|] != uri then None
    else match sent.query
      case None => None
      case Some(q) =>
        if |q| < |VersionKey| || q[..|VersionKey|] != VersionKey then None
        else match ParseDecimal(q[|VersionKey|..])
          case None => None
          case Some(v) => Some((sent.beforeQuery[|uri|..], v))
  }

  /** When neither the target URI nor the id holds '?', '#' or '%', the server
      receives exactly the id and the version Delete put into its URL. */
  lemma {:induction false} ParseDeleteTargetRoundTrip(uri: string, id: string, version: int)
    requires PathSafe(uri + id)
    ensures ParseDeleteTarget(uri, DeleteTarget(uri, id, version)) == Some((id, version))
  {
    var t := DeleteTarget(uri, id, version);
    var k := |uri| + |id|;
    var digits := Itoa(version);
    var q := VersionKey + digits;
    assert t == (uri + id) + "?" + q;
    forall j | 0 <= j < |t| ensures t[j] != '#' && (j != k ==> t[j] != '?') {
      if j < k {
        assert t[j] == (uri + id)[j];
      } else if j > k {
        assert t[j] == q[j - k - 1];
        if j - k - 1 >= |VersionKey| {
          assert q[j - k - 1] == digits[j - k - 1 - |VersionKey|];
        }
      }
    }
    assert FirstIndexOf(t, '#') == None;
    assert t[k] == '?';
    assert FirstIndexOf(t, '?') == Some(k);
    assert t[..k] == uri + id;
    assert t[k + 1..] == q;
    assert q[|VersionKey|..] == digits;
    ParseItoa(version);
  }

  /** A URL without '#' whose first '?' is at k splits there. */
  lemma SplitAtFirstQuery(t: string, k: nat)
    requires k < |t| && t[k] == '?'
    requires forall j :: 0 <= j < |t| ==> t[j] != '#'
    requires forall j :: 0 <= j < k ==> t[j] != '?'
    ensures Split(t) == SentURL(t[..k], Some(t[k + 1..]))
  {
    assert FirstIndexOf(t, '#') == None;
    assert FirstIndexOf(t, '?') == Some(k);
  }

  /** The version query holds no '#', and its only '?' is its first character. */
  lemma VersionQueryPlain(version: int)
    ensures var s := VersionQuery + Itoa(version);
      s[0] == '?' && forall j :: 0 <= j < |s| ==> s[j] != '#' && (j > 0 ==> s[j] != '?')
  {
    var digits := Itoa(version);
    var s := VersionQuery + digits;
    forall j | 0 <= j < |s| ensures s[j] != '#' && (j > 0 ==> s[j] != '?') {
      if j >= |VersionQuery| {
        assert s[j] == digits[j - |VersionQuery|];
      }
    }
  }

  /** The id "a?b" moves the version out of reach: the query the server
      receives begins with "b", the rest of the id, not with "version=". */
  lemma QueryInIdHidesVersion(uri: string, version: int)
    requires PathSafe(uri)
    ensures ParseDeleteTarget(uri, DeleteTarget(uri, "a?b", version)) == None
  {
    var tail := VersionQuery + Itoa(version);
    var t := DeleteTarget(uri, "a?b", version);
    var k := |uri| + 1;
    assert t == uri + "a?b" + tail;
    VersionQueryPlain(version);
    forall j | 0 <= j < |t| ensures t[j] != '#' && (j < k ==> t[j] != '?') {
      if j < |uri| {
        assert t[j] == uri[j];
      } else if j >= |uri| + 3 {
        assert t[j] == tail[j - |uri| - 3];
      }
    }
    SplitAtFirstQuery(t, k);
    var q := t[k + 1..];
    assert q[0] == 'b';
    assert q[..|VersionKey|] != VersionKey by {
      assert q[..|VersionKey|][0] == 'b';
    }
  }

  /** An id whose first '#' comes before any '?' cuts the URL there: the
      version query lands in the fragment, which is never sent. */
  lemma FragmentInIdDropsVersion(uri: string, id: string, k: nat, version: int)
    requires PathSafe(uri)
    requires k < |id| && id[k] == '#'
    requires forall j :: 0 <= j < k ==> id[j] != '#' && id[j] != '?'
    ensures ParseDeleteTarget(uri, DeleteTarget(uri, id, version)) == None
  {
    var t := DeleteTarget(uri, id, version);
    var n := |uri| + k;
    assert t[..n] == uri + id[..k];
    assert t[n] == id[k] == '#';
    forall j | 0 <= j < n ensures t[j] != '#' && t[j] != '?' {
      if j < |uri| {
        assert t[j] == uri[j];
      } else {
        assert t[j] == id[j - |uri|];
      }
    }
    assert FirstIndexOf(t, '#') == Some(n);
    assert FirstIndexOf(t[..n], '?') == None;
  }
}
