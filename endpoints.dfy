/** The URL of a model's remote endpoint (getEndpoint, getRemoteModelEndpoint). */
module Endpoints {
  import opened Wrappers
  import opened Strings

  /** The `api-path` default of the package configuration. */
  const DefaultApiPath: string := "/api/_remote/_models"

  /** PHP falsiness of the endpoint property: unset, empty, or "0". */
  predicate Falsy(e: Option<string>) {
    e == None || e == Some("") || e == Some("0")
  }

  /** The configured domain with its trailing slashes removed. */
  function DomainPart(domain: string): string {
    if EndsWith(domain, "/") then RTrim(domain, '/') else domain
  }

  /** The API path, trailing slashes removed when the endpoint starts with one, with one leading slash ensured. */
  function PathPart(apiPath: string, endpoint: string): string {
    var trimmed := if EndsWith(apiPath, "/") && StartsWith(endpoint, "/") then RTrim(apiPath, '/') else apiPath;
    if !StartsWith(trimmed, "/") then "/" + trimmed else trimmed
  }

  /** `$domain . $path . $endpoint`, the join both traits end with. */
  function JoinEndpoint(domain: string, apiPath: string, endpoint: string): string {
    DomainPart(domain) + PathPart(apiPath, endpoint) + endpoint
  }

  /** The domain part is the domain with its trailing slashes removed, so it does not end with one. */
  lemma DomainPartShape(domain: string)
    ensures DomainPart(domain) == RTrim(domain, '/')
    ensures DomainPart(domain) == [] || DomainPart(domain)[|DomainPart(domain)| - 1] != '/'
  {
    if !EndsWith(domain, "/") {
      assert domain == [] || domain[|domain| - 1] != '/';
    }
  }

  /** An API path with a non-slash character keeps one at its end once its trailing slashes are trimmed. */
  lemma TrimmedPathEndsInNonSlash(apiPath: string, i: int)
    requires 0 <= i < |apiPath| && apiPath[i] != '/'
    ensures var trimmed := if EndsWith(apiPath, "/") then RTrim(apiPath, '/') else apiPath;
      |trimmed| > 0 && trimmed[|trimmed| - 1] != '/'
  {
    if EndsWith(apiPath, "/") {
      assert i < |RTrim(apiPath, '/')|;
    } else {
      assert apiPath[|apiPath| - 1..] != "/";
    }
  }

  /** When the endpoint starts with a slash and the API path has a non-slash character, the path part ends in one. */
  lemma PathPartEndsInNonSlash(apiPath: string, endpoint: string, i: int)
    requires StartsWith(endpoint, "/") && 0 <= i < |apiPath| && apiPath[i] != '/'
    ensures PathPart(apiPath, endpoint)[|PathPart(apiPath, endpoint)| - 1] != '/'
  {
    TrimmedPathEndsInNonSlash(apiPath, i);
    var trimmed := if EndsWith(apiPath, "/") then RTrim(apiPath, '/') else apiPath;
    var path := PathPart(apiPath, endpoint);
    if !StartsWith(trimmed, "/") {
      assert path == "/" + trimmed;
      assert path[|path| - 1] == trimmed[|trimmed| - 1];
    }
  }

  /**
   * The path part starts with a slash; when the endpoint starts with one and
   * the API path is not only slashes, it does not end with one.
   */
  lemma PathPartShape(apiPath: string, endpoint: string)
    ensures StartsWith(PathPart(apiPath, endpoint), "/")
    ensures StartsWith(endpoint, "/") && (exists i :: 0 <= i < |apiPath| && apiPath[i] != '/') ==>
      PathPart(apiPath, endpoint)[|PathPart(apiPath, endpoint)| - 1] != '/'
  {
    if StartsWith(endpoint, "/") && (exists i :: 0 <= i < |apiPath| && apiPath[i] != '/') {
      var i :| 0 <= i < |apiPath| && apiPath[i] != '/';
      PathPartEndsInNonSlash(apiPath, endpoint, i);
    }
  }

  /**
   * The joined URL is the domain without trailing slashes, a path that
   * starts with a slash, then the endpoint verbatim; when the endpoint
   * starts with a slash and the API path is not only slashes, the path
   * does not end with one, so no "//" appears at either join.
   */
  lemma JoinEndpointShape(domain: string, apiPath: string, endpoint: string)
    ensures JoinEndpoint(domain, apiPath, endpoint) == RTrim(domain, '/') + PathPart(apiPath, endpoint) + endpoint
    ensures DomainPart(domain) == [] || DomainPart(domain)[|DomainPart(domain)| - 1] != '/'
    ensures StartsWith(PathPart(apiPath, endpoint), "/")
    ensures StartsWith(endpoint, "/") && (exists i :: 0 <= i < |apiPath| && apiPath[i] != '/') ==>
      PathPart(apiPath, endpoint)[|PathPart(apiPath, endpoint)| - 1] != '/'
  {
    DomainPartShape(domain);
    PathPartShape(apiPath, endpoint);
  }

  /** getRemoteModelEndpoint: a falsy endpoint becomes '', one starting with "http" is used as it is, else joined. */
  function ManagedEndpoint(remoteEndpoint: Option<string>, domain: string, apiPath: string): string {
    var e := if Falsy(remoteEndpoint) then "" else remoteEndpoint.value;
    if StartsWith(e, "http") then e else JoinEndpoint(domain, apiPath, e)
  }

  /** An endpoint starting with "http" overrides the configuration: the URL is the endpoint whatever the domain and API path. */
  lemma HttpOverrideIgnoresConfig(e: string, domain1: string, apiPath1: string, domain2: string, apiPath2: string)
    requires StartsWith(e, "http")
    ensures ManagedEndpoint(Some(e), domain1, apiPath1) == ManagedEndpoint(Some(e), domain2, apiPath2) == e
  {
    assert e[0] == 'h';
    assert !Falsy(Some(e));
  }

  /**
   * A relative endpoint of the newer trait gives the URL the older trait's
   * getEndpoint gives for the same endpoint: the domain without trailing
   * slashes, a path that starts with "/", then the endpoint verbatim.
   */
  lemma ManagedEndpointAgreesWithLegacy(e: string, className: string, domain: string, apiPath: string)
    requires !Falsy(Some(e)) && !StartsWith(e, "http")
    ensures ManagedEndpoint(Some(e), domain, apiPath) == JoinEndpoint(domain, apiPath, LegacyEndpointPath(Some(e), className))
    ensures ManagedEndpoint(Some(e), domain, apiPath) == RTrim(domain, '/') + PathPart(apiPath, e) + e
    ensures StartsWith(PathPart(apiPath, e), "/")
  {
    JoinEndpointShape(domain, apiPath, e);
  }

  /**
   * A falsy endpoint of the newer trait is replaced by "", so the URL is the
   * configured base: the domain without trailing slashes and the API path
   * with a leading slash and its trailing slashes kept.
   */
  lemma FalsyEndpointIsBase(remoteEndpoint: Option<string>, domain: string, apiPath: string)
    requires Falsy(remoteEndpoint)
    ensures ManagedEndpoint(remoteEndpoint, domain, apiPath)
      == RTrim(domain, '/') + (if StartsWith(apiPath, "/") then apiPath else "/" + apiPath)
  {
    JoinEndpointShape(domain, apiPath, "");
    assert !StartsWith("", "http");
  }

  /** The endpoint getEndpoint stores when none is set: "/" and the slug of the class basename. */
  function DefaultEndpoint(className: string): (r: string)
    ensures StartsWith(r, "/") && !Falsy(Some(r))
  {
    var slug := Slug(AfterLast(className, '\\'));
    assert ("/" + slug)[0] != "0"[0];
    "/" + slug
  }

  /** The endpoint getEndpoint works with: the property, or the default when it is falsy. */
  function LegacyEndpointPath(endpoint: Option<string>, className: string): string {
    if Falsy(endpoint) then DefaultEndpoint(className) else endpoint.value
  }

  /** The stored default is not falsy, so a second getEndpoint keeps it and returns the same URL. */
  lemma LegacyEndpointStable(endpoint: Option<string>, className: string)
    ensures !Falsy(Some(LegacyEndpointPath(endpoint, className)))
    ensures LegacyEndpointPath(Some(LegacyEndpointPath(endpoint, className)), className) == LegacyEndpointPath(endpoint, className)
  {
  }

  /** The default endpoint of a namespaced class whose basename is letters and digits is that basename lower-cased. */
  lemma DefaultEndpointOfBasename(namespace: string, basename: string)
    requires |basename| > 0 && forall i :: 0 <= i < |basename| ==> IsAlphanumeric(basename[i])
    ensures DefaultEndpoint(namespace + ['\\'] + basename) == "/" + Lower(basename)
  {
    AfterLastAppend(namespace, '\\', basename);
    SlugOfAlphanumeric(basename);
  }

  /** The URL a model with endpoint "/celebrity" requests under the default API path. */
  lemma CelebrityEndpoint()
    ensures JoinEndpoint("https://yourdomain.com/", DefaultApiPath, "/celebrity")
      == "https://yourdomain.com" + DefaultApiPath + "/celebrity"
  {
    var domain := "https://yourdomain.com/";
    assert domain[..|domain| - 1] == "https://yourdomain.com";
    assert RTrim("https://yourdomain.com", '/') == "https://yourdomain.com";
    assert DomainPart(domain) == "https://yourdomain.com";
    assert PathPart(DefaultApiPath, "/celebrity") == DefaultApiPath;
  }
}
