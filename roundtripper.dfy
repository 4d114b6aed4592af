/**
 * The GitHub App authorising round-tripper: it adds either an app JWT or
 * an installation token to each outgoing GitHub request, with three
 * caches (the app slug, the installations by organisation, the
 * installation tokens), and sets the token-budget and token-expiry
 * headers the GitHub cache uses.
 *
 * Time is an integer number of seconds. GitHub is an oracle indexed by
 * the number of calls made so far, so that its answers may change from
 * one call to the next; a log records every call and its answer.
 */
module GitHubApps {
  import opened Wrappers
  import opened Strings

  // ---------------------------------------------------------------------
  // Values
  // ---------------------------------------------------------------------

  /** The parts of a request URL the round-tripper reads. */
  datatype URL = URL(host: string, path: string)

  /** `github.AppInstallation`: its id and its account's login. */
  datatype AppInstallation = AppInstallation(id: int, login: string)

  /** `github.AppInstallationToken`: the token and its expiry. */
  datatype InstallationToken = InstallationToken(token: string, expiresAt: int)

  /** The JWT claims of app authentication. */
  datatype Claims = Claims(issuedAt: int, expiresAt: int, issuer: string)

  /** The request headers the round-tripper sets. */
  datatype HeaderKey = Authorization | TokenExpiryAt | TokenBudgetIdentifier
  type Headers = map<HeaderKey, string>

  /** What an upstream round trip returns. */
  datatype Response = Response(status: int, body: string)

  /** One call to GitHub and its answer. */
  datatype Call =
    | ListInstallations(listed: Result<seq<AppInstallation>>)
    | CreateToken(installation: int, issued: Result<InstallationToken>)
    | GetApp(slug: Result<string>)

  /** GitHub's three endpoints; each answer may depend on how many calls came before. */
  datatype GitHubClient = GitHubClient(
    listAppInstallations: nat -> Result<seq<AppInstallation>>,
    appInstallationToken: (nat, int) -> Result<InstallationToken>,
    getApp: nat -> Result<string>)

  /**
   * What the round-tripper uses besides GitHub: the current time, JWT
   * signing with the app's private key, RFC 3339 formatting and the stack
   * trace quoted in the empty-organisation error.
   */
  datatype Runtime = Runtime(now: int, sign: Claims -> Result<string>, format: int -> string, stack: string)

  /** The caches and the call log. `installations` is `None` until the first listing. */
  datatype Caches = Caches(
    appSlug: string,
    installations: Option<map<string, AppInstallation>>,
    tokens: map<int, InstallationToken>,
    calls: seq<Call>)

  /** A result together with the caches after computing it. */
  datatype Fetched<T> = Fetched(result: Result<T>, caches: Caches)

  /** The outcome of an authorisation step: an error or none, the headers, and the caches. */
  datatype Authorized = Authorized(error: Option<string>, header: Headers, caches: Caches)

  // ---------------------------------------------------------------------
  // Host prefixes and paths
  // ---------------------------------------------------------------------

  /** The host-to-path-prefix map of a list of base URLs; a later URL with the same host wins. */
  function HostPrefixes(urls: seq<URL>): map<string, string>
  {
    if |urls| == 0 then map[]
    else HostPrefixes(urls[..|urls| - 1])[urls[|urls| - 1].host := urls[|urls| - 1].path]
  }

  /** The base URLs parsed, or the error for the first that does not parse. */
  function ParseAll(baseURLs: seq<string>, parse: string -> Result<URL>): Result<seq<URL>>
  {
    if |baseURLs| == 0 then Ok([])
    else
      match ParseAll(baseURLs[..|baseURLs| - 1], parse)
      case Err(e) => Err(e)
      case Ok(urls) =>
        var last := baseURLs[|baseURLs| - 1];
        match parse(last)
        case Err(e) => Err("failed to parse github-endpoint " + last + " as URL: " + e)
        case Ok(u) => Ok(urls + [u])
  }

  /** Every host of the list is mapped, to the path of its last URL; no other host is. */
  lemma {:induction false} HostPrefixesLastWins(urls: seq<URL>, h: string)
    ensures h in HostPrefixes(urls) <==> exists i :: 0 <= i < |urls| && urls[i].host == h
    ensures forall i :: 0 <= i < |urls| && urls[i].host == h &&
                        (forall j :: i < j < |urls| ==> urls[j].host != h) ==>
                          h in HostPrefixes(urls) && HostPrefixes(urls)[h] == urls[i].path
  {
    if |urls| > 0 {
      var init := urls[..|urls| - 1];
      HostPrefixesLastWins(init, h);
      if h != urls[|urls| - 1].host {
        forall i | 0 <= i < |init| && init[i].host == h
          ensures urls[i].host == h
        {
        }
      }
    }
  }

  /** `canonicalizedPath`: the path without the prefix mapped to its host. */
  function CanonicalizedPath(mapping: map<string, string>, url: URL): (r: string)
    ensures url.host !in mapping ==> r == url.path
    ensures url.host in mapping && HasPrefix(url.path, mapping[url.host]) ==> mapping[url.host] + r == url.path
    ensures url.host in mapping && !HasPrefix(url.path, mapping[url.host]) ==> r == url.path
  {
    var prefix := if url.host in mapping then mapping[url.host] else "";
    assert url.path[..0] == "";
    assert HasPrefix(url.path, prefix) ==> prefix + url.path[|prefix|..] == url.path by {
      if HasPrefix(url.path, prefix) {
        assert url.path == url.path[..|prefix|] + url.path[|prefix|..];
      }
    }
    TrimPrefix(url.path, prefix)
  }

  /** `^/repos/[^/]+/[^/]+/installation$`: the pieces between slashes are "", "repos", two names, "installation". */
  predicate IsInstallationPath(path: string)
  {
    var parts := Split(path, '/');
    |parts| == 5 && parts[0] == "" && parts[1] == "repos" && |parts[2]| > 0 && |parts[3]| > 0 && parts[4] == "installation"
  }

  /** The installation path for a repository. */
  function RepoInstallationPath(owner: string, repo: string): string
  {
    "/repos/" + owner + "/" + repo + "/installation"
  }

  lemma JoinInstallationParts(owner: string, repo: string)
    ensures Join(["", "repos", owner, repo, "installation"], "/") == RepoInstallationPath(owner, repo)
  {
    var parts := ["", "repos", owner, repo, "installation"];
    assert parts[1..][1..][1..][1..] == ["installation"];
    var j3 := repo + "/" + "installation";
    assert Join(parts[1..][1..][1..], "/") == j3;
    var j2 := owner + "/" + j3;
    assert Join(parts[1..][1..], "/") == j2;
    var j1 := "repos" + "/" + j2;
    assert Join(parts[1..], "/") == j1;
    assert Join(parts, "/") == "" + "/" + j1;
    assert "" + "/" + "repos" + "/" == "/repos/";
    assert "/" + "installation" == "/installation";
  }

  /** The installation path of non-empty, slash-free names matches the pattern. */
  lemma InstallationPathMatches(owner: string, repo: string)
    requires |owner| > 0 && |repo| > 0 && '/' !in owner && '/' !in repo
    ensures IsInstallationPath(RepoInstallationPath(owner, repo))
  {
    var parts := ["", "repos", owner, repo, "installation"];
    assert '/' !in parts[0] && '/' !in parts[1] && '/' !in parts[4];
    JoinInstallationParts(owner, repo);
    SplitJoin(parts, '/');
    assert Split(RepoInstallationPath(owner, repo), '/') == parts;
  }

  /** Every path the pattern matches is the installation path of its two slash-free names. */
  lemma InstallationPathParts(path: string)
    requires IsInstallationPath(path)
    ensures var parts := Split(path, '/');
            path == RepoInstallationPath(parts[2], parts[3]) && '/' !in parts[2] && '/' !in parts[3]
  {
    var ps := Split(path, '/');
    JoinSplit(path, '/');
    assert ps == ["", "repos", ps[2], ps[3], "installation"];
    JoinInstallationParts(ps[2], ps[3]);
  }

  /** `RoundTrip`'s choice: a JWT for `/app…` paths and the installation path, an installation token otherwise. */
  predicate UsesAppAuth(path: string)
  {
    HasPrefix(path, "/app") || IsInstallationPath(path)
  }

  // ---------------------------------------------------------------------
  // The caches, as functions of the cache state
  // ---------------------------------------------------------------------

  /** `getSlug`: the cached slug, or `GetApp`'s, which is kept. */
  function SlugLookup(c: Caches, client: GitHubClient): Fetched<string>
  {
    if c.appSlug != "" then Fetched(Ok(c.appSlug), c)
    else
      var app := client.getApp(|c.calls|);
      var logged := c.(calls := c.calls + [GetApp(app)]);
      match app
      case Err(e) => Fetched(Err(e), logged)
      case Ok(slug) => Fetched(Ok(slug), logged.(appSlug := slug))
  }

  /** The installations by account login; a later installation of the same login wins. */
  function ByLogin(installations: seq<AppInstallation>): map<string, AppInstallation>
  {
    if |installations| == 0 then map[]
    else
      var last := installations[|installations| - 1];
      ByLogin(installations[..|installations| - 1])[last.login := last]
  }

  function NotInstalled(org: string): string
  {
    "the github app is not installed in organization " + org
  }

  /**
   * `installationIDFor`: a cached installation, or a fresh listing. A
   * listing equal to the cached one means the organisation is not
   * installed; a different one replaces the cache and is consulted.
   */
  function InstallationLookup(c: Caches, client: GitHubClient, org: string): Fetched<int>
  {
    if c.installations.Some? && org in c.installations.value then Fetched(Ok(c.installations.value[org].id), c)
    else
      var listed := client.listAppInstallations(|c.calls|);
      var logged := c.(calls := c.calls + [ListInstallations(listed)]);
      match listed
      case Err(e) => Fetched(Err("failed to list app installations: " + e), logged)
      case Ok(installations) =>
        var listing := ByLogin(installations);
        if c.installations == Some(listing) then Fetched(Err(NotInstalled(org)), logged)
        else
          var replaced := logged.(installations := Some(listing));
          if org in listing then Fetched(Ok(listing[org].id), replaced)
          else Fetched(Err(NotInstalled(org)), replaced)
  }

  /** A cached token is used while its expiry, less one minute, is after now. */
  predicate Usable(token: InstallationToken, now: int)
  {
    token.expiresAt - 60 > now
  }

  /** `getTokenForInstallation`: a usable cached token, or a fresh one, which is kept. */
  function TokenLookup(c: Caches, client: GitHubClient, installation: int, now: int): Fetched<InstallationToken>
  {
    if installation in c.tokens && Usable(c.tokens[installation], now) then Fetched(Ok(c.tokens[installation]), c)
    else
      var issued := client.appInstallationToken(|c.calls|, installation);
      var logged := c.(calls := c.calls + [CreateToken(installation, issued)]);
      match issued
      case Err(e) => Fetched(Err("failed to get installation token from GitHub: " + e), logged)
      case Ok(token) => Fetched(Ok(token), logged.(tokens := c.tokens[installation := token]))
  }

  /** `installationTokenFor`: the organisation's installation, then its token, each error wrapped. */
  function InstallationTokenLookup(c: Caches, client: GitHubClient, org: string, now: int): Fetched<InstallationToken>
  {
    var id := InstallationLookup(c, client, org);
    match id.result
    case Err(e) => Fetched(Err("failed to get installation id for org " + org + ": " + e), id.caches)
    case Ok(installation) =>
      var token := TokenLookup(id.caches, client, installation, now);
      match token.result
      case Err(e) => Fetched(Err("failed to get an installation token for org " + org + ": " + e), token.caches)
      case Ok(t) => Fetched(Ok(t), token.caches)
  }

  /** The claims of the app JWT: issued now, expiring in nine minutes, issued by the app. */
  function AppClaims(appID: string, now: int): Claims
  {
    Claims(now, now + 9 * 60, appID)
  }

  /**
   * `addAppAuth`: a signed JWT and its expiry; the budget identifier is
   * the app id on `/app` itself (which resolves the slug) and the slug
   * elsewhere.
   */
  function AppAuth(c: Caches, client: GitHubClient, rt: Runtime, appID: string, path: string, header: Headers): Authorized
  {
    var claims := AppClaims(appID, rt.now);
    match rt.sign(claims)
    case Err(e) => Authorized(Some("failed to generate jwt: " + e), header, c)
    case Ok(jwt) =>
      var signed := header[Authorization := "Bearer " + jwt][TokenExpiryAt := rt.format(claims.expiresAt)];
      if path == "/app" then Authorized(None, signed[TokenBudgetIdentifier := appID], c)
      else
        var slug := SlugLookup(c, client);
        match slug.result
        case Err(e) => Authorized(Some(e), signed, slug.caches)
        case Ok(s) => Authorized(None, signed[TokenBudgetIdentifier := s], slug.caches)
  }

  function EmptyOrgError(rt: Runtime): string
  {
    "BUG apps auth requested but empty org, please report this to the test-infra repo. Stack: " + rt.stack
  }

  /**
   * `addAppInstallationAuth`: the organisation's installation token and
   * its expiry; the budget identifier is the slug and the organisation.
   */
  function InstallationAuth(c: Caches, client: GitHubClient, rt: Runtime, org: string, header: Headers): Authorized
  {
    if org == "" then Authorized(Some(EmptyOrgError(rt)), header, c)
    else
      var token := InstallationTokenLookup(c, client, org, rt.now);
      match token.result
      case Err(e) => Authorized(Some(e), header, token.caches)
      case Ok(t) =>
        var signed := header[Authorization := "Bearer " + t.token][TokenExpiryAt := rt.format(t.expiresAt)];
        var slug := SlugLookup(token.caches, client);
        match slug.result
        case Err(e) => Authorized(Some(e), signed, slug.caches)
        case Ok(s) => Authorized(None, signed[TokenBudgetIdentifier := s + " - " + org], slug.caches)
  }

  /** `RoundTrip`'s authorisation step, on the canonical path. */
  function Authorize(c: Caches, client: GitHubClient, rt: Runtime, appID: string, mapping: map<string, string>,
                     url: URL, org: string, header: Headers): Authorized
  {
    var path := CanonicalizedPath(mapping, url);
    if UsesAppAuth(path) then AppAuth(c, client, rt, appID, path, header)
    else InstallationAuth(c, client, rt, org, header)
  }

  // ---------------------------------------------------------------------
  // The round-tripper
  // ---------------------------------------------------------------------

  /** An outgoing request: its URL, its headers, and the organisation its context carries. */
  class Request {
    const url: URL
    const org: string
    var header: Headers

    constructor (url: URL, org: string, header: Headers)
      ensures this.url == url && this.org == org && this.header == header
    {
      this.url := url;
      this.org := org;
      this.header := header;
    }
  }

  class AppsRoundTripper {
    const appID: string
    const client: GitHubClient
    const upstream: (URL, Headers) -> Result<Response>
    const hostPrefixMapping: map<string, string>
    var appSlug: string
    var installations: Option<map<string, AppInstallation>>
    var tokens: map<int, InstallationToken>
    /** The GitHub calls made so far, with their answers; GitHub's next answer may depend on it. */
    var calls: seq<Call>

    function State(): Caches
      reads this
    {
      Caches(appSlug, installations, tokens, calls)
    }

    constructor (appID: string, client: GitHubClient, upstream: (URL, Headers) -> Result<Response>,
                 hostPrefixMapping: map<string, string>)
      ensures this.appID == appID && this.client == client && this.upstream == upstream
      ensures this.hostPrefixMapping == hostPrefixMapping
      ensures State() == Caches("", None, map[], [])
    {
      this.appID := appID;
      this.client := client;
      this.upstream := upstream;
      this.hostPrefixMapping := hostPrefixMapping;
      appSlug := "";
      installations := None;
      tokens := map[];
      calls := [];
    }

    /** `canonicalizedPath`. */
    function CanonicalPath(url: URL): string
    {
      CanonicalizedPath(hostPrefixMapping, url)
    }

    /** `getSlug`. */
    method GetSlug() returns (r: Result<string>)
      modifies this`appSlug, this`calls
      ensures Fetched(r, State()) == SlugLookup(old(State()), client)
    {
      if appSlug != "" {
        return Ok(appSlug);
      }
      var response := client.getApp(|calls|);
      calls := calls + [GetApp(response)];
      if response.Err? {
        return Err(response.error);
      }
      appSlug := response.value;
      return Ok(appSlug);
    }

    /** The map `installationIDFor` builds from a listing. */
    static method IndexByLogin(listed: seq<AppInstallation>) returns (m: map<string, AppInstallation>)
      ensures m == ByLogin(listed)
    {
      m := map[];
      var i := 0;
      while i < |listed|
        invariant 0 <= i <= |listed|
        invariant m == ByLogin(listed[..i])
      {
        assert listed[..i + 1][..i] == listed[..i];
        m := m[listed[i].login := listed[i]];
        i := i + 1;
      }
      assert listed[..i] == listed;
    }

    /** `installationIDFor`. */
    method InstallationIDFor(org: string) returns (r: Result<int>)
      modifies this`installations, this`calls
      ensures Fetched(r, State()) == InstallationLookup(old(State()), client, org)
    {
      if installations.Some? && org in installations.value {
        return Ok(installations.value[org].id);
      }
      var listed := client.listAppInstallations(|calls|);
      calls := calls + [ListInstallations(listed)];
      if listed.Err? {
        return Err("failed to list app installations: " + listed.error);
      }
      var installationsMap := IndexByLogin(listed.value);
      if installations == Some(installationsMap) {
        return Err(NotInstalled(org));
      }
      installations := Some(installationsMap);
      if org !in installationsMap {
        return Err(NotInstalled(org));
      }
      return Ok(installationsMap[org].id);
    }

    /** `getTokenForInstallation`. */
    method GetTokenForInstallation(installation: int, now: int) returns (r: Result<InstallationToken>)
      modifies this`tokens, this`calls
      ensures Fetched(r, State()) == TokenLookup(old(State()), client, installation, now)
    {
      if installation in tokens && tokens[installation].expiresAt - 60 > now {
        return Ok(tokens[installation]);
      }
      var issued := client.appInstallationToken(|calls|, installation);
      calls := calls + [CreateToken(installation, issued)];
      if issued.Err? {
        return Err("failed to get installation token from GitHub: " + issued.error);
      }
      tokens := tokens[installation := issued.value];
      return Ok(issued.value);
    }

    /** `installationTokenFor`. */
    method InstallationTokenFor(org: string, now: int) returns (r: Result<InstallationToken>)
      modifies this`installations, this`tokens, this`calls
      ensures Fetched(r, State()) == InstallationTokenLookup(old(State()), client, org, now)
    {
      var id := InstallationIDFor(org);
      if id.Err? {
        return Err("failed to get installation id for org " + org + ": " + id.error);
      }
      var token := GetTokenForInstallation(id.value, now);
      if token.Err? {
        return Err("failed to get an installation token for org " + org + ": " + token.error);
      }
      return token;
    }

    /** `addAppAuth`. */
    method AddAppAuth(r: Request, rt: Runtime) returns (err: Option<string>)
      modifies this`appSlug, this`calls, r`header
      ensures Authorized(err, r.header, State()) ==
              AppAuth(old(State()), client, rt, appID, CanonicalPath(r.url), old(r.header))
    {
      var expiresAt := rt.now + 9 * 60;
      var token := rt.sign(Claims(rt.now, expiresAt, appID));
      if token.Err? {
        return Some("failed to generate jwt: " + token.error);
      }
      r.header := r.header[Authorization := "Bearer " + token.value];
      r.header := r.header[TokenExpiryAt := rt.format(expiresAt)];
      if CanonicalPath(r.url) == "/app" {
        r.header := r.header[TokenBudgetIdentifier := appID];
      } else {
        var slug := GetSlug();
        if slug.Err? {
          return Some(slug.error);
        }
        r.header := r.header[TokenBudgetIdentifier := slug.value];
      }
      return None;
    }

    /** `addAppInstallationAuth`. */
    method AddAppInstallationAuth(r: Request, rt: Runtime) returns (err: Option<string>)
      modifies this`installations, this`tokens, this`calls, this`appSlug, r`header
      ensures Authorized(err, r.header, State()) == InstallationAuth(old(State()), client, rt, r.org, old(r.header))
    {
      var org := r.org;
      if org == "" {
        return Some(EmptyOrgError(rt));
      }
      var token := InstallationTokenFor(org, rt.now);
      if token.Err? {
        return Some(token.error);
      }
      r.header := r.header[Authorization := "Bearer " + token.value.token];
      r.header := r.header[TokenExpiryAt := rt.format(token.value.expiresAt)];
      var slug := GetSlug();
      if slug.Err? {
        return Some(slug.error);
      }
      r.header := r.header[TokenBudgetIdentifier := slug.value + " - " + org];
      return None;
    }

    /** `RoundTrip`: authorise, then hand the request upstream only if that succeeded. */
    method RoundTrip(r: Request, rt: Runtime) returns (resp: Result<Response>)
      modifies this`installations, this`tokens, this`calls, this`appSlug, r`header
      ensures var a := Authorize(old(State()), client, rt, appID, hostPrefixMapping, r.url, r.org, old(r.header));
              State() == a.caches && r.header == a.header &&
              resp == (if a.error.Some? then Err(a.error.value) else upstream(r.url, a.header))
    {
      var path := CanonicalPath(r.url);
      var err: Option<string>;
      if HasPrefix(path, "/app") || IsInstallationPath(path) {
        err := AddAppAuth(r, rt);
      } else {
        err := AddAppInstallationAuth(r, rt);
      }
      if err.Some? {
        return Err(err.value);
      }
      resp := upstream(r.url, r.header);
    }
  }

  /** `newAppsRoundTripper`: the host-to-prefix map of the base URLs, or the first parse error. */
  method NewAppsRoundTripper(appID: string, upstream: (URL, Headers) -> Result<Response>, client: GitHubClient,
                             v3BaseURLs: seq<string>, parse: string -> Result<URL>)
    returns (r: Result<AppsRoundTripper>)
    ensures r.Ok? <==> ParseAll(v3BaseURLs, parse).Ok?
    ensures r.Err? ==> r.error == ParseAll(v3BaseURLs, parse).error
    ensures r.Ok? ==> fresh(r.value) && r.value.appID == appID && r.value.client == client &&
                      r.value.upstream == upstream && r.value.State() == Caches("", None, map[], []) &&
                      r.value.hostPrefixMapping == HostPrefixes(ParseAll(v3BaseURLs, parse).value)
  {
    var mapping: map<string, string> := map[];
    ghost var urls: seq<URL> := [];
    var i := 0;
    while i < |v3BaseURLs|
      invariant 0 <= i <= |v3BaseURLs|
      invariant ParseAll(v3BaseURLs[..i], parse) == Ok(urls)
      invariant mapping == HostPrefixes(urls)
    {
      assert v3BaseURLs[..i + 1][..i] == v3BaseURLs[..i];
      var url := parse(v3BaseURLs[i]);
      if url.Err? {
        ParseErrorPersists(v3BaseURLs, i + 1, parse);
        return Err("failed to parse github-endpoint " + v3BaseURLs[i] + " as URL: " + url.error);
      }
      assert (urls + [url.value])[..|urls|] == urls;
      mapping := mapping[url.value.host := url.value.path];
      urls := urls + [url.value];
      i := i + 1;
    }
    assert v3BaseURLs[..i] == v3BaseURLs;
    var rtr := new AppsRoundTripper(appID, client, upstream, mapping);
    return Ok(rtr);
  }

  /** Once a base URL fails to parse, the whole list fails with that error. */
  lemma {:induction false} ParseErrorPersists(baseURLs: seq<string>, n: nat, parse: string -> Result<URL>)
    requires 0 < n <= |baseURLs|
    requires ParseAll(baseURLs[..n], parse).Err?
    ensures ParseAll(baseURLs, parse) == ParseAll(baseURLs[..n], parse)
    decreases |baseURLs| - n
  {
    if n < |baseURLs| {
      assert baseURLs[..n + 1][..n] == baseURLs[..n];
      ParseErrorPersists(baseURLs, n + 1, parse);
    } else {
      assert baseURLs[..n] == baseURLs;
    }
  }

  // ---------------------------------------------------------------------
  // Properties of the caches
  // ---------------------------------------------------------------------

  /**
   * Every cached value came from GitHub: the slug from an answer of
   * `GetApp`, each token from the answer for its installation, and the
   * installations from a listing.
   */
  ghost predicate Consistent(c: Caches)
  {
    (c.appSlug != "" ==> GetApp(Ok(c.appSlug)) in c.calls) &&
    (forall id :: id in c.tokens ==> CreateToken(id, Ok(c.tokens[id])) in c.calls) &&
    (c.installations.Some? ==>
       exists i :: 0 <= i < |c.calls| && c.calls[i].ListInstallations? && c.calls[i].listed.Ok? &&
                   ByLogin(c.calls[i].listed.value) == c.installations.value)
  }

  /** `getSlug` answers from the cache without a call, and keeps only a non-error answer. */
  lemma SlugMemo(c: Caches, client: GitHubClient)
    ensures var f := SlugLookup(c, client);
            (c.appSlug != "" ==> f == Fetched(Ok(c.appSlug), c)) &&
            (c.appSlug == "" ==> f.caches.calls == c.calls + [GetApp(client.getApp(|c.calls|))]) &&
            (f.result.Ok? ==> f.caches.appSlug == f.result.value) &&
            (f.result.Err? ==> f.caches.appSlug == "") &&
            f.caches.installations == c.installations && f.caches.tokens == c.tokens
  {
  }

  /** A usable cached token is returned without a call; otherwise exactly one call is made. */
  lemma TokenCache(c: Caches, client: GitHubClient, installation: int, now: int)
    ensures var f := TokenLookup(c, client, installation, now);
            (f.caches.calls == c.calls <==> installation in c.tokens && Usable(c.tokens[installation], now)) &&
            (f.caches.calls != c.calls ==>
               f.caches.calls == c.calls + [CreateToken(installation, client.appInstallationToken(|c.calls|, installation))]) &&
            (f.result.Ok? ==> installation in f.caches.tokens && f.caches.tokens[installation] == f.result.value) &&
            (f.result.Err? ==> f.caches.tokens == c.tokens) &&
            (forall id :: id != installation && id in c.tokens ==> id in f.caches.tokens && f.caches.tokens[id] == c.tokens[id]) &&
            f.caches.appSlug == c.appSlug && f.caches.installations == c.installations
  {
  }

  /**
   * A cached organisation is answered without a call. On a miss exactly one
   * listing is made; a listing equal to the cache leaves the cache as it was and
   * reports the organisation as not installed; a successful answer is the
   * organisation's entry in the now-cached installations.
   */
  lemma InstallationCache(c: Caches, client: GitHubClient, org: string)
    ensures var f := InstallationLookup(c, client, org);
            var hit := c.installations.Some? && org in c.installations.value;
            (hit ==> f == Fetched(Ok(c.installations.value[org].id), c)) &&
            (!hit ==> f.caches.calls == c.calls + [ListInstallations(client.listAppInstallations(|c.calls|))]) &&
            (!hit && client.listAppInstallations(|c.calls|).Ok? &&
             c.installations == Some(ByLogin(client.listAppInstallations(|c.calls|).value)) ==>
               f.result == Err(NotInstalled(org)) && f.caches.installations == c.installations) &&
            (f.result.Ok? ==> f.caches.installations.Some? && org in f.caches.installations.value &&
                              f.caches.installations.value[org].id == f.result.value) &&
            f.caches.appSlug == c.appSlug && f.caches.tokens == c.tokens
  {
  }

  /** The installations stay justified by a listing when the log only grows. */
  lemma ListingSurvives(c: Caches, d: Caches)
    requires Consistent(c) && c.installations.Some?
    requires d.installations == c.installations && |c.calls| <= |d.calls| && d.calls[..|c.calls|] == c.calls
    ensures exists i :: 0 <= i < |d.calls| && d.calls[i].ListInstallations? && d.calls[i].listed.Ok? &&
                        ByLogin(d.calls[i].listed.value) == d.installations.value
  {
    var i :| 0 <= i < |c.calls| && c.calls[i].ListInstallations? && c.calls[i].listed.Ok? &&
             ByLogin(c.calls[i].listed.value) == c.installations.value;
    assert d.calls[i] == d.calls[..|c.calls|][i];
  }

  /** `getSlug` keeps the caches consistent with the call log. */
  lemma SlugKeepsConsistent(c: Caches, client: GitHubClient)
    requires Consistent(c)
    ensures Consistent(SlugLookup(c, client).caches)
  {
    var d := SlugLookup(c, client).caches;
    assert d.calls[..|c.calls|] == c.calls;
    if c.installations.Some? {
      ListingSurvives(c, d);
    }
  }

  /** `getTokenForInstallation` keeps the caches consistent with the call log. */
  lemma TokenKeepsConsistent(c: Caches, client: GitHubClient, installation: int, now: int)
    requires Consistent(c)
    ensures Consistent(TokenLookup(c, client, installation, now).caches)
  {
    var d := TokenLookup(c, client, installation, now).caches;
    assert d.calls[..|c.calls|] == c.calls;
    if c.installations.Some? {
      ListingSurvives(c, d);
    }
  }

  /** `installationIDFor` keeps the caches consistent with the call log. */
  lemma InstallationKeepsConsistent(c: Caches, client: GitHubClient, org: string)
    requires Consistent(c)
    ensures Consistent(InstallationLookup(c, client, org).caches)
  {
    if !(c.installations.Some? && org in c.installations.value) {
      var listed := client.listAppInstallations(|c.calls|);
      var d := InstallationLookup(c, client, org).caches;
      assert d.calls == c.calls + [ListInstallations(listed)];
      assert d.appSlug == c.appSlug && d.tokens == c.tokens;
      if listed.Ok? && c.installations != Some(ByLogin(listed.value)) {
        assert d.installations == Some(ByLogin(listed.value));
        assert d.calls[|c.calls|] == ListInstallations(listed);
      } else {
        assert d.installations == c.installations;
        assert d.calls[..|c.calls|] == c.calls;
        if c.installations.Some? {
          ListingSurvives(c, d);
        }
      }
    }
  }

  /** `installationTokenFor` keeps the caches consistent. */
  lemma InstallationTokenKeepsConsistent(c: Caches, client: GitHubClient, org: string, now: int)
    requires Consistent(c)
    ensures Consistent(InstallationTokenLookup(c, client, org, now).caches)
  {
    var id := InstallationLookup(c, client, org);
    InstallationKeepsConsistent(c, client, org);
    if id.result.Ok? {
      TokenKeepsConsistent(id.caches, client, id.result.value, now);
    }
  }

  /** A whole authorisation step, and so every round trip, keeps the caches consistent with the call log. */
  lemma AuthorizeKeepsConsistent(c: Caches, client: GitHubClient, rt: Runtime, appID: string,
                                 mapping: map<string, string>, url: URL, org: string, header: Headers)
    requires Consistent(c)
    ensures Consistent(Authorize(c, client, rt, appID, mapping, url, org, header).caches)
  {
    var path := CanonicalizedPath(mapping, url);
    if UsesAppAuth(path) {
      AppAuthKeepsConsistent(c, client, rt, appID, path, header);
    } else {
      InstallationAuthKeepsConsistent(c, client, rt, org, header);
    }
  }

  /** App auth keeps the caches consistent with the call log. */
  lemma AppAuthKeepsConsistent(c: Caches, client: GitHubClient, rt: Runtime, appID: string, path: string, header: Headers)
    requires Consistent(c)
    ensures Consistent(AppAuth(c, client, rt, appID, path, header).caches)
  {
    SlugKeepsConsistent(c, client);
    var a := AppAuth(c, client, rt, appID, path, header);
    assert a.caches == c || a.caches == SlugLookup(c, client).caches;
  }

  /** Installation auth keeps the caches consistent with the call log. */
  lemma InstallationAuthKeepsConsistent(c: Caches, client: GitHubClient, rt: Runtime, org: string, header: Headers)
    requires Consistent(c)
    ensures Consistent(InstallationAuth(c, client, rt, org, header).caches)
  {
    if org != "" {
      var t := InstallationTokenLookup(c, client, org, rt.now);
      InstallationTokenKeepsConsistent(c, client, org, rt.now);
      SlugKeepsConsistent(t.caches, client);
      var a := InstallationAuth(c, client, rt, org, header);
      assert a.caches == t.caches || a.caches == SlugLookup(t.caches, client).caches;
    }
  }

  /** The app JWT lasts nine minutes and names the app; the budget is the app id on `/app` only. */
  lemma AppAuthHeaders(c: Caches, client: GitHubClient, rt: Runtime, appID: string, path: string, header: Headers)
    ensures AppClaims(appID, rt.now).expiresAt == rt.now + 540 && AppClaims(appID, rt.now).issuer == appID
    ensures var a := AppAuth(c, client, rt, appID, path, header);
            a.error.None? ==>
              rt.sign(AppClaims(appID, rt.now)).Ok? &&
              a.header[Authorization] == "Bearer " + rt.sign(AppClaims(appID, rt.now)).value &&
              a.header[TokenExpiryAt] == rt.format(rt.now + 540) &&
              a.header[TokenBudgetIdentifier] == (if path == "/app" then appID else SlugLookup(c, client).result.value)
    ensures path == "/app" ==> AppAuth(c, client, rt, appID, path, header).caches == c
  {
  }

  /** Installation auth needs an organisation; its budget identifier is "slug - org". */
  lemma InstallationAuthHeaders(c: Caches, client: GitHubClient, rt: Runtime, org: string, header: Headers)
    ensures org == "" ==> InstallationAuth(c, client, rt, org, header) == Authorized(Some(EmptyOrgError(rt)), header, c)
    ensures var a := InstallationAuth(c, client, rt, org, header);
            var t := InstallationTokenLookup(c, client, org, rt.now);
            a.error.None? ==>
              org != "" && t.result.Ok? && SlugLookup(t.caches, client).result.Ok? &&
              a.header[Authorization] == "Bearer " + t.result.value.token &&
              a.header[TokenExpiryAt] == rt.format(t.result.value.expiresAt) &&
              a.header[TokenBudgetIdentifier] == SlugLookup(t.caches, client).result.value + " - " + org
  {
  }

  /**
   * With the slug known, the organisation's installation cached and its
   * token usable, installation auth makes no call and changes no cache.
   */
  lemma WarmCachesMakeNoCalls(c: Caches, client: GitHubClient, rt: Runtime, org: string, header: Headers)
    requires org != "" && c.appSlug != ""
    requires c.installations.Some? && org in c.installations.value
    requires c.installations.value[org].id in c.tokens && Usable(c.tokens[c.installations.value[org].id], rt.now)
    ensures InstallationAuth(c, client, rt, org, header).caches == c
    ensures InstallationAuth(c, client, rt, org, header).error.None?
  {
    var id := c.installations.value[org].id;
    assert InstallationLookup(c, client, org) == Fetched(Ok(id), c);
    assert TokenLookup(c, client, id, rt.now) == Fetched(Ok(c.tokens[id]), c);
    assert InstallationTokenLookup(c, client, org, rt.now) == Fetched(Ok(c.tokens[id]), c);
  }

  /**
   * What the routing decides, as seen from outside: on an app-auth path
   * the installations and tokens are untouched, at most one call is made
   * and it asks for the app, and a success carries the signed JWT; on any
   * other path an empty organisation fails at once, without a call, and a
   * success carries the organisation's installation token.
   */
  lemma AuthorizeRouting(c: Caches, client: GitHubClient, rt: Runtime, appID: string, mapping: map<string, string>,
                         url: URL, org: string, header: Headers)
    ensures var a := Authorize(c, client, rt, appID, mapping, url, org, header);
            UsesAppAuth(CanonicalizedPath(mapping, url)) ==>
              a.caches.installations == c.installations && a.caches.tokens == c.tokens &&
              (a.caches.calls == c.calls ||
               (|a.caches.calls| == |c.calls| + 1 && a.caches.calls[..|c.calls|] == c.calls &&
                a.caches.calls[|c.calls|].GetApp?)) &&
              (a.error.None? ==> a.header[Authorization] == "Bearer " + rt.sign(AppClaims(appID, rt.now)).value)
    ensures var a := Authorize(c, client, rt, appID, mapping, url, org, header);
            !UsesAppAuth(CanonicalizedPath(mapping, url)) && org == "" ==>
              a == Authorized(Some(EmptyOrgError(rt)), header, c)
    ensures var a := Authorize(c, client, rt, appID, mapping, url, org, header);
            !UsesAppAuth(CanonicalizedPath(mapping, url)) && a.error.None? ==>
              InstallationTokenLookup(c, client, org, rt.now).result.Ok? &&
              a.header[Authorization] == "Bearer " + InstallationTokenLookup(c, client, org, rt.now).result.value.token
  {
    var path := CanonicalizedPath(mapping, url);
    if UsesAppAuth(path) {
      AppAuthHeaders(c, client, rt, appID, path, header);
      var slug := SlugLookup(c, client);
      assert slug.caches.installations == c.installations && slug.caches.tokens == c.tokens;
      assert slug.caches.calls == c.calls || slug.caches.calls == c.calls + [GetApp(client.getApp(|c.calls|))];
    } else {
      InstallationAuthHeaders(c, client, rt, org, header);
    }
  }
}
