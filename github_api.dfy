/**
 * `GitHubApi`: the GitHub REST client. It renders endpoint templates for
 * one repository (owner, name, revision), checks a token against `/user`
 * before adopting it, and lists a repository's pull requests. The inherited
 * client state is the `ApiClient.Api` it holds.
 */
module GitHub {
  import opened Wrappers
  import opened Text
  import opened ApiClient
  import opened Template

  const BaseUrl: string := "https://api.github.com"

  /** The `ENDPOINT` table as written: the contents endpoint is spelled
      `/repose/`, unlike its two siblings. */
  const EndpointsAsWritten: map<string, seq<Segment>> := map[
    "verify_token" := [Lit("/user")],
    "repo_content" := [Lit("/repose/"), Hole("owner"), Lit("/"), Hole("repo"), Lit("/contents/"), Hole("path")],
    "readme" := [Lit("/repos/"), Hole("owner"), Lit("/"), Hole("repo"), Lit("/readme")],
    "pull_requests" := [Lit("/repos/"), Hole("owner"), Lit("/"), Hole("repo"), Lit("/pulls")]
  ]

  /** The table with the contents endpoint under `/repos/`, which the
      client below uses. */
  const Endpoints: map<string, seq<Segment>> :=
    EndpointsAsWritten["repo_content" := [Lit("/repos/"), Hole("owner"), Lit("/"), Hole("repo"), Lit("/contents/"), Hole("path")]]

  /** The endpoints that address one repository. */
  const RepoEndpoints: set<string> := {"repo_content", "readme", "pull_requests"}

  const ArgumentNames: set<string> := {"owner", "repo", "rev", "path", "filename"}

  datatype GhError =
    | InvalidEndpoint          // `ValueError`: no such template
    | Exit(code: int)          // `sys.exit`: no token, or GitHub rejected it
    | Failed(cause: ApiError)  // the request itself failed

  /** The address of a repository, as GitHub's repository endpoints start. */
  function RepoPrefix(owner: string, repo: string): string
  {
    "/repos/" + owner + "/" + repo + "/"
  }

  /** The common head of the repository templates. */
  function RepoHead(): seq<Segment>
  {
    [Lit("/repos/"), Hole("owner"), Lit("/"), Hole("repo")]
  }

  /** Both tables use only the placeholders `build_endpoint` fills. */
  lemma TemplatesComplete(endpoint: string)
    ensures endpoint in Endpoints ==> Holes(Endpoints[endpoint]) <= ArgumentNames
    ensures endpoint in EndpointsAsWritten ==> Holes(EndpointsAsWritten[endpoint]) <= ArgumentNames
    ensures Endpoints.Keys == EndpointsAsWritten.Keys
  {
    if endpoint in Endpoints {
      HolesAmong(Endpoints[endpoint], ArgumentNames);
    }
    if endpoint in EndpointsAsWritten {
      HolesAmong(EndpointsAsWritten[endpoint], ArgumentNames);
    }
  }

  /** The keyword arguments of `format`. */
  function Arguments(owner: string, repo: string, rev: string, path: string, filename: string): (env: map<string, string>)
    ensures env.Keys == ArgumentNames
  {
    map["owner" := owner, "repo" := repo, "rev" := rev, "path" := path, "filename" := filename]
  }

  /** `build_endpoint` over a given table. */
  function RenderEndpoint(table: map<string, seq<Segment>>, endpoint: string, env: map<string, string>): (r: Result<string, GhError>)
    requires env.Keys == ArgumentNames
    requires forall k :: k in table ==> Holes(table[k]) <= ArgumentNames
    ensures r.Err? <==> endpoint !in table
    ensures r.Err? ==> r.error == InvalidEndpoint
  {
    if endpoint !in table then Err(InvalidEndpoint) else Ok(Render(table[endpoint], env).value)
  }

  /** `verify_token`: exits without a token and when GitHub answers 401 to
      `/user`; any other answer lets the token through. */
  function VerifyToken(token: Option<string>, server: Request -> Reply): (r: Result<(), GhError>)
    ensures r.Err? ==> r.error == Exit(1)
    ensures token.None? ==> r.Err?
  {
    match token
    case None => Err(Exit(1))
    case Some(t) =>
      if server(VerifyRequest(t)).status == 401 then Err(Exit(1)) else Ok(())
  }

  /** The request `verify_token` sends: the base URL and `/user` joined as
      they are, the token in the header even when it is empty, no query. */
  function VerifyRequest(token: string): Request
  {
    Request(BaseUrl + "/user", map[], map["Authorization" := "Bearer " + token])
  }

  class GitHubApi {
    const api: Api
    const owner: string
    const repo: string
    const rev: string

    /** A client for one repository; the revision defaults to `main`. */
    constructor(owner: string, repo: string, rev: string := "main")
      ensures this.owner == owner && this.repo == repo && this.rev == rev
      ensures fresh(api) && api.baseUrl == BaseUrl && api.bearer == None
    {
      api := new Api(BaseUrl);
      this.owner := owner;
      this.repo := repo;
      this.rev := rev;
    }

    /** `build_endpoint`, with the contents endpoint under `/repos/`. */
    function BuildEndpoint(endpoint: string, path: string := "", filename: string := ""): (r: Result<string, GhError>)
      ensures r.Err? <==> endpoint !in Endpoints
    {
      TemplatesComplete(endpoint);
      assert forall k :: k in Endpoints ==> Holes(Endpoints[k]) <= ArgumentNames by {
        forall k | k in Endpoints
          ensures Holes(Endpoints[k]) <= ArgumentNames
        {
          TemplatesComplete(k);
        }
      }
      RenderEndpoint(Endpoints, endpoint, Arguments(owner, repo, rev, path, filename))
    }

    /** `build_endpoint` as written. */
    function BuildEndpointAsWritten(endpoint: string, path: string := "", filename: string := ""): (r: Result<string, GhError>)
      ensures r.Err? <==> endpoint !in EndpointsAsWritten
    {
      assert forall k :: k in EndpointsAsWritten ==> Holes(EndpointsAsWritten[k]) <= ArgumentNames by {
        forall k | k in EndpointsAsWritten
          ensures Holes(EndpointsAsWritten[k]) <= ArgumentNames
        {
          TemplatesComplete(k);
        }
      }
      RenderEndpoint(EndpointsAsWritten, endpoint, Arguments(owner, repo, rev, path, filename))
    }

    /** `set_bearer_token_from_env`: the variable's value is verified and,
        if GitHub does not reject it, becomes the token. */
    method SetBearerTokenFromEnv(environment: map<string, string>, varName: string := "GITHUB_TOKEN", server: Request -> Reply)
      returns (r: Result<(), GhError>)
      modifies api
      ensures var token := if varName in environment then Some(environment[varName]) else None;
        r == VerifyToken(token, server) && (r.Ok? ==> api.bearer == token) && (r.Err? ==> api.bearer == old(api.bearer))
    {
      var token := if varName in environment then Some(environment[varName]) else None;
      r := VerifyToken(token, server);
      if r.Ok? {
        api.SetBearerToken(token.value);
      }
    }

    /** The request `get_repo_pulls` makes, if its endpoint exists. */
    function PullsRequest(state: string, endpoint: string, bearer: Option<string>): Option<Request>
    {
      match BuildEndpoint(endpoint)
      case Err(_) => None
      case Ok(path) => Some(Request(BuildUrl(api.baseUrl, path), map["state" := state], AuthHeaders(bearer)))
    }

    /** `get_repo_pulls`: the pull requests in `state` (all by default). */
    method GetRepoPulls(state: string := "all", endpoint: string := "pull_requests", server: Request -> Reply)
      returns (r: Result<Body, GhError>)
      ensures PullsRequest(state, endpoint, api.bearer).None? ==> r == Err(InvalidEndpoint)
      ensures PullsRequest(state, endpoint, api.bearer).Some? ==>
        var sent := PullsRequest(state, endpoint, api.bearer).value;
        r == match GetResult(server(sent), sent.url) { case Ok(b) => Ok(b) case Err(e) => Err(Failed(e)) }
    {
      var path := BuildEndpoint(endpoint);
      if path.Err? {
        return Err(InvalidEndpoint);
      }
      var body, _ := api.Get(path.value, map["state" := state], server);
      r := if body.Ok? then Ok(body.value) else Err(Failed(body.error));
    }

    // ----------------------------------------------------------- properties

    /** The pull requests of `owner/repo` are asked for at
        `/repos/<owner>/<repo>/pulls`, with the state as the only query
        parameter. */
    lemma PullsAddress(state: string, bearer: Option<string>)
      ensures PullsRequest(state, "pull_requests", bearer) ==
        Some(Request(BuildUrl(api.baseUrl, RepoPrefix(owner, repo) + "pulls"), map["state" := state], AuthHeaders(bearer)))
    {
      SimpleTail("/pulls", "pulls", "", "");
      RepoEndpointRenders([Lit("/pulls")], "pulls", "", "");
      assert Endpoints["pull_requests"] == RepoHead() + [Lit("/pulls")];
    }

    /** With the corrected table, every repository endpoint lies under
        `/repos/<owner>/<repo>/`: the README at `.../readme` and a file at
        `.../contents/<path>`. */
    lemma RepoEndpointsUnderRepos(endpoint: string, path: string, filename: string)
      requires endpoint in RepoEndpoints
      ensures BuildEndpoint(endpoint, path, filename).Ok?
      ensures IsPrefix(RepoPrefix(owner, repo), BuildEndpoint(endpoint, path, filename).value)
      ensures endpoint == "readme" ==> BuildEndpoint(endpoint, path, filename).value == RepoPrefix(owner, repo) + "readme"
      ensures endpoint == "repo_content" ==>
        BuildEndpoint(endpoint, path, filename).value == RepoPrefix(owner, repo) + "contents/" + path
    {
      var env := Arguments(owner, repo, rev, path, filename);
      if endpoint == "repo_content" {
        RenderPair(Lit("/contents/"), Hole("path"), env);
        assert "/contents/" + path == "/" + ("contents/" + path);
        RepoEndpointRenders([Lit("/contents/"), Hole("path")], "contents/" + path, path, filename);
        assert Endpoints[endpoint] == RepoHead() + [Lit("/contents/"), Hole("path")];
      } else if endpoint == "readme" {
        SimpleTail("/readme", "readme", path, filename);
        RepoEndpointRenders([Lit("/readme")], "readme", path, filename);
        assert Endpoints[endpoint] == RepoHead() + [Lit("/readme")];
      } else {
        SimpleTail("/pulls", "pulls", path, filename);
        RepoEndpointRenders([Lit("/pulls")], "pulls", path, filename);
        assert Endpoints[endpoint] == RepoHead() + [Lit("/pulls")];
      }
    }

    /** As written, the contents endpoint renders outside `/repos/`, for
        every owner and repository, while its sibling `readme` does not. */
    lemma ContentEndpointAsWritten(path: string)
      ensures BuildEndpointAsWritten("repo_content", path).Ok?
      ensures !IsPrefix("/repos/", BuildEndpointAsWritten("repo_content", path).value)
      ensures IsPrefix("/repos/", BuildEndpointAsWritten("readme").value)
    {
      var env := Arguments(owner, repo, rev, path, "");
      var t := EndpointsAsWritten["repo_content"];
      assert t == [Lit("/repose/")] + t[1..];
      TemplatesComplete("repo_content");
      HolesSplit(t, 1);
      assert t[..1] == [Lit("/repose/")];
      RenderLit("/repose/", env);
      RenderAppend([Lit("/repose/")], t[1..], env);
      var s := BuildEndpointAsWritten("repo_content", path).value;
      assert s[..8] == "/repose/";
      assert s[6] == 'e';
      SimpleTail("/readme", "readme", "", "");
      RepoEndpointRenders([Lit("/readme")], "readme", "", "");
      assert EndpointsAsWritten["readme"] == RepoHead() + [Lit("/readme")];
    }

    lemma SimpleTail(text: string, shown: string, path: string, filename: string)
      requires text == "/" + shown
      ensures Holes([Lit(text)]) <= ArgumentNames
      ensures Render([Lit(text)], Arguments(owner, repo, rev, path, filename)) == Some("/" + shown)
    {
      RenderOne(Lit(text), Arguments(owner, repo, rev, path, filename));
    }

    /** A repository template renders to the repository's address followed
        by its own part. */
    lemma RepoEndpointRenders(rest: seq<Segment>, shown: string, path: string, filename: string)
      requires Holes(rest) <= ArgumentNames
      requires Render(rest, Arguments(owner, repo, rev, path, filename)) == Some("/" + shown)
      ensures Holes(RepoHead() + rest) <= ArgumentNames
      ensures Render(RepoHead() + rest, Arguments(owner, repo, rev, path, filename)) == Some(RepoPrefix(owner, repo) + shown)
    {
      var env := Arguments(owner, repo, rev, path, filename);
      var head := RepoHead();
      assert head == [Lit("/repos/"), Hole("owner")] + [Lit("/"), Hole("repo")];
      RenderPair(Lit("/repos/"), Hole("owner"), env);
      RenderPair(Lit("/"), Hole("repo"), env);
      RenderAppend([Lit("/repos/"), Hole("owner")], [Lit("/"), Hole("repo")], env);
      RenderAppend(head, rest, env);
      assert ("/repos/" + owner) + ("/" + repo) + ("/" + shown) == RepoPrefix(owner, repo) + shown;
    }
  }

  /** A missing variable exits before any request; GitHub's 401 exits after
      one; the token is checked as given, empty or not. */
  lemma TokenVerification(token: string, server: Request -> Reply)
    ensures VerifyToken(None, server) == Err(Exit(1))
    ensures VerifyToken(Some(token), server).Ok? <==> server(VerifyRequest(token)).status != 401
    ensures VerifyRequest(token).headers["Authorization"] == "Bearer " + token
  {
  }
}
