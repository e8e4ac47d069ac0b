/**
 * The `Api` client: a base URL, an optional bearer token, and GET and POST
 * requests whose status is checked. The HTTP exchange itself is a function
 * from the request sent to the reply received.
 */
module ApiClient {
  import opened Wrappers
  import opened Text

  /** A JSON value as `resp.json()` decodes it. */
  datatype Json =
    | JNull
    | JBool(b: bool)
    | JNum(n: real)
    | JStr(s: string)
    | JArr(items: seq<Json>)
    | JObj(fields: map<string, Json>)

  /** A reply: its status, its body decoded as JSON when it is JSON, and its
      text. */
  datatype Reply = Reply(status: int, json: Option<Json>, text: string)

  /** What reaches the server: the URL, the query parameters (for GET) or the
      JSON payload (for POST), and the headers. */
  datatype Request = Request(url: string, payload: map<string, string>, headers: map<string, string>)

  /** What `get` hands back: the decoded JSON, or the text when the body is
      not JSON. */
  datatype Body = JsonBody(value: Json) | TextBody(text: string)

  datatype ApiError =
    | StatusError(status: int, url: string, text: string)  // a status other than 200
    | JsonDecodeError                                       // `post` on a body that is not JSON
    | TokenNotFound(path: string)                           // `ValueError`: no usable token
    | FileNotFound(path: string)                            // the token file cannot be opened

  /** `f"{base.rstrip('/')}/{endpoint.lstrip('/')}"`. */
  function BuildUrl(base: string, endpoint: string): string
  {
    StripTrailing(base, {'/'}) + "/" + StripLeading(endpoint, {'/'})
  }

  /** The headers of both requests: `Authorization: Bearer <t>` when the
      token is set and not empty, and nothing otherwise. */
  function AuthHeaders(bearer: Option<string>): (h: map<string, string>)
    ensures "Authorization" in h <==> bearer.Some? && bearer.value != ""
    ensures "Authorization" in h ==> h["Authorization"] == "Bearer " + bearer.value
    ensures h.Keys <= {"Authorization"}
  {
    if bearer.Some? && bearer.value != "" then map["Authorization" := "Bearer " + bearer.value] else map[]
  }

  /** The outcome of `get` for a reply to `url`. */
  function GetResult(reply: Reply, url: string): Result<Body, ApiError>
  {
    if reply.status != 200 then Err(StatusError(reply.status, url, reply.text))
    else match reply.json
      case Some(j) => Ok(JsonBody(j))
      case None => Ok(TextBody(reply.text))
  }

  /** The outcome of `post`: the decoded JSON, which must be there. */
  function PostResult(reply: Reply, url: string): Result<Json, ApiError>
  {
    if reply.status != 200 then Err(StatusError(reply.status, url, reply.text))
    else match reply.json
      case Some(j) => Ok(j)
      case None => Err(JsonDecodeError)
  }

  /** A token file as the two readers see it: `open(...).read()` gives its
      content (`None` when it cannot be opened), and `configparser` its
      options by section and key, values stripped. A file `config.read`
      cannot open has no options; a file it opens is taken to parse, with no
      `%` in its values. */
  datatype TokenFile = TokenFile(content: Option<string>, options: map<(string, string), string>)

  /** The token `set_bearer_token_from_file` finds, or the error it raises:
      a path ending in `.ini` is read as a configuration file, any other as
      plain text. */
  function TokenFrom(path: string, file: TokenFile, section: string, key: string): Result<string, ApiError>
  {
    if EndsWith(path, ".ini") then
      if (section, key) in file.options && file.options[(section, key)] != "" then Ok(file.options[(section, key)])
      else Err(TokenNotFound(path))
    else match file.content
      case None => Err(FileNotFound(path))
      case Some(c) => if Strip(c) != "" then Ok(Strip(c)) else Err(TokenNotFound(path))
  }

  class Api {
    const baseUrl: string
    var bearer: Option<string>

    /** A client for `baseUrl`, with no token yet. */
    constructor(baseUrl: string)
      ensures this.baseUrl == baseUrl && bearer == None
    {
      this.baseUrl := baseUrl;
      bearer := None;
    }

    /** The `bearer_token` property. */
    function BearerToken(): Option<string>
      reads this
    {
      bearer
    }

    method SetBearerToken(token: string)
      modifies this
      ensures bearer == Some(token)
    {
      bearer := Some(token);
    }

    /** `set_bearer_token_from_file`: the token is replaced only when one was
        found; otherwise the error is raised and the old token stays. */
    method SetBearerTokenFromFile(path: string, file: TokenFile, section: string := "auth", key: string := "bearer_token")
      returns (r: Result<(), ApiError>)
      modifies this
      ensures r.Ok? <==> TokenFrom(path, file, section, key).Ok?
      ensures r.Ok? ==> bearer == Some(TokenFrom(path, file, section, key).value)
      ensures r.Err? ==> r.error == TokenFrom(path, file, section, key).error && bearer == old(bearer)
    {
      var token := TokenFrom(path, file, section, key);
      if token.Err? {
        return Err(token.error);
      }
      SetBearerToken(token.value);
      r := Ok(());
    }

    /** `get`: the request sent and what comes back. */
    method Get(endpoint: string, payload: map<string, string>, server: Request -> Reply)
      returns (r: Result<Body, ApiError>, sent: Request)
      ensures sent == Request(BuildUrl(baseUrl, endpoint), payload, AuthHeaders(bearer))
      ensures r == GetResult(server(sent), sent.url)
    {
      var url := BuildUrl(baseUrl, endpoint);
      var headers: map<string, string> := map[];
      if bearer.Some? && bearer.value != "" {
        headers := headers["Authorization" := "Bearer " + bearer.value];
      }
      sent := Request(url, payload, headers);
      r := GetResult(server(sent), url);
    }

    /** `post`: the request sent and the decoded reply. */
    method Post(endpoint: string, payload: map<string, string>, server: Request -> Reply)
      returns (r: Result<Json, ApiError>, sent: Request)
      ensures sent == Request(BuildUrl(baseUrl, endpoint), payload, AuthHeaders(bearer))
      ensures r == PostResult(server(sent), sent.url)
    {
      var url := BuildUrl(baseUrl, endpoint);
      var headers: map<string, string> := map[];
      if bearer.Some? && bearer.value != "" {
        headers := headers["Authorization" := "Bearer " + bearer.value];
      }
      sent := Request(url, payload, headers);
      r := PostResult(server(sent), url);
    }
  }

  // ------------------------------------------------------------- properties

  /** Exactly one `/` joins the base and the endpoint: the part before it
      does not end with one and the part after it does not start with one. */
  lemma OneJoiningSlash(base: string, endpoint: string)
    ensures var url := BuildUrl(base, endpoint);
      var i := |StripTrailing(base, {'/'})|;
      && i < |url| && url[i] == '/'
      && url[..i] == StripTrailing(base, {'/'}) && (i == 0 || url[i - 1] != '/')
      && url[i + 1..] == StripLeading(endpoint, {'/'}) && (i + 1 == |url| || url[i + 1] != '/')
      && url[..i] == base[..i] && url[i + 1..] == endpoint[|endpoint| - |url[i + 1..]|..]
  {
    StripLeadingFacts(endpoint, {'/'});
    StripTrailingFacts(base, {'/'});
  }

  /** An empty endpoint gives the base with a single trailing `/`. */
  lemma EmptyEndpoint(base: string)
    ensures BuildUrl(base, "") == StripTrailing(base, {'/'}) + "/"
  {
  }

  /** Slashes at the seam do not matter. */
  lemma SlashesAtTheSeam(base: string, endpoint: string)
    ensures BuildUrl(base + "/", endpoint) == BuildUrl(base, endpoint)
    ensures BuildUrl(base, "/" + endpoint) == BuildUrl(base, endpoint)
  {
    assert (base + "/")[..|base + "/"| - 1] == base;
    assert ("/" + endpoint)[1..] == endpoint;
  }

  /** Both requests fail, whatever the body, exactly when the status is not
      200; a successful `get` falls back to the text only when the body is
      not JSON, while `post` then fails. */
  lemma StatusChecked(reply: Reply, url: string)
    ensures GetResult(reply, url).Err? <==> reply.status != 200
    ensures PostResult(reply, url).Err? <==> reply.status != 200 || reply.json.None?
    ensures reply.status == 200 && reply.json.None? ==> GetResult(reply, url) == Ok(TextBody(reply.text))
    ensures reply.status == 200 && reply.json.Some? ==>
      GetResult(reply, url) == Ok(JsonBody(reply.json.value)) && PostResult(reply, url) == Ok(reply.json.value)
  {
  }

  /** A `.ini` file's value for another section or key is never used. */
  lemma OtherOptionsIgnored(path: string, file: TokenFile, section: string, key: string, other: (string, string), value: string)
    requires EndsWith(path, ".ini") && other != (section, key)
    ensures TokenFrom(path, file.(options := file.options[other := value]), section, key) == TokenFrom(path, file, section, key)
  {
  }

  /** A token read from a plain file has its surrounding whitespace removed,
      and a file holding only whitespace holds no token. */
  lemma PlainTokenStripped(path: string, file: TokenFile, section: string, key: string)
    requires !EndsWith(path, ".ini") && file.content.Some?
    ensures TokenFrom(path, file, section, key).Ok? <==>
      exists i :: 0 <= i < |file.content.value| && file.content.value[i] !in Whitespace
    ensures TokenFrom(path, file, section, key).Ok? ==> TokenFrom(path, file, section, key).value == Strip(file.content.value)
  {
    StripBothFacts(file.content.value, Whitespace);
  }
}
