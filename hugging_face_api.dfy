/**
 * `HuggingFaceApi`: the Hugging Face Hub client. It renders endpoint
 * templates for one repository (namespace, name, revision), fetches model
 * and dataset information and file listings, and downloads files into a
 * directory. The inherited client state (base URL, bearer token) is the
 * `ApiClient.Api` it holds.
 */
module HuggingFace {
  import opened Wrappers
  import opened Text
  import opened ApiClient
  import opened Template

  const BaseUrl: string := "https://huggingface.co"

  /** `{namespace}/{repo}`, after `prefix`. */
  function RepoTemplate(prefix: string): seq<Segment>
  {
    [Lit(prefix), Hole("namespace"), Lit("/"), Hole("repo")]
  }

  /** `{namespace}/{repo}/tree/{rev}/{path}`, after `prefix`. */
  function TreeTemplate(prefix: string): seq<Segment>
  {
    [Lit(prefix), Hole("namespace"), Lit("/"), Hole("repo"), Lit("/tree/"), Hole("rev"), Lit("/"), Hole("path")]
  }

  /** The `ENDPOINT` table as written: the dataset entries lie under
      `api/dataset/`, where the Hub's routes are `api/datasets/`. */
  const EndpointsAsWritten: map<string, seq<Segment>> := map[
    "model_info" := RepoTemplate("api/models/"),
    "model_files" := TreeTemplate("api/models/"),
    "model_file_download" := FileDownloadTemplate,
    "dataset_info" := RepoTemplate("api/dataset/"),
    "dataset_files" := TreeTemplate("api/dataset/"),
    "dataset_file_download" := FileDownloadTemplate
  ]

  /** The table with the dataset entries under `api/datasets/`, which the
      client below uses. */
  const Endpoints: map<string, seq<Segment>> :=
    EndpointsAsWritten["dataset_info" := RepoTemplate("api/datasets/")]["dataset_files" := TreeTemplate("api/datasets/")]

  /** `{namespace}/{repo}/resolve/{rev}/{filename}`, for models and datasets
      alike. */
  const FileDownloadTemplate: seq<Segment> :=
    [Hole("namespace"), Lit("/"), Hole("repo"), Lit("/resolve/"), Hole("rev"), Lit("/"), Hole("filename")]

  /** The placeholders `build_endpoint` fills. */
  const ArgumentNames: set<string> := {"namespace", "repo", "rev", "path", "filename"}

  datatype HfError =
    | InvalidEndpoint                 // `ValueError`: no such template
    | MissingModelInformation         // an empty namespace, repository or revision
    | Failed(cause: ApiError)         // the request itself failed
    | NotIterable                     // the listing is a number, a boolean or null
    | NotADict                        // a listed item has no `.get`
    | NoPath                          // a listed file has no "path"
    | NotEncodable                    // a downloaded body that is neither text nor a JSON string

  /** One entry of a file listing: its path and its size (null when absent). */
  datatype FileInfo = FileInfo(path: Json, size: Json)

  /** The file or files `download_file` is asked for. */
  datatype FileNames = One(name: string) | Many(names: seq<string>)

  /** What is written to a file: text, or the `str()` of a decoded JSON
      value. */
  datatype Content = Bytes(text: string) | Shown(value: Json)

  datatype FileWrite = FileWrite(path: string, content: Content)

  /** What `download_file` returns: one path for one name, a list for a list. */
  datatype Saved = SavedOne(path: string) | SavedAll(paths: seq<string>)

  /** Every template, in either table, uses only the placeholders
      `build_endpoint` fills, so rendering never fails; the two tables name
      the same endpoints. */
  lemma TemplatesComplete(endpoint: string)
    requires endpoint in Endpoints
    ensures endpoint in EndpointsAsWritten
    ensures Holes(Endpoints[endpoint]) <= ArgumentNames
    ensures Holes(EndpointsAsWritten[endpoint]) <= ArgumentNames
  {
    HolesAmong(Endpoints[endpoint], ArgumentNames);
    HolesAmong(EndpointsAsWritten[endpoint], ArgumentNames);
  }

  lemma TablesShareNames()
    ensures Endpoints.Keys == EndpointsAsWritten.Keys
  {
  }

  /** A repository template with its placeholders filled. */
  lemma RepoTemplateRenders(prefix: string, env: map<string, string>)
    requires "namespace" in env && "repo" in env
    ensures Render(RepoTemplate(prefix), env) == Some(prefix + env["namespace"] + "/" + env["repo"])
  {
    var t := RepoTemplate(prefix);
    assert t == [Lit(prefix), Hole("namespace")] + [Lit("/"), Hole("repo")];
    RenderPair(Lit(prefix), Hole("namespace"), env);
    RenderPair(Lit("/"), Hole("repo"), env);
    RenderAppend([Lit(prefix), Hole("namespace")], [Lit("/"), Hole("repo")], env);
    assert Piece(Lit(prefix), env) == prefix && Piece(Hole("namespace"), env) == env["namespace"];
    assert Piece(Lit("/"), env) == "/" && Piece(Hole("repo"), env) == env["repo"];
    assert Render(t, env).value == prefix + env["namespace"] + ("/" + env["repo"]);
    assert prefix + env["namespace"] + ("/" + env["repo"]) == prefix + env["namespace"] + "/" + env["repo"];
  }

  /** A listing template with its placeholders filled. */
  lemma TreeTemplateRenders(prefix: string, env: map<string, string>)
    requires "namespace" in env && "repo" in env && "rev" in env && "path" in env
    ensures Render(TreeTemplate(prefix), env) ==
      Some(prefix + env["namespace"] + "/" + env["repo"] + "/tree/" + env["rev"] + "/" + env["path"])
  {
    var t := TreeTemplate(prefix);
    var p1, p2, p3, p4 := [Lit(prefix), Hole("namespace")], [Lit("/"), Hole("repo")], [Lit("/tree/"), Hole("rev")], [Lit("/"), Hole("path")];
    assert t == p1 + (p2 + (p3 + p4));
    RenderPair(Lit(prefix), Hole("namespace"), env);
    RenderPair(Lit("/"), Hole("repo"), env);
    RenderPair(Lit("/tree/"), Hole("rev"), env);
    RenderPair(Lit("/"), Hole("path"), env);
    RenderAppend(p3, p4, env);
    RenderAppend(p2, p3 + p4, env);
    RenderAppend(p1, p2 + (p3 + p4), env);
    Regroup8(prefix, env["namespace"], "/", env["repo"], "/tree/", env["rev"], "/", env["path"]);
  }

  lemma Regroup8(a: string, b: string, c: string, d: string, e: string, f: string, g: string, h: string)
    ensures (a + b) + ((c + d) + ((e + f) + (g + h))) == a + b + c + d + e + f + g + h
  {
  }

  /** The download template with its placeholders filled. */
  lemma FileDownloadRenders(env: map<string, string>)
    requires "namespace" in env && "repo" in env && "rev" in env && "filename" in env
    ensures Render(FileDownloadTemplate, env) ==
      Some(env["namespace"] + "/" + env["repo"] + "/resolve/" + env["rev"] + "/" + env["filename"])
  {
    var t := FileDownloadTemplate;
    assert t == [Hole("namespace"), Lit("/")] + ([Hole("repo"), Lit("/resolve/")] + ([Hole("rev"), Lit("/")] + [Hole("filename")]));
    RenderPair(Hole("namespace"), Lit("/"), env);
    RenderPair(Hole("repo"), Lit("/resolve/"), env);
    RenderPair(Hole("rev"), Lit("/"), env);
    RenderOne(Hole("filename"), env);
    RenderAppend([Hole("rev"), Lit("/")], [Hole("filename")], env);
    RenderAppend([Hole("repo"), Lit("/resolve/")], [Hole("rev"), Lit("/")] + [Hole("filename")], env);
    RenderAppend([Hole("namespace"), Lit("/")], [Hole("repo"), Lit("/resolve/")] + ([Hole("rev"), Lit("/")] + [Hole("filename")]), env);
    var ns, r, v, f := env["namespace"], env["repo"], env["rev"], env["filename"];
    assert Render(t, env).value == (ns + "/") + ((r + "/resolve/") + ((v + "/") + f));
    Regroup(ns, "/", r, "/resolve/", v, "/", f);
  }

  /** What iterating over a `get` result yields: a list's items, the keys of
      an object, the characters of a string. Keys and characters have no
      `.get`, so only an empty object or string gives an empty listing. */
  function Listing(body: Body): Result<seq<Json>, HfError>
  {
    match body
    case TextBody(t) => if t == "" then Ok([]) else Err(NotADict)
    case JsonBody(JArr(items)) => Ok(items)
    case JsonBody(JObj(fields)) => if fields == map[] then Ok([]) else Err(NotADict)
    case JsonBody(JStr(s)) => if s == "" then Ok([]) else Err(NotADict)
    case JsonBody(_) => Err(NotIterable)
  }

  /** `item.get("type") == "file"`. */
  predicate IsFileEntry(fields: map<string, Json>)
  {
    "type" in fields && fields["type"] == JStr("file")
  }

  /** `{"path": item["path"], "size": item.get("size", None)}`. */
  function Project(fields: map<string, Json>): FileInfo
    requires "path" in fields
  {
    FileInfo(fields["path"], if "size" in fields then fields["size"] else JNull)
  }

  /** The comprehension over the listed items, which stops at the first item
      it cannot handle. */
  function Entries(items: seq<Json>): (r: Result<seq<FileInfo>, HfError>)
    ensures r.Ok? ==> |r.value| <= |items|
  {
    if items == [] then Ok([])
    else
      var rest := Entries(items[1..]);
      match items[0]
      case JObj(fields) =>
        if !IsFileEntry(fields) then rest
        else if "path" !in fields then Err(NoPath)
        else if rest.Err? then rest
        else Ok([Project(fields)] + rest.value)
      case _ => Err(NotADict)
  }

  /** The file listing `get_files_info` builds from a response. */
  function FileInfos(body: Body): Result<seq<FileInfo>, HfError>
  {
    match Listing(body)
    case Err(e) => Err(e)
    case Ok(items) => Entries(items)
  }

  /** `os.path.join(dir, name)` on POSIX: an absolute name replaces the
      directory; otherwise one `/` separates the two unless the directory is
      empty or already ends with one. */
  function PathJoin(dir: string, name: string): string
  {
    if |name| > 0 && name[0] == '/' then name
    else if dir == "" || dir[|dir| - 1] == '/' then dir + name
    else dir + "/" + name
  }

  /** `str(content)`: a string as it is, anything else as its rendering. */
  function ShownContent(body: Body): Content
  {
    match body
    case TextBody(t) => Bytes(t)
    case JsonBody(JStr(s)) => Bytes(s)
    case JsonBody(j) => Shown(j)
  }

  /** The rest of a download after some files were already saved. */
  function After(paths: seq<string>, written: seq<FileWrite>, rest: (Result<seq<string>, HfError>, seq<FileWrite>)): (Result<seq<string>, HfError>, seq<FileWrite>)
  {
    (if rest.0.Ok? then Ok(paths + rest.0.value) else rest.0, written + rest.1)
  }

  class HuggingFaceApi {
    const api: Api
    const namespace: string
    const repo: string
    const rev: string

    /** A client for one repository; the revision defaults to `main`. */
    constructor(namespace: string, repo: string, rev: string := "main")
      ensures this.namespace == namespace && this.repo == repo && this.rev == rev
      ensures fresh(api) && api.baseUrl == BaseUrl && api.bearer == None
    {
      api := new Api(BaseUrl);
      this.namespace := namespace;
      this.repo := repo;
      this.rev := rev;
    }

    /** The token file is read with the `huggingface` section by default. */
    method SetBearerTokenFromFile(path: string, file: TokenFile, section: string := "huggingface", key: string := "bearer_token")
      returns (r: Result<(), ApiError>)
      modifies api
      ensures r.Ok? <==> TokenFrom(path, file, section, key).Ok?
      ensures r.Ok? ==> api.bearer == Some(TokenFrom(path, file, section, key).value)
      ensures r.Err? ==> r.error == TokenFrom(path, file, section, key).error && api.bearer == old(api.bearer)
    {
      r := api.SetBearerTokenFromFile(path, file, section, key);
    }

    /** `validate_model_fields`: none of the three fields may be empty. */
    function ValidateModelFields(): (r: Result<bool, HfError>)
      ensures r.Ok? <==> namespace != "" && repo != "" && rev != ""
      ensures r.Ok? ==> r.value
      ensures r.Err? ==> r.error == MissingModelInformation
    {
      if namespace == "" || repo == "" || rev == "" then Err(MissingModelInformation) else Ok(true)
    }

    /** The keyword arguments of `format`. */
    function Arguments(path: string, filename: string): (env: map<string, string>)
      ensures env.Keys == ArgumentNames
    {
      map["namespace" := namespace, "repo" := repo, "rev" := rev, "path" := path, "filename" := filename]
    }

    /** `build_endpoint`: the template for `endpoint` with this repository's
        fields, or `InvalidEndpoint` for an unknown name. */
    function BuildEndpoint(endpoint: string, path: string := "", filename: string := ""): (r: Result<string, HfError>)
      ensures r.Err? <==> endpoint !in Endpoints
      ensures r.Err? ==> r.error == InvalidEndpoint
    {
      if endpoint !in Endpoints then Err(InvalidEndpoint)
      else
        TemplatesComplete(endpoint);
        Ok(Render(Endpoints[endpoint], Arguments(path, filename)).value)
    }

    /** `build_endpoint` with the table as written. */
    function BuildEndpointAsWritten(endpoint: string, path: string := "", filename: string := ""): (r: Result<string, HfError>)
      ensures r.Err? <==> endpoint !in EndpointsAsWritten
      ensures r.Err? ==> r.error == InvalidEndpoint
    {
      TablesShareNames();
      if endpoint !in EndpointsAsWritten then Err(InvalidEndpoint)
      else
        TemplatesComplete(endpoint);
        Ok(Render(EndpointsAsWritten[endpoint], Arguments(path, filename)).value)
    }

    /** `self.get(path, payload)` as seen with token `bearer`. */
    function Fetched(path: string, payload: map<string, string>, bearer: Option<string>, server: Request -> Reply): Result<Body, HfError>
    {
      var sent := Request(BuildUrl(api.baseUrl, path), payload, AuthHeaders(bearer));
      match GetResult(server(sent), sent.url)
      case Ok(body) => Ok(body)
      case Err(e) => Err(Failed(e))
    }

    /** `get_base_info`: the rendered endpoint, fetched. */
    function BaseInfo(endpoint: string, bearer: Option<string>, server: Request -> Reply): Result<Body, HfError>
    {
      match BuildEndpoint(endpoint)
      case Err(e) => Err(e)
      case Ok(path) => Fetched(path, map[], bearer, server)
    }

    /** `get_files_info`: the recursive listing, reduced to its files. */
    function FilesInfo(endpoint: string, path: string, bearer: Option<string>, server: Request -> Reply): Result<seq<FileInfo>, HfError>
    {
      match BuildEndpoint(endpoint, path)
      case Err(e) => Err(e)
      case Ok(p) =>
        match Fetched(p, map["recursive" := "True"], bearer, server)
        case Err(e) => Err(e)
        case Ok(body) => FileInfos(body)
    }

    method GetBaseInfo(endpoint: string, server: Request -> Reply) returns (r: Result<Body, HfError>)
      ensures r == BaseInfo(endpoint, api.bearer, server)
    {
      var path := BuildEndpoint(endpoint);
      if path.Err? {
        return Err(path.error);
      }
      var body, _ := api.Get(path.value, map[], server);
      r := if body.Ok? then Ok(body.value) else Err(Failed(body.error));
    }

    /** `get_model_info`: the fields are validated before anything is sent. */
    method GetModelInfo(endpoint: string := "model_info", server: Request -> Reply) returns (r: Result<Body, HfError>)
      ensures ValidateModelFields().Err? ==> r == Err(MissingModelInformation)
      ensures ValidateModelFields().Ok? ==> r == BaseInfo(endpoint, api.bearer, server)
    {
      var valid := ValidateModelFields();
      if valid.Err? {
        return Err(valid.error);
      }
      r := GetBaseInfo(endpoint, server);
    }

    /** `get_dataset_info`: no validation. */
    method GetDatasetInfo(endpoint: string := "dataset_info", server: Request -> Reply) returns (r: Result<Body, HfError>)
      ensures r == BaseInfo(endpoint, api.bearer, server)
    {
      r := GetBaseInfo(endpoint, server);
    }

    method GetFilesInfo(endpoint: string, path: string := "", server: Request -> Reply) returns (r: Result<seq<FileInfo>, HfError>)
      ensures r == FilesInfo(endpoint, path, api.bearer, server)
    {
      var p := BuildEndpoint(endpoint, path);
      if p.Err? {
        return Err(p.error);
      }
      var body, _ := api.Get(p.value, map["recursive" := "True"], server);
      if body.Err? {
        return Err(Failed(body.error));
      }
      r := FileInfos(body.value);
    }

    method GetModelFilesInfo(endpoint: string := "model_files", path: string := "", server: Request -> Reply) returns (r: Result<seq<FileInfo>, HfError>)
      ensures ValidateModelFields().Err? ==> r == Err(MissingModelInformation)
      ensures ValidateModelFields().Ok? ==> r == FilesInfo(endpoint, path, api.bearer, server)
    {
      var valid := ValidateModelFields();
      if valid.Err? {
        return Err(valid.error);
      }
      r := GetFilesInfo(endpoint, path, server);
    }

    method GetDatasetFilesInfo(endpoint: string := "dataset_files", path: string := "", server: Request -> Reply) returns (r: Result<seq<FileInfo>, HfError>)
      ensures r == FilesInfo(endpoint, path, api.bearer, server)
    {
      r := GetFilesInfo(endpoint, path, server);
    }

    /** Where one name of a list is saved: `<dest>/<repo>_<name>` with every
        `/` of the name turned into `_`. */
    function ManyPath(destDir: string, name: string): string
    {
      PathJoin(destDir, repo + "_" + ReplaceChar(name, '/', '_'))
    }

    /** Where a single name is saved: `<dest>/<repo>_<name>.txt`, the name
        as given. */
    function OnePath(destDir: string, name: string): string
    {
      PathJoin(destDir, repo + "_" + name + ".txt")
    }

    /** One file of a list, fetched and rendered; its write does not happen
        when the request fails. */
    function SaveEach(endpoint: string, name: string, destDir: string, bearer: Option<string>, server: Request -> Reply): Result<FileWrite, HfError>
    {
      match BuildEndpoint(endpoint, "", name)
      case Err(e) => Err(e)
      case Ok(path) =>
        match Fetched(path, map[], bearer, server)
        case Err(e) => Err(e)
        case Ok(body) => Ok(FileWrite(ManyPath(destDir, name), ShownContent(body)))
    }

    /** The list case, file after file: the paths saved, or the first error,
        and the writes made up to it. */
    function SaveAll(endpoint: string, names: seq<string>, destDir: string, bearer: Option<string>, server: Request -> Reply): (Result<seq<string>, HfError>, seq<FileWrite>)
    {
      if names == [] then (Ok([]), [])
      else match SaveEach(endpoint, names[0], destDir, bearer, server)
        case Err(e) => (Err(e), [])
        case Ok(w) => After([w.path], [w], SaveAll(endpoint, names[1..], destDir, bearer, server))
    }

    /** The single case: the file is opened before its content is encoded,
        so a body that cannot be encoded leaves an empty file behind. */
    function SaveSingle(endpoint: string, name: string, destDir: string, bearer: Option<string>, server: Request -> Reply): (Result<string, HfError>, seq<FileWrite>)
    {
      match BuildEndpoint(endpoint, "", name)
      case Err(e) => (Err(e), [])
      case Ok(path) =>
        match Fetched(path, map[], bearer, server)
        case Err(e) => (Err(e), [])
        case Ok(body) =>
          var target := OnePath(destDir, name);
          match body
          case TextBody(t) => (Ok(target), [FileWrite(target, Bytes(t))])
          case JsonBody(JStr(s)) => (Ok(target), [FileWrite(target, Bytes(s))])
          case JsonBody(_) => (Err(NotEncodable), [FileWrite(target, Bytes(""))])
    }

    /** `download_file`: what it returns or raises, and the files it writes. */
    function Download(endpoint: string, files: FileNames, destDir: string, bearer: Option<string>, server: Request -> Reply): (Result<Saved, HfError>, seq<FileWrite>)
    {
      if endpoint !in Endpoints then (Err(InvalidEndpoint), [])
      else match files
        case One(name) =>
          var (r, written) := SaveSingle(endpoint, name, destDir, bearer, server);
          (if r.Ok? then Ok(SavedOne(r.value)) else Err(r.error), written)
        case Many(names) =>
          var (r, written) := SaveAll(endpoint, names, destDir, bearer, server);
          (if r.Ok? then Ok(SavedAll(r.value)) else Err(r.error), written)
    }

    method DownloadFile(endpoint: string, files: FileNames, destDir: string := "tmp", server: Request -> Reply)
      returns (r: Result<Saved, HfError>, written: seq<FileWrite>)
      ensures (r, written) == Download(endpoint, files, destDir, api.bearer, server)
    {
      written := [];
      if endpoint !in Endpoints {
        return Err(InvalidEndpoint), [];
      }
      match files {
        case One(name) =>
          var single := DownloadSingle(endpoint, name, destDir, server);
          r := if single.0.Ok? then Ok(SavedOne(single.0.value)) else Err(single.0.error);
          written := single.1;
        case Many(names) =>
          var all := DownloadAll(endpoint, names, destDir, server);
          r := if all.0.Ok? then Ok(SavedAll(all.0.value)) else Err(all.0.error);
          written := all.1;
      }
    }

    /** The loop of the list case: each name is fetched, then its file
        written; a failed request ends the loop, leaving the files already
        written. */
    method DownloadAll(endpoint: string, names: seq<string>, destDir: string, server: Request -> Reply)
      returns (r: (Result<seq<string>, HfError>, seq<FileWrite>))
      ensures r == SaveAll(endpoint, names, destDir, api.bearer, server)
    {
      var paths: seq<string> := [];
      var written: seq<FileWrite> := [];
      var i := 0;
      AfterNothing(SaveAll(endpoint, names, destDir, api.bearer, server));
      while i < |names|
        invariant 0 <= i <= |names|
        invariant SaveAll(endpoint, names, destDir, api.bearer, server) == After(paths, written, SaveAll(endpoint, names[i..], destDir, api.bearer, server))
      {
        assert names[i..][1..] == names[i + 1..];
        var path := BuildEndpoint(endpoint, "", names[i]);
        if path.Err? {
          assert written + [] == written;
          return (Err(path.error), written);
        }
        var body, _ := api.Get(path.value, map[], server);
        if body.Err? {
          assert written + [] == written;
          return (Err(Failed(body.error)), written);
        }
        var w := FileWrite(ManyPath(destDir, names[i]), ShownContent(body.value));
        AfterStep(paths, written, w, SaveAll(endpoint, names[i + 1..], destDir, api.bearer, server));
        written := written + [w];
        paths := paths + [w.path];
        i := i + 1;
      }
      assert names[i..] == [];
      assert paths + [] == paths && written + [] == written;
      r := (Ok(paths), written);
    }

    method DownloadSingle(endpoint: string, name: string, destDir: string, server: Request -> Reply)
      returns (r: (Result<string, HfError>, seq<FileWrite>))
      ensures r == SaveSingle(endpoint, name, destDir, api.bearer, server)
    {
      var path := BuildEndpoint(endpoint, "", name);
      if path.Err? {
        return (Err(path.error), []);
      }
      var body, _ := api.Get(path.value, map[], server);
      if body.Err? {
        return (Err(Failed(body.error)), []);
      }
      var target := OnePath(destDir, name);
      match body.value {
        case TextBody(t) => r := (Ok(target), [FileWrite(target, Bytes(t))]);
        case JsonBody(JStr(s)) => r := (Ok(target), [FileWrite(target, Bytes(s))]);
        case JsonBody(_) => r := (Err(NotEncodable), [FileWrite(target, Bytes(""))]);
      }
    }

    method DownloadModelFile(files: FileNames, destDir: string := "tmp", endpoint: string := "model_file_download", server: Request -> Reply)
      returns (r: Result<Saved, HfError>, written: seq<FileWrite>)
      ensures (r, written) == Download(endpoint, files, destDir, api.bearer, server)
    {
      r, written := DownloadFile(endpoint, files, destDir, server);
    }

    method DownloadDatasetFile(files: FileNames, destDir: string := "tmp", endpoint: string := "dataset_file_download", server: Request -> Reply)
      returns (r: Result<Saved, HfError>, written: seq<FileWrite>)
      ensures (r, written) == Download(endpoint, files, destDir, api.bearer, server)
    {
      r, written := DownloadFile(endpoint, files, destDir, server);
    }

    // ----------------------------------------------------------- properties

    /** The information endpoints ignore the path and the file name. */
    lemma InfoIgnoresPathAndName(endpoint: string, path: string, filename: string)
      requires endpoint == "model_info" || endpoint == "dataset_info"
      ensures BuildEndpoint(endpoint, path, filename) == BuildEndpoint(endpoint)
    {
      UnusedArgumentsIgnored(Endpoints[endpoint], Arguments(path, filename), Arguments("", ""));
    }

    /** A model's information is requested at
        `api/models/<namespace>/<repo>`. */
    lemma ModelInfoEndpoint()
      ensures BuildEndpoint("model_info") == Ok("api/models/" + namespace + "/" + repo)
    {
      RepoTemplateRenders("api/models/", Arguments("", ""));
    }

    /** With the corrected table, a dataset's information is requested at
        `api/datasets/<namespace>/<repo>` and its files are listed at
        `api/datasets/<namespace>/<repo>/tree/<rev>/<path>`. */
    lemma DatasetEndpoints(path: string)
      ensures BuildEndpoint("dataset_info") == Ok("api/datasets/" + namespace + "/" + repo)
      ensures BuildEndpoint("dataset_files", path) ==
        Ok("api/datasets/" + namespace + "/" + repo + "/tree/" + rev + "/" + path)
    {
      RepoTemplateRenders("api/datasets/", Arguments("", ""));
      TreeTemplateRenders("api/datasets/", Arguments(path, ""));
    }

    /** As written, both dataset endpoints render under `api/dataset/`, so
        neither lies under the Hub's `api/datasets/`; the model endpoints
        are the same in both tables. */
    lemma DatasetEndpointsAsWritten(path: string)
      ensures BuildEndpointAsWritten("dataset_info") == Ok("api/dataset/" + namespace + "/" + repo)
      ensures BuildEndpointAsWritten("dataset_files", path) ==
        Ok("api/dataset/" + namespace + "/" + repo + "/tree/" + rev + "/" + path)
      ensures !IsPrefix("api/datasets/", BuildEndpointAsWritten("dataset_info").value)
      ensures !IsPrefix("api/datasets/", BuildEndpointAsWritten("dataset_files", path).value)
      ensures BuildEndpointAsWritten("model_info") == BuildEndpoint("model_info")
      ensures BuildEndpointAsWritten("model_files", path) == BuildEndpoint("model_files", path)
    {
      RepoTemplateRenders("api/dataset/", Arguments("", ""));
      TreeTemplateRenders("api/dataset/", Arguments(path, ""));
      var info := BuildEndpointAsWritten("dataset_info").value;
      var files := BuildEndpointAsWritten("dataset_files", path).value;
      assert info[11] == '/' && files[11] == '/';
      assert "api/datasets/"[11] == 's';
    }

    /** A file is downloaded from `<namespace>/<repo>/resolve/<rev>/<name>`,
        the same address for models and datasets. */
    lemma FileDownloadEndpoint(filename: string)
      ensures BuildEndpoint("model_file_download", "", filename) == Ok(namespace + "/" + repo + "/resolve/" + rev + "/" + filename)
      ensures BuildEndpoint("dataset_file_download", "", filename) == BuildEndpoint("model_file_download", "", filename)
    {
      var env := Arguments("", filename);
      FileDownloadRenders(env);
      assert Endpoints["model_file_download"] == FileDownloadTemplate == Endpoints["dataset_file_download"];
      assert env["namespace"] == namespace && env["repo"] == repo && env["rev"] == rev && env["filename"] == filename;
    }

    /** Without a namespace, repository or revision the model getters fail
        before sending anything, while the dataset getters send anyway. */
    lemma OnlyModelGettersValidate(endpoint: string, path: string, bearer: Option<string>, server: Request -> Reply)
      requires namespace == "" || repo == "" || rev == ""
      ensures ValidateModelFields() == Err(MissingModelInformation)
      ensures endpoint in Endpoints ==> BuildEndpoint(endpoint, path).Ok?
    {
    }

    /** An unknown endpoint fails before any file is written. */
    lemma UnknownEndpointWritesNothing(endpoint: string, files: FileNames, destDir: string, bearer: Option<string>, server: Request -> Reply)
      requires endpoint !in Endpoints
      ensures Download(endpoint, files, destDir, bearer, server) == (Err(InvalidEndpoint), [])
    {
    }

    /** The list case writes one file per name, in order, each where
        `ManyPath` puts it, and stops at the first failed request; the paths
        it returns are those of the files it wrote. */
    lemma {:induction false} SaveAllShape(endpoint: string, names: seq<string>, destDir: string, bearer: Option<string>, server: Request -> Reply)
      requires endpoint in Endpoints
      ensures SavedAs(ManyPaths(destDir, names), SaveAll(endpoint, names, destDir, bearer, server))
      decreases |names|
    {
      if names != [] {
        var e := SaveEach(endpoint, names[0], destDir, bearer, server);
        SaveEachPath(endpoint, names[0], destDir, bearer, server);
        SaveAllShape(endpoint, names[1..], destDir, bearer, server);
        var rest := SaveAll(endpoint, names[1..], destDir, bearer, server);
        var expected := ManyPaths(destDir, names[1..]);
        assert ManyPaths(destDir, names) == [ManyPath(destDir, names[0])] + expected;
        if e.Ok? {
          assert SaveAll(endpoint, names, destDir, bearer, server) == After([e.value.path], [e.value], rest);
          SavedAfter(e.value, expected, rest);
        } else {
          SavedNothing(e.error, [ManyPath(destDir, names[0])] + expected);
        }
      }
    }

    /** Where the files of a list are saved, in list order. */
    function ManyPaths(destDir: string, names: seq<string>): (paths: seq<string>)
      ensures |paths| == |names|
      ensures forall k :: 0 <= k < |names| ==> paths[k] == ManyPath(destDir, names[k])
    {
      if names == [] then [] else [ManyPath(destDir, names[0])] + ManyPaths(destDir, names[1..])
    }

    /** A file of a list is saved under the list's naming. */
    lemma SaveEachPath(endpoint: string, name: string, destDir: string, bearer: Option<string>, server: Request -> Reply)
      ensures SaveEach(endpoint, name, destDir, bearer, server).Ok? ==>
        SaveEach(endpoint, name, destDir, bearer, server).value.path == ManyPath(destDir, name)
    {
    }

    /** Names of a list are flattened: with a repository name free of `/`,
        the saved file name holds no `/`, so every file lands directly in
        the destination directory. */
    lemma ListedNamesFlattened(name: string)
      requires '/' !in repo
      ensures '/' !in repo + "_" + ReplaceChar(name, '/', '_')
    {
      var base := repo + "_" + ReplaceChar(name, '/', '_');
      forall i | 0 <= i < |base|
        ensures base[i] != '/'
      {
        if i < |repo| {
          assert base[i] == repo[i];
        } else if i > |repo| {
          assert base[i] == ReplaceChar(name, '/', '_')[i - |repo| - 1];
        }
      }
    }

    /** A single name gets a `.txt` suffix and writes exactly one file; a
        body neither text nor a JSON string leaves that file empty and
        fails. */
    lemma SingleFileShape(endpoint: string, name: string, destDir: string, bearer: Option<string>, server: Request -> Reply)
      requires endpoint in Endpoints
      ensures var (r, written) := SaveSingle(endpoint, name, destDir, bearer, server);
        && |written| <= 1
        && (|written| == 1 <==> Fetched(BuildEndpoint(endpoint, "", name).value, map[], bearer, server).Ok?)
        && (|written| == 1 ==> written[0].path == OnePath(destDir, name))
        && (r.Ok? ==> written == [FileWrite(r.value, written[0].content)] && r.value == OnePath(destDir, name))
        && (r == Err(NotEncodable) ==> written == [FileWrite(OnePath(destDir, name), Bytes(""))])
    {
    }
  }

  /** The outcome of saving a list whose files go to `expected`: the writes
      made go to the first of those paths in order, no more of them than
      there are; success writes them all and returns exactly those paths,
      and a failure stops before the end. */
  predicate SavedAs(expected: seq<string>, out: (Result<seq<string>, HfError>, seq<FileWrite>))
  {
    var (r, written) := out;
    && |written| <= |expected|
    && (forall k :: 0 <= k < |written| ==> written[k].path == expected[k])
    && (r.Ok? ==> |written| == |expected| && r.value == expected)
    && (r.Err? ==> |written| < |expected|)
  }

  lemma SavedAfter(w: FileWrite, expected: seq<string>, rest: (Result<seq<string>, HfError>, seq<FileWrite>))
    requires SavedAs(expected, rest)
    ensures SavedAs([w.path] + expected, After([w.path], [w], rest))
  {
    var out := After([w.path], [w], rest);
    assert forall k :: 1 <= k < |out.1| ==> out.1[k] == rest.1[k - 1];
  }

  lemma SavedNothing(e: HfError, expected: seq<string>)
    requires |expected| > 0
    ensures SavedAs(expected, (Err(e), []))
  {
  }

  lemma AfterNothing(rest: (Result<seq<string>, HfError>, seq<FileWrite>))
    ensures After([], [], rest) == rest
  {
    if rest.0.Ok? {
      assert [] + rest.0.value == rest.0.value;
    }
    assert [] + rest.1 == rest.1;
  }

  lemma AfterStep(paths: seq<string>, written: seq<FileWrite>, w: FileWrite, rest: (Result<seq<string>, HfError>, seq<FileWrite>))
    ensures After(paths, written, After([w.path], [w], rest)) == After(paths + [w.path], written + [w], rest)
  {
    if rest.0.Ok? {
      assert paths + ([w.path] + rest.0.value) == paths + [w.path] + rest.0.value;
    }
    assert written + ([w] + rest.1) == written + [w] + rest.1;
  }

  // --------------------------------------------------------------- listing

  /** The listing fails exactly when an item is not an object, or is a file
      entry without a path. */
  lemma {:induction false} EntriesFailIff(items: seq<Json>)
    ensures Entries(items).Err? <==>
      exists k :: 0 <= k < |items| && (!items[k].JObj? || (IsFileEntry(items[k].fields) && "path" !in items[k].fields))
    decreases |items|
  {
    if items != [] {
      EntriesFailIff(items[1..]);
      assert forall k :: 0 <= k < |items| - 1 ==> items[1..][k] == items[k + 1];
    }
  }

  /** The file objects of a listing, in order. */
  function FileObjects(items: seq<Json>): seq<map<string, Json>>
  {
    if items == [] then []
    else if items[0].JObj? && IsFileEntry(items[0].fields) then [items[0].fields] + FileObjects(items[1..])
    else FileObjects(items[1..])
  }

  /** A successful listing keeps the file entries, in order, and nothing
      else: one projected entry per file object. */
  lemma {:induction false} EntriesAreFiles(items: seq<Json>)
    requires Entries(items).Ok?
    ensures var files := FileObjects(items);
      && |Entries(items).value| == |files|
      && forall k :: 0 <= k < |files| ==> "path" in files[k] && Entries(items).value[k] == Project(files[k])
    decreases |items|
  {
    if items != [] {
      EntriesAreFiles(items[1..]);
    }
  }

  /** Directories and other non-file entries do not change the listing. */
  lemma NonFilesSkipped(fields: map<string, Json>, items: seq<Json>)
    requires !IsFileEntry(fields)
    ensures Entries([JObj(fields)] + items) == Entries(items)
  {
    assert ([JObj(fields)] + items)[1..] == items;
  }

  /** A response that is not a list lists nothing, or fails. */
  lemma OnlyListsList(body: Body)
    requires !(body.JsonBody? && body.value.JArr?)
    ensures FileInfos(body).Ok? ==> FileInfos(body).value == []
  {
  }
}
