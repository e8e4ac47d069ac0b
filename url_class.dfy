/**
 * The project file and the Hugging Face URLs in it: each non-blank line of
 * the file names a code link, a dataset link and a model link, separated by
 * commas, and the model and dataset links are taken apart into their
 * namespace, repository and revision.
 */
module UrlClass {
  import opened Wrappers
  import opened Text

  datatype Code = Code(link: string, namespace: string)

  datatype Dataset = Dataset(link: string, namespace: string, repo: string, rev: string)

  datatype Model = Model(link: string, namespace: string, repo: string, rev: string)

  /** The links of one line of the project file; an empty field is `None`. */
  datatype ProjectGroup = ProjectGroup(code: Option<Code>, dataset: Option<Dataset>, model: Option<Model>)

  /** The `ValueError`s raised while reading a project file. */
  datatype UrlError =
    | InvalidModelUrl(url: string)
    | InvalidDatasetUrl(url: string)
    | InvalidIpv6Url
    | TooManyFields(line: string, fields: nat)

  // ------------------------------------------------------------ URL paths

  /** The characters `urlsplit` deletes wherever they occur. */
  const UnsafeChars: set<char> := {'\t', '\r', '\n'}

  /** `url.lstrip(...)` of the C0 control characters and the space. */
  function StripControls(url: string): (r: string)
    ensures |r| <= |url|
  {
    if url != [] && url[0] <= ' ' then StripControls(url[1..]) else url
  }

  /** The text `urlsplit` takes apart: leading controls and spaces dropped,
      then every tab, carriage return and line feed deleted. */
  function Cleaned(url: string): string
  {
    Remove(StripControls(url), UnsafeChars)
  }

  predicate IsAsciiLetter(c: char) { 'a' <= c <= 'z' || 'A' <= c <= 'Z' }

  predicate IsSchemeChar(c: char) { IsAsciiLetter(c) || IsDigit(c) || c == '+' || c == '-' || c == '.' }

  /** The text before the first `:` is a scheme: a letter, then letters,
      digits, `+`, `-` and `.`. */
  predicate HasScheme(url: string)
  {
    var i := IndexOf(url, ':');
    0 < i < |url| && IsAsciiLetter(url[0]) && forall k :: 0 <= k < i ==> IsSchemeChar(url[k])
  }

  /** The scheme, lower-cased, or `""` when there is none. */
  function SchemeOf(url: string): string
  {
    if HasScheme(url) then Lower(url[..IndexOf(url, ':')]) else ""
  }

  /** The URL without its scheme and the `:` after it. */
  function AfterScheme(url: string): string
  {
    if HasScheme(url) then url[IndexOf(url, ':') + 1..] else url
  }

  const NetlocEnds: set<char> := {'/', '?', '#'}

  const PathEnds: set<char> := {'?', '#'}

  /** The network location: what follows a leading `//`, up to the first
      `/`, `?` or `#`; empty when there is no `//`. */
  function Netloc(rest: string): string
  {
    if |rest| >= 2 && rest[..2] == "//" then rest[2..][..IndexOfAny(rest[2..], NetlocEnds)] else ""
  }

  /** What follows the network location, when there is a `//` to start one. */
  function AfterNetloc(rest: string): string
  {
    if |rest| >= 2 && rest[..2] == "//" then rest[2 + IndexOfAny(rest[2..], NetlocEnds)..] else rest
  }

  /** A network location with a `[` and no `]`, or a `]` and no `[`. */
  predicate UnbalancedBrackets(netloc: string) { ('[' in netloc) != (']' in netloc) }

  /** The schemes `urlparse` splits `;params` off for (`uses_params`). */
  const UsesParams: set<string> :=
    {"", "ftp", "hdl", "prospero", "http", "imap", "https", "shttp", "rtsp", "rtsps", "rtspu",
     "sip", "sips", "mms", "sftp", "tel"}

  /** `_splitparams`: the path before the first `;` that follows its last
      `/`, or before its first `;` when it has no `/`. */
  function WithoutParams(path: string): (p: string)
    ensures |p| <= |path| && p == path[..|p|]
  {
    if '/' in path then
      var last := LastIndexOf(path, '/');
      path[..last + IndexOf(path[last..], ';')]
    else path[..IndexOf(path, ';')]
  }

  /** The path without its parameters, when it has any. */
  function ParamsCutOff(path: string): string
  {
    if ';' in path then WithoutParams(path) else path
  }

  /** `urlparse(url).path`, or the `ValueError` `urlsplit` raises for a
      network location with unbalanced brackets. */
  function UrlPath(url: string): (r: Result<string, UrlError>)
    ensures r.Err? ==> r.error == InvalidIpv6Url
    ensures r.Ok? ==> forall i :: 0 <= i < |r.value| ==> r.value[i] !in PathEnds
  {
    var clean := Cleaned(url);
    var rest := AfterScheme(clean);
    if UnbalancedBrackets(Netloc(rest)) then Err(InvalidIpv6Url)
    else
      var afterNetloc := AfterNetloc(rest);
      var path := afterNetloc[..IndexOfAny(afterNetloc, PathEnds)];
      Ok(if SchemeOf(clean) in UsesParams then ParamsCutOff(path) else path)
  }

  /** `path.strip("/").split("/")`. */
  function PathParts(path: string): (parts: seq<string>)
    ensures |parts| >= 1
  {
    Split(StripBoth(path, {'/'}), '/')
  }

  /** `parse_huggingface_url`: namespace and repository are the first two
      path segments, and the revision follows a third segment `tree`. */
  function ParseHuggingfaceUrl(url: string): (r: Result<(string, string, string), UrlError>)
    ensures UrlPath(url).Err? ==> r == Err(InvalidIpv6Url)
    ensures UrlPath(url).Ok? ==> (r.Err? <==> '/' !in StripBoth(UrlPath(url).value, {'/'}))
    ensures UrlPath(url).Ok? && r.Err? ==> r.error == InvalidModelUrl(url)
  {
    match UrlPath(url)
    case Err(e) => Err(e)
    case Ok(path) =>
      var parts := PathParts(path);
      if |parts| < 2 then Err(InvalidModelUrl(url))
      else
        var rev := if |parts| >= 4 && parts[2] == "tree" then parts[3] else "";
        Ok((parts[0], parts[1], rev))
  }

  /** `parse_hf_dataset_url_repo`: the last path segment of a URL whose
      path starts with a `datasets` segment followed by at least one more. */
  function ParseHfDatasetUrlRepo(url: string): (r: Result<string, UrlError>)
    ensures UrlPath(url).Err? ==> r == Err(InvalidIpv6Url)
    ensures UrlPath(url).Ok? ==>
      (r.Err? <==> |PathParts(UrlPath(url).value)| < 2 || PathParts(UrlPath(url).value)[0] != "datasets")
    ensures UrlPath(url).Ok? && r.Err? ==> r.error == InvalidDatasetUrl(url)
  {
    match UrlPath(url)
    case Err(e) => Err(e)
    case Ok(path) =>
      var parts := PathParts(path);
      if |parts| < 2 || parts[0] != "datasets" then Err(InvalidDatasetUrl(url))
      else Ok(parts[|parts| - 1])
  }

  // ------------------------------------------ URLs built from their parts

  /** A character that ends neither the path nor survives cleaning. */
  predicate Plain(c: char) { c !in PathEnds && c !in UnsafeChars }

  /** A path segment as it appears in a hub URL: no `/`, no `;` and nothing
      `urlsplit` cuts at or deletes. */
  predicate IsSegment(s: string) { |s| > 0 && forall i :: 0 <= i < |s| ==> Plain(s[i]) && s[i] != '/' && s[i] != ';' }

  predicate AllSegments(segs: seq<string>) { forall k :: 0 <= k < |segs| ==> IsSegment(segs[k]) }

  /** A host that ends at the next `/`, is not cleaned away and has no
      brackets. */
  predicate IsHost(host: string)
  {
    forall i :: 0 <= i < |host| ==> host[i] !in NetlocEnds && host[i] !in UnsafeChars && host[i] != '[' && host[i] != ']'
  }

  /** `https://<host>/<seg>/<seg>/...`. */
  function HubUrl(host: string, segs: seq<string>): string
  {
    "https://" + host + "/" + Join(segs, '/')
  }

  /** Joined segments: nothing cut at or deleted, no `;`, and the ends are
      not `/`. */
  lemma {:induction false} JoinedSegments(segs: seq<string>)
    requires |segs| > 0 && AllSegments(segs)
    ensures var p := Join(segs, '/');
      && |p| > 0 && p[0] != '/' && p[|p| - 1] != '/'
      && forall i :: 0 <= i < |p| ==> Plain(p[i]) && p[i] != ';'
    decreases |segs|
  {
    if |segs| > 1 {
      JoinedSegments(segs[1..]);
      var rest := Join(segs[1..], '/');
      var p := segs[0] + ['/'] + rest;
      assert Join(segs, '/') == p;
      forall i | 0 <= i < |p|
        ensures Plain(p[i]) && p[i] != ';'
      {
        if i < |segs[0]| {
          assert p[i] == segs[0][i];
        } else if i > |segs[0]| {
          assert p[i] == rest[i - |segs[0]| - 1];
        }
      }
    } else {
      assert IsSegment(segs[0]);
    }
  }

  /** `https:` is a scheme, and one that carries parameters. */
  lemma {:induction false} HttpsScheme(rest: string)
    ensures AfterScheme("https:" + rest) == rest
    ensures SchemeOf("https:" + rest) == "https"
  {
    var url := "https:" + rest;
    IndexOfFirst(url, ':');
    assert url[5] == ':';
    assert forall k :: 0 <= k < 5 ==> url[k] == "https"[k];
    assert IndexOf(url, ':') == 5;
    assert url[6..] == rest;
    assert url[..5] == "https";
    assert Lower("https") == "https";
  }

  /** The network location ends at the first `/`. */
  lemma {:induction false} NetlocCut(host: string, p: string)
    requires forall i :: 0 <= i < |host| ==> host[i] !in NetlocEnds
    ensures AfterNetloc("//" + host + "/" + p) == "/" + p
    ensures Netloc("//" + host + "/" + p) == host
  {
    var tail := host + "/" + p;
    var rest := "//" + host + "/" + p;
    assert rest == "//" + tail;
    assert rest[..2] == "//" && rest[2..] == tail;
    FirstEndAt(host, p, NetlocEnds);
    assert tail[|host|..] == "/" + p;
    assert tail[..|host|] == host;
  }

  lemma FirstEndAt(host: string, p: string, ends: set<char>)
    requires '/' in ends
    requires forall i :: 0 <= i < |host| ==> host[i] !in ends
    ensures IndexOfAny(host + "/" + p, ends) == |host|
  {
    var tail := host + "/" + p;
    assert tail[|host|] == '/';
    assert forall k :: 0 <= k < |host| ==> tail[k] == host[k];
  }

  /** A path with no query or fragment mark is the whole rest. */
  lemma {:induction false} NoQuery(p: string)
    requires forall i :: 0 <= i < |p| ==> p[i] !in PathEnds
    ensures IndexOfAny("/" + p, PathEnds) == |p| + 1
  {
    var after := "/" + p;
    assert forall k :: 1 <= k < |after| ==> after[k] == p[k - 1];
  }

  /** An `https` URL with nothing to delete is its own cleaned text. */
  lemma {:induction false} HttpsClean(host: string, p: string)
    requires forall i :: 0 <= i < |host| ==> host[i] !in UnsafeChars
    requires forall i :: 0 <= i < |p| ==> p[i] !in UnsafeChars
    ensures Cleaned("https://" + host + "/" + p) == "https://" + host + "/" + p
  {
    var url := "https://" + host + "/" + p;
    assert StripControls(url) == url;
    forall i | 0 <= i < |url|
      ensures url[i] !in UnsafeChars
    {
      if i < 8 {
        assert url[i] == "https://"[i];
      } else if i < 8 + |host| {
        assert url[i] == host[i - 8];
      } else if i > 8 + |host| {
        assert url[i] == p[i - 9 - |host|];
      }
    }
  }

  /** The path of `https://<host>/<p>`, for a host as in a hub URL and a
      `p` with nothing to cut at or delete: `/<p>`, less its parameters. */
  lemma {:induction false} HttpsPath(host: string, p: string)
    requires IsHost(host)
    requires forall i :: 0 <= i < |p| ==> Plain(p[i])
    ensures UrlPath("https://" + host + "/" + p) == Ok(ParamsCutOff("/" + p))
  {
    var url := "https://" + host + "/" + p;
    var rest := "//" + host + "/" + p;
    HttpsClean(host, p);
    assert url == "https:" + rest;
    HttpsScheme(rest);
    NetlocCut(host, p);
    assert !UnbalancedBrackets(host);
    NoQuery(p);
    assert ("/" + p)[..|p| + 1] == "/" + p;
  }

  /** The path of a hub URL is `/` followed by the joined segments. */
  lemma {:induction false} HubUrlPath(host: string, segs: seq<string>)
    requires |segs| > 0 && AllSegments(segs) && IsHost(host)
    ensures UrlPath(HubUrl(host, segs)) == Ok("/" + Join(segs, '/'))
  {
    var p := Join(segs, '/');
    JoinedSegments(segs);
    NoParams(p);
    HttpsPath(host, p);
  }

  /** A path with no `;` has no parameters to cut. */
  lemma NoParams(p: string)
    requires forall i :: 0 <= i < |p| ==> p[i] != ';'
    ensures ParamsCutOff("/" + p) == "/" + p
  {
    assert forall i :: 1 <= i < |"/" + p| ==> ("/" + p)[i] == p[i - 1];
  }

  /** Stripping and splitting `/<joined segments>` gives the segments. */
  lemma {:induction false} PathPartsOfJoined(segs: seq<string>)
    requires |segs| > 0 && AllSegments(segs)
    ensures PathParts("/" + Join(segs, '/')) == segs
  {
    var p := Join(segs, '/');
    JoinedSegments(segs);
    StripOneLeading(p, '/');
    assert "/" + p == ['/'] + p;
    forall k | 0 <= k < |segs|
      ensures '/' !in segs[k]
    {
      assert IsSegment(segs[k]);
    }
    SplitJoin(segs, '/');
  }

  /** Taking a hub URL apart gives back the segments it was built from. */
  lemma {:induction false} HubUrlParts(host: string, segs: seq<string>)
    requires |segs| > 0 && AllSegments(segs) && IsHost(host)
    ensures UrlPath(HubUrl(host, segs)).Ok?
    ensures PathParts(UrlPath(HubUrl(host, segs)).value) == segs
  {
    HubUrlPath(host, segs);
    PathPartsOfJoined(segs);
  }

  /** A model URL `https://<host>/<ns>/<repo>` gives namespace and
      repository, with an empty revision. */
  lemma ModelUrlRoundTrip(host: string, ns: string, repo: string)
    requires IsSegment(ns) && IsSegment(repo) && IsHost(host)
    ensures ParseHuggingfaceUrl(HubUrl(host, [ns, repo])) == Ok((ns, repo, ""))
  {
    HubUrlParts(host, [ns, repo]);
  }

  /** A model URL `https://<host>/<ns>/<repo>/tree/<rev>` gives all three. */
  lemma ModelUrlWithRevision(host: string, ns: string, repo: string, rev: string)
    requires IsSegment(ns) && IsSegment(repo) && IsSegment(rev) && IsHost(host)
    ensures ParseHuggingfaceUrl(HubUrl(host, [ns, repo, "tree", rev])) == Ok((ns, repo, rev))
  {
    HubUrlParts(host, [ns, repo, "tree", rev]);
  }

  /** A URL whose path is a single segment is not a model URL. */
  lemma ModelUrlNeedsTwoSegments(host: string, name: string)
    requires IsSegment(name) && IsHost(host)
    ensures ParseHuggingfaceUrl(HubUrl(host, [name])) == Err(InvalidModelUrl(HubUrl(host, [name])))
  {
    HubUrlParts(host, [name]);
  }

  /** A dataset URL gives its last segment, with or without an owner. */
  lemma DatasetUrlRoundTrip(host: string, owner: string, name: string)
    requires IsSegment(owner) && IsSegment(name) && IsHost(host)
    ensures ParseHfDatasetUrlRepo(HubUrl(host, ["datasets", owner, name])) == Ok(name)
    ensures ParseHfDatasetUrlRepo(HubUrl(host, ["datasets", name])) == Ok(name)
  {
    DatasetsSegment();
    HubUrlParts(host, ["datasets", owner, name]);
    HubUrlParts(host, ["datasets", name]);
  }

  lemma DatasetsSegment()
    ensures IsSegment("datasets")
  {
  }

  /** A path whose first segment is not `datasets` is no dataset URL. */
  lemma DatasetUrlNeedsPrefix(host: string, segs: seq<string>)
    requires |segs| > 0 && AllSegments(segs) && segs[0] != "datasets" && IsHost(host)
    ensures ParseHfDatasetUrlRepo(HubUrl(host, segs)).Err?
  {
    HubUrlParts(host, segs);
  }

  // ------------------------------------- what urlparse cuts off or deletes

  /** `_splitparams` on `/<q>;<params>` with no `;` in `q` and no `/` in the
      parameters keeps `/<q>`. */
  lemma {:induction false} ParamsCut(q: string, params: string)
    requires forall i :: 0 <= i < |q| ==> q[i] != ';'
    requires '/' !in params
    ensures WithoutParams("/" + q + ";" + params) == "/" + q
  {
    var path := "/" + q + ";" + params;
    assert path[0] == '/';
    forall k | |q| < k < |path|
      ensures path[k] != '/'
    {
      if k > |q| + 1 {
        assert path[k] == params[k - |q| - 2];
      }
    }
    var last := LastIndexOf(path, '/');
    assert last <= |q|;
    var tail := path[last..];
    assert tail[|q| + 1 - last] == ';';
    forall k | 0 <= k < |q| + 1 - last
      ensures tail[k] != ';'
    {
      assert tail[k] == path[last + k];
      if last + k > 0 {
        assert path[last + k] == q[last + k - 1];
      }
    }
    IndexOfFirst(tail, ';');
    assert IndexOf(tail, ';') == |q| + 1 - last;
    assert path[..|q| + 1] == "/" + q;
  }

  /** The path of `https://<host>/<p>;<params>` is `/<p>`, for a `p` with
      no `;` and parameters with no `/`. */
  lemma {:induction false} HttpsWithParams(host: string, p: string, params: string)
    requires IsHost(host)
    requires forall i :: 0 <= i < |p| ==> Plain(p[i]) && p[i] != ';'
    requires forall i :: 0 <= i < |params| ==> Plain(params[i]) && params[i] != '/'
    ensures UrlPath("https://" + host + "/" + p + ";" + params) == Ok("/" + p)
  {
    var q := p + ";" + params;
    SuffixRegrouped("https://" + host + "/", p, params);
    PlainWithParams(p, params);
    ParamsCutOffAt(p, params);
    HttpsPath(host, q);
  }

  lemma SuffixRegrouped(u: string, p: string, params: string)
    ensures u + p + ";" + params == u + (p + ";" + params)
  {
  }

  lemma {:induction false} PlainWithParams(p: string, params: string)
    requires forall i :: 0 <= i < |p| ==> Plain(p[i])
    requires forall i :: 0 <= i < |params| ==> Plain(params[i])
    ensures forall i :: 0 <= i < |p + ";" + params| ==> Plain((p + ";" + params)[i])
  {
    var q := p + ";" + params;
    forall i | 0 <= i < |q|
      ensures Plain(q[i])
    {
      if i < |p| {
        assert q[i] == p[i];
      } else if i > |p| {
        assert q[i] == params[i - |p| - 1];
      }
    }
  }

  lemma {:induction false} ParamsCutOffAt(p: string, params: string)
    requires forall i :: 0 <= i < |p| ==> p[i] != ';'
    requires '/' !in params
    ensures ParamsCutOff("/" + (p + ";" + params)) == "/" + p
  {
    var path := "/" + (p + ";" + params);
    assert path[|p| + 1] == ';';
    assert path == "/" + p + ";" + params;
    ParamsCut(p, params);
  }

  /** A hub URL whose last segment carries `;<params>` parses like the URL
      without them: the parameters are not part of the path. */
  lemma {:induction false} HubUrlWithParams(host: string, segs: seq<string>, params: string)
    requires |segs| > 0 && AllSegments(segs) && IsHost(host)
    requires forall i :: 0 <= i < |params| ==> Plain(params[i]) && params[i] != '/'
    ensures UrlPath(HubUrl(host, segs) + ";" + params) == UrlPath(HubUrl(host, segs))
  {
    JoinedSegments(segs);
    HttpsWithParams(host, Join(segs, '/'), params);
    HubUrlPath(host, segs);
  }

  /** The parameters of a model URL's last segment are dropped: they are
      no part of the repository. */
  lemma ModelUrlParamsDropped(host: string, ns: string, repo: string, params: string)
    requires IsSegment(ns) && IsSegment(repo) && IsHost(host)
    requires forall i :: 0 <= i < |params| ==> Plain(params[i]) && params[i] != '/'
    ensures ParseHuggingfaceUrl(HubUrl(host, [ns, repo]) + ";" + params) == Ok((ns, repo, ""))
  {
    HubUrlWithParams(host, [ns, repo], params);
    HubUrlParts(host, [ns, repo]);
  }

  /** The parameters after a model URL's revision are no part of it. */
  lemma RevisionParamsDropped(host: string, ns: string, repo: string, rev: string, params: string)
    requires IsSegment(ns) && IsSegment(repo) && IsSegment(rev) && IsHost(host)
    requires forall i :: 0 <= i < |params| ==> Plain(params[i]) && params[i] != '/'
    ensures ParseHuggingfaceUrl(HubUrl(host, [ns, repo, "tree", rev]) + ";" + params) == Ok((ns, repo, rev))
  {
    TreeSegment();
    HubUrlWithParams(host, [ns, repo, "tree", rev], params);
    HubUrlParts(host, [ns, repo, "tree", rev]);
  }

  lemma TreeSegment()
    ensures IsSegment("tree")
  {
  }

  /** The parameters of a dataset URL's name are dropped. */
  lemma DatasetUrlParamsDropped(host: string, name: string, params: string)
    requires IsSegment(name) && IsHost(host)
    requires forall i :: 0 <= i < |params| ==> Plain(params[i]) && params[i] != '/'
    ensures ParseHfDatasetUrlRepo(HubUrl(host, ["datasets", name]) + ";" + params) == Ok(name)
  {
    DatasetsSegment();
    HubUrlWithParams(host, ["datasets", name], params);
    HubUrlParts(host, ["datasets", name]);
  }

  /** `/<seg>/` is a path of the single segment `seg`. */
  lemma {:induction false} TrailingSlashPath(seg: string)
    requires IsSegment(seg)
    ensures PathParts("/" + seg + "/") == [seg]
  {
    var path := "/" + seg + "/";
    assert path[0] == '/' && path[1..] == seg + "/";
    assert StripLeading(path, {'/'}) == StripLeading(seg + "/", {'/'});
    StripLeadingNoop(seg + "/", {'/'});
    assert (seg + "/")[..|seg|] == seg;
    assert StripTrailing(seg + "/", {'/'}) == StripTrailing(seg, {'/'});
    StripTrailingNoop(seg, {'/'});
    assert StripBoth(path, {'/'}) == seg;
    IndexOfAbsent(seg, '/');
    SplitAt(seg, '/');
  }

  /** A last segment that is only `;<params>` leaves a path of a single
      segment, so both parsers raise (`https://<host>/<seg>/;<params>`). */
  lemma {:induction false} EmptyLastSegmentRaises(host: string, seg: string, params: string)
    requires IsSegment(seg) && IsHost(host)
    requires forall i :: 0 <= i < |params| ==> Plain(params[i]) && params[i] != '/'
    ensures var url := HubUrl(host, [seg]) + "/;" + params;
      ParseHuggingfaceUrl(url) == Err(InvalidModelUrl(url)) && ParseHfDatasetUrlRepo(url) == Err(InvalidDatasetUrl(url))
  {
    var url := HubUrl(host, [seg]) + "/;" + params;
    var p := seg + "/";
    assert url == "https://" + host + "/" + p + ";" + params;
    assert forall i :: 0 <= i < |p| ==> p[i] == if i < |seg| then seg[i] else '/';
    HttpsWithParams(host, p, params);
    assert "/" + p == "/" + seg + "/";
    TrailingSlashPath(seg);
  }

  /** Tabs, carriage returns and line feeds are deleted before the URL is
      taken apart, even inside a segment. */
  lemma {:induction false} UnsafeCharsDeleted(host: string, ns: string, a: string, b: string)
    requires IsSegment(ns) && IsSegment(a) && IsSegment(b) && IsHost(host)
    ensures ParseHuggingfaceUrl(HubUrl(host, [ns, a]) + "\t" + b) == Ok((ns, a + b, ""))
  {
    var front := HubUrl(host, [ns, a]);
    JoinedSegments([ns, a]);
    HttpsClean(host, Join([ns, a], '/'));
    assert front[0] == 'h';
    TabDeleted(front, b);
    HubUrlConcat(host, ns, a, b);
    SegmentConcat(a, b);
    JoinedSegments([ns, a + b]);
    HttpsClean(host, Join([ns, a + b], '/'));
    ModelUrlRoundTrip(host, ns, a + b);
  }

  lemma SegmentConcat(a: string, b: string)
    requires IsSegment(a) && IsSegment(b)
    ensures IsSegment(a + b)
  {
    assert forall i :: 0 <= i < |a + b| ==> (a + b)[i] == if i < |a| then a[i] else b[i - |a|];
  }

  lemma HubUrlConcat(host: string, ns: string, a: string, b: string)
    ensures HubUrl(host, [ns, a]) + b == HubUrl(host, [ns, a + b])
  {
    JoinPair(ns, a);
    JoinPair(ns, a + b);
  }

  lemma JoinPair(x: string, y: string)
    ensures Join([x, y], '/') == x + "/" + y
  {
    assert [x, y][1..] == [y];
  }

  /** A tab between two clean pieces is deleted. */
  lemma {:induction false} TabDeleted(front: string, b: string)
    requires |front| > 0 && front[0] > ' '
    requires Cleaned(front) == front
    requires forall i :: 0 <= i < |b| ==> b[i] !in UnsafeChars
    ensures Cleaned(front + "\t" + b) == Cleaned(front) + b
  {
    var url := front + "\t" + b;
    assert url[0] == front[0];
    assert StripControls(url) == url;
    assert StripControls(front) == front;
    RemoveAppend(front + "\t", b, UnsafeChars);
    RemoveAppend(front, "\t", UnsafeChars);
    assert Remove("\t", UnsafeChars) == [];
  }

  /** A host with a `[` and no `]` (or the reverse) makes both parsers raise
      the `ValueError` of `urlsplit`. */
  lemma {:induction false} UnbalancedBracketRaises(host: string, p: string)
    requires forall i :: 0 <= i < |host| ==> host[i] !in NetlocEnds && host[i] !in UnsafeChars
    requires UnbalancedBrackets(host)
    requires forall i :: 0 <= i < |p| ==> p[i] !in UnsafeChars
    ensures ParseHuggingfaceUrl("https://" + host + "/" + p) == Err(InvalidIpv6Url)
    ensures ParseHfDatasetUrlRepo("https://" + host + "/" + p) == Err(InvalidIpv6Url)
  {
    var rest := "//" + host + "/" + p;
    HttpsClean(host, p);
    assert "https://" + host + "/" + p == "https:" + rest;
    HttpsScheme(rest);
    NetlocCut(host, p);
  }

  // ---------------------------------------------------------- project lines

  /** The stripped comma-separated fields of a line. */
  function StrippedFields(line: string): (fields: seq<string>)
    ensures |fields| == |Split(line, ',')|
  {
    var pieces := Split(line, ',');
    seq(|pieces|, k requires 0 <= k < |pieces| => Strip(pieces[k]))
  }

  /** The fields padded with empty strings to three. */
  function Padded(fields: seq<string>): (r: seq<string>)
    ensures |r| == if |fields| < 3 then 3 else |fields|
    ensures r[..|fields|] == fields
    ensures forall k :: |fields| <= k < |r| ==> r[k] == ""
  {
    if |fields| < 3 then fields + seq(3 - |fields|, k => "") else fields
  }

  /** What one line of the project file gives: nothing for a blank line,
      otherwise a group or the `ValueError` raised while making it. */
  function LineGroup(line: string): Result<Option<ProjectGroup>, UrlError>
  {
    var t := Strip(line);
    if t == [] then Ok(None)
    else
      var fields := Padded(StrippedFields(t));
      if |fields| > 3 then Err(TooManyFields(t, |fields|))
      else GroupOf(fields[0], fields[1], fields[2])
  }

  /** The group for the three fields of a line; the model link is parsed
      before the dataset link, so its error is the one raised when both are
      malformed. */
  function GroupOf(codeLink: string, datasetLink: string, modelLink: string): (r: Result<Option<ProjectGroup>, UrlError>)
    ensures r.Ok? ==> r.value.Some?
  {
    var model := if modelLink == "" then Ok(None) else
      match ParseHuggingfaceUrl(modelLink)
      case Err(e) => Err(e)
      case Ok(parts) => Ok(Some(Model(modelLink, parts.0, parts.1, parts.2)));
    var dataset := if datasetLink == "" then Ok(None) else
      match ParseHfDatasetUrlRepo(datasetLink)
      case Err(e) => Err(e)
      case Ok(repo) => Ok(Some(Dataset(datasetLink, "", repo, "")));
    if model.Err? then Err(model.error)
    else if dataset.Err? then Err(dataset.error)
    else Ok(Some(ProjectGroup(if codeLink == "" then None else Some(Code(codeLink, "")), dataset.value, model.value)))
  }

  /** A line gives nothing exactly when it is blank. */
  lemma LineGroupBlank(line: string)
    ensures LineGroup(line) == Ok(None) <==> Strip(line) == []
  {
  }

  function LineResults(lines: seq<string>): (rs: seq<Result<Option<ProjectGroup>, UrlError>>)
    ensures |rs| == |lines|
  {
    seq(|lines|, i requires 0 <= i < |lines| => LineGroup(lines[i]))
  }

  /** The first error among the line results, or every group in order. */
  function Gather(rs: seq<Result<Option<ProjectGroup>, UrlError>>): Result<seq<ProjectGroup>, UrlError>
  {
    if rs == [] then Ok([])
    else
      match Gather(rs[..|rs| - 1])
      case Err(e) => Err(e)
      case Ok(groups) =>
        match rs[|rs| - 1]
        case Err(e) => Err(e)
        case Ok(None) => Ok(groups)
        case Ok(Some(g)) => Ok(groups + [g])
  }

  /** The groups of a whole file: the first error raised, or one group per
      non-blank line in file order. */
  function ProjectGroups(lines: seq<string>): Result<seq<ProjectGroup>, UrlError>
  {
    Gather(LineResults(lines))
  }

  /** One line of `parse_project_file`'s loop: strip, split, pad, unpack. */
  method ReadLine(raw: string) returns (r: Result<Option<ProjectGroup>, UrlError>)
    ensures r == LineGroup(raw)
  {
    var line := Strip(raw);
    if line == [] {
      return Ok(None);
    }
    var parts := StrippedFields(line);
    while |parts| < 3
      invariant Padded(parts) == Padded(StrippedFields(line))
      decreases 3 - |parts|
    {
      parts := parts + [""];
    }
    if |parts| > 3 {
      return Err(TooManyFields(line, |parts|));
    }
    r := GroupOf(parts[0], parts[1], parts[2]);
  }

  /** `parse_project_file` over the lines of the file. */
  method ParseProjectFile(lines: seq<string>) returns (r: Result<seq<ProjectGroup>, UrlError>)
    ensures r == ProjectGroups(lines)
  {
    ghost var rs := LineResults(lines);
    var groups: seq<ProjectGroup> := [];
    for i := 0 to |lines|
      invariant Gather(rs[..i]) == Ok(groups)
    {
      var res := ReadLine(lines[i]);
      LineResultAt(lines, i);
      GatherNext(rs, i);
      match res {
        case Err(e) =>
          ErrorStays(rs, i + 1);
          return Err(e);
        case Ok(None) =>
        case Ok(Some(g)) =>
          groups := groups + [g];
      }
    }
    assert rs[..|lines|] == rs;
    r := Ok(groups);
  }

  lemma LineResultAt(lines: seq<string>, i: nat)
    requires i < |lines|
    ensures LineResults(lines)[i] == LineGroup(lines[i])
  {
  }

  /** Gathering one more line result. */
  lemma GatherNext(rs: seq<Result<Option<ProjectGroup>, UrlError>>, i: nat)
    requires i < |rs| && Gather(rs[..i]).Ok?
    ensures rs[i].Err? ==> Gather(rs[..i + 1]) == Err(rs[i].error)
    ensures rs[i] == Ok(None) ==> Gather(rs[..i + 1]) == Gather(rs[..i])
    ensures rs[i].Ok? && rs[i].value.Some? ==> Gather(rs[..i + 1]) == Ok(Gather(rs[..i]).value + [rs[i].value.value])
  {
    assert rs[..i + 1][..i] == rs[..i];
  }

  lemma {:induction false} ErrorStays(rs: seq<Result<Option<ProjectGroup>, UrlError>>, k: nat)
    requires k <= |rs|
    requires Gather(rs[..k]).Err?
    ensures Gather(rs) == Gather(rs[..k])
    decreases |rs| - k
  {
    if k < |rs| {
      assert rs[..k + 1][..k] == rs[..k];
      ErrorStays(rs, k + 1);
    } else {
      assert rs[..k] == rs;
    }
  }

  // --------------------------------------------------- properties of a file

  function GroupCount(rs: seq<Result<Option<ProjectGroup>, UrlError>>): nat
  {
    if rs == [] then 0 else GroupCount(rs[..|rs| - 1]) + if rs[|rs| - 1] == Ok(None) then 0 else 1
  }

  function NonBlankCount(lines: seq<string>): nat
  {
    if lines == [] then 0 else NonBlankCount(lines[..|lines| - 1]) + if Strip(lines[|lines| - 1]) == [] then 0 else 1
  }

  /** Gathering succeeds exactly when every line result is not an error,
      and then there is one group per result that is not empty. */
  lemma {:induction false} GatherPerResult(rs: seq<Result<Option<ProjectGroup>, UrlError>>)
    ensures Gather(rs).Ok? <==> forall i :: 0 <= i < |rs| ==> rs[i].Ok?
    ensures Gather(rs).Ok? ==> |Gather(rs).value| == GroupCount(rs)
    decreases |rs|
  {
    if rs != [] {
      var init := rs[..|rs| - 1];
      GatherPerResult(init);
      assert forall i :: 0 <= i < |init| ==> init[i] == rs[i];
    }
  }

  lemma {:induction false} CountNonBlank(lines: seq<string>)
    ensures GroupCount(LineResults(lines)) == NonBlankCount(lines)
    decreases |lines|
  {
    if lines != [] {
      var init := lines[..|lines| - 1];
      CountNonBlank(init);
      assert LineResults(lines)[..|lines| - 1] == LineResults(init);
      LineGroupBlank(lines[|lines| - 1]);
    }
  }

  /** Reading succeeds exactly when no line raises, and then there is one
      group per non-blank line. */
  lemma GroupsPerLine(lines: seq<string>)
    ensures ProjectGroups(lines).Ok? <==> forall i :: 0 <= i < |lines| ==> LineGroup(lines[i]).Ok?
    ensures ProjectGroups(lines).Ok? ==> |ProjectGroups(lines).value| == NonBlankCount(lines)
  {
    var rs := LineResults(lines);
    GatherPerResult(rs);
    CountNonBlank(lines);
    assert forall i :: 0 <= i < |lines| ==> rs[i] == LineGroup(lines[i]);
  }

  /** Gathering two runs of results one after the other: the groups of the
      first come first, and the first error wins. */
  lemma {:induction false} GatherAppend(a: seq<Result<Option<ProjectGroup>, UrlError>>, b: seq<Result<Option<ProjectGroup>, UrlError>>)
    ensures Gather(a + b) ==
      match Gather(a)
      case Err(e) => Err(e)
      case Ok(ga) =>
        match Gather(b)
        case Err(e) => Err(e)
        case Ok(gb) => Ok(ga + gb)
    decreases |b|
  {
    if b == [] {
      assert a + b == a;
      if Gather(a).Ok? {
        assert Gather(a).value + [] == Gather(a).value;
      }
    } else {
      var init := b[..|b| - 1];
      assert (a + b)[..|a + b| - 1] == a + init;
      assert (a + b)[|a + b| - 1] == b[|b| - 1];
      GatherAppend(a, init);
      if Gather(a).Ok? && Gather(init).Ok? && b[|b| - 1].Ok? && b[|b| - 1].value.Some? {
        var ga := Gather(a).value;
        var gi := Gather(init).value;
        var g := b[|b| - 1].value.value;
        assert ga + gi + [g] == ga + (gi + [g]);
      }
    }
  }

  /** Reading two pieces of a file one after the other: the groups of the
      first piece come first, and the first error wins. */
  lemma GroupsAppend(a: seq<string>, b: seq<string>)
    ensures ProjectGroups(a + b) ==
      match ProjectGroups(a)
      case Err(e) => Err(e)
      case Ok(ga) =>
        match ProjectGroups(b)
        case Err(e) => Err(e)
        case Ok(gb) => Ok(ga + gb)
  {
    LineResultsAppend(a, b);
    GatherAppend(LineResults(a), LineResults(b));
  }

  lemma {:induction false} LineResultsAppend(a: seq<string>, b: seq<string>)
    ensures LineResults(a + b) == LineResults(a) + LineResults(b)
  {
    forall i | 0 <= i < |a + b|
      ensures LineResults(a + b)[i] == (LineResults(a) + LineResults(b))[i]
    {
      LineResultAt(a + b, i);
      if i < |a| {
        LineResultAt(a, i);
        assert (a + b)[i] == a[i];
      } else {
        LineResultAt(b, i - |a|);
        assert (a + b)[i] == b[i - |a|];
      }
    }
  }

  /** A line with more than three fields raises, however valid its links. */
  lemma TooManyFieldsRaise(line: string)
    requires Strip(line) != [] && multiset(Strip(line))[','] >= 3
    ensures LineGroup(line) == Err(TooManyFields(Strip(line), multiset(Strip(line))[','] + 1))
  {
    var t := Strip(line);
    assert |Padded(StrippedFields(t))| == multiset(t)[','] + 1;
  }

  /** A line holding a single link is a group with only that code link. */
  lemma CodeOnlyLine(link: string)
    requires Strip(link) == link && link != [] && ',' !in link
    ensures LineGroup(link) == Ok(Some(ProjectGroup(Some(Code(link, "")), None, None)))
  {
    SplitJoin([link], ',');
    assert StrippedFields(link) == [link];
    assert Padded([link]) == [link, "", ""];
  }

  /** Fields that are already stripped and hold no comma come back from
      the line they are joined into. */
  lemma {:induction false} JoinedFields(fields: seq<string>)
    requires |fields| > 0
    requires forall k :: 0 <= k < |fields| ==> Strip(fields[k]) == fields[k] && ',' !in fields[k]
    ensures StrippedFields(Join(fields, ',')) == fields
  {
    SplitJoin(fields, ',');
  }

  /** The fields of `,,<link>`. */
  lemma {:induction false} TwoEmptyFields(link: string)
    requires Strip(link) == link && link != [] && ',' !in link
    ensures Strip(",," + link) == ",," + link
    ensures Padded(StrippedFields(",," + link)) == ["", "", link]
  {
    var line := ",," + link;
    StripNoop(line);
    assert ["", "", link][1..] == ["", link] && ["", link][1..] == [link];
    assert Join(["", link], ',') == "," + link;
    assert Join(["", "", link], ',') == line;
    StripNoop("");
    JoinedFields(["", "", link]);
  }

  /** A line `,,<model link>` is a group with only that model, taken apart. */
  lemma ModelOnlyLine(link: string, ns: string, repo: string, rev: string)
    requires Strip(link) == link && link != [] && ',' !in link
    requires ParseHuggingfaceUrl(link) == Ok((ns, repo, rev))
    ensures LineGroup(",," + link) == Ok(Some(ProjectGroup(None, None, Some(Model(link, ns, repo, rev)))))
  {
    TwoEmptyFields(link);
  }

  /** The fields of `,<link>,`. */
  lemma {:induction false} MiddleField(link: string)
    requires Strip(link) == link && link != [] && ',' !in link
    ensures Strip("," + link + ",") == "," + link + ","
    ensures Padded(StrippedFields("," + link + ",")) == ["", link, ""]
  {
    var line := "," + link + ",";
    StripNoop(line);
    assert ["", link, ""][1..] == [link, ""] && [link, ""][1..] == [""];
    assert Join([link, ""], ',') == link + ",";
    assert Join(["", link, ""], ',') == line;
    StripNoop("");
    JoinedFields(["", link, ""]);
  }

  /** A line `,<dataset link>,` is a group with only that dataset. */
  lemma DatasetOnlyLine(link: string, repo: string)
    requires Strip(link) == link && link != [] && ',' !in link
    requires ParseHfDatasetUrlRepo(link) == Ok(repo)
    ensures LineGroup("," + link + ",") == Ok(Some(ProjectGroup(None, Some(Dataset(link, "", repo, "")), None)))
  {
    MiddleField(link);
  }

  /** When both links of a line are malformed, the model's error is raised. */
  lemma ModelErrorFirst(code: string, dataset: string, model: string)
    requires dataset != "" && model != ""
    requires ParseHuggingfaceUrl(model).Err? && ParseHfDatasetUrlRepo(dataset).Err?
    ensures GroupOf(code, dataset, model) == Err(ParseHuggingfaceUrl(model).error)
  {
  }
}
