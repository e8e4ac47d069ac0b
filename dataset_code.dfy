/**
 * `dataset_metric`: whether a GitHub repository's README mentions a
 * dataset and whether its root, or one of a few well-known directories
 * directly below it, holds Python code, combined into 1.0, 0.5 or 0.0.
 */
module DatasetAndCode {
  import opened Wrappers
  import opened Text

  const DatasetHosts: seq<string> := ["huggingface.co/datasets", "kaggle.com/datasets", "roboflow.com", "drive.google.com"]

  const DatasetKeywords: seq<string> := ["dataset", "datasets", "data", "training data", "download data"]

  /** The README as scanned: lower-cased, or empty when the request failed. */
  function ReadmeText(status: int, text: string): string
  {
    if status == 200 then Lower(text) else ""
  }

  predicate MentionsAny(text: string, patterns: seq<string>)
  {
    exists i :: 0 <= i < |patterns| && Contains(text, patterns[i])
  }

  /** `has_dataset`: a dataset host or a dataset keyword occurs in the text. */
  predicate HasDataset(text: string)
  {
    MentionsAny(text, DatasetHosts) || MentionsAny(text, DatasetKeywords)
  }

  /** Since `data` is itself a keyword, only two hosts add anything to it. */
  lemma HasDatasetSimplified(text: string)
    ensures HasDataset(text) <==>
      Contains(text, "data") || Contains(text, "roboflow.com") || Contains(text, "drive.google.com")
  {
    if HasDataset(text) {
      if MentionsAny(text, DatasetHosts) {
        var i :| 0 <= i < |DatasetHosts| && Contains(text, DatasetHosts[i]);
        if i == 0 {
          ContainsAt(DatasetHosts[0], "data", 15);
          ContainsTransitive(text, DatasetHosts[0], "data");
        } else if i == 1 {
          ContainsAt(DatasetHosts[1], "data", 11);
          ContainsTransitive(text, DatasetHosts[1], "data");
        }
      } else {
        var i :| 0 <= i < |DatasetKeywords| && Contains(text, DatasetKeywords[i]);
        var at := if i == 0 || i == 1 then 0 else if i == 2 then 0 else if i == 3 then 9 else 9;
        ContainsAt(DatasetKeywords[i], "data", at);
        ContainsTransitive(text, DatasetKeywords[i], "data");
      }
    } else {
      assert !Contains(text, DatasetKeywords[2]);
      assert !Contains(text, DatasetHosts[2]);
      assert !Contains(text, DatasetHosts[3]);
    }
  }

  // ------------------------------------------------------------- the listing

  /** An entry of a GitHub contents listing: its `name`, `type` and `url`,
      each possibly absent. */
  datatype Entry = Entry(name: Option<string>, kind: Option<string>, url: Option<string>)

  /** A contents response: its status and, for 200, its entries. */
  datatype Listing = Listing(status: int, items: seq<Entry>)

  /** A missing `type` or `url` raises `KeyError`, and the score is then 0.0. */
  datatype Raised = KeyMissing

  const CodeDirs: set<string> := {"examples", "notebooks", "tutorials", "research", "official", "src", "lib"}

  /** `item.get("name", "").lower()`. */
  function EntryName(e: Entry): string
  {
    match e.name
    case Some(n) => Lower(n)
    case None => ""
  }

  predicate IsCodeName(name: string) { EndsWith(name, ".py") || EndsWith(name, ".ipynb") }

  predicate IsCodeFile(e: Entry) { e.kind == Some("file") && IsCodeName(EntryName(e)) }

  predicate IsCodeDir(e: Entry) { e.kind == Some("dir") && EntryName(e) in CodeDirs }

  /** The inner loop: is there a code file among the entries, read in order
      up to the first one found? */
  function SubScan(items: seq<Entry>): Result<bool, Raised>
  {
    if items == [] then Ok(false)
    else if items[0].kind.None? then Err(KeyMissing)
    else if IsCodeFile(items[0]) then Ok(true)
    else SubScan(items[1..])
  }

  /** The outer loop over the root entries, fetching each code directory's
      listing through `fetch`. */
  function RootScan(items: seq<Entry>, fetch: string -> Listing): Result<bool, Raised>
  {
    if items == [] then Ok(false)
    else
      var e := items[0];
      if e.kind.None? then Err(KeyMissing)
      else if IsCodeFile(e) then Ok(true)
      else if IsCodeDir(e) then
        if e.url.None? then Err(KeyMissing)
        else
          var sub := fetch(e.url.value);
          var found := if sub.status == 200 then SubScan(sub.items) else Ok(false);
          match found
          case Err(x) => Err(x)
          case Ok(true) => Ok(true)
          case Ok(false) => RootScan(items[1..], fetch)
      else RootScan(items[1..], fetch)
  }

  /** `has_code` for a contents response, or the exception raised. */
  function CodeFound(contents: Listing, fetch: string -> Listing): Result<bool, Raised>
  {
    if contents.status == 200 then RootScan(contents.items, fetch) else Ok(false)
  }

  /** The inner loop of `dataset_metric`. */
  method ScanDirectory(items: seq<Entry>) returns (r: Result<bool, Raised>)
    ensures r == SubScan(items)
  {
    for j := 0 to |items|
      invariant SubScan(items) == SubScan(items[j..])
    {
      assert items[j..][1..] == items[j + 1..];
      var sub := items[j];
      if sub.kind.None? {
        return Err(KeyMissing);
      }
      if sub.kind.value == "file" && IsCodeName(EntryName(sub)) {
        return Ok(true);
      }
    }
    r := Ok(false);
  }

  /** The code search of `dataset_metric`: the root entries in order, each
      code directory searched one level down, stopping at the first code
      file. */
  method HasCode(contents: Listing, fetch: string -> Listing) returns (r: Result<bool, Raised>)
    ensures r == CodeFound(contents, fetch)
  {
    if contents.status != 200 {
      return Ok(false);
    }
    var items := contents.items;
    var i := 0;
    while i < |items|
      invariant 0 <= i <= |items|
      invariant RootScan(items, fetch) == RootScan(items[i..], fetch)
    {
      assert items[i..][1..] == items[i + 1..];
      var item := items[i];
      if item.kind.None? {
        return Err(KeyMissing);
      }
      if item.kind.value == "file" && IsCodeName(EntryName(item)) {
        return Ok(true);
      }
      if item.kind.value == "dir" && EntryName(item) in CodeDirs {
        if item.url.None? {
          return Err(KeyMissing);
        }
        var sub := fetch(item.url.value);
        if sub.status == 200 {
          var found := ScanDirectory(sub.items);
          if found.Err? {
            return found;
          }
          if found.value {
            return Ok(true);
          }
        }
      }
      i := i + 1;
    }
    r := Ok(false);
  }

  /** The score table: 1.0 for both, 0.5 for one of the two, 0.0 for none. */
  function Combine(hasDataset: bool, hasCode: bool): real
  {
    if hasDataset && hasCode then 1.0 else if hasDataset || hasCode then 0.5 else 0.0
  }

  /** `dataset_metric`'s score for the two responses. */
  function DatasetScore(readmeStatus: int, readme: string, contents: Listing, fetch: string -> Listing): real
  {
    match CodeFound(contents, fetch)
    case Err(_) => 0.0
    case Ok(hasCode) => Combine(HasDataset(ReadmeText(readmeStatus, readme)), hasCode)
  }

  /** `dataset_metric` once the README and the listings are fetched. */
  method DatasetMetric(readmeStatus: int, readme: string, contents: Listing, fetch: string -> Listing) returns (score: real)
    ensures score == DatasetScore(readmeStatus, readme, contents, fetch)
  {
    var text := if readmeStatus == 200 then Lower(readme) else "";
    var hasDataset := MentionsAny(text, DatasetHosts) || MentionsAny(text, DatasetKeywords);
    var hasCode := HasCode(contents, fetch);
    if hasCode.Err? {
      return 0.0;
    }
    score := Combine(hasDataset, hasCode.value);
  }

  // ------------------------------------------------------------- properties

  /** The score is half the number of the two checks that hold. */
  lemma CombineCounts(hasDataset: bool, hasCode: bool)
    ensures Combine(hasDataset, hasCode) == 0.5 * ((if hasDataset then 1 else 0) + (if hasCode then 1 else 0)) as real
  {
  }

  /** No entry raises on the way: every entry has a type, every code
      directory a url, and every listing fetched for one has typed entries. */
  predicate Readable(items: seq<Entry>, fetch: string -> Listing)
  {
    forall i :: 0 <= i < |items| ==>
      && items[i].kind.Some?
      && (IsCodeDir(items[i]) ==> CodeDirReadable(items[i], fetch))
  }

  predicate AllTyped(items: seq<Entry>) { forall j :: 0 <= j < |items| ==> items[j].kind.Some? }

  predicate CodeDirReadable(e: Entry, fetch: string -> Listing)
  {
    e.url.Some? && (fetch(e.url.value).status == 200 ==> AllTyped(fetch(e.url.value).items))
  }

  /** A root entry that shows code: a code file, or a code directory whose
      listing holds a code file directly. */
  predicate RootHit(e: Entry, fetch: string -> Listing)
  {
    || IsCodeFile(e)
    || (IsCodeDir(e) && e.url.Some? && fetch(e.url.value).status == 200 &&
        exists j :: 0 <= j < |fetch(e.url.value).items| && IsCodeFile(fetch(e.url.value).items[j]))
  }

  lemma {:induction false} SubScanFinds(items: seq<Entry>)
    requires AllTyped(items)
    ensures SubScan(items) == Ok(exists j :: 0 <= j < |items| && IsCodeFile(items[j]))
    decreases |items|
  {
    if items != [] {
      SubScanFinds(items[1..]);
      assert forall j :: 0 <= j < |items| - 1 ==> items[1..][j] == items[j + 1];
    }
  }

  /** When nothing raises, code is found exactly when some root entry is a
      code file or a code directory directly holding one; no other
      directory is looked into. */
  lemma {:induction false} RootScanFinds(items: seq<Entry>, fetch: string -> Listing)
    requires Readable(items, fetch)
    ensures RootScan(items, fetch) == Ok(exists i :: 0 <= i < |items| && RootHit(items[i], fetch))
    decreases |items|
  {
    if items != [] {
      var e := items[0];
      assert forall i :: 0 <= i < |items| - 1 ==> items[1..][i] == items[i + 1];
      RootScanFinds(items[1..], fetch);
      if IsCodeDir(e) && !IsCodeFile(e) {
        var sub := fetch(e.url.value);
        if sub.status == 200 {
          SubScanFinds(sub.items);
        }
      }
    }
  }

  /** Only the listings of code directories are consulted. */
  lemma {:induction false} OnlyCodeDirsFetched(items: seq<Entry>, f: string -> Listing, g: string -> Listing)
    requires forall i :: 0 <= i < |items| && IsCodeDir(items[i]) && items[i].url.Some? ==>
      f(items[i].url.value) == g(items[i].url.value)
    ensures RootScan(items, f) == RootScan(items, g)
    decreases |items|
  {
    if items != [] {
      assert forall i :: 0 <= i < |items| - 1 ==> items[1..][i] == items[i + 1];
      OnlyCodeDirsFetched(items[1..], f, g);
    }
  }

  /** A failed contents request leaves `has_code` false, so the README
      alone decides between 0.5 and 0.0. */
  lemma FailedListingNoCode(readmeStatus: int, readme: string, contents: Listing, fetch: string -> Listing)
    requires contents.status != 200
    ensures DatasetScore(readmeStatus, readme, contents, fetch) ==
      if HasDataset(ReadmeText(readmeStatus, readme)) then 0.5 else 0.0
  {
  }

  /** A failed README request means no dataset mention. */
  lemma FailedReadmeNoDataset(readmeStatus: int, readme: string)
    requires readmeStatus != 200
    ensures !HasDataset(ReadmeText(readmeStatus, readme))
  {
    HasDatasetSimplified("");
  }
}
