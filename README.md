# Model scorer: a Dafny model

This project models the core of a small Python program. The program scores
machine-learning models hosted on Hugging Face and GitHub, and it has three parts.

## The orchestrator

The orchestrator is `metric_caller.py`. It reads a task file in which each
line has the form `name(key, key, ...) weight`. It checks the lines in a
fixed order:
1. the line pattern;
2. the scorer is registered;
3. the number of keys equals the scorer's arity;
4. every key is present in the argument store.

Each line that passes becomes a task. Each line that fails leaves exactly one
warning.

Each task runs a scorer in a worker. The worker turns a failure into score
0.0 but keeps the task's weight. The results arrive in any order. They are
folded into:
- a score map and a latency map, both keyed by scorer name;
- a weighted average, the net score. A dictionary score from
  `calculate_size_score` enters the average as the mean of the dictionary.

A logger process writes the queued messages until it sees a stop signal.

## The scorers

- the size table of `calculate_size_score`;
- the pull-request bus factor;
- dataset and code presence;
- the LGPL-2.1 licence test;
- the PyLint output scan;
- the TODO-count demonstration scorer.

## Clients and output

- the URL and project-file parsers of `url_class.py`;
- the `Api`, `GitHubApi` and `HuggingFaceApi` clients: URL joining, the
  bearer token, endpoint templates, file listings and download paths;
- the JSON record of `json_output.py`.

## How the code is modelled

Modules follow the source files:

| module | source file |
|---|---|
| `MetricCaller` | `metric_caller.py` |
| `UrlClass` | `url_class.py` |
| `SizeScore` | `metrics/calculate_size_score.py` |
| `BusFactor` | `metrics/bus_factor_metric.py` |
| `DatasetAndCode` | `metrics/dataset_and_code_present.py` |
| `LicenseScore` | `metrics/calculate_license_score.py` |
| `CodeQuality` | `metrics/code_quality.py` |
| `CodeQualityCheck` | `functions/code_quality_check.py` |
| `JsonOutput` | `json_output.py` |
| `ApiClient` | `classes/api.py` |
| `GitHub` | `classes/github_api.py` |
| `HuggingFace` | `classes/hugging_face_api.py` |
| `ScorerFixtures` | the demonstration scorers |

`ScorerFixtures` ties the demonstration scorers to the orchestrator. The
helper modules are:
- `Wrappers`: `Option` and `Result`;
- `Text`: Python's `str` operations;
- `Template`: `str.format` on endpoint templates;
- `Sums`: sums over sequences.

Code that changes things step by step is modelled as methods with loops, each
proved equal to a specification function:
- reading the task file;
- collecting results;
- the logger;
- the PyLint scan;
- the pull-request loop;
- the directory scans;
- the size table;
- the project-file loop;
- the download loop.

The properties are lemmas about those functions. The two client classes hold
an `ApiClient.Api` object whose bearer token the methods update.

Every source of outside input becomes an explicit input:
- An HTTP exchange is a function from the request sent to the reply.
- A file is its content, or `None` when it cannot be opened.
- An environment is a map.
- A PyLint run is its two output streams, or "not found".
- The registry of scorers is a map from name to arity.
- The results of the concurrent workers are any ordering of one result per
  accepted task. The `Schedules` predicate states this as a multiset
  equality.
- Wall-clock times are plain `real` inputs: the scorer times, the worker's
  elapsed time and the measured span.

Scores, weights and times are `real`. Python's `round` is modelled as
round-half-even on the exact value. `float()` is the partial function
`Text.ParseFloat`: an optional sign, digits, and at most one point.

Points where the model follows the code rather than its specification:
- Results with the same scorer name overwrite each other in the score and
  latency maps, yet every one of them is added to the weighted sum.
- The Hugging Face dataset endpoints are written under `api/dataset/`; the
  client uses them under the Hub's `api/datasets/` (see "## Findings"), and
  the table as written is kept beside it.
- `urlparse` is modelled as CPython 3.12's: leading control characters and
  spaces are stripped, tabs, carriage returns and line feeds are deleted,
  a network location with unbalanced brackets raises `Invalid IPv6 URL`,
  and for the schemes that take parameters (`https`, `http`, no scheme,
  ...) the path is cut at the first `;` after its last `/`.
- `float()` of the weight (`metric_caller.py:120`) is not caught. A weight of
  only digits and points that still fails, such as `1.2.3`, ends the whole
  run.

## Model

| member | source | states |
|---|---|---|
| MetricCaller.ParseKeys | metric_caller.py:10-14 | blank key text gives no keys; otherwise one key per comma-separated piece (the number of commas plus one), each the stripped piece, empty pieces kept |
| MetricCaller.ParseKeysJoin | metric_caller.py:10-14 | keys without commas or surrounding whitespace are read back exactly from their comma-joined text |
| MetricCaller.MatchSound | metric_caller.py:80 | a matched line really splits into a word name, `(`, the key text, `)`, whitespace and a run of digits and points, followed by the unmatched rest (`re.match` anchors at the start only) |
| MetricCaller.MatchComplete | metric_caller.py:80 | every line that splits that way is matched, with that name and a key group at least as long (the greedy `.*`) |
| MetricCaller.MatchMaximal | metric_caller.py:80 | the weight group is the whole run: the character after it is no digit or point |
| MetricCaller.WeightIsDecimal | metric_caller.py:80-120 | `float()` of the weight group fails exactly when it has two points or no digit, and a weight is never negative |
| MetricCaller.MissingFrom | metric_caller.py:115 | the missing keys are exactly the line's keys absent from the store |
| MetricCaller.MissingFromAppend | metric_caller.py:115 | the missing keys keep the line's order: those of `a + b` are those of `a` followed by those of `b` |
| MetricCaller.MissingFromSingle | metric_caller.py:115 | a single key is listed exactly when the store lacks it |
| MetricCaller.Resolve | metric_caller.py:119 | one argument per key: the store's value for that key, in key order |
| MetricCaller.ClassifyLine | metric_caller.py:89-121 | a line is blank exactly when it strips to nothing; an accepted task is well formed; every warning and weight error carries the line's number |
| MetricCaller.ChecksInOrder | metric_caller.py:92-117 | each kind of warning is issued exactly when all earlier checks pass and its own check fails; the missing-keys warning lists every absent key in line order |
| MetricCaller.ParseTasks | metric_caller.py:89-125 | the reading loop gives what reading the lines' verdicts in order gives |
| MetricCaller.ReadLine | metric_caller.py:90-124 | one turn of the loop is the verdict on that line; it stops exactly at a bad weight, keeping the warnings so far |
| MetricCaller.ParseFacts | metric_caller.py:89-124 | after a complete reading, the total weight is the sum of the accepted weights and not negative; tasks plus warnings equal the non-blank lines; every task is well formed and is the verdict on its own line |
| MetricCaller.TasksAccepted | metric_caller.py:119-123 | every queued task is well formed and is the verdict on the line its number names |
| MetricCaller.NonBlankCount | metric_caller.py:90-91 | the skipped lines are exactly the blank ones |
| MetricCaller.FoldFacts | metric_caller.py:94-124 | after any complete reading, the total weight is the sum of the task weights, and every non-blank verdict yields one task or one warning |
| MetricCaller.AbortFacts | metric_caller.py:120 | an aborted reading is always caused by a bad weight on a line read while everything before it was in order |
| MetricCaller.StopsAtAbort | metric_caller.py:120 | once a weight fails, later lines change nothing |
| MetricCaller.LogQueueResolves | metric_caller.py:78-119 | a `log_queue` key is never missing and always resolves to the queue itself |
| MetricCaller.FailureCountsAsZero | metric_caller.py:39-48 | a scorer that raises or returns no pair adds 0.0 to the sum, while its task's weight still counts |
| MetricCaller.Dispatch | metric_caller.py:121-123 | one worker result per task |
| MetricCaller.DispatchWeights | metric_caller.py:42-48 | the results carry exactly the tasks' weights |
| MetricCaller.MeanBounds | metric_caller.py:151 | the mean of a dictionary's values lies between their bounds |
| MetricCaller.FirstFailureNone | metric_caller.py:148-151 | collection raises for no result exactly when every result can be multiplied by its weight |
| MetricCaller.RoundHalfEven | metric_caller.py:147 | the nearest integer, with ties going to the even integer |
| MetricCaller.Collect | metric_caller.py:138-162 | the collection loop gives the score map, the latency map and the net score of `Collected`, or the exception raised for the first result it cannot weight (`AttributeError` for the size scorer, `TypeError` otherwise) |
| MetricCaller.LastResultWins | metric_caller.py:146-147 | the score map holds exactly the names that arrived, each with the score of the last result under that name |
| MetricCaller.NetIsWeightedAverage | metric_caller.py:148-159 | the net score is the weighted sum of effective scores divided by the accepted lines' total weight, and 0.0 when that total is 0 |
| MetricCaller.CollectedOrderIndependent | metric_caller.py:142-159 | the order in which results arrive changes neither success nor the net score |
| MetricCaller.RunOrderIndependent | metric_caller.py:66-173 | a whole run's warnings, success and net score do not depend on the order of arrival |
| MetricCaller.WeightedSumBounds | metric_caller.py:148-151 | with effective scores in [0, 1], the weighted sum lies between 0 and the sum of the weights |
| MetricCaller.CollectedNetInUnitRange | metric_caller.py:153-159 | with effective scores in [0, 1] and the weights as total, the net score lies in [0, 1] |
| MetricCaller.ScheduledWeights | metric_caller.py:124-143 | under any order of arrival, the results' weights sum to the total weight and none is negative |
| MetricCaller.NetInUnitRange | metric_caller.py:148-159 | for every task file and every order of arrival, effective scores in [0, 1] give a net score in [0, 1] |
| MetricCaller.RunConcurrentlyFromFile | metric_caller.py:66-173 | the caller's store gains `log_queue`; the result is the weight error with the warnings so far, `{'net_score': 0.0}, {}` when no line is accepted, or the collected maps |
| MetricCaller.LoggerProcess | metric_caller.py:16-28 | the log is the banner, then the messages in queue order, then the end banner at the first stop signal; the logger stops exactly when a stop signal is queued |
| MetricCaller.LogStopsAtSentinel | metric_caller.py:23-28 | the messages before the stop signal are written one per line, in order, then the end banner, and nothing queued after the signal |
| ScorerFixtures.FailingTask | functions/failing_task.py:5 | `failing_task` always raises |
| ScorerFixtures.LogMessage | functions/log_message.py:8 | `log_message` returns no pair |
| ScorerFixtures.CodeQualityCheckCall | functions/code_quality_check.py:7-17 | the call raises exactly when the file is missing, and otherwise returns a number in [0, 100] with its time |
| ScorerFixtures.SizeScoreCall | metrics/calculate_size_score.py:76 | the size scorer returns its dictionary with its time |
| ScorerFixtures.FailuresReportZero | metric_caller.py:43-48 | a raising scorer, a bare number and a missing file all become `(0.0, elapsed, weight, name)` |
| ScorerFixtures.FailedWeightStillCounts | metric_caller.py:124-155 | for a score `x` of weight 1 next to a failed task of weight 3, the net score is `x / 4` |
| ScorerFixtures.SizeScoreWeighsItsMean | metric_caller.py:150-151 | the size dictionary contributes its mean, between 0.25 and 1, times the weight |
| ScorerFixtures.TodoScaleLeavesUnitRange | functions/code_quality_check.py:10 | a clean file makes the net score 100, outside the unit range |
| UrlClass.UrlPath | url_class.py:40 | `urlparse(url).path` holds no `?` or `#`, and the only error is the `Invalid IPv6 URL` of an unbalanced network location |
| UrlClass.WithoutParams | url_class.py:40 | `_splitparams` keeps a prefix of the path |
| UrlClass.ParseHuggingfaceUrl | url_class.py:38-54 | the parser raises `urlparse`'s error for unbalanced brackets; otherwise it raises, naming the URL, exactly when the path stripped of `/` holds no `/`, that is when it has fewer than two segments |
| UrlClass.ParseHfDatasetUrlRepo | url_class.py:56-69 | the parser raises `urlparse`'s error for unbalanced brackets; otherwise it raises, naming the URL, exactly when the path has fewer than two segments or its first is not `datasets` |
| UrlClass.HttpsPath | url_class.py:40 | the path of `https://<host>/<p>` is `/<p>` less its parameters, for a plain host and a `p` with nothing `urlsplit` cuts at or deletes |
| UrlClass.HubUrlPath | url_class.py:40 | the path of `https://<host>/<s1>/.../<sn>` is `/s1/.../sn` |
| UrlClass.HubUrlParts | url_class.py:40-41 | the path segments of `https://<host>/<s1>/.../<sn>` are exactly `s1 ... sn`, for segments free of `/`, `;`, `?`, `#`, tab, CR and LF |
| UrlClass.ModelUrlRoundTrip | url_class.py:46-48 | `https://<host>/<ns>/<repo>` parses to `(ns, repo, "")` |
| UrlClass.ModelUrlWithRevision | url_class.py:51-52 | `https://<host>/<ns>/<repo>/tree/<rev>` parses to `(ns, repo, rev)` |
| UrlClass.ModelUrlNeedsTwoSegments | url_class.py:43-44 | a URL with a single path segment raises |
| UrlClass.DatasetUrlRoundTrip | url_class.py:66-69 | `.../datasets/<owner>/<name>` and `.../datasets/<name>` both give `name` |
| UrlClass.DatasetUrlNeedsPrefix | url_class.py:66-67 | a path that does not start with `datasets` raises |
| UrlClass.ParamsCut | url_class.py:40 | `/<q>;<params>`, with no `;` in `q` and no `/` in the parameters, keeps `/<q>` |
| UrlClass.HttpsWithParams | url_class.py:40 | the path of `https://<host>/<p>;<params>` is `/<p>` |
| UrlClass.HubUrlWithParams | url_class.py:40 | `;<params>` after a hub URL does not change its path |
| UrlClass.ModelUrlParamsDropped | url_class.py:40-48 | `https://<host>/<ns>/<repo>;<params>` parses to `(ns, repo, "")` |
| UrlClass.RevisionParamsDropped | url_class.py:40-52 | `https://<host>/<ns>/<repo>/tree/<rev>;<params>` parses to `(ns, repo, rev)` |
| UrlClass.DatasetUrlParamsDropped | url_class.py:63-69 | `.../datasets/<name>;<params>` gives `name` |
| UrlClass.TrailingSlashPath | url_class.py:41 | `/<seg>/` strips and splits to the single segment `seg` |
| UrlClass.EmptyLastSegmentRaises | url_class.py:40-44 | `https://<host>/<seg>/;<params>` has the one-segment path `/<seg>/`, so both parsers raise, naming the URL |
| UrlClass.TabDeleted | url_class.py:40 | a tab between two clean pieces of a URL is deleted before it is taken apart |
| UrlClass.UnsafeCharsDeleted | url_class.py:40-48 | `https://<host>/<ns>/<a>` + tab + `<b>` parses to `(ns, a + b, "")` |
| UrlClass.UnbalancedBracketRaises | url_class.py:40 | a host with a `[` and no `]`, or the reverse, makes both parsers raise `Invalid IPv6 URL` |
| UrlClass.StrippedFields | url_class.py:94 | there is one field per comma-separated piece |
| UrlClass.Padded | url_class.py:95-97 | the fields are kept and padded with empty strings to at least three |
| UrlClass.GroupOf | url_class.py:101-110 | a line whose links parse always yields a group, never a skip |
| UrlClass.LineGroupBlank | url_class.py:90-92 | a line gives no group exactly when it is blank |
| UrlClass.ReadLine | url_class.py:90-111 | one turn of the loop of `parse_project_file` gives the line's group or error |
| UrlClass.ParseProjectFile | url_class.py:85-113 | the loop gives the first error raised, or the groups of all lines in file order |
| UrlClass.GroupsPerLine | url_class.py:89-111 | the file parses exactly when every line does, and then there is one group per non-blank line |
| UrlClass.GroupsAppend | url_class.py:89-111 | parsing two stretches of lines one after the other equals parsing them together |
| UrlClass.ErrorStays | url_class.py:89-111 | the first error raised ends the parse |
| UrlClass.TooManyFieldsRaise | url_class.py:99 | a line with more than three fields raises at the unpacking |
| UrlClass.CodeOnlyLine | url_class.py:107 | a lone link is a code link, with no dataset or model |
| UrlClass.TwoEmptyFields | url_class.py:94-97 | `,,<link>` gives the fields `"", "", <link>` |
| UrlClass.ModelOnlyLine | url_class.py:101-109 | `,,<link>` gives a model with the parsed namespace, repository and revision |
| UrlClass.DatasetOnlyLine | url_class.py:103-108 | `,<link>,` gives a dataset whose repository is the parsed name |
| UrlClass.ModelErrorFirst | url_class.py:101-104 | when both links are malformed, the model link's error, naming the model URL or reporting its brackets, is the one raised |
| SizeScore.CalculateSizeScore | metrics/calculate_size_score.py:17-76 | the table, filled platform by platform, is `SizeEntries` of the size in GiB |
| SizeScore.SizeKeys | metrics/calculate_size_score.py:22-58 | the dictionary has exactly the four platform keys, in order |
| SizeScore.ScoresAreSteps | metrics/calculate_size_score.py:25-58 | every value is 0.0, 0.5 or 1.0 |
| SizeScore.ScoresNeverIncrease | metrics/calculate_size_score.py:25-58 | no platform's score rises as the size grows |
| SizeScore.PlatformsOrdered | metrics/calculate_size_score.py:25-58 | raspberry_pi ≤ jetson_nano ≤ desktop_pc ≤ aws_server |
| SizeScore.RaspberryPiThresholds | metrics/calculate_size_score.py:17-30 | full marks exactly up to 0.1 GiB, nothing exactly above 0.5 GiB (one GiB is 2^30 bytes) |
| SizeScore.MeanInRange | metrics/calculate_size_score.py:25-58 | the mean of the four scores lies in [0.25, 1] |
| BusFactor.BusFactorMetric | metrics/bus_factor_metric.py:28-76 | the pull-request loop gives `BusFactorScore`: 0.0 on a failed request or an unreadable pull request, otherwise the rule applied to the two sets |
| BusFactor.RecentAreContributors | metrics/bus_factor_metric.py:40-57 | recent contributors are among all contributors |
| BusFactor.ScoreInUnitRange | metrics/bus_factor_metric.py:66-76 | the score lies in [0, 1] |
| BusFactor.ScoreCountsContributors | metrics/bus_factor_metric.py:66-72 | with a recent contributor, the score is 1.0 from ten distinct contributors and 0.1 per contributor below that |
| BusFactor.NobodyRecentScoresZero | metrics/bus_factor_metric.py:66-67 | without a recent pull request the score is 0.0, whatever the total |
| BusFactor.RepeatedPullRequest | metrics/bus_factor_metric.py:50-57 | repeating a pull request does not change the score |
| BusFactor.MorePullRequestsNeverLower | metrics/bus_factor_metric.py:44-72 | one more readable pull request never lowers the score |
| BusFactor.LoginlessIgnored | metrics/bus_factor_metric.py:46-48 | a pull request without a login changes nothing |
| BusFactor.RuleMonotone | metrics/bus_factor_metric.py:66-72 | the scoring table never falls as either count grows |
| BusFactor.FailuresScoreZero | metrics/bus_factor_metric.py:28-76 | a failed request or an unreadable pull request gives 0.0 |
| DatasetAndCode.HasDatasetSimplified | metrics/dataset_and_code_present.py:33-40 | the README mentions a dataset exactly when it contains `data`, `roboflow.com` or `drive.google.com` |
| DatasetAndCode.ScanDirectory | metrics/dataset_and_code_present.py:69-74 | the inner loop finds what `SubScan` finds |
| DatasetAndCode.HasCode | metrics/dataset_and_code_present.py:46-76 | the nested loops find what `CodeFound` finds |
| DatasetAndCode.SubScanFinds | metrics/dataset_and_code_present.py:69-74 | a subdirectory has code exactly when one of its entries is a `.py` or `.ipynb` file |
| DatasetAndCode.RootScanFinds | metrics/dataset_and_code_present.py:54-76 | the root has code exactly when one of its entries is a code file, or a code directory whose listing holds one |
| DatasetAndCode.OnlyCodeDirsFetched | metrics/dataset_and_code_present.py:64-67 | only the listed code directories are ever fetched |
| DatasetAndCode.DatasetMetric | metrics/dataset_and_code_present.py:25-92 | the metric gives `DatasetScore` of its inputs |
| DatasetAndCode.CombineCounts | metrics/dataset_and_code_present.py:82-87 | the score is 0.5 for each of the two findings |
| DatasetAndCode.FailedListingNoCode | metrics/dataset_and_code_present.py:53 | without the root listing, the README alone decides between 0.5 and 0.0 |
| DatasetAndCode.FailedReadmeNoDataset | metrics/dataset_and_code_present.py:30 | without the README there is no dataset mention |
| LicenseScore.LicenseScore | metrics/calculate_license_score.py:29-56 | the score is 0.0 or 1.0 |
| LicenseScore.FullMarksIff | metrics/calculate_license_score.py:44-49 | 1.0 exactly for a successful request whose licence `spdx_id` is one of the three LGPL-2.1 identifiers |
| LicenseScore.OnlySpdxIdMatters | metrics/calculate_license_score.py:35-44 | licences with the same identifier score the same |
| LicenseScore.OtherIdsScoreZero | metrics/calculate_license_score.py:44-49 | any other identifier, compared case-sensitively, gives 0.0 |
| LicenseScore.FailedRequestScoresZero | metrics/calculate_license_score.py:29-56 | a failed request gives 0.0 |
| CodeQuality.FirstSlashPart | metrics/code_quality.py:44-45 | the part chosen holds a `/` |
| CodeQuality.CodeQualityScore | metrics/code_quality.py:22-64 | the loops over lines and parts give `QualityScore` |
| CodeQuality.LineRating | metrics/code_quality.py:41-52 | the inner loop gives the line's verdict |
| CodeQuality.NoRatingLine | metrics/code_quality.py:56-57 | output with no marker line is not rated |
| CodeQuality.MissingPylintScoresZero | metrics/code_quality.py:61-62 | a missing `pylint` gives 0.0 |
| CodeQuality.EarlierLinesIgnored | metrics/code_quality.py:40-41 | lines without the marker are passed over |
| CodeQuality.LaterLinesIgnored | metrics/code_quality.py:53-54 | lines after the first rated line do not matter |
| CodeQuality.RatingLine | metrics/code_quality.py:41-48 | `Your code has been rated at <v>/<rest>` is rated by the number `v` |
| CodeQuality.ScoreOfFirstRatedLine | metrics/code_quality.py:36-64 | the first line with a verdict decides: its rating, or 0.0 when `float()` rejects the number |
| CodeQuality.RatedNumberValue | metrics/code_quality.py:46-48 | `x/10` becomes `x / 10`, with no clamping |
| CodeQualityCheck.TodoScore | functions/code_quality_check.py:7-13 | the score exists exactly when the file exists; it is `max(0, 100 - 10·count)`, a multiple of ten in [0, 100] |
| CodeQualityCheck.FullMarksIffNoTodo | functions/code_quality_check.py:9-10 | 100 exactly when `TODO`, in any letter case, does not occur |
| CodeQualityCheck.LeadingTodoCostsTen | functions/code_quality_check.py:9-10 | one more `TODO` or `todo` costs ten points, down to zero, and counting resumes after it |
| CodeQualityCheck.TenTodosScoreZero | functions/code_quality_check.py:10 | ten or more occurrences give 0 |
| CodeQualityCheck.MoreTodosNeverHigher | functions/code_quality_check.py:10 | more occurrences never give a higher score |
| CodeQualityCheck.CaseInsensitive | functions/code_quality_check.py:9 | texts that agree when upper-cased score alike |
| JsonOutput.BuildModelOutput | json_output.py:36-37 | the same record is written twice |
| JsonOutput.NameAndCategoryCopied | json_output.py:12-13 | the record starts with the name and category as given |
| JsonOutput.RecordHasTwentyKeys | json_output.py:11-32 | every record has the same twenty keys, in order |
| JsonOutput.RecordKeysDistinct | json_output.py:11-32 | the twenty keys are distinct |
| JsonOutput.ColumnValues | json_output.py:14-31 | each score field is the run's score under its source key, or 0.0; each latency field is the latency, or 0; dictionaries pass through |
| JsonOutput.OtherKeysIgnored | json_output.py:11-32 | scores and latencies under other keys do not change the record |
| JsonOutput.NetScoreReported | json_output.py:14-15 | after a run, the record holds the net score the run computed and the span it measured |
| ApiClient.AuthHeaders | classes/api.py:54-56 | an `Authorization: Bearer <t>` header exactly when the token is set and not empty, and no other header |
| ApiClient.Api.constructor | classes/api.py:18-20 | a client starts with its base URL and no token |
| ApiClient.Api.SetBearerToken | classes/api.py:27-28 | the token becomes `t` |
| ApiClient.Api.SetBearerTokenFromFile | classes/api.py:30-44 | the token is replaced exactly when one is found; otherwise the error is raised and the old token stays |
| ApiClient.Api.Get | classes/api.py:51-72 | the request sent is the joined URL, the payload and the headers; the result is `GetResult` of the reply |
| ApiClient.Api.Post | classes/api.py:74-94 | the same request, sent as JSON; the result is `PostResult` of the reply |
| ApiClient.OneJoiningSlash | classes/api.py:47-48 | exactly one `/` joins the base without trailing slashes and the endpoint without leading slashes |
| ApiClient.EmptyEndpoint | classes/api.py:47-48 | an empty endpoint gives the stripped base and one `/` |
| ApiClient.SlashesAtTheSeam | classes/api.py:47-48 | slashes added at the seam change nothing |
| ApiClient.StatusChecked | classes/api.py:65-94 | both requests fail exactly on a status other than 200 (and `post` also on a body that is not JSON); `get` then falls back to the text |
| ApiClient.OtherOptionsIgnored | classes/api.py:33-37 | only the `.ini` option named by section and key is read |
| ApiClient.PlainTokenStripped | classes/api.py:38-43 | a plain file's token is its stripped content; a file of whitespace holds none |
| GitHub.TemplatesComplete | classes/github_api.py:11-17 | every template uses only the placeholders `build_endpoint` fills |
| GitHub.Arguments | classes/github_api.py:55 | every placeholder `build_endpoint` fills has an argument |
| GitHub.RenderEndpoint | classes/github_api.py:51-56 | an unknown endpoint raises the `ValueError`, and a known one always renders |
| GitHub.VerifyToken | classes/github_api.py:30-49 | no token exits; any failure is `exit(1)` |
| GitHub.TokenVerification | classes/github_api.py:30-49 | a missing token exits before any request; a token passes exactly when `/user` does not answer 401, with the token sent as given |
| GitHub.GitHubApi.constructor | classes/github_api.py:23-27 | the client stores owner, repository and revision, with no token |
| GitHub.GitHubApi.BuildEndpoint | classes/github_api.py:51-56 | it fails exactly for an unknown endpoint |
| GitHub.GitHubApi.BuildEndpointAsWritten | classes/github_api.py:11-17 | with the table as written, it fails exactly for an unknown endpoint |
| GitHub.GitHubApi.SetBearerTokenFromEnv | classes/github_api.py:59-64 | the variable becomes the token exactly when verification lets it through; otherwise the token stays |
| GitHub.GitHubApi.GetRepoPulls | classes/github_api.py:68-73 | an unknown endpoint raises; otherwise it returns the result of a `get` of the built endpoint |
| GitHub.GitHubApi.PullsAddress | classes/github_api.py:68-73 | the pull requests are requested at `/repos/<owner>/<repo>/pulls` with only the `state` parameter |
| GitHub.GitHubApi.RepoEndpointsUnderRepos | classes/github_api.py:13-15 | in the corrected table, every repository endpoint lies under `/repos/<owner>/<repo>/`: the README at `/repos/<owner>/<repo>/readme`, a file at `/repos/<owner>/<repo>/contents/<path>` |
| GitHub.GitHubApi.ContentEndpointAsWritten | classes/github_api.py:13-14 | as written, the contents endpoint lies outside `/repos/`, while `readme` lies under it |
| HuggingFace.TemplatesComplete | classes/hugging_face_api.py:10-18 | every template, as written and corrected, uses only the placeholders `build_endpoint` fills |
| HuggingFace.TablesShareNames | classes/hugging_face_api.py:10-18 | the corrected table names the same endpoints as the table as written |
| HuggingFace.RepoTemplateRenders | classes/hugging_face_api.py:11 | `<prefix>{namespace}/{repo}` renders to the prefix, the namespace, `/` and the repository |
| HuggingFace.TreeTemplateRenders | classes/hugging_face_api.py:12 | `<prefix>{namespace}/{repo}/tree/{rev}/{path}` renders with every placeholder in its place |
| HuggingFace.FileDownloadRenders | classes/hugging_face_api.py:13-16 | the download template renders to `<namespace>/<repo>/resolve/<rev>/<filename>` |
| HuggingFace.Entries | classes/hugging_face_api.py:69-72 | a listing never has more entries than items |
| HuggingFace.EntriesFailIff | classes/hugging_face_api.py:69-72 | the listing fails exactly when an item is not an object, or is a file entry without a path |
| HuggingFace.EntriesAreFiles | classes/hugging_face_api.py:69-72 | a listing is the file entries, in order, each projected to path and size (null when absent) |
| HuggingFace.NonFilesSkipped | classes/hugging_face_api.py:71 | non-file entries do not change the listing |
| HuggingFace.OnlyListsList | classes/hugging_face_api.py:68-72 | a response that is not a list lists nothing |
| HuggingFace.HuggingFaceApi.constructor | classes/hugging_face_api.py:24-28 | the client stores namespace, repository and revision (`main` by default), with no token |
| HuggingFace.HuggingFaceApi.SetBearerTokenFromFile | classes/hugging_face_api.py:31-32 | the token file is read, by default from its `huggingface` section |
| HuggingFace.HuggingFaceApi.ValidateModelFields | classes/hugging_face_api.py:35-39 | it raises exactly when namespace, repository or revision is empty, and otherwise returns true |
| HuggingFace.HuggingFaceApi.Arguments | classes/hugging_face_api.py:45 | every placeholder `build_endpoint` fills has an argument |
| HuggingFace.HuggingFaceApi.BuildEndpoint | classes/hugging_face_api.py:41-46 | the corrected `build_endpoint` of the Findings row: an unknown endpoint raises the `ValueError`, and a known one always renders |
| HuggingFace.HuggingFaceApi.BuildEndpointAsWritten | classes/hugging_face_api.py:41-46 | with the table as written, an unknown endpoint raises the `ValueError`, and a known one always renders |
| HuggingFace.HuggingFaceApi.GetBaseInfo | classes/hugging_face_api.py:48-52 | the rendered endpoint is fetched |
| HuggingFace.HuggingFaceApi.GetModelInfo | classes/hugging_face_api.py:54-57 | the fields are validated before anything is sent |
| HuggingFace.HuggingFaceApi.GetDatasetInfo | classes/hugging_face_api.py:59-61 | the dataset information is fetched without validation |
| HuggingFace.HuggingFaceApi.GetFilesInfo | classes/hugging_face_api.py:64-73 | a recursive listing is fetched and reduced to its files |
| HuggingFace.HuggingFaceApi.GetModelFilesInfo | classes/hugging_face_api.py:75-78 | the fields are validated, then the files are listed |
| HuggingFace.HuggingFaceApi.GetDatasetFilesInfo | classes/hugging_face_api.py:80-82 | the files are listed without validation |
| HuggingFace.HuggingFaceApi.DownloadFile | classes/hugging_face_api.py:84-112 | it returns or raises what `Download` describes, and writes those files |
| HuggingFace.HuggingFaceApi.DownloadAll | classes/hugging_face_api.py:93-103 | the list loop gives `SaveAll` |
| HuggingFace.HuggingFaceApi.DownloadSingle | classes/hugging_face_api.py:105-112 | the single-name case gives `SaveSingle` |
| HuggingFace.HuggingFaceApi.DownloadModelFile | classes/hugging_face_api.py:114-115 | the model download is `download_file` with the model endpoint |
| HuggingFace.HuggingFaceApi.DownloadDatasetFile | classes/hugging_face_api.py:117-118 | the dataset download is `download_file` with the dataset endpoint |
| HuggingFace.HuggingFaceApi.InfoIgnoresPathAndName | classes/hugging_face_api.py:11-45 | the information endpoints ignore the path and file-name arguments |
| HuggingFace.HuggingFaceApi.ModelInfoEndpoint | classes/hugging_face_api.py:11-45 | `model_info` renders to `api/models/<namespace>/<repo>` |
| HuggingFace.HuggingFaceApi.DatasetEndpoints | classes/hugging_face_api.py:14-15 | in the corrected table, a dataset's information is at `api/datasets/<namespace>/<repo>` and its files at `api/datasets/<namespace>/<repo>/tree/<rev>/<path>` |
| HuggingFace.HuggingFaceApi.DatasetEndpointsAsWritten | classes/hugging_face_api.py:14-15 | as written, both dataset endpoints render under `api/dataset/`, outside `api/datasets/`, while the model endpoints are the same in both tables |
| HuggingFace.HuggingFaceApi.FileDownloadEndpoint | classes/hugging_face_api.py:13-16 | a file of a model or a dataset is downloaded from `<namespace>/<repo>/resolve/<rev>/<name>` |
| HuggingFace.HuggingFaceApi.OnlyModelGettersValidate | classes/hugging_face_api.py:54-61 | with an empty field the model getters raise, while the endpoints still render for the dataset getters |
| HuggingFace.HuggingFaceApi.UnknownEndpointWritesNothing | classes/hugging_face_api.py:86-88 | an unknown endpoint raises before any file is written |
| HuggingFace.HuggingFaceApi.SaveAllShape | classes/hugging_face_api.py:93-103 | a list writes one file per name, in order, at `ManyPath`, and stops at the first failure; on success it returns exactly those paths |
| HuggingFace.HuggingFaceApi.ManyPaths | classes/hugging_face_api.py:98-99 | there is one path per name, in order |
| HuggingFace.HuggingFaceApi.SaveEachPath | classes/hugging_face_api.py:96-99 | each file of a list is saved under the list naming |
| HuggingFace.HuggingFaceApi.ListedNamesFlattened | classes/hugging_face_api.py:98-99 | for a repository name without `/`, a listed name's file name holds no `/`, so the file lands directly in the destination directory |
| HuggingFace.HuggingFaceApi.SingleFileShape | classes/hugging_face_api.py:105-112 | a single name writes at most one file, `<dest>/<repo>_<name>.txt` with the name as given, and exactly when the fetch succeeds; a body that cannot be encoded leaves the file empty and raises |
| Template.Render | classes/hugging_face_api.py:45 | `str.format` succeeds exactly when every placeholder has an argument |
| Template.UnusedArgumentsIgnored | classes/github_api.py:55 | only the arguments of the template's own placeholders matter |
| Template.RenderAppend | classes/github_api.py:55 | a template renders part by part |
| Template.RenderHole | classes/github_api.py:55 | a placeholder is replaced by its argument verbatim |
| Text.JoinSplit | metric_caller.py:14 | joining the pieces of `split(sep)` gives back the text |
| Text.SplitJoin | metric_caller.py:14 | splitting a join of pieces without separators gives back the pieces |
| Text.Split | url_class.py:41 | `split` gives one more piece than there are separators, none holding a separator |
| Text.StripBothFacts | metric_caller.py:12 | `strip` removes exactly the leading and trailing characters of the set |
| Text.SplitLines | metrics/code_quality.py:40 | no line of `splitlines` holds a line break |
| Text.CountZeroIffAbsent | functions/code_quality_check.py:9 | `count` is zero exactly when the pattern does not occur |
| Text.CountLeading | functions/code_quality_check.py:9 | a leading occurrence is counted, then counting resumes after it (no overlaps) |
| Text.ParseDigitsAndDots | metric_caller.py:120 | on digits and points, `float()` succeeds exactly with at most one point and a digit, and gives a number that is not negative |
| Sums.SumByPermutation | metric_caller.py:149-151 | a sum does not depend on the order of its terms |

## Left out

- Concurrency: the processes, the `Manager` queues, and `start`, `join` and the blocking `get`. The results are any ordering of one worker result per accepted task. `process_worker` catches only `Exception`, so a scorer that calls `sys.exit`, or a worker process that is killed, queues no result; the collector's blocking `get` then waits for ever. The model assumes every worker queues its one result.
- Time: `perf_counter`, `time.time` and the log banners' timestamps. Scorer times, the worker's elapsed time and the net-score span are inputs.
- `load_available_functions` and `inspect.signature`: directory scanning and imports. The registry is a given map from name to arity.
- The text of warnings and log messages, and verbosity levels: the model states which warning is issued, not its wording.
- HTTP, `subprocess` and file I/O: replies, PyLint output, file contents and the environment are inputs. For an `.ini` token file, `configparser.Error` on a file that opens but does not parse (no section header, a duplicate section or option) is left out, and so is interpolation (a lone `%` in a value raises, `%%` reads as `%`): the model takes the file's options as given. These are also left out: the request timeout; network exceptions other than an unsuccessful status; `os.makedirs`; an `open` that fails while writing a download.
- The LLM-based metrics (ramp-up time, performance claims, README evaluation, the LLM client) and `dataset_quality`: prompt building, network calls and dataset-library calls.
- The drivers and harnesses: `run.py`, `run_test.py`, `testing.py`, `test_suite.py`, `get_model_metrics.py`, the superseded `busFactorMetric.py` and `LicenseMetric.py`, and `jsontest1.py`.
- The demonstration scorers `process_data`, `log_activity` and `api_latency_test`: sleeps and prints with constant scores.
- The `__main__` block of `json_output.py`: it passes keyword arguments the function does not take.
- Floating point: scores, weights and times are exact reals. This leaves out IEEE rounding and the `float(time_taken)` conversion.
- `json.dumps`: rendering the record, and `str()` of a downloaded JSON body, are left as values, not text.
- Text.ParseFloat: only an optional sign, digits and one point are read; exponents, `inf`, `nan` and underscores count as unparsable.
- Text.Lower, Text.Upper: only ASCII letters change case.
- UrlClass.ParseProjectFile: the file is given as its lines; a missing file and ASCII decoding errors are left out.
- UrlClass.ParseHuggingfaceUrl: `urlsplit`'s `_check_bracketed_netloc` (a host in balanced brackets must be an IPv6 or IPvFuture address) and its NFKC check of a non-ASCII network location are left out, so such URLs parse where Python can raise; the rest of `urlparse` follows CPython 3.12.
- UrlClass.ParseHfDatasetUrlRepo: the same two `urlsplit` checks are left out, with the same effect.
- MetricCaller.MatchTaskLine: `\w` and `\d` are taken as ASCII.
- MetricCaller.Worker: a scorer's `float(time_taken)` that fails is treated like any other failure, with the worker's own time.
- BusFactor.BusFactorMetric: dates are integers on the same clock as the cutoff; parsing `%Y-%m-%dT%H:%M:%SZ` is only "readable or not".
- DatasetAndCode.HasCode: a listing's items are given as typed entries, and an entry without a `type` raises.
- HuggingFace.HuggingFaceApi.DownloadFile: the written content of a JSON body is that body, not its Python `str()` text.
- GitHub.GitHubApi.SetBearerTokenFromEnv: `sys.exit` is modelled as an error result, not as ending the process.

## Findings

| source | as written | input that shows it | evidently intended | confidence | as-written member | corrected member |
|---|---|---|---|---|---|---|
| classes/github_api.py:13 | the `repo_content` template begins `/repose/` | any owner, repository and path: `build_endpoint("repo_content", path)` gives `/repose/<owner>/<repo>/contents/<path>`, which is not a GitHub API route | `/repos/<owner>/<repo>/contents/<path>`, like its siblings `readme` and `pull_requests` | high; not executed | GitHub.GitHubApi.ContentEndpointAsWritten | GitHub.GitHubApi.RepoEndpointsUnderRepos |
| classes/hugging_face_api.py:14-15 | the `dataset_info` and `dataset_files` templates begin `api/dataset/` | any namespace and repository: `build_endpoint("dataset_info")` gives `api/dataset/<namespace>/<repo>`, which is not a Hub API route | `api/datasets/<namespace>/<repo>` (and `.../tree/<rev>/<path>`), the Hub's dataset routes, as `model_info` uses `api/models/` | medium; not executed | HuggingFace.HuggingFaceApi.DatasetEndpointsAsWritten | HuggingFace.HuggingFaceApi.DatasetEndpoints |
