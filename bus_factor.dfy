/**
 * The scoring part of `bus_factor_metric`: the pull requests of a GitHub
 * repository, the distinct people who opened them, and how many of those
 * did so since a cutoff, turned into a score between 0 and 1.
 */
module BusFactor {
  import opened Wrappers

  /** The `user` field of a pull request as `pr.get("user", {})` sees it. */
  datatype UserField =
    | NoUserKey                      // the key is absent: `{}` is used
    | NullUser                       // JSON null: `None.get` raises
    | User(login: Option<string>)    // an object, with or without `login`

  /** A pull request: its creation time (`None` when `created_at` is missing
      or not in the `%Y-%m-%dT%H:%M:%SZ` form, which raises), in seconds on
      the same clock as the cutoff, and its user. */
  datatype PullRequest = PullRequest(created: Option<int>, user: UserField)

  /** A pull request whose reading raises, which makes the whole metric 0.0. */
  predicate Malformed(pr: PullRequest) { pr.created.None? || pr.user.NullUser? }

  /** The login a pull request counts for: a non-empty `login`. */
  predicate HasLogin(pr: PullRequest) { pr.user.User? && pr.user.login.Some? && pr.user.login.value != "" }

  function Login(pr: PullRequest): string
    requires HasLogin(pr)
  {
    pr.user.login.value
  }

  predicate IsRecent(pr: PullRequest, cutoff: int) { pr.created.Some? && pr.created.value >= cutoff }

  /** Everyone who opened a pull request. */
  function AllContributors(prs: seq<PullRequest>): set<string>
  {
    set i | 0 <= i < |prs| && HasLogin(prs[i]) :: Login(prs[i])
  }

  /** Everyone who opened a pull request at or after the cutoff. */
  function RecentContributors(prs: seq<PullRequest>, cutoff: int): set<string>
  {
    set i | 0 <= i < |prs| && HasLogin(prs[i]) && IsRecent(prs[i], cutoff) :: Login(prs[i])
  }

  /** The scoring table: nobody recent gives 0.0; otherwise 0.1 per
      contributor, reaching 1.0 at ten. */
  function Rule(recent: nat, total: nat): real
  {
    if recent == 0 then 0.0 else if total >= 10 then 1.0 else 0.1 * total as real
  }

  /** The score for a response status and the pull requests it lists. */
  function BusFactorScore(status: int, prs: seq<PullRequest>, cutoff: int): real
  {
    if status != 200 || exists i :: 0 <= i < |prs| && Malformed(prs[i]) then 0.0
    else Rule(|RecentContributors(prs, cutoff)|, |AllContributors(prs)|)
  }

  /** `bus_factor_metric` once the pull requests have been fetched. */
  method BusFactorMetric(status: int, prs: seq<PullRequest>, cutoff: int) returns (score: real)
    ensures score == BusFactorScore(status, prs, cutoff)
  {
    if status != 200 {
      return 0.0;
    }
    var recent: set<string> := {};
    var all: set<string> := {};
    for i := 0 to |prs|
      invariant forall j :: 0 <= j < i ==> !Malformed(prs[j])
      invariant all == AllContributors(prs[..i])
      invariant recent == RecentContributors(prs[..i], cutoff)
    {
      var pr := prs[i];
      if pr.created.None? || pr.user.NullUser? {
        assert Malformed(prs[i]);
        return 0.0;
      }
      PrefixStep(prs, i, cutoff);
      var login := if pr.user.User? then pr.user.login else None;
      if login.Some? && login.value != "" {
        all := all + {login.value};
        if pr.created.value >= cutoff {
          recent := recent + {login.value};
        }
      }
    }
    assert prs[..|prs|] == prs;
    assert BusFactorScore(status, prs, cutoff) == Rule(|recent|, |all|);
    if |recent| == 0 {
      score := 0.0;
    } else if |all| >= 10 {
      score := 1.0;
    } else {
      score := 0.1 * |all| as real;
    }
  }

  /** How both sets grow by one pull request. */
  lemma PrefixStep(prs: seq<PullRequest>, i: nat, cutoff: int)
    requires i < |prs|
    ensures AllContributors(prs[..i + 1]) ==
      AllContributors(prs[..i]) + if HasLogin(prs[i]) then {Login(prs[i])} else {}
    ensures RecentContributors(prs[..i + 1], cutoff) ==
      RecentContributors(prs[..i], cutoff) + if HasLogin(prs[i]) && IsRecent(prs[i], cutoff) then {Login(prs[i])} else {}
  {
    var a := prs[..i];
    var b := prs[..i + 1];
    assert forall j :: 0 <= j < i ==> b[j] == a[j];
    assert b[i] == prs[i];
  }

  // ------------------------------------------------------------- properties

  /** Recent contributors are contributors. */
  lemma RecentAreContributors(prs: seq<PullRequest>, cutoff: int)
    ensures RecentContributors(prs, cutoff) <= AllContributors(prs)
    ensures |RecentContributors(prs, cutoff)| <= |AllContributors(prs)|
  {
    SubsetCardinality(RecentContributors(prs, cutoff), AllContributors(prs));
  }

  lemma {:induction false} SubsetCardinality(a: set<string>, b: set<string>)
    requires a <= b
    ensures |a| <= |b|
    decreases |b|
  {
    if a != {} {
      var x :| x in a;
      SubsetCardinality(a - {x}, b - {x});
    }
  }

  /** The score always lies in [0, 1]. */
  lemma ScoreInUnitRange(status: int, prs: seq<PullRequest>, cutoff: int)
    ensures 0.0 <= BusFactorScore(status, prs, cutoff) <= 1.0
  {
  }

  /** With someone recent, each contributor is worth 0.1, up to ten. */
  lemma ScoreCountsContributors(status: int, prs: seq<PullRequest>, cutoff: int)
    requires status == 200 && forall i :: 0 <= i < |prs| ==> !Malformed(prs[i])
    requires |RecentContributors(prs, cutoff)| > 0
    ensures var n := |AllContributors(prs)|;
      BusFactorScore(status, prs, cutoff) == if n >= 10 then 1.0 else 0.1 * n as real
    ensures BusFactorScore(status, prs, cutoff) >= 0.1
  {
    RecentAreContributors(prs, cutoff);
  }

  /** Without a recent contributor the score is 0.0, however many people
      opened pull requests before the cutoff. */
  lemma NobodyRecentScoresZero(status: int, prs: seq<PullRequest>, cutoff: int)
    requires forall i :: 0 <= i < |prs| ==> !IsRecent(prs[i], cutoff)
    ensures BusFactorScore(status, prs, cutoff) == 0.0
  {
    assert RecentContributors(prs, cutoff) == {};
  }

  /** A pull request opened again by the same person, at the same time,
      changes nothing: contributors are counted once each. */
  lemma RepeatedPullRequest(status: int, prs: seq<PullRequest>, i: nat, cutoff: int)
    requires i < |prs|
    ensures BusFactorScore(status, prs + [prs[i]], cutoff) == BusFactorScore(status, prs, cutoff)
  {
    var longer := prs + [prs[i]];
    assert forall j :: 0 <= j < |prs| ==> longer[j] == prs[j];
    assert longer[|prs|] == prs[i];
    assert AllContributors(longer) == AllContributors(prs);
    assert RecentContributors(longer, cutoff) == RecentContributors(prs, cutoff);
  }

  /** Appending a pull request: what the sets and the error check become. */
  lemma AppendOne(prs: seq<PullRequest>, pr: PullRequest, cutoff: int)
    ensures var longer := prs + [pr];
      && AllContributors(longer) == AllContributors(prs) + (if HasLogin(pr) then {Login(pr)} else {})
      && RecentContributors(longer, cutoff) ==
           RecentContributors(prs, cutoff) + (if HasLogin(pr) && IsRecent(pr, cutoff) then {Login(pr)} else {})
      && ((exists i :: 0 <= i < |longer| && Malformed(longer[i])) <==>
           (exists i :: 0 <= i < |prs| && Malformed(prs[i])) || Malformed(pr))
  {
    var longer := prs + [pr];
    assert longer[..|prs|] == prs;
    assert longer[..|prs| + 1] == longer;
    PrefixStep(longer, |prs|, cutoff);
    if exists i :: 0 <= i < |longer| && Malformed(longer[i]) {
      var i :| 0 <= i < |longer| && Malformed(longer[i]);
      if i < |prs| {
        assert longer[i] == prs[i];
      }
    }
    if exists i :: 0 <= i < |prs| && Malformed(prs[i]) {
      var i :| 0 <= i < |prs| && Malformed(prs[i]);
      assert longer[i] == prs[i];
    }
    if Malformed(pr) {
      assert longer[|prs|] == pr;
    }
  }

  /** More recent contributors and more contributors never lower the rule. */
  lemma RuleMonotone(r1: nat, t1: nat, r2: nat, t2: nat)
    requires r1 <= r2 && t1 <= t2
    ensures Rule(r1, t1) <= Rule(r2, t2)
  {
  }

  /** One more readable pull request never lowers the score. */
  lemma MorePullRequestsNeverLower(status: int, prs: seq<PullRequest>, pr: PullRequest, cutoff: int)
    requires !Malformed(pr)
    ensures BusFactorScore(status, prs + [pr], cutoff) >= BusFactorScore(status, prs, cutoff)
  {
    var longer := prs + [pr];
    AppendOne(prs, pr, cutoff);
    SubsetCardinality(AllContributors(prs), AllContributors(longer));
    SubsetCardinality(RecentContributors(prs, cutoff), RecentContributors(longer, cutoff));
    RuleMonotone(|RecentContributors(prs, cutoff)|, |AllContributors(prs)|,
                 |RecentContributors(longer, cutoff)|, |AllContributors(longer)|);
  }

  /** Pull requests with no login are ignored. */
  lemma LoginlessIgnored(status: int, prs: seq<PullRequest>, pr: PullRequest, cutoff: int)
    requires !Malformed(pr) && !HasLogin(pr)
    ensures BusFactorScore(status, prs + [pr], cutoff) == BusFactorScore(status, prs, cutoff)
  {
    AppendOne(prs, pr, cutoff);
  }

  /** A response other than 200, or a pull request that cannot be read,
      gives 0.0 whatever the rest holds. */
  lemma FailuresScoreZero(status: int, prs: seq<PullRequest>, i: nat, cutoff: int)
    requires status != 200 || (i < |prs| && Malformed(prs[i]))
    ensures BusFactorScore(status, prs, cutoff) == 0.0
  {
  }
}
