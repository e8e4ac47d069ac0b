/**
 * `calculate_license_score`: 1.0 for a GitHub repository whose detected
 * license is LGPL-2.1, 0.0 for any other license, for none, and for a
 * failed request.
 */
module LicenseScore {
  import opened Wrappers

  /** The `license` member of the repository metadata: absent, null or an
      empty object (all falsy), or an object with or without `spdx_id`. */
  datatype LicenseField = NoLicense | License(spdxId: Option<string>)

  /** The metadata response. */
  datatype RepoResponse = RepoResponse(status: int, license: LicenseField)

  const Accepted: seq<string> := ["LGPL-2.1", "LGPL-2.1-only", "LGPL-2.1-or-later"]

  /** The licence test: an object whose `spdx_id` is one of the accepted ids. */
  predicate IsLgpl21(license: LicenseField)
  {
    license.License? && license.spdxId.Some? && license.spdxId.value in Accepted
  }

  /** `calculate_license_score` once the metadata is fetched. A status other
      than 200 raises inside the `try`, which scores 0.0. */
  function LicenseScore(response: RepoResponse): (score: real)
    ensures score == 0.0 || score == 1.0
  {
    if response.status != 200 then 0.0
    else if IsLgpl21(response.license) then 1.0
    else 0.0
  }

  // ------------------------------------------------------------- properties

  /** Full marks exactly for a successful request reporting one of the three
      LGPL-2.1 identifiers. */
  lemma FullMarksIff(response: RepoResponse)
    ensures LicenseScore(response) == 1.0 <==>
      response.status == 200 && response.license.License? && response.license.spdxId.Some? &&
      (response.license.spdxId.value == "LGPL-2.1" ||
       response.license.spdxId.value == "LGPL-2.1-only" ||
       response.license.spdxId.value == "LGPL-2.1-or-later")
  {
  }

  /** Only the `spdx_id` matters: two objects with the same identifier score
      alike, and a missing or other identifier scores 0.0. */
  lemma OnlySpdxIdMatters(status: int, a: LicenseField, b: LicenseField)
    requires a.License? && b.License? && a.spdxId == b.spdxId
    ensures LicenseScore(RepoResponse(status, a)) == LicenseScore(RepoResponse(status, b))
  {
  }

  /** The ids are compared exactly: one that differs from all three, for
      instance in letter case or by a suffix, scores 0.0. */
  lemma OtherIdsScoreZero(status: int, id: string)
    requires id != "LGPL-2.1" && id != "LGPL-2.1-only" && id != "LGPL-2.1-or-later"
    ensures LicenseScore(RepoResponse(status, License(Some(id)))) == 0.0
  {
  }

  /** A failed request scores 0.0 whatever it carries. */
  lemma FailedRequestScoresZero(response: RepoResponse)
    requires response.status != 200
    ensures LicenseScore(response) == 0.0
  {
  }
}
