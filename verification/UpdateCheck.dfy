// The choice of a release to offer, and the paged reading of the release list.
//
// The network is a function from page numbers to answers; assets and download addresses are
// not modelled.
module UpdateCheck {
  import opened Common
  import opened Strings
  import opened Versions

  const PAGE_SIZE: nat := 100
  const MAX_PAGES: nat := 10

  // tag_name may be anything but a string: None.
  datatype Release = Release(tag: Option<string>, htmlUrl: string, draft: bool, prerelease: bool)

  datatype Body = NotJson | NotAnArray | Releases(page: seq<Release>)

  // The request itself failed or was aborted, or it was answered.
  datatype Answer = Failed | Answered(status: nat, body: Body)

  datatype Reason = NoRelease | RateLimited | Network | ParseError

  datatype Verdict = Error(reason: Reason) | UpToDate | UpdateAvailable(latestVersion: string, releaseNotesUrl: string)

  predicate IsPrereleaseVersion(raw: string) {
    ParseVersion(raw).Some? && ParseVersion(raw).value.prerelease != []
  }

  // What may be offered to an installation of the current version.
  predicate Eligible(r: Release, currentVersion: string) {
    && !r.draft && r.tag.Some? && ParseVersion(r.tag.value).Some?
    && (r.prerelease || ParseVersion(r.tag.value).value.prerelease != [] ==> IsPrereleaseVersion(currentVersion))
  }

  function VersionOf(r: Release): (v: Version)
    requires r.tag.Some? && ParseVersion(r.tag.value).Some?
    ensures IsParsed(v)
  {
    ParseVersion(r.tag.value).value
  }

  function CandidateOf(r: Release, currentVersion: string): (v: Option<Version>)
    ensures v.Some? ==> IsParsed(v.value)
  {
    if Eligible(r, currentVersion) then Some(VersionOf(r)) else None
  }

  type Candidates = vs: seq<Option<Version>> | forall i :: 0 <= i < |vs| && vs[i].Some? ==> IsParsed(vs[i].value)

  function CandidatesOf(releases: seq<Release>, currentVersion: string): (vs: Candidates)
    ensures |vs| == |releases| && forall i :: 0 <= i < |vs| ==> vs[i] == CandidateOf(releases[i], currentVersion)
  {
    seq(|releases|, i requires 0 <= i < |releases| => CandidateOf(releases[i], currentVersion))
  }

  // Among the first n candidates, i is the first of the greatest.
  ghost predicate IsFirstGreatest(vs: Candidates, i: nat, n: nat) {
    && i < n <= |vs| && vs[i].Some?
    && forall j :: 0 <= j < n && vs[j].Some? ==>
         && Compare(vs[j].value, vs[i].value) <= 0
         && (j < i ==> Compare(vs[j].value, vs[i].value) < 0)
  }

  // The first of the greatest eligible releases.
  ghost predicate IsPick(releases: seq<Release>, currentVersion: string, pick: Option<Release>) {
    var vs := CandidatesOf(releases, currentVersion);
    if pick.None? then forall i :: 0 <= i < |vs| ==> vs[i].None?
    else exists i :: 0 <= i < |vs| && releases[i] == pick.value && IsFirstGreatest(vs, i, |vs|)
  }

  lemma BelowNewer(v: Version, top: Version, newer: Version)
    requires IsParsed(v) && IsParsed(top) && IsParsed(newer)
    requires Compare(v, top) <= 0 && Compare(newer, top) > 0
    ensures Compare(v, newer) < 0
  {
    CompareNegates(v, newer);
    if Compare(newer, v) <= 0 { CompareIsTransitive(newer, v, top); }
  }

  lemma GreaterTakesOver(vs: Candidates, best: nat, n: nat)
    requires IsFirstGreatest(vs, best, n) && n < |vs| && vs[n].Some?
    requires Compare(vs[n].value, vs[best].value) > 0
    ensures IsFirstGreatest(vs, n, n + 1)
  {
    CompareNegates(vs[n].value, vs[n].value);
    forall j | 0 <= j < n && vs[j].Some? ensures Compare(vs[j].value, vs[n].value) < 0 {
      BelowNewer(vs[j].value, vs[best].value, vs[n].value);
    }
  }

  lemma TakesOver(vs: Candidates, best: Option<nat>, n: nat)
    requires n < |vs| && vs[n].Some?
    requires match best
             case None => forall j :: 0 <= j < n ==> vs[j].None?
             case Some(b) => IsFirstGreatest(vs, b, n) && Compare(vs[n].value, vs[b].value) > 0
    ensures IsFirstGreatest(vs, n, n + 1)
  {
    if best.Some? { GreaterTakesOver(vs, best.value, n); }
    CompareNegates(vs[n].value, vs[n].value);
  }

  // The version of a release that may be offered.
  method CandidateVersion(release: Release, currentVersion: string, allowPrerelease: bool) returns (v: Option<Version>)
    requires allowPrerelease == IsPrereleaseVersion(currentVersion)
    ensures v == CandidateOf(release, currentVersion)
  {
    if release.draft || release.tag.None? { return None; }
    var version := ParseVersion(release.tag.value);
    if version.None? { return None; }
    var isPrerelease := release.prerelease || version.value.prerelease != [];
    if isPrerelease && !allowPrerelease { return None; }
    return version;
  }

  // `best` is the first of the greatest among the first n, with its release.
  ghost predicate Leads(vs: Candidates, releases: seq<Release>, n: nat, best: Option<(Release, Version)>) {
    && |releases| == |vs| && n <= |vs|
    && match best
       case None => forall j :: 0 <= j < n ==> vs[j].None?
       case Some(b) => exists i: nat :: IsFirstGreatest(vs, i, n) && releases[i] == b.0 && vs[i] == Some(b.1)
  }

  lemma LeadsNext(vs: Candidates, releases: seq<Release>, n: nat, best: Option<(Release, Version)>)
    requires Leads(vs, releases, n, best) && n < |vs|
    ensures best.Some? ==> IsParsed(best.value.1)
    ensures vs[n].Some? && (best.None? || Compare(vs[n].value, best.value.1) > 0) ==>
      Leads(vs, releases, n + 1, Some((releases[n], vs[n].value)))
    ensures vs[n].None? || (best.Some? && Compare(vs[n].value, best.value.1) <= 0) ==> Leads(vs, releases, n + 1, best)
  {
    if best.Some? {
      LeadsOn(vs, releases, n, best.value);
    } else if vs[n].Some? {
      TakesOver(vs, None, n);
    }
  }

  lemma LeadsOn(vs: Candidates, releases: seq<Release>, n: nat, b: (Release, Version))
    requires Leads(vs, releases, n, Some(b)) && n < |vs|
    ensures IsParsed(b.1)
    ensures vs[n].Some? && Compare(vs[n].value, b.1) > 0 ==> IsFirstGreatest(vs, n, n + 1)
    ensures vs[n].None? || Compare(vs[n].value, b.1) <= 0 ==> Leads(vs, releases, n + 1, Some(b))
  {
    var i: nat :| IsFirstGreatest(vs, i, n) && releases[i] == b.0 && vs[i] == Some(b.1);
    if vs[n].Some? && Compare(vs[n].value, b.1) > 0 { TakesOver(vs, Some(i), n); }
    else { assert IsFirstGreatest(vs, i, n + 1); }
  }

  // The loop with its `best` variable.
  method PickLatestRelease(releases: seq<Release>, currentVersion: string) returns (pick: Option<Release>)
    ensures IsPick(releases, currentVersion, pick)
  {
    var allowPrerelease := IsPrereleaseVersion(currentVersion);
    var best: Option<(Release, Version)> := None;
    ghost var vs := CandidatesOf(releases, currentVersion);
    for n := 0 to |releases|
      invariant Leads(vs, releases, n, best)
    {
      LeadsNext(vs, releases, n, best);
      var version := CandidateVersion(releases[n], currentVersion, allowPrerelease);
      if version.None? { continue; }
      if best.None? {
        best := Some((releases[n], version.value));
      } else {
        var order := CompareVersions(version.value, best.value.1);
        if order > 0 { best := Some((releases[n], version.value)); }
      }
    }
    pick := if best.Some? then Some(best.value.0) else None;
  }

  // The pages up to the first short one, or the tenth; or the first failure.
  datatype Listing = Listed(releases: seq<Release>) | Broken(reason: Reason)

  function FailureOf(answer: Answer): Option<Reason> {
    match answer
    case Failed => Some(Network)
    case Answered(status, body) =>
      if status == 404 then Some(NoRelease)
      else if status == 403 || status == 429 then Some(RateLimited)
      else if !(200 <= status < 300) then Some(Network)
      else if !body.Releases? then Some(ParseError)
      else None
  }

  function PageOf(answer: Answer): seq<Release> {
    if answer.Answered? && answer.body.Releases? then answer.body.page else []
  }

  function ListingFrom(fetch: nat -> Answer, page: nat): Listing
    decreases if page > MAX_PAGES then 0 else MAX_PAGES + 1 - page
  {
    if page > MAX_PAGES then Listed([])
    else if FailureOf(fetch(page)).Some? then Broken(FailureOf(fetch(page)).value)
    else if |PageOf(fetch(page))| < PAGE_SIZE then Listed(PageOf(fetch(page)))
    else
      var rest := ListingFrom(fetch, page + 1);
      if rest.Broken? then rest else Listed(PageOf(fetch(page)) + rest.releases)
  }

  // The answer for a list that could be read.
  ghost predicate IsVerdict(releases: seq<Release>, currentVersion: string, verdict: Verdict)
    requires ParseVersion(currentVersion).Some?
  {
    var current := ParseVersion(currentVersion).value;
    match verdict
    case Error(reason) => reason.NoRelease? && forall r :: r in releases ==> !Eligible(r, currentVersion)
    case UpToDate =>
      && (exists r :: r in releases && Eligible(r, currentVersion))
      && (forall r :: r in releases && Eligible(r, currentVersion) ==> Compare(VersionOf(r), current) <= 0)
    case UpdateAvailable(version, url) =>
      exists r :: r in releases && Eligible(r, currentVersion) && Compare(VersionOf(r), current) > 0
        && version == StripV(r.tag.value) && url == r.htmlUrl
        && (forall s :: s in releases && Eligible(s, currentVersion) ==> Compare(VersionOf(s), VersionOf(r)) <= 0)
  }

  function VerdictOn(pick: Release, current: Version): Verdict
    requires pick.tag.Some? && ParseVersion(pick.tag.value).Some? && IsParsed(current)
  {
    if Compare(VersionOf(pick), current) <= 0 then UpToDate else UpdateAvailable(StripV(pick.tag.value), pick.htmlUrl)
  }

  lemma PickedVerdict(releases: seq<Release>, currentVersion: string, pick: Release)
    requires ParseVersion(currentVersion).Some? && IsPick(releases, currentVersion, Some(pick))
    ensures Eligible(pick, currentVersion)
    ensures IsVerdict(releases, currentVersion, VerdictOn(pick, ParseVersion(currentVersion).value))
  {
    var current := ParseVersion(currentVersion).value;
    var vs := CandidatesOf(releases, currentVersion);
    var i :| 0 <= i < |vs| && releases[i] == pick && IsFirstGreatest(vs, i, |vs|);
    assert vs[i] == CandidateOf(pick, currentVersion);
    forall s | s in releases && Eligible(s, currentVersion)
      ensures Compare(VersionOf(s), VersionOf(pick)) <= 0
      ensures Compare(VersionOf(pick), current) <= 0 ==> Compare(VersionOf(s), current) <= 0
    {
      var j :| 0 <= j < |releases| && releases[j] == s;
      assert vs[j] == CandidateOf(s, currentVersion);
      if Compare(VersionOf(pick), current) <= 0 { CompareIsTransitive(VersionOf(s), VersionOf(pick), current); }
    }
  }

  lemma NothingPicked(releases: seq<Release>, currentVersion: string)
    requires IsPick(releases, currentVersion, None)
    ensures forall r :: r in releases ==> !Eligible(r, currentVersion)
  {
    var vs := CandidatesOf(releases, currentVersion);
    forall r | r in releases ensures !Eligible(r, currentVersion) {
      var j :| 0 <= j < |releases| && releases[j] == r;
      assert vs[j].None? && vs[j] == CandidateOf(r, currentVersion);
    }
  }

  // The paging loop: any failed page fails the whole check.
  method ReadReleases(fetch: nat -> Answer) returns (listing: Listing)
    ensures listing == ListingFrom(fetch, 1)
  {
    var releases: seq<Release> := [];
    var page := 1;
    while page <= MAX_PAGES
      invariant 1 <= page <= MAX_PAGES + 1
      invariant var rest := ListingFrom(fetch, page);
        ListingFrom(fetch, 1) == if rest.Broken? then rest else Listed(releases + rest.releases)
    {
      var failure := FailureOf(fetch(page));
      if failure.Some? { return Broken(failure.value); }
      releases := releases + PageOf(fetch(page));
      if |PageOf(fetch(page))| < PAGE_SIZE { return Listed(releases); }
      page := page + 1;
    }
    return Listed(releases);
  }

  // The verdict is right about every release on the pages read.
  method CheckForUpdate(currentVersion: string, fetch: nat -> Answer) returns (verdict: Verdict)
    ensures ParseVersion(currentVersion).None? ==> verdict == Error(ParseError)
    ensures ParseVersion(currentVersion).Some? ==>
      match ListingFrom(fetch, 1)
      case Broken(reason) => verdict == Error(reason)
      case Listed(releases) => IsVerdict(releases, currentVersion, verdict)
  {
    var current := ParseVersion(currentVersion);
    if current.None? { return Error(ParseError); }
    var listing := ReadReleases(fetch);
    if listing.Broken? { return Error(listing.reason); }
    var latest := PickLatestRelease(listing.releases, currentVersion);
    if latest.None? {
      NothingPicked(listing.releases, currentVersion);
      return Error(NoRelease);
    }
    PickedVerdict(listing.releases, currentVersion, latest.value);
    var order := CompareVersions(VersionOf(latest.value), current.value);
    verdict := if order <= 0 then UpToDate else UpdateAvailable(StripV(latest.value.tag.value), latest.value.htmlUrl);
  }

  // An update is available exactly when an eligible, strictly newer release was listed, and
  // then one such release is offered that none of the eligible ones exceeds.
  lemma UpdateAvailableIff(releases: seq<Release>, currentVersion: string, verdict: Verdict)
    requires ParseVersion(currentVersion).Some? && IsVerdict(releases, currentVersion, verdict)
    ensures verdict.UpdateAvailable? <==>
      exists r :: r in releases && Eligible(r, currentVersion)
        && Lower(ParseVersion(currentVersion).value, VersionOf(r))
  {
    var current := ParseVersion(currentVersion).value;
    forall r | r in releases && Eligible(r, currentVersion)
      ensures Compare(VersionOf(r), current) > 0 <==> Lower(current, VersionOf(r))
    {
      CompareIsPrecedence(VersionOf(r), current);
    }
  }

  predicate IsStable(r: Release) {
    && !r.draft && !r.prerelease
    && r.tag.Some? && ParseVersion(r.tag.value).Some? && ParseVersion(r.tag.value).value.prerelease == []
  }

  // A stable installation is never offered a pre-release, by flag or by tag.
  lemma StableIsOfferedStable(releases: seq<Release>, currentVersion: string, verdict: Verdict)
    requires ParseVersion(currentVersion).Some? && ParseVersion(currentVersion).value.prerelease == []
    requires IsVerdict(releases, currentVersion, verdict) && verdict.UpdateAvailable?
    ensures exists r :: r in releases && IsStable(r) && verdict.latestVersion == StripV(r.tag.value)
  {
  }

  // Why a page fails: it was not found, requests are limited, CMS could not be reached or answered
  // another error, or the body is no list.
  lemma {:induction false} FirstFailureIsTheReason(fetch: nat -> Answer, page: nat, k: nat)
    requires 1 <= page <= k <= MAX_PAGES
    requires forall p :: page <= p < k ==> FailureOf(fetch(p)).None? && |PageOf(fetch(p))| >= PAGE_SIZE
    ensures match fetch(k)
      case Failed => ListingFrom(fetch, page) == Broken(Network)
      case Answered(status, body) =>
        && (status == 404 ==> ListingFrom(fetch, page) == Broken(NoRelease))
        && (status == 403 || status == 429 ==> ListingFrom(fetch, page) == Broken(RateLimited))
        && ((status < 200 || status >= 300) && status !in {403, 404, 429} ==>
              ListingFrom(fetch, page) == Broken(Network))
        && (200 <= status < 300 && (body.NotJson? || body.NotAnArray?) ==>
              ListingFrom(fetch, page) == Broken(ParseError))
        && (200 <= status < 300 && body.Releases? && (|body.page| < 100 || k == 10) ==>
              ListingFrom(fetch, page).Listed?)
    decreases k - page
  {
    if page < k {
      FirstFailureIsTheReason(fetch, page + 1, k);
    } else {
      assert k == 10 ==> ListingFrom(fetch, k + 1) == Listed([]);
    }
  }

  // Unless ten full pages were read, the list is every release of every page.
  lemma {:induction false} ListingIsComplete(fetch: nat -> Answer, page: nat, k: nat)
    requires 1 <= page <= k <= MAX_PAGES && |PageOf(fetch(k))| < PAGE_SIZE
    requires forall p :: page <= p <= k ==> FailureOf(fetch(p)).None?
    requires forall p :: page <= p < k ==> |PageOf(fetch(p))| >= PAGE_SIZE
    ensures ListingFrom(fetch, page).Listed?
    ensures forall p, r :: page <= p <= k && r in PageOf(fetch(p)) ==> r in ListingFrom(fetch, page).releases
    decreases k - page
  {
    if page < k { ListingIsComplete(fetch, page + 1, k); }
  }
}
