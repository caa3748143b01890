/** The release matcher: turn each page of the repository's release listing into
    the releases that have an asset for one of the host's targets and whose
    version satisfies the optional range, stop paging at the first page that
    yields any, and select the first of them. */
module Releases {
  import opened Wrappers
  import opened Strings
  import opened Crates
  import opened Targets

  /** One published asset: its file name and `browser_download_url`. */
  datatype Asset = Asset(name: string, downloadUrl: string)

  /** One entry of the release listing: `tag_name` and `assets`, in listing order. */
  datatype ListedRelease = ListedRelease(tagName: string, assets: seq<Asset>)

  /** A release that matched: its normalised version and the asset to download. */
  datatype Release = Release(version: string, downloadUrl: string)

  /** One page of the listing, newest release first. */
  type Page = seq<ListedRelease>

  /** What a page is filtered with: the host's targets, `version_spec`, and
      `semver.satisfies(version, range)`, which is given as a parameter. */
  datatype Filter = Filter(targets: seq<string>, versionSpec: Option<string>, satisfies: (string, string) -> bool)

  /** `find`/`findIndex` on an array: the index of the first element that passes `p`. */
  function FindIndex<T>(s: seq<T>, p: T -> bool): (r: Option<nat>)
    ensures r.Some? ==> r.value < |s| && p(s[r.value]) && forall j :: 0 <= j < r.value ==> !p(s[j])
    ensures r.None? ==> forall j :: 0 <= j < |s| ==> !p(s[j])
  {
    if s == [] then None
    else if p(s[0]) then Some(0)
    else match FindIndex(s[1..], p)
      case None => None
      case Some(i) => Some(i + 1)
  }

  /** Two tests that agree on every element find the same index. */
  lemma {:induction false} FindIndexExtensional<T>(s: seq<T>, p: T -> bool, q: T -> bool)
    requires forall x :: p(x) == q(x)
    ensures FindIndex(s, p) == FindIndex(s, q)
  {
    if s != [] && !p(s[0]) {
      FindIndexExtensional(s[1..], p, q);
    }
  }

  /** `targets.some((target) => name.includes(target))`. */
  predicate MatchesTarget(name: string, targets: seq<string>) {
    exists t :: t in targets && Contains(name, t)
  }

  /** The test `find` applies to each asset. */
  function AssetTest(targets: seq<string>): Asset -> bool {
    (a: Asset) => MatchesTarget(a.name, targets)
  }

  /** The asset chosen for a release: the first one, in asset order, whose name
      contains any of the targets; none when no asset name contains any target. */
  function FirstMatchingAsset(assets: seq<Asset>, targets: seq<string>): (r: Option<Asset>)
    ensures r.None? <==> forall a :: a in assets ==> !MatchesTarget(a.name, targets)
    ensures r.Some? ==>
      exists i :: 0 <= i < |assets| && assets[i] == r.value
        && MatchesTarget(assets[i].name, targets)
        && forall j :: 0 <= j < i ==> !MatchesTarget(assets[j].name, targets)
  {
    match FindIndex(assets, AssetTest(targets))
    case None => None
    case Some(i) => Some(assets[i])
  }

  /** Only the set of targets matters, not their order of preference: the asset
      is chosen by its position among the assets. */
  lemma AssetChoiceIgnoresTargetOrder(assets: seq<Asset>, t1: seq<string>, t2: seq<string>)
    requires forall t :: t in t1 <==> t in t2
    ensures FirstMatchingAsset(assets, t1) == FirstMatchingAsset(assets, t2)
  {
    FindIndexExtensional(assets, AssetTest(t1), AssetTest(t2));
  }

  /** An earlier asset built for a less preferred target wins over a later
      asset built for the preferred one: the musl build is not chosen over a
      gnu build listed before it. */
  lemma EarlierAssetWins(first: Asset, second: Asset, preferred: string, fallback: string)
    requires Contains(first.name, fallback) && Contains(second.name, preferred)
    ensures FirstMatchingAsset([first, second], [preferred, fallback]) == Some(first)
  {
    assert MatchesTarget(first.name, [preferred, fallback]);
  }

  /** `tag_name.replace(/^v/, '')`: one leading `v` is removed, nothing else. */
  function NormalizeTag(tag: string): (r: string)
    ensures StartsWith(tag, "v") ==> "v" + r == tag
    ensures !StartsWith(tag, "v") ==> r == tag
  {
    if |tag| > 0 && tag[0] == 'v' then tag[1..] else tag
  }

  /** Normalising a second time changes nothing exactly when the tag does not
      start with two `v`s; a tag without a leading `v` is already normal. */
  lemma NormalizeTwice(tag: string)
    ensures NormalizeTag(NormalizeTag(tag)) == NormalizeTag(tag) <==> !StartsWith(tag, "vv")
  {
    if StartsWith(tag, "vv") {
      assert tag[1..][0] == 'v';
    }
  }

  /** The `map` step: a release with a matching asset becomes a candidate
      carrying its normalised tag and that asset's URL. */
  function Candidate(listed: ListedRelease, targets: seq<string>): (r: Option<Release>)
    ensures r.Some? <==> exists a :: a in listed.assets && MatchesTarget(a.name, targets)
    ensures r.Some? ==>
      r.value.version == NormalizeTag(listed.tagName)
      && r.value.downloadUrl == FirstMatchingAsset(listed.assets, targets).value.downloadUrl
  {
    match FirstMatchingAsset(listed.assets, targets)
    case None => None
    case Some(asset) => Some(Release(NormalizeTag(listed.tagName), asset.downloadUrl))
  }

  /** The version filter: without a (non-empty) range every version passes. */
  predicate VersionQualifies(version: string, f: Filter) {
    !Truthy(f.versionSpec) || f.satisfies(version, f.versionSpec.value)
  }

  /** A listed release after the `map` and both `filter` steps. */
  function Qualify(listed: ListedRelease, f: Filter): (r: Option<Release>)
    ensures !Truthy(f.versionSpec) ==> r == Candidate(listed, f.targets)
    ensures Truthy(f.versionSpec) ==>
      r == (if Candidate(listed, f.targets).Some?
              && f.satisfies(Candidate(listed, f.targets).value.version, f.versionSpec.value)
            then Candidate(listed, f.targets) else None)
  {
    match Candidate(listed, f.targets)
    case None => None
    case Some(c) => if VersionQualifies(c.version, f) then Some(c) else None
  }

  /** The test that picks the first qualifying release of a listing. */
  function QualifyingTest(f: Filter): ListedRelease -> bool {
    (l: ListedRelease) => Qualify(l, f).Some?
  }

  /** The list the page callback returns: the qualifying releases of the page,
      in page order. */
  function PageReleases(page: Page, f: Filter): (rs: seq<Release>)
    ensures |rs| <= |page|
  {
    if page == [] then []
    else
      match Qualify(page[0], f)
      case None => PageReleases(page[1..], f)
      case Some(c) => [c] + PageReleases(page[1..], f)
  }

  /** The filtered list holds exactly the qualifying releases of the page. */
  lemma {:induction false} PageReleasesMembers(page: Page, f: Filter)
    ensures forall r :: r in PageReleases(page, f) <==> exists i :: 0 <= i < |page| && Qualify(page[i], f) == Some(r)
  {
    if page != [] {
      PageReleasesMembers(page[1..], f);
      assert forall i :: 0 < i < |page| ==> page[i] == page[1..][i - 1];
    }
  }

  /** Filtering two pages one after the other is filtering their concatenation. */
  lemma {:induction false} PageReleasesAppend(a: Page, b: Page, f: Filter)
    ensures PageReleases(a + b, f) == PageReleases(a, f) + PageReleases(b, f)
  {
    if a == [] {
      assert a + b == b;
    } else {
      var ab := a + b;
      assert ab[0] == a[0] && ab[1..] == a[1..] + b;
      PageReleasesAppend(a[1..], b, f);
    }
  }

  /** The head of the filtered list is the first qualifying release of the listing. */
  lemma {:induction false} PageHead(page: Page, f: Filter)
    ensures var k := FindIndex(page, QualifyingTest(f));
      (PageReleases(page, f) == [] <==> k.None?)
      && (k.Some? ==> PageReleases(page, f)[0] == Qualify(page[k.value], f).value)
  {
    if page != [] && Qualify(page[0], f).None? {
      PageHead(page[1..], f);
    }
  }

  /** Every page's listing, in order: the whole release history. */
  function Flatten(pages: seq<Page>): seq<ListedRelease> {
    if pages == [] then [] else pages[0] + Flatten(pages[1..])
  }

  /** How many pages `paginate` requests: up to and including the first page
      whose callback result is non-empty (the callback then calls `done()`), or
      all of them when there is no such page. */
  function PagesRequested(pages: seq<Page>, f: Filter): (n: nat)
    ensures n <= |pages|
    ensures forall k :: 0 <= k < n - 1 ==> PageReleases(pages[k], f) == []
    ensures n < |pages| ==> 0 < n && PageReleases(pages[n - 1], f) != []
  {
    if pages == [] then 0
    else if PageReleases(pages[0], f) != [] then 1
    else
      var rest := PagesRequested(pages[1..], f);
      assert forall k :: 0 < k <= rest ==> pages[k] == pages[1..][k - 1];
      1 + rest
  }

  /** The array `paginate` resolves to: the concatenated callback results of
      the pages it requested. */
  function Collected(pages: seq<Page>, f: Filter): (c: seq<Release>)
    ensures var n := PagesRequested(pages, f);
      (n == 0 ==> c == []) && (n > 0 ==> c == PageReleases(pages[n - 1], f))
  {
    if pages == [] then []
    else if PageReleases(pages[0], f) != [] then PageReleases(pages[0], f)
    else
      var rest := Collected(pages[1..], f);
      assert PagesRequested(pages, f) == 1 + PagesRequested(pages[1..], f);
      PageReleases(pages[0], f) + rest
  }

  /** Stopping early loses nothing: paging ends with no release exactly when no
      release of the whole history qualifies, and otherwise its first element
      is the first qualifying release of the whole history. */
  lemma {:induction false} PaginationFindsFirstQualifying(pages: seq<Page>, f: Filter)
    ensures Collected(pages, f) == [] <==> PageReleases(Flatten(pages), f) == []
    ensures Collected(pages, f) != [] ==> Collected(pages, f)[0] == PageReleases(Flatten(pages), f)[0]
    ensures Collected(pages, f) == [] ==> PagesRequested(pages, f) == |pages|
  {
    if pages != [] {
      PageReleasesAppend(pages[0], Flatten(pages[1..]), f);
      PaginationFindsFirstQualifying(pages[1..], f);
    }
  }

  /** `getRelease` once the pages are known: the targets of the host (or the
      error thrown without any request), then the first release collected, or
      the error naming the crate and its range. */
  function ResolveRelease(host: Host, crate: Crate, pages: seq<Page>, satisfies: (string, string) -> bool)
    : (r: Result<Release, Error>)
    ensures GetTargets(host).Err? ==> r == Err(UnsupportedPlatform(host.arch, host.platform))
    ensures GetTargets(host).Ok? && r.Err? ==> r.error == NoMatchingRelease(crate.name, crate.versionSpec)
  {
    match GetTargets(host)
    case Err(e) => Err(e)
    case Ok(targets) =>
      var c := Collected(pages, Filter(targets, crate.versionSpec, satisfies));
      if c == [] then Err(NoMatchingRelease(crate.name, crate.versionSpec)) else Ok(c[0])
  }

  /** The release chosen is the first qualifying one in listing order over all
      pages; with none, the failure names the crate's name and range (not its
      owner). */
  lemma SelectedIsFirstQualifying(host: Host, crate: Crate, pages: seq<Page>, satisfies: (string, string) -> bool)
    requires GetTargets(host).Ok?
    ensures var f := Filter(GetTargets(host).value, crate.versionSpec, satisfies);
      var k := FindIndex(Flatten(pages), QualifyingTest(f));
      (k.None? ==> ResolveRelease(host, crate, pages, satisfies) == Err(NoMatchingRelease(crate.name, crate.versionSpec)))
      && (k.Some? ==> ResolveRelease(host, crate, pages, satisfies) == Ok(Qualify(Flatten(pages)[k.value], f).value))
  {
    var f := Filter(GetTargets(host).value, crate.versionSpec, satisfies);
    PaginationFindsFirstQualifying(pages, f);
    PageHead(Flatten(pages), f);
  }

  /** One request for a page of the listing (pages are numbered from 1). */
  datatype PageRequest = PageRequest(owner: string, repo: string, page: nat)

  /** The first `n` page requests for a repository, in order. */
  function Requests(owner: string, repo: string, n: nat): seq<PageRequest> {
    seq(n, k requires 0 <= k < n => PageRequest(owner, repo, k + 1))
  }

  /** Appending to a log in two steps is appending once. */
  lemma AppendAssociative<T>(a: seq<T>, b: seq<T>, c: seq<T>)
    ensures (a + b) + c == a + (b + c)
  {
  }

  /** One more request extends the log by the next page number. */
  lemma RequestsStep(owner: string, repo: string, n: nat)
    ensures Requests(owner, repo, n + 1) == Requests(owner, repo, n) + [PageRequest(owner, repo, n + 1)]
  {
  }

  /** Paging from page `k` on: one page, then either stop or go on from `k + 1`. */
  lemma PagingStep(pages: seq<Page>, k: nat, f: Filter)
    requires k < |pages|
    ensures Collected(pages[k..], f)
         == if PageReleases(pages[k], f) != [] then PageReleases(pages[k], f) else Collected(pages[k + 1..], f)
    ensures PagesRequested(pages[k..], f)
         == if PageReleases(pages[k], f) != [] then 1 else 1 + PagesRequested(pages[k + 1..], f)
  {
    assert pages[k..][0] == pages[k] && pages[k..][1..] == pages[k + 1..];
  }

  /** The page requests `getRelease` issues: none when the host has no target. */
  function ReleaseRequests(host: Host, crate: Crate, pages: seq<Page>, satisfies: (string, string) -> bool)
    : seq<PageRequest>
  {
    match GetTargets(host)
    case Err(_) => []
    case Ok(targets) =>
      Requests(crate.owner, crate.name, PagesRequested(pages, Filter(targets, crate.versionSpec, satisfies)))
  }

  /** The release listing endpoint: the pages each (owner, repo) has, and the log
      of the page requests made to it. */
  class ReleaseApi {
    const listing: (string, string) -> seq<Page>
    var requests: seq<PageRequest>

    constructor (listing: (string, string) -> seq<Page>)
      ensures this.listing == listing && requests == []
    {
      this.listing := listing;
      requests := [];
    }

    /** `listReleases({ owner, repo, page })` for a page the listing has. */
    method ListReleases(owner: string, repo: string, page: nat) returns (p: Page)
      requires 1 <= page <= |listing(owner, repo)|
      modifies this
      ensures requests == old(requests) + [PageRequest(owner, repo, page)]
      ensures p == listing(owner, repo)[page - 1]
    {
      requests := requests + [PageRequest(owner, repo, page)];
      p := listing(owner, repo)[page - 1];
    }
  }

  /** `getRelease(crate)`: pages through the listing of `owner/name`, applying the
      page callback and stopping after the first page it calls `done()` on, then
      takes the first release collected. */
  method GetRelease(api: ReleaseApi, crate: Crate, host: Host, satisfies: (string, string) -> bool)
    returns (r: Result<Release, Error>)
    modifies api
    ensures r == ResolveRelease(host, crate, api.listing(crate.owner, crate.name), satisfies)
    ensures api.requests
         == old(api.requests) + ReleaseRequests(host, crate, api.listing(crate.owner, crate.name), satisfies)
  {
    var targets := GetTargets(host);
    if targets.Err? {
      return Err(targets.error);
    }
    var f := Filter(targets.value, crate.versionSpec, satisfies);
    ghost var pages := api.listing(crate.owner, crate.name);
    var count := |api.listing(crate.owner, crate.name)|;
    var collected: seq<Release> := [];
    var fetched := 0;
    var done := false;
    while fetched < count && !done
      invariant 0 <= fetched <= count
      invariant api.requests == old(api.requests) + Requests(crate.owner, crate.name, fetched)
      invariant done ==> collected == Collected(pages, f) && fetched == PagesRequested(pages, f)
      invariant !done ==>
        collected == [] && Collected(pages[fetched..], f) == Collected(pages, f)
        && PagesRequested(pages, f) == fetched + PagesRequested(pages[fetched..], f)
    {
      var page := api.ListReleases(crate.owner, crate.name, fetched + 1);
      PagingStep(pages, fetched, f);
      RequestsStep(crate.owner, crate.name, fetched);
      AppendAssociative(old(api.requests), Requests(crate.owner, crate.name, fetched),
                        [PageRequest(crate.owner, crate.name, fetched + 1)]);
      var releases := PageReleases(page, f);
      if |releases| > 0 {
        done := true;
      }
      collected := collected + releases;
      fetched := fetched + 1;
    }
    if !done {
      assert pages[fetched..] == [];
    }
    assert collected == Collected(pages, f) && fetched == PagesRequested(pages, f);
    assert ReleaseRequests(host, crate, pages, satisfies) == Requests(crate.owner, crate.name, fetched);
    if collected == [] {
      r := Err(NoMatchingRelease(crate.name, crate.versionSpec));
    } else {
      r := Ok(collected[0]);
    }
  }
}
