/** The install orchestrator `checkOrInstallCrate`: reuse a cached install when the
    tool cache has one; otherwise resolve a release, download and unpack it,
    collapse a single wrapper directory, store it in the tool cache, fix the
    binary's permissions there, and report the version the cache path encodes. */
module Install {
  import opened Wrappers
  import opened Strings
  import opened Crates
  import opened Targets
  import opened Releases
  import opened Files
  import opened Permissions

  /** The two extraction routines. */
  datatype ArchiveKind = Zip | Tar

  /** `download_url.endsWith('.zip')` picks zip extraction, anything else tar. */
  function ArchiveKindOf(url: string): (k: ArchiveKind)
    ensures k == Zip <==> exists stem :: url == stem + ".zip"
  {
    if EndsWith(url, ".zip") then
      assert url == url[..|url| - 4] + ".zip";
      Zip
    else
      Tar
  }

  /** The suffix alone decides, and it is compared case-sensitively. */
  lemma ArchiveKindBySuffix(stem: string)
    ensures ArchiveKindOf(stem + ".zip") == Zip
    ensures ArchiveKindOf(stem + ".ZIP") == Tar
    ensures ArchiveKindOf(stem + ".tar.gz") == Tar
  {
  }

  /** The extracted root after the wrapper collapse: the sole entry when the
      listing has exactly one entry and it is a directory, else the root itself. */
  function CollapsedRoot(root: Path, entries: seq<Entry>): (r: Path)
    ensures r != root <==> |entries| == 1 && entries[0].isDir
    ensures r != root ==> r == root + [entries[0].name]
  {
    if |entries| == 1 && entries[0].isDir then Join(root, entries[0].name) else root
  }

  /** `version_spec || '*'`: the key the tool cache is searched with. */
  function CacheKey(versionSpec: Option<string>): (key: string)
    ensures key != ""
    ensures Truthy(versionSpec) ==> key == versionSpec.value
    ensures !Truthy(versionSpec) ==> key == "*"
  {
    if Truthy(versionSpec) then versionSpec.value else "*"
  }

  /** `{ ...crate, version, dir }` with `version = basename(dirname(dir))`. */
  function Installed(crate: Crate, dir: Path): InstalledCrate {
    InstalledCrate(crate.owner, crate.name, crate.versionSpec, crate.bin, ParentName(dir), dir)
  }

  /** The calls made to the tool-cache library, in order. */
  datatype CacheCall =
    | FindCall(tool: string, versionSpec: string)
    | DownloadCall(url: string)
    | ExtractZipCall(file: Path)
    | ExtractTarCall(file: Path)
    | CacheDirCall(source: Path, tool: string, version: string)

  /** What the tool-cache library answers to each call during one run. */
  datatype CacheBehaviour = CacheBehaviour(
    find: (string, string) -> Option<Path>,
    downloadTool: string -> Result<Path, Error>,
    extractZip: Path -> Result<Path, Error>,
    extractTar: Path -> Result<Path, Error>,
    cacheDir: (Path, string, string) -> Result<Path, Error>)

  /** The tool-cache library: its answers and the log of calls made to it. */
  class ToolCache {
    const behaviour: CacheBehaviour
    var calls: seq<CacheCall>

    constructor (behaviour: CacheBehaviour)
      ensures this.behaviour == behaviour && calls == []
    {
      this.behaviour := behaviour;
      calls := [];
    }

    /** `tc.find(tool, versionSpec)`; the empty string it returns on a miss is `None`. */
    method Find(tool: string, versionSpec: string) returns (dir: Option<Path>)
      modifies this
      ensures calls == old(calls) + [FindCall(tool, versionSpec)]
      ensures dir == behaviour.find(tool, versionSpec)
    {
      calls := calls + [FindCall(tool, versionSpec)];
      dir := behaviour.find(tool, versionSpec);
    }

    /** `tc.downloadTool(url)`: the downloaded file. */
    method DownloadTool(url: string) returns (file: Result<Path, Error>)
      modifies this
      ensures calls == old(calls) + [DownloadCall(url)]
      ensures file == behaviour.downloadTool(url)
    {
      calls := calls + [DownloadCall(url)];
      file := behaviour.downloadTool(url);
    }

    /** `tc.extractZip(file)`: the directory it unpacked into. */
    method ExtractZip(file: Path) returns (dir: Result<Path, Error>)
      modifies this
      ensures calls == old(calls) + [ExtractZipCall(file)]
      ensures dir == behaviour.extractZip(file)
    {
      calls := calls + [ExtractZipCall(file)];
      dir := behaviour.extractZip(file);
    }

    /** `tc.extractTar(file)`: the directory it unpacked into. */
    method ExtractTar(file: Path) returns (dir: Result<Path, Error>)
      modifies this
      ensures calls == old(calls) + [ExtractTarCall(file)]
      ensures dir == behaviour.extractTar(file)
    {
      calls := calls + [ExtractTarCall(file)];
      dir := behaviour.extractTar(file);
    }

    /** `tc.cacheDir(source, tool, version)`: the directory the copy was stored in. */
    method CacheDir(source: Path, tool: string, version: string) returns (dir: Result<Path, Error>)
      modifies this
      ensures calls == old(calls) + [CacheDirCall(source, tool, version)]
      ensures dir == behaviour.cacheDir(source, tool, version)
    {
      calls := calls + [CacheDirCall(source, tool, version)];
      dir := behaviour.cacheDir(source, tool, version);
    }
  }

  /** What fetching an asset produces: the extracted root (after the wrapper
      collapse) and the tool-cache calls made. */
  datatype Fetched = Fetched(root: Result<Path, Error>, calls: seq<CacheCall>)

  /** Download the asset, unpack it with the routine its URL selects, and list
      the unpacked directory to collapse a single wrapper directory. */
  function FetchSpec(url: string, cache: CacheBehaviour, listings: map<Path, seq<Entry>>): (f: Fetched)
    ensures |f.calls| > 0 && f.calls[0] == DownloadCall(url)
    ensures cache.downloadTool(url).Err? ==> f.root == Err(cache.downloadTool(url).error) && f.calls == [DownloadCall(url)]
    ensures cache.downloadTool(url).Ok? ==>
      var file := cache.downloadTool(url).value;
      var extracted := if EndsWith(url, ".zip") then cache.extractZip(file) else cache.extractTar(file);
      (extracted.Err? ==> f.root == Err(extracted.error))
      && (extracted.Ok? && extracted.value !in listings ==> f.root == Err(FileSystemFailed("readdir", extracted.value)))
      && (extracted.Ok? && extracted.value in listings ==>
            f.root == Ok(CollapsedRoot(extracted.value, listings[extracted.value])))
    ensures cache.downloadTool(url).Ok? ==>
      var file := cache.downloadTool(url).value;
      |f.calls| == 2 && f.calls[1] == (if EndsWith(url, ".zip") then ExtractZipCall(file) else ExtractTarCall(file))
    ensures f.root.Ok? ==>
      var extractDir := if EndsWith(url, ".zip") then cache.extractZip(f.calls[1].file) else cache.extractTar(f.calls[1].file);
      extractDir.Ok? && extractDir.value in listings
      && f.root.value == CollapsedRoot(extractDir.value, listings[extractDir.value])
  {
    match cache.downloadTool(url)
    case Err(e) => Fetched(Err(e), [DownloadCall(url)])
    case Ok(file) =>
      var calls := [DownloadCall(url), if ArchiveKindOf(url) == Zip then ExtractZipCall(file) else ExtractTarCall(file)];
      match (if ArchiveKindOf(url) == Zip then cache.extractZip(file) else cache.extractTar(file))
      case Err(e) => Fetched(Err(e), calls)
      case Ok(extractDir) =>
        if extractDir in listings then Fetched(Ok(CollapsedRoot(extractDir, listings[extractDir])), calls)
        else Fetched(Err(FileSystemFailed("readdir", extractDir)), calls)
  }

  /** What the install branch of a cache miss produces: the cached directory,
      the page requests, the tool-cache calls after `find`, and the file modes. */
  datatype Fresh = Fresh(dir: Result<Path, Error>, requests: seq<PageRequest>, calls: seq<CacheCall>, modes: map<Path, nat>)

  /** Resolve the release, fetch its asset, store the unpacked root in the cache
      under the release's version, and fix the binary's permissions there. */
  function FreshSpec(crate: Crate, host: Host, satisfies: (string, string) -> bool, pages: seq<Page>,
                     cache: CacheBehaviour, listings: map<Path, seq<Entry>>, modes: map<Path, nat>): (f: Fresh)
    ensures f.requests == ReleaseRequests(host, crate, pages, satisfies)
    ensures f.dir.Err? ==> f.modes == modes
    ensures ResolveRelease(host, crate, pages, satisfies).Err? ==>
      f.dir == Err(ResolveRelease(host, crate, pages, satisfies).error) && f.calls == []
    ensures ResolveRelease(host, crate, pages, satisfies).Ok? ==>
      var release := ResolveRelease(host, crate, pages, satisfies).value;
      var fetched := FetchSpec(release.downloadUrl, cache, listings);
      (fetched.root.Err? ==> f.dir == Err(fetched.root.error) && f.calls == fetched.calls)
      && (fetched.root.Ok? ==>
            f.calls == fetched.calls + [CacheDirCall(fetched.root.value, crate.name, release.version)]
            && var stored := cache.cacheDir(fetched.root.value, crate.name, release.version);
            (stored.Err? ==> f.dir == Err(stored.error))
            && (stored.Ok? ==>
                  var fix := FixPermissions(host, crate, stored.value, listings, modes);
                  (fix.Err? ==> f.dir == Err(fix.error))
                  && (fix.Ok? ==> f.dir == Ok(stored.value) && f.modes == fix.value)))
  {
    var requests := ReleaseRequests(host, crate, pages, satisfies);
    match ResolveRelease(host, crate, pages, satisfies)
    case Err(e) => Fresh(Err(e), requests, [], modes)
    case Ok(release) =>
      var fetched := FetchSpec(release.downloadUrl, cache, listings);
      match fetched.root
      case Err(e) => Fresh(Err(e), requests, fetched.calls, modes)
      case Ok(root) =>
        var calls := fetched.calls + [CacheDirCall(root, crate.name, release.version)];
        match cache.cacheDir(root, crate.name, release.version)
        case Err(e) => Fresh(Err(e), requests, calls, modes)
        case Ok(dir) =>
          match FixPermissions(host, crate, dir, listings, modes)
          case Err(e) => Fresh(Err(e), requests, calls, modes)
          case Ok(fixed) => Fresh(Ok(dir), requests, calls, fixed)
  }

  /** Everything one `checkOrInstallCrate` call produces: its result, the page
      requests, the tool-cache calls and the file modes afterwards. */
  datatype Outcome = Outcome(
    result: Result<InstalledCrate, Error>,
    requests: seq<PageRequest>,
    calls: seq<CacheCall>,
    modes: map<Path, nat>)

  /** The outcome of `checkOrInstallCrate`, given the listing pages of
      `owner/name`, the tool cache's answers, and the file system. */
  function InstallSpec(crate: Crate, host: Host, satisfies: (string, string) -> bool, pages: seq<Page>,
                       cache: CacheBehaviour, listings: map<Path, seq<Entry>>, modes: map<Path, nat>): (o: Outcome)
    ensures |o.calls| >= 1 && o.calls[0] == FindCall(crate.name, CacheKey(crate.versionSpec))
    ensures cache.find(crate.name, CacheKey(crate.versionSpec)).None? ==>
      o.requests == ReleaseRequests(host, crate, pages, satisfies)
    ensures o.result.Err? ==> o.modes == modes && cache.find(crate.name, CacheKey(crate.versionSpec)).None?
  {
    var key := CacheKey(crate.versionSpec);
    match cache.find(crate.name, key)
    case Some(dir) => Outcome(Ok(Installed(crate, dir)), [], [FindCall(crate.name, key)], modes)
    case None =>
      var miss := FreshSpec(crate, host, satisfies, pages, cache, listings, modes);
      var result := if miss.dir.Ok? then Ok(Installed(crate, miss.dir.value)) else Err(miss.dir.error);
      Outcome(result, miss.requests, [FindCall(crate.name, key)] + miss.calls, miss.modes)
  }

  /** A cache hit does no other work: no page request, no download, extraction
      or caching, and no mode change; the cached directory is returned. */
  lemma CacheHitDoesNoWork(crate: Crate, host: Host, satisfies: (string, string) -> bool, pages: seq<Page>,
                           cache: CacheBehaviour, listings: map<Path, seq<Entry>>, modes: map<Path, nat>)
    requires cache.find(crate.name, CacheKey(crate.versionSpec)).Some?
    ensures var o := InstallSpec(crate, host, satisfies, pages, cache, listings, modes);
      var dir := cache.find(crate.name, CacheKey(crate.versionSpec)).value;
      o.requests == [] && o.calls == [FindCall(crate.name, CacheKey(crate.versionSpec))] && o.modes == modes
      && o.result == Ok(Installed(crate, dir))
  {
  }

  /** On either path the result is the crate's own fields plus the directory and
      the version read from that directory's parent name. */
  lemma ResultCarriesCrate(crate: Crate, host: Host, satisfies: (string, string) -> bool, pages: seq<Page>,
                           cache: CacheBehaviour, listings: map<Path, seq<Entry>>, modes: map<Path, nat>)
    requires InstallSpec(crate, host, satisfies, pages, cache, listings, modes).result.Ok?
    ensures var installed := InstallSpec(crate, host, satisfies, pages, cache, listings, modes).result.value;
      installed.owner == crate.owner && installed.name == crate.name
      && installed.versionSpec == crate.versionSpec && installed.bin == crate.bin
      && installed.version == ParentName(installed.dir)
  {
  }

  /** When the cache stores each version under `<root>/<name>/<version>/<leaf>`
      (so the parent of the leaf names the version), a fresh install reports the
      version of the release it downloaded. */
  lemma FreshInstallReportsReleaseVersion(crate: Crate, host: Host, satisfies: (string, string) -> bool, pages: seq<Page>,
                                          cache: CacheBehaviour, listings: map<Path, seq<Entry>>, modes: map<Path, nat>)
    requires forall source, tool, version :: cache.cacheDir(source, tool, version).Ok? ==>
      ParentName(cache.cacheDir(source, tool, version).value) == version
    requires cache.find(crate.name, CacheKey(crate.versionSpec)).None?
    requires InstallSpec(crate, host, satisfies, pages, cache, listings, modes).result.Ok?
    ensures ResolveRelease(host, crate, pages, satisfies).Ok?
    ensures InstallSpec(crate, host, satisfies, pages, cache, listings, modes).result.value.version
         == ResolveRelease(host, crate, pages, satisfies).value.version
  {
  }

  /** A fresh install fixes permissions in the directory the cache stored, after
      storing it: the last tool-cache call is `cacheDir`, and the modes are those
      the fix computes for the returned directory. */
  lemma PermissionsFixedInCachedDir(crate: Crate, host: Host, satisfies: (string, string) -> bool, pages: seq<Page>,
                                    cache: CacheBehaviour, listings: map<Path, seq<Entry>>, modes: map<Path, nat>)
    requires cache.find(crate.name, CacheKey(crate.versionSpec)).None?
    requires InstallSpec(crate, host, satisfies, pages, cache, listings, modes).result.Ok?
    ensures var o := InstallSpec(crate, host, satisfies, pages, cache, listings, modes);
      |o.calls| == 4 && o.calls[3].CacheDirCall? && cache.cacheDir(o.calls[3].source, crate.name, o.calls[3].version) == Ok(o.result.value.dir)
      && FixPermissions(host, crate, o.result.value.dir, listings, modes) == Ok(o.modes)
  {
  }

  /** Calling again once the cache answers with the directory the first call
      installed gives the same result with no page request, no download and no
      mode change, whatever the listing, the file system and the other cache
      answers are by then. */
  lemma RepeatedCallReusesCache(crate: Crate, host: Host, satisfies: (string, string) -> bool, pages: seq<Page>,
                                cache: CacheBehaviour, listings: map<Path, seq<Entry>>, modes: map<Path, nat>,
                                pages2: seq<Page>, cache2: CacheBehaviour,
                                listings2: map<Path, seq<Entry>>, modes2: map<Path, nat>)
    requires InstallSpec(crate, host, satisfies, pages, cache, listings, modes).result.Ok?
    requires cache2.find(crate.name, CacheKey(crate.versionSpec))
          == Some(InstallSpec(crate, host, satisfies, pages, cache, listings, modes).result.value.dir)
    ensures var second := InstallSpec(crate, host, satisfies, pages2, cache2, listings2, modes2);
      second.result == InstallSpec(crate, host, satisfies, pages, cache, listings, modes).result
      && second.requests == [] && second.calls == [FindCall(crate.name, CacheKey(crate.versionSpec))]
      && second.modes == modes2
  {
    ResultCarriesCrate(crate, host, satisfies, pages, cache, listings, modes);
  }

  /** On a cache miss the outcome is the install branch's, after the `find` call. */
  lemma InstallSpecOnMiss(crate: Crate, host: Host, satisfies: (string, string) -> bool, pages: seq<Page>,
                          cache: CacheBehaviour, listings: map<Path, seq<Entry>>, modes: map<Path, nat>)
    requires cache.find(crate.name, CacheKey(crate.versionSpec)).None?
    ensures var o := InstallSpec(crate, host, satisfies, pages, cache, listings, modes);
      var m := FreshSpec(crate, host, satisfies, pages, cache, listings, modes);
      o.requests == m.requests && o.calls == [FindCall(crate.name, CacheKey(crate.versionSpec))] + m.calls
      && o.modes == m.modes
      && (m.dir.Ok? ==> o.result == Ok(Installed(crate, m.dir.value)))
      && (m.dir.Err? ==> o.result == Err(m.dir.error))
  {
  }

  /** On a cache miss the asset downloaded is the one of the release `getRelease`
      resolved, and once it is unpacked it is cached under that release's
      version; with no such release nothing is downloaded and the call fails
      with the resolution error. */
  lemma MissInstallsResolvedRelease(crate: Crate, host: Host, satisfies: (string, string) -> bool, pages: seq<Page>,
                                    cache: CacheBehaviour, listings: map<Path, seq<Entry>>, modes: map<Path, nat>)
    requires cache.find(crate.name, CacheKey(crate.versionSpec)).None?
    ensures var o := InstallSpec(crate, host, satisfies, pages, cache, listings, modes);
      var resolved := ResolveRelease(host, crate, pages, satisfies);
      (resolved.Err? ==> o.result == Err(resolved.error) && |o.calls| == 1 && o.modes == modes)
      && (resolved.Ok? ==>
            var fetched := FetchSpec(resolved.value.downloadUrl, cache, listings);
            |o.calls| >= 2 && o.calls[1] == DownloadCall(resolved.value.downloadUrl)
            && (fetched.root.Ok? ==>
                  |o.calls| == 4 && o.calls[3] == CacheDirCall(fetched.root.value, crate.name, resolved.value.version)))
  {
    InstallSpecOnMiss(crate, host, satisfies, pages, cache, listings, modes);
  }

  /** On a cache miss where every step succeeds, the call returns the directory
      the cache stored the resolved release's unpacked root in, and the modes are
      the permission fix applied in that directory. */
  lemma MissSucceedsWithCachedDir(crate: Crate, host: Host, satisfies: (string, string) -> bool, pages: seq<Page>,
                                  cache: CacheBehaviour, listings: map<Path, seq<Entry>>, modes: map<Path, nat>)
    requires cache.find(crate.name, CacheKey(crate.versionSpec)).None?
    requires ResolveRelease(host, crate, pages, satisfies).Ok?
    requires FetchSpec(ResolveRelease(host, crate, pages, satisfies).value.downloadUrl, cache, listings).root.Ok?
    requires cache.cacheDir(FetchSpec(ResolveRelease(host, crate, pages, satisfies).value.downloadUrl, cache, listings).root.value,
                            crate.name, ResolveRelease(host, crate, pages, satisfies).value.version).Ok?
    requires FixPermissions(host, crate,
               cache.cacheDir(FetchSpec(ResolveRelease(host, crate, pages, satisfies).value.downloadUrl, cache, listings).root.value,
                              crate.name, ResolveRelease(host, crate, pages, satisfies).value.version).value,
               listings, modes).Ok?
    ensures var release := ResolveRelease(host, crate, pages, satisfies).value;
      var root := FetchSpec(release.downloadUrl, cache, listings).root.value;
      var dir := cache.cacheDir(root, crate.name, release.version).value;
      var o := InstallSpec(crate, host, satisfies, pages, cache, listings, modes);
      o.result == Ok(Installed(crate, dir)) && o.modes == FixPermissions(host, crate, dir, listings, modes).value
  {
  }

  /** Download the asset, unpack it and collapse a wrapper directory. */
  method FetchArtifact(tc: ToolCache, fs: FileSystem, url: string) returns (root: Result<Path, Error>)
    modifies tc
    ensures root == FetchSpec(url, tc.behaviour, fs.listings).root
    ensures tc.calls == old(tc.calls) + FetchSpec(url, tc.behaviour, fs.listings).calls
  {
    var artifact := tc.DownloadTool(url);
    if artifact.Err? {
      return Err(artifact.error);
    }
    var extracted: Result<Path, Error>;
    if EndsWith(url, ".zip") {
      extracted := tc.ExtractZip(artifact.value);
    } else {
      extracted := tc.ExtractTar(artifact.value);
    }
    if extracted.Err? {
      return Err(extracted.error);
    }
    var extractDir := extracted.value;
    var files := fs.ReadDir(extractDir);
    if files.Err? {
      return Err(files.error);
    }
    if |files.value| == 1 {
      var maybeDir := Join(extractDir, files.value[0].name);
      if files.value[0].isDir {
        extractDir := maybeDir;
      }
    }
    return Ok(extractDir);
  }

  /** The body of `if (!dir)`: resolve, fetch, `cacheDir`, then fix permissions
      in the cached directory. */
  method InstallFresh(api: ReleaseApi, tc: ToolCache, fs: FileSystem,
                      crate: Crate, host: Host, satisfies: (string, string) -> bool)
    returns (dir: Result<Path, Error>)
    modifies api, tc, fs
    ensures var f := FreshSpec(crate, host, satisfies, api.listing(crate.owner, crate.name),
                               tc.behaviour, old(fs.listings), old(fs.modes));
      dir == f.dir && api.requests == old(api.requests) + f.requests
      && tc.calls == old(tc.calls) + f.calls && fs.modes == f.modes
    ensures fs.listings == old(fs.listings)
  {
    var release := GetRelease(api, crate, host, satisfies);
    if release.Err? {
      return Err(release.error);
    }
    var url, version := release.value.downloadUrl, release.value.version;
    var root := FetchArtifact(tc, fs, url);
    if root.Err? {
      return Err(root.error);
    }
    var stored := tc.CacheDir(root.value, crate.name, version);
    if stored.Err? {
      return Err(stored.error);
    }
    var fixed := HandleBadBinaryPermissions(fs, crate, stored.value, host);
    if fixed.Err? {
      return Err(fixed.error);
    }
    return Ok(stored.value);
  }

  /** `checkOrInstallCrate(crate)`. */
  method CheckOrInstallCrate(api: ReleaseApi, tc: ToolCache, fs: FileSystem,
                             crate: Crate, host: Host, satisfies: (string, string) -> bool)
    returns (r: Result<InstalledCrate, Error>)
    modifies api, tc, fs
    ensures var o := InstallSpec(crate, host, satisfies, api.listing(crate.owner, crate.name),
                                 tc.behaviour, old(fs.listings), old(fs.modes));
      r == o.result && api.requests == old(api.requests) + o.requests
      && tc.calls == old(tc.calls) + o.calls && fs.modes == o.modes
    ensures fs.listings == old(fs.listings)
  {
    ghost var pages := api.listing(crate.owner, crate.name);
    ghost var listings, modes := fs.listings, fs.modes;
    var dir := tc.Find(crate.name, CacheKey(crate.versionSpec));
    if dir.None? {
      InstallSpecOnMiss(crate, host, satisfies, pages, tc.behaviour, listings, modes);
      ghost var m := FreshSpec(crate, host, satisfies, pages, tc.behaviour, listings, modes);
      AppendAssociative(old(tc.calls), [FindCall(crate.name, CacheKey(crate.versionSpec))], m.calls);
      var installed := InstallFresh(api, tc, fs, crate, host, satisfies);
      if installed.Err? {
        return Err(installed.error);
      }
      dir := Some(installed.value);
    } else {
      CacheHitDoesNoWork(crate, host, satisfies, pages, tc.behaviour, listings, modes);
    }
    var version := ParentName(dir.value);
    r := Ok(InstalledCrate(crate.owner, crate.name, crate.versionSpec, crate.bin, version, dir.value));
  }
}
