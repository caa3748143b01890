# fetch-crate-action, modelled in Dafny

This project models the decision core of the `fetch-crate-action` GitHub Action. The action installs a prebuilt Rust binary that a repository publishes as a GitHub release asset. It works in five steps:

- It works out which Rust target triples suit the runner (`getTargets`).
- It pages through the repository's releases and picks the first release that has an asset for one of those triples and whose tag satisfies the optional semver range (`getRelease`).
- It downloads and unpacks that asset, with zip or tar chosen by the URL, and collapses a single wrapper directory.
- It stores the result in the runner's tool cache and makes the binary executable (`handleBadBinaryPermissions`).
- It reports the installed directory and the version encoded in its path (`checkOrInstallCrate`). A tool-cache hit skips everything after the lookup.

All of this is in `src/index.ts`. The model follows that file's shape:

- `targets.dfy`: `getTargets` as a total function over the `process.arch` / `process.platform` strings.
- `releases.dfy`: the page callback as pure functions: asset matching, tag normalisation, and the two filters. The paging with `done()` is a method with a `while` loop over a `ReleaseApi` object that logs each page request. It is proved against the functions `Collected` and `PagesRequested`. Those functions are related to the whole release history by lemmas.
- `files.dfy`, `permissions.dfy`: a `FileSystem` object (directory listings and file modes). `findBin` is a loop with an early return, proved against `ChosenBinary`. The chmod rule is proved against the function `FixPermissions`.
- `install.dfy`: a `ToolCache` object that answers `find`, `downloadTool`, `extractZip`, `extractTar` and `cacheDir` from given functions and logs each call. `checkOrInstallCrate` is split as its `if (!dir)` block suggests: `FetchArtifact` (download, extract, collapse), `InstallFresh` (the whole miss branch) and `CheckOrInstallCrate`. Each is proved against a pure specification (`FetchSpec`, `FreshSpec`, `InstallSpec`). Those specifications give the result, the page requests, the tool-cache calls and the file modes. Lemmas about `InstallSpec` state the cache short-circuit, the version rule and the repeat-call behaviour.
- `strings.dfy`, `crates.dfy`, `wrappers.dfy`: `includes`, `endsWith`, `toLowerCase`, the `Crate` / `InstalledCrate` records, the thrown errors, and paths as segment lists with `join`, `dirname` and `basename`.

Inputs from outside the file are parameters:

- `semver.satisfies` is the function parameter `satisfies`.
- The release listing is a function from (owner, repo) to its pages.
- The tool-cache answers are functions.
- The file system is a map of listings and a map of modes.

Behaviour of the code worth knowing:

- Assets are matched in asset order, not in target-preference order: `find` runs over the assets and `some` over the targets. `Releases.EarlierAssetWins` shows a gnu asset listed before a musl asset being chosen on Linux.
- The no-release message names the crate name and the range, not the owner. An absent range prints as `undefined`.
- The permission fix runs after `cacheDir`, on the cached directory, not on the extracted one.
- Stripping the leading `v` is idempotent only for tags that do not start with `vv`.
- The returned object still carries `version_spec` (and `bin`), because it is built with `{ ...crate, version, dir }`.

## Model

| member | source | states |
|---|---|---|
| Targets.GetTargets | src/index.ts:8-26 | succeeds exactly for x64/linux, x64/darwin, x64/win32, arm64/linux and arm64/darwin. Otherwise it fails with the error carrying the arch and platform. Linux gets two triples; every other supported host gets one |
| Targets.TargetsMatchCpu | src/index.ts:10-23 | every returned triple starts with the host's CPU name (`x86_64-` for x64, `aarch64-` for arm64) |
| Targets.LinuxPrefersMusl | src/index.ts:11-12 | on Linux the musl triple comes first and the gnu triple second, and both share the same stem |
| Targets.NoArm64Windows | src/index.ts:18-25 | arm64 on win32 is not supported and fails |
| Targets.UnsupportedMessage | src/index.ts:25 | the failure message is `Failed to determine any valid targets: arch=…, platform=…` |
| Strings.Contains | src/index.ts:58 | `includes`: the empty string is contained in every string, and a contained string is never longer than the container |
| Strings.ContainsIffOccurs | src/index.ts:58 | `includes` holds exactly when the target occurs as a slice of the asset name at some offset |
| Releases.FindIndex | src/index.ts:58 | `find` returns the first element passing the test, or none when no element passes |
| Releases.FirstMatchingAsset | src/index.ts:58 | no asset is chosen iff no asset name contains any target. Otherwise the chosen asset is the first one in asset order whose name contains some target |
| Releases.AssetChoiceIgnoresTargetOrder | src/index.ts:58 | reordering the targets (same members) never changes the chosen asset |
| Releases.EarlierAssetWins | src/index.ts:58 | an asset that matches only the fallback target, listed before one that matches the preferred target, is the one chosen |
| Releases.NormalizeTag | src/index.ts:61 | a tag starting with `v` is `v` followed by the result; any other tag is returned unchanged |
| Releases.NormalizeTwice | src/index.ts:61 | normalising twice equals normalising once iff the tag does not start with `vv` |
| Releases.Candidate | src/index.ts:57-65 | a release yields a candidate iff some asset name contains some target. The candidate has the normalised tag and the URL of the first matching asset |
| Releases.Qualify | src/index.ts:66-67 | with no range, or the empty range, every candidate passes. With a non-empty range a candidate passes only if `satisfies(version, range)` holds |
| Releases.PageReleases | src/index.ts:57-67 | the page callback returns at most one release per listed release |
| Releases.PageReleasesMembers | src/index.ts:57-67 | the page callback's list holds exactly the qualifying releases of the page |
| Releases.PageReleasesAppend | src/index.ts:57-67 | filtering two listings in turn equals filtering their concatenation (order is preserved) |
| Releases.PageHead | src/index.ts:57-73 | the filtered list is empty iff no listed release qualifies. Otherwise its head is the first qualifying release |
| Releases.PagesRequested | src/index.ts:68-70 | every page before the last requested one yields an empty list. If paging stops before the last page, the last requested page yields a non-empty list |
| Releases.Collected | src/index.ts:56-71 | the array `paginate` resolves to is the callback result of the last page it requested, and empty when it requested none |
| Releases.PaginationFindsFirstQualifying | src/index.ts:56-77 | paging collects nothing iff nothing in the whole history qualifies, and then it requests every page. Otherwise the first collected release is the first qualifying release of the whole history |
| Releases.ResolveRelease | src/index.ts:52-78 | an unsupported host fails with the targets error; on a supported host the only failure is `NoMatchingRelease(name, version_spec)` |
| Releases.SelectedIsFirstQualifying | src/index.ts:52-78 | the release returned is the first qualifying one in listing order over all pages. With none, the error is `NoMatchingRelease(name, version_spec)` |
| Releases.ReleaseApi.ListReleases | src/index.ts:56 | one page request is logged and the page of the listing is returned |
| Releases.GetRelease | src/index.ts:52-79 | the result is `ResolveRelease` of the listing of `owner/name`. The request log grows by pages 1..n in order, with n = `PagesRequested`, and by nothing when the host has no targets |
| Files.FileSystem.ReadDir | src/index.ts:85 | returns the listing of an existing directory and fails for a missing one |
| Files.FileSystem.Access | src/index.ts:95 | succeeds iff the file exists and its owner execute bit is set |
| Files.FileSystem.Chmod | src/index.ts:97 | sets the mode of an existing file only, and fails for a missing file without changing anything |
| Permissions.ChosenBinary | src/index.ts:84-92 | the chosen name equals the crate name up to case. It is the first listed file that matches case-insensitively, and the crate name itself when no file matches |
| Permissions.FindBin | src/index.ts:84-92 | the loop with early return picks the first file whose lower case equals the crate name's, else the name |
| Permissions.BinaryPath | src/index.ts:93 | a non-empty `bin` gives `dir/bin`. Otherwise the directory is listed, which fails if it is missing, and the path is `dir/` plus `findBin`'s choice: the first case-insensitive match, else the crate name |
| Permissions.FixPermissions | src/index.ts:94-97 | the fix never adds or removes a file. It fails exactly off Windows when the binary path cannot be formed or names a missing file |
| Permissions.FixPermissionsEffect | src/index.ts:81-101 | on win32 nothing changes. Elsewhere the binary ends executable: an executable binary keeps its mode, a non-executable one gets 0o755, and no other file changes |
| Permissions.FixPermissionsIdempotent | src/index.ts:94-97 | running the fix again on its result changes nothing |
| Permissions.HandleBadBinaryPermissions | src/index.ts:81-101 | the new modes and the result are those of `FixPermissions`. Listings are unchanged, and on failure the modes are unchanged |
| Install.ArchiveKindBySuffix | src/index.ts:111-115 | a URL ending in `.zip` is unzipped; `.ZIP` and `.tar.gz` go to tar (the suffix test is case-sensitive) |
| Install.CollapsedRoot | src/index.ts:117-123 | the root changes iff the listing has exactly one entry and it is a directory, and then it becomes that entry |
| Install.ArchiveKindOf | src/index.ts:111 | an archive is unzipped exactly when its URL is some stem followed by `.zip` |
| Install.CacheKey | src/index.ts:105 | the cache is searched with the range when it is non-empty, else with `*`; so never with the empty string |
| Install.ToolCache.Find | src/index.ts:105 | logs the lookup and returns the cache's answer |
| Install.ToolCache.DownloadTool | src/index.ts:108 | logs the download and returns the downloaded file or the failure |
| Install.ToolCache.ExtractZip | src/index.ts:112 | logs the zip extraction and returns its directory or the failure |
| Install.ToolCache.ExtractTar | src/index.ts:114 | logs the tar extraction and returns its directory or the failure |
| Install.ToolCache.CacheDir | src/index.ts:124 | logs the caching call and returns the cached directory or the failure |
| Install.FetchSpec | src/index.ts:108-123 | download comes first; extraction uses zip iff the URL ends with `.zip`, applied to the downloaded file. A failed download or extraction returns that step's error, an unlisted extracted directory the readdir error. Otherwise the root is the collapsed form of the extracted directory |
| Install.FreshSpec | src/index.ts:107-125 | the install branch always pages the listing. Without a release it fails with the resolution error and calls nothing. Otherwise it fetches the release's URL and returns the fetch's error if that fails. Once unpacked it caches the root under the crate name and the release's version, returning `cacheDir`'s error or the permission fix's error on failure. When both succeed it returns the cached directory with the fixed modes. On every failure the modes are unchanged |
| Install.InstallSpec | src/index.ts:103-128 | `find` with the cache key is always the first call; a miss makes the page requests of `getRelease`; a failure leaves the modes unchanged and happens only on a miss |
| Install.MissInstallsResolvedRelease | src/index.ts:105-124 | on a miss the second call downloads the URL of the release `getRelease` resolved, and after a successful unpack the fourth call caches it under that release's version. With no release the call fails with the resolution error after the `find` alone |
| Install.MissSucceedsWithCachedDir | src/index.ts:105-128 | on a miss where resolution, fetch, `cacheDir` and the permission fix all succeed, the result is the installed crate at the directory `cacheDir` returned, with the fixed modes |
| Install.FetchArtifact | src/index.ts:108-123 | the returned root and the logged calls are those of `FetchSpec` |
| Install.InstallFresh | src/index.ts:106-126 | the cached directory, the page requests, the tool-cache calls and the modes are those of `FreshSpec`. Listings are unchanged |
| Install.CheckOrInstallCrate | src/index.ts:103-129 | the result, the page requests, the tool-cache calls and the modes are those of `InstallSpec` |
| Install.CacheHitDoesNoWork | src/index.ts:105-106 | on a cache hit there are no page requests, the only call is `find`, no mode changes, and the result holds the cached directory |
| Crates.ParentName | src/index.ts:127 | `basename(dirname(dir))` is the next-to-last path segment, and empty for `/` or a top-level directory |
| Crates.Message | src/index.ts:75 | the no-release message starts with `no releases for <name> matching version specifier ` and ends with the rendered range, `undefined` when absent. The unsupported-host message of line 25 starts with `Failed to determine any valid targets: arch=<arch>` and ends with `, platform=<platform>` |
| Install.ResultCarriesCrate | src/index.ts:127-128 | a successful result keeps the crate's owner, name, range and `bin`, and its version is the parent-of-leaf segment of its directory |
| Install.FreshInstallReportsReleaseVersion | src/index.ts:124-127 | when the cache stores versions at `<root>/<name>/<version>/<leaf>`, a fresh install reports the resolved release's version |
| Install.PermissionsFixedInCachedDir | src/index.ts:124-125 | on a fresh install the last tool-cache call is `cacheDir`, and the modes are fixed in the directory it returned |
| Install.RepeatedCallReusesCache | src/index.ts:103-128 | once the cache answers with the directory a first call installed, a second call returns the same result. It makes no page request, only the `find` call, and changes no mode |

## Left out

- HTTP: the Octokit client, the `auth` token, rate limits and private repositories. The listing of each (owner, repo) is given as its pages.
- Releases.GetRelease: an empty page sequence makes no page request. `paginate` always requests page 1, so a repository with no releases is given as one empty page, `[[]]`. The result is the same either way.
- Releases.PageReleases: its own contract bounds only the length. Membership and order are stated by `Releases.PageReleasesMembers` and `Releases.PageReleasesAppend`, outside the recursive function to keep its proofs small.
- `octokit.paginate` internals: the number of pages is known in advance, standing for the `Link` headers. Page requests are numbered from 1.
- `semver.satisfies` and its range grammar: a function parameter that is never interpreted.
- `@actions/tool-cache` internals are given as functions. These include how `find` matches a range against cached versions, the `.complete` marker, temporary file names, and the `<version>/<arch>` layout of `cacheDir`. That layout is keyed by the cleaned version (`semver.clean(version) || version`), so for a version such as `1.2.3+build` the reported version is the cleaned one. `Install.FreshInstallReportsReleaseVersion` assumes a layout keyed by the version itself.
- Copying files into the cache: the file system is a snapshot of listings and modes that already includes the cached directory. `cacheDir` does not change it.
- `fs.lstat` is the `isDir` flag of a listing entry. Symbolic links count as non-directories, as `lstat` reports them.
- `access(X_OK)`: the owner execute bit (`0o100`) decides it, because the action's own process owns the files it unpacked.
- `path.join` normalisation: `bin` is one path segment, and `..`, `.` and separators inside it are not resolved.
- Strings.ToLower: maps only the ASCII letters, not the full Unicode case mapping of `toLowerCase`.
- Library failures (download, extraction, cache, filesystem) are typed errors. Their message texts are placeholders, not the libraries' own.
- Logging (`core.debug`, `core.info`), input reading, `core.addPath`, `core.setFailed` and `main()`: glue around the modelled core.
- async/await: every step is sequential, as in one invocation of the action.
