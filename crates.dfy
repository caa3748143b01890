/** The records the action passes around (`Crate`, `InstalledCrate`), the host it
    runs on, the failures it throws and the path operations it uses. */
module Crates {
  import opened Wrappers
  import opened Strings

  /** An absolute path as its segments: `[]` is `/`, `["opt", "x"]` is `/opt/x`. */
  type Path = seq<string>

  /** What to install: `version_spec` and `bin` are optional. */
  datatype Crate = Crate(owner: string, name: string, versionSpec: Option<string>, bin: Option<string>)

  /** The crate after installation. The object built by `{ ...crate, version, dir }`
      keeps every field of the crate, so `versionSpec` stays too. */
  datatype InstalledCrate = InstalledCrate(
    owner: string, name: string, versionSpec: Option<string>, bin: Option<string>,
    version: string, dir: Path)

  /** `process.arch` and `process.platform` as Node reports them. */
  datatype Host = Host(arch: string, platform: string)

  /** The exceptions that end an installation. */
  datatype Error =
    | UnsupportedPlatform(arch: string, platform: string)
    | NoMatchingRelease(name: string, versionSpec: Option<string>)
    | DownloadFailed(url: string)
    | ExtractionFailed(archive: Path)
    | CacheFailed(source: Path)
    | FileSystemFailed(call: string, path: Path)

  /** JavaScript truthiness of an optional string: present and non-empty. */
  predicate Truthy(s: Option<string>) {
    s.Some? && s.value != ""
  }

  /** How a template literal renders an optional string (`undefined` when absent). */
  function Render(s: Option<string>): string {
    if s.Some? then s.value else "undefined"
  }

  /** The message of the error thrown for each failure the action itself raises. */
  function Message(e: Error): (m: string)
    ensures e.UnsupportedPlatform? ==>
      StartsWith(m, "Failed to determine any valid targets: arch=" + e.arch) && EndsWith(m, ", platform=" + e.platform)
    ensures e.NoMatchingRelease? ==>
      StartsWith(m, "no releases for " + e.name + " matching version specifier ") && EndsWith(m, Render(e.versionSpec))
  {
    match e
    case UnsupportedPlatform(arch, platform) =>
      var head := "Failed to determine any valid targets: arch=" + arch;
      var tail := ", platform=" + platform;
      ConcatAffixes(head, tail);
      head + tail
    case NoMatchingRelease(name, spec) =>
      var head := "no releases for " + name + " matching version specifier ";
      ConcatAffixes(head, Render(spec));
      head + Render(spec)
    case DownloadFailed(url) => "download failed: " + url
    case ExtractionFailed(_) => "extraction failed"
    case CacheFailed(_) => "caching failed"
    case FileSystemFailed(call, _) => call + " failed"
  }

  /** `join(dir, entry)` for a single entry name. */
  function Join(dir: Path, entry: string): Path {
    dir + [entry]
  }

  /** `dirname(p)`: the root is its own parent. */
  function DirName(p: Path): Path {
    if p == [] then [] else p[..|p| - 1]
  }

  /** `basename(p)`: the root has the empty base name. */
  function BaseName(p: Path): string {
    if p == [] then "" else p[|p| - 1]
  }

  /** `basename(dirname(dir))`: the name of the directory that holds the leaf. */
  function ParentName(dir: Path): (r: string)
    ensures |dir| >= 2 ==> r == dir[|dir| - 2]
    ensures |dir| < 2 ==> r == ""
  {
    BaseName(DirName(dir))
  }
}
