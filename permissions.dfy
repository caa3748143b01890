/** The permission normaliser: find the crate's binary in the installed
    directory and make it executable, except on Windows. */
module Permissions {
  import opened Wrappers
  import opened Strings
  import opened Crates
  import opened Files
  import opened Releases

  /** The test `findBin` applies to each directory entry name. */
  function SameName(name: string): string -> bool {
    (file: string) => ToLower(file) == ToLower(name)
  }

  /** `findBin()`: the first entry whose lower-case form equals the crate name's,
      or the crate name itself when no entry does. Either way the choice equals
      the name up to case. */
  function ChosenBinary(files: seq<string>, name: string): (r: string)
    ensures ToLower(r) == ToLower(name)
    ensures r == name || r in files
    ensures (exists i :: 0 <= i < |files| && ToLower(files[i]) == ToLower(name)) ==> r in files
    ensures forall i ::
      (0 <= i < |files| && ToLower(files[i]) == ToLower(name)
       && forall j :: 0 <= j < i ==> ToLower(files[j]) != ToLower(name)) ==> r == files[i]
    ensures (forall i :: 0 <= i < |files| ==> ToLower(files[i]) != ToLower(name)) ==> r == name
  {
    match FindIndex(files, SameName(name))
    case None => name
    case Some(i) => files[i]
  }

  /** The `for await` loop of `findBin`, with its early return. */
  method FindBin(files: seq<string>, name: string) returns (bin: string)
    ensures bin == ChosenBinary(files, name)
  {
    var i := 0;
    while i < |files|
      invariant 0 <= i <= |files|
      invariant forall j :: 0 <= j < i ==> !SameName(name)(files[j])
    {
      if ToLower(files[i]) == ToLower(name) {
        return files[i];
      }
      i := i + 1;
    }
    return name;
  }

  /** `join(dir, bin ? bin : await findBin())`: a non-empty `bin` wins; otherwise
      the directory is listed, which fails when it does not exist. */
  function BinaryPath(crate: Crate, dir: Path, listings: map<Path, seq<Entry>>): (r: Result<Path, Error>)
    ensures Truthy(crate.bin) ==> r == Ok(dir + [crate.bin.value])
    ensures !Truthy(crate.bin) && dir !in listings ==> r == Err(FileSystemFailed("readdir", dir))
    ensures !Truthy(crate.bin) && dir in listings ==>
      r.Ok? && |r.value| == |dir| + 1 && r.value[..|dir|] == dir
      && ToLower(r.value[|dir|]) == ToLower(crate.name)
      && (r.value[|dir|] == crate.name || r.value[|dir|] in Names(listings[dir]))
      && r == Ok(dir + [ChosenBinary(Names(listings[dir]), crate.name)])
  {
    if Truthy(crate.bin) then Ok(Join(dir, crate.bin.value))
    else if dir in listings then Ok(Join(dir, ChosenBinary(Names(listings[dir]), crate.name)))
    else Err(FileSystemFailed("readdir", dir))
  }

  /** The modes after `handleBadBinaryPermissions`: unchanged on Windows or when
      the binary is already executable; otherwise the binary gets `0o755`, and
      `chmod` fails if it does not exist. */
  function FixPermissions(host: Host, crate: Crate, dir: Path, listings: map<Path, seq<Entry>>, modes: map<Path, nat>)
    : (r: Result<map<Path, nat>, Error>)
    ensures r.Ok? ==> r.value.Keys == modes.Keys
    ensures r.Err? <==>
      (host.platform != "win32"
       && (BinaryPath(crate, dir, listings).Err? || BinaryPath(crate, dir, listings).value !in modes))
  {
    if host.platform == "win32" then Ok(modes)
    else match BinaryPath(crate, dir, listings)
      case Err(e) => Err(e)
      case Ok(binary) =>
        if binary in modes && OwnerExecutable(modes[binary]) then Ok(modes)
        else if binary in modes then Ok(modes[binary := ExecutableMode])
        else Err(FileSystemFailed("chmod", binary))
  }

  /** What the fix does on success: on Windows nothing; elsewhere the binary
      ends up executable, keeps its mode if it already was, is set to `0o755`
      if it was not, and no other file changes. */
  lemma FixPermissionsEffect(host: Host, crate: Crate, dir: Path, listings: map<Path, seq<Entry>>, modes: map<Path, nat>)
    requires FixPermissions(host, crate, dir, listings, modes).Ok?
    ensures var after := FixPermissions(host, crate, dir, listings, modes).value;
      (host.platform == "win32" ==> after == modes)
      && (host.platform != "win32" ==>
            BinaryPath(crate, dir, listings).Ok?
            && var binary := BinaryPath(crate, dir, listings).value;
            binary in modes && after.Keys == modes.Keys && OwnerExecutable(after[binary])
            && after[binary] == (if OwnerExecutable(modes[binary]) then modes[binary] else ExecutableMode)
            && forall p :: p in modes && p != binary ==> after[p] == modes[p])
  {
  }

  /** Fixing permissions a second time changes nothing. */
  lemma FixPermissionsIdempotent(host: Host, crate: Crate, dir: Path, listings: map<Path, seq<Entry>>, modes: map<Path, nat>)
    requires FixPermissions(host, crate, dir, listings, modes).Ok?
    ensures var after := FixPermissions(host, crate, dir, listings, modes).value;
      FixPermissions(host, crate, dir, listings, after) == Ok(after)
  {
  }

  /** `handleBadBinaryPermissions(crate, dir)`. */
  method HandleBadBinaryPermissions(fs: FileSystem, crate: Crate, dir: Path, host: Host) returns (r: Result<(), Error>)
    modifies fs
    ensures fs.listings == old(fs.listings)
    ensures var out := FixPermissions(host, crate, dir, old(fs.listings), old(fs.modes));
      (out.Ok? ==> r == Ok(()) && fs.modes == out.value)
      && (out.Err? ==> r == Err(out.error) && fs.modes == old(fs.modes))
  {
    if host.platform != "win32" {
      var file: string;
      if Truthy(crate.bin) {
        file := crate.bin.value;
      } else {
        var entries := fs.ReadDir(dir);
        if entries.Err? {
          return Err(entries.error);
        }
        file := FindBin(Names(entries.value), crate.name);
      }
      var binary := Join(dir, file);
      var executable := fs.Access(binary);
      if !executable {
        var changed := fs.Chmod(binary, ExecutableMode);
        if changed.Err? {
          return Err(changed.error);
        }
      }
    }
    return Ok(());
  }
}
