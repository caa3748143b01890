/** The part of the file system the action reads and changes: directory listings
    (`readdir`, with `lstat`'s directory flag) and file modes (`access`, `chmod`). */
module Files {
  import opened Wrappers
  import opened Crates

  /** One directory entry: its name and whether `lstat` reports a directory. */
  datatype Entry = Entry(name: string, isDir: bool)

  /** `0o755`: read, write and execute for the owner; read and execute for the rest. */
  const ExecutableMode: nat := 493

  /** Whether the owner's execute bit (`0o100`) is set. The files checked are the
      ones the action itself unpacked, so the process is their owner and this is
      what `access(path, X_OK)` decides. */
  predicate OwnerExecutable(mode: nat) {
    (mode / 64) % 2 == 1
  }

  /** The names `readdir` returns for a listing, in listing order. */
  function Names(entries: seq<Entry>): seq<string> {
    seq(|entries|, i requires 0 <= i < |entries| => entries[i].name)
  }

  class FileSystem {
    /** The entries of each existing directory. */
    var listings: map<Path, seq<Entry>>
    /** The mode of each existing file. */
    var modes: map<Path, nat>

    constructor (listings: map<Path, seq<Entry>>, modes: map<Path, nat>)
      ensures this.listings == listings && this.modes == modes
    {
      this.listings := listings;
      this.modes := modes;
    }

    /** `fs.readdir(dir)`: fails when there is no such directory. */
    method ReadDir(dir: Path) returns (r: Result<seq<Entry>, Error>)
      ensures dir in listings ==> r == Ok(listings[dir])
      ensures dir !in listings ==> r == Err(FileSystemFailed("readdir", dir))
    {
      if dir in listings {
        r := Ok(listings[dir]);
      } else {
        r := Err(FileSystemFailed("readdir", dir));
      }
    }

    /** `fs.access(path, X_OK)` succeeds: the file exists and is executable. */
    method Access(path: Path) returns (ok: bool)
      ensures ok <==> path in modes && OwnerExecutable(modes[path])
    {
      ok := path in modes && OwnerExecutable(modes[path]);
    }

    /** `fs.chmod(path, mode)`: sets the mode of an existing file, fails otherwise. */
    method Chmod(path: Path, mode: nat) returns (r: Result<(), Error>)
      modifies this
      ensures listings == old(listings)
      ensures path in old(modes) ==> r == Ok(()) && modes == old(modes)[path := mode]
      ensures path !in old(modes) ==> r == Err(FileSystemFailed("chmod", path)) && modes == old(modes)
    {
      if path in modes {
        modes := modes[path := mode];
        r := Ok(());
      } else {
        r := Err(FileSystemFailed("chmod", path));
      }
    }
  }
}
