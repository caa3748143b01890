/** The target resolver: which Rust target triples a release asset may be built
    for, given the architecture and platform of the runner. */
module Targets {
  import opened Wrappers
  import opened Strings
  import opened Crates

  /** The (arch, platform) pairs that have prebuilt targets. */
  const SupportedHosts: set<(string, string)> :=
    {("x64", "linux"), ("x64", "darwin"), ("x64", "win32"), ("arm64", "linux"), ("arm64", "darwin")}

  /** The CPU part of a Rust target triple for a Node architecture name. */
  function RustCpu(arch: string): string {
    if arch == "x64" then "x86_64" else if arch == "arm64" then "aarch64" else arch
  }

  /** `getTargets()`: the acceptable triples, most preferred first, or the error
      thrown for any other host. */
  function GetTargets(host: Host): (r: Result<seq<string>, Error>)
    ensures r.Ok? <==> (host.arch, host.platform) in SupportedHosts
    ensures r.Err? ==> r.error == UnsupportedPlatform(host.arch, host.platform)
    ensures r.Ok? ==> |r.value| == (if host.platform == "linux" then 2 else 1)
  {
    if host.arch == "x64" then
      if host.platform == "linux" then Ok(["x86_64-unknown-linux-musl", "x86_64-unknown-linux-gnu"])
      else if host.platform == "darwin" then Ok(["x86_64-apple-darwin"])
      else if host.platform == "win32" then Ok(["x86_64-pc-windows-msvc"])
      else Err(UnsupportedPlatform(host.arch, host.platform))
    else if host.arch == "arm64" then
      if host.platform == "linux" then Ok(["aarch64-unknown-linux-musl", "aarch64-unknown-linux-gnu"])
      else if host.platform == "darwin" then Ok(["aarch64-apple-darwin"])
      else Err(UnsupportedPlatform(host.arch, host.platform))
    else
      Err(UnsupportedPlatform(host.arch, host.platform))
  }

  /** Every triple is built for the host's CPU. */
  lemma TargetsMatchCpu(host: Host)
    requires GetTargets(host).Ok?
    ensures forall t :: t in GetTargets(host).value ==> StartsWith(t, RustCpu(host.arch) + "-")
  {
  }

  /** On Linux the statically linked musl build is preferred to the gnu build
      of the same triple. */
  lemma LinuxPrefersMusl(host: Host)
    requires GetTargets(host).Ok? && host.platform == "linux"
    ensures var targets := GetTargets(host).value;
      |targets| == 2 && EndsWith(targets[0], "-musl") && EndsWith(targets[1], "-gnu")
      && targets[0][..|targets[0]| - 5] == targets[1][..|targets[1]| - 4]
  {
  }

  /** Windows on arm64 has no prebuilt target: the resolver fails there. */
  lemma NoArm64Windows()
    ensures GetTargets(Host("arm64", "win32")) == Err(UnsupportedPlatform("arm64", "win32"))
  {
  }

  /** The failure message names both the architecture and the platform. */
  lemma UnsupportedMessage(host: Host)
    requires (host.arch, host.platform) !in SupportedHosts
    ensures Message(GetTargets(host).error)
         == "Failed to determine any valid targets: arch=" + host.arch + ", platform=" + host.platform
  {
  }
}
