/** The build-target resolution of the wheel build script: which target a
    build is for, which native-library patterns it packages, and which wheel
    platform tag it receives. `TARGET_PLATFORM`, `platform.system()` and
    `platform.machine()` are parameters; an unset variable is the empty
    string, as `os.environ.get('TARGET_PLATFORM', '')` makes it. */
module Setup {
  import opened Text

  /** The seven build targets both tables know. */
  const KnownTargets: set<string> :=
    {"windows_x64", "windows_x86", "windows_arm64", "darwin_x64", "darwin_arm64", "linux_x64", "linux_arm64"}

  /** Target -> wheel platform tag (`platform_mapping` of `get_tag`). */
  const PlatformTags: map<string, string> := map[
    "windows_x64" := "win_amd64",
    "windows_x86" := "win32",
    "windows_arm64" := "win_arm64",
    "darwin_x64" := "macosx_10_9_x86_64",
    "darwin_arm64" := "macosx_11_0_arm64",
    "linux_x64" := "manylinux2014_x86_64",
    "linux_arm64" := "manylinux2014_aarch64"
  ]

  /** Target -> package-data globs (`platform_mapping` of
      `get_platform_package_data`). */
  const PackageDataTable: map<string, seq<string>> := map[
    "windows_x64" := ["libs/windows/x64/*.dll"],
    "windows_x86" := ["libs/windows/x86/*.dll"],
    "windows_arm64" := ["libs/windows/x64/*.dll"],
    "darwin_x64" := ["libs/darwin/*.dylib"],
    "darwin_arm64" := ["libs/darwin/*.dylib"],
    "linux_x64" := ["libs/linux/x64/*.so"],
    "linux_arm64" := ["libs/linux/arm64/*.so"]
  ]

  /** The systems whose host detection produces a target. */
  predicate IsDetectedSystem(system: string) {
    system == "windows" || system == "darwin" || system == "linux"
  }

  /** The targets host detection can produce. */
  const DetectableTargets: set<string> :=
    {"windows_x64", "windows_x86", "darwin_x64", "darwin_arm64", "linux_x64", "linux_arm64"}

  /** `get_target_platform`: a non-empty `TARGET_PLATFORM`, lower-cased,
      wins; otherwise the lower-cased host system and machine are mapped to a
      target, and an unrecognised system leaves the empty string. */
  function TargetPlatform(env: string, system: string, machine: string): (r: string)
    ensures IsLowerCase(r)
    ensures env != [] ==> r == Lower(env)
    ensures env == [] ==> r == [] || r in DetectableTargets
    ensures r == [] <==> env == [] && !IsDetectedSystem(Lower(system))
  {
    var target := Lower(env);
    if target != [] then target
    else
      var sys := Lower(system);
      var arch := Lower(machine);
      if sys == "windows" then (if arch in ["amd64", "x86_64"] then "windows_x64" else "windows_x86")
      else if sys == "darwin" then (if arch == "arm64" then "darwin_arm64" else "darwin_x64")
      else if sys == "linux" then (if arch == "aarch64" then "linux_arm64" else "linux_x64")
      else target
  }

  /** Host detection as the packaging tables and the installation check
      evidently intend it: an `arm64` Windows host builds `windows_arm64`
      (the x64 DLLs) and an `arm64` Linux host builds `linux_arm64`; every
      other input resolves as in `TargetPlatform`. */
  function TargetPlatformCorrected(env: string, system: string, machine: string): (r: string)
    ensures env != [] || !(Lower(machine) == "arm64" && Lower(system) in {"windows", "linux"}) ==>
              r == TargetPlatform(env, system, machine)
    ensures env == [] && Lower(machine) == "arm64" && Lower(system) == "windows" ==> r == "windows_arm64"
    ensures env == [] && Lower(machine) == "arm64" && Lower(system) == "linux" ==> r == "linux_arm64"
  {
    var target := Lower(env);
    if target != [] then target
    else
      var sys := Lower(system);
      var arch := Lower(machine);
      if sys == "windows" then
        (if arch in ["amd64", "x86_64"] then "windows_x64" else if arch == "arm64" then "windows_arm64" else "windows_x86")
      else if sys == "darwin" then (if arch == "arm64" then "darwin_arm64" else "darwin_x64")
      else if sys == "linux" then (if arch in ["aarch64", "arm64"] then "linux_arm64" else "linux_x64")
      else target
  }

  /** `get_platform_package_data`: the table's globs for a known target, and
      no globs at all for anything else. */
  function PackageData(target: string): (r: seq<string>)
    ensures target !in KnownTargets ==> r == []
    ensures target in KnownTargets ==> |r| == 1
  {
    if target !in PackageDataTable then [] else PackageDataTable[target]
  }

  /** The two tables are keyed by the same seven targets. */
  lemma TablesAgree()
    ensures PlatformTags.Keys == KnownTargets
    ensures PackageDataTable.Keys == KnownTargets
  {
  }

  /** A non-empty `TARGET_PLATFORM` decides the target alone: the host is
      never consulted. */
  lemma OverrideIgnoresHost(env: string, system: string, machine: string, system': string, machine': string)
    requires env != []
    ensures TargetPlatform(env, system, machine) == TargetPlatform(env, system', machine')
  {
  }

  /** Feeding a resolved target back in as `TARGET_PLATFORM` (as the
      all-platform build does) resolves to the same target on any host. */
  lemma OverrideFixedPoint(env: string, system: string, machine: string, system': string, machine': string)
    requires TargetPlatform(env, system, machine) != []
    ensures TargetPlatform(TargetPlatform(env, system, machine), system', machine') == TargetPlatform(env, system, machine)
  {
  }

  /** Windows hosts: `amd64` and `x86_64` build for x64; every other machine,
      `arm64` included, builds for x86. */
  lemma WindowsDetection(system: string, machine: string)
    requires Lower(system) == "windows"
    ensures TargetPlatform([], system, machine) == "windows_x64" <==> Lower(machine) in {"amd64", "x86_64"}
    ensures TargetPlatform([], system, machine) == "windows_x86" <==> Lower(machine) !in {"amd64", "x86_64"}
    ensures Lower(machine) == "arm64" ==> TargetPlatform([], system, machine) == "windows_x86"
  {
  }

  /** Darwin hosts: exactly `arm64` builds for arm64, anything else for x64. */
  lemma DarwinDetection(system: string, machine: string)
    requires Lower(system) == "darwin"
    ensures TargetPlatform([], system, machine) == "darwin_arm64" <==> Lower(machine) == "arm64"
    ensures TargetPlatform([], system, machine) == "darwin_x64" <==> Lower(machine) != "arm64"
  {
  }

  /** Linux hosts: exactly `aarch64` builds for arm64, anything else (`arm64`
      included) for x64. */
  lemma LinuxDetection(system: string, machine: string)
    requires Lower(system) == "linux"
    ensures TargetPlatform([], system, machine) == "linux_arm64" <==> Lower(machine) == "aarch64"
    ensures TargetPlatform([], system, machine) == "linux_x64" <==> Lower(machine) != "aarch64"
    ensures Lower(machine) == "arm64" ==> TargetPlatform([], system, machine) == "linux_x64"
  {
  }

  /** Every target host detection produces is a key of both tables, so it
      selects exactly one library glob; `windows_arm64` is never detected and
      only reachable through `TARGET_PLATFORM`. Being a key of the wheel-tag
      table does not mean a wheel built on that host gets the table's tag:
      `get_tag` looks up the wheel's own target (`WheelTarget`), and
      `WheelTargetMapped` says when that one is mapped. */
  lemma DetectedTargetsArePackaged(system: string, machine: string)
    requires IsDetectedSystem(Lower(system))
    ensures TargetPlatform([], system, machine) in PackageDataTable
    ensures TargetPlatform([], system, machine) in PlatformTags
    ensures |PackageData(TargetPlatform([], system, machine))| == 1
    ensures TargetPlatform([], system, machine) != "windows_arm64"
  {
  }

  /** Two distinct targets package the same globs only when they are the
      Windows x64/arm64 pair (one x64 DLL set) or the two Darwin targets (one
      universal dylib). */
  lemma SharedPackageData(t: string, t': string)
    requires t in KnownTargets && t' in KnownTargets && t != t'
    ensures PackageData(t) == PackageData(t') <==>
              {t, t'} == {"windows_x64", "windows_arm64"} || {t, t'} == {"darwin_x64", "darwin_arm64"}
  {
  }

  /** A wheel's platform tag triple. */
  datatype WheelTag = WheelTag(python: string, abi: string, platform: string)

  /** The target `PlatformSpecificWheel.__init__` records: the lower-cased
      `TARGET_PLATFORM`, or else `"<system>_<machine>"` lower-cased, which
      is not mapped the way host detection maps it. */
  function WheelTarget(env: string, system: string, machine: string): (r: string)
    ensures env != [] ==> r == TargetPlatform(env, system, machine)
    ensures env == [] ==> r == Lower(system) + "_" + Lower(machine)
  {
    if Lower(env) != [] then Lower(env) else Lower(system) + "_" + Lower(machine)
  }

  /** With no `TARGET_PLATFORM`, the wheel's own target hits the tag table
      exactly for the seven host pairs spelled like the table's keys; a
      Windows `AMD64` host, for one, records `windows_amd64` and keeps the
      inherited tag. */
  lemma WheelTargetMapped(system: string, machine: string)
    ensures WheelTarget([], system, machine) in PlatformTags <==>
              (Lower(system), Lower(machine)) in HostPairs
  {
    var s, m := Lower(system), Lower(machine);
    var t := WheelTarget([], system, machine);
    if t in PlatformTags {
      assert t in KnownTargets;
      SplitKnownTarget(s, m);
    }
    if (s, m) in HostPairs {
      JoinHostPair(s, m);
    }
  }

  /** Joining a host pair with '_' gives a known target. */
  lemma JoinHostPair(s: string, m: string)
    requires (s, m) in HostPairs
    ensures s + "_" + m in KnownTargets
  {
    if (s, m) == ("windows", "x64") {
      assert s + "_" + m == "windows_x64";
    } else if (s, m) == ("windows", "x86") {
      assert s + "_" + m == "windows_x86";
    } else if (s, m) == ("windows", "arm64") {
      assert s + "_" + m == "windows_arm64";
    } else if (s, m) == ("darwin", "x64") {
      assert s + "_" + m == "darwin_x64";
    } else if (s, m) == ("darwin", "arm64") {
      assert s + "_" + m == "darwin_arm64";
    } else if (s, m) == ("linux", "x64") {
      assert s + "_" + m == "linux_x64";
    } else {
      assert s + "_" + m == "linux_arm64";
    }
  }

  /** The (system, machine) spellings that name a known target directly. */
  const HostPairs: set<(string, string)> := {
    ("windows", "x64"), ("windows", "x86"), ("windows", "arm64"), ("darwin", "x64"),
    ("darwin", "arm64"), ("linux", "x64"), ("linux", "arm64")
  }

  /** A known target splits at its single '_' into a system and a machine. */
  lemma SplitKnownTarget(s: string, m: string)
    requires s + "_" + m in KnownTargets
    ensures (s, m) in HostPairs
  {
    var t := s + "_" + m;
    assert t[|s|] == '_';
    UnderscoreSplits(t, |s|);
    assert s == t[..|s|];
    assert m == t[|s| + 1..];
  }

  /** Cutting a known target at a '_' gives a host pair. */
  lemma UnderscoreSplits(t: string, k: nat)
    requires t in KnownTargets && k < |t| && t[k] == '_'
    ensures (t[..k], t[k + 1..]) in HostPairs
  {
    if t == "windows_x64" {
      assert k == 7 && t[..7] == "windows" && t[8..] == "x64";
    } else if t == "windows_x86" {
      assert k == 7 && t[..7] == "windows" && t[8..] == "x86";
    } else if t == "windows_arm64" {
      assert k == 7 && t[..7] == "windows" && t[8..] == "arm64";
    } else if t == "darwin_x64" {
      assert k == 6 && t[..6] == "darwin" && t[7..] == "x64";
    } else if t == "darwin_arm64" {
      assert k == 6 && t[..6] == "darwin" && t[7..] == "arm64";
    } else if t == "linux_x64" {
      assert k == 5 && t[..5] == "linux" && t[6..] == "x64";
    } else {
      assert k == 5 && t[..5] == "linux" && t[6..] == "arm64";
    }
  }

  /** `PlatformSpecificWheel`: the `bdist_wheel` command with a recorded
      build target and a forced non-pure root. The inherited `bdist_wheel`
      behaviour is a parameter: the tag triple its `get_tag` returns and the
      purity flag its initialisation leaves. */
  class PlatformSpecificWheel {
    var targetPlatform: string
    var rootIsPure: bool

    /** `__init__`: records the target from the environment or the host. */
    constructor (env: string, system: string, machine: string, inheritedPure: bool)
      ensures targetPlatform == WheelTarget(env, system, machine)
      ensures rootIsPure == inheritedPure
    {
      var target := Lower(env);
      if target == [] {
        target := Lower(system) + "_" + Lower(machine);
      }
      targetPlatform := target;
      rootIsPure := inheritedPure;
    }

    /** `get_tag`: the inherited python and ABI tags are kept; the platform
      tag is the table's tag for a mapped target and the inherited one
      otherwise. */
    method GetTag(inherited: WheelTag) returns (tag: WheelTag)
      ensures tag.python == inherited.python && tag.abi == inherited.abi
      ensures targetPlatform in PlatformTags ==> tag.platform == PlatformTags[targetPlatform]
      ensures targetPlatform !in PlatformTags ==> tag.platform == inherited.platform
    {
      var platformTag := inherited.platform;
      if targetPlatform in PlatformTags {
        platformTag := PlatformTags[targetPlatform];
      }
      tag := WheelTag(inherited.python, inherited.abi, platformTag);
    }

    /** `finalize_options`: whatever the inherited step decided, the wheel
      is marked platform specific; the target is untouched. */
    method FinalizeOptions()
      modifies this`rootIsPure
      ensures !rootIsPure
      ensures targetPlatform == old(targetPlatform)
    {
      rootIsPure := false;
    }
  }
}
