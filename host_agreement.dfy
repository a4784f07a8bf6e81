/** Agreement between the library files a wheel built on a host selects
    through its `package_data` globs and what the installation check on that
    same host looks for. Files a build could pick up through
    `include_package_data` are not considered. */
module HostAgreement {
  import opened Text
  import opened Glob
  import opened Setup
  import opened InstallCheck

  /** Some pattern of `patterns` matches `path`. */
  predicate Selects(patterns: seq<string>, path: string) {
    exists i :: 0 <= i < |patterns| && Match(patterns[i], path)
  }

  /** The one-glob list `dir*ext` selects `dir` + name + `ext`. */
  lemma SelectsFile(pattern: string, dir: string, name: string, ext: string)
    requires '*' !in dir && '*' !in ext && '/' !in name
    requires pattern == dir + "*" + ext
    ensures Selects([pattern], dir + name + ext)
  {
    MatchStar(dir, name, ext);
    assert Match([pattern][0], dir + name + ext);
  }

  /** The library the installation check expects on each supported host. */
  lemma ExpectedLibrarySelected(target: string, path: string)
    requires (target, path) in {
      ("windows_x64", "libs/windows/x64/traa.dll"), ("windows_arm64", "libs/windows/x64/traa.dll"),
      ("windows_x86", "libs/windows/x86/traa.dll"), ("darwin_x64", "libs/darwin/libtraa.dylib"),
      ("darwin_arm64", "libs/darwin/libtraa.dylib"), ("linux_x64", "libs/linux/x64/libtraa.so"),
      ("linux_arm64", "libs/linux/arm64/libtraa.so")}
    ensures Selects(PackageData(target), path)
  {
    if target in {"windows_x64", "windows_arm64"} {
      assert "libs/windows/x64/" + "traa" + ".dll" == path;
      SelectsFile(PackageData(target)[0], "libs/windows/x64/", "traa", ".dll");
    } else if target == "windows_x86" {
      assert "libs/windows/x86/" + "traa" + ".dll" == path;
      SelectsFile(PackageData(target)[0], "libs/windows/x86/", "traa", ".dll");
    } else if target in {"darwin_x64", "darwin_arm64"} {
      assert "libs/darwin/" + "libtraa" + ".dylib" == path;
      SelectsFile(PackageData(target)[0], "libs/darwin/", "libtraa", ".dylib");
    } else if target == "linux_x64" {
      assert "libs/linux/x64/" + "libtraa" + ".so" == path;
      SelectsFile(PackageData(target)[0], "libs/linux/x64/", "libtraa", ".so");
    } else {
      assert "libs/linux/arm64/" + "libtraa" + ".so" == path;
      SelectsFile(PackageData(target)[0], "libs/linux/arm64/", "libtraa", ".so");
    }
  }

  /** As written, a wheel built on a supported host without
      `TARGET_PLATFORM` selects through `package_data` the library the
      installation check expects
      there on every host except an `arm64` Windows or Linux one. */
  lemma AsWrittenSelectsExpectedLibrary(system: string, machine: string)
    requires ExpectedLibrary(Lower(system), Lower(machine)).Library?
    requires !(Lower(machine) == "arm64" && Lower(system) in {"windows", "linux"})
    ensures Selects(PackageData(TargetPlatform([], system, machine)), ExpectedLibrary(Lower(system), Lower(machine)).path)
  {
    ExpectedLibrarySelected(TargetPlatform([], system, machine), ExpectedLibrary(Lower(system), Lower(machine)).path);
  }

  /** A one-glob list whose star-free directory part is not a prefix of
      `path` does not select it. */
  lemma NotSelectedOutsideDir(pattern: string, dir: string, rest: string, path: string)
    requires '*' !in dir && pattern == dir + rest
    requires !(|dir| <= |path| && path[..|dir|] == dir)
    ensures !Selects([pattern], path)
  {
    if Match(pattern, path) {
      MatchHasPrefix(dir, rest, path);
    }
  }

  /** The names a Windows on ARM64 host reports are already lower case. */
  lemma WindowsArm64Lowered()
    ensures Lower("windows") == "windows" && Lower("arm64") == "arm64"
    ensures TargetPlatform([], "windows", "arm64") == "windows_x86"
  {
    assert IsLowerCase("windows") && IsLowerCase("arm64");
  }

  /** As written, an `arm64` Windows host selects through `package_data`
      the x86 DLLs, not the x64 one, while the
      installation check there looks for the x64 DLL. */
  lemma AsWrittenMissesWindowsArm64()
    ensures ExpectedLibrary("windows", "arm64") == Library("libs/windows/x64/traa.dll")
    ensures TargetPlatform([], "windows", "arm64") == "windows_x86"
    ensures !Selects(PackageData(TargetPlatform([], "windows", "arm64")), "libs/windows/x64/traa.dll")
  {
    var path := "libs/windows/x64/traa.dll";
    var dir := "libs/windows/x86/";
    WindowsArm64Lowered();
    assert PackageData("windows_x86") == ["libs/windows/x86/*.dll"];
    assert "libs/windows/x86/*.dll" == dir + "*.dll";
    assert path[14] != dir[14];
    NotSelectedOutsideDir("libs/windows/x86/*.dll", dir, "*.dll", path);
  }

  /** As written, the same `arm64` Windows host also tags its wheel for
      Windows on ARM64 while the wheel carries the x86 DLLs: the wheel's own
      target is `windows_arm64`, the build target `windows_x86`, whose glob
      selects the x86 DLLs. */
  lemma AsWrittenTagsWindowsArm64Wheel()
    ensures WheelTarget([], "windows", "arm64") == "windows_arm64"
    ensures PlatformTags[WheelTarget([], "windows", "arm64")] == "win_arm64"
    ensures PackageData(TargetPlatform([], "windows", "arm64")) == ["libs/windows/x86/*.dll"]
  {
    WindowsArm64Lowered();
    assert WheelTarget([], "windows", "arm64") == "windows" + "_" + "arm64";
    assert "windows" + "_" + "arm64" == "windows_arm64";
    assert PackageData("windows_x86") == ["libs/windows/x86/*.dll"];
  }

  /** As written, an `arm64` Linux host selects through `package_data` the
      x64 library, not the arm64 one, while the
      installation check there looks for the arm64 one. */
  lemma AsWrittenMissesLinuxArm64()
    ensures ExpectedLibrary("linux", "arm64") == Library("libs/linux/arm64/libtraa.so")
    ensures TargetPlatform([], "linux", "arm64") == "linux_x64"
    ensures !Selects(PackageData(TargetPlatform([], "linux", "arm64")), "libs/linux/arm64/libtraa.so")
  {
    var path := "libs/linux/arm64/libtraa.so";
    var dir := "libs/linux/x64/";
    assert TargetPlatform([], "linux", "arm64") == "linux_x64";
    assert PackageData("linux_x64") == ["libs/linux/x64/*.so"];
    assert "libs/linux/x64/*.so" == dir + "*.so";
    assert path[11] != dir[11];
    NotSelectedOutsideDir("libs/linux/x64/*.so", dir, "*.so", path);
  }

  /** With corrected detection, every host the installation check supports
      gets a wheel whose `package_data` globs select the library the check
      looks for. */
  lemma CorrectedSelectsExpectedLibrary(system: string, machine: string)
    requires ExpectedLibrary(Lower(system), Lower(machine)).Library?
    ensures Selects(PackageData(TargetPlatformCorrected([], system, machine)), ExpectedLibrary(Lower(system), Lower(machine)).path)
  {
    ExpectedLibrarySelected(TargetPlatformCorrected([], system, machine), ExpectedLibrary(Lower(system), Lower(machine)).path);
  }
}
