/** The installation self-test: where the installed package must hold its
    native library for the running host, and how the three checks combine
    into an exit code. `os.path.exists` is membership in `existing`, a set of
    '/'-separated paths relative to the installed package directory. */
module InstallCheck {
  import opened Text

  /** The `libs` directory beside the package's `__init__`. */
  const LibsDir: string := "libs"

  /** What the host requires of the `libs` directory: one library file, an
      unsupported architecture, or (for a system the check does not know)
      nothing. */
  datatype Expectation = Library(path: string) | UnsupportedArchitecture | NothingRequired

  /** The library path for a lower-cased system and machine (the branches of
      `check_library_files` after the `libs` test): `libs/<os>/<file>` on
      Darwin, `libs/<os>/<arch>/<file>` on Windows and Linux. */
  function ExpectedLibrary(system: string, machine: string): (e: Expectation)
    ensures system == "darwin" ==> e == Library("libs/darwin/libtraa.dylib")
    ensures e == NothingRequired <==> system !in {"darwin", "windows", "linux"}
    ensures e == UnsupportedArchitecture <==>
              (system == "windows" && machine !in {"amd64", "x86_64", "arm64", "x86"}) ||
              (system == "linux" && machine !in {"x86_64", "amd64", "aarch64", "arm64"})
  {
    if system == "darwin" then
      Library("libs/darwin/libtraa.dylib")
    else if system == "windows" then
      if machine in ["amd64", "x86_64", "arm64"] then Library("libs/windows/x64/traa.dll")
      else if machine == "x86" then Library("libs/windows/x86/traa.dll")
      else UnsupportedArchitecture
    else if system == "linux" then
      if machine in ["x86_64", "amd64"] then Library("libs/linux/x64/libtraa.so")
      else if machine in ["aarch64", "arm64"] then Library("libs/linux/arm64/libtraa.so")
      else UnsupportedArchitecture
    else NothingRequired
  }

  /** How `check_library_files` ends, one case per early return. */
  datatype Verdict =
    | ImportFailed
    | NoLibsDirectory
    | Unsupported(system: string, machine: string)
    | LibraryMissing(path: string)
    | LibraryFound(path: string)
    | NotChecked

  /** The boolean `check_library_files` returns. */
  predicate Passed(v: Verdict) {
    v.LibraryFound? || v.NotChecked?
  }

  /** `check_library_files`: fails if the package cannot be imported or has
      no `libs` directory; otherwise resolves the host's library and passes
      iff that file exists, failing an unsupported architecture outright and
      passing an unknown system without looking further. */
  function CheckLibraryFiles(imported: bool, system: string, machine: string, existing: set<string>): (v: Verdict)
    ensures Passed(v) <==>
              imported && LibsDir in existing &&
              match ExpectedLibrary(Lower(system), Lower(machine))
              case Library(p) => p in existing
              case UnsupportedArchitecture => false
              case NothingRequired => true
    ensures v.LibraryFound? || v.LibraryMissing? ==>
              ExpectedLibrary(Lower(system), Lower(machine)) == Library(v.path)
  {
    if !imported then ImportFailed
    else if LibsDir !in existing then NoLibsDirectory
    else
      var sys := Lower(system);
      var arch := Lower(machine);
      match ExpectedLibrary(sys, arch)
      case Library(p) => if p in existing then LibraryFound(p) else LibraryMissing(p)
      case UnsupportedArchitecture => Unsupported(sys, arch)
      case NothingRequired => NotChecked
  }

  /** Without a `libs` directory the check fails on every host. */
  lemma MissingLibsFails(imported: bool, system: string, machine: string, existing: set<string>)
    requires LibsDir !in existing
    ensures !Passed(CheckLibraryFiles(imported, system, machine, existing))
  {
  }

  /** Darwin always looks for the one universal dylib, whatever the machine. */
  lemma DarwinIgnoresMachine(system: string, machine: string, existing: set<string>)
    requires Lower(system) == "darwin" && LibsDir in existing
    ensures Passed(CheckLibraryFiles(true, system, machine, existing)) <==>
              "libs/darwin/libtraa.dylib" in existing
  {
  }

  /** Windows: `amd64`, `x86_64` and `arm64` use the x64 DLL, `x86` the x86
      DLL, and any other machine fails without a file lookup. */
  lemma WindowsLibrary(system: string, machine: string, existing: set<string>)
    requires Lower(system) == "windows" && LibsDir in existing
    ensures Lower(machine) in {"amd64", "x86_64", "arm64"} ==>
              (Passed(CheckLibraryFiles(true, system, machine, existing)) <==> "libs/windows/x64/traa.dll" in existing)
    ensures Lower(machine) == "x86" ==>
              (Passed(CheckLibraryFiles(true, system, machine, existing)) <==> "libs/windows/x86/traa.dll" in existing)
    ensures Lower(machine) !in {"amd64", "x86_64", "arm64", "x86"} ==>
              CheckLibraryFiles(true, system, machine, existing) == Unsupported("windows", Lower(machine))
  {
  }

  /** Linux: `x86_64` and `amd64` use the x64 library, `aarch64` and `arm64`
      the arm64 one, and any other machine fails without a file lookup. */
  lemma LinuxLibrary(system: string, machine: string, existing: set<string>)
    requires Lower(system) == "linux" && LibsDir in existing
    ensures Lower(machine) in {"x86_64", "amd64"} ==>
              (Passed(CheckLibraryFiles(true, system, machine, existing)) <==> "libs/linux/x64/libtraa.so" in existing)
    ensures Lower(machine) in {"aarch64", "arm64"} ==>
              (Passed(CheckLibraryFiles(true, system, machine, existing)) <==> "libs/linux/arm64/libtraa.so" in existing)
    ensures Lower(machine) !in {"x86_64", "amd64", "aarch64", "arm64"} ==>
              CheckLibraryFiles(true, system, machine, existing) == Unsupported("linux", Lower(machine))
  {
  }

  /** Only the one expected file matters: two directory listings that agree
      on `libs` and on the host's library give the same verdict, so an
      unsupported architecture or an unknown system looks at no library file
      at all. */
  lemma OnlyExpectedFileMatters(imported: bool, system: string, machine: string, existing: set<string>, existing': set<string>)
    requires (LibsDir in existing <==> LibsDir in existing')
    requires ExpectedLibrary(Lower(system), Lower(machine)).Library? ==>
               (ExpectedLibrary(Lower(system), Lower(machine)).path in existing <==>
                ExpectedLibrary(Lower(system), Lower(machine)).path in existing')
    ensures CheckLibraryFiles(imported, system, machine, existing) == CheckLibraryFiles(imported, system, machine, existing')
  {
  }

  /** An unrecognised system with a `libs` directory passes. */
  lemma UnknownSystemPasses(system: string, machine: string, existing: set<string>)
    requires Lower(system) !in {"darwin", "windows", "linux"} && LibsDir in existing
    ensures CheckLibraryFiles(true, system, machine, existing) == NotChecked
  {
  }

  /** The three self-checks, in the order `main` runs them. */
  datatype Check = Import | LibraryFiles | BasicFunctionality

  /** `main`: runs the import check, the library-file check and the basic
      functionality check one after the other, even after a failure, and
      returns 0 iff all three passed and 1 otherwise. The import check's and
      the functionality check's outcomes are parameters (they need the real
      package and the native library); `ran` lists the checks in the order
      they ran. */
  method RunSelfTest(importOk: bool, system: string, machine: string, existing: set<string>, functionalityOk: bool)
    returns (code: int, ran: seq<Check>)
    ensures ran == [Import, LibraryFiles, BasicFunctionality]
    ensures code == 0 <==>
              importOk && Passed(CheckLibraryFiles(importOk, system, machine, existing)) && functionalityOk
    ensures code == 0 || code == 1
  {
    var success := true;
    ran := [];

    ran := ran + [Import];
    if !importOk {
      success := false;
    }

    ran := ran + [LibraryFiles];
    var verdict := CheckLibraryFiles(importOk, system, machine, existing);
    if !Passed(verdict) {
      success := false;
    }

    ran := ran + [BasicFunctionality];
    if !functionalityOk {
      success := false;
    }

    if success {
      code := 0;
    } else {
      code := 1;
    }
  }
}
