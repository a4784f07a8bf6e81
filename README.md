# traa-py platform resolution, in Dafny

The `traa` Python bindings ship one native capture library per operating
system and CPU architecture. This project models the logic that picks the
library for a host:

- the wheel build script (`setup.py`) resolves a build target from
  `TARGET_PLATFORM` or from the host's `platform.system()` and
  `platform.machine()`. It maps that target to the package-data globs that
  select the native library, and through `PlatformSpecificWheel` to a wheel
  platform tag.
- the installation self-test (`tools/test_install.py`) computes the library
  path it expects for the running host. It passes iff the package imports,
  `libs` exists and, on Darwin, Windows and Linux, the expected library
  exists. An unrecognised system passes without a lookup, and an
  unsupported architecture fails. `main` combines its three checks into an
  exit code.

Modules:

- `Text`: ASCII lower-casing (`str.lower`).
- `Glob`: the `*` patterns of `package_data`.
- `Setup`: `setup.py`.
- `InstallCheck`: `tools/test_install.py`.
- `HostAgreement`: what a wheel built on a host selects through its
  `package_data` globs, compared with what
  the installation check on that host looks for.

The environment and the filesystem are parameters. An unset
`TARGET_PLATFORM` is the empty string. `os.path.exists` is membership in a
set of `/`-separated paths relative to the installed package directory.

## Model

| member | source | states |
|---|---|---|
| `Setup.TargetPlatform` | setup.py:46-58 | The result is lower case. A non-empty `TARGET_PLATFORM` gives its lower-cased value. Without it, the result is one of the six detectable targets or empty, and it is empty exactly when the system is not windows, darwin or linux. |
| `Setup.OverrideIgnoresHost` | setup.py:48-49 | A non-empty `TARGET_PLATFORM` decides the target whatever the host system and machine are. |
| `Setup.OverrideFixedPoint` | setup.py:48-58 | A resolved target fed back as `TARGET_PLATFORM` resolves to itself on any host. |
| `Setup.WindowsDetection` | setup.py:52-53 | On Windows, `amd64`/`x86_64` give `windows_x64` and every other machine, `arm64` included, gives `windows_x86`. |
| `Setup.DarwinDetection` | setup.py:54-55 | On Darwin, exactly `arm64` gives `darwin_arm64`; anything else gives `darwin_x64`. |
| `Setup.LinuxDetection` | setup.py:56-57 | On Linux, exactly `aarch64` gives `linux_arm64`; anything else, `arm64` included, gives `linux_x64`. |
| `Setup.PackageData` | setup.py:60-75 | An unknown target gives no globs; each of the seven known targets gives exactly one. |
| `Setup.TablesAgree` | setup.py:26-34 | The wheel-tag table and the package-data table (lines 62-70) have the same seven keys. |
| `Setup.SharedPackageData` | setup.py:62-70 | Two distinct targets share globs iff they are `windows_x64`/`windows_arm64` (x64 DLLs) or `darwin_x64`/`darwin_arm64` (one dylib). |
| `Setup.DetectedTargetsArePackaged` | setup.py:52-70 | Every target detected on a recognised system is a key of the wheel-tag table and of the package-data table, with exactly one glob, and detection never gives `windows_arm64`. The tag a wheel built on that host actually gets is decided by its own target; see `Setup.WheelTargetMapped`. |
| `Setup.WheelTarget` | setup.py:17-19 | The wheel's recorded target equals the resolved build target when `TARGET_PLATFORM` is set. Otherwise it is the lower-cased `"<system>_<machine>"`. |
| `Setup.WheelTargetMapped` | setup.py:17-37 | Without `TARGET_PLATFORM`, the wheel's target has a tag in the table iff the lower-cased (system, machine) is one of the seven pairs spelled like its keys. So a Windows `AMD64` host keeps the inherited tag. |
| `Setup.PlatformSpecificWheel.constructor` | setup.py:14-19 | Records the wheel target from the environment or the host. |
| `Setup.PlatformSpecificWheel.GetTag` | setup.py:21-39 | The python and ABI tags are kept. The platform tag is replaced by the table's tag iff the target is in the table; otherwise the inherited tag stays. |
| `Setup.PlatformSpecificWheel.FinalizeOptions` | setup.py:41-44 | The wheel is marked not pure and the target is unchanged. |
| `InstallCheck.ExpectedLibrary` | tools/test_install.py:49-87 | Darwin always expects `libs/darwin/libtraa.dylib`. Nothing is required exactly for unknown systems. An architecture is unsupported exactly for Windows machines outside amd64/x86_64/arm64/x86 and Linux machines outside x86_64/amd64/aarch64/arm64. |
| `InstallCheck.CheckLibraryFiles` | tools/test_install.py:32-93 | Passes iff the package imports, `libs` exists, and either the host's expected library exists or the system is unknown. An unsupported architecture always fails. A found or missing verdict names the expected path. |
| `InstallCheck.MissingLibsFails` | tools/test_install.py:41-43 | Without `libs`, the check fails on every host. |
| `InstallCheck.DarwinIgnoresMachine` | tools/test_install.py:49-55 | On Darwin, any machine passes iff `libs/darwin/libtraa.dylib` exists. |
| `InstallCheck.WindowsLibrary` | tools/test_install.py:57-71 | On Windows, amd64/x86_64/arm64 pass iff the x64 DLL exists and x86 passes iff the x86 DLL exists. Any other machine is `Unsupported`. |
| `InstallCheck.LinuxLibrary` | tools/test_install.py:73-87 | On Linux, x86_64/amd64 pass iff the x64 `.so` exists and aarch64/arm64 pass iff the arm64 `.so` exists. Any other machine is `Unsupported`. |
| `InstallCheck.OnlyExpectedFileMatters` | tools/test_install.py:45-89 | Two file sets that agree on `libs` and on the expected library give the same verdict. So no other file is looked at, and none at all for an unsupported architecture or an unknown system. |
| `InstallCheck.UnknownSystemPasses` | tools/test_install.py:45-89 | An unrecognised system with `libs` present passes without a library lookup. |
| `InstallCheck.RunSelfTest` | tools/test_install.py:124-145 | All three checks run in order even after a failure. The exit code is 0 iff all three passed, and 1 otherwise. |
| `HostAgreement.AsWrittenSelectsExpectedLibrary` | setup.py:46-75 | Without `TARGET_PLATFORM`, a wheel built on a supported host selects through `package_data` the library `tools/test_install.py` expects there. This holds for every host except an `arm64` Windows or Linux one. |
| `HostAgreement.AsWrittenMissesWindowsArm64` | setup.py:52-53 | On Windows `arm64`, the wheel selects `libs/windows/x86/*.dll` through `package_data`, which does not match the `libs/windows/x64/traa.dll` the installation check expects. |
| `HostAgreement.AsWrittenTagsWindowsArm64Wheel` | setup.py:17-37 | On the same Windows `arm64` host, the wheel records `windows_arm64` and is tagged `win_arm64`, while its build target `windows_x86` packages `libs/windows/x86/*.dll`. |
| `HostAgreement.AsWrittenMissesLinuxArm64` | setup.py:56-57 | On Linux `arm64`, the wheel selects `libs/linux/x64/*.so` through `package_data`, which does not match the `libs/linux/arm64/libtraa.so` the installation check expects. |
| `Setup.TargetPlatformCorrected` | setup.py:46-58 | Same as `get_target_platform` except on `arm64` Windows/Linux hosts without `TARGET_PLATFORM`, which give `windows_arm64`/`linux_arm64`. |
| `HostAgreement.CorrectedSelectsExpectedLibrary` | setup.py:46-75 | With corrected detection, every host the installation check supports gets a wheel whose `package_data` globs select the library the check expects. |

## Findings

| source | as written | input that shows it | evidently intended | confidence | as-written member | corrected member |
|---|---|---|---|---|---|---|
| setup.py:52-57 | Host detection maps Windows `arm64` to `windows_x86` and Linux `arm64` to `linux_x64`. | A plain `setup.py bdist_wheel` on the host with `TARGET_PLATFORM` unset, system `Windows`, machine `ARM64`. The wheel selects `libs/windows/x86/*.dll` through `package_data`, but `tools/test_install.py:59` expects `libs/windows/x64/traa.dll` on that host. The same wheel is tagged `win_arm64`, since its own target (setup.py:19) is `windows_arm64`. build_all.py:37 always sets `TARGET_PLATFORM`, so builds through it are not affected. The Linux half needs the machine string `arm64`; a 64-bit ARM Linux host usually reports `aarch64`, which setup.py:57 already maps to `linux_arm64`. | Windows `arm64` builds `windows_arm64`, which the table at setup.py:65 maps to the x64 DLLs. Linux `arm64` builds `linux_arm64`, as `tools/test_install.py:77` assumes. | medium; not executed | `HostAgreement.AsWrittenMissesWindowsArm64` | `HostAgreement.CorrectedSelectsExpectedLibrary` |

The rest of the model keeps the as-written `Setup.TargetPlatform` as the
model of `get_target_platform`. `Setup.TargetPlatformCorrected` is used only
for the agreement property.

## Left out

- Lower-casing is ASCII only. Python's `str.lower` also folds non-ASCII letters, and no platform name uses one.
- Paths are `/`-separated. `os.path.join` uses `\` on Windows, and setuptools rewrites `package_data` globs to the same convention.
- The `glob` matching of `package_data` is modelled by `Glob.Match`: `*` matches any run of characters except `/`. Character classes and `?` appear in no pattern here.
- `include_package_data=True` (setup.py:98) also ships package files that a `MANIFEST.in` or a left-over `traa.egg-info/SOURCES.txt` lists. `HostAgreement.Selects` covers only the `package_data` globs, so the arm64 mismatches hold for a clean tree with no `MANIFEST.in`.
- `Glob.Match` lets `*` match a name that starts with `.`, which Python's `glob` skips. The library names (`traa`, `libtraa`) do not start with `.`, so no stated property depends on this.
- `check_import` and `test_basic_functionality` (tools/test_install.py:20-30, 95-122) need the real package and the native library. `RunSelfTest` takes their outcomes as parameters. `CheckLibraryFiles` fails when the import fails, which is the `except` path at lines 91-93.
- Printing (`print_section`, the ✓/✗ messages), `traa.__file__` and `sys.exit` are left out.
- The superclass `bdist_wheel` behaviour is left out. Its `get_tag` result is a parameter of `GetTag`, and the purity flag its initialisation leaves is a constructor parameter.
- The module-level part of `setup.py` (reading `README.md` and the `setup(...)` call, lines 77-130) is left out.
- `build_all.py` is left out: it runs subprocesses and cleans directories.
- The example scripts and `tests/test_traa.py` are left out. The `traa` package they exercise (`Size`, `Rect`, `Error`, `ScreenSourceFlags`, enumeration and capture) is not part of this model.
