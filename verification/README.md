# setup-minikube-action, modelled in Dafny

This project models the two steps of the `setup-minikube-action` GitHub Action.

**Install step (`MinikubeSetupHelper.setup`).** The step reads the configured minikube version and the host platform.
- With no version, a Linux runner keeps its pre-installed minikube.
- With no version on any other platform, the run is reported as failed.
- With a version on macOS, the step first installs a pinned kubectl.
- With a version, it then resolves the minikube download link from a template, downloads the binary, makes it executable and moves it to `/usr/local/sbin/minikube`.

**Start step (`MinikubeStartHelper.start`).** The step chooses a VM driver, a CPU count and a memory size from the platform. It then launches `minikube start` with the ingress add-on in a fixed environment.

Every call to the outside world is one `Effects.Action` appended to the trace of an `Effects.Host` object. These calls are `core.info`, `core.setFailed`, `toolCache.downloadTool` and `execa`. A download yields an abstract `Handle`, numbered by the host's download counter. `os.platform()` and `os.arch()` are inputs.

Files:
- `wrappers.dfy`: the `Option` type.
- `text.dfy`: `ReplaceFirst`, which is JavaScript's `String.replace` with a string pattern (first occurrence only). Its specification is stated through the leftmost occurrence.
- `effects.dfy`: actions, handles and the `Host` class.
- `setup.dfy`: constants, `NormalizeArch`, `ResolveLink`, the specification function `SetupPlan`, the `Setup` method and the lemmas about them.
- `start.dfy`: the profile choice, the argument vector and its parser, the launch, and the `Start` method.

Notes on the code's behaviour:
- The kubectl install on macOS happens only when a version is given. Without a version, a macOS run only reports the failure (the early returns of `setup` in `src/minikube-setup-helper.ts` come before the kubectl block).
- "No version" means any JavaScript-falsy value, so the empty string counts too, not only an absent value.
- Arch normalisation rewrites the first `x64` substring anywhere in the architecture string. A string that is not exactly `x64` is not always passed through unchanged.
- The progress message is `'Downloading minikube <version>...`, with the leading apostrophe the code prints.
- `start` does not inspect the exit code of the launched process. It only awaits the process.

## Model

| member | source | states |
|---|---|---|
| Text.ReplaceFirstAbsent | src/minikube-setup-helper.ts:68-71 | `ReplaceFirst` (JavaScript's `replace` with a string pattern) with a pattern that does not occur returns the string unchanged |
| Text.ReplaceFirstAt | src/minikube-setup-helper.ts:68-71 | `ReplaceFirst` rewrites exactly the leftmost occurrence of the pattern and keeps everything before and after it |
| Text.ReplaceKeepsPrefix | src/minikube-setup-helper.ts:69-71 | a prefix that lacks the pattern's first character survives `ReplaceFirst` |
| Effects.Host.LogInfo | src/minikube-setup-helper.ts:46 | `core.info` appends one `Info` entry and changes nothing else |
| Effects.Host.SetFailed | src/minikube-setup-helper.ts:49 | `core.setFailed` appends one `Fail` entry and changes nothing else |
| Effects.Host.DownloadTool | src/minikube-setup-helper.ts:74 | each download appends a `Download` of the url into a new handle and bumps the download counter |
| Effects.Host.MakeExecutable | src/minikube-setup-helper.ts:78 | `sudo -E chmod 755 file` appends one `Chmod755` of that handle |
| Effects.Host.MoveFile | src/minikube-setup-helper.ts:81 | `sudo -E mv file dest` appends one `Move` of that handle to that path |
| Effects.Host.Launch | src/minikube-start-helper.ts:43-47 | `execa(command, args, options)` appends one `Exec` with that command, argument vector and environment |
| Setup.Setup | src/minikube-setup-helper.ts:38-84 | the trace grows by exactly `SetupPlan` of the inputs (the specification function for the whole of `setup`), and the download counter by the number of downloads in it |
| Setup.InstallKubectl | src/minikube-setup-helper.ts:53-63 | on macOS: log, download the pinned kubectl url, log, chmod that handle, move it to `/usr/local/sbin/kubectl` |
| Setup.InstallMinikube | src/minikube-setup-helper.ts:65-83 | log, download the resolved link, log, chmod that handle, move it to `/usr/local/sbin/minikube`, log the install path |
| Setup.NormalizeX64 | src/minikube-setup-helper.ts:68 | `NormalizeArch` maps `x64` to `amd64` |
| Setup.NormalizeWithoutX64 | src/minikube-setup-helper.ts:68 | `NormalizeArch` leaves an architecture without `x64` in it unchanged |
| Setup.NormalizeArm64 | src/minikube-setup-helper.ts:68 | `NormalizeArch` leaves `arm64` unchanged |
| Setup.NormalizeFirstOnly | src/minikube-setup-helper.ts:68 | `NormalizeArch` rewrites the first `x64`, wherever it starts, to `amd64`; what comes before it and any later `x64` stay |
| Setup.NormalizeAfterX | src/minikube-setup-helper.ts:68 | `xx64` becomes `xamd64`: an `x` before the first `x64` does not hide it |
| Setup.LinkPrefix | src/minikube-setup-helper.ts:35-36 | for any version, platform and arch, `ResolveLink` (the three chained replaces) starts with the minikube GitHub releases prefix |
| Setup.FillVersion | src/minikube-setup-helper.ts:69 | a version without JavaScript's special `$` patterns (`Text.Verbatim`) goes into the template's own `${VERSION}` slot, whatever else it holds |
| Setup.LinkClosedForm | src/minikube-setup-helper.ts:69-71 | with a `$`-free version and platform and an arch without special `$` patterns, `ResolveLink` is prefix + version + `/minikube-` + platform + `-` + arch |
| Setup.LinuxX64Link | src/minikube-setup-helper.ts:68-71 | on Linux x64 `ResolveLink` of the normalised arch ends in `/<version>/minikube-linux-amd64` |
| Setup.PlaceholderInVersion | src/minikube-setup-helper.ts:69-71 | in `ResolveLink`, a version containing `${PLATFORM}` receives the platform, the template's `${PLATFORM}` stays in the link, and the arch still fills `${ARCH}` |
| Setup.NoVersionOnLinux | src/minikube-setup-helper.ts:44-47 | no version on Linux: `SetupPlan` is one info line, with no download, chmod or move |
| Setup.NoVersionElsewhere | src/minikube-setup-helper.ts:48-51 | no version off Linux: `SetupPlan` is one failure report, with no download, chmod or move |
| Setup.FailsIff | src/minikube-setup-helper.ts:44-51 | `SetupPlan` reports failure if and only if no version is given and the platform is not Linux |
| Setup.InstallsOnDarwin | src/minikube-setup-helper.ts:53-81 | with a version on macOS, the install steps of `SetupPlan` are kubectl's download/chmod/move and then minikube's, each on its own handle |
| Setup.InstallsElsewhere | src/minikube-setup-helper.ts:65-81 | with a version elsewhere, the install steps of `SetupPlan` are exactly minikube's download, chmod and move of one handle |
| Setup.MovesArePrepared | src/minikube-setup-helper.ts:56-81 | in `SetupPlan`, every moved file was downloaded into that handle and chmodded just before the move |
| Setup.KubectlMovedIff | src/minikube-setup-helper.ts:53-63 | `SetupPlan` moves something to `/usr/local/sbin/kubectl` if and only if a version is given on macOS |
| Setup.KubectlDownloadedIff | src/minikube-setup-helper.ts:53-58 | `SetupPlan` downloads the pinned kubectl url if and only if a version is given on macOS |
| Setup.InstalledMessageLast | src/minikube-setup-helper.ts:81-83 | in `SetupPlan`, the install-path message appears if and only if a version is given, and only as the last action, right after the move to `/usr/local/sbin/minikube` |
| Start.ProfileForIff | src/minikube-start-helper.ts:33-41 | `ProfileFor` chooses the virtualbox/3/8192 profile for `darwin` and only for it; every other platform gets docker/2/6500 |
| Start.SelectProfile | src/minikube-start-helper.ts:33-41 | the defaults, overwritten on macOS, end up as `ProfileFor` of the platform |
| Start.StartArgsRoundTrip | src/minikube-start-helper.ts:45 | the profile can be read back from `StartArgs`, the argument vector |
| Start.StartArgsInjective | src/minikube-start-helper.ts:45 | two platforms get the same `StartArgs` vector only when they get the same profile |
| Start.FixedArgPositions | src/minikube-start-helper.ts:43-45 | the `StartArgs` vector has 7 entries, and positions 0, 2, 3 and 5 are the same on every platform |
| Start.StartLaunch | src/minikube-start-helper.ts:25-47 | command `minikube`; args `start`, the driver flag, `--addons=ingress`, `--cpus`, cpus, `--memory`, memory, chosen by platform; env exactly `CHANGE_MINIKUBE_NONE_USER=true`, `MINIKUBE_WANTUPDATENOTIFICATION=false` |
| Start.Start | src/minikube-start-helper.ts:23-47 | `Starting minikube...` is logged, then `minikube` is launched with that platform's invocation; nothing else happens |

## Left out

- Text.ReplaceFirst: inserts the replacement verbatim, while JavaScript expands the special patterns `$$`, `$&`, `` $` `` and `$'` in it. The two agree exactly on replacements without those patterns (`Text.Verbatim`). Setup.FillVersion, Setup.LinkClosedForm, Setup.LinuxX64Link and Setup.PlaceholderInVersion only speak of such replacements. Setup.LinkPrefix, Setup.Setup and the lemmas about `SetupPlan` hold of the model for every input; for a version or arch with those patterns (say `v$&`) the code's link differs from the model's.
- Network downloads and the tool cache are I/O. A download is one trace entry, and its result is an abstract handle numbered by a counter. The real handle is a fresh temporary path.
- Running `chmod` and `mv` through `sudo -E` is process and privilege handling. Each call is one trace entry.
- No modelled call can fail. Rejected promises from `downloadTool` or `execa` simply propagate in the code, and the model does not cover that path. This includes a non-zero exit of `minikube start`.
- `core.setFailed` only marks the run as failed. Its effect on the GitHub Actions job is not modelled.
- The piping of the child's stdout and stderr and the await on the process are asynchronous streaming. They are not modelled.
- `execa` merges the given environment with the parent's. The model records only the two variables the code sets.
- The inversify injection and the `Configuration` class are not part of this model. The version is an `Option<string>` input.
- The constants `MINIKUBE_VERSION` and `MINIKUBE_VERSION_DEFAULT` are never used by the code.
