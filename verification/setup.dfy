/**
 * The install step of the action (`MinikubeSetupHelper.setup`): decide from
 * the configured minikube version and the host platform whether anything is
 * installed, install kubectl on macOS, resolve the minikube download link
 * and install minikube to a fixed path.
 */
module Setup {
  import opened Wrappers
  import opened Text
  import opened Effects

  const MINIKUBE_OWN_PATH := "/usr/local/sbin/minikube"
  const KUBECTL_OWN_PATH := "/usr/local/sbin/kubectl"

  /*
   * The long URLs below are written as concatenations of short literals only
   * so that the verifier can see their characters (it cannot look inside a
   * long string literal); the pieces carry no meaning of their own.
   */

  /** The part of the download link template before its first placeholder. */
  const LINK_PREFIX := "https://" + "github.com/kubernetes/" + "minikube/releases/download/"
  /** The part of the template after `${VERSION}`. */
  const TEMPLATE_TAIL := "/minikube-" + "${PLATFORM}" + "-" + "${ARCH}"
  /**
   * The download link template
   * `https://github.com/kubernetes/minikube/releases/download/${VERSION}/minikube-${PLATFORM}-${ARCH}`;
   * its placeholders are filled in one after another.
   */
  const MINIKUBE_LINK := LINK_PREFIX + "${VERSION}" + TEMPLATE_TAIL

  /**
   * kubectl is pinned to one release, independent of the minikube version:
   * `https://dl.k8s.io/release/v1.21.1/bin/darwin/amd64/kubectl`.
   */
  const KUBECTL_LINK := "https://" + "dl.k8s.io/" + "release/v1.21.1/" + "bin/darwin/amd64/kubectl"

  const PREINSTALLED_MESSAGE := "Minikube version not specified. Will use pre-installed minikube version"
  const KUBECTL_MESSAGE := "Installing kubectl on macos"
  const KUBECTL_CHMOD_MESSAGE := "Make kubectl executable"
  const MINIKUBE_CHMOD_MESSAGE := "Make minikube executable"
  const INSTALLED_MESSAGE := "Minikube installed at " + MINIKUBE_OWN_PATH

  function VersionRequiredMessage(platform: string): string {
    "Need to specify minikube version as it is not installed by default on " + platform + " runners."
  }

  /** The progress message, with the stray leading quote the program prints. */
  function DownloadingMessage(version: string): string {
    "'Downloading minikube " + version + "..."
  }

  /** JavaScript truthiness of the configured version: absent and "" are both false. */
  predicate IsFalsy(version: Option<string>) {
    version.None? || version.value == ""
  }

  /** `os.arch().replace('x64', 'amd64')`. */
  function NormalizeArch(arch: string): string {
    ReplaceFirst(arch, "x64", "amd64")
  }

  /** The template with `${VERSION}`, then `${PLATFORM}`, then `${ARCH}` replaced (first occurrence each). */
  function ResolveLink(version: string, platform: string, arch: string): string {
    ReplaceFirst(ReplaceFirst(ReplaceFirst(MINIKUBE_LINK, "${VERSION}", version), "${PLATFORM}", platform), "${ARCH}", arch)
  }

  /** Whatever the inputs, the link points into minikube's GitHub releases. */
  lemma LinkPrefix(version: string, platform: string, arch: string)
    ensures LINK_PREFIX <= ResolveLink(version, platform, arch)
  {
    PrefixDollarFree();
    ReplaceKeepsPrefix(LINK_PREFIX, MINIKUBE_LINK, "${VERSION}", version);
    var s1 := ReplaceFirst(MINIKUBE_LINK, "${VERSION}", version);
    ReplaceKeepsPrefix(LINK_PREFIX, s1, "${PLATFORM}", platform);
    var s2 := ReplaceFirst(s1, "${PLATFORM}", platform);
    ReplaceKeepsPrefix(LINK_PREFIX, s2, "${ARCH}", arch);
  }

  /** The template has no `$` outside its placeholders. */
  lemma PrefixDollarFree()
    ensures '$' !in LINK_PREFIX && '$' !in "/minikube-" && '$' !in "-"
  {
  }

  /** The actions that install the file found at `url` as `dest`. */
  function Install(url: string, file: Handle, dest: string): seq<Action> {
    [Download(url, file), Chmod755(file), Move(file, dest)]
  }

  /** The kubectl block of `setup`: kubectl on macOS, downloaded as `file`. */
  function KubectlPlan(file: Handle): seq<Action> {
    [Info(KUBECTL_MESSAGE), Download(KUBECTL_LINK, file), Info(KUBECTL_CHMOD_MESSAGE),
     Chmod755(file), Move(file, KUBECTL_OWN_PATH)]
  }

  /** The minikube download and install of `setup`, downloaded as `file`. */
  function MinikubePlan(version: string, platform: string, arch: string, file: Handle): seq<Action> {
    [Info(DownloadingMessage(version)), Download(ResolveLink(version, platform, NormalizeArch(arch)), file),
     Info(MINIKUBE_CHMOD_MESSAGE), Chmod755(file), Move(file, MINIKUBE_OWN_PATH), Info(INSTALLED_MESSAGE)]
  }

  /**
   * Everything `setup` does, in order, when the host has made `next`
   * downloads before it.
   */
  function SetupPlan(version: Option<string>, platform: string, arch: string, next: nat): seq<Action> {
    if IsFalsy(version) then
      if platform == "linux" then [Info(PREINSTALLED_MESSAGE)]
      else [Fail(VersionRequiredMessage(platform))]
    else if platform == "darwin" then
      KubectlPlan(Handle(next)) + MinikubePlan(version.value, platform, arch, Handle(next + 1))
    else
      MinikubePlan(version.value, platform, arch, Handle(next))
  }

  /** `MinikubeSetupHelper.setup`, with `os.platform()` and `os.arch()` as inputs. */
  method Setup(host: Host, version: Option<string>, platform: string, arch: string)
    modifies host
    ensures host.trace == old(host.trace) + SetupPlan(version, platform, arch, old(host.downloads))
    ensures host.downloads == old(host.downloads) + |Downloads(SetupPlan(version, platform, arch, old(host.downloads)))|
  {
    if IsFalsy(version) {
      if platform == "linux" {
        host.LogInfo(PREINSTALLED_MESSAGE);
        DownloadsCons(Info(PREINSTALLED_MESSAGE), []);
        return;
      } else {
        host.SetFailed(VersionRequiredMessage(platform));
        DownloadsCons(Fail(VersionRequiredMessage(platform)), []);
        return;
      }
    }
    var minikubeVersion := version.value;
    if platform == "darwin" {
      InstallKubectl(host);
    }
    ghost var file := Handle(host.downloads);
    InstallMinikube(host, minikubeVersion, platform, arch);
    MinikubeDownloads(minikubeVersion, platform, arch, file);
    if platform == "darwin" {
      KubectlDownloads(Handle(old(host.downloads)));
      DownloadsAppend(KubectlPlan(Handle(old(host.downloads))), MinikubePlan(minikubeVersion, platform, arch, file));
    }
  }

  /** The kubectl block of `setup`: the kubectl install on macOS. */
  method InstallKubectl(host: Host)
    modifies host
    ensures host.trace == old(host.trace) + KubectlPlan(Handle(old(host.downloads)))
    ensures host.downloads == old(host.downloads) + 1
  {
    host.LogInfo(KUBECTL_MESSAGE);
    // Download it through the tool cache.
    var kubectlDownloadPath := host.DownloadTool(KUBECTL_LINK);
    host.LogInfo(KUBECTL_CHMOD_MESSAGE);
    host.MakeExecutable(kubectlDownloadPath);
    // Move kubectl to a folder on the PATH.
    host.MoveFile(kubectlDownloadPath, KUBECTL_OWN_PATH);
  }

  /** The minikube install of `setup`: resolve the link, download, make executable, move. */
  method InstallMinikube(host: Host, minikubeVersion: string, platform: string, arch: string)
    modifies host
    ensures host.trace == old(host.trace) + MinikubePlan(minikubeVersion, platform, arch, Handle(old(host.downloads)))
    ensures host.downloads == old(host.downloads) + 1
  {
    host.LogInfo(DownloadingMessage(minikubeVersion));

    var normalized := NormalizeArch(arch);
    var link := ResolveLink(minikubeVersion, platform, normalized);

    // Download it through the tool cache.
    var minikubeDownloadPath := host.DownloadTool(link);
    host.LogInfo(MINIKUBE_CHMOD_MESSAGE);
    host.MakeExecutable(minikubeDownloadPath);
    // Move minikube to a folder on the PATH.
    host.MoveFile(minikubeDownloadPath, MINIKUBE_OWN_PATH);
    host.LogInfo(INSTALLED_MESSAGE);
  }

  lemma KubectlDownloads(file: Handle)
    ensures Downloads(KubectlPlan(file)) == [Download(KUBECTL_LINK, file)]
  {
    var plan := KubectlPlan(file);
    DownloadsCons(plan[4], []);
    DownloadsCons(plan[3], [plan[4]]);
    DownloadsCons(plan[2], plan[3..]);
    DownloadsCons(plan[1], plan[2..]);
    DownloadsCons(plan[0], plan[1..]);
    assert plan == [plan[0]] + plan[1..];
  }

  lemma MinikubeDownloads(version: string, platform: string, arch: string, file: Handle)
    ensures Downloads(MinikubePlan(version, platform, arch, file)) == [MinikubePlan(version, platform, arch, file)[1]]
  {
    var plan := MinikubePlan(version, platform, arch, file);
    DownloadsCons(plan[5], []);
    DownloadsCons(plan[4], [plan[5]]);
    DownloadsCons(plan[3], plan[4..]);
    DownloadsCons(plan[2], plan[3..]);
    DownloadsCons(plan[1], plan[2..]);
    DownloadsCons(plan[0], plan[1..]);
    assert plan == [plan[0]] + plan[1..];
  }

  /* ---------- Views of a trace ---------- */

  /** The install steps of a trace, in order, without the log messages. */
  function InstallSteps(trace: seq<Action>): seq<Action>
  {
    if trace == [] then []
    else if IsInstallStep(trace[0]) then [trace[0]] + InstallSteps(trace[1..])
    else InstallSteps(trace[1..])
  }

  /** The downloads of a trace, in order. */
  function Downloads(trace: seq<Action>): seq<Action>
  {
    if trace == [] then []
    else if trace[0].Download? then [trace[0]] + Downloads(trace[1..])
    else Downloads(trace[1..])
  }

  lemma DownloadsCons(a: Action, rest: seq<Action>)
    ensures Downloads([a] + rest) == (if a.Download? then [a] else []) + Downloads(rest)
  {
  }

  lemma {:induction false} DownloadsAppend(a: seq<Action>, b: seq<Action>)
    ensures Downloads(a + b) == Downloads(a) + Downloads(b)
  {
    if a == [] {
      assert a + b == b;
    } else {
      assert (a + b)[1..] == a[1..] + b;
      DownloadsAppend(a[1..], b);
    }
  }

  /** Some action of the trace moves a file to `dest`. */
  predicate MovesTo(trace: seq<Action>, dest: string) {
    exists i :: 0 <= i < |trace| && trace[i].Move? && trace[i].dest == dest
  }

  /** Some action of the trace downloads from `url`. */
  predicate DownloadsFrom(trace: seq<Action>, url: string) {
    exists i :: 0 <= i < |trace| && trace[i].Download? && trace[i].url == url
  }

  /** Some action of the trace reports a failure. */
  predicate Fails(trace: seq<Action>) {
    exists i :: 0 <= i < |trace| && trace[i].Fail?
  }

  lemma InstallStepsCons(a: Action, rest: seq<Action>)
    ensures InstallSteps([a] + rest) == (if IsInstallStep(a) then [a] else []) + InstallSteps(rest)
  {
  }

  lemma {:induction false} InstallStepsAppend(a: seq<Action>, b: seq<Action>)
    ensures InstallSteps(a + b) == InstallSteps(a) + InstallSteps(b)
  {
    if a == [] {
      assert a + b == b;
    } else {
      assert (a + b)[1..] == a[1..] + b;
      InstallStepsAppend(a[1..], b);
    }
  }

  /* ---------- Architecture and link ---------- */

  lemma NormalizeX64()
    ensures NormalizeArch("x64") == "amd64"
  {
  }

  /** An architecture without `x64` in it, such as `arm64`, passes through unchanged. */
  lemma NormalizeWithoutX64(arch: string)
    requires !Contains(arch, "x64")
    ensures NormalizeArch(arch) == arch
  {
    ReplaceFirstAbsent(arch, "x64", "amd64");
  }

  lemma NormalizeArm64()
    ensures NormalizeArch("arm64") == "arm64"
  {
    AbsentHead("arm64", "x64");
    NormalizeWithoutX64("arm64");
  }

  /** The first `x64`, wherever it is, is rewritten; anything before it and any later `x64` stay. */
  lemma NormalizeFirstOnly(pre: string, post: string)
    requires NoneStartsIn(pre, "x64" + post, "x64")
    ensures NormalizeArch(pre + "x64" + post) == pre + "amd64" + post
  {
    assert pre + "x64" + post == pre + ("x64" + post);
    ReplaceInSuffix(pre, "x64" + post, "x64", "amd64");
    ReplaceAtStart("x64", post, "amd64");
  }

  /** A first `x64` right after an `x` is still found: `xx64` becomes `xamd64`. */
  lemma NormalizeAfterX()
    ensures NormalizeArch("xx64") == "xamd64"
  {
    assert "x" + ("x64" + "") == "xx64";
    assert !OccursAt("xx64", "x64", 0) by {
      assert "xx64"[0..3][1] == 'x';
    }
    NormalizeFirstOnly("x", "");
  }

  /** With `$`-free version and platform, each placeholder is filled in where the template has it. */
  lemma LinkClosedForm(version: string, platform: string, arch: string)
    requires '$' !in version && '$' !in platform && Verbatim(arch)
    ensures ResolveLink(version, platform, arch) == LINK_PREFIX + version + "/minikube-" + platform + "-" + arch
  {
    PrefixDollarFree();
    var pre2 := LINK_PREFIX + version + "/minikube-";
    var pre3 := pre2 + platform + "-";
    var r1 := ReplaceFirst(MINIKUBE_LINK, "${VERSION}", version);
    assert r1 == pre2 + "${PLATFORM}" + ("-" + "${ARCH}") by {
      ReplaceAfterHeadFree(LINK_PREFIX, "${VERSION}", TEMPLATE_TAIL, version);
    }
    var r2 := ReplaceFirst(r1, "${PLATFORM}", platform);
    assert r2 == pre3 + "${ARCH}" + "" by {
      ReplaceAfterHeadFree(pre2, "${PLATFORM}", "-" + "${ARCH}", platform);
    }
    assert ReplaceFirst(r2, "${ARCH}", arch) == pre3 + arch + "" by {
      ReplaceAfterHeadFree(pre3, "${ARCH}", "", arch);
    }
  }

  /** The case the action is built for: a release tag on a Linux x64 runner. */
  lemma LinuxX64Link(version: string)
    requires '$' !in version
    ensures ResolveLink(version, "linux", NormalizeArch("x64")) == LINK_PREFIX + version + "/minikube-linux-amd64"
  {
    NormalizeX64();
    LinkClosedForm(version, "linux", "amd64");
  }

  /**
   * A version that itself holds `${PLATFORM}` takes the platform in its
   * place, and the template's own `${PLATFORM}` survives into the link.
   */
  lemma PlaceholderInVersion(pre: string, post: string, platform: string, arch: string)
    requires '$' !in pre && '$' !in post && '$' !in platform && Verbatim(arch)
    ensures ResolveLink(pre + "${PLATFORM}" + post, platform, arch)
         == LINK_PREFIX + pre + platform + post + "/minikube-" + "${PLATFORM}" + "-" + arch
  {
    PrefixDollarFree();
    var version := pre + "${PLATFORM}" + post;
    var x := LINK_PREFIX + pre + platform + post + "/minikube-";
    var slot := "${PLATFORM}" + "-" + "${ARCH}";
    var r1 := ReplaceFirst(MINIKUBE_LINK, "${VERSION}", version);
    assert r1 == (LINK_PREFIX + pre) + "${PLATFORM}" + (post + TEMPLATE_TAIL) by {
      ReplaceAfterHeadFree(LINK_PREFIX, "${VERSION}", TEMPLATE_TAIL, version);
    }
    var r2 := ReplaceFirst(r1, "${PLATFORM}", platform);
    assert r2 == x + slot by {
      ReplaceAfterHeadFree(LINK_PREFIX + pre, "${PLATFORM}", post + TEMPLATE_TAIL, platform);
    }
    assert ReplaceFirst(r2, "${ARCH}", arch) == x + ("${PLATFORM}" + "-" + arch) by {
      HeadFreeNoneStartsIn(x, slot, "${ARCH}");
      ReplaceInSuffix(x, slot, "${ARCH}", arch);
      ArchAfterPlatformSlot(arch);
    }
  }

  /** The version fills the template's own `${VERSION}` slot, whatever it holds. */
  lemma FillVersion(version: string)
    requires Verbatim(version)
    ensures ReplaceFirst(MINIKUBE_LINK, "${VERSION}", version) == LINK_PREFIX + version + TEMPLATE_TAIL
  {
    PrefixDollarFree();
    ReplaceAfterHeadFree(LINK_PREFIX, "${VERSION}", TEMPLATE_TAIL, version);
  }

  /** An unfilled `${PLATFORM}` does not stop `${ARCH}` from being found after it. */
  lemma ArchAfterPlatformSlot(arch: string)
    ensures ReplaceFirst("${PLATFORM}" + "-" + "${ARCH}", "${ARCH}", arch) == "${PLATFORM}" + "-" + arch
  {
    var a := "${PLATFORM}" + "-";
    var s := a + "${ARCH}";
    assert a == "$" + "{PLATFORM}-";
    assert '$' !in "{PLATFORM}-";
    forall j: nat | j < |a|
      ensures !OccursAt(s, "${ARCH}", j)
    {
      if j + 7 <= |s| {
        if j == 0 {
          assert s[j..j + 7][2] == s[2] == 'P';
        } else {
          assert s[j..j + 7][0] == s[j] == "{PLATFORM}-"[j - 1];
        }
      }
    }
    ReplaceInSuffix(a, "${ARCH}", "${ARCH}", arch);
    ReplaceAtStart("${ARCH}", "", arch);
    assert "${ARCH}" + "" == "${ARCH}";
    assert arch + "" == arch;
  }

  /* ---------- What a setup run does ---------- */

  /** No version on Linux: one log line, nothing downloaded, changed or moved. */
  lemma NoVersionOnLinux(version: Option<string>, platform: string, arch: string, next: nat)
    requires IsFalsy(version) && platform == "linux"
    ensures SetupPlan(version, platform, arch, next) == [Info(PREINSTALLED_MESSAGE)]
    ensures InstallSteps(SetupPlan(version, platform, arch, next)) == []
  {
  }

  /** No version elsewhere: exactly one failure report and nothing else. */
  lemma NoVersionElsewhere(version: Option<string>, platform: string, arch: string, next: nat)
    requires IsFalsy(version) && platform != "linux"
    ensures SetupPlan(version, platform, arch, next) == [Fail(VersionRequiredMessage(platform))]
    ensures InstallSteps(SetupPlan(version, platform, arch, next)) == []
  {
  }

  /** A run reports failure exactly when no version is given off Linux. */
  lemma FailsIff(version: Option<string>, platform: string, arch: string, next: nat)
    ensures Fails(SetupPlan(version, platform, arch, next)) <==> IsFalsy(version) && platform != "linux"
  {
    var plan := SetupPlan(version, platform, arch, next);
    if IsFalsy(version) && platform != "linux" {
      assert plan[0].Fail?;
    } else {
      forall i | 0 <= i < |plan|
        ensures !plan[i].Fail?
      {
        if !IsFalsy(version) && platform == "darwin" {
          var k := KubectlPlan(Handle(next));
          if i >= |k| {
            assert plan[i] == MinikubePlan(version.value, platform, arch, Handle(next + 1))[i - |k|];
          }
        }
      }
    }
  }

  lemma KubectlInstallSteps(file: Handle)
    ensures InstallSteps(KubectlPlan(file)) == Install(KUBECTL_LINK, file, KUBECTL_OWN_PATH)
  {
    var plan := KubectlPlan(file);
    InstallStepsCons(plan[4], []);
    InstallStepsCons(plan[3], [plan[4]]);
    InstallStepsCons(plan[2], plan[3..]);
    InstallStepsCons(plan[1], plan[2..]);
    InstallStepsCons(plan[0], plan[1..]);
    assert plan == [plan[0]] + plan[1..];
  }

  lemma MinikubeInstallSteps(version: string, platform: string, arch: string, file: Handle)
    ensures InstallSteps(MinikubePlan(version, platform, arch, file))
         == Install(ResolveLink(version, platform, NormalizeArch(arch)), file, MINIKUBE_OWN_PATH)
  {
    var plan := MinikubePlan(version, platform, arch, file);
    InstallStepsCons(plan[5], []);
    InstallStepsCons(plan[4], [plan[5]]);
    InstallStepsCons(plan[3], plan[4..]);
    InstallStepsCons(plan[2], plan[3..]);
    InstallStepsCons(plan[1], plan[2..]);
    InstallStepsCons(plan[0], plan[1..]);
    assert plan == [plan[0]] + plan[1..];
  }

  /**
   * With a version on macOS: kubectl is downloaded, made executable and
   * moved into place, and only then is minikube, from its own download,
   * installed the same way.
   */
  lemma InstallsOnDarwin(version: Option<string>, arch: string, next: nat)
    requires !IsFalsy(version)
    ensures InstallSteps(SetupPlan(version, "darwin", arch, next))
         == Install(KUBECTL_LINK, Handle(next), KUBECTL_OWN_PATH)
          + Install(ResolveLink(version.value, "darwin", NormalizeArch(arch)), Handle(next + 1), MINIKUBE_OWN_PATH)
  {
    var minikube := MinikubePlan(version.value, "darwin", arch, Handle(next + 1));
    InstallStepsAppend(KubectlPlan(Handle(next)), minikube);
    KubectlInstallSteps(Handle(next));
    MinikubeInstallSteps(version.value, "darwin", arch, Handle(next + 1));
  }

  /** With a version anywhere but macOS: only minikube is downloaded, made executable and moved. */
  lemma InstallsElsewhere(version: Option<string>, platform: string, arch: string, next: nat)
    requires !IsFalsy(version) && platform != "darwin"
    ensures InstallSteps(SetupPlan(version, platform, arch, next))
         == Install(ResolveLink(version.value, platform, NormalizeArch(arch)), Handle(next), MINIKUBE_OWN_PATH)
  {
    MinikubeInstallSteps(version.value, platform, arch, Handle(next));
  }

  /** Every move in `steps` is preceded by a download into the moved handle and a chmod of it. */
  predicate EveryMovePrepared(steps: seq<Action>) {
    forall i :: 0 <= i < |steps| && steps[i].Move? ==>
      2 <= i && steps[i - 2].Download? && steps[i - 2].file == steps[i].file &&
      steps[i - 1] == Chmod755(steps[i].file)
  }

  /** Every file a run moves was downloaded into that same handle and made executable just before. */
  lemma MovesArePrepared(version: Option<string>, platform: string, arch: string, next: nat)
    ensures EveryMovePrepared(InstallSteps(SetupPlan(version, platform, arch, next)))
  {
    if IsFalsy(version) {
      if platform == "linux" {
        NoVersionOnLinux(version, platform, arch, next);
      } else {
        NoVersionElsewhere(version, platform, arch, next);
      }
    } else if platform == "darwin" {
      InstallsOnDarwin(version, arch, next);
    } else {
      InstallsElsewhere(version, platform, arch, next);
    }
  }

  /** kubectl is moved into place exactly when a version is given on macOS. */
  lemma KubectlMovedIff(version: Option<string>, platform: string, arch: string, next: nat)
    ensures MovesTo(SetupPlan(version, platform, arch, next), KUBECTL_OWN_PATH)
        <==> !IsFalsy(version) && platform == "darwin"
  {
    var plan := SetupPlan(version, platform, arch, next);
    if !IsFalsy(version) && platform == "darwin" {
      assert plan[4] == Move(Handle(next), KUBECTL_OWN_PATH);
    } else if !IsFalsy(version) {
      assert KUBECTL_OWN_PATH != MINIKUBE_OWN_PATH;
    }
  }

  /** kubectl is downloaded exactly when a version is given on macOS. */
  lemma KubectlDownloadedIff(version: Option<string>, platform: string, arch: string, next: nat)
    ensures DownloadsFrom(SetupPlan(version, platform, arch, next), KUBECTL_LINK)
        <==> !IsFalsy(version) && platform == "darwin"
  {
    var plan := SetupPlan(version, platform, arch, next);
    if !IsFalsy(version) {
      var link := ResolveLink(version.value, platform, NormalizeArch(arch));
      LinkPrefix(version.value, platform, NormalizeArch(arch));
      assert link != KUBECTL_LINK by {
        assert LINK_PREFIX[8] == 'g';
        assert KUBECTL_LINK[8] == "dl.k8s.io/"[0] == 'd';
      }
      if platform == "darwin" {
        assert plan[1] == Download(KUBECTL_LINK, Handle(next));
      }
    }
  }

  /** The closing log line appears only after minikube has been moved into place, as the run's last action. */
  lemma InstalledMessageLast(version: Option<string>, platform: string, arch: string, next: nat)
    ensures Info(INSTALLED_MESSAGE) in SetupPlan(version, platform, arch, next) <==> !IsFalsy(version)
    ensures forall i :: 0 <= i < |SetupPlan(version, platform, arch, next)| &&
                        SetupPlan(version, platform, arch, next)[i] == Info(INSTALLED_MESSAGE) ==>
              i == |SetupPlan(version, platform, arch, next)| - 1 &&
              SetupPlan(version, platform, arch, next)[i - 1].Move? &&
              SetupPlan(version, platform, arch, next)[i - 1].dest == MINIKUBE_OWN_PATH
  {
    var plan := SetupPlan(version, platform, arch, next);
    assert INSTALLED_MESSAGE[0] == 'M';
    if IsFalsy(version) {
      assert PREINSTALLED_MESSAGE != INSTALLED_MESSAGE;
    } else {
      assert DownloadingMessage(version.value)[0] == '\'';
      assert plan[|plan| - 1] == Info(INSTALLED_MESSAGE);
    }
  }
}
