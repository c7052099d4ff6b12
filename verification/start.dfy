/**
 * The start step of the action (`MinikubeStartHelper.start`): pick the VM
 * driver, CPU count and memory from the host platform and launch
 * `minikube start` with the ingress add-on in a fixed environment.
 */
module Start {
  import opened Wrappers
  import opened Effects

  /** What `start` chooses per platform; every field is a command-line string. */
  datatype Profile = Profile(driver: string, cpus: string, memory: string)

  const COMMAND := "minikube"
  const STARTING_MESSAGE := "Starting minikube..."
  const DRIVER_FLAG := "--vm-driver="
  const ADDONS_FLAG := "--addons=ingress"

  /** Lets a non-root user use the cluster and silences update prompts. */
  const START_ENV: map<string, string> :=
    map["CHANGE_MINIKUBE_NONE_USER" := "true", "MINIKUBE_WANTUPDATENOTIFICATION" := "false"]

  /** macOS runners have more CPUs and memory, and no docker. */
  const MAC_PROFILE := Profile("virtualbox", "3", "8192")
  const DEFAULT_PROFILE := Profile("docker", "2", "6500")

  /** The profile `start` settles on for a platform. */
  function ProfileFor(platform: string): Profile {
    if platform == "darwin" then MAC_PROFILE else DEFAULT_PROFILE
  }

  /** The macOS profile is chosen for `darwin` and for no other platform. */
  lemma ProfileForIff(platform: string)
    ensures ProfileFor(platform) == MAC_PROFILE <==> platform == "darwin"
    ensures ProfileFor(platform) == DEFAULT_PROFILE <==> platform != "darwin"
  {
  }

  /** The profile choice in `start`: defaults first, overwritten on macOS. */
  method SelectProfile(platform: string) returns (cpus: string, memory: string, vmDriver: string)
    ensures Profile(vmDriver, cpus, memory) == ProfileFor(platform)
  {
    cpus := "2";
    memory := "6500";
    vmDriver := "docker";
    // macOS runners have more CPUs and memory and need another driver.
    if platform == "darwin" {
      cpus := "3";
      memory := "8192";
      vmDriver := "virtualbox";
    }
  }

  /** The argument vector of `minikube start` for a profile. */
  function StartArgs(profile: Profile): seq<string> {
    ["start", DRIVER_FLAG + profile.driver, ADDONS_FLAG, "--cpus", profile.cpus, "--memory", profile.memory]
  }

  /** Reads a profile back from an argument vector of the shape `start` produces. */
  function ParseStartArgs(args: seq<string>): Option<Profile> {
    if |args| == 7 && args[0] == "start" && DRIVER_FLAG <= args[1] && args[2] == ADDONS_FLAG
       && args[3] == "--cpus" && args[5] == "--memory"
    then Some(Profile(args[1][|DRIVER_FLAG|..], args[4], args[6]))
    else None
  }

  /** The argument vector carries the whole profile: parsing it gives the profile back. */
  lemma StartArgsRoundTrip(profile: Profile)
    ensures ParseStartArgs(StartArgs(profile)) == Some(profile)
  {
  }

  /** Two platforms get the same argument vector only if they get the same profile. */
  lemma StartArgsInjective(p: string, q: string)
    ensures StartArgs(ProfileFor(p)) == StartArgs(ProfileFor(q)) <==> ProfileFor(p) == ProfileFor(q)
  {
  }

  /** Positions 0, 2, 3 and 5 of the argument vector are the same on every platform. */
  lemma FixedArgPositions(p: string, q: string)
    ensures |StartArgs(ProfileFor(p))| == |StartArgs(ProfileFor(q))| == 7
    ensures forall k :: k in {0, 2, 3, 5} ==> StartArgs(ProfileFor(p))[k] == StartArgs(ProfileFor(q))[k]
  {
  }

  /** The `minikube` invocation `start` makes on a platform. */
  function StartLaunch(platform: string): (launch: Action)
    ensures launch.Exec? && launch.command == "minikube" && |launch.args| == 7
    ensures launch.args[0] == "start" && launch.args[2] == "--addons=ingress"
    ensures launch.args[3] == "--cpus" && launch.args[5] == "--memory"
    ensures platform == "darwin" ==>
      launch.args[1] == "--vm-driver=virtualbox" && launch.args[4] == "3" && launch.args[6] == "8192"
    ensures platform != "darwin" ==>
      launch.args[1] == "--vm-driver=docker" && launch.args[4] == "2" && launch.args[6] == "6500"
    ensures launch.env.Keys == {"CHANGE_MINIKUBE_NONE_USER", "MINIKUBE_WANTUPDATENOTIFICATION"}
    ensures launch.env["CHANGE_MINIKUBE_NONE_USER"] == "true"
    ensures launch.env["MINIKUBE_WANTUPDATENOTIFICATION"] == "false"
  {
    Exec(COMMAND, StartArgs(ProfileFor(platform)), START_ENV)
  }

  /** `MinikubeStartHelper.start`, with `os.platform()` as input: log, then launch. */
  method Start(host: Host, platform: string)
    modifies host
    ensures host.trace == old(host.trace) + [Info(STARTING_MESSAGE), StartLaunch(platform)]
    ensures host.downloads == old(host.downloads)
  {
    host.LogInfo(STARTING_MESSAGE);
    var cpus, memory, vmDriver := SelectProfile(platform);
    host.Launch(COMMAND, ["start", DRIVER_FLAG + vmDriver, ADDONS_FLAG, "--cpus", cpus, "--memory", memory], START_ENV);
  }
}
