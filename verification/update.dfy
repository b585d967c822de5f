/** The `update` builtin and the `init-dns` intercept (update/update.go).

    Each step of the update is one external process; whether a dependency is
    already on the search path is an oracle `installed`.
 */
module Update {
  import opened Process

  const AppRepo := "github.com/nicday/dev"

  /** The argument `installBrew` passes to `ruby -e`, as one argument vector entry. */
  const InstallerScript := "\"$(curl -fsSL https://raw.githubusercontent.com/Homebrew/install/master/install)\""

  /** The steps `ActionFn` may take. */
  datatype Step =
    | UpdateApp             // updateApp: go get -u
    | InstallBrew           // installBrew
    | BrewInstall(pkg: string)
    | SudoInitDNS           // sudoInitDNS

  /** The process each step launches. */
  function Call(s: Step): (e: Exec)
    ensures e.exe == "go" <==> s == UpdateApp
    ensures e.exe == "brew" <==> s.BrewInstall?
    ensures e.exe == "sudo" <==> s == SudoInitDNS
    ensures s.BrewInstall? ==> |e.args| > 0 && e.args[|e.args| - 1] == s.pkg
  {
    match s
    case UpdateApp => Exec("go", ["get", "-u", AppRepo])
    case InstallBrew => Exec("/usr/bin/ruby", ["-e", InstallerScript])
    case BrewInstall(pkg) => Exec("brew", ["install", pkg])
    case SudoInitDNS => Exec("sudo", ["dev", "init-dns"])
  }

  /** Position of a step in the fixed order update, brew, docker, docker-compose, DNS. */
  function Rank(s: Step): int {
    match s
    case UpdateApp => 0
    case InstallBrew => 1
    case BrewInstall(pkg) => if pkg == "docker" then 2 else if pkg == "docker-compose" then 3 else -1
    case SudoInitDNS => 4
  }

  /** The steps ActionFn attempts, given which tools are already installed. */
  function Plan(installed: string -> bool): (p: seq<Step>)
    ensures |p| >= 2 && p[0] == UpdateApp && p[|p| - 1] == SudoInitDNS
    ensures InstallBrew in p <==> !installed("brew")
    ensures BrewInstall("docker") in p <==> !installed("docker")
    ensures BrewInstall("docker-compose") in p <==> !installed("docker-compose")
  {
    [UpdateApp]
    + (if installed("brew") then [] else [InstallBrew])
    + (if installed("docker") then [] else [BrewInstall("docker")])
    + (if installed("docker-compose") then [] else [BrewInstall("docker-compose")])
    + [SudoInitDNS]
  }

  /** The plan keeps the fixed order update, brew, docker, docker-compose, DNS, and holds no other package. */
  lemma PlanInOrder(installed: string -> bool)
    ensures forall k :: 0 <= k < |Plan(installed)| ==> 0 <= Rank(Plan(installed)[k])
    ensures forall k :: 0 < k < |Plan(installed)| ==> Rank(Plan(installed)[k - 1]) < Rank(Plan(installed)[k])
  {
  }

  /** The processes of a list of steps, in order. */
  function Calls(steps: seq<Step>): (cs: seq<Exec>)
    ensures |cs| == |steps|
    ensures forall k :: 0 <= k < |steps| ==> cs[k] == Call(steps[k])
  {
    seq(|steps|, k requires 0 <= k < |steps| => Call(steps[k]))
  }

  /** ActionFn: run the planned steps in order, returning the first failure. */
  function ActionFn(runner: Runner, installed: string -> bool): (r: Run)
    ensures 1 <= |r.trace| <= |Plan(installed)|
    ensures r.trace == Calls(Plan(installed))[..|r.trace|]
    ensures r.trace[0] == Call(UpdateApp)
    ensures r.err == Nil ==> r.trace == Calls(Plan(installed))
    ensures r.err != Nil ==> !Succeeds(runner(r.trace[|r.trace| - 1]))
    ensures r.err != Nil ==> r.err == Failed(r.trace[|r.trace| - 1], runner(r.trace[|r.trace| - 1]))
  {
    Sequence(runner, Calls(Plan(installed)))
  }

  /** Distinct steps launch distinct processes. */
  lemma CallInjective(a: Step, b: Step)
    requires Call(a) == Call(b)
    ensures a == b
  {
    match a
    case UpdateApp =>
    case InstallBrew =>
    case BrewInstall(_) =>
      assert Call(a).args[1] == Call(b).args[1];
    case SudoInitDNS =>
  }

  /** No step is planned twice. */
  lemma PlanStepsDistinct(installed: string -> bool)
    ensures forall i, j :: 0 <= i < j < |Plan(installed)| ==> Plan(installed)[i] != Plan(installed)[j]
  {
    PlanInOrder(installed);
    var p := Plan(installed);
    forall i, j | 0 <= i < j < |p|
      ensures Rank(p[i]) < Rank(p[j])
    {
      RanksIncrease(p, i, j);
    }
  }

  /** Ranks that increase between neighbours increase between any two positions. */
  lemma {:induction false} RanksIncrease(p: seq<Step>, i: nat, j: nat)
    requires forall k :: 0 < k < |p| ==> Rank(p[k - 1]) < Rank(p[k])
    requires i < j < |p|
    ensures Rank(p[i]) < Rank(p[j])
    decreases j - i
  {
    if i + 1 < j {
      RanksIncrease(p, i + 1, j);
    }
  }

  /** Distinct steps launch distinct processes, so the calls of distinct steps are distinct. */
  lemma CallsOfDistinctSteps(p: seq<Step>)
    requires forall i, j :: 0 <= i < j < |p| ==> p[i] != p[j]
    ensures DistinctCalls(Calls(p))
  {
    forall i, j | 0 <= i < j < |p|
      ensures Calls(p)[i] != Calls(p)[j]
    {
      if Call(p[i]) == Call(p[j]) {
        CallInjective(p[i], p[j]);
      }
    }
  }

  /** The processes of a plan are pairwise distinct. */
  lemma PlanCallsDistinct(installed: string -> bool)
    ensures DistinctCalls(Calls(Plan(installed)))
  {
    PlanStepsDistinct(installed);
    CallsOfDistinctSteps(Plan(installed));
  }

  /** A planned step is launched exactly when every step planned before it succeeded. */
  lemma StepLaunchedIff(runner: Runner, installed: string -> bool, k: nat)
    requires k < |Plan(installed)|
    ensures Call(Plan(installed)[k]) in ActionFn(runner, installed).trace
            <==> forall j :: 0 <= j < k ==> Succeeds(runner(Call(Plan(installed)[j])))
  {
    PlanCallsDistinct(installed);
    SequenceLaunchesIff(runner, Calls(Plan(installed)), k);
  }

  /** A prefix of the calls of `p` never contains the call of a step outside `p`. */
  lemma UnplannedNotInPrefix(p: seq<Step>, t: seq<Exec>, s: Step)
    requires s !in p
    requires |t| <= |p| && t == Calls(p)[..|t|]
    ensures Call(s) !in t
  {
    forall i | 0 <= i < |t|
      ensures t[i] != Call(s)
    {
      assert t[i] == Call(p[i]);
    }
  }

  /** A step that is not planned is never launched. */
  lemma UnplannedNotLaunched(runner: Runner, installed: string -> bool, s: Step)
    requires s !in Plan(installed)
    ensures Call(s) !in ActionFn(runner, installed).trace
  {
    UnplannedNotInPrefix(Plan(installed), ActionFn(runner, installed).trace, s);
  }

  /** ActionFn reports success exactly when every planned step succeeded. */
  lemma ActionSucceedsIff(runner: Runner, installed: string -> bool)
    ensures ActionFn(runner, installed).err == Nil
            <==> forall k :: 0 <= k < |Plan(installed)| ==> Succeeds(runner(Call(Plan(installed)[k])))
  {
    var r := ActionFn(runner, installed);
    if r.err != Nil {
      assert r.trace[|r.trace| - 1] == Call(Plan(installed)[|r.trace| - 1]);
    }
  }

  /** If updating the tool fails, nothing else runs and that error is returned. */
  lemma UpdateFailureStops(runner: Runner, installed: string -> bool)
    requires !Succeeds(runner(Call(UpdateApp)))
    ensures ActionFn(runner, installed) == Run([Call(UpdateApp)], Failed(Call(UpdateApp), runner(Call(UpdateApp))))
  {
    SequenceReaches(runner, Calls(Plan(installed)), 1);
  }

  /** The package-manager installer runs exactly when brew is missing and the self-update succeeded. */
  lemma BrewInstallerRunsIff(runner: Runner, installed: string -> bool)
    ensures Call(InstallBrew) in ActionFn(runner, installed).trace
            <==> !installed("brew") && Succeeds(runner(Call(UpdateApp)))
  {
    if installed("brew") {
      UnplannedNotLaunched(runner, installed, InstallBrew);
    } else {
      assert Plan(installed)[1] == InstallBrew;
      StepLaunchedIff(runner, installed, 1);
    }
  }

  /** `brew install docker` runs exactly when docker is missing and every earlier step succeeded. */
  lemma DockerInstallRunsIff(runner: Runner, installed: string -> bool)
    ensures Call(BrewInstall("docker")) in ActionFn(runner, installed).trace
            <==> && !installed("docker")
                 && Succeeds(runner(Call(UpdateApp)))
                 && (installed("brew") || Succeeds(runner(Call(InstallBrew))))
  {
    var p := Plan(installed);
    if installed("docker") {
      UnplannedNotLaunched(runner, installed, BrewInstall("docker"));
    } else if installed("brew") {
      assert p[1] == BrewInstall("docker");
      StepLaunchedIff(runner, installed, 1);
    } else {
      assert p[1] == InstallBrew && p[2] == BrewInstall("docker");
      StepLaunchedIff(runner, installed, 2);
    }
  }

  /** `brew install docker-compose` runs exactly when docker-compose is missing and every earlier step succeeded. */
  lemma ComposeInstallRunsIff(runner: Runner, installed: string -> bool)
    ensures Call(BrewInstall("docker-compose")) in ActionFn(runner, installed).trace
            <==> && !installed("docker-compose")
                 && Succeeds(runner(Call(UpdateApp)))
                 && (installed("brew") || Succeeds(runner(Call(InstallBrew))))
                 && (installed("docker") || Succeeds(runner(Call(BrewInstall("docker")))))
  {
    var p := Plan(installed);
    if installed("docker-compose") {
      UnplannedNotLaunched(runner, installed, BrewInstall("docker-compose"));
    } else if installed("brew") && installed("docker") {
      assert p[1] == BrewInstall("docker-compose");
      StepLaunchedIff(runner, installed, 1);
    } else if installed("brew") {
      assert p[1] == BrewInstall("docker") && p[2] == BrewInstall("docker-compose");
      StepLaunchedIff(runner, installed, 2);
    } else if installed("docker") {
      assert p[1] == InstallBrew && p[2] == BrewInstall("docker-compose");
      StepLaunchedIff(runner, installed, 2);
    } else {
      assert p[1] == InstallBrew && p[2] == BrewInstall("docker") && p[3] == BrewInstall("docker-compose");
      StepLaunchedIff(runner, installed, 3);
    }
  }

  /** The DNS step is `sudo dev init-dns`; the update reports success exactly when
      that step was reached and succeeded. */
  lemma DnsStepDecidesSuccess(runner: Runner, installed: string -> bool)
    ensures Call(SudoInitDNS) == Exec("sudo", ["dev", "init-dns"])
    ensures ActionFn(runner, installed).err == Nil
            <==> Call(SudoInitDNS) in ActionFn(runner, installed).trace && Succeeds(runner(Call(SudoInitDNS)))
  {
    var p := Plan(installed);
    PlanCallsDistinct(installed);
    SequenceSucceedsIffLast(runner, Calls(p));
    assert Calls(p)[|p| - 1] == Call(SudoInitDNS);
  }

  /** CatchInitDNS: the invocation is the privileged `init-dns` helper. */
  predicate CatchInitDNS(argv: seq<string>) {
    |argv| > 1 && argv[1] == "init-dns"
  }
}
