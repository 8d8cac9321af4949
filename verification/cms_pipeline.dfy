/**
 * The boolean stage logic of the CMS configurator: the fixed sequence of
 * configuration stages `do_cms_configurations` runs, how their outcomes are
 * aggregated, and the reboot-then-probe decision of `reboot_cms` and
 * `setup_cms_ntp`. Each stage talks to a remote machine; here its outcome is
 * an abstract input.
 */
module CmsPipeline {
  import opened Strings

  /** One configuration stage of a CMS instance. */
  datatype Stage =
    | SetupNtp
    | UpdateTranslations(cmInstance: string)
    | StartIds
    | SetupWebLm
    | Setup
    | InstallPackages
    | ConfigureDualIps
    | ConfigureFirewall
    | Start
    | StartWeb

  /** The stages after the per-CM translation updates, in the order they run. */
  const TrailingStages: seq<Stage> :=
    [StartIds, SetupWebLm, Setup, InstallPackages, ConfigureDualIps, ConfigureFirewall, Start, StartWeb]

  /** One translation update per CM instance, in the order the instances are listed. */
  function TranslationStages(cmInstances: seq<string>): (p: seq<Stage>)
    ensures |p| == |cmInstances|
    ensures forall i :: 0 <= i < |p| ==> p[i] == UpdateTranslations(cmInstances[i])
  {
    if |cmInstances| == 0 then []
    else [UpdateTranslations(cmInstances[0])] + TranslationStages(cmInstances[1..])
  }

  /** Every stage `do_cms_configurations` runs, in order: NTP first, the web server last. */
  function Plan(cmInstances: seq<string>): (p: seq<Stage>)
    ensures |p| == |cmInstances| + 9
    ensures p[0] == SetupNtp && p[|p| - 1] == StartWeb
    ensures forall i :: 0 <= i < |cmInstances| ==> p[1 + i] == UpdateTranslations(cmInstances[i])
    ensures p[1 + |cmInstances|..] == TrailingStages
  {
    var p := [SetupNtp] + TranslationStages(cmInstances) + TrailingStages;
    assert p[1 + |cmInstances|..] == TrailingStages;
    p
  }

  /** The outcome of each stage, in the order the stages run. */
  function Outcomes(stages: seq<Stage>, outcome: Stage -> bool): (r: seq<bool>)
    ensures |r| == |stages|
    ensures forall i :: 0 <= i < |r| ==> r[i] == outcome(stages[i])
  {
    if |stages| == 0 then [] else [outcome(stages[0])] + Outcomes(stages[1..], outcome)
  }

  /** Conjunction of a sequence of outcomes. */
  function AllTrue(bs: seq<bool>): (b: bool)
    ensures b <==> false !in bs
  {
    if |bs| == 0 then true
    else
      assert bs == [bs[0]] + bs[1..];
      bs[0] && AllTrue(bs[1..])
  }

  /** What a run of `do_cms_configurations` returns and leaves behind. */
  datatype Run = Run(rc: bool, called: seq<Stage>, recorded: seq<bool>)

  /**
   * do_cms_configurations: every stage runs whatever the earlier ones
   * returned, each outcome is appended to the caller's list, and the result
   * is true exactly when every stage succeeded.
   */
  function DoCmsConfigurations(cmInstances: seq<string>, outcome: Stage -> bool,
                               returnList: seq<bool>): (r: Run)
    ensures r.called == Plan(cmInstances)
    ensures |r.recorded| == |returnList| + |r.called|
    ensures r.recorded[..|returnList|] == returnList
    ensures forall i :: 0 <= i < |r.called| ==> r.recorded[|returnList| + i] == outcome(r.called[i])
    ensures r.rc <==> forall s :: s in r.called ==> outcome(s)
    ensures r.rc <==> false !in r.recorded[|returnList|..]
  {
    var plan := Plan(cmInstances);
    var outs := Outcomes(plan, outcome);
    var recorded := returnList + outs;
    assert recorded[|returnList|..] == outs;
    assert recorded[..|returnList|] == returnList;
    var rc := AllTrue(outs);
    assert rc ==> forall s :: s in plan ==> outcome(s) by {
      if rc {
        forall s | s in plan ensures outcome(s) {
          var i :| 0 <= i < |plan| && plan[i] == s;
          assert outs[i] == outcome(s);
        }
      }
    }
    assert (forall s :: s in plan ==> outcome(s)) ==> rc by {
      if !rc {
        var i :| 0 <= i < |outs| && outs[i] == false;
        assert plan[i] in plan;
      }
    }
    Run(rc, plan, recorded)
  }

  /** Every stage succeeding: true, and no False among the recorded outcomes. */
  lemma HappyPath(cmInstances: seq<string>, outcome: Stage -> bool)
    requires forall s :: outcome(s)
    ensures DoCmsConfigurations(cmInstances, outcome, []).rc
    ensures false !in DoCmsConfigurations(cmInstances, outcome, []).recorded
  {
    var r := DoCmsConfigurations(cmInstances, outcome, []);
    assert r.recorded[0..] == r.recorded;
  }

  /**
   * start_cms failing: the result is false, a False is recorded, and the
   * web server is still started afterwards.
   */
  lemma StartFailureStillStartsWeb(cmInstances: seq<string>, outcome: Stage -> bool,
                                   returnList: seq<bool>)
    requires !outcome(Start)
    ensures !DoCmsConfigurations(cmInstances, outcome, returnList).rc
    ensures false in DoCmsConfigurations(cmInstances, outcome, returnList).recorded
    ensures StartWeb in DoCmsConfigurations(cmInstances, outcome, returnList).called
  {
    var r := DoCmsConfigurations(cmInstances, outcome, returnList);
    var n := |cmInstances|;
    assert r.called[1 + n..] == TrailingStages;
    assert r.called[n + 7] == Start;
    assert r.recorded[|returnList| + n + 7] == false;
    assert r.called[n + 8] == StartWeb;
  }

  /** The single-CM run of the test suite: the stages in their exact order. */
  lemma SingleCmPlan()
    ensures Plan(["cm_instance_1"])
            == [SetupNtp, UpdateTranslations("cm_instance_1"), StartIds, SetupWebLm, Setup,
                InstallPackages, ConfigureDualIps, ConfigureFirewall, Start, StartWeb]
  {
  }

  /** What a virtual machine's record in the data store supplies. */
  datatype VmDetails = VmDetails(name: string, ip: string, user: string, password: string,
                                 rootUser: string, rootPassword: string, port: int)

  /** Attempts and seconds between attempts when waiting for SSH after a reboot. */
  const SshRetries: nat := 1000
  const SshInterval: nat := 20

  /** A request to wait until SSH answers on the machine. */
  datatype SshProbe = SshProbe(ip: string, port: int, user: string, password: string,
                               retries: nat, interval: nat)

  /** A request to reboot a machine in a datacenter. */
  datatype RebootRequest = RebootRequest(datacenter: string, vmName: string)

  datatype RebootRun = RebootRun(rc: bool, reboot: RebootRequest, probe: Option<SshProbe>)

  /**
   * reboot_cms: reboot the VM in the default datacenter, then wait for SSH
   * with the CMS user's credentials; true exactly when both succeed.
   */
  function RebootCms(vm: VmDetails, datacenter: string, rebootOk: bool, sshOk: bool): (r: RebootRun)
    ensures r.rc <==> rebootOk && sshOk
    ensures r.reboot == RebootRequest(datacenter, vm.name)
    ensures rebootOk ==> r.probe == Some(SshProbe(vm.ip, vm.port, vm.user, vm.password, 1000, 20))
    ensures r.probe.None? ==> !r.rc
  {
    var reboot := RebootRequest(datacenter, vm.name);
    if !rebootOk then RebootRun(false, reboot, None)
    else RebootRun(sshOk, reboot, Some(SshProbe(vm.ip, vm.port, vm.user, vm.password, SshRetries, SshInterval)))
  }

  /** Either step failing makes the reboot fail. */
  lemma RebootFailsIfEitherFails(vm: VmDetails, datacenter: string, rebootOk: bool, sshOk: bool)
    requires !rebootOk || !sshOk
    ensures !RebootCms(vm, datacenter, rebootOk, sshOk).rc
  {
  }

  datatype NtpRun = NtpRun(rc: bool, rebooted: bool)

  /**
   * setup_cms_ntp: configure NTP, then reboot the machine; true exactly
   * when both succeed.
   */
  function SetupCmsNtp(ntpOk: bool, rebootOk: bool): (r: NtpRun)
    ensures r.rc <==> ntpOk && rebootOk
    ensures r.rebooted <==> ntpOk
  {
    if ntpOk then NtpRun(rebootOk, true) else NtpRun(false, false)
  }
}
