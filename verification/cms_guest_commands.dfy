/**
 * The guest-side command lists the CMS deploy helper hands to the VMware
 * collaborator (`run_vm_commands`): network, account, timezone and EASG
 * set-up, and the order `setup_cms` performs them in. Running the commands
 * is the collaborator's business; the model builds the requests.
 */
module CmsGuestCommands {
  import opened Strings
  import opened AssocLists
  import CmsPipeline

  /** One guest command: program, its argument string, and the guest login that runs it. */
  datatype GuestCommand = GuestCommand(program: string, arguments: string, user: string, password: string)

  /** The `args` record: an optional description and the commands, in order. */
  datatype CommandArgs = CommandArgs(desc: Option<string>, cmds: seq<GuestCommand>)

  /** One `run_vm_commands(site, vm, args, logger, wait_for_done)` request. */
  datatype VmCommandRequest = VmCommandRequest(site: string, vmName: string, args: CommandArgs,
                                               waitForDone: bool)

  const Shell: string := "/bin/sh"
  const NetworkConfigFile: string := "/tmp/cms_network.cfg"
  const NetconfigTool: string := "/cms/toolsbin/netconfig"
  const NetworkDesc: string := "cmssvc-setup cms network"
  const ChpasswdTool: string := "/usr/sbin/chpasswd"
  const LinkTool: string := "/bin/ln"

  // ---------------------------------------------------------------- network

  /** The shell argument that appends one `KEY=VALUE` line to the network file. */
  function EchoArgument(key: string, value: string): string {
    "-c \"echo " + key + "=" + value + " >> " + NetworkConfigFile + "\""
  }

  const EchoPrefix: string := "-c \"echo "
  const EchoSuffix: string := " >> " + NetworkConfigFile + "\""

  /** The `KEY=VALUE` line an echo argument writes, recovered from the argument. */
  function AssignmentOf(arg: string): (line: Option<string>)
    ensures line.Some? ==> arg == EchoPrefix + line.value + EchoSuffix
  {
    if |EchoPrefix| + |EchoSuffix| <= |arg| && StartsWith(arg, EchoPrefix) && EndsWith(arg, EchoSuffix) then
      var line := arg[|EchoPrefix|..|arg| - |EchoSuffix|];
      assert arg == arg[..|EchoPrefix|] + line + arg[|arg| - |EchoSuffix|..];
      Some(line)
    else None
  }

  /** The echo argument carries exactly the `KEY=VALUE` line, so it can be read back. */
  lemma EchoArgumentRoundTrip(key: string, value: string)
    ensures AssignmentOf(EchoArgument(key, value)) == Some(key + "=" + value)
  {
    var line := key + "=" + value;
    var arg := EchoArgument(key, value);
    assert arg == EchoPrefix + line + EchoSuffix;
    assert arg[..|EchoPrefix|] == EchoPrefix;
    assert arg[|arg| - |EchoSuffix|..] == EchoSuffix;
    assert arg[|EchoPrefix|..|arg| - |EchoSuffix|] == line;
  }

  function EchoCommands(params: seq<(string, string)>, rootUser: string, rootPassword: string)
    : (cmds: seq<GuestCommand>)
    ensures |cmds| == |params|
    ensures forall i :: 0 <= i < |params| ==>
              cmds[i] == GuestCommand(Shell, EchoArgument(params[i].0, params[i].1), rootUser, rootPassword)
  {
    if |params| == 0 then []
    else [GuestCommand(Shell, EchoArgument(params[0].0, params[0].1), rootUser, rootPassword)]
         + EchoCommands(params[1..], rootUser, rootPassword)
  }

  /**
   * setup_cms_network: one echo per parameter, in the dictionary's order,
   * then a single netconfig run on the assembled file, all as root.
   */
  function SetupCmsNetwork(site: string, vmName: string, rootUser: string, rootPassword: string,
                           params: seq<(string, string)>): (r: VmCommandRequest)
    ensures r.site == site && r.vmName == vmName && r.waitForDone
    ensures r.args.desc == Some(NetworkDesc)
    ensures |r.args.cmds| == |params| + 1
    ensures forall i :: 0 <= i < |params| ==>
              && r.args.cmds[i].program == Shell
              && AssignmentOf(r.args.cmds[i].arguments) == Some(params[i].0 + "=" + params[i].1)
    ensures r.args.cmds[|params|] == GuestCommand(NetconfigTool, NetworkConfigFile, rootUser, rootPassword)
    ensures forall c :: c in r.args.cmds ==> c.user == rootUser && c.password == rootPassword
    ensures forall i :: 0 <= i < |params| ==> r.args.cmds[i].program != NetconfigTool
  {
    var cmds := EchoCommands(params, rootUser, rootPassword)
                + [GuestCommand(NetconfigTool, NetworkConfigFile, rootUser, rootPassword)];
    forall i | 0 <= i < |params|
      ensures AssignmentOf(cmds[i].arguments) == Some(params[i].0 + "=" + params[i].1)
    {
      EchoArgumentRoundTrip(params[i].0, params[i].1);
    }
    VmCommandRequest(site, vmName, CommandArgs(Some(NetworkDesc), cmds), true)
  }

  /** What the data store supplies for a CMS VM's network. */
  datatype NetworkLookups = NetworkLookups(hostname: string, ipAddress1: string, domain: string,
                                           netmask: string, gateway: string, dns1: string,
                                           searchList: string)

  const NetworkKeys: seq<string> :=
    ["INTERFACE", "HOSTNAME", "IPADDR", "DOMAIN", "NETMASK", "GATEWAY", "DNS1", "SEARCH"]

  const Interface: string := "eth0"

  /** get_cms_network_parameters: the eight network keys, the interface fixed to eth0. */
  function GetCmsNetworkParameters(l: NetworkLookups): (params: seq<(string, string)>)
    ensures Keys(params) == NetworkKeys
    ensures DistinctKeys(params)
  {
    var params := [("INTERFACE", Interface), ("HOSTNAME", l.hostname), ("IPADDR", l.ipAddress1),
                   ("DOMAIN", l.domain), ("NETMASK", l.netmask), ("GATEWAY", l.gateway),
                   ("DNS1", l.dns1), ("SEARCH", l.searchList)];
    assert Keys(params) == NetworkKeys;
    NetworkKeysDistinct();
    params
  }

  lemma NetworkKeysDistinct()
    ensures forall i, j :: 0 <= i < j < |NetworkKeys| ==> NetworkKeys[i] != NetworkKeys[j]
  {
    forall i, j | 0 <= i < j < |NetworkKeys| ensures NetworkKeys[i] != NetworkKeys[j] {
      if |NetworkKeys[i]| == |NetworkKeys[j]| {
        MismatchNotPrefix(NetworkKeys[i], NetworkKeys[j], 0);
      }
    }
  }

  /** Each network key reads back the value the data store supplied for it. */
  lemma NetworkParameterLookups(l: NetworkLookups)
    ensures var params := GetCmsNetworkParameters(l);
            && Lookup(params, "INTERFACE") == Some("eth0")
            && Lookup(params, "HOSTNAME") == Some(l.hostname)
            && Lookup(params, "IPADDR") == Some(l.ipAddress1)
            && Lookup(params, "DOMAIN") == Some(l.domain)
            && Lookup(params, "NETMASK") == Some(l.netmask)
            && Lookup(params, "GATEWAY") == Some(l.gateway)
            && Lookup(params, "DNS1") == Some(l.dns1)
            && Lookup(params, "SEARCH") == Some(l.searchList)
  {
    var params := GetCmsNetworkParameters(l);
    LookupAt(params, 0);
    LookupAt(params, 1);
    LookupAt(params, 2);
    LookupAt(params, 3);
    LookupAt(params, 4);
    LookupAt(params, 5);
    LookupAt(params, 6);
    LookupAt(params, 7);
  }

  // ---------------------------------------------------------------- accounts

  /** The shell argument that sets one account's password through chpasswd. */
  function ChpasswdArgument(user: string, password: string): string {
    "-c 'echo " + user + ":" + password + " | " + ChpasswdTool + "'"
  }

  const ChpasswdPrefix: string := "-c 'echo "
  const ChpasswdSuffix: string := " | " + ChpasswdTool + "'"

  /** The `user:password` line a chpasswd argument feeds in, recovered from the argument. */
  function CredentialLineOf(arg: string): (line: Option<string>)
    ensures line.Some? ==> arg == ChpasswdPrefix + line.value + ChpasswdSuffix
  {
    if |ChpasswdPrefix| + |ChpasswdSuffix| <= |arg| && StartsWith(arg, ChpasswdPrefix)
       && EndsWith(arg, ChpasswdSuffix) then
      var line := arg[|ChpasswdPrefix|..|arg| - |ChpasswdSuffix|];
      assert arg == arg[..|ChpasswdPrefix|] + line + arg[|arg| - |ChpasswdSuffix|..];
      Some(line)
    else None
  }

  /** The chpasswd argument feeds exactly `user:password`, so it can be read back. */
  lemma ChpasswdArgumentRoundTrip(user: string, password: string)
    ensures CredentialLineOf(ChpasswdArgument(user, password)) == Some(user + ":" + password)
  {
    var line := user + ":" + password;
    var arg := ChpasswdArgument(user, password);
    assert arg == ChpasswdPrefix + line + ChpasswdSuffix;
    assert arg[..|ChpasswdPrefix|] == ChpasswdPrefix;
    assert arg[|arg| - |ChpasswdSuffix|..] == ChpasswdSuffix;
    assert arg[|ChpasswdPrefix|..|arg| - |ChpasswdSuffix|] == line;
  }

  /** The chpasswd argument spelled out with the tool's full path. */
  lemma ChpasswdArgumentSpelled(user: string, password: string)
    ensures ChpasswdArgument(user, password) == "-c 'echo " + user + ":" + password + " | /usr/sbin/chpasswd'"
  {
  }

  /**
   * setup_cms_user: log in as the given root account and set the account's
   * password with chpasswd.
   */
  function SetupCmsUser(site: string, vmName: string, rootUser: string, rootPassword: string,
                        user: string, password: string, wait: bool): (r: VmCommandRequest)
    ensures r.site == site && r.vmName == vmName && r.waitForDone == wait
    ensures 0 < |r.args.cmds|
    ensures r.args.cmds[0].program == Shell
    ensures r.args.cmds[0].arguments == "-c 'echo " + user + ":" + password + " | /usr/sbin/chpasswd'"
    ensures CredentialLineOf(r.args.cmds[0].arguments) == Some(user + ":" + password)
    ensures r.args.cmds[0].user == rootUser && r.args.cmds[0].password == rootPassword
  {
    ChpasswdArgumentSpelled(user, password);
    ChpasswdArgumentRoundTrip(user, password);
    VmCommandRequest(site, vmName,
                     CommandArgs(None, [GuestCommand(Shell, ChpasswdArgument(user, password), rootUser, rootPassword)]),
                     wait)
  }

  /** Seconds setup_cms_root_user pauses after setting the root password. */
  const RootUserPause: nat := 10

  datatype RootUserSetup = RootUserSetup(request: VmCommandRequest, sleepSeconds: nat)

  /**
   * setup_cms_root_user: set root's password, logging in as root with an
   * empty password and not waiting for completion, then pause.
   */
  function SetupCmsRootUser(site: string, vmName: string, rootPassword: string): (r: RootUserSetup)
    ensures r.request == SetupCmsUser(site, vmName, "root", "", "root", rootPassword, false)
    ensures r.request.args.cmds[0].arguments == "-c 'echo root:" + rootPassword + " | /usr/sbin/chpasswd'"
    ensures r.sleepSeconds == 10
  {
    RootUserSetup(SetupCmsUser(site, vmName, "root", "", "root", rootPassword, false), RootUserPause)
  }

  // ---------------------------------------------------------------- timezone

  const ZoneLinkPrefix: string := "-s /usr/share/zoneinfo/"
  const ZoneLinkSuffix: string := " /etc/localtime"

  /** The zoneinfo entry an `ln` argument links, recovered from the argument. */
  function LinkedZone(arg: string): (zone: Option<string>)
    ensures zone.Some? ==> arg == ZoneLinkPrefix + zone.value + ZoneLinkSuffix
  {
    if |ZoneLinkPrefix| + |ZoneLinkSuffix| <= |arg| && StartsWith(arg, ZoneLinkPrefix)
       && EndsWith(arg, ZoneLinkSuffix) then
      var zone := arg[|ZoneLinkPrefix|..|arg| - |ZoneLinkSuffix|];
      assert arg == arg[..|ZoneLinkPrefix|] + zone + arg[|arg| - |ZoneLinkSuffix|..];
      Some(zone)
    else None
  }

  /**
   * setup_cms_timezone: as root, clear the old local-time link with
   * `preparation` (a command this model takes as given), then link the
   * zoneinfo entry in its place.
   */
  function SetupCmsTimezone(site: string, vmName: string, rootUser: string, rootPassword: string,
                            timezone: string, preparation: GuestCommand): (r: VmCommandRequest)
    ensures r.site == site && r.vmName == vmName && r.waitForDone
    ensures 1 < |r.args.cmds|
    ensures r.args.cmds[1].program == "/bin/ln"
    ensures LinkedZone(r.args.cmds[1].arguments) == Some(timezone)
    ensures r.args.cmds[1].user == rootUser && r.args.cmds[1].password == rootPassword
  {
    var arg := ZoneLinkPrefix + timezone + ZoneLinkSuffix;
    assert arg[..|ZoneLinkPrefix|] == ZoneLinkPrefix;
    assert arg[|arg| - |ZoneLinkSuffix|..] == ZoneLinkSuffix;
    assert arg[|ZoneLinkPrefix|..|arg| - |ZoneLinkSuffix|] == timezone;
    VmCommandRequest(site, vmName,
                     CommandArgs(None, [preparation, GuestCommand(LinkTool, arg, rootUser, rootPassword)]),
                     true)
  }

  // ---------------------------------------------------------------- EASG

  const EasgCommand: string := "EASGManage -f --enableEASG"

  /** A `run_pexpect_command_on_remote_with_root` request. */
  datatype RootSessionCall = RootSessionCall(host: string, user: string, password: string,
                                             rootUser: string, rootPassword: string, command: string,
                                             initialResponse: string, userPrompt: string,
                                             rootPrompt: string)

  datatype EasgRun = EasgRun(rc: bool, call: RootSessionCall)

  /**
   * setup_cms_easg: enable EASG from a root shell reached through the CMS
   * user's login; the result is the session's success flag.
   */
  function SetupCmsEasg(vm: CmsPipeline.VmDetails, sessionOk: bool): (r: EasgRun)
    ensures r.rc == sessionOk
    ensures r.call == RootSessionCall(vm.ip, vm.user, vm.password, vm.rootUser, vm.rootPassword,
                                      "EASGManage -f --enableEASG", "", "$", "#")
  {
    EasgRun(sessionOk, RootSessionCall(vm.ip, vm.user, vm.password, vm.rootUser, vm.rootPassword,
                                       EasgCommand, "", "$", "#"))
  }

  // ---------------------------------------------------------------- setup_cms

  /** The accounts and settings setup_cms reads from the data store. */
  datatype CmsSettings = CmsSettings(rootUser: string, rootPassword: string, cliUser: string,
                                     cliPassword: string, adminUser: string, adminPassword: string,
                                     timezone: string, easgFlag: string)

  /** One set-up step of setup_cms, with the arguments it is called with. */
  datatype SetupAction =
    | RootUser(site: string, vmName: string, rootPassword: string)
    | User(site: string, vmName: string, rootUser: string, rootPassword: string,
           user: string, password: string)
    | Timezone(site: string, vmName: string, rootUser: string, rootPassword: string, timezone: string)
    | Network(site: string, vmName: string, rootUser: string, rootPassword: string,
              params: seq<(string, string)>)
    | Easg(customerNumber: int, instanceName: string, flag: string)

  /**
   * setup_cms: root password first, then the CLI account before the admin
   * account, then timezone, network and EASG; every account step logs in
   * with the root credentials.
   */
  function SetupCms(site: string, vmName: string, instanceName: string, customerNumber: int,
                    s: CmsSettings, params: seq<(string, string)>): (actions: seq<SetupAction>)
    ensures |actions| == 6
    ensures actions[0] == RootUser(site, vmName, s.rootPassword)
    ensures RootUser(site, vmName, s.rootPassword) in actions
    ensures Timezone(site, vmName, s.rootUser, s.rootPassword, s.timezone) in actions
    ensures Network(site, vmName, s.rootUser, s.rootPassword, params) in actions
    ensures Easg(customerNumber, instanceName, s.easgFlag) in actions
    ensures forall i :: 0 <= i < |actions| ==> (actions[i].User? <==> i == 1 || i == 2)
    ensures actions[1] == User(site, vmName, s.rootUser, s.rootPassword, s.cliUser, s.cliPassword)
    ensures actions[2] == User(site, vmName, s.rootUser, s.rootPassword, s.adminUser, s.adminPassword)
  {
    var actions := [RootUser(site, vmName, s.rootPassword),
                    User(site, vmName, s.rootUser, s.rootPassword, s.cliUser, s.cliPassword),
                    User(site, vmName, s.rootUser, s.rootPassword, s.adminUser, s.adminPassword),
                    Timezone(site, vmName, s.rootUser, s.rootPassword, s.timezone),
                    Network(site, vmName, s.rootUser, s.rootPassword, params),
                    Easg(customerNumber, instanceName, s.easgFlag)];
    actions
  }

  /** The request each setup_cms step issues, given what the unseen parts contribute. */
  function RequestOf(a: SetupAction, preparation: GuestCommand): Option<VmCommandRequest> {
    match a
    case RootUser(site, vm, pwd) => Some(SetupCmsRootUser(site, vm, pwd).request)
    case User(site, vm, ru, rp, u, p) => Some(SetupCmsUser(site, vm, ru, rp, u, p, true))
    case Timezone(site, vm, ru, rp, tz) => Some(SetupCmsTimezone(site, vm, ru, rp, tz, preparation))
    case Network(site, vm, ru, rp, params) => Some(SetupCmsNetwork(site, vm, ru, rp, params))
    case Easg(_, _, _) => None
  }

  /**
   * Every guest command setup_cms issues after the root password is set
   * runs under the root account it read from the data store.
   */
  lemma SetupCmsRunsAsRoot(site: string, vmName: string, instanceName: string, customerNumber: int,
                           s: CmsSettings, params: seq<(string, string)>, preparation: GuestCommand)
    requires preparation.user == s.rootUser && preparation.password == s.rootPassword
    ensures forall i :: 1 <= i < 6 ==>
              var r := RequestOf(SetupCms(site, vmName, instanceName, customerNumber, s, params)[i], preparation);
              r.Some? ==> forall c :: c in r.value.args.cmds ==> c.user == s.rootUser && c.password == s.rootPassword
  {
    var actions := SetupCms(site, vmName, instanceName, customerNumber, s, params);
    forall i | 1 <= i < 6
      ensures var r := RequestOf(actions[i], preparation);
              r.Some? ==> forall c :: c in r.value.args.cmds ==> c.user == s.rootUser && c.password == s.rootPassword
    {
      if i == 3 {
        var cmds := SetupCmsTimezone(site, vmName, s.rootUser, s.rootPassword, s.timezone, preparation).args.cmds;
        assert cmds == [preparation, cmds[1]];
      }
    }
  }

  /**
   * The network request built from the data store's lookups: one echo per
   * key, INTERFACE first and SEARCH last, then netconfig, all as root.
   */
  lemma NetworkFromLookups(site: string, vmName: string, rootUser: string, rootPassword: string,
                           l: NetworkLookups)
    ensures SetupCmsNetwork(site, vmName, rootUser, rootPassword, GetCmsNetworkParameters(l)).args.cmds
            == [GuestCommand(Shell, EchoArgument("INTERFACE", "eth0"), rootUser, rootPassword),
                GuestCommand(Shell, EchoArgument("HOSTNAME", l.hostname), rootUser, rootPassword),
                GuestCommand(Shell, EchoArgument("IPADDR", l.ipAddress1), rootUser, rootPassword),
                GuestCommand(Shell, EchoArgument("DOMAIN", l.domain), rootUser, rootPassword),
                GuestCommand(Shell, EchoArgument("NETMASK", l.netmask), rootUser, rootPassword),
                GuestCommand(Shell, EchoArgument("GATEWAY", l.gateway), rootUser, rootPassword),
                GuestCommand(Shell, EchoArgument("DNS1", l.dns1), rootUser, rootPassword),
                GuestCommand(Shell, EchoArgument("SEARCH", l.searchList), rootUser, rootPassword),
                GuestCommand("/cms/toolsbin/netconfig", "/tmp/cms_network.cfg", rootUser, rootPassword)]
  {
    var params := GetCmsNetworkParameters(l);
    var cmds := SetupCmsNetwork(site, vmName, rootUser, rootPassword, params).args.cmds;
    var e := EchoCommands(params, rootUser, rootPassword);
    assert cmds == e + [GuestCommand(NetconfigTool, NetworkConfigFile, rootUser, rootPassword)];
  }
}
