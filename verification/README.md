# CMS provisioning helpers — a Dafny model

This project models the behaviour of the provisioning helpers of a contact-centre
deployment system. The helpers configure Call Management System (CMS) virtual
machines and manage deployment templates. The behaviour modelled is what the
system's pytest suite pins down, because only the test files of the system are
available. Every function below follows its test assertions. The collaborators
the tests mock become abstract inputs of the model:

- remote sessions, SSH probes and VM reboots (booleans);
- the VMware guest-command runner (the model builds its request records);
- the Mongo store (a map, or a sequence with distinct keys);
- the Jinja template (its size tables are a per-type count input).

Modules:

- `Strings`: Python's `str(int)` and `"{:0Nd}".format` with their parsers, prefixes and suffixes, and a shared `Option`.
- `AssocLists`: insertion-ordered dictionaries as association lists.
- `InteractionParser`: the CMS interaction-script parser (`parse_optional_statement`, `parse_timeout_option_statement`, `parse_cms_interactions`).
- `CmsPipeline`: the stage sequence and result aggregation of `do_cms_configurations`, and the `reboot_cms` and `setup_cms_ntp` decisions.
- `CmsGuestCommands`: the guest command lists for network, account, timezone and EASG set-up, and the `setup_cms` order.
- `CustomerEnv`: the `set_cust_env` / `get_cust_env` store.
- `InstanceKeys`: `<type>_instance_<n>` keys.
- `PasswordDispatch`: the password-change dispatch table.
- `SolutionRegistry`: `create_solution`, `get_solution_info`, `get_all_solutions_info` and `remove_cust_number`.
- `TemplateStore`: template-store paths, the list → dict → key/value conversions, and product variables.
- `TemplateNaming`: data-centre numbers, hostnames and duplex pairs, folders and port groups of the rendered template.
- `TemplateRender`: template details, the customer-number type check, and the instance keys a plan renders.

## Model

| member | source | states |
|---|---|---|
| InteractionParser.ParseOptionalStatement | test/test_cms_configurator.py:24-28 | A line without the `[*n` marker comes back unchanged, not optional, with step 1. An optional result is a suffix of the line after the marker. |
| InteractionParser.OptionalMarkerRoundTrip | test/test_cms_configurator.py:30-40 | Stripping `[*n<K>*]` from any text gives back that text, marked optional with step K. |
| InteractionParser.DefaultOptionalMarker | test/test_cms_configurator.py:30-35 | `[*n*]` with no digits marks the rest optional with the default step 1. |
| InteractionParser.OptionalStatementExamples | test/test_cms_configurator.py:24-40 | "abc" → ("abc", false, 1); "[*n*]" → ("", true, 1); "[*n9*]" → ("", true, 9). |
| InteractionParser.ParseTimeoutOptionStatement | test/test_cms_configurator.py:47-60 | Without a `<N>` marker the line is unchanged and the timeout is -1. Otherwise the timeout is non-negative and the result is the suffix after the marker. |
| InteractionParser.TimeoutMarkerRoundTrip | test/test_cms_configurator.py:47-60 | Stripping `<N>` from any text gives back that text with timeout N. |
| InteractionParser.TimeoutStatementExamples | test/test_cms_configurator.py:47-54 | "abc" → ("abc", -1) and "<10>" → ("", 10). |
| InteractionParser.TimeoutStatementWithText | test/test_cms_configurator.py:56-60 | "<20>abc" → ("abc", 20). |
| InteractionParser.ParseCmsInteractions | test/test_cms_configurator.py:64-93 | The result has no more steps than the script has lines. Every step is well formed: an INPUT step is sensitive exactly when its value is one of the given inputs, and an optional step always has a timeout. |
| InteractionParser.ParseCmsInteractionsAppend | test/test_cms_configurator.py:66-75 | The steps of two concatenated scripts are the steps of the first followed by those of the second, so source order is kept. |
| InteractionParser.CommentLinesYieldNothing | test/test_cms_configurator.py:66-75 | Removing a `##` line anywhere in a script leaves its steps unchanged. |
| InteractionParser.PlainLineIsTextStep | test/test_cms_configurator.py:81-84 | A plain prompt line is a non-optional, non-sensitive TEXT step with timeout -1 and step 1. |
| InteractionParser.InputLineIsInputStep | test/test_cms_configurator.py:77-79 | `input:X` is an INPUT step with value X, sensitive exactly when X is among the inputs. |
| InteractionParser.SampleScriptSteps | test/test_cms_configurator.py:66-93 | The step of each line of the sample: comments give none, '10' is sensitive and '20' is not, and `[*n*]test` is an optional TEXT step with timeout 10. |
| InteractionParser.SampleScript | test/test_cms_configurator.py:66-93 | The 7-line sample with inputs ['10'] yields exactly the 5 asserted steps, in order. |
| CmsPipeline.Plan | test/test_cms_configurator.py:1292-1314 | The stages called: NTP set-up, one translation update per CM instance, then IDS, WebLM, setup_cms, package install, dual IPs, firewall, start_cms and start_cms_web. The tests check each call with `assert_called_with`, which does not check call order, so the order is the model's. |
| CmsPipeline.AllTrue | test/test_cms_configurator.py:1288-1289 | The conjunction is true exactly when no outcome is False. |
| CmsPipeline.DoCmsConfigurations | test/test_cms_configurator.py:1286-1314 | Every planned stage is called whatever its predecessors return; the tests show this only for a failing start_cms. The caller's list keeps its old entries and gains each stage's outcome, in order. The result is true exactly when every stage succeeds, and exactly when no new False was recorded. |
| CmsPipeline.HappyPath | test/test_cms_configurator.py:1286-1290 | All stages succeeding: the result is true and False is not in the list. |
| CmsPipeline.StartFailureStillStartsWeb | test/test_cms_configurator.py:1360-1393 | start_cms failing: the result is false, False is recorded, and start_cms_web is still called. |
| CmsPipeline.SingleCmPlan | test/test_cms_configurator.py:1292-1314 | With the one CM instance of the tests, exactly the ten asserted stages are called, each once, with update_translations for that instance. |
| CmsPipeline.RebootCms | test/test_cms_configurator.py:566-573 | True exactly when the reboot and the SSH probe both succeed. The reboot targets the VM in the default data centre. After a successful reboot the probe uses the VM's IP, port and CMS credentials with 1000 retries at 20-second intervals. |
| CmsPipeline.RebootFailsIfEitherFails | test/test_cms_configurator.py:603-654 | A failed reboot, or a failed probe (lines 648-654), makes reboot_cms false. |
| CmsPipeline.SetupCmsNtp | test/test_cms_configurator.py:684-724 | True exactly when both the NTP set-up and the reboot succeed. |
| CmsGuestCommands.AssignmentOf | test/test_vmware_cms_deploy_helper.py:118-125 | Recovers the `KEY=VALUE` line an echo argument writes; a found line reconstructs the argument exactly. |
| CmsGuestCommands.EchoArgumentRoundTrip | test/test_vmware_cms_deploy_helper.py:118-125 | Each echo argument carries exactly `KEY=VALUE` for its parameter. |
| CmsGuestCommands.EchoCommands | test/test_vmware_cms_deploy_helper.py:118-125 | One `/bin/sh` echo per parameter, in order, as root. |
| CmsGuestCommands.SetupCmsNetwork | test/test_vmware_cms_deploy_helper.py:116-137 | Desc "cmssvc-setup cms network", waiting for completion. One echo per parameter, whose argument reads back as `KEY=VALUE`. A single final netconfig run on /tmp/cms_network.cfg. Every command runs with the root user and password. |
| CmsGuestCommands.NetworkFromLookups | test/test_vmware_cms_deploy_helper.py:116-126 | With the looked-up parameters, the command list is the nine asserted commands, INTERFACE=eth0 first, SEARCH last, then netconfig. |
| CmsGuestCommands.GetCmsNetworkParameters | test/test_vmware_cms_deploy_helper.py:173-186 | The keys are exactly INTERFACE, HOSTNAME, IPADDR, DOMAIN, NETMASK, GATEWAY, DNS1 and SEARCH, with no duplicates. The test compares dictionaries, so the order of the list is the model's. |
| CmsGuestCommands.NetworkParameterLookups | test/test_vmware_cms_deploy_helper.py:173-186 | INTERFACE reads 'eth0' and every other key reads the value the data store supplied for it. |
| CmsGuestCommands.CredentialLineOf | test/test_vmware_cms_deploy_helper.py:60-61 | Recovers the `user:password` line a chpasswd argument feeds in; a found line reconstructs the argument exactly. |
| CmsGuestCommands.ChpasswdArgumentRoundTrip | test/test_vmware_cms_deploy_helper.py:60-61 | The chpasswd argument feeds exactly `user:password`. |
| CmsGuestCommands.SetupCmsUser | test/test_vmware_cms_deploy_helper.py:56-61 | Sent to the given site and VM. The first command is `/bin/sh` with `-c 'echo user:pwd \| /usr/sbin/chpasswd'`, which reads back as `user:pwd`, run with the root login. |
| CmsGuestCommands.SetupCmsRootUser | test/test_vmware_cms_deploy_helper.py:29-34 | Calls setup_cms_user(site, vm, 'root', '', 'root', pwd) without waiting, then sleeps 10 seconds. |
| CmsGuestCommands.LinkedZone | test/test_vmware_cms_deploy_helper.py:85-86 | Recovers the zone an `ln` argument links; a found zone reconstructs the argument exactly. |
| CmsGuestCommands.SetupCmsTimezone | test/test_vmware_cms_deploy_helper.py:81-86 | Sent to the given site and VM, waiting for completion. The second command is `/bin/ln`, linking exactly the given zone to /etc/localtime, as root. |
| CmsGuestCommands.SetupCmsEasg | test/test_vmware_cms_deploy_helper.py:212-220 | Runs "EASGManage -f --enableEASG" through a root session (user prompt "$", root prompt "#"). It returns the session's success flag: true at 215 and false at 250. |
| CmsGuestCommands.SetupCms | test/test_vmware_cms_deploy_helper.py:303-320 | The root password step, the CLI account then the admin account as consecutive steps, both with the root credentials, and the timezone, network and EASG steps with the asserted arguments. The position of the root step and the absence of further account steps are the model's. |
| CmsGuestCommands.SetupCmsRunsAsRoot | test/test_vmware_cms_deploy_helper.py:303-320 | Every guest command setup_cms issues after the root password runs under the root account read from the data store, given that the unasserted first timezone command (a parameter) also runs as root. |
| AssocLists.Lookup | test/test_vmware_cms_deploy_helper.py:173-186 | A key is found exactly when it is among the keys, and the value found is paired with it. |
| AssocLists.LookupAt | test/test_vmware_cms_deploy_helper.py:173-186 | With distinct keys, looking up the i-th key yields the i-th value. |
| CustomerEnv.StoredText | test/test_vmware_data_helper.py:5-20 | An integer is stored as its decimal text, `str(i)`, which parses back to it. A string is stored unchanged and None as "". |
| CustomerEnv.SetCustEnv | test/test_vmware_data_helper.py:5-20 | The key holds the value's text. The key set grows by that key only, and every other key keeps its value. |
| CustomerEnv.GetCustEnv | test/test_vmware_data_helper.py:22 | Absent exactly when the key was never set; otherwise the stored text. |
| CustomerEnv.GetAfterSet | test/test_vmware_data_helper.py:5-12 | What was set reads back as its stored text. |
| CustomerEnv.IntegerReadsBackAsDecimal | test/test_vmware_data_helper.py:6-8 | An integer reads back as exactly its decimal string, which parses back to it. |
| CustomerEnv.EmptyIsNotAbsent | test/test_vmware_data_helper.py:14-20 | None and '' both read back as "", never as absent. |
| CustomerEnv.SetLeavesOthers | test/test_vmware_data_helper.py:10-22 | Setting one key does not change what another key reads. |
| CustomerEnv.SetOverwrites | test/test_vmware_data_helper.py:11-20 | A second set on the same key replaces the first. |
| CustomerEnv.SetGetScenario | test/test_vmware_data_helper.py:5-22 | The test's sequence reads "1", "abc$a", "", "" and then absent for the unset key. |
| InstanceKeys.ParseInstanceKey | test/test_templates.py:1239-1256 | A parsed key is `<type>_instance_<digits>`, with the number the digits denote. |
| InstanceKeys.InstanceKeyRoundTrip | test/test_templates.py:1239-1256 | Every `<type>_instance_<n>` parses back to (type, n). |
| InstanceKeys.InstanceKeyInjective | test/test_templates.py:1239-1258 | Two instance keys are equal exactly when their types and numbers are. |
| InstanceKeys.VmTypeOf | test/test_cms_passwords.py:12-19 | The type of any key built as `<type>_instance_<n>` is that type. |
| PasswordDispatch.FindEntry | test/test_cms_passwords.py:13-19 | A found row matches the VM type and login. No row matches when none is found. |
| PasswordDispatch.GetPasswordChangeFunction | test/test_cms_passwords.py:13-15 | A changer is returned exactly when the table has a row for the VM's type and the login, and it is that row's changer. |
| PasswordDispatch.GetDbKey | test/test_cms_passwords.py:17-19 | A key is returned exactly when the table has a row for the VM's type and the login, and it is that row's key. |
| PasswordDispatch.ChangerAndKeyAgree | test/test_cms_passwords.py:13-19 | The two lookups succeed together, and the key is always the one that belongs to the changer. |
| PasswordDispatch.DistinctLoginsDistinctKeys | test/test_cms_passwords.py:17-19 | Different logins on the same VM never share a storage key. |
| PasswordDispatch.CmsChangeFunctions | test/test_cms_passwords.py:13-15 | On a CMS VM: cms → change_cli_password, cmssvc → change_admin_password, root → change_root_password. |
| PasswordDispatch.CmsDbKeys | test/test_cms_passwords.py:17-19 | On a CMS VM: cms → CLIPASSWORD, cmssvc → ADMINPASSWORD, root → ROOTPASSWORD. |
| PasswordDispatch.CmsInstanceIsCms | test/test_cms_passwords.py:12 | cms_instance_1 is a VM of type cms. |
| SolutionRegistry.AlreadyExistsNamesId | test/test_basics.py:59-61 | A refusal message names exactly the refused id. |
| SolutionRegistry.CreateSolution | test/test_basics.py:54-61 | A new id is appended with Success. A listed id is refused with 'Solution already exists, customer ID = <id>' and the registry is unchanged. Ids stay distinct. |
| SolutionRegistry.GetSolutionInfo | test/test_basics.py:44-47 | The sentinel is returned exactly when the id is not listed. Otherwise the result is a stored solution with that id. |
| SolutionRegistry.GetAllSolutionsInfo | test/test_basics.py:39-41 | Every solution, in creation order. |
| SolutionRegistry.CustomerNameOfLookup | test/test_basics.py:44-47 | The customerName of a lookup is 'Not in parameters list' for an unlisted id, and otherwise the name stored with that id (line 83). |
| SolutionRegistry.RemoveCustNumber | test/test_basics.py:86-91 | The id is no longer listed, and exactly the other solutions remain. The test asserts only a None result; the rest is the model's. |
| SolutionRegistry.RemovePreservesValid | test/test_basics.py:86-91 | Removal keeps ids distinct. |
| SolutionRegistry.CreateThenGet | test/test_basics.py:80-83 | A newly created solution is found with the name it was created with. |
| SolutionRegistry.CreateTwiceRefused | test/test_basics.py:59-61 | A second create for the same id is refused and overwrites nothing. |
| SolutionRegistry.RemoveThenCreate | test/test_basics.py:86-91 | After removal the id is unknown again and can be created anew. |
| SolutionRegistry.RegistryScenario | test/test_basics.py:39-83 | The test's sequence: empty listing, the sentinel name for 5, Success then the refusal for 5, and 'test' in the listing and the lookup. |
| TemplateStore.PathJoin | test/test_template_manager.py:81-82 | Python's os.path.join of two parts: an absolute second part replaces the first. Otherwise the result starts with the first and ends with the second, with one '/' between them when needed. |
| TemplateStore.PathJoinSplit | test/test_template_manager.py:81-82 | Joining a slash-free name onto a directory is undone by dirname and basename. |
| TemplateStore.MasterFileName | test/test_template_manager.py:87-88 | The id followed by ".tmpl". |
| TemplateStore.MasterFileNameRoundTrip | test/test_template_manager.py:87-88 | The template id is recovered from its master file name. |
| TemplateStore.TemplateRootDir | test/test_template_manager.py:79-82 | os.path.join(store, id): for a store path without a trailing '/' and an id not starting with '/', `store/id`. For a slash-free id, dirname gives back the store and basename the id. |
| TemplateStore.MasterFileAt | test/test_template_manager.py:92-95 | For a directory without a trailing '/' and an id not starting with '/', `dir/id.tmpl`. With no directory, the bare `id.tmpl`. |
| TemplateStore.TemplateMetaFile | test/test_template_manager.py:98-102 | The three-part os.path.join of store, id and `id.tmpl`, which is `store/id/id.tmpl` for a plain store path and a slash-free id. |
| TemplateStore.PathExamples | test/test_template_manager.py:87-95 | 'template_id.tmpl', and '/tmp/template_id.tmpl' for the directory '/tmp'. |
| TemplateStore.MetaFileLocation | test/test_template_manager.py:100-102 | The meta file lies in the template's root directory (store/id), and its name gives back the id. |
| TemplateStore.ConvertListToDic | test/test_template_manager.py:58-63 | The i-th element (from 0) is stored under key i + 1, in list order. |
| TemplateStore.ListToDicRoundTrip | test/test_template_manager.py:58-63 | The values of the numbered dictionary, in key order, are the list. |
| TemplateStore.ConversionExamples | test/test_template_manager.py:56-75 | ['a', 'b'] becomes {1: 'a', 2: 'b'}, and that dictionary becomes the records {1, 'a'} and {2, 'b'}. |
| TemplateStore.ConvertToKvp | test/test_template_manager.py:69-75 | One {key, value} record per entry, same length, in the dictionary's order. |
| TemplateStore.KvpRoundTrip | test/test_template_manager.py:69-75 | The records give back the dictionary. |
| TemplateStore.ErrorsAsKvp | test/test_template_manager.py:214-217 | The i-th error becomes the record {key: i + 1, value: error}. |
| TemplateStore.ConvertAppTypes | test/test_template_manager.py:36-53 | The CM variable is present exactly when CM_DUPLEX or CM_ESS is ordered, and the WIN variable exactly when WDC is. |
| TemplateStore.ConvertAppTypesAppend | test/test_template_manager.py:36-53 | The variables of a concatenated list are the union of the parts' variables. |
| TemplateStore.ProductExamples | test/test_template_manager.py:36-53 | The four product lists the test converts. |
| TemplateNaming.DcNumber | test/test_templates.py:234-255 | The dc2id override wins when it names the data centre. Otherwise the default numbers NAR1 1, EMEA1 17 and EMEA2 25 apply, and an unknown centre has none. |
| TemplateNaming.FortyTwoDcExample | test/test_templates.py:234-273 | The 42-DC override maps NAR1 to 8; the defaults give 1, 17 and 25. |
| TemplateNaming.HostName | test/test_templates.py:255-256 | A hostname starts with customer name, customer number, "dc" and the data-centre number. |
| TemplateNaming.RoleSuffix | test/test_templates.py:549-578 | Paired roles end in 'a' for odd and 'b' for even instances. |
| TemplateNaming.VirtualHostName | test/test_templates.py:551 | The duplex virtual hostname shares the prefix and ends in 'v'. |
| TemplateNaming.DuplexPair | test/test_templates.py:549-578 | Instances 2k-1 and 2k share the virtual hostname. Their own names end in 'a' and 'b' and differ from each other and from it. |
| TemplateNaming.HostPrefixExamples | test/test_templates.py:255 | The asserted prefixes Robin3dc8, Robin3dc1, Robin2dc25 and Robin2dc17. |
| TemplateNaming.PairedSuffixExamples | test/test_templates.py:550-577 | cccm1a/cccm1b, sbcrw1b, sbctg1a and aes1b. |
| TemplateNaming.SingleSuffixExamples | test/test_templates.py:931 | ccess1, sm2, ams1, cccmspri1/cccmssec1, smgrpri/smgrgeo, emspri/emssec and dp/ds. |
| TemplateNaming.FolderNameRoundTrip | test/test_templates.py:273 | A folder name gives back the data-centre id and customer number. |
| TemplateNaming.FolderNameInjective | test/test_templates.py:568 | Two folders are the same name exactly when they are for the same data centre and customer. |
| TemplateNaming.FolderExamples | test/test_templates.py:940 | The customer number is padded to three digits, and the folder uses the data-centre id. |
| TemplateNaming.NetworkOfName | test/test_templates.py:263-271 | A recognised network suffix names that network. |
| TemplateNaming.PortGroupRoundTrip | test/test_templates.py:263-271 | A generated port group gives back its data-centre number, customer number and network. |
| TemplateNaming.PortGroupInjective | test/test_templates.py:558 | Two port groups are the same name exactly when their three parts are equal. |
| TemplateNaming.CardPortGroup | test/test_templates.py:324-332 | With custom networks, a card uses the port_grp of its subnet type. Without them, it uses the generated name for its default network. |
| TemplateNaming.DefaultCardSharing | test/test_templates.py:263-271 | By default, Public and Out of Band Management share the APPS port group, and Duplication Link has its own. |
| TemplateNaming.CustomNetworkExample | test/test_templates.py:324-332 | The custom subnets give APPS_LAN, OOBM_LAN and CM_DUPL_LAN. |
| TemplateNaming.PortGroupExamples | test/test_templates.py:262-263 | The data-centre numbers 8, 25 and 17 pad to 08, 25 and 17. Data centre 8 and customer 3 on the apps network give DC08_CUST_003_APPS. |
| TemplateRender.KeysOfType | test/test_templates.py:1239-1256 | `<type>_instance_1` … `<type>_instance_<count>`, in order. |
| TemplateRender.PlanKeysMembership | test/test_templates.py:1239-1264 | Instance n of a type is rendered exactly when the type is deployed and planned with at least n VMs. |
| TemplateRender.PlanKeysAreInstanceKeys | test/test_templates.py:1239-1264 | Every rendered key is an instance key of a deployed type. |
| TemplateRender.PlanKeysDistinct | test/test_templates.py:1262-1264 | With each type planned once, no key repeats, and the number of keys equals the number of VMs deployed. |
| TemplateRender.Render | test/test_templates.py:47-68 | A details request yields details. A deployment fails with TypeError exactly when cust_num is not an integer. The folder of the result gives back the data centre and customer. When the plan lists each VM type once, no instance key repeats. |
| TemplateRender.TemplateDetailsNames | test/test_templates.py:103-117 | template_name and template_description, the five mandatory and the two optional parameter names. |
| TemplateRender.UcOnlyExclusions | test/test_templates.py:1258-1267 | Without contact-centre users, cms_instance_1 and aes_instance_1 are never rendered. |
| TemplateRender.InvalidCustomerNumber | test/test_templates.py:52-68 | cust_num 'two' raises TypeError. |

## Left out

- Remote sessions (pexpect, SSH, SFTP, scp), VM reboots, SSH probes and `run_vm_commands`: I/O. Only their boolean results and the request records passed to them are modelled.
- The certificate pipeline, govc CPU/memory resizing, health probes and the Breeze accept-service: call wiring to collaborators that cannot be seen.
- OSSI scripts, `load_cms_file`, node names and translations (test/test_cms_configurator.py:98-116, 1397-1543): shell and file I/O.
- Template archive extraction, override, clean-up and upload, and template metadata, existence and listing (test/test_template_manager.py:104-389): filesystem work over the unseen store.
- Template IP addresses, subnets, VLAN ids, netmasks, template sizes and per-size instance counts: these live in the unseen Jinja template. The per-type VM counts are an input of `TemplateRender.PlanKeys`.
- The acp_s tests of test/test_basics.py: their module import is commented out.
- CmsGuestCommands.SetupCmsTimezone: the first command, which clears the old link, is not asserted by the tests. It is a parameter (`preparation`).
- CmsGuestCommands.SetupCmsUser: the description of the user and timezone requests is not asserted. It is None in the model.
- CmsGuestCommands.SetupCmsEasg: the EASG enable flag is passed to the function but no test shows it changing the behaviour, so the model ignores it.
- CmsGuestCommands.SetupCms: the tests fix the calls, not the position of the root step nor the order of the timezone, network and EASG steps. `assert_has_calls` also allows further account calls. The model sets root first, then the two accounts, then the rest.
- CmsGuestCommands.GetCmsNetworkParameters: the test compares dictionaries, so the order of the parameters, and hence of the echo commands, is not fixed by it. The model uses the order of the asserted command list.
- CmsPipeline.DoCmsConfigurations: the model calls every stage whatever earlier stages return. Skipping stages that depend on a failed stage, such as the dual-IP configuration, is not modelled. Only a failing start_cms is tested.
- CmsPipeline.Plan: `assert_called_with` does not check call order, so the stage order is the model's.
- SolutionRegistry.RemoveCustNumber: the test asserts only that removal returns None. That the other solutions remain is the model's reading of the operation.
- PasswordDispatch.GetPasswordChangeFunction: the table holds only the three CMS rows the tests show; rows for other VM types are unseen. For a missing (type, login) pair the model returns None; whether the source returns None, raises KeyError or uses a default is not known.
- PasswordDispatch.GetDbKey: the same table scope, and the same None for a missing pair, as GetPasswordChangeFunction.
- CmsPipeline.RebootCms: the tests do not say whether the SSH probe is attempted after a failed reboot. The model probes only after a successful reboot.
- CmsPipeline.SetupCmsNtp: the tests do not say whether the reboot happens after a failed NTP set-up. The model skips it.
- CmsPipeline.DoCmsConfigurations: only the single-CM case is tested. The model issues one translation update per CM instance.
- SolutionRegistry.CustomerName: an unknown id is reported with the sentinel name 'Not in parameters list'. A solution created with that literal name cannot be told apart from it, as in the source.
- CustomerEnv.StoredText: Python's `str` of booleans and floats is not modelled. The tests store only integers, strings and None.
- TemplateNaming.DcNumber: only the default numbers the tests observe (NAR1, EMEA1, EMEA2) are known. An override that lacks the centre falls back to them.
- TemplateNaming.RoleSuffix: pairing beyond the first pair (instances 3, 4, …) and roles whose hostnames are not asserted (AADS, AAM, IXM, …) are extrapolated or absent.
- TemplateNaming.CardPortGroup: the custom port group of the M1 and AMS cards is not asserted, so those cards keep the generated name.
- TemplateRender.Render: the rule that picks the primary or secondary site lives in the template, so the site is an input. Negative customer numbers are not modelled.
- TemplateStore.ConvertAppTypes: other application types are not asserted and contribute no variable.
- TemplateStore.ConvertToKvp: records follow the dictionary's insertion order. This matches key order for the dictionaries `convert_list_to_dic` builds, which are the only ones the tests use.
