/**
 * Naming rules of the rendered deployment template: the data-centre number
 * (with the dc2id override), VM hostnames and the duplex pairing, the
 * vCenter folder, and the port group each virtual network card joins.
 */
module TemplateNaming {
  import opened Strings

  // ---------------------------------------------------------------- data-centre numbers

  /** The data-centre numbers the template uses when no dc2id override is given. */
  const DefaultDcNumbers: map<string, nat> := map["NAR1" := 1, "EMEA1" := 17, "EMEA2" := 25]

  /** The number of a data centre: the dc2id override when it names the centre, else the default. */
  function DcNumber(dcId: string, dc2id: Option<map<string, nat>>): (r: Option<nat>)
    ensures dc2id.Some? && dcId in dc2id.value ==> r == Some(dc2id.value[dcId])
    ensures (dc2id.None? || dcId !in dc2id.value) ==>
              (r.Some? <==> dcId in DefaultDcNumbers) && (r.Some? ==> r.value == DefaultDcNumbers[dcId])
  {
    if dc2id.Some? && dcId in dc2id.value then Some(dc2id.value[dcId])
    else if dcId in DefaultDcNumbers then Some(DefaultDcNumbers[dcId])
    else None
  }

  /** The dc2id map of the 42-data-centre deployment moves NAR1 from 1 to 8. */
  lemma FortyTwoDcExample()
    ensures DcNumber("NAR1", None) == Some(1)
    ensures DcNumber("EMEA1", None) == Some(17)
    ensures DcNumber("EMEA2", None) == Some(25)
    ensures DcNumber("NAR1", Some(map["NAR1" := 8, "NAR2" := 9, "EMEA1" := 17, "EMEA2" := 25,
                                      "APAC1" := 33, "APAC2" := 41, "CALA1" := 49, "CALA2" := 57])) == Some(8)
  {
  }

  // ---------------------------------------------------------------- hostnames

  /** Whether the deployment is the customer's primary or secondary (geo) site. */
  datatype Site = Primary | Secondary

  /** The VM roles whose hostnames the template fixes. */
  datatype VmRole =
    | CmDuplex | SbcRw | SbcTrunking | Aes   // deployed in a/b pairs
    | CmEss | Sm | Ams                      // numbered one by one
    | Cms | Smgr | SbcEms | Win             // named after the site

  predicate Paired(role: VmRole) {
    role == CmDuplex || role == SbcRw || role == SbcTrunking || role == Aes
  }

  /** The tag a paired or numbered role's hostnames carry. */
  function RoleTag(role: VmRole): string
    requires !(role.Cms? || role.Smgr? || role.SbcEms? || role.Win?)
  {
    match role
    case CmDuplex => "cccm"
    case SbcRw => "sbcrw"
    case SbcTrunking => "sbctg"
    case Aes => "aes"
    case CmEss => "ccess"
    case Sm => "sm"
    case Ams => "ams"
  }

  /** Instances 2k-1 and 2k form pair k. */
  function PairOf(n: nat): (k: nat)
    requires 1 <= n
    ensures 1 <= k && (n == 2 * k - 1 || n == 2 * k)
  {
    (n + 1) / 2
  }

  /** 'a' for the first instance of a pair, 'b' for the second. */
  function PairLetter(n: nat): char {
    if n % 2 == 1 then 'a' else 'b'
  }

  /** Customer name, customer number, "dc" and the data-centre number. */
  function HostPrefix(custName: string, custNum: nat, dcNum: nat): string {
    custName + NatToString(custNum) + "dc" + NatToString(dcNum)
  }

  /** The role part of instance n's hostname. */
  function RoleSuffix(role: VmRole, n: nat, site: Site): (s: string)
    requires 1 <= n
    ensures Paired(role) ==> 0 < |s| && s[|s| - 1] == PairLetter(n)
  {
    match role
    case Cms => (if site == Primary then "cccmspri" else "cccmssec") + NatToString(n)
    case Smgr => if site == Primary then "smgrpri" else "smgrgeo"
    case SbcEms => if site == Primary then "emspri" else "emssec"
    case Win => if site == Primary then "dp" else "ds"
    case CmDuplex | SbcRw | SbcTrunking | Aes => RoleTag(role) + NatToString(PairOf(n)) + [PairLetter(n)]
    case CmEss | Sm | Ams => RoleTag(role) + NatToString(n)
  }

  /** The hostname of instance n (counting from 1) of a role. */
  function HostName(custName: string, custNum: nat, dcNum: nat, role: VmRole, n: nat, site: Site): (h: string)
    requires 1 <= n
    ensures StartsWith(h, HostPrefix(custName, custNum, dcNum))
  {
    var p := HostPrefix(custName, custNum, dcNum);
    var h := p + RoleSuffix(role, n, site);
    assert h[..|p|] == p;
    h
  }

  /** The hostname a duplex CM pair shares for its virtual IP address. */
  function VirtualHostName(custName: string, custNum: nat, dcNum: nat, n: nat): (h: string)
    requires 1 <= n
    ensures 0 < |h| && h[|h| - 1] == 'v'
    ensures StartsWith(h, HostPrefix(custName, custNum, dcNum))
  {
    var p := HostPrefix(custName, custNum, dcNum);
    var h := p + RoleTag(CmDuplex) + NatToString(PairOf(n)) + "v";
    assert h[..|p|] == p;
    h
  }

  /**
   * The two instances of pair k share the virtual hostname, their own
   * hostnames end in 'a' and 'b', and differ from each other and from it.
   */
  lemma DuplexPair(custName: string, custNum: nat, dcNum: nat, k: nat, site: Site)
    requires 1 <= k
    ensures VirtualHostName(custName, custNum, dcNum, 2 * k - 1) == VirtualHostName(custName, custNum, dcNum, 2 * k)
    ensures var a := HostName(custName, custNum, dcNum, CmDuplex, 2 * k - 1, site);
            var b := HostName(custName, custNum, dcNum, CmDuplex, 2 * k, site);
            var v := VirtualHostName(custName, custNum, dcNum, 2 * k);
            && a[|a| - 1] == 'a' && b[|b| - 1] == 'b'
            && a != b && a != v && b != v
  {
    assert PairOf(2 * k - 1) == k && PairOf(2 * k) == k;
    assert PairLetter(2 * k - 1) == 'a' && PairLetter(2 * k) == 'b';
  }

  /** The hostname prefixes the test suite's hostnames start with. */
  lemma HostPrefixExamples()
    ensures HostPrefix("Robin", 3, 8) == "Robin3dc8"
    ensures HostPrefix("Robin", 3, 1) == "Robin3dc1"
    ensures HostPrefix("Robin", 2, 25) == "Robin2dc25"
    ensures HostPrefix("Robin", 2, 17) == "Robin2dc17"
  {
    assert NatToString(1) == "1" && NatToString(2) == "2" && NatToString(3) == "3";
    assert NatToString(8) == "8" && NatToString(17) == "17" && NatToString(25) == "25";
  }

  /** The role parts of the asserted hostnames of paired roles. */
  lemma PairedSuffixExamples()
    ensures RoleSuffix(CmDuplex, 1, Primary) == "cccm1a"
    ensures RoleSuffix(CmDuplex, 2, Primary) == "cccm1b"
    ensures RoleSuffix(SbcRw, 2, Primary) == "sbcrw1b"
    ensures RoleSuffix(SbcTrunking, 1, Secondary) == "sbctg1a"
    ensures RoleSuffix(Aes, 2, Secondary) == "aes1b"
  {
    assert NatToString(1) == "1";
  }

  /** The role parts of the asserted hostnames of numbered and site-named roles. */
  lemma SingleSuffixExamples()
    ensures RoleSuffix(CmEss, 1, Secondary) == "ccess1"
    ensures RoleSuffix(Sm, 2, Primary) == "sm2"
    ensures RoleSuffix(Ams, 1, Primary) == "ams1"
    ensures RoleSuffix(Cms, 1, Primary) == "cccmspri1"
    ensures RoleSuffix(Cms, 1, Secondary) == "cccmssec1"
    ensures RoleSuffix(Smgr, 1, Primary) == "smgrpri" && RoleSuffix(Smgr, 1, Secondary) == "smgrgeo"
    ensures RoleSuffix(SbcEms, 1, Primary) == "emspri" && RoleSuffix(SbcEms, 1, Secondary) == "emssec"
    ensures RoleSuffix(Win, 1, Primary) == "dp" && RoleSuffix(Win, 1, Secondary) == "ds"
  {
    assert NatToString(1) == "1" && NatToString(2) == "2";
  }

  // ---------------------------------------------------------------- folders

  const FolderInfix: string := "_customer_"

  /** vm_folder_name: the data-centre id, "_customer_" and the customer number padded to three digits. */
  function FolderName(dcId: string, custNum: nat): string {
    dcId + FolderInfix + ZeroPad(custNum, 3)
  }

  /** The data-centre id and customer number a folder name carries. */
  function ParseFolderName(f: string): Option<(string, nat)> {
    var k := TrailingDigits(f);
    if k == 0 then None
    else
      var head := f[..|f| - k];
      if !EndsWith(head, FolderInfix) then None
      else Some((head[..|head| - |FolderInfix|], ParseNat(f[|f| - k..])))
  }

  /** A folder name gives back the data centre and customer it was built from. */
  lemma FolderNameRoundTrip(dcId: string, custNum: nat)
    ensures ParseFolderName(FolderName(dcId, custNum)) == Some((dcId, custNum))
  {
    var d := ZeroPad(custNum, 3);
    var head := dcId + FolderInfix;
    var f := FolderName(dcId, custNum);
    assert f == head + d;
    TrailingDigitsOfNumber(head, d);
    assert f[..|f| - |d|] == head;
    assert f[|f| - |d|..] == d;
    assert head[|head| - |FolderInfix|..] == FolderInfix;
    assert head[..|head| - |FolderInfix|] == dcId;
  }

  /** Folders of different customers or data centres never coincide. */
  lemma FolderNameInjective(d1: string, c1: nat, d2: string, c2: nat)
    ensures FolderName(d1, c1) == FolderName(d2, c2) <==> d1 == d2 && c1 == c2
  {
    if FolderName(d1, c1) == FolderName(d2, c2) {
      FolderNameRoundTrip(d1, c1);
      FolderNameRoundTrip(d2, c2);
    }
  }

  /** The folder is named after the data-centre id, not its (possibly overridden) number. */
  lemma FolderExamples()
    ensures ZeroPad(3, 3) == "003" && ZeroPad(2, 3) == "002"
    ensures FolderName("NAR1", 3) == "NAR1" + FolderInfix + "003"
  {
  }

  // ---------------------------------------------------------------- port groups

  /** The customer networks a port group can belong to. */
  datatype Network = Apps | CmDupl | SbcMgmt | AmsNet

  function NetworkName(net: Network): string {
    match net
    case Apps => "APPS"
    case CmDupl => "CM_DUPL"
    case SbcMgmt => "SBC_MGMT"
    case AmsNet => "AMS"
  }

  function NetworkOfName(s: string): (r: Option<Network>)
    ensures r.Some? ==> NetworkName(r.value) == s
  {
    if s == "APPS" then Some(Apps)
    else if s == "CM_DUPL" then Some(CmDupl)
    else if s == "SBC_MGMT" then Some(SbcMgmt)
    else if s == "AMS" then Some(AmsNet)
    else None
  }

  lemma NetworkNameRoundTrip(net: Network)
    ensures NetworkOfName(NetworkName(net)) == Some(net)
  {
  }

  const DcPrefix: string := "DC"
  const CustInfix: string := "_CUST_"

  /** "DC<2-digit dc>_CUST_<3-digit customer>_<network>". */
  function PortGroup(dcNum: nat, custNum: nat, net: Network): string {
    DcPrefix + (ZeroPad(dcNum, 2) + (CustInfix + (ZeroPad(custNum, 3) + ("_" + NetworkName(net)))))
  }

  /** The data-centre number, customer number and network a port group names. */
  function ParsePortGroup(s: string): Option<(nat, nat, Network)> {
    if !StartsWith(s, DcPrefix) then None
    else
      var r := s[|DcPrefix|..];
      var k := LeadingDigits(r);
      if k == 0 || !StartsWith(r[k..], CustInfix) then None
      else
        match ParseCustomerPart(r[k..][|CustInfix|..])
        case None => None
        case Some((custNum, net)) => Some((ParseNat(r[..k]), custNum, net))
  }

  /** The customer number and network after "_CUST_". */
  function ParseCustomerPart(r: string): Option<(nat, Network)> {
    var k := LeadingDigits(r);
    if k == 0 || !StartsWith(r[k..], "_") then None
    else
      match NetworkOfName(r[k..][1..])
      case None => None
      case Some(net) => Some((ParseNat(r[..k]), net))
  }

  /** A run of digits followed by a non-digit splits where the digits end. */
  lemma SplitAtDigits(d: string, t: string)
    requires 0 < |d| && AllDigits(d)
    requires 0 < |t| && !IsDigit(t[0])
    ensures LeadingDigits(d + t) == |d|
    ensures (d + t)[..|d|] == d && (d + t)[|d|..] == t
  {
    LeadingDigitsOfNumber(d, t);
    assert (d + t)[..|d|] == d;
    assert (d + t)[|d|..] == t;
  }

  lemma CustomerPartRoundTrip(custNum: nat, net: Network)
    ensures ParseCustomerPart(ZeroPad(custNum, 3) + ("_" + NetworkName(net))) == Some((custNum, net))
  {
    var cc := ZeroPad(custNum, 3);
    var tail := "_" + NetworkName(net);
    SplitAtDigits(cc, tail);
    assert tail[..1] == "_" && tail[1..] == NetworkName(net);
    NetworkNameRoundTrip(net);
  }

  /** A text starts with what was put in front of it, and the rest follows. */
  lemma PrefixSplit(p: string, x: string)
    ensures StartsWith(p + x, p) && (p + x)[|p|..] == x
  {
    assert (p + x)[..|p|] == p;
  }

  /** The parser reads the data-centre digits, then hands the rest after "_CUST_" on. */
  lemma ParsePortGroupOf(dd: string, rest: string, custNum: nat, net: Network)
    requires 0 < |dd| && AllDigits(dd)
    requires ParseCustomerPart(rest) == Some((custNum, net))
    ensures ParsePortGroup(DcPrefix + (dd + (CustInfix + rest))) == Some((ParseNat(dd), custNum, net))
  {
    PrefixSplit(DcPrefix, dd + (CustInfix + rest));
    SplitAtDigits(dd, CustInfix + rest);
    PrefixSplit(CustInfix, rest);
  }

  /** A port group name gives back the data centre, customer and network it was built from. */
  lemma PortGroupRoundTrip(dcNum: nat, custNum: nat, net: Network)
    ensures ParsePortGroup(PortGroup(dcNum, custNum, net)) == Some((dcNum, custNum, net))
  {
    var dd := ZeroPad(dcNum, 2);
    var rest := ZeroPad(custNum, 3) + ("_" + NetworkName(net));
    CustomerPartRoundTrip(custNum, net);
    ParsePortGroupOf(dd, rest, custNum, net);
  }

  /** Two port groups are the same name exactly when they are for the same centre, customer and network. */
  lemma PortGroupInjective(d1: nat, c1: nat, n1: Network, d2: nat, c2: nat, n2: Network)
    ensures PortGroup(d1, c1, n1) == PortGroup(d2, c2, n2) <==> d1 == d2 && c1 == c2 && n1 == n2
  {
    if PortGroup(d1, c1, n1) == PortGroup(d2, c2, n2) {
      PortGroupRoundTrip(d1, c1, n1);
      PortGroupRoundTrip(d2, c2, n2);
    }
  }

  /** The network cards a VM can carry, by their virtual_port_group_name. */
  datatype NetworkCard = PublicCard | OobmCard | DuplicationCard | M1Card | AmsPublicCard

  function CardName(card: NetworkCard): string {
    match card
    case PublicCard => "Public"
    case OobmCard => "Out of Band Management"
    case DuplicationCard => "Duplication Link"
    case M1Card => "M1"
    case AmsPublicCard => "AMS_Public"
  }

  /** The network a card joins by default: out-of-band management shares the APPS network. */
  function DefaultNetwork(card: NetworkCard): Network {
    match card
    case PublicCard => Apps
    case OobmCard => Apps
    case DuplicationCard => CmDupl
    case M1Card => SbcMgmt
    case AmsPublicCard => AmsNet
  }

  /** The custom-network subnet type a card takes its port group from. */
  function SubnetType(card: NetworkCard): Option<string> {
    match card
    case PublicCard => Some("apps")
    case OobmCard => Some("oobm")
    case DuplicationCard => Some("cm_dup")
    case _ => None
  }

  /**
   * The port group of a card: with custom_network, the port_grp of the
   * data centre's subnet of the card's type; otherwise the generated name.
   */
  function CardPortGroup(card: NetworkCard, dcNum: nat, custNum: nat, customSubnets: Option<map<string, string>>)
    : (pg: string)
    ensures customSubnets.Some? && SubnetType(card).Some? && SubnetType(card).value in customSubnets.value ==>
              pg == customSubnets.value[SubnetType(card).value]
    ensures customSubnets.None? ==> ParsePortGroup(pg) == Some((dcNum, custNum, DefaultNetwork(card)))
  {
    if customSubnets.Some? && SubnetType(card).Some? && SubnetType(card).value in customSubnets.value then
      customSubnets.value[SubnetType(card).value]
    else
      PortGroupRoundTrip(dcNum, custNum, DefaultNetwork(card));
      PortGroup(dcNum, custNum, DefaultNetwork(card))
  }

  /** Without custom networks, Public and out-of-band cards share a port group and duplication has its own. */
  lemma DefaultCardSharing(dcNum: nat, custNum: nat)
    ensures CardPortGroup(PublicCard, dcNum, custNum, None) == CardPortGroup(OobmCard, dcNum, custNum, None)
    ensures CardPortGroup(PublicCard, dcNum, custNum, None) != CardPortGroup(DuplicationCard, dcNum, custNum, None)
  {
    PortGroupInjective(dcNum, custNum, Apps, dcNum, custNum, CmDupl);
  }

  /** The custom-network deployment's subnets replace all three CM port groups. */
  lemma CustomNetworkExample(dcNum: nat, custNum: nat)
    ensures var subnets := map["apps" := "APPS_LAN", "oobm" := "OOBM_LAN", "cm_dup" := "CM_DUPL_LAN"];
            && CardPortGroup(PublicCard, dcNum, custNum, Some(subnets)) == "APPS_LAN"
            && CardPortGroup(OobmCard, dcNum, custNum, Some(subnets)) == "OOBM_LAN"
            && CardPortGroup(DuplicationCard, dcNum, custNum, Some(subnets)) == "CM_DUPL_LAN"
  {
  }

  /** The padded numbers of the asserted port groups DC08/DC25/DC17 and customers 002/003. */
  lemma PortGroupExamples()
    ensures ZeroPad(8, 2) == "08" && ZeroPad(25, 2) == "25" && ZeroPad(17, 2) == "17"
    ensures PortGroup(8, 3, Apps) == DcPrefix + "08" + CustInfix + "003" + "_APPS"
  {
  }
}
