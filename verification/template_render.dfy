/**
 * Rendering the deployment template, reduced to what its results promise:
 * a template_details request lists the template's parameters; a deployment
 * request with a non-integer customer number fails with a TypeError; any
 * other request yields one instance key per planned VM, where a customer
 * without contact-centre users gets no CMS and no AES.
 */
module TemplateRender {
  import opened Strings
  import opened InstanceKeys
  import opened TemplateNaming

  /** A cust_num argument: the template formats it as an integer. */
  datatype ParamValue = IntParam(n: nat) | TextParam(text: string)

  /**
   * A render request. The per-type VM counts come from size tables inside
   * the template; here they are an input, one (VM type, count) per type.
   */
  datatype Request =
    | DetailsRequest
    | DeployRequest(datacenterId: string, custNum: ParamValue, ccUsers: nat, ucUsers: nat,
                    plan: seq<(string, nat)>)

  datatype Rendered =
    | Details(templateSpecs: seq<string>, mandatory: seq<string>, optional: seq<string>)
    | VmSpecs(instances: seq<string>, folder: string)
    | TypeError

  const TemplateSpecKeys: seq<string> := ["template_name", "template_description"]
  const MandatoryParameters: seq<string> := ["datacenter_id", "cust_num", "cust_name", "cc_users", "uc_users"]
  const OptionalParameters: seq<string> := ["primary", "secondary"]

  /** VM types deployed only for contact-centre users. */
  const ContactCentreTypes: set<string> := {"cms", "aes"}

  predicate Deployed(vmType: string, ccUsers: nat) {
    ccUsers > 0 || vmType !in ContactCentreTypes
  }

  /** `<type>_instance_1` … `<type>_instance_<count>`. */
  function KeysOfType(vmType: string, count: nat): (keys: seq<string>)
    ensures |keys| == count
    ensures forall i :: 0 <= i < count ==> keys[i] == InstanceKey(vmType, i + 1)
  {
    if count == 0 then [] else KeysOfType(vmType, count - 1) + [InstanceKey(vmType, count)]
  }

  /** The instance keys of a plan, type by type, leaving out types not deployed. */
  function PlanKeys(plan: seq<(string, nat)>, ccUsers: nat): (keys: seq<string>)
  {
    if |plan| == 0 then []
    else
      var (t, c) := plan[0];
      (if Deployed(t, ccUsers) then KeysOfType(t, c) else []) + PlanKeys(plan[1..], ccUsers)
  }

  /** The number of VMs a plan deploys. */
  function DeployedCount(plan: seq<(string, nat)>, ccUsers: nat): nat {
    if |plan| == 0 then 0
    else (if Deployed(plan[0].0, ccUsers) then plan[0].1 else 0) + DeployedCount(plan[1..], ccUsers)
  }

  /** The key of instance n of a type is rendered exactly when the type is deployed with at least n VMs. */
  lemma {:induction false} PlanKeysMembership(plan: seq<(string, nat)>, ccUsers: nat, vmType: string, n: nat)
    requires 1 <= n
    ensures InstanceKey(vmType, n) in PlanKeys(plan, ccUsers) <==>
              Deployed(vmType, ccUsers) && exists j :: 0 <= j < |plan| && plan[j].0 == vmType && n <= plan[j].1
  {
    if |plan| > 0 {
      var (t, c) := plan[0];
      var here := if Deployed(t, ccUsers) then KeysOfType(t, c) else [];
      PlanKeysMembership(plan[1..], ccUsers, vmType, n);
      assert PlanKeys(plan, ccUsers) == here + PlanKeys(plan[1..], ccUsers);
      assert InstanceKey(vmType, n) in here <==> Deployed(t, ccUsers) && t == vmType && n <= c by {
        if InstanceKey(vmType, n) in here {
          var i :| 0 <= i < |here| && here[i] == InstanceKey(vmType, n);
          InstanceKeyInjective(t, i + 1, vmType, n);
        }
        if Deployed(t, ccUsers) && t == vmType && n <= c {
          assert here[n - 1] == InstanceKey(vmType, n);
        }
      }
      if exists j :: 0 <= j < |plan[1..]| && plan[1..][j].0 == vmType && n <= plan[1..][j].1 {
        var j :| 0 <= j < |plan[1..]| && plan[1..][j].0 == vmType && n <= plan[1..][j].1;
        assert plan[j + 1] == plan[1..][j];
      }
      if exists j :: 0 <= j < |plan| && plan[j].0 == vmType && n <= plan[j].1 {
        var j :| 0 <= j < |plan| && plan[j].0 == vmType && n <= plan[j].1;
        if j > 0 { assert plan[1..][j - 1] == plan[j]; }
      }
    }
  }

  /** Every rendered key is an instance key of a planned, deployed type. */
  lemma {:induction false} PlanKeysAreInstanceKeys(plan: seq<(string, nat)>, ccUsers: nat, k: string)
    requires k in PlanKeys(plan, ccUsers)
    ensures exists t: string, n: nat :: 1 <= n && k == InstanceKey(t, n) && Deployed(t, ccUsers)
  {
    var (t, c) := plan[0];
    var here := if Deployed(t, ccUsers) then KeysOfType(t, c) else [];
    assert PlanKeys(plan, ccUsers) == here + PlanKeys(plan[1..], ccUsers);
    if k in here {
      var i :| 0 <= i < |here| && here[i] == k;
      assert k == InstanceKey(t, i + 1);
    } else {
      PlanKeysAreInstanceKeys(plan[1..], ccUsers, k);
    }
  }

  /** The types of a plan, each listed once. */
  predicate DistinctTypes(plan: seq<(string, nat)>) {
    forall i, j :: 0 <= i < j < |plan| ==> plan[i].0 != plan[j].0
  }

  predicate NoDuplicates(s: seq<string>) {
    forall i, j :: 0 <= i < j < |s| ==> s[i] != s[j]
  }

  /** Two duplicate-free lists with nothing in common concatenate to a duplicate-free list. */
  lemma NoDuplicatesAppend(a: seq<string>, b: seq<string>)
    requires NoDuplicates(a) && NoDuplicates(b)
    requires forall i :: 0 <= i < |a| ==> a[i] !in b
    ensures NoDuplicates(a + b)
  {
    var ab := a + b;
    forall i, j | 0 <= i < j < |ab| ensures ab[i] != ab[j] {
      if j >= |a| {
        assert ab[j] == b[j - |a|];
        if i < |a| { assert ab[i] == a[i]; } else { assert ab[i] == b[i - |a|]; }
      }
    }
  }

  /** With each type planned once, the first type's keys appear nowhere after it. */
  lemma HeadKeysNotInRest(plan: seq<(string, nat)>, ccUsers: nat, n: nat)
    requires DistinctTypes(plan) && 0 < |plan| && 1 <= n
    ensures InstanceKey(plan[0].0, n) !in PlanKeys(plan[1..], ccUsers)
  {
    PlanKeysMembership(plan[1..], ccUsers, plan[0].0, n);
    forall j | 0 <= j < |plan[1..]| ensures plan[1..][j].0 != plan[0].0 {
      assert plan[1..][j] == plan[j + 1];
    }
  }

  /**
   * With each type planned once, no key is rendered twice, so the key set
   * has exactly as many members as VMs are deployed.
   */
  lemma {:induction false} PlanKeysDistinct(plan: seq<(string, nat)>, ccUsers: nat)
    requires DistinctTypes(plan)
    ensures NoDuplicates(PlanKeys(plan, ccUsers))
    ensures |PlanKeys(plan, ccUsers)| == DeployedCount(plan, ccUsers)
  {
    if |plan| > 0 {
      var (t, c) := plan[0];
      var here := if Deployed(t, ccUsers) then KeysOfType(t, c) else [];
      var rest := PlanKeys(plan[1..], ccUsers);
      assert DistinctTypes(plan[1..]) by {
        forall i, j | 0 <= i < j < |plan[1..]| ensures plan[1..][i].0 != plan[1..][j].0 {
          assert plan[1..][i] == plan[i + 1] && plan[1..][j] == plan[j + 1];
        }
      }
      PlanKeysDistinct(plan[1..], ccUsers);
      assert PlanKeys(plan, ccUsers) == here + rest;
      assert NoDuplicates(here) by {
        forall i, j | 0 <= i < j < |here| ensures here[i] != here[j] {
          InstanceKeyInjective(t, i + 1, t, j + 1);
        }
      }
      forall i | 0 <= i < |here| ensures here[i] !in rest {
        HeadKeysNotInRest(plan, ccUsers, i + 1);
      }
      NoDuplicatesAppend(here, rest);
    }
  }

  lemma DistinctPlanDistinctKeys(plan: seq<(string, nat)>, ccUsers: nat)
    ensures DistinctTypes(plan) ==> NoDuplicates(PlanKeys(plan, ccUsers))
  {
    if DistinctTypes(plan) { PlanKeysDistinct(plan, ccUsers); }
  }

  /** Rendering: parameter details, a TypeError for a non-integer customer number, or the VM specs. */
  function Render(req: Request): (r: Rendered)
    ensures req.DetailsRequest? ==> r.Details?
    ensures req.DeployRequest? ==> (r.TypeError? <==> req.custNum.TextParam?)
    ensures r.VmSpecs? ==> ParseFolderName(r.folder) == Some((req.datacenterId, req.custNum.n))
    ensures r.VmSpecs? && DistinctTypes(req.plan) ==> NoDuplicates(r.instances)
  {
    match req
    case DetailsRequest => Details(TemplateSpecKeys, MandatoryParameters, OptionalParameters)
    case DeployRequest(dc, cust, cc, _, plan) =>
      match cust
      case TextParam(_) => TypeError
      case IntParam(n) =>
        FolderNameRoundTrip(dc, n);
        DistinctPlanDistinctKeys(plan, cc);
        VmSpecs(PlanKeys(plan, cc), FolderName(dc, n))
  }

  /** template_details lists the template's name and description and its parameter names. */
  lemma TemplateDetailsNames()
    ensures var d := Render(DetailsRequest);
            && "template_name" in d.templateSpecs && "template_description" in d.templateSpecs
            && (forall p :: p in ["datacenter_id", "cust_num", "cust_name", "cc_users", "uc_users"] ==> p in d.mandatory)
            && "primary" in d.optional && "secondary" in d.optional
  {
  }

  /** A customer without contact-centre users gets neither cms_instance_1 nor aes_instance_1. */
  lemma UcOnlyExclusions(dc: string, n: nat, ucUsers: nat, plan: seq<(string, nat)>)
    ensures var r := Render(DeployRequest(dc, IntParam(n), 0, ucUsers, plan));
            && InstanceKey("cms", 1) !in r.instances
            && InstanceKey("aes", 1) !in r.instances
  {
    PlanKeysMembership(plan, 0, "cms", 1);
    PlanKeysMembership(plan, 0, "aes", 1);
  }

  /** The customer number 'two' is refused, whatever else the request holds. */
  lemma InvalidCustomerNumber(dc: string, cc: nat, uc: nat, plan: seq<(string, nat)>)
    ensures Render(DeployRequest(dc, TextParam("two"), cc, uc, plan)) == TypeError
  {
  }
}
