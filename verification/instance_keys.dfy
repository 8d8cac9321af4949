/**
 * Instance keys name one VM of a deployment plan: `<type>_instance_<n>`,
 * e.g. `cms_instance_1`. The type part selects per-type behaviour elsewhere.
 */
module InstanceKeys {
  import opened Strings

  const InstanceInfix: string := "_instance_"

  function InstanceKey(vmType: string, n: nat): string {
    vmType + InstanceInfix + NatToString(n)
  }

  /** The type and number of an instance key; None when the text is not one. */
  function ParseInstanceKey(key: string): (r: Option<(string, nat)>)
    ensures r.Some? ==> exists d :: 0 < |d| && AllDigits(d) && ParseNat(d) == r.value.1
                                    && key == r.value.0 + InstanceInfix + d
  {
    var k := TrailingDigits(key);
    if k == 0 then None
    else
      var head := key[..|key| - k];
      var d := key[|key| - k..];
      if !EndsWith(head, InstanceInfix) then None
      else
        var t := head[..|head| - |InstanceInfix|];
        assert head == t + InstanceInfix;
        assert key == t + InstanceInfix + d;
        Some((t, ParseNat(d)))
  }

  /** Every instance key parses back to the type and number it was built from. */
  lemma InstanceKeyRoundTrip(vmType: string, n: nat)
    ensures ParseInstanceKey(InstanceKey(vmType, n)) == Some((vmType, n))
  {
    var d := NatToString(n);
    var head := vmType + InstanceInfix;
    var key := InstanceKey(vmType, n);
    assert key == head + d;
    TrailingDigitsOfNumber(head, d);
    assert key[..|key| - |d|] == head;
    assert key[|key| - |d|..] == d;
    assert head[|head| - |InstanceInfix|..] == InstanceInfix;
    assert head[..|head| - |InstanceInfix|] == vmType;
    ParseNatToString(n);
  }

  /** Two instance keys are equal exactly when their types and numbers are. */
  lemma InstanceKeyInjective(t1: string, n1: nat, t2: string, n2: nat)
    ensures InstanceKey(t1, n1) == InstanceKey(t2, n2) <==> t1 == t2 && n1 == n2
  {
    if InstanceKey(t1, n1) == InstanceKey(t2, n2) {
      InstanceKeyRoundTrip(t1, n1);
      InstanceKeyRoundTrip(t2, n2);
    }
  }

  /** The VM type of an instance key, when the text is one. */
  function VmTypeOf(key: string): (t: Option<string>)
    ensures forall vmType: string, n: nat :: key == InstanceKey(vmType, n) ==> t == Some(vmType)
  {
    forall vmType: string, n: nat | key == InstanceKey(vmType, n)
      ensures ParseInstanceKey(key) == Some((vmType, n))
    {
      InstanceKeyRoundTrip(vmType, n);
    }
    match ParseInstanceKey(key)
    case Some((t, _)) => Some(t)
    case None => None
  }
}
