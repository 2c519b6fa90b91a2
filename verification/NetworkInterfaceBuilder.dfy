/** The network interface built for a VM: one IP configuration per entry of the first interface of
    the spec, backend pools on the primary ones. */
module NetworkInterfaceBuilder {
  import opened Basics
  import V1Beta2

  /** An IP configuration as handed to the network interface service. */
  datatype IPConfig = IPConfig(name: string, primary: bool)

  /** An IP configuration of the created interface. */
  datatype NicIPConfig = NicIPConfig(
    name: string, primary: Option<bool>, subnet: string, pools: Option<seq<string>>, privateIP: Option<string>)

  /** The decimal digits of a number, as the verb %d writes them. */
  function Decimal(n: nat): (s: string)
    ensures s != []
  {
    if n < 10 then [Digit(n)] else Decimal(n / 10) + [Digit(n % 10)]
  }

  function Digit(d: nat): char
    requires d < 10
  {
    "0123456789"[d]
  }

  /** The number that a string of digits writes. */
  ghost function Written(s: string): int {
    if s == [] then 0 else 10 * Written(s[..|s| - 1]) + (s[|s| - 1] as int - '0' as int)
  }

  /** The digits write the number, without a leading zero. */
  lemma {:induction false} DecimalWrites(n: nat)
    ensures Written(Decimal(n)) == n
    ensures Decimal(n)[0] == '0' <==> n == 0
    ensures forall c :: c in Decimal(n) ==> '0' <= c <= '9'
  {
    var s := Decimal(n);
    if n >= 10 {
      DecimalWrites(n / 10);
      assert s[..|s| - 1] == Decimal(n / 10);
    } else {
      assert s[..|s| - 1] == [];
    }
  }

  const IPCONFIG_INFIX := "-ipconfig-"

  /** `GenerateIPConfigName` */
  function GeneratedName(nicName: string, i: nat): string {
    nicName + IPCONFIG_INFIX + Decimal(i)
  }

  /** No two generated names coincide. */
  lemma GeneratedNamesDiffer(nicName: string, i: nat, j: nat)
    requires i != j
    ensures GeneratedName(nicName, i) != GeneratedName(nicName, j)
  {
    var p := nicName + IPCONFIG_INFIX;
    if GeneratedName(nicName, i) == GeneratedName(nicName, j) {
      assert GeneratedName(nicName, i)[|p|..] == Decimal(i);
      assert GeneratedName(nicName, j)[|p|..] == Decimal(j);
      DecimalWrites(i);
      DecimalWrites(j);
    }
  }

  function ConfigOf(nicName: string, spec: V1Beta2.IpConfiguration, i: nat): IPConfig {
    IPConfig(if spec.name == "" then GeneratedName(nicName, i) else spec.name, spec.primary)
  }

  /** The loop of `Create` over the entries of the first interface. */
  method BuildConfigs(nicName: string, entries: seq<V1Beta2.IpConfiguration>) returns (configs: seq<IPConfig>)
    ensures |configs| == |entries|
    ensures forall i :: 0 <= i < |entries| ==> configs[i] == ConfigOf(nicName, entries[i], i)
    ensures forall i :: 0 <= i < |entries| ==>
      && configs[i].primary == entries[i].primary
      && (entries[i].name != "" ==> configs[i].name == entries[i].name)
      && (entries[i].name == "" ==> configs[i].name == nicName + "-ipconfig-" + Decimal(i))
  {
    configs := [];
    for i := 0 to |entries|
      invariant |configs| == i && forall k :: 0 <= k < i ==> configs[k] == ConfigOf(nicName, entries[k], k)
    {
      var name := entries[i].name;
      if |name| == 0 {
        name := GeneratedName(nicName, i);
      }
      configs := configs + [IPConfig(name, entries[i].primary)];
    }
  }

  /** What the interface must look like for the given configurations. */
  ghost predicate IsInterfaceFor(
    out: seq<NicIPConfig>, configs: seq<IPConfig>, vnet: string, pools: seq<string>, staticIP: string)
  {
    if configs == [] then
      out == [NicIPConfig("pipConfig", None, vnet, Some(pools), if staticIP != "" then Some(staticIP) else None)]
    else
      && |out| == |configs|
      && forall i :: 0 <= i < |configs| ==>
           out[i] == NicIPConfig(configs[i].name, Some(configs[i].primary), vnet,
                                 if configs[i].primary then Some(pools) else None, None)
  }

  /** The construction in the network interface service's `Reconcile`. */
  method BuildInterface(configs: seq<IPConfig>, vnet: string, poolNames: seq<string>, staticIP: string)
    returns (out: seq<NicIPConfig>)
    ensures IsInterfaceFor(out, configs, vnet, poolNames, staticIP)
  {
    var pools: seq<string> := [];
    for i := 0 to |poolNames|
      invariant pools == poolNames[..i]
    {
      pools := pools + [poolNames[i]];
    }
    assert pools == poolNames;
    var privateIP := if staticIP != "" then Some(staticIP) else None;
    out := [];
    if |configs| > 0 {
      for i := 0 to |configs|
        invariant |out| == i
        invariant forall k :: 0 <= k < i ==>
          out[k] == NicIPConfig(configs[k].name, Some(configs[k].primary), vnet,
                                if configs[k].primary then Some(poolNames) else None, None)
      {
        var config := NicIPConfig(configs[i].name, Some(configs[i].primary), vnet, None, None);
        if configs[i].primary {
          config := config.(pools := Some(pools));
        }
        out := out + [config];
      }
    } else {
      out := out + [NicIPConfig("pipConfig", None, vnet, Some(pools), privateIP)];
    }
  }

  /** The VM joins its backend pools through some configuration of the interface. */
  ghost predicate JoinsPools(out: seq<NicIPConfig>, pools: seq<string>) {
    exists i :: 0 <= i < |out| && out[i].pools == Some(pools)
  }

  /** From the spec to the interface: the VM joins its backend pools exactly when the spec lists no
      entry or marks one primary, and two configurations get the same name exactly when a name given
      in the spec is repeated there or is the one generated for another entry. */
  lemma InterfaceOfSpec(
    nicName: string, entries: seq<V1Beta2.IpConfiguration>, configs: seq<IPConfig>, out: seq<NicIPConfig>,
    vnet: string, pools: seq<string>, staticIP: string)
    requires |configs| == |entries| && forall i :: 0 <= i < |entries| ==> configs[i] == ConfigOf(nicName, entries[i], i)
    requires IsInterfaceFor(out, configs, vnet, pools, staticIP)
    ensures JoinsPools(out, pools) <==> entries == [] || exists i :: 0 <= i < |entries| && entries[i].primary
    ensures forall i, j :: 0 <= i < j < |entries| ==>
      (out[i].name == out[j].name <==>
        || (entries[i].name == entries[j].name && entries[i].name != "")
        || (entries[i].name == "" && entries[j].name == GeneratedName(nicName, i))
        || (entries[j].name == "" && entries[i].name == GeneratedName(nicName, j)))
  {
    if entries == [] {
      assert out[0].pools == Some(pools);
    } else if exists i :: 0 <= i < |entries| && entries[i].primary {
      var i :| 0 <= i < |entries| && entries[i].primary;
      assert configs[i].primary && out[i].pools == Some(pools);
    }
    if JoinsPools(out, pools) {
      var i :| 0 <= i < |out| && out[i].pools == Some(pools);
      assert entries == [] || (configs[i].primary && entries[i].primary);
    }
    forall i, j | 0 <= i < j < |entries|
      ensures out[i].name == out[j].name <==>
        || (entries[i].name == entries[j].name && entries[i].name != "")
        || (entries[i].name == "" && entries[j].name == GeneratedName(nicName, i))
        || (entries[j].name == "" && entries[i].name == GeneratedName(nicName, j))
    {
      GeneratedNamesDiffer(nicName, i, j);
      assert out[i].name == configs[i].name && out[j].name == configs[j].name;
    }
  }
}
