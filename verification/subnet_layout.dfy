/** The `subnetConfiguration` handed to the VPC construct. */
module SubnetLayout {
  import opened Wrappers
  import opened StackConfig

  datatype SubnetType = Public | PrivateWithEgress

  /** One subnet group; `mapPublicIpOnLaunch` is `None` where the entry leaves it unset. */
  datatype SubnetConfiguration = SubnetConfiguration(
    name: string,
    cidrMask: nat,
    subnetType: SubnetType,
    mapPublicIpOnLaunch: Option<bool>)

  const PublicGroupName: string := "public"

  function PublicEntry(cfg: Config): SubnetConfiguration {
    SubnetConfiguration(PublicGroupName, cfg.publicSubnetMaskBits, Public, Some(false))
  }

  function LayerEntry(layer: Layer): SubnetConfiguration {
    SubnetConfiguration(layer.name, layer.mask, PrivateWithEgress, None)
  }

  function LayerEntries(layers: seq<Layer>): seq<SubnetConfiguration> {
    seq(|layers|, k requires 0 <= k < |layers| => LayerEntry(layers[k]))
  }

  /**
   * The conditional list: a public group first when public subnets are
   * enabled, then one private-with-egress group per layer in key order.
   */
  function SubnetConfigurations(cfg: Config): (r: seq<SubnetConfiguration>)
    ensures var offset := if cfg.createPublicSubnets then 1 else 0;
      && |r| == |cfg.subnetLayers| + offset
      && (forall k :: 0 <= k < |cfg.subnetLayers| ==>
            && r[k + offset].name == cfg.subnetLayers[k].name
            && r[k + offset].cidrMask == cfg.subnetLayers[k].mask
            && r[k + offset].subnetType == PrivateWithEgress
            && r[k + offset].mapPublicIpOnLaunch == None)
    ensures cfg.createPublicSubnets ==>
      && r[0].name == "public"
      && r[0].cidrMask == cfg.publicSubnetMaskBits
      && r[0].subnetType == Public
      && r[0].mapPublicIpOnLaunch == Some(false)
    ensures forall k :: 0 <= k < |r| ==> (r[k].subnetType == Public <==> cfg.createPublicSubnets && k == 0)
  {
    if cfg.createPublicSubnets then [PublicEntry(cfg)] + LayerEntries(cfg.subnetLayers)
    else LayerEntries(cfg.subnetLayers)
  }

  /** The two branches agree on the private groups: the toggle only prepends the public one. */
  lemma PublicToggleOnlyPrepends(cfg: Config)
    ensures SubnetConfigurations(cfg.(createPublicSubnets := true))
         == [PublicEntry(cfg)] + SubnetConfigurations(cfg.(createPublicSubnets := false))
  {
  }
}
