/**
 * The inputs of the stack: the per-environment configuration entry and the
 * subnets the VPC construct produced from it. The VPC library's own
 * allocation is not modelled; its results arrive here as plain records.
 */
module StackConfig {
  import opened Wrappers

  /** One entry of `subnet_layers`: a layer name and its CIDR mask (already decimal-converted). */
  datatype Layer = Layer(name: string, mask: nat)

  /**
   * The fields of the configuration entry that the planning logic reads.
   * `subnetLayers` is in `Object.keys` order; `additionalCidrs` is `None`
   * when `additional_cidrs` is absent (falsy).
   */
  datatype Config = Config(
    projectName: string,
    createPublicSubnets: bool,
    publicSubnetMaskBits: nat,
    subnetLayers: seq<Layer>,
    useTransitGateway: bool,
    transitGatewayId: string,
    additionalCidrs: Option<seq<string>>,
    publicSubnetWithTgwEnabled: bool,
    sessionManagerEndpointsEnabled: bool)

  /** A subnet construct as the stack sees it: its construct id and path, and what the VPC assigned. */
  datatype Subnet = Subnet(
    nodeId: string,
    path: string,
    subnetId: string,
    availabilityZone: string,
    routeTableId: string)

  /**
   * What the stack reads back from the VPC construct: `vpc.publicSubnets`,
   * `vpc.privateSubnets` and the subnets of `vpc.selectSubnets()`, each in
   * the library's order.
   */
  datatype Vpc = Vpc(
    publicSubnets: seq<Subnet>,
    privateSubnets: seq<Subnet>,
    selectedSubnets: seq<Subnet>)

  /** Sibling constructs under the VPC have distinct ids. */
  ghost predicate DistinctNodeIds(subnets: seq<Subnet>) {
    forall a, b :: 0 <= a < |subnets| && 0 <= b < |subnets| && a != b ==>
      subnets[a].nodeId != subnets[b].nodeId
  }

  /** No subnet is both public and private. */
  ghost predicate KindsDisjoint(vpc: Vpc) {
    forall s :: s in vpc.publicSubnets ==> s !in vpc.privateSubnets
  }
}
