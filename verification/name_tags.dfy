/**
 * The Name tags of the VPC and its subnets, the layer lookup that names a
 * private subnet, and the other names built from project and environment.
 */
module NameTags {
  import opened Wrappers
  import opened Text
  import opened StackConfig

  const NameKey: string := "Name"

  /** `availabilityZone.split('-').pop()`: "us-east-1a" gives "1a". */
  function AzIdentifier(az: string): string {
    LastSegment(az, '-')
  }

  function VpcName(project: string, env: string): string {
    "vpc-" + project + "-" + env
  }

  function PublicSubnetName(project: string, env: string, azIdentifier: string): string {
    "public-" + project + "-" + env + "-" + azIdentifier
  }

  function PrivateSubnetName(project: string, env: string, layer: string, azIdentifier: string): string {
    "private-" + project + "-" + env + "-" + layer + "-" + azIdentifier
  }

  /** The endpoint security group's name. */
  function SecurityGroupName(project: string, env: string): string {
    "vpc-endpoints-" + project + "-" + env + "-sg"
  }

  /** The flow-log group's name. */
  function FlowLogGroupName(project: string, env: string): string {
    "/vpc/flowlogs/" + project + "-" + env
  }

  /** A subnet's Name tag ends with its AZ identifier, which can be read back from it. */
  lemma SubnetNamesEndWithAz(project: string, env: string, layer: string, az: string)
    ensures AzIdentifier(PublicSubnetName(project, env, AzIdentifier(az))) == AzIdentifier(az)
    ensures AzIdentifier(PrivateSubnetName(project, env, layer, AzIdentifier(az))) == AzIdentifier(az)
  {
    LastSegmentAfterSeparator("public-" + project + "-" + env, AzIdentifier(az), '-');
    LastSegmentAfterSeparator("private-" + project + "-" + env + "-" + layer, AzIdentifier(az), '-');
  }

  /** Public subnets in different AZs get different Name tags. */
  lemma PublicSubnetNamesDistinct(project: string, env: string, az: string, az': string)
    requires AzIdentifier(az) != AzIdentifier(az')
    ensures PublicSubnetName(project, env, AzIdentifier(az)) != PublicSubnetName(project, env, AzIdentifier(az'))
  {
    SubnetNamesEndWithAz(project, env, "", az);
    SubnetNamesEndWithAz(project, env, "", az');
  }

  /** For one project, the VPC's Name tag determines the environment. */
  lemma VpcNameDeterminesEnvironment(project: string, env: string, env': string)
    ensures VpcName(project, env) == VpcName(project, env') ==> env == env'
  {
    PrefixCancel("vpc-" + project + "-", env, env');
  }

  /** For one project, the endpoint security group's name determines the environment. */
  lemma SecurityGroupNameDeterminesEnvironment(project: string, env: string, env': string)
    ensures SecurityGroupName(project, env) == SecurityGroupName(project, env') ==> env == env'
  {
    SuffixCancel("vpc-endpoints-" + project + "-" + env, "vpc-endpoints-" + project + "-" + env', "-sg");
    PrefixCancel("vpc-endpoints-" + project + "-", env, env');
  }

  /** For one project, the flow-log group's name determines the environment. */
  lemma FlowLogGroupNameDeterminesEnvironment(project: string, env: string, env': string)
    ensures FlowLogGroupName(project, env) == FlowLogGroupName(project, env') ==> env == env'
  {
    PrefixCancel("/vpc/flowlogs/" + project + "-", env, env');
  }

  // ---------------------------------------------------------------------------
  // Layer lookup

  /** Layer `k` is the first whose name occurs in `nodeId`. */
  ghost predicate FirstMatch(layers: seq<Layer>, nodeId: string, k: nat) {
    && k < |layers|
    && Contains(nodeId, layers[k].name)
    && forall q :: 0 <= q < k ==> !Contains(nodeId, layers[q].name)
  }

  /** `find` over the layers from position `from` on. */
  function FindLayerFrom(layers: seq<Layer>, nodeId: string, from: nat): (r: Option<nat>)
    requires from <= |layers|
    ensures r.Some? ==> from <= r.value < |layers| && Contains(nodeId, layers[r.value].name)
    ensures r.Some? ==> forall q :: from <= q < r.value ==> !Contains(nodeId, layers[q].name)
    ensures r.None? ==> forall q :: from <= q < |layers| ==> !Contains(nodeId, layers[q].name)
    decreases |layers| - from
  {
    if from == |layers| then None
    else if Contains(nodeId, layers[from].name) then Some(from)
    else FindLayerFrom(layers, nodeId, from + 1)
  }

  /** `Object.keys(subnet_layers).find(layer => nodeId.includes(layer))`. */
  function FindLayer(layers: seq<Layer>, nodeId: string): (r: Option<string>)
    ensures r.None? <==> forall k :: 0 <= k < |layers| ==> !Contains(nodeId, layers[k].name)
    ensures r.Some? ==> exists k: nat :: FirstMatch(layers, nodeId, k) && layers[k].name == r.value
  {
    match FindLayerFrom(layers, nodeId, 0)
    case Some(k) =>
      assert FirstMatch(layers, nodeId, k);
      Some(layers[k].name)
    case None => None
  }

  // ---------------------------------------------------------------------------
  // Tags and warnings

  datatype TagTarget = VpcTarget | SubnetTarget(subnet: Subnet)

  datatype Tag = Tag(target: TagTarget, key: string, value: string)

  /** A `console.warn` entry: no layer could be found for the private subnet with this id. */
  datatype Warning = UnresolvedLayer(nodeId: string)

  function WarningText(w: Warning): string {
    "Unable to determine layer name for private subnet with ID: " + w.nodeId
  }

  /** A warning's text names the subnet it is about: different warnings read differently. */
  lemma WarningTextInjective(w: Warning, w': Warning)
    ensures WarningText(w) == WarningText(w') ==> w == w'
  {
    PrefixCancel("Unable to determine layer name for private subnet with ID: ", w.nodeId, w'.nodeId);
  }

  /** What tagging one private subnet produces: a Name tag or a warning. */
  datatype NameOutcome = Tagged(tag: Tag) | Warned(warning: Warning)

  /**
   * The body of the private-subnet loop once the layer lookup has run. The
   * found key is tested for truthiness, so an empty layer name gives a warning.
   */
  function NameOutcomeOf(cfg: Config, env: string, subnet: Subnet, layerName: Option<string>): NameOutcome {
    if layerName.Some? && layerName.value != "" then
      Tagged(Tag(SubnetTarget(subnet), NameKey,
                 PrivateSubnetName(cfg.projectName, env, layerName.value, AzIdentifier(subnet.availabilityZone))))
    else
      Warned(UnresolvedLayer(subnet.nodeId))
  }

  /** One iteration of the private-subnet loop: look up the layer, then tag or warn. */
  function ResolvePrivateName(cfg: Config, env: string, subnet: Subnet): NameOutcome {
    NameOutcomeOf(cfg, env, subnet, FindLayer(cfg.subnetLayers, subnet.nodeId))
  }

  /**
   * A private subnet is tagged exactly when the first layer whose name
   * occurs in its id has a non-empty name, and the tag carries that layer;
   * otherwise the outcome is the warning.
   */
  lemma PrivateNameResolution(cfg: Config, env: string, subnet: Subnet)
    ensures var o := ResolvePrivateName(cfg, env, subnet);
      && (o.Tagged? <==>
            exists k: nat :: FirstMatch(cfg.subnetLayers, subnet.nodeId, k) && cfg.subnetLayers[k].name != "")
      && (o.Tagged? ==>
            exists k: nat :: (FirstMatch(cfg.subnetLayers, subnet.nodeId, k)
              && o.tag == Tag(SubnetTarget(subnet), "Name",
                              PrivateSubnetName(cfg.projectName, env, cfg.subnetLayers[k].name, AzIdentifier(subnet.availabilityZone)))))
      && (o.Warned? ==> o.warning == UnresolvedLayer(subnet.nodeId))
  {
  }

  /** A subnet none of whose layers' names occur in its id is never tagged. */
  lemma UnmatchedSubnetWarns(cfg: Config, env: string, subnet: Subnet)
    requires forall k :: 0 <= k < |cfg.subnetLayers| ==> !Contains(subnet.nodeId, cfg.subnetLayers[k].name)
    ensures ResolvePrivateName(cfg, env, subnet) == Warned(UnresolvedLayer(subnet.nodeId))
  {
  }

  function VpcTag(cfg: Config, env: string): Tag {
    Tag(VpcTarget, NameKey, VpcName(cfg.projectName, env))
  }

  /** One iteration of the public-subnet loop. */
  function PublicNameTag(cfg: Config, env: string, subnet: Subnet): Tag {
    Tag(SubnetTarget(subnet), NameKey, PublicSubnetName(cfg.projectName, env, AzIdentifier(subnet.availabilityZone)))
  }

  function PublicNameTags(cfg: Config, env: string, subnets: seq<Subnet>): (r: seq<Tag>)
    ensures |r| == |subnets|
  {
    if |subnets| == 0 then []
    else PublicNameTags(cfg, env, subnets[..|subnets| - 1]) + [PublicNameTag(cfg, env, subnets[|subnets| - 1])]
  }

  /** Tag k of the public-subnet list is the tag of public subnet k. */
  lemma {:induction false} PublicNameTagsAt(cfg: Config, env: string, subnets: seq<Subnet>, k: nat)
    requires k < |subnets|
    ensures PublicNameTags(cfg, env, subnets)[k] == PublicNameTag(cfg, env, subnets[k])
  {
    var init := subnets[..|subnets| - 1];
    if k < |subnets| - 1 {
      PublicNameTagsAt(cfg, env, init, k);
      assert init[k] == subnets[k];
    }
  }

  lemma PublicNameTagsIncluded(cfg: Config, env: string, subnets: seq<Subnet>)
    ensures forall k :: 0 <= k < |subnets| ==> PublicNameTag(cfg, env, subnets[k]) in PublicNameTags(cfg, env, subnets)
  {
    forall k | 0 <= k < |subnets|
      ensures PublicNameTag(cfg, env, subnets[k]) in PublicNameTags(cfg, env, subnets)
    {
      PublicNameTagsAt(cfg, env, subnets, k);
    }
  }

  function Outcomes(cfg: Config, env: string, subnets: seq<Subnet>): seq<NameOutcome> {
    seq(|subnets|, k requires 0 <= k < |subnets| => ResolvePrivateName(cfg, env, subnets[k]))
  }

  lemma OutcomesAt(cfg: Config, env: string, subnets: seq<Subnet>, k: nat)
    requires k < |subnets|
    ensures Outcomes(cfg, env, subnets)[k]
         == NameOutcomeOf(cfg, env, subnets[k], FindLayer(cfg.subnetLayers, subnets[k].nodeId))
  {
  }

  function TagsOf(os: seq<NameOutcome>): seq<Tag> {
    if |os| == 0 then []
    else TagsOf(os[..|os| - 1]) + (if os[|os| - 1].Tagged? then [os[|os| - 1].tag] else [])
  }

  function WarningsOf(os: seq<NameOutcome>): seq<Warning> {
    if |os| == 0 then []
    else WarningsOf(os[..|os| - 1]) + (if os[|os| - 1].Warned? then [os[|os| - 1].warning] else [])
  }

  /** Extending the outcomes by one adds that outcome's tag or warning at the end. */
  lemma OutcomesStep(os: seq<NameOutcome>, k: nat)
    requires k < |os|
    ensures TagsOf(os[..k + 1]) == TagsOf(os[..k]) + (if os[k].Tagged? then [os[k].tag] else [])
    ensures WarningsOf(os[..k + 1]) == WarningsOf(os[..k]) + (if os[k].Warned? then [os[k].warning] else [])
  {
    assert os[..k + 1][..k] == os[..k];
  }

  /** Every outcome is either a tag or a warning, never both and never lost. */
  lemma {:induction false} OutcomesPartition(os: seq<NameOutcome>)
    ensures |TagsOf(os)| + |WarningsOf(os)| == |os|
    ensures forall t :: t in TagsOf(os) <==> Tagged(t) in os
    ensures forall m :: m in WarningsOf(os) <==> Warned(m) in os
  {
    if |os| > 0 {
      var init := os[..|os| - 1];
      OutcomesPartition(init);
      assert os == init + [os[|os| - 1]];
    }
  }

  /** The tags the constructor adds, in order: VPC, public subnets, resolved private subnets. */
  function NameTagsOf(cfg: Config, env: string, vpc: Vpc): seq<Tag> {
    [VpcTag(cfg, env)] + PublicNameTags(cfg, env, vpc.publicSubnets)
      + TagsOf(Outcomes(cfg, env, vpc.privateSubnets))
  }

  function NameWarningsOf(cfg: Config, env: string, vpc: Vpc): seq<Warning> {
    WarningsOf(Outcomes(cfg, env, vpc.privateSubnets))
  }

  /** Every private subnet's tag or warning is among those its outcomes yield. */
  lemma OutcomesIncluded(cfg: Config, env: string, subnets: seq<Subnet>)
    ensures forall k :: 0 <= k < |subnets| ==>
      match ResolvePrivateName(cfg, env, subnets[k])
      case Tagged(t) => t in TagsOf(Outcomes(cfg, env, subnets))
      case Warned(m) => m in WarningsOf(Outcomes(cfg, env, subnets))
  {
    var os := Outcomes(cfg, env, subnets);
    OutcomesPartition(os);
    forall k | 0 <= k < |subnets|
      ensures match ResolvePrivateName(cfg, env, subnets[k])
              case Tagged(t) => t in TagsOf(os)
              case Warned(m) => m in WarningsOf(os)
    {
      assert os[k] in os;
    }
  }

  /**
   * Tagging never aborts: the VPC and every public subnet get a Name tag,
   * and every private subnet gets either its tag or its warning.
   */
  lemma TaggingIsTotal(cfg: Config, env: string, vpc: Vpc)
    ensures |NameTagsOf(cfg, env, vpc)| + |NameWarningsOf(cfg, env, vpc)|
         == 1 + |vpc.publicSubnets| + |vpc.privateSubnets|
    ensures VpcTag(cfg, env) in NameTagsOf(cfg, env, vpc)
    ensures forall k :: 0 <= k < |vpc.publicSubnets| ==>
      PublicNameTag(cfg, env, vpc.publicSubnets[k]) in NameTagsOf(cfg, env, vpc)
    ensures forall k :: 0 <= k < |vpc.privateSubnets| ==>
      match ResolvePrivateName(cfg, env, vpc.privateSubnets[k])
      case Tagged(t) => t in NameTagsOf(cfg, env, vpc)
      case Warned(m) => m in NameWarningsOf(cfg, env, vpc)
  {
    var os := Outcomes(cfg, env, vpc.privateSubnets);
    OutcomesPartition(os);
    OutcomesIncluded(cfg, env, vpc.privateSubnets);
    PublicNameTagsIncluded(cfg, env, vpc.publicSubnets);
  }



  /** `vpc.publicSubnets.forEach(...)`: one Name tag per public subnet. */
  method TagPublicSubnets(cfg: Config, env: string, subnets: seq<Subnet>) returns (tags: seq<Tag>)
    ensures tags == PublicNameTags(cfg, env, subnets)
  {
    tags := [];
    var k := 0;
    while k < |subnets|
      invariant k <= |subnets|
      invariant tags == PublicNameTags(cfg, env, subnets[..k])
    {
      assert subnets[..k + 1][..k] == subnets[..k];
      tags := tags + [PublicNameTag(cfg, env, subnets[k])];
      k := k + 1;
    }
    assert subnets[..k] == subnets;
  }

  /** `vpc.privateSubnets.forEach(...)`: a Name tag, or a warning when no layer is found. */
  method TagPrivateSubnets(cfg: Config, env: string, subnets: seq<Subnet>)
    returns (tags: seq<Tag>, warnings: seq<Warning>)
    ensures tags == TagsOf(Outcomes(cfg, env, subnets))
    ensures warnings == WarningsOf(Outcomes(cfg, env, subnets))
  {
    ghost var os := Outcomes(cfg, env, subnets);
    tags, warnings := [], [];
    var k := 0;
    while k < |subnets|
      invariant k <= |subnets|
      invariant tags == TagsOf(os[..k])
      invariant warnings == WarningsOf(os[..k])
    {
      var subnet := subnets[k];
      var layerName := FindLayer(cfg.subnetLayers, subnet.nodeId);
      var outcome := NameOutcomeOf(cfg, env, subnet, layerName);
      OutcomesAt(cfg, env, subnets, k);
      OutcomesStep(os, k);
      if outcome.Tagged? {
        tags := tags + [outcome.tag];
      } else {
        warnings := warnings + [outcome.warning];
      }
      k := k + 1;
    }
    assert os[..k] == os;
  }

  /** The VPC's Name tag, then the two `forEach` loops over the subnets. */
  method ApplyNameTags(cfg: Config, env: string, vpc: Vpc) returns (tags: seq<Tag>, warnings: seq<Warning>)
    ensures tags == NameTagsOf(cfg, env, vpc)
    ensures warnings == NameWarningsOf(cfg, env, vpc)
  {
    tags := [Tag(VpcTarget, NameKey, VpcName(cfg.projectName, env))];
    var publicTags := TagPublicSubnets(cfg, env, vpc.publicSubnets);
    var privateTags;
    privateTags, warnings := TagPrivateSubnets(cfg, env, vpc.privateSubnets);
    tags := tags + publicTags + privateTags;
  }
}
