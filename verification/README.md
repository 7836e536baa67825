# cdk-vpc network planning, modelled in Dafny

This project models the decision logic of the `CdkVpcStack` constructor
(`lib/cdk-vpc-stack.ts`). From one environment's configuration entry the
constructor:

- builds the `subnetConfiguration` list for the VPC;
- picks the subnets of the last subnet layer and attaches them to a transit gateway;
- sends every selected subnet's default route (`0.0.0.0/0`) through the gateway;
- fans out routes to the `additional_cidrs`;
- writes the `Name` tags of the VPC and its subnets;
- derives the names of the endpoint security group and the flow-log group.

The AWS constructs are plain records here. The VPC library's output is an input
(`StackConfig.Vpc`), because the model does not include that library. That input
holds the public subnets, the private subnets and the subnets that
`selectSubnets()` returns. Each subnet has a construct id, a path, a subnet id,
an availability zone and a route-table id.

Files and modules:

- `wrappers.dfy` (`Wrappers`): `Option` and `Result`.
- `text.dfy` (`Text`): models `includes`, `split('-').pop()` and the decimal
  rendering of an index in a template literal. It also holds the facts that make
  construct ids unambiguous.
- `sequences.dfy` (`Sequences`): flattening a sequence of sequences, and the
  position of each element in the result.
- `stack_config.dfy` (`StackConfig`): the configuration entry, layers, subnets and
  the VPC view.
- `subnet_layout.dfy` (`SubnetLayout`): the subnet-configuration builder.
- `tgw_routing.dfy` (`TransitGatewayRouting`): last-layer selection, the
  attachment and route emission. The loops are methods proved against
  specification functions (`PlannedRoutes`, `FannedCidrRoutes`, ...). Lemmas about
  those functions give counts, positions, route tables, dependencies and construct-id
  uniqueness.
- `name_tags.dfy` (`NameTags`): the tag formats, the layer lookup, and the tagging
  loops with their warnings.
- `vpc_stack.dfy` (`VpcStack`): the constructor's planning steps in source order.

The model follows the code in these places:

- The code does not deduplicate routes per route table. Every route the loops
  reach is emitted. Without public-subnet widening, that is one route per
  (selected subnet, CIDR) pair. With widening, each (VPC subnet, CIDR) pair is
  emitted once per selected subnet (see Findings).
- In the branch without public-subnet widening, each additional-CIDR route goes
  on the route table of the outer loop's subnet. That table is the route table
  of the selected subnet at the same index.
- Nothing checks that `transit_gateway_id` is present. The value is passed through.
- An empty `subnet_layers` does not raise a configuration error. The last key is
  then `undefined`, which `includes` and the error template render as the text
  `"undefined"`. The planner fails only if no private subnet's path contains that text.
- The layer lookup tests the found key for truthiness. A layer named `""` that
  matches first therefore gives a warning rather than a tag.
- `additional_cidrs` is tested for presence (`Option`). An empty list is present
  and emits nothing.
- The default routes cover the subnets that `selectSubnets()` returns. That set is
  an input here.

## Model

| member | source | states |
|---|---|---|
| `SubnetLayout.SubnetConfigurations` | lib/cdk-vpc-stack.ts:28-46 | The list length is the number of layers, plus one when public subnets are enabled. That public entry comes first: named `public`, using `public_subnet_mask_bits`, PUBLIC, with `mapPublicIpOnLaunch` false. Then one PRIVATE_WITH_EGRESS entry per layer, in key order, with that layer's name and mask. No other entry is PUBLIC. |
| `SubnetLayout.PublicToggleOnlyPrepends` | lib/cdk-vpc-stack.ts:28-46 | Both branches of the conditional give the same private entries; enabling public subnets only prepends the public entry. |
| `Text.ContainsIsOccurrence` | lib/cdk-vpc-stack.ts:51 | The `includes` model is true exactly when the needle occurs at some position of the text. |
| `Text.LastSegment` | lib/cdk-vpc-stack.ts:106 | `split('-').pop()` returns a suffix of the AZ that contains no `-`. It is the whole string when there is no `-`; otherwise a `-` comes right before it. |
| `Text.DecimalString` | lib/cdk-vpc-stack.ts:69 | An index renders as a non-empty string of decimal digits. |
| `Text.DecimalRoundTrip` | lib/cdk-vpc-stack.ts:69 | Reading a rendered index back as a decimal number gives the index. |
| `Text.DecimalStringInjective` | lib/cdk-vpc-stack.ts:69 | Different indices render differently. |
| `TransitGatewayRouting.LastLayerSelection` | lib/cdk-vpc-stack.ts:50-51 | A subnet is selected exactly when it is private and its path contains the last layer key. The selection is never longer than the private list. |
| `TransitGatewayRouting.AttachmentExcludesPublic` | lib/cdk-vpc-stack.ts:59-63 | When no subnet is both public and private, no public subnet is among the attached subnets. |
| `TransitGatewayRouting.RouteIdsInjective` | lib/cdk-vpc-stack.ts:69-90 | `TransitGatewayRoute{i}` determines i. `AdditionalCidrRoute{i}-{j}` determines i and j. `AdditionalCidrRoute-{nodeId}-{j}` determines the node id and j. |
| `TransitGatewayRouting.PlanTransitGateway` | lib/cdk-vpc-stack.ts:49-100 | Without a transit gateway: no attachment and no routes. With one and an empty selection: the error naming the last layer key, and nothing emitted. Otherwise: the attachment `TgwAttachment` over the selected subnets' ids, plus the routes of the per-subnet loop, each depending on that attachment. |
| `TransitGatewayRouting.ErrorMessageInjective` | lib/cdk-vpc-stack.ts:55-57 | The thrown message names the last layer: different errors give different messages. |
| `TransitGatewayRouting.EmitIterationRoutes` | lib/cdk-vpc-stack.ts:66-98 | The `forEach` callback emits exactly that iteration's routes: the default route, then the branch's extra routes. |
| `TransitGatewayRouting.IterationRoutes` | lib/cdk-vpc-stack.ts:66-99 | Every iteration of the per-subnet loop emits the same number of routes: one default route plus the branch's extra routes. |
| `TransitGatewayRouting.PlannedRoutesLength` | lib/cdk-vpc-stack.ts:66-99 | The route count is the number of selected subnets times that width: `n`, `n × (1 + |cidrs|)`, or `n × (1 + (|public| + |private|) × |cidrs|)`. |
| `TransitGatewayRouting.PlannedRouteAt` | lib/cdk-vpc-stack.ts:66-99 | Route t of iteration i is at position `i × width + t`, so routes appear in loop order. |
| `TransitGatewayRouting.DefaultRouteAt` | lib/cdk-vpc-stack.ts:66-74 | Selected subnet i gets the route `TransitGatewayRoute{i}` to `0.0.0.0/0`, on its own route table, through the configured gateway, with the common dependency. |
| `TransitGatewayRouting.CidrRouteAt` | lib/cdk-vpc-stack.ts:88-96 | Without public widening, selected subnet i gets the route `AdditionalCidrRoute{i}-{j}` to `additional_cidrs[j]`, on its own (outer) route table. |
| `TransitGatewayRouting.NoExtraRoutesWithoutCidrs` | lib/cdk-vpc-stack.ts:76 | Without `additional_cidrs`, there is exactly one route per selected subnet and all of them go to `0.0.0.0/0`. |
| `TransitGatewayRouting.EveryRouteDependsOn` | lib/cdk-vpc-stack.ts:74 | Every emitted route goes through the configured gateway and carries the dependency `tgwAttachment ?? this`. `PlanTransitGateway` fixes that dependency to the attachment. |
| `TransitGatewayRouting.IterationRouteId` | lib/cdk-vpc-stack.ts:69-90 | Outside the widened branch, route 0 of iteration i has id `TransitGatewayRoute{i}` and route t > 0 has id `AdditionalCidrRoute{i}-{t-1}`. |
| `TransitGatewayRouting.PlannedRouteIdsUnique` | lib/cdk-vpc-stack.ts:66-99 | Outside the widened branch, all construct ids are pairwise distinct. So each (i, j) route is emitted exactly once. |
| `TransitGatewayRouting.FannedCidrRoutes` | lib/cdk-vpc-stack.ts:78-87 | One pass over the public and private subnets emits `(|public| + |private|) × |cidrs|` routes. |
| `TransitGatewayRouting.FannedRouteAt` | lib/cdk-vpc-stack.ts:78-86 | In one pass, subnet k's route to `cidrs[j]` sits at `k × |cidrs| + j`. It has id `AdditionalCidrRoute-{nodeId}-{j}` and is on that subnet's own route table. |
| `TransitGatewayRouting.FannedIdsUnique` | lib/cdk-vpc-stack.ts:78-87 | Within one pass, ids are distinct when the subnets' node ids are distinct. |
| `TransitGatewayRouting.PublicBranchIterationsAgree` | lib/cdk-vpc-stack.ts:66-87 | With public widening, every outer iteration emits the same extra routes: the ids do not depend on the outer index. |
| `TransitGatewayRouting.PublicBranchIterationUnique` | lib/cdk-vpc-stack.ts:66-87 | Within one outer iteration of the widened branch, ids are distinct (the default route included). |
| `TransitGatewayRouting.PublicBranchRepeatsIds` | lib/cdk-vpc-stack.ts:66-87 | With two or more selected subnets, at least one subnet and one CIDR, the same route appears in the first and second iterations, so the full list repeats a construct id. |
| `TransitGatewayRouting.HoistedRouteIdsUnique` | lib/cdk-vpc-stack.ts:77-87 | With the fan-out run once after the loop, construct ids are unique in every branch. |
| `TransitGatewayRouting.HoistedAgreesOnOneSubnet` | lib/cdk-vpc-stack.ts:66-87 | With one selected subnet, the hoisted and the nested fan-out emit the same routes. |
| `TransitGatewayRouting.EmitIndexedCidrRoutes` | lib/cdk-vpc-stack.ts:89-96 | The `forEach` over the CIDRs emits exactly `IndexedCidrRoutes`: one route per CIDR, in order. |
| `TransitGatewayRouting.EmitNamedCidrRoutes` | lib/cdk-vpc-stack.ts:80-86 | The innermost loop emits exactly `NamedCidrRoutes`: one route per CIDR, in order. |
| `TransitGatewayRouting.EmitFannedCidrRoutes` | lib/cdk-vpc-stack.ts:78-87 | The loop over the public and private subnets emits exactly `FannedCidrRoutes`. |
| `NameTags.SubnetNamesEndWithAz` | lib/cdk-vpc-stack.ts:105-119 | Public and private Name tags end with the AZ identifier, and reading the text after their last `-` gives it back. |
| `NameTags.PublicSubnetNamesDistinct` | lib/cdk-vpc-stack.ts:105-108 | Public subnets whose AZ identifiers differ get different Name tags. |
| `NameTags.VpcNameDeterminesEnvironment` | lib/cdk-vpc-stack.ts:103 | For one project, `vpc-{project}-{env}` determines the environment. |
| `NameTags.SecurityGroupNameDeterminesEnvironment` | lib/cdk-vpc-stack.ts:144 | For one project, `vpc-endpoints-{project}-{env}-sg` determines the environment. |
| `NameTags.FlowLogGroupNameDeterminesEnvironment` | lib/cdk-vpc-stack.ts:233 | For one project, `/vpc/flowlogs/{project}-{env}` determines the environment. |
| `NameTags.FindLayerFrom` | lib/cdk-vpc-stack.ts:111-113 | A found index is the first from the start position whose layer name occurs in the node id. When nothing is found, none occurs. |
| `NameTags.FindLayer` | lib/cdk-vpc-stack.ts:111-113 | No layer is found exactly when no layer name occurs in the node id. A found layer is the first layer whose name occurs. |
| `NameTags.PrivateNameResolution` | lib/cdk-vpc-stack.ts:110-124 | A private subnet is tagged exactly when the first matching layer has a non-empty name. Its tag is `private-{project}-{env}-{layer}-{az}` for that layer. Otherwise the outcome is the warning for its node id. |
| `NameTags.UnmatchedSubnetWarns` | lib/cdk-vpc-stack.ts:120-124 | A subnet that no layer name matches yields the warning and no tag. |
| `NameTags.OutcomesPartition` | lib/cdk-vpc-stack.ts:110-125 | Each private subnet contributes exactly one tag or one warning. A tag or warning is in the output exactly when some subnet produced it. |
| `NameTags.TaggingIsTotal` | lib/cdk-vpc-stack.ts:103-125 | Tagging never aborts. Tags plus warnings number one (the VPC) plus all public and private subnets. The VPC tag is in the output, every public subnet's `public-{project}-{env}-{az}` tag is in it, and so is each private subnet's tag or warning. |
| `NameTags.PublicNameTagsAt` | lib/cdk-vpc-stack.ts:105-108 | Tag k of the public list is public subnet k's `public-{project}-{env}-{az}` tag. |
| `NameTags.PublicNameTagsIncluded` | lib/cdk-vpc-stack.ts:105-108 | Every public subnet's tag is in the public list. |
| `NameTags.OutcomesIncluded` | lib/cdk-vpc-stack.ts:110-125 | Every private subnet's tag or warning is among those the outcomes yield. |
| `NameTags.WarningTextInjective` | lib/cdk-vpc-stack.ts:121 | The warning text names the subnet: different warnings give different texts. |
| `NameTags.TagPublicSubnets` | lib/cdk-vpc-stack.ts:105-108 | The loop emits exactly one `public-{project}-{env}-{az}` tag per public subnet, in order. |
| `NameTags.TagPrivateSubnets` | lib/cdk-vpc-stack.ts:110-125 | The loop emits, in order, the tags and the warnings of the private subnets' outcomes. |
| `NameTags.ApplyNameTags` | lib/cdk-vpc-stack.ts:103-125 | The tags are the VPC tag `vpc-{project}-{env}`, then the public tags, then the resolved private tags. The warnings are those of the unresolved private subnets. |
| `VpcStack.ConstructStack` | lib/cdk-vpc-stack.ts:28-233 | In the model, construction fails exactly when a transit gateway is used and the last layer selects nothing. The program can also fail when the construct library rejects a repeated route id (see Findings), which the model does not capture. On failure no tags or names are produced. Otherwise the plan holds the subnet configuration, the attachment (`TgwAttachment` with the configured gateway id over the last-layer subnets' ids, and none without a gateway), the routes (none without a gateway), the tags and warnings, the security-group name (only with session-manager endpoints) and the flow-log group name. |

## Findings

| source | as written | input that shows it | evidently intended | confidence | as-written member | corrected member |
|---|---|---|---|---|---|---|
| lib/cdk-vpc-stack.ts:66-87 | The fan-out over public and private subnets (lines 78-87) is nested in the per-subnet `forEach`. It runs once per selected subnet, with ids that do not use the outer index. | `use_transit_gateway` and `public_subnet_with_tgw_enabled` true, `additional_cidrs` = `["10.1.0.0/16"]`, two selected subnets, at least one VPC subnet. The route `AdditionalCidrRoute-{nodeId}-0` is emitted in both iterations. | Run the fan-out once, after the per-subnet loop, so each (subnet, CIDR) route is created once under a unique id. | high that ids repeat; not executed | `TransitGatewayRouting.PublicBranchRepeatsIds` | `TransitGatewayRouting.HoistedRouteIdsUnique` |

`PlanTransitGateway` and `ConstructStack` keep the nested loop, because they model the code as written. `HoistedRoutes` is the corrected route list. It differs from the nested one only in the widened branch with two or more selected subnets (`HoistedAgreesOnOneSubnet`).

## Left out

- The VPC construct itself is left out: CIDR and AZ allocation, NAT gateways, DNS flags (`vpc_cidr_block`, `az_count`, `nat_gateway_count`). The subnets it creates, and which of them `selectSubnets()` returns, are inputs.
- The construct library's rejection of a second construct with an existing id is not modelled. Route records are emitted as the loops attempt them (see Findings).
- The attachment's dependency on the VPC (line 64) is not recorded. Only the routes' dependency on the attachment is.
- VPC endpoints and the security group's ingress and egress rules (lines 128-188) create library constructs under flags. Only the security group's name is kept.
- The flow-log role, the KMS key and its policy, the log group and the flow log (lines 191-241) are library configuration. Only the log group's name is kept. The choice between importing and creating the key (line 197) is not modelled.
- The pass-through of global tags and the stack outputs (lines 244-260) are export and I/O with no logic.
- `console.warn` (line 121) is I/O. It is modelled as an appended `Warning` entry. `WarningText` gives its text, which names the subnet (`WarningTextInjective`).
- `bin/cdk-vpc.ts` is not part of this model. It only reads the context and environment variables.
- `parseInt(mask, 10)` (line 36) is not modelled: layer masks are taken as natural numbers.
- The order of `Object.keys`, which puts integer-like keys first, is taken as given: the layer sequence is in that order.
- `Tags.of(x).add` applies a tag to a construct and its children. The model records one tag entry per target.
