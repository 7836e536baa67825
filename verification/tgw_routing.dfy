/**
 * Transit-gateway wiring: choose the subnets of the last layer, attach
 * them to the gateway, give every selected subnet a default route through
 * the gateway, and fan out the additional CIDR routes.
 *
 * The emitted constructs are records. Construct ids follow the source's
 * templates: `TransitGatewayRoute{index}`, `AdditionalCidrRoute{index}-{cidrIndex}`
 * and `AdditionalCidrRoute-{nodeId}-{cidrIndex}`.
 */
module TransitGatewayRouting {
  import opened Wrappers
  import opened Text
  import opened Sequences
  import opened StackConfig

  const AttachmentId: string := "TgwAttachment"
  const DefaultDestination: string := "0.0.0.0/0"

  /** The construct a route is made to depend on: `tgwAttachment ?? this`. */
  datatype Dependency = OnConstruct(id: string) | OnStack

  datatype Route = Route(
    constructId: string,
    routeTableId: string,
    destination: string,
    transitGatewayId: string,
    dependsOn: Dependency)

  datatype Attachment = Attachment(constructId: string, transitGatewayId: string, subnetIds: seq<string>)

  /** What the transit-gateway part adds to the stack. */
  datatype TgwPlan = TgwPlan(attachment: Option<Attachment>, routes: seq<Route>)

  /** The error thrown when the last layer selects no subnet; carries the name as rendered. */
  datatype PlanError = NoSubnetsForLastLayer(lastLayerName: string)

  function ErrorMessage(e: PlanError): string {
    "No subnets found for the last layer: " + e.lastLayerName
  }

  /** The thrown message names the last layer: different errors read differently. */
  lemma ErrorMessageInjective(e: PlanError, e': PlanError)
    ensures ErrorMessage(e) == ErrorMessage(e') ==> e == e'
  {
    PrefixCancel("No subnets found for the last layer: ", e.lastLayerName, e'.lastLayerName);
  }

  // ---------------------------------------------------------------------------
  // Last-layer selection

  /**
   * The last key of `subnet_layers`. With no keys the lookup yields
   * `undefined`, which `includes` and the template literal both render
   * as the text "undefined".
   */
  function LastLayerKey(layers: seq<Layer>): string {
    if |layers| == 0 then "undefined" else layers[|layers| - 1].name
  }

  /** `privateSubnets.filter(s => s.node.path.includes(key))`. */
  function LastLayerSubnets(privateSubnets: seq<Subnet>, key: string): seq<Subnet> {
    if |privateSubnets| == 0 then []
    else
      var init := LastLayerSubnets(privateSubnets[..|privateSubnets| - 1], key);
      var s := privateSubnets[|privateSubnets| - 1];
      if Contains(s.path, key) then init + [s] else init
  }

  /** The selection is exactly the private subnets whose path contains the key. */
  lemma {:induction false} LastLayerSelection(privateSubnets: seq<Subnet>, key: string)
    ensures forall s :: s in LastLayerSubnets(privateSubnets, key) <==>
      s in privateSubnets && Contains(s.path, key)
    ensures |LastLayerSubnets(privateSubnets, key)| <= |privateSubnets|
  {
    if |privateSubnets| > 0 {
      var init := privateSubnets[..|privateSubnets| - 1];
      LastLayerSelection(init, key);
      assert privateSubnets == init + [privateSubnets[|privateSubnets| - 1]];
    }
  }

  /** No public subnet is ever attached. */
  lemma AttachmentExcludesPublic(vpc: Vpc, key: string)
    requires KindsDisjoint(vpc)
    ensures forall s :: s in vpc.publicSubnets ==> s !in LastLayerSubnets(vpc.privateSubnets, key)
  {
    LastLayerSelection(vpc.privateSubnets, key);
  }

  function SubnetIds(subnets: seq<Subnet>): seq<string> {
    seq(|subnets|, k requires 0 <= k < |subnets| => subnets[k].subnetId)
  }

  // ---------------------------------------------------------------------------
  // Construct ids

  function DefaultRouteId(index: nat): string {
    "TransitGatewayRoute" + DecimalString(index)
  }

  function CidrRouteId(index: nat, cidrIndex: nat): string {
    "AdditionalCidrRoute" + DecimalString(index) + "-" + DecimalString(cidrIndex)
  }

  function NamedCidrRouteId(nodeId: string, cidrIndex: nat): string {
    "AdditionalCidrRoute-" + nodeId + "-" + DecimalString(cidrIndex)
  }

  /** Each id template determines the indices (or node id) it was filled with. */
  lemma RouteIdsInjective(i: nat, i': nat, j: nat, j': nat, id: string, id': string)
    ensures DefaultRouteId(i) == DefaultRouteId(i') ==> i == i'
    ensures CidrRouteId(i, j) == CidrRouteId(i', j') ==> i == i' && j == j'
    ensures NamedCidrRouteId(id, j) == NamedCidrRouteId(id', j') ==> id == id' && j == j'
  {
    PrefixCancel("TransitGatewayRoute", DecimalString(i), DecimalString(i'));
    DecimalStringInjective(i, i');
    DecimalStringInjective(j, j');
    SplitAtLast("AdditionalCidrRoute" + DecimalString(i), DecimalString(j),
                "AdditionalCidrRoute" + DecimalString(i'), DecimalString(j'), '-');
    PrefixCancel("AdditionalCidrRoute", DecimalString(i), DecimalString(i'));
    SplitAtLast("AdditionalCidrRoute-" + id, DecimalString(j),
                "AdditionalCidrRoute-" + id', DecimalString(j'), '-');
    PrefixCancel("AdditionalCidrRoute-", id, id');
  }

  // ---------------------------------------------------------------------------
  // The routes of one iteration of the per-subnet loop

  function DefaultRoute(cfg: Config, dep: Dependency, index: nat, subnet: Subnet): Route {
    Route(DefaultRouteId(index), subnet.routeTableId, DefaultDestination, cfg.transitGatewayId, dep)
  }

  /** The routes the `forEach` over the CIDRs emits for selected subnet `index`. */
  function IndexedCidrRoutes(cfg: Config, dep: Dependency, index: nat, subnet: Subnet, cidrs: seq<string>): seq<Route> {
    seq(|cidrs|, j requires 0 <= j < |cidrs| =>
      Route(CidrRouteId(index, j), subnet.routeTableId, cidrs[j], cfg.transitGatewayId, dep))
  }

  /** The routes the innermost `for` emits for one subnet of the public-and-private list. */
  function NamedCidrRoutes(cfg: Config, dep: Dependency, subnet: Subnet, cidrs: seq<string>): seq<Route> {
    seq(|cidrs|, j requires 0 <= j < |cidrs| =>
      Route(NamedCidrRouteId(subnet.nodeId, j), subnet.routeTableId, cidrs[j], cfg.transitGatewayId, dep))
  }

  function NamedCidrRoutesPerSubnet(cfg: Config, dep: Dependency, subnets: seq<Subnet>, cidrs: seq<string>): seq<seq<Route>> {
    seq(|subnets|, k requires 0 <= k < |subnets| => NamedCidrRoutes(cfg, dep, subnets[k], cidrs))
  }

  /** The routes of one pass of the loop over the public and private subnets. */
  function FannedCidrRoutes(cfg: Config, dep: Dependency, subnets: seq<Subnet>, cidrs: seq<string>): (rs: seq<Route>)
    ensures |rs| == |subnets| * |cidrs|
  {
    var xss := NamedCidrRoutesPerSubnet(cfg, dep, subnets, cidrs);
    ConcatUniformLength(xss, |cidrs|);
    Concat(xss)
  }

  /** Subnet `k`'s route to `cidrs[j]` sits at position `k * |cidrs| + j` of one pass. */
  lemma FannedRouteAt(cfg: Config, dep: Dependency, subnets: seq<Subnet>, cidrs: seq<string>, k: nat, j: nat)
    requires k < |subnets| && j < |cidrs|
    ensures k * |cidrs| + j < |FannedCidrRoutes(cfg, dep, subnets, cidrs)|
    ensures FannedCidrRoutes(cfg, dep, subnets, cidrs)[k * |cidrs| + j]
         == Route(NamedCidrRouteId(subnets[k].nodeId, j), subnets[k].routeTableId, cidrs[j], cfg.transitGatewayId, dep)
  {
    var xss := NamedCidrRoutesPerSubnet(cfg, dep, subnets, cidrs);
    ConcatAt(xss, k, j);
    ConcatUniformLength(xss[..k], |cidrs|);
  }

  /** The extra routes of one iteration, by branch. */
  function ExtraRoutes(cfg: Config, vpc: Vpc, dep: Dependency, index: nat, subnet: Subnet): seq<Route> {
    match cfg.additionalCidrs
    case None => []
    case Some(cidrs) =>
      if cfg.publicSubnetWithTgwEnabled then
        FannedCidrRoutes(cfg, dep, vpc.publicSubnets + vpc.privateSubnets, cidrs)
      else
        IndexedCidrRoutes(cfg, dep, index, subnet, cidrs)
  }

  /** How many routes one iteration of the per-subnet loop emits. */
  function IterationWidth(cfg: Config, vpc: Vpc): nat {
    1 + match cfg.additionalCidrs
        case None => 0
        case Some(cidrs) =>
          if cfg.publicSubnetWithTgwEnabled then (|vpc.publicSubnets| + |vpc.privateSubnets|) * |cidrs|
          else |cidrs|
  }

  function IterationRoutes(cfg: Config, vpc: Vpc, dep: Dependency, index: nat): (rs: seq<Route>)
    requires index < |vpc.selectedSubnets|
    ensures |rs| == IterationWidth(cfg, vpc)
  {
    var subnet := vpc.selectedSubnets[index];
    [DefaultRoute(cfg, dep, index, subnet)] + ExtraRoutes(cfg, vpc, dep, index, subnet)
  }

  function Iterations(cfg: Config, vpc: Vpc, dep: Dependency): seq<seq<Route>> {
    seq(|vpc.selectedSubnets|, i requires 0 <= i < |vpc.selectedSubnets| => IterationRoutes(cfg, vpc, dep, i))
  }

  /** All routes of the per-subnet loop, in emission order. */
  function PlannedRoutes(cfg: Config, vpc: Vpc, dep: Dependency): seq<Route> {
    Concat(Iterations(cfg, vpc, dep))
  }

  ghost predicate UniqueIds(rs: seq<Route>) {
    forall p, q :: 0 <= p < q < |rs| ==> rs[p].constructId != rs[q].constructId
  }

  // ---------------------------------------------------------------------------
  // Properties of the planned routes

  /** Every selected subnet contributes the same number of routes. */
  lemma PlannedRoutesLength(cfg: Config, vpc: Vpc, dep: Dependency)
    ensures |PlannedRoutes(cfg, vpc, dep)| == |vpc.selectedSubnets| * IterationWidth(cfg, vpc)
  {
    ConcatUniformLength(Iterations(cfg, vpc, dep), IterationWidth(cfg, vpc));
  }

  /** Iteration `i`'s route number `t` sits at position `i * width + t`. */
  lemma PlannedRouteAt(cfg: Config, vpc: Vpc, dep: Dependency, i: nat, t: nat)
    requires i < |vpc.selectedSubnets| && t < IterationWidth(cfg, vpc)
    ensures i * IterationWidth(cfg, vpc) + t < |PlannedRoutes(cfg, vpc, dep)|
    ensures PlannedRoutes(cfg, vpc, dep)[i * IterationWidth(cfg, vpc) + t] == IterationRoutes(cfg, vpc, dep, i)[t]
  {
    var xss := Iterations(cfg, vpc, dep);
    ConcatAt(xss, i, t);
    ConcatUniformLength(xss[..i], IterationWidth(cfg, vpc));
  }

  /** Selected subnet `i` gets one `0.0.0.0/0` route, on its own route table, with id `TransitGatewayRoute{i}`. */
  lemma DefaultRouteAt(cfg: Config, vpc: Vpc, dep: Dependency, i: nat)
    requires i < |vpc.selectedSubnets|
    ensures i * IterationWidth(cfg, vpc) < |PlannedRoutes(cfg, vpc, dep)|
    ensures PlannedRoutes(cfg, vpc, dep)[i * IterationWidth(cfg, vpc)]
         == Route("TransitGatewayRoute" + DecimalString(i), vpc.selectedSubnets[i].routeTableId,
                  "0.0.0.0/0", cfg.transitGatewayId, dep)
  {
    PlannedRouteAt(cfg, vpc, dep, i, 0);
  }

  /**
   * Without the public-subnet widening, selected subnet `i` gets a route to
   * `cidrs[j]` on its own route table with id `AdditionalCidrRoute{i}-{j}`.
   */
  lemma CidrRouteAt(cfg: Config, vpc: Vpc, dep: Dependency, i: nat, j: nat)
    requires cfg.additionalCidrs.Some? && !cfg.publicSubnetWithTgwEnabled
    requires i < |vpc.selectedSubnets| && j < |cfg.additionalCidrs.value|
    ensures i * IterationWidth(cfg, vpc) + 1 + j < |PlannedRoutes(cfg, vpc, dep)|
    ensures PlannedRoutes(cfg, vpc, dep)[i * IterationWidth(cfg, vpc) + 1 + j]
         == Route("AdditionalCidrRoute" + DecimalString(i) + "-" + DecimalString(j),
                  vpc.selectedSubnets[i].routeTableId, cfg.additionalCidrs.value[j], cfg.transitGatewayId, dep)
  {
    PlannedRouteAt(cfg, vpc, dep, i, 1 + j);
  }

  /** Without `additional_cidrs`, only the default routes are emitted. */
  lemma NoExtraRoutesWithoutCidrs(cfg: Config, vpc: Vpc, dep: Dependency)
    requires cfg.additionalCidrs.None?
    ensures |PlannedRoutes(cfg, vpc, dep)| == |vpc.selectedSubnets|
    ensures forall p :: 0 <= p < |PlannedRoutes(cfg, vpc, dep)| ==>
      PlannedRoutes(cfg, vpc, dep)[p].destination == DefaultDestination
  {
    PlannedRoutesLength(cfg, vpc, dep);
    var rs := PlannedRoutes(cfg, vpc, dep);
    forall p | 0 <= p < |rs| ensures rs[p].destination == DefaultDestination {
      var i, t := ConcatLocate(Iterations(cfg, vpc, dep), p);
    }
  }

  /** Every route goes through the configured gateway and carries the same dependency. */
  lemma EveryRouteDependsOn(cfg: Config, vpc: Vpc, dep: Dependency)
    ensures forall p :: 0 <= p < |PlannedRoutes(cfg, vpc, dep)| ==>
      && PlannedRoutes(cfg, vpc, dep)[p].dependsOn == dep
      && PlannedRoutes(cfg, vpc, dep)[p].transitGatewayId == cfg.transitGatewayId
  {
    var rs := PlannedRoutes(cfg, vpc, dep);
    forall p | 0 <= p < |rs| ensures rs[p].dependsOn == dep && rs[p].transitGatewayId == cfg.transitGatewayId {
      var i, t := ConcatLocate(Iterations(cfg, vpc, dep), p);
      var subnet := vpc.selectedSubnets[i];
      var extra := ExtraRoutes(cfg, vpc, dep, i, subnet);
      assert rs[p] == ([DefaultRoute(cfg, dep, i, subnet)] + extra)[t];
      if t > 0 {
        assert rs[p] == extra[t - 1];
        if cfg.additionalCidrs.Some? && cfg.publicSubnetWithTgwEnabled {
          var k, j := ConcatLocate(NamedCidrRoutesPerSubnet(cfg, dep, vpc.publicSubnets + vpc.privateSubnets,
                                                            cfg.additionalCidrs.value), t - 1);
        }
      }
    }
  }

  // ---------------------------------------------------------------------------
  // Construct-id uniqueness

  lemma UniqueIdsAppend(a: seq<Route>, b: seq<Route>)
    requires UniqueIds(a) && UniqueIds(b)
    requires forall x, y :: x in a && y in b ==> x.constructId != y.constructId
    ensures UniqueIds(a + b)
  {
    var ab := a + b;
    forall p, q | 0 <= p < q < |ab| ensures ab[p].constructId != ab[q].constructId {
      if q < |a| {
        assert ab[p] == a[p] && ab[q] == a[q];
      } else if p >= |a| {
        assert ab[p] == b[p - |a|] && ab[q] == b[q - |a|];
      } else {
        assert ab[p] in a && ab[q] in b;
      }
    }
  }

  /** Within one iteration, route number `t` has the id its template gives. */
  lemma IterationRouteId(cfg: Config, vpc: Vpc, dep: Dependency, i: nat, t: nat)
    requires !(cfg.additionalCidrs.Some? && cfg.publicSubnetWithTgwEnabled)
    requires i < |vpc.selectedSubnets| && t < IterationWidth(cfg, vpc)
    ensures t == 0 ==> IterationRoutes(cfg, vpc, dep, i)[t].constructId == DefaultRouteId(i)
    ensures t > 0 ==> IterationRoutes(cfg, vpc, dep, i)[t].constructId == CidrRouteId(i, t - 1)
  {
  }

  /** Without the public-subnet widening, no two routes share a construct id. */
  lemma PlannedRouteIdsUnique(cfg: Config, vpc: Vpc, dep: Dependency)
    requires !(cfg.additionalCidrs.Some? && cfg.publicSubnetWithTgwEnabled)
    ensures UniqueIds(PlannedRoutes(cfg, vpc, dep))
  {
    var xss := Iterations(cfg, vpc, dep);
    var rs := Concat(xss);
    forall p, q | 0 <= p < q < |rs| ensures rs[p].constructId != rs[q].constructId {
      var i, t := ConcatLocate(xss, p);
      var i', t' := ConcatLocate(xss, q);
      IterationRouteId(cfg, vpc, dep, i, t);
      IterationRouteId(cfg, vpc, dep, i', t');
      var j, j' := if t > 0 then t - 1 else 0, if t' > 0 then t' - 1 else 0;
      RouteIdsInjective(i, i', j, j', "", "");
      assert DefaultRouteId(i)[0] == 'T' && CidrRouteId(i, j)[0] == 'A';
      assert DefaultRouteId(i')[0] == 'T' && CidrRouteId(i', j')[0] == 'A';
    }
  }

  /** One pass over subnets with distinct node ids emits distinct ids, all starting with 'A'. */
  lemma FannedIdsUnique(cfg: Config, dep: Dependency, subnets: seq<Subnet>, cidrs: seq<string>)
    requires DistinctNodeIds(subnets)
    ensures UniqueIds(FannedCidrRoutes(cfg, dep, subnets, cidrs))
    ensures forall r :: r in FannedCidrRoutes(cfg, dep, subnets, cidrs) ==>
      |r.constructId| > 0 && r.constructId[0] == 'A'
  {
    var xss := NamedCidrRoutesPerSubnet(cfg, dep, subnets, cidrs);
    var rs := Concat(xss);
    forall p, q | 0 <= p < q < |rs| ensures rs[p].constructId != rs[q].constructId {
      var k, j := ConcatLocate(xss, p);
      var k', j' := ConcatLocate(xss, q);
      RouteIdsInjective(0, 0, j, j', subnets[k].nodeId, subnets[k'].nodeId);
    }
    forall r | r in rs ensures |r.constructId| > 0 && r.constructId[0] == 'A' {
      var p :| 0 <= p < |rs| && rs[p] == r;
      var k, j := ConcatLocate(xss, p);
      assert r.constructId == NamedCidrRouteId(subnets[k].nodeId, j);
    }
  }

  /** With the public-subnet widening, every iteration emits the same extra routes. */
  lemma PublicBranchIterationsAgree(cfg: Config, vpc: Vpc, dep: Dependency, i: nat, i': nat)
    requires cfg.additionalCidrs.Some? && cfg.publicSubnetWithTgwEnabled
    requires i < |vpc.selectedSubnets| && i' < |vpc.selectedSubnets|
    ensures IterationRoutes(cfg, vpc, dep, i)[1..] == IterationRoutes(cfg, vpc, dep, i')[1..]
         == FannedCidrRoutes(cfg, dep, vpc.publicSubnets + vpc.privateSubnets, cfg.additionalCidrs.value)
  {
  }

  /** ... and within one iteration those routes have distinct ids when the node ids are distinct. */
  lemma PublicBranchIterationUnique(cfg: Config, vpc: Vpc, dep: Dependency, i: nat)
    requires cfg.additionalCidrs.Some? && cfg.publicSubnetWithTgwEnabled
    requires DistinctNodeIds(vpc.publicSubnets + vpc.privateSubnets)
    requires i < |vpc.selectedSubnets|
    ensures UniqueIds(IterationRoutes(cfg, vpc, dep, i))
  {
    var fanned := FannedCidrRoutes(cfg, dep, vpc.publicSubnets + vpc.privateSubnets, cfg.additionalCidrs.value);
    FannedIdsUnique(cfg, dep, vpc.publicSubnets + vpc.privateSubnets, cfg.additionalCidrs.value);
    var head := [DefaultRoute(cfg, dep, i, vpc.selectedSubnets[i])];
    assert head[0].constructId[0] == 'T';
    UniqueIdsAppend(head, fanned);
  }

  /**
   * ... but across iterations they repeat: with two selected subnets, one
   * subnet in the public-and-private list and one CIDR, the route after the
   * first default route reappears after the second.
   */
  lemma PublicBranchRepeatsIds(cfg: Config, vpc: Vpc, dep: Dependency)
    requires cfg.additionalCidrs.Some? && cfg.publicSubnetWithTgwEnabled
    requires |vpc.selectedSubnets| >= 2
    requires |vpc.publicSubnets| + |vpc.privateSubnets| >= 1 && |cfg.additionalCidrs.value| >= 1
    ensures IterationWidth(cfg, vpc) + 1 < |PlannedRoutes(cfg, vpc, dep)|
    ensures PlannedRoutes(cfg, vpc, dep)[1] == PlannedRoutes(cfg, vpc, dep)[IterationWidth(cfg, vpc) + 1]
    ensures !UniqueIds(PlannedRoutes(cfg, vpc, dep))
  {
    var rs := PlannedRoutes(cfg, vpc, dep);
    var w := IterationWidth(cfg, vpc);
    var fanned := FannedCidrRoutes(cfg, dep, vpc.publicSubnets + vpc.privateSubnets, cfg.additionalCidrs.value);
    FannedRouteAt(cfg, dep, vpc.publicSubnets + vpc.privateSubnets, cfg.additionalCidrs.value, 0, 0);
    assert w == 1 + |fanned| >= 2;
    PlannedRouteAt(cfg, vpc, dep, 0, 1);
    PlannedRouteAt(cfg, vpc, dep, 1, 1);
    assert rs[1].constructId == rs[w + 1].constructId;
  }

  // ---------------------------------------------------------------------------
  // The fan-out hoisted out of the per-subnet loop

  function DefaultRoutes(cfg: Config, vpc: Vpc, dep: Dependency): seq<Route> {
    seq(|vpc.selectedSubnets|, i requires 0 <= i < |vpc.selectedSubnets| =>
      DefaultRoute(cfg, dep, i, vpc.selectedSubnets[i]))
  }

  /**
   * The routes when the public-and-private fan-out runs once, after the
   * per-subnet loop, instead of once per selected subnet; the other
   * branches are unchanged.
   */
  function HoistedRoutes(cfg: Config, vpc: Vpc, dep: Dependency): seq<Route> {
    if cfg.additionalCidrs.Some? && cfg.publicSubnetWithTgwEnabled then
      DefaultRoutes(cfg, vpc, dep)
        + FannedCidrRoutes(cfg, dep, vpc.publicSubnets + vpc.privateSubnets, cfg.additionalCidrs.value)
    else
      PlannedRoutes(cfg, vpc, dep)
  }

  /** With the fan-out hoisted, construct ids are unique in every branch. */
  lemma HoistedRouteIdsUnique(cfg: Config, vpc: Vpc, dep: Dependency)
    requires DistinctNodeIds(vpc.publicSubnets + vpc.privateSubnets)
    ensures UniqueIds(HoistedRoutes(cfg, vpc, dep))
  {
    if cfg.additionalCidrs.Some? && cfg.publicSubnetWithTgwEnabled {
      var defaults := DefaultRoutes(cfg, vpc, dep);
      var fanned := FannedCidrRoutes(cfg, dep, vpc.publicSubnets + vpc.privateSubnets, cfg.additionalCidrs.value);
      FannedIdsUnique(cfg, dep, vpc.publicSubnets + vpc.privateSubnets, cfg.additionalCidrs.value);
      forall p, q | 0 <= p < q < |defaults| ensures defaults[p].constructId != defaults[q].constructId {
        RouteIdsInjective(p, q, 0, 0, "", "");
      }
      forall x | x in defaults ensures x.constructId[0] == 'T' {
        var p :| 0 <= p < |defaults| && defaults[p] == x;
        assert x.constructId == DefaultRouteId(p);
      }
      UniqueIdsAppend(defaults, fanned);
    } else {
      PlannedRouteIdsUnique(cfg, vpc, dep);
    }
  }

  /** With a single selected subnet the hoisted fan-out emits exactly what the nested one does. */
  lemma HoistedAgreesOnOneSubnet(cfg: Config, vpc: Vpc, dep: Dependency)
    requires |vpc.selectedSubnets| == 1
    ensures HoistedRoutes(cfg, vpc, dep) == PlannedRoutes(cfg, vpc, dep)
  {
    var xss := Iterations(cfg, vpc, dep);
    assert xss[..0] == [];
    assert Concat(xss) == xss[0];
  }

  // ---------------------------------------------------------------------------
  // The emitting loops

  /** `tgwAttachment ?? this`. */
  function DependencyOf(attachment: Option<Attachment>): Dependency {
    match attachment
    case Some(a) => OnConstruct(a.constructId)
    case None => OnStack
  }

  /** The `forEach` over the CIDRs for selected subnet `index`, on that subnet's route table. */
  method EmitIndexedCidrRoutes(cfg: Config, dep: Dependency, index: nat, subnet: Subnet, cidrs: seq<string>)
    returns (emitted: seq<Route>)
    ensures emitted == IndexedCidrRoutes(cfg, dep, index, subnet, cidrs)
  {
    emitted := [];
    var routeTable := subnet.routeTableId;
    var cidrIndex := 0;
    while cidrIndex < |cidrs|
      invariant cidrIndex <= |cidrs|
      invariant emitted == IndexedCidrRoutes(cfg, dep, index, subnet, cidrs)[..cidrIndex]
    {
      var cidr := cidrs[cidrIndex];
      emitted := emitted + [Route(CidrRouteId(index, cidrIndex), routeTable, cidr, cfg.transitGatewayId, dep)];
      cidrIndex := cidrIndex + 1;
    }
  }

  /** The innermost `for ... of additional_cidrs.entries()` for one subnet of the public-and-private list. */
  method EmitNamedCidrRoutes(cfg: Config, dep: Dependency, subnet: Subnet, cidrs: seq<string>)
    returns (emitted: seq<Route>)
    ensures emitted == NamedCidrRoutes(cfg, dep, subnet, cidrs)
  {
    emitted := [];
    var routeTable := subnet.routeTableId;
    var cidrIndex := 0;
    while cidrIndex < |cidrs|
      invariant cidrIndex <= |cidrs|
      invariant emitted == NamedCidrRoutes(cfg, dep, subnet, cidrs)[..cidrIndex]
    {
      var cidr := cidrs[cidrIndex];
      emitted := emitted + [Route(NamedCidrRouteId(subnet.nodeId, cidrIndex), routeTable, cidr, cfg.transitGatewayId, dep)];
      cidrIndex := cidrIndex + 1;
    }
  }

  /** The `for` over `publicSubnets.concat(privateSubnets)`. */
  method EmitFannedCidrRoutes(cfg: Config, dep: Dependency, subnets: seq<Subnet>, cidrs: seq<string>)
    returns (emitted: seq<Route>)
    ensures emitted == FannedCidrRoutes(cfg, dep, subnets, cidrs)
  {
    ghost var xss := NamedCidrRoutesPerSubnet(cfg, dep, subnets, cidrs);
    emitted := [];
    var k := 0;
    while k < |subnets|
      invariant k <= |subnets|
      invariant emitted == Concat(xss[..k])
    {
      var named := EmitNamedCidrRoutes(cfg, dep, subnets[k], cidrs);
      assert xss[..k + 1] == xss[..k] + [named];
      ConcatSnoc(xss[..k], named);
      emitted := emitted + named;
      k := k + 1;
    }
    assert xss[..k] == xss;
  }

  /** The body of the per-subnet `forEach`: the default route, then the branch's extra routes. */
  method EmitIterationRoutes(cfg: Config, vpc: Vpc, dep: Dependency, index: nat) returns (emitted: seq<Route>)
    requires index < |vpc.selectedSubnets|
    ensures emitted == IterationRoutes(cfg, vpc, dep, index)
  {
    var subnet := vpc.selectedSubnets[index];
    var routeTable := subnet.routeTableId;
    emitted := [Route(DefaultRouteId(index), routeTable, DefaultDestination, cfg.transitGatewayId, dep)];
    if cfg.additionalCidrs.Some? {
      var extra;
      if cfg.publicSubnetWithTgwEnabled {
        extra := EmitFannedCidrRoutes(cfg, dep, vpc.publicSubnets + vpc.privateSubnets, cfg.additionalCidrs.value);
      } else {
        extra := EmitIndexedCidrRoutes(cfg, dep, index, subnet, cfg.additionalCidrs.value);
      }
      emitted := emitted + extra;
    }
  }

  /**
   * The transit-gateway part of the stack: compute the last-layer selection,
   * then, when a gateway is used, fail on an empty selection or emit the
   * attachment and run the per-subnet loop.
   */
  method PlanTransitGateway(cfg: Config, vpc: Vpc) returns (r: Result<TgwPlan, PlanError>)
    ensures var key := LastLayerKey(cfg.subnetLayers);
      var selection := LastLayerSubnets(vpc.privateSubnets, key);
      && (!cfg.useTransitGateway ==> r == Ok(TgwPlan(None, [])))
      && (cfg.useTransitGateway && selection == [] ==> r == Err(NoSubnetsForLastLayer(key)))
      && (cfg.useTransitGateway && selection != [] ==>
            r == Ok(TgwPlan(Some(Attachment(AttachmentId, cfg.transitGatewayId, SubnetIds(selection))),
                            PlannedRoutes(cfg, vpc, OnConstruct(AttachmentId)))))
  {
    var tgwAttachment: Option<Attachment> := None;
    var lastLayerName := LastLayerKey(cfg.subnetLayers);
    var lastLayerSubnets := LastLayerSubnets(vpc.privateSubnets, lastLayerName);
    var subnets := vpc.selectedSubnets;

    if !cfg.useTransitGateway {
      return Ok(TgwPlan(tgwAttachment, []));
    }
    if |lastLayerSubnets| == 0 {
      return Err(NoSubnetsForLastLayer(lastLayerName));
    }
    tgwAttachment := Some(Attachment(AttachmentId, cfg.transitGatewayId, SubnetIds(lastLayerSubnets)));

    ghost var xss := Iterations(cfg, vpc, OnConstruct(AttachmentId));
    var routes: seq<Route> := [];
    var index := 0;
    while index < |subnets|
      invariant index <= |subnets|
      invariant routes == Concat(xss[..index])
    {
      var dep := DependencyOf(tgwAttachment);
      var emitted := EmitIterationRoutes(cfg, vpc, dep, index);
      assert xss[index] == IterationRoutes(cfg, vpc, dep, index);
      assert emitted == xss[index];
      assert xss[..index + 1] == xss[..index] + [emitted];
      ConcatSnoc(xss[..index], emitted);
      routes := routes + emitted;
      index := index + 1;
    }
    assert xss[..index] == xss;
    r := Ok(TgwPlan(tgwAttachment, routes));
  }
}
