/**
 * The planning part of the stack constructor, in source order: the subnet
 * configuration, the transit-gateway wiring (which may throw), the Name
 * tags, and the derived security-group and flow-log group names.
 */
module VpcStack {
  import opened Wrappers
  import opened StackConfig
  import opened SubnetLayout
  import opened TransitGatewayRouting
  import opened NameTags

  datatype StackPlan = StackPlan(
    subnetConfiguration: seq<SubnetConfiguration>,
    transitGateway: TgwPlan,
    tags: seq<Tag>,
    warnings: seq<Warning>,
    endpointSecurityGroupName: Option<string>,
    flowLogGroupName: string)

  /**
   * A failed last-layer selection aborts construction before any tag or
   * later resource; otherwise every part is the one its planner specifies.
   */
  method ConstructStack(cfg: Config, env: string, vpc: Vpc) returns (r: Result<StackPlan, PlanError>)
    ensures var key := LastLayerKey(cfg.subnetLayers);
      r.Err? <==> cfg.useTransitGateway && LastLayerSubnets(vpc.privateSubnets, key) == []
    ensures r.Err? ==> r.error == NoSubnetsForLastLayer(LastLayerKey(cfg.subnetLayers))
    ensures r.Ok? ==>
      && r.value.subnetConfiguration == SubnetConfigurations(cfg)
      && r.value.transitGateway.routes
           == (if cfg.useTransitGateway then PlannedRoutes(cfg, vpc, OnConstruct(AttachmentId)) else [])
      && r.value.transitGateway.attachment
           == (if cfg.useTransitGateway
               then Some(Attachment(AttachmentId, cfg.transitGatewayId,
                                    SubnetIds(LastLayerSubnets(vpc.privateSubnets, LastLayerKey(cfg.subnetLayers)))))
               else None)
      && r.value.tags == NameTagsOf(cfg, env, vpc)
      && r.value.warnings == NameWarningsOf(cfg, env, vpc)
      && r.value.endpointSecurityGroupName
           == (if cfg.sessionManagerEndpointsEnabled then Some(SecurityGroupName(cfg.projectName, env)) else None)
      && r.value.flowLogGroupName == FlowLogGroupName(cfg.projectName, env)
  {
    var subnetConfiguration := SubnetConfigurations(cfg);
    var tgw := PlanTransitGateway(cfg, vpc);
    if tgw.Err? {
      return Err(tgw.error);
    }
    var tags, warnings := ApplyNameTags(cfg, env, vpc);
    var securityGroupName := None;
    if cfg.sessionManagerEndpointsEnabled {
      securityGroupName := Some(SecurityGroupName(cfg.projectName, env));
    }
    var logGroupName := FlowLogGroupName(cfg.projectName, env);
    r := Ok(StackPlan(subnetConfiguration, tgw.value, tags, warnings, securityGroupName, logGroupName));
  }
}
