/** The post-binding filter that opens a security group for a freshly bound
    service: it parses the destination from the binding credentials, refuses
    destinations the trust specification does not allow, looks up the
    provenance of the binding and the application's space, and asks Cloud
    Foundry to create one group holding one TCP rule per destination IP. */
module SecurityGroupFilter {

  import opened Results
  import opened Decimal
  import opened Domain
  import opened CloudFoundry
  import opened RuleDescriptions

  const DefaultProtocol := TCP

  const NullResponse := "expecting a non-null response"
  const NullCredentials := "expecting a non-null response credentials"

  /** What `run` throws. */
  datatype FilterError =
    | IllegalArgument(message: string)
    | NotAllowedDestination(destination: Destination)
    | Remote(error: ClientError)

  /** How a call of `run` ends: it returns normally or throws. */
  datatype Outcome = Returned | Threw(error: FilterError)

  /** The outcome of one `run` together with the remote calls it issued. */
  datatype Execution = Execution(outcome: Outcome, calls: seq<RemoteCall>)

  // ---------------------------------------------------------------------
  // Single remote lookups, each answering the entity of the reply.

  function GetServiceInstance(cf: CloudFoundryClient, serviceInstanceId: string): (r: Reply<ServiceInstanceEntity>)
    ensures r.calls == [ServiceInstancesGet(serviceInstanceId)]
    ensures ErrorOf(r.result) == CallError(cf, r.calls[0])
    ensures r.result.Success? ==> cf.serviceInstances(serviceInstanceId) == Success(r.result.value)
  {
    Reply(cf.serviceInstances(serviceInstanceId), [ServiceInstancesGet(serviceInstanceId)])
  }

  function GetPlan(cf: CloudFoundryClient, planId: string): (r: Reply<ServicePlanEntity>)
    ensures r.calls == [ServicePlansGet(planId)]
    ensures ErrorOf(r.result) == CallError(cf, r.calls[0])
    ensures r.result.Success? ==> cf.servicePlans(planId) == Success(r.result.value)
  {
    Reply(cf.servicePlans(planId), [ServicePlansGet(planId)])
  }

  function GetService(cf: CloudFoundryClient, serviceId: string): (r: Reply<ServiceEntity>)
    ensures r.calls == [ServicesGet(serviceId)]
    ensures ErrorOf(r.result) == CallError(cf, r.calls[0])
    ensures r.result.Success? ==> cf.services(serviceId) == Success(r.result.value)
  {
    Reply(cf.services(serviceId), [ServicesGet(serviceId)])
  }

  /** The broker lookup answers only the broker's name. */
  function GetServiceBrokerName(cf: CloudFoundryClient, serviceBrokerId: string): (r: Reply<string>)
    ensures r.calls == [ServiceBrokersGet(serviceBrokerId)]
    ensures ErrorOf(r.result) == CallError(cf, r.calls[0])
    ensures r.result.Success? ==>
      cf.serviceBrokers(serviceBrokerId).Success? && r.result.value == cf.serviceBrokers(serviceBrokerId).value.name
  {
    var result := match cf.serviceBrokers(serviceBrokerId)
      case Success(broker) => Success(broker.name)
      case Failure(e) => Failure(e);
    Reply(result, [ServiceBrokersGet(serviceBrokerId)])
  }

  /** The application lookup answers only the application's space id. */
  function GetSpaceId(cf: CloudFoundryClient, appId: string): (r: Reply<string>)
    ensures r.calls == [ApplicationsGet(appId)]
    ensures ErrorOf(r.result) == CallError(cf, r.calls[0])
    ensures r.result.Success? ==>
      cf.applications(appId).Success? && r.result.value == cf.applications(appId).value.spaceId
  {
    var result := match cf.applications(appId)
      case Success(app) => Success(app.spaceId)
      case Failure(e) => Failure(e);
    Reply(result, [ApplicationsGet(appId)])
  }

  // ---------------------------------------------------------------------
  // The description chain.

  /** The call the description chain issues after `call` has been answered:
      the plan of the instance, the service of the plan, the broker of the
      service. None when `call` failed or ends the chain. */
  function NextInChain(cf: CloudFoundryClient, call: RemoteCall): Option<RemoteCall> {
    match call
    case ServiceInstancesGet(id) =>
      (match cf.serviceInstances(id)
       case Success(instance) => Some(ServicePlansGet(instance.servicePlanId))
       case Failure(_) => None)
    case ServicePlansGet(id) =>
      (match cf.servicePlans(id)
       case Success(plan) => Some(ServicesGet(plan.serviceId))
       case Failure(_) => None)
    case ServicesGet(id) =>
      (match cf.services(id)
       case Success(service) => Some(ServiceBrokersGet(service.serviceBrokerId))
       case Failure(_) => None)
    case _ => None
  }

  /** The provenance description of a binding: service instance, then its
      plan, then the plan's service, then the service's broker. The binding
      id and the instance name are carried along to the final text. */
  function GetRuleDescription(cf: CloudFoundryClient, bindingId: string, serviceInstanceId: string): (r: Reply<string>)
    ensures 1 <= |r.calls| <= 4 && r.calls[0] == ServiceInstancesGet(serviceInstanceId)
    ensures forall k :: 0 <= k < |r.calls| ==> !r.calls[k].ApplicationsGet? && !r.calls[k].SecurityGroupsCreate?
    ensures forall k :: 0 <= k < |r.calls| - 1 ==> NextInChain(cf, r.calls[k]) == Some(r.calls[k + 1])
    ensures NextInChain(cf, r.calls[|r.calls| - 1]).None?
    ensures r.result.Failure? <==> CallError(cf, r.calls[|r.calls| - 1]).Some?
    ensures r.result.Failure? ==> Some(r.result.error) == CallError(cf, r.calls[|r.calls| - 1])
    ensures r.result.Success? ==>
      && |r.calls| == 4 && r.calls[3].ServiceBrokersGet?
      && cf.serviceInstances(serviceInstanceId).Success?
      && cf.serviceBrokers(r.calls[3].serviceBrokerId).Success?
      && r.result.value == RuleDescription(bindingId,
                                           cf.serviceInstances(serviceInstanceId).value.name,
                                           cf.serviceBrokers(r.calls[3].serviceBrokerId).value.name).Value()
  {
    var instance := GetServiceInstance(cf, serviceInstanceId);
    match instance.result
    case Failure(e) => Reply(Failure(e), instance.calls)
    case Success(serviceInstance) =>
      var plan := GetPlan(cf, serviceInstance.servicePlanId);
      var afterPlan := instance.calls + plan.calls;
      match plan.result
      case Failure(e) => Reply(Failure(e), afterPlan)
      case Success(servicePlan) =>
        var service := GetService(cf, servicePlan.serviceId);
        var afterService := afterPlan + service.calls;
        match service.result
        case Failure(e) => Reply(Failure(e), afterService)
        case Success(serviceEntity) =>
          var broker := GetServiceBrokerName(cf, serviceEntity.serviceBrokerId);
          var afterBroker := afterService + broker.calls;
          match broker.result
          case Failure(e) => Reply(Failure(e), afterBroker)
          case Success(serviceBrokerName) =>
            Reply(Success(RuleDescription(bindingId, serviceInstance.name, serviceBrokerName).Value()), afterBroker)
  }

  // ---------------------------------------------------------------------
  // Rule synthesis and the create request.

  /** One TCP rule per IP, in the IPs' order, all with the same ports and
      description. */
  function Rules(ips: seq<string>, ports: string, description: string): (rules: seq<RuleEntity>)
    ensures |rules| == |ips|
    ensures forall i :: 0 <= i < |rules| ==> rules[i] == RuleEntity(DefaultProtocol, ips[i], ports, description)
  {
    if ips == [] then [] else [RuleEntity(DefaultProtocol, ips[0], ports, description)] + Rules(ips[1..], ports, description)
  }

  /** The rules opening `destination`: the ports field is the decimal text
      of the destination port (`String.valueOf`). */
  function GetRules(destination: Destination, description: string): (rules: seq<RuleEntity>)
    ensures |rules| == |destination.ips|
    ensures forall i :: 0 <= i < |rules| ==>
      && rules[i].protocol == TCP
      && rules[i].destination == destination.ips[i]
      && rules[i].description == description
      && rules[i].ports == IntToString(destination.port.value)
  {
    Rules(destination.ips, IntToString(destination.port.value), description)
  }

  /** The security group is named after the binding. */
  function GetSecurityGroupName(request: CreateServiceInstanceBindingRequest): string {
    request.bindingId
  }

  /** The ports text of every rule reads back as the destination port. */
  lemma RulePortsReadBack(destination: Destination, description: string)
    ensures forall i :: 0 <= i < |GetRules(destination, description)| ==>
      ParseInt(GetRules(destination, description)[i].ports) == Some(destination.port.value)
  {
    IntRoundTrip(destination.port.value);
  }

  /** Distinct bindings get distinct security group names, and the same
      binding always gets the same name. */
  lemma GroupNamePerBinding(a: CreateServiceInstanceBindingRequest, b: CreateServiceInstanceBindingRequest)
    ensures GetSecurityGroupName(a) == GetSecurityGroupName(b) <==> a.bindingId == b.bindingId
  {
  }

  /** The single create call for a binding: one request carrying the given
      name and space and the rules for `destination`; the reply is Cloud
      Foundry's answer to that request. */
  function Create(cf: CloudFoundryClient, name: string, destination: Destination, description: string, spaceId: string)
    : (r: Reply<SecurityGroupEntity>)
    ensures |r.calls| == 1 && r.calls[0].SecurityGroupsCreate?
    ensures var request := r.calls[0].request;
      && request.name == name && request.spaceId == spaceId
      && request.rules == GetRules(destination, description)
      && r.result == cf.securityGroups(request)
  {
    var request := CreateSecurityGroupRequest(name, GetRules(destination, description), spaceId);
    Reply(cf.securityGroups(request), [SecurityGroupsCreate(request)])
  }

  // ---------------------------------------------------------------------
  // The whole filter.

  /** What one `run` does: its outcome and the remote calls it issues. The
      response, its credentials and the destination they parse to are checked
      first, without any remote call. */
  function RunSpec(cf: CloudFoundryClient, trust: TrustedDestinationSpecification, parser: ConnectionInfoFactory,
                   request: CreateServiceInstanceBindingRequest,
                   response: Option<CreateServiceInstanceAppBindingResponse>): (e: Execution)
    ensures e.outcome.Threw? && e.outcome.error.IllegalArgument? ==>
      e.calls == [] && ParsedDestination(parser, response).None?
    ensures e.calls != [] ==>
      && 2 <= |e.calls| <= 6
      && e.calls[0] == ServiceInstancesGet(request.serviceInstanceId)
      && ApplicationsGet(request.appGuid) in e.calls
  {
    if response.None? then Execution(Threw(IllegalArgument(NullResponse)), [])
    else if response.value.credentials.None? then Execution(Threw(IllegalArgument(NullCredentials)), [])
    else match parser(response.value.credentials.value)
      case Failure(message) => Execution(Threw(IllegalArgument(message)), [])
      case Success(destination) =>
        if !trust.isSatisfiedBy(destination) then Execution(Threw(NotAllowedDestination(destination)), [])
        else Proceed(cf, request, destination, GetRuleDescription(cf, request.bindingId, request.serviceInstanceId))
  }

  /** A run past the gate, given the reply of the description chain: the
      chain and the space lookup, joined in the source, are both issued, the
      chain first; the create call follows only when both answered. */
  function Proceed(cf: CloudFoundryClient, request: CreateServiceInstanceBindingRequest, destination: Destination,
                   description: Reply<string>): Execution
  {
    var spaceId := GetSpaceId(cf, request.appGuid);
    var lookups := description.calls + spaceId.calls;
    if description.result.Failure? then Execution(Threw(Remote(description.result.error)), lookups)
    else if spaceId.result.Failure? then Execution(Threw(Remote(spaceId.result.error)), lookups)
    else
      var securityGroup := Create(cf, GetSecurityGroupName(request), destination, description.result.value, spaceId.result.value);
      var outcome := if securityGroup.result.Success? then Returned else Threw(Remote(securityGroup.result.error));
      Execution(outcome, lookups + securityGroup.calls)
  }

  /** What the rest of a run relies on about the description chain's reply:
      it issued at least one call, only lookups of the chain, every call but
      the last was answered, and the reply failed exactly when the last call
      did, with that call's error. */
  predicate ChainReply(cf: CloudFoundryClient, description: Reply<string>) {
    && |description.calls| >= 1
    && (forall j :: 0 <= j < |description.calls| ==>
          !description.calls[j].ApplicationsGet? && !description.calls[j].SecurityGroupsCreate?)
    && (forall j :: 0 <= j < |description.calls| - 1 ==> CallError(cf, description.calls[j]).None?)
    && (description.result.Failure? <==> CallError(cf, description.calls[|description.calls| - 1]).Some?)
    && (description.result.Failure? ==>
          CallError(cf, description.calls[|description.calls| - 1]) == Some(description.result.error))
  }

  lemma DescriptionIsChainReply(cf: CloudFoundryClient, bindingId: string, serviceInstanceId: string)
    ensures ChainReply(cf, GetRuleDescription(cf, bindingId, serviceInstanceId))
  {
    var d := GetRuleDescription(cf, bindingId, serviceInstanceId);
    forall j | 0 <= j < |d.calls| - 1
      ensures CallError(cf, d.calls[j]).None?
    {
      assert NextInChain(cf, d.calls[j]).Some?;
    }
  }

  lemma ProceedCreateLast(cf: CloudFoundryClient, request: CreateServiceInstanceBindingRequest, destination: Destination,
                          description: Reply<string>)
    requires ChainReply(cf, description)
    ensures var calls := Proceed(cf, request, destination, description).calls;
      forall k :: 0 <= k < |calls| && calls[k].SecurityGroupsCreate? ==>
        && k == |calls| - 1
        && (forall j :: 0 <= j < k ==> CallError(cf, calls[j]).None?)
        && ApplicationsGet(request.appGuid) in calls[..k]
  {
    var e := Proceed(cf, request, destination, description);
    var spaceId := GetSpaceId(cf, request.appGuid);
    var lookups := description.calls + spaceId.calls;
    assert lookups[|description.calls|] == ApplicationsGet(request.appGuid);
    if description.result.Success? && spaceId.result.Success? {
      var create := Create(cf, GetSecurityGroupName(request), destination, description.result.value, spaceId.result.value);
      assert e.calls == lookups + create.calls;
      assert e.calls[..|lookups|] == lookups;
    } else {
      assert e.calls == lookups;
    }
  }

  lemma ProceedReturnsNormally(cf: CloudFoundryClient, request: CreateServiceInstanceBindingRequest, destination: Destination,
                               description: Reply<string>)
    requires ChainReply(cf, description)
    ensures var e := Proceed(cf, request, destination, description);
      e.outcome == Returned <==>
        && |e.calls| > 0 && e.calls[|e.calls| - 1].SecurityGroupsCreate?
        && forall k :: 0 <= k < |e.calls| ==> CallError(cf, e.calls[k]).None?
  {
    var e := Proceed(cf, request, destination, description);
    var spaceId := GetSpaceId(cf, request.appGuid);
    var lookups := description.calls + spaceId.calls;
    if description.result.Success? && spaceId.result.Success? {
      var create := Create(cf, GetSecurityGroupName(request), destination, description.result.value, spaceId.result.value);
      AllAnswered(cf, description.calls, spaceId.calls);
      AllAnswered(cf, lookups, create.calls);
      assert e.calls == lookups + create.calls;
    } else {
      assert e.calls == lookups;
      assert e.calls[|e.calls| - 1] == ApplicationsGet(request.appGuid);
    }
  }

  /** Calls are all answered in a concatenation exactly when they are in
      both parts. */
  lemma AllAnswered(cf: CloudFoundryClient, a: seq<RemoteCall>, b: seq<RemoteCall>)
    ensures (forall k :: 0 <= k < |a + b| ==> CallError(cf, (a + b)[k]).None?) <==>
      && (forall k :: 0 <= k < |a| ==> CallError(cf, a[k]).None?)
      && (forall k :: 0 <= k < |b| ==> CallError(cf, b[k]).None?)
  {
    if forall k :: 0 <= k < |a + b| ==> CallError(cf, (a + b)[k]).None? {
      forall k | 0 <= k < |a|
        ensures CallError(cf, a[k]).None?
      {
        assert (a + b)[k] == a[k];
      }
      forall k | 0 <= k < |b|
        ensures CallError(cf, b[k]).None?
      {
        assert (a + b)[|a| + k] == b[k];
      }
    }
    if && (forall k :: 0 <= k < |a| ==> CallError(cf, a[k]).None?)
       && (forall k :: 0 <= k < |b| ==> CallError(cf, b[k]).None?)
    {
      forall k | 0 <= k < |a + b|
        ensures CallError(cf, (a + b)[k]).None?
      {
        if k >= |a| {
          assert (a + b)[k] == b[k - |a|];
        }
      }
    }
  }

  lemma ProceedRemoteError(cf: CloudFoundryClient, request: CreateServiceInstanceBindingRequest, destination: Destination,
                           description: Reply<string>)
    requires ChainReply(cf, description)
    ensures var e := Proceed(cf, request, destination, description);
      e.outcome.Threw? && e.outcome.error.Remote? ==>
        exists k :: 0 <= k < |e.calls| && CallError(cf, e.calls[k]) == Some(e.outcome.error.error)
  {
    var e := Proceed(cf, request, destination, description);
    var spaceId := GetSpaceId(cf, request.appGuid);
    var lookups := description.calls + spaceId.calls;
    if description.result.Failure? {
      assert e.calls[|description.calls| - 1] == description.calls[|description.calls| - 1];
    } else if spaceId.result.Failure? {
      assert e.calls[|description.calls|] == ApplicationsGet(request.appGuid);
    } else {
      var create := Create(cf, GetSecurityGroupName(request), destination, description.result.value, spaceId.result.value);
      assert e.calls[|lookups|] == create.calls[0];
    }
  }

  lemma ProceedFailureRethrown(cf: CloudFoundryClient, request: CreateServiceInstanceBindingRequest, destination: Destination,
                               description: Reply<string>)
    requires ChainReply(cf, description)
    ensures var e := Proceed(cf, request, destination, description);
      (exists k :: 0 <= k < |e.calls| && CallError(cf, e.calls[k]).Some?) ==>
        && e.outcome.Threw? && e.outcome.error.Remote?
        && exists k :: 0 <= k < |e.calls| && CallError(cf, e.calls[k]) == Some(e.outcome.error.error)
             && forall j :: 0 <= j < k ==> CallError(cf, e.calls[j]).None?
  {
    var e := Proceed(cf, request, destination, description);
    var spaceId := GetSpaceId(cf, request.appGuid);
    var lookups := description.calls + spaceId.calls;
    var last := |description.calls| - 1;
    assert e.calls[..|description.calls|] == description.calls;
    if description.result.Failure? {
      assert CallError(cf, e.calls[last]) == Some(e.outcome.error.error);
    } else if spaceId.result.Failure? {
      assert e.calls[|description.calls|] == ApplicationsGet(request.appGuid);
      assert CallError(cf, e.calls[|description.calls|]) == Some(e.outcome.error.error);
    } else {
      var create := Create(cf, GetSecurityGroupName(request), destination, description.result.value, spaceId.result.value);
      assert e.calls == lookups + create.calls;
      forall j | 0 <= j < |lookups|
        ensures CallError(cf, e.calls[j]).None?
      {
        assert e.calls[j] == lookups[j];
      }
      if create.result.Failure? {
        assert CallError(cf, e.calls[|lookups|]) == Some(e.outcome.error.error);
      }
    }
  }

  /** The destination a response's credentials parse to, when the response
      and its credentials are present and parsing succeeds. */
  function ParsedDestination(parser: ConnectionInfoFactory, response: Option<CreateServiceInstanceAppBindingResponse>): Option<Destination> {
    if response.None? || response.value.credentials.None? then None
    else match parser(response.value.credentials.value)
      case Success(destination) => Some(destination)
      case Failure(_) => None
  }

  /** The filter object: a Cloud Foundry client and a trust specification,
      both fixed at construction, and the record of the calls it has made. */
  class CreateSecurityGroup {
    const cloudFoundryClient: CloudFoundryClient
    const trustedDestinationSpecification: TrustedDestinationSpecification
    const connectionInfoFactory: ConnectionInfoFactory
    ghost var calls: seq<RemoteCall>

    constructor (cloudFoundryClient: CloudFoundryClient, trustedDestinationSpecification: TrustedDestinationSpecification,
                 connectionInfoFactory: ConnectionInfoFactory)
      ensures this.cloudFoundryClient == cloudFoundryClient
      ensures this.trustedDestinationSpecification == trustedDestinationSpecification
      ensures this.connectionInfoFactory == connectionInfoFactory
      ensures calls == []
    {
      this.cloudFoundryClient := cloudFoundryClient;
      this.trustedDestinationSpecification := trustedDestinationSpecification;
      this.connectionInfoFactory := connectionInfoFactory;
      calls := [];
    }

    /** Opens the security group for a binding, or throws. */
    method Run(request: CreateServiceInstanceBindingRequest, response: Option<CreateServiceInstanceAppBindingResponse>)
      returns (outcome: Outcome)
      modifies this`calls
      ensures outcome == RunSpec(cloudFoundryClient, trustedDestinationSpecification, connectionInfoFactory, request, response).outcome
      ensures calls == old(calls) + RunSpec(cloudFoundryClient, trustedDestinationSpecification, connectionInfoFactory, request, response).calls
      ensures calls != old(calls) <==>
        && ParsedDestination(connectionInfoFactory, response).Some?
        && trustedDestinationSpecification.isSatisfiedBy(ParsedDestination(connectionInfoFactory, response).value)
    {
      RemoteCallsOnlyWhenTrusted(cloudFoundryClient, trustedDestinationSpecification, connectionInfoFactory, request, response);
      if response.None? {
        return Threw(IllegalArgument(NullResponse));
      }
      if response.value.credentials.None? {
        return Threw(IllegalArgument(NullCredentials));
      }
      var parsed := connectionInfoFactory(response.value.credentials.value);
      if parsed.Failure? {
        return Threw(IllegalArgument(parsed.error));
      }
      var destination := parsed.value;
      if !trustedDestinationSpecification.isSatisfiedBy(destination) {
        return Threw(NotAllowedDestination(destination));
      }
      var description := GetRuleDescription(cloudFoundryClient, request.bindingId, request.serviceInstanceId);
      calls := calls + description.calls;
      var spaceId := GetSpaceId(cloudFoundryClient, request.appGuid);
      calls := calls + spaceId.calls;
      if description.result.Failure? {
        return Threw(Remote(description.result.error));
      }
      if spaceId.result.Failure? {
        return Threw(Remote(spaceId.result.error));
      }
      var securityGroup := Create(cloudFoundryClient, GetSecurityGroupName(request), destination,
                                  description.result.value, spaceId.result.value);
      calls := calls + securityGroup.calls;
      if securityGroup.result.Failure? {
        return Threw(Remote(securityGroup.result.error));
      }
      return Returned;
    }
  }

  // ---------------------------------------------------------------------
  // Properties of the filter.

  /** A null response or null credentials is refused before anything else. */
  lemma NullResponseRejected(cf: CloudFoundryClient, trust: TrustedDestinationSpecification, parser: ConnectionInfoFactory,
                             request: CreateServiceInstanceBindingRequest,
                             response: Option<CreateServiceInstanceAppBindingResponse>)
    requires response.None? || response.value.credentials.None?
    ensures var e := RunSpec(cf, trust, parser, request, response);
      && e.calls == []
      && e.outcome == Threw(IllegalArgument(if response.None? then NullResponse else NullCredentials))
  {
  }

  /** Credentials the parser rejects end the run with its error, before any call. */
  lemma InvalidCredentialsRejected(cf: CloudFoundryClient, trust: TrustedDestinationSpecification, parser: ConnectionInfoFactory,
                                   request: CreateServiceInstanceBindingRequest,
                                   response: Option<CreateServiceInstanceAppBindingResponse>)
    requires response.Some? && response.value.credentials.Some?
    requires parser(response.value.credentials.value).Failure?
    ensures var e := RunSpec(cf, trust, parser, request, response);
      && e.calls == []
      && e.outcome == Threw(IllegalArgument(parser(response.value.credentials.value).error))
  {
  }

  /** An untrusted destination is refused with NotAllowedDestination, and no
      lookup and no create call is made. */
  lemma UntrustedDestinationRejected(cf: CloudFoundryClient, trust: TrustedDestinationSpecification, parser: ConnectionInfoFactory,
                                     request: CreateServiceInstanceBindingRequest,
                                     response: Option<CreateServiceInstanceAppBindingResponse>)
    requires ParsedDestination(parser, response).Some?
    requires !trust.isSatisfiedBy(ParsedDestination(parser, response).value)
    ensures var e := RunSpec(cf, trust, parser, request, response);
      && e.calls == []
      && e.outcome == Threw(NotAllowedDestination(ParsedDestination(parser, response).value))
  {
  }

  /** A run makes remote calls exactly when the credentials parse to a
      destination the trust specification accepts. */
  lemma RemoteCallsOnlyWhenTrusted(cf: CloudFoundryClient, trust: TrustedDestinationSpecification, parser: ConnectionInfoFactory,
                                   request: CreateServiceInstanceBindingRequest,
                                   response: Option<CreateServiceInstanceAppBindingResponse>)
    ensures RunSpec(cf, trust, parser, request, response).calls != [] <==>
      && ParsedDestination(parser, response).Some?
      && trust.isSatisfiedBy(ParsedDestination(parser, response).value)
  {
  }

  /** NotAllowedDestination names the destination the credentials parsed to,
      and is thrown only when the trust specification rejects it. */
  lemma NotAllowedOnlyForUntrusted(cf: CloudFoundryClient, trust: TrustedDestinationSpecification, parser: ConnectionInfoFactory,
                                   request: CreateServiceInstanceBindingRequest,
                                   response: Option<CreateServiceInstanceAppBindingResponse>)
    ensures var e := RunSpec(cf, trust, parser, request, response);
      e.outcome.Threw? && e.outcome.error.NotAllowedDestination? ==>
        && ParsedDestination(parser, response) == Some(e.outcome.error.destination)
        && !trust.isSatisfiedBy(e.outcome.error.destination)
  {
  }

  /** When the gate passes and every lookup answers, the run issues exactly
      the four chain lookups, the application lookup and one create call,
      whose request is named after the binding, targets the application's
      space and bundles the rules for the destination described by the
      binding id, the instance name and the broker name. The run returns
      normally exactly when that create call succeeds. */
  lemma CreateRequestIsExact(cf: CloudFoundryClient, trust: TrustedDestinationSpecification, parser: ConnectionInfoFactory,
                             request: CreateServiceInstanceBindingRequest,
                             response: Option<CreateServiceInstanceAppBindingResponse>,
                             instance: ServiceInstanceEntity, plan: ServicePlanEntity, service: ServiceEntity,
                             broker: ServiceBrokerEntity, app: ApplicationEntity)
    requires ParsedDestination(parser, response).Some?
    requires trust.isSatisfiedBy(ParsedDestination(parser, response).value)
    requires cf.serviceInstances(request.serviceInstanceId) == Success(instance)
    requires cf.servicePlans(instance.servicePlanId) == Success(plan)
    requires cf.services(plan.serviceId) == Success(service)
    requires cf.serviceBrokers(service.serviceBrokerId) == Success(broker)
    requires cf.applications(request.appGuid) == Success(app)
    ensures var e := RunSpec(cf, trust, parser, request, response);
      var description := RuleDescription(request.bindingId, instance.name, broker.name).Value();
      var create := CreateSecurityGroupRequest(request.bindingId,
                                               GetRules(ParsedDestination(parser, response).value, description),
                                               app.spaceId);
      && e.calls == [ServiceInstancesGet(request.serviceInstanceId), ServicePlansGet(instance.servicePlanId),
                     ServicesGet(plan.serviceId), ServiceBrokersGet(service.serviceBrokerId),
                     ApplicationsGet(request.appGuid), SecurityGroupsCreate(create)]
      && (e.outcome == Returned <==> cf.securityGroups(create).Success?)
      && (cf.securityGroups(create).Failure? ==> e.outcome == Threw(Remote(cf.securityGroups(create).error)))
  {
    var destination := ParsedDestination(parser, response).value;
    var chain := GetRuleDescription(cf, request.bindingId, request.serviceInstanceId);
    var description := RuleDescription(request.bindingId, instance.name, broker.name).Value();
    assert chain.calls == [ServiceInstancesGet(request.serviceInstanceId), ServicePlansGet(instance.servicePlanId),
                           ServicesGet(plan.serviceId), ServiceBrokersGet(service.serviceBrokerId)];
    assert chain.result == Success(description);
    var e := Proceed(cf, request, destination, chain);
    var create := Create(cf, GetSecurityGroupName(request), destination, description, app.spaceId);
    assert e.calls == chain.calls + [ApplicationsGet(request.appGuid)] + create.calls;
  }

  /** A create call is the last call of a run, and every call before it was
      answered: the description and the space id were both available. */
  lemma CreateComesLast(cf: CloudFoundryClient, trust: TrustedDestinationSpecification, parser: ConnectionInfoFactory,
                        request: CreateServiceInstanceBindingRequest,
                        response: Option<CreateServiceInstanceAppBindingResponse>)
    ensures var calls := RunSpec(cf, trust, parser, request, response).calls;
      forall k :: 0 <= k < |calls| && calls[k].SecurityGroupsCreate? ==>
        && k == |calls| - 1
        && (forall j :: 0 <= j < k ==> CallError(cf, calls[j]).None?)
        && ApplicationsGet(request.appGuid) in calls[..k]
  {
    var destination := ParsedDestination(parser, response);
    if destination.Some? && trust.isSatisfiedBy(destination.value) {
      DescriptionIsChainReply(cf, request.bindingId, request.serviceInstanceId);
      ProceedCreateLast(cf, request, destination.value, GetRuleDescription(cf, request.bindingId, request.serviceInstanceId));
    }
  }

  /** A run returns normally exactly when it issued a create call last and
      every call it issued was answered. */
  lemma ReturnsNormallyIff(cf: CloudFoundryClient, trust: TrustedDestinationSpecification, parser: ConnectionInfoFactory,
                           request: CreateServiceInstanceBindingRequest,
                           response: Option<CreateServiceInstanceAppBindingResponse>)
    ensures var e := RunSpec(cf, trust, parser, request, response);
      e.outcome == Returned <==>
        && |e.calls| > 0 && e.calls[|e.calls| - 1].SecurityGroupsCreate?
        && forall k :: 0 <= k < |e.calls| ==> CallError(cf, e.calls[k]).None?
  {
    var destination := ParsedDestination(parser, response);
    if destination.Some? && trust.isSatisfiedBy(destination.value) {
      DescriptionIsChainReply(cf, request.bindingId, request.serviceInstanceId);
      ProceedReturnsNormally(cf, request, destination.value, GetRuleDescription(cf, request.bindingId, request.serviceInstanceId));
    }
  }

  /** A remote error a run throws is the error of one of its own calls. */
  lemma RemoteErrorFromCall(cf: CloudFoundryClient, trust: TrustedDestinationSpecification, parser: ConnectionInfoFactory,
                            request: CreateServiceInstanceBindingRequest,
                            response: Option<CreateServiceInstanceAppBindingResponse>)
    ensures var e := RunSpec(cf, trust, parser, request, response);
      e.outcome.Threw? && e.outcome.error.Remote? ==>
        exists k :: 0 <= k < |e.calls| && CallError(cf, e.calls[k]) == Some(e.outcome.error.error)
  {
    var destination := ParsedDestination(parser, response);
    if destination.Some? && trust.isSatisfiedBy(destination.value) {
      DescriptionIsChainReply(cf, request.bindingId, request.serviceInstanceId);
      ProceedRemoteError(cf, request, destination.value, GetRuleDescription(cf, request.bindingId, request.serviceInstanceId));
    }
  }

  /** A failed call is never swallowed: a run in which some call fails
      throws Remote with the error of its first failing call. */
  lemma FailureRethrown(cf: CloudFoundryClient, trust: TrustedDestinationSpecification, parser: ConnectionInfoFactory,
                        request: CreateServiceInstanceBindingRequest,
                        response: Option<CreateServiceInstanceAppBindingResponse>)
    ensures var e := RunSpec(cf, trust, parser, request, response);
      (exists k :: 0 <= k < |e.calls| && CallError(cf, e.calls[k]).Some?) ==>
        && e.outcome.Threw? && e.outcome.error.Remote?
        && exists k :: 0 <= k < |e.calls| && CallError(cf, e.calls[k]) == Some(e.outcome.error.error)
             && forall j :: 0 <= j < k ==> CallError(cf, e.calls[j]).None?
  {
    var destination := ParsedDestination(parser, response);
    if destination.Some? && trust.isSatisfiedBy(destination.value) {
      DescriptionIsChainReply(cf, request.bindingId, request.serviceInstanceId);
      ProceedFailureRethrown(cf, request, destination.value, GetRuleDescription(cf, request.bindingId, request.serviceInstanceId));
    }
  }

  /** The repository's end-to-end test: binding "test-securitygroup-name",
      instance "service-instance-id" named "service-instance-name" on plan
      "plan-id", service "service-id", broker "service-broker-id" named
      "service-broker-name", application "app_guid" in space "space_id", and
      credentials parsed to 127.0.0.1 port 3306. */
  lemma ShouldCreateSecurityGroup(cf: CloudFoundryClient, trust: TrustedDestinationSpecification, parser: ConnectionInfoFactory,
                                  credentials: Credentials)
    requires parser(credentials) == Success(Destination(["127.0.0.1"], Port(3306)))
    requires trust.isSatisfiedBy(Destination(["127.0.0.1"], Port(3306)))
    requires cf.serviceInstances("service-instance-id") == Success(ServiceInstanceEntity("service-instance-name", "plan-id"))
    requires cf.servicePlans("plan-id") == Success(ServicePlanEntity("service-id"))
    requires cf.services("service-id") == Success(ServiceEntity("service-broker-id"))
    requires cf.serviceBrokers("service-broker-id") == Success(ServiceBrokerEntity("service-broker-name"))
    requires cf.applications("app_guid") == Success(ApplicationEntity("space_id"))
    ensures var e := RunSpec(cf, trust, parser,
                             CreateServiceInstanceBindingRequest("test-securitygroup-name", "service-instance-id", "app_guid"),
                             Some(CreateServiceInstanceAppBindingResponse(Some(credentials))));
      var description := "generated by sec group filter broker for service binding<test-securitygroup-name>"
                       + " to allow access to service instance<service-instance-name>"
                       + " created from service broker<service-broker-name>.";
      e.calls[|e.calls| - 1] == SecurityGroupsCreate(CreateSecurityGroupRequest(
        "test-securitygroup-name", [RuleEntity(TCP, "127.0.0.1", "3306", description)], "space_id"))
  {
    var request := CreateServiceInstanceBindingRequest("test-securitygroup-name", "service-instance-id", "app_guid");
    var response := Some(CreateServiceInstanceAppBindingResponse(Some(credentials)));
    var description := RuleDescription("test-securitygroup-name", "service-instance-name", "service-broker-name").Value();
    CreateRequestIsExact(cf, trust, parser, request, response,
                         ServiceInstanceEntity("service-instance-name", "plan-id"), ServicePlanEntity("service-id"),
                         ServiceEntity("service-broker-id"), ServiceBrokerEntity("service-broker-name"), ApplicationEntity("space_id"));
    MySqlPortString();
    TestDescription();
    var rules := GetRules(Destination(["127.0.0.1"], Port(3306)), description);
    assert rules == [RuleEntity(TCP, "127.0.0.1", "3306", description)];
  }
}
