/** The part of the Cloud Foundry v2 client the filter uses. Every remote
    operation is an abstract function that either answers an entity or fails
    with a client error; every call the filter issues is named by a
    `RemoteCall`, so that the order of calls can be stated. */
module CloudFoundry {

  import opened Results

  /** A failed remote call (the client's ClientV2Exception). */
  datatype ClientError = ClientError(code: int, description: string, errorCode: string)

  datatype ServiceInstanceEntity = ServiceInstanceEntity(name: string, servicePlanId: string)

  datatype ServicePlanEntity = ServicePlanEntity(serviceId: string)

  datatype ServiceEntity = ServiceEntity(serviceBrokerId: string)

  datatype ServiceBrokerEntity = ServiceBrokerEntity(name: string)

  datatype ApplicationEntity = ApplicationEntity(spaceId: string)

  datatype Protocol = TCP | UDP | ICMP | ALL

  datatype RuleEntity = RuleEntity(protocol: Protocol, destination: string, ports: string, description: string)

  datatype CreateSecurityGroupRequest = CreateSecurityGroupRequest(name: string, rules: seq<RuleEntity>, spaceId: string)

  datatype SecurityGroupEntity = SecurityGroupEntity(name: string, rules: seq<RuleEntity>)

  /** One request sent to Cloud Foundry. */
  datatype RemoteCall =
    | ServiceInstancesGet(serviceInstanceId: string)
    | ServicePlansGet(servicePlanId: string)
    | ServicesGet(serviceId: string)
    | ServiceBrokersGet(serviceBrokerId: string)
    | ApplicationsGet(applicationId: string)
    | SecurityGroupsCreate(request: CreateSecurityGroupRequest)

  /** What Cloud Foundry answers to each request, as seen by this client. */
  datatype CloudFoundryClient = CloudFoundryClient(
    serviceInstances: string -> Result<ServiceInstanceEntity, ClientError>,
    servicePlans: string -> Result<ServicePlanEntity, ClientError>,
    services: string -> Result<ServiceEntity, ClientError>,
    serviceBrokers: string -> Result<ServiceBrokerEntity, ClientError>,
    applications: string -> Result<ApplicationEntity, ClientError>,
    securityGroups: CreateSecurityGroupRequest -> Result<SecurityGroupEntity, ClientError>)

  /** The outcome of a (possibly composite) remote operation together with
      the calls it issued, in order. */
  datatype Reply<+T> = Reply(result: Result<T, ClientError>, calls: seq<RemoteCall>)

  /** The error Cloud Foundry reports for a call, if the call fails. */
  function CallError(cf: CloudFoundryClient, call: RemoteCall): Option<ClientError> {
    match call
    case ServiceInstancesGet(id) => ErrorOf(cf.serviceInstances(id))
    case ServicePlansGet(id) => ErrorOf(cf.servicePlans(id))
    case ServicesGet(id) => ErrorOf(cf.services(id))
    case ServiceBrokersGet(id) => ErrorOf(cf.serviceBrokers(id))
    case ApplicationsGet(id) => ErrorOf(cf.applications(id))
    case SecurityGroupsCreate(request) => ErrorOf(cf.securityGroups(request))
  }

  function ErrorOf<T>(r: Result<T, ClientError>): Option<ClientError> {
    match r
    case Success(_) => None
    case Failure(e) => Some(e)
  }
}
