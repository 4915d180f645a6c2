/** The values the filter receives: the binding request and response handed
    over by the service-broker framework, the destination parsed from the
    credentials, and the administrator's trust specification. */
module Domain {

  import opened Results

  /** A transport port, as the Java `Port.value()` int. */
  datatype Port = Port(value: int)

  /** The network destination implied by the binding credentials: the IP
      addresses in the order the parser yields them, and one port. */
  datatype Destination = Destination(ips: seq<string>, port: Port)

  /** The trust policy. Its matching rule is not part of this model, so it is
      kept as an uninterpreted, side-effect-free predicate. */
  datatype TrustedDestinationSpecification =
    TrustedDestinationSpecification(isSatisfiedBy: Destination -> bool)

  /** The credentials of a binding, keyed by name (`uri`, ...). */
  type Credentials = map<string, string>

  /** The credentials parser. It either yields a destination or fails with
      the message of the IllegalArgumentException it throws; its parsing
      rules are not part of this model. */
  type ConnectionInfoFactory = Credentials -> Result<Destination, string>

  /** The fields of the framework's binding request that the filter reads. */
  datatype CreateServiceInstanceBindingRequest =
    CreateServiceInstanceBindingRequest(bindingId: string, serviceInstanceId: string, appGuid: string)

  /** The framework's binding response; its credentials may be null. */
  datatype CreateServiceInstanceAppBindingResponse =
    CreateServiceInstanceAppBindingResponse(credentials: Option<Credentials>)
}
