# Security-group post-binding filter, modelled in Dafny

This project models the `CreateSecurityGroup` post-binding filter of the Orange
service-broker filter (`sec-group-broker-filter`). A service binding has just
been created. The filter reads the connection credentials of that binding and
parses them into a destination: a list of IP addresses and one port. If the
administrator's trusted-destination specification does not accept that
destination, the filter throws `NotAllowedDestination` before it talks to
Cloud Foundry at all. If it does accept it, the filter does two lookups:

- it resolves a provenance description through the chain
  service instance → service plan → service → service broker;
- it looks up the space of the bound application.

It then asks Cloud Foundry to create one security group. The group is named
after the binding id, is bound to that space and holds one TCP rule per
destination IP. Any failure is rethrown to the framework.

Layout:

- `results.dfy`: `Option` (a Java reference that may be null) and `Result` (a call that returns or throws).
- `decimal.dfy`: Java's `String.valueOf(int)`, used for the `ports` field of each rule, with its inverse `ParseInt`.
- `domain.dfy`: the destination, the trust specification, the credentials parser type, and the binding request and response.
- `cloud_foundry.dfy`: the Cloud Foundry v2 entities and requests the filter uses. It also defines `RemoteCall`, which names each request, and `CloudFoundryClient`, which gives one abstract success-or-error function per remote operation.
- `rule_description.dfy`: the provenance text (`ImmutableRuleDescription`) and a parser that reads its three values back.
- `security_group_filter.dfy`: the lookup chain, rule synthesis, the whole filter as the pure function `RunSpec`, the class `CreateSecurityGroup` whose `Run` method records every remote call in a ghost trace, and the lemmas.

`RunSpec` returns the outcome of one `run` (returned normally, or the thrown
error) together with the remote calls it issued, in order. `Run` is proved
to produce exactly that outcome and to append exactly those calls to its
trace.

## Model

| member | source | states |
|---|---|---|
| SecurityGroupFilter.CreateSecurityGroup.constructor | service-broker-filter-securitygroups/src/main/java/com/orange/cloud/servicebroker/filter/securitygroups/filter/CreateSecurityGroup.java:64-68 | The filter keeps the client and the trust specification it is given; they are never changed afterwards. Its call trace starts empty. |
| SecurityGroupFilter.CreateSecurityGroup.Run | service-broker-filter-securitygroups/src/main/java/com/orange/cloud/servicebroker/filter/securitygroups/filter/CreateSecurityGroup.java:127-153 | The outcome and the calls appended to the trace are those of `RunSpec`. Calls are appended exactly when the credentials parsed to a destination that the trust specification accepts. |
| SecurityGroupFilter.NullResponseRejected | service-broker-filter-securitygroups/src/main/java/com/orange/cloud/servicebroker/filter/securitygroups/filter/CreateSecurityGroup.java:129-130 | A null response, or null credentials, throws IllegalArgument with the source's message. No remote call is made. |
| SecurityGroupFilter.InvalidCredentialsRejected | service-broker-filter-securitygroups/src/main/java/com/orange/cloud/servicebroker/filter/securitygroups/filter/CreateSecurityGroup.java:132 | If the parser rejects the credentials, run throws the parser's IllegalArgument message. No remote call is made. |
| SecurityGroupFilter.UntrustedDestinationRejected | service-broker-filter-securitygroups/src/main/java/com/orange/cloud/servicebroker/filter/securitygroups/filter/CreateSecurityGroup.java:134-137 | A parsed destination that the trust specification refuses throws NotAllowedDestination carrying that destination. No lookup and no create call is made. |
| SecurityGroupFilter.RemoteCallsOnlyWhenTrusted | service-broker-filter-securitygroups/src/main/java/com/orange/cloud/servicebroker/filter/securitygroups/filter/CreateSecurityGroup.java:129-143 | A run issues remote calls if and only if the response and its credentials are present and parse to a destination that the trust specification accepts. |
| SecurityGroupFilter.GetRuleDescription | service-broker-filter-securitygroups/src/main/java/com/orange/cloud/servicebroker/filter/securitygroups/filter/CreateSecurityGroup.java:94-125 | The first call looks up the service instance. Each later call uses the id that the previous answer returned: the instance's plan id, the plan's service id, the service's broker id. The chain stops at the first failure and returns that call's error. On success it made exactly four calls, and the text combines the binding id, the instance name from the first answer and the broker name from the last answer. |
| SecurityGroupFilter.Rules | service-broker-filter-securitygroups/src/main/java/com/orange/cloud/servicebroker/filter/securitygroups/filter/CreateSecurityGroup.java:169-176 | One rule per IP, in the IPs' order. Each rule has protocol TCP, that IP, and the shared ports and description. |
| SecurityGroupFilter.GetRules | service-broker-filter-securitygroups/src/main/java/com/orange/cloud/servicebroker/filter/securitygroups/filter/CreateSecurityGroup.java:168-178 | As many rules as destination IPs. Rule i has protocol TCP, destination IP i, the shared description, and the `String.valueOf` text of the destination port as its ports. |
| SecurityGroupFilter.CreateRequestIsExact | service-broker-filter-securitygroups/src/main/java/com/orange/cloud/servicebroker/filter/securitygroups/filter/CreateSecurityGroup.java:139-191 | Suppose the gate passes and every lookup answers. Then the calls are exactly: the four chain lookups, the application lookup, and one create. The create request is named after the binding id, targets the application's space, and bundles the rules built from the rendered description. The run returns normally exactly when that create succeeds. Otherwise it throws the create error unchanged. |
| SecurityGroupFilter.CreateComesLast | service-broker-filter-securitygroups/src/main/java/com/orange/cloud/servicebroker/filter/securitygroups/filter/CreateSecurityGroup.java:140-145 | A create call is always the last call of a run. Every call before it was answered, and the application lookup is among them. So create follows both the description and the space id. |
| SecurityGroupFilter.ReturnsNormallyIff | service-broker-filter-securitygroups/src/main/java/com/orange/cloud/servicebroker/filter/securitygroups/filter/CreateSecurityGroup.java:139-151 | Run returns normally exactly when its last call is a create and every call it issued was answered. |
| SecurityGroupFilter.ShouldCreateSecurityGroup | service-broker-filter-securitygroups/src/test/java/com/orange/cloud/servicebroker/filter/securitygroups/filter/CreateSecurityGroupTest.java:153-188 | With the values of the repository's end-to-end test, the final call creates group "test-securitygroup-name" in "space_id". Its one TCP rule has destination 127.0.0.1, ports "3306", and exactly the description text the test expects (its line 66). |
| SecurityGroupFilter.RunSpec | service-broker-filter-securitygroups/src/main/java/com/orange/cloud/servicebroker/filter/securitygroups/filter/CreateSecurityGroup.java:127-153 | An IllegalArgument outcome comes with no remote call and a response whose credentials did not parse. A run that makes calls issues between two and six, starting with the service-instance lookup, and the application lookup is among them. |
| SecurityGroupFilter.NotAllowedOnlyForUntrusted | service-broker-filter-securitygroups/src/main/java/com/orange/cloud/servicebroker/filter/securitygroups/filter/CreateSecurityGroup.java:193-198 | NotAllowedDestination carries the destination the credentials parsed to, and it is thrown only when the trust specification rejects that destination. |
| SecurityGroupFilter.RemoteErrorFromCall | service-broker-filter-securitygroups/src/main/java/com/orange/cloud/servicebroker/filter/securitygroups/filter/CreateSecurityGroup.java:146-150 | A remote error that run rethrows is the error of one of the calls it issued. |
| SecurityGroupFilter.FailureRethrown | service-broker-filter-securitygroups/src/main/java/com/orange/cloud/servicebroker/filter/securitygroups/filter/CreateSecurityGroup.java:139-151 | No failure is swallowed: if any call of a run fails, run throws a remote error, and that error is the one reported by its first failing call. |
| SecurityGroupFilter.GetServiceInstance | service-broker-filter-securitygroups/src/main/java/com/orange/cloud/servicebroker/filter/securitygroups/filter/CreateSecurityGroup.java:85-92 | Issues exactly one service-instance lookup. It fails exactly when that call fails, with the same error; otherwise it answers the entity Cloud Foundry returned. |
| SecurityGroupFilter.GetPlan | service-broker-filter-securitygroups/src/main/java/com/orange/cloud/servicebroker/filter/securitygroups/filter/CreateSecurityGroup.java:113-120 | Issues exactly one service-plan lookup. It fails exactly when that call fails, with the same error; otherwise it answers the plan entity. |
| SecurityGroupFilter.GetService | service-broker-filter-securitygroups/src/main/java/com/orange/cloud/servicebroker/filter/securitygroups/filter/CreateSecurityGroup.java:70-77 | Issues exactly one service lookup. It fails exactly when that call fails, with the same error; otherwise it answers the service entity. |
| SecurityGroupFilter.GetServiceBrokerName | service-broker-filter-securitygroups/src/main/java/com/orange/cloud/servicebroker/filter/securitygroups/filter/CreateSecurityGroup.java:122-125 | Issues exactly one service-broker lookup (`getServiceBroker`). It fails exactly when that call fails, with the same error; otherwise it answers the broker's name. |
| SecurityGroupFilter.GetSpaceId | service-broker-filter-securitygroups/src/main/java/com/orange/cloud/servicebroker/filter/securitygroups/filter/CreateSecurityGroup.java:184-191 | Issues exactly one application lookup. It fails exactly when that call fails, with the same error; otherwise it answers the application's space id. |
| SecurityGroupFilter.GroupNamePerBinding | service-broker-filter-securitygroups/src/main/java/com/orange/cloud/servicebroker/filter/securitygroups/filter/CreateSecurityGroup.java:180-182 | Two binding requests get the same security group name if and only if they have the same binding id. |
| SecurityGroupFilter.Create | service-broker-filter-securitygroups/src/main/java/com/orange/cloud/servicebroker/filter/securitygroups/filter/CreateSecurityGroup.java:155-166 | Issues exactly one create call. Its request carries the given name and space id and the rules for the destination and description; the reply is Cloud Foundry's answer to that request. |
| SecurityGroupFilter.RulePortsReadBack | service-broker-filter-securitygroups/src/main/java/com/orange/cloud/servicebroker/filter/securitygroups/filter/CreateSecurityGroup.java:174 | The ports text of every rule parses back to the destination port. |
| RuleDescriptions.ValueLayout | service-broker-filter-securitygroups/src/main/java/com/orange/cloud/servicebroker/filter/securitygroups/filter/CreateSecurityGroup.java:106-110 | The rendered description is the fixed template with the binding id, the instance name and the broker name each in its own angle brackets, in that order, at the offsets the template fixes. |
| RuleDescriptions.TestDescription | service-broker-filter-securitygroups/src/test/java/com/orange/cloud/servicebroker/filter/securitygroups/filter/CreateSecurityGroupTest.java:66 | For the test's binding, instance and broker, the rendering is exactly the text the test expects. |
| RuleDescriptions.ParseValue | service-broker-filter-securitygroups/src/test/java/com/orange/cloud/servicebroker/filter/securitygroups/filter/CreateSecurityGroupTest.java:66 | If the binding id and instance name contain no '>', the rendered description parses back to the same binding id, instance name and broker name. |
| RuleDescriptions.ValueParse | service-broker-filter-securitygroups/src/test/java/com/orange/cloud/servicebroker/filter/securitygroups/filter/CreateSecurityGroupTest.java:66 | Any text that the description parser accepts is exactly the rendering of the values it returns. |
| Decimal.NatToString | service-broker-filter-securitygroups/src/main/java/com/orange/cloud/servicebroker/filter/securitygroups/filter/CreateSecurityGroup.java:174 | The decimal text of a natural number is non-empty, all digits, and has no leading zero. It starts with '0' only for zero. |
| Decimal.IntToString | service-broker-filter-securitygroups/src/main/java/com/orange/cloud/servicebroker/filter/securitygroups/filter/CreateSecurityGroup.java:174 | `String.valueOf(int)`: a negative value is a minus sign followed by digits without a leading zero; any other value is digits without a leading zero. |
| Decimal.IntRoundTrip | service-broker-filter-securitygroups/src/main/java/com/orange/cloud/servicebroker/filter/securitygroups/filter/CreateSecurityGroup.java:174 | Parsing the `String.valueOf` text of any integer gives back that integer. |
| Decimal.StringRoundTrip | service-broker-filter-securitygroups/src/main/java/com/orange/cloud/servicebroker/filter/securitygroups/filter/CreateSecurityGroup.java:174 | A string that parses to an integer is that integer's `String.valueOf` text, so each integer has exactly one rendering. |
| Decimal.MySqlPortString | service-broker-filter-securitygroups/src/test/java/com/orange/cloud/servicebroker/filter/securitygroups/filter/CreateSecurityGroupTest.java:184 | Port 3306 is rendered as "3306". |

## Left out

- The trust specification's matching rule (`TrustedDestinationSpecification.isSatisfiedBy`, CIDR and port matching) is not part of this model. The filter receives it as an uninterpreted, side-effect-free predicate on destinations.
- The credentials parser (`ConnectionInfoFactory.fromCredentials`, URI parsing) is not part of this model. It is an uninterpreted function from credentials to a destination or an error message. Because the source calls it statically, the model passes it to the constructor. Its failures, like the two null checks, throw IllegalArgumentException (CreateSecurityGroup.java:129-132), and the model reports all three as `IllegalArgument` with their message.
- Credentials are modelled as a map from names to strings, not Java `Object` values.
- The Cloud Foundry client and `ResourceUtils.getEntity` are foreign code. Each remote operation is an abstract function that returns an entity or a client error.
- Reactor composition (`Mono`, `Mono.when`, `block`) and its scheduling are not modelled. Once the gate passes, the model issues the description chain first and the application lookup second. It issues both even when the chain fails, and if both fail it reports the chain's error. In the source the two run concurrently, so the order of their calls, and which error arrives first, depends on scheduling. The 2-second delay in the repository's tests is not modelled. `Mono.when` (CreateSecurityGroup.java:140) also cancels the other source as soon as one fails. So when the application lookup fails early, the source may never issue the remaining chain lookups, and a chain failure may cancel the application lookup. The model always issues the chain up to its first failure and then the application lookup. In those interleavings its trace holds calls the source never makes, so the set of calls differs, not only their order.
- `ReflectionUtils.rethrowRuntimeException` is modelled as passing on the remote error unchanged. Cloud Foundry client errors are runtime exceptions. The wrapping of checked exceptions is not modelled.
- Logging is not modelled. Neither is the returned security-group entity: `run` is void, and the source only logs the entity's name.
- Null requests, null request fields and null entity fields are not modelled: every field is a string. In the source, a null plan id, service id or broker id (CreateSecurityGroup.java:99-102) or a null space id (line 189) makes a Reactor `map` fail with a NullPointerException, which run rethrows. An empty reply makes `block()` return null, and line 147 then throws a NullPointerException. In the model every reply is an entity or a client error.
- The port is an unbounded integer, not a 32-bit Java int. Decimal rendering never wraps, so nothing observable changes.
- `CreateServiceInstanceBindingPostFilter` is a marker interface with no behaviour.
