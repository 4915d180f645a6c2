/** The provenance text attached to every rule the filter opens: which
    binding asked for it, for which service instance, and which service
    broker created that instance. `Parse` reads the three values back. */
module RuleDescriptions {

  import opened Results

  const Preamble := "generated by sec group filter broker for service binding<"
  const InstanceLead := " to allow access to service instance<"
  const BrokerLead := " created from service broker<"
  const Closing := ">."

  datatype RuleDescription = RuleDescription(servicebindingId: string, serviceInstanceName: string, serviceBrokerName: string)
  {
    /** The rendered description. */
    function Value(): string {
      Preamble + servicebindingId + ">" + InstanceLead + serviceInstanceName + ">" + BrokerLead + serviceBrokerName + Closing
    }
  }

  /** `text` is `preamble`, `binding`, '>', `lead`, `instance`, '>', `lead2`,
      `broker` and `closing`, each at its own offset. */
  predicate IsLayout(text: string, preamble: string, binding: string, lead: string, instance: string,
                     lead2: string, broker: string, closing: string)
  {
    var b := |preamble| + |binding|;
    var i := b + 1 + |lead| + |instance|;
    var r := i + 1 + |lead2| + |broker|;
    && |text| == r + |closing|
    && text[..|preamble|] == preamble
    && text[|preamble|..b] == binding
    && text[b] == '>' && text[b + 1..b + 1 + |lead|] == lead
    && text[b + 1 + |lead|..i] == instance
    && text[i] == '>' && text[i + 1..i + 1 + |lead2|] == lead2
    && text[i + 1 + |lead2|..r] == broker
    && text[r..] == closing
  }

  /** The rendered description is the fixed text with each value in its
      angle brackets, in the order binding, instance, broker. */
  lemma ValueLayout(d: RuleDescription)
    ensures IsLayout(d.Value(), Preamble, d.servicebindingId, InstanceLead, d.serviceInstanceName,
                     BrokerLead, d.serviceBrokerName, Closing)
  {
    Layout(Preamble, d.servicebindingId, InstanceLead, d.serviceInstanceName, BrokerLead, d.serviceBrokerName, Closing);
  }

  lemma Layout(preamble: string, binding: string, lead: string, instance: string, lead2: string, broker: string, closing: string)
    ensures IsLayout(preamble + binding + ">" + lead + instance + ">" + lead2 + broker + closing,
                     preamble, binding, lead, instance, lead2, broker, closing)
  {
  }

  predicate StartsWith(s: string, prefix: string) {
    |prefix| <= |s| && s[..|prefix|] == prefix
  }

  /** Splits `s` around the first occurrence of `c`. */
  function SplitAtFirst(s: string, c: char): (r: Option<(string, string)>)
    ensures r.Some? ==> c !in r.value.0 && s == r.value.0 + [c] + r.value.1
    ensures r.None? ==> c !in s
  {
    if s == [] then None
    else if s[0] == c then Some(([], s[1..]))
    else match SplitAtFirst(s[1..], c)
      case None => None
      case Some((before, after)) => Some(([s[0]] + before, after))
  }

  /** Recovers the binding id, instance name and broker name from a
      rendered description; None for text not of that shape. */
  function Parse(s: string): Option<RuleDescription> {
    if StartsWith(s, Preamble) then ParseFromBinding(s[|Preamble|..]) else None
  }

  function ParseFromBinding(s: string): Option<RuleDescription> {
    match SplitAtFirst(s, '>')
    case None => None
    case Some((binding, rest)) =>
      if StartsWith(rest, InstanceLead) then ParseFromInstance(binding, rest[|InstanceLead|..]) else None
  }

  function ParseFromInstance(binding: string, s: string): Option<RuleDescription> {
    match SplitAtFirst(s, '>')
    case None => None
    case Some((instance, rest)) =>
      if StartsWith(rest, BrokerLead) then ParseFromBroker(binding, instance, rest[|BrokerLead|..]) else None
  }

  function ParseFromBroker(binding: string, instance: string, s: string): Option<RuleDescription> {
    if |s| >= |Closing| && s[|s| - |Closing|..] == Closing then
      Some(RuleDescription(binding, instance, s[..|s| - |Closing|]))
    else None
  }

  lemma {:induction false} SplitAtSeparator(a: string, c: char, b: string)
    requires c !in a
    ensures SplitAtFirst(a + [c] + b, c) == Some((a, b))
    decreases |a|
  {
    var s := a + [c] + b;
    if a != [] {
      assert s[0] == a[0] && a[0] != c;
      assert s[1..] == a[1..] + [c] + b;
      SplitAtSeparator(a[1..], c, b);
      assert [a[0]] + a[1..] == a;
    } else {
      assert s[0] == c && s[1..] == b;
    }
  }

  lemma PrefixDropped(prefix: string, rest: string)
    ensures StartsWith(prefix + rest, prefix) && (prefix + rest)[|prefix|..] == rest
  {
  }

  lemma PrefixKept(s: string, prefix: string)
    requires StartsWith(s, prefix)
    ensures s == prefix + s[|prefix|..]
  {
  }

  lemma ParseFromBrokerValue(binding: string, instance: string, broker: string)
    ensures ParseFromBroker(binding, instance, broker + Closing) == Some(RuleDescription(binding, instance, broker))
  {
  }

  lemma ParseFromInstanceValue(binding: string, instance: string, broker: string)
    requires '>' !in instance
    ensures ParseFromInstance(binding, instance + ['>'] + (BrokerLead + (broker + Closing)))
         == Some(RuleDescription(binding, instance, broker))
  {
    SplitAtSeparator(instance, '>', BrokerLead + (broker + Closing));
    PrefixDropped(BrokerLead, broker + Closing);
    ParseFromBrokerValue(binding, instance, broker);
  }

  lemma ParseFromBindingValue(binding: string, instance: string, broker: string)
    requires '>' !in binding && '>' !in instance
    ensures ParseFromBinding(binding + ['>'] + (InstanceLead + (instance + ['>'] + (BrokerLead + (broker + Closing)))))
         == Some(RuleDescription(binding, instance, broker))
  {
    var fromInstance := instance + ['>'] + (BrokerLead + (broker + Closing));
    SplitAtSeparator(binding, '>', InstanceLead + fromInstance);
    PrefixDropped(InstanceLead, fromInstance);
    ParseFromInstanceValue(binding, instance, broker);
  }

  /** The rendering, cut after each closing bracket. */
  lemma Pieces(preamble: string, binding: string, lead: string, instance: string, lead2: string, broker: string, closing: string)
    ensures preamble + binding + ">" + lead + instance + ">" + lead2 + broker + closing
         == (preamble + binding + ">") + (lead + instance + ">") + (lead2 + broker + closing)
  {
  }

  /** The description the repository's tests expect for binding
      "test-securitygroup-name", instance "service-instance-name" and broker
      "service-broker-name". */
  lemma TestDescription()
    ensures RuleDescription("test-securitygroup-name", "service-instance-name", "service-broker-name").Value()
         == "generated by sec group filter broker for service binding<test-securitygroup-name>"
          + " to allow access to service instance<service-instance-name>"
          + " created from service broker<service-broker-name>."
  {
    Pieces(Preamble, "test-securitygroup-name", InstanceLead, "service-instance-name", BrokerLead, "service-broker-name", Closing);
    TestBindingPiece();
    TestInstancePiece();
    TestBrokerPiece();
  }

  lemma TestBindingPiece()
    ensures Preamble + "test-securitygroup-name" + ">"
         == "generated by sec group filter broker for service binding<test-securitygroup-name>"
  {
  }

  lemma TestInstancePiece()
    ensures InstanceLead + "service-instance-name" + ">" == " to allow access to service instance<service-instance-name>"
  {
  }

  lemma TestBrokerPiece()
    ensures BrokerLead + "service-broker-name" + Closing == " created from service broker<service-broker-name>."
  {
  }

  /** The rendering, regrouped field by field. */
  lemma Nest(preamble: string, binding: string, lead: string, instance: string, lead2: string, broker: string, closing: string)
    ensures preamble + binding + ">" + lead + instance + ">" + lead2 + broker + closing
         == preamble + (binding + ['>'] + (lead + (instance + ['>'] + (lead2 + (broker + closing)))))
  {
  }

  /** A description whose binding id and instance name hold no '>' is read
      back as the same three values: the text identifies its provenance. */
  lemma ParseValue(d: RuleDescription)
    requires '>' !in d.servicebindingId && '>' !in d.serviceInstanceName
    ensures Parse(d.Value()) == Some(d)
  {
    var b, i, r := d.servicebindingId, d.serviceInstanceName, d.serviceBrokerName;
    Nest(Preamble, b, InstanceLead, i, BrokerLead, r, Closing);
    var fromBinding := b + ['>'] + (InstanceLead + (i + ['>'] + (BrokerLead + (r + Closing))));
    PrefixDropped(Preamble, fromBinding);
    ParseFromBindingValue(b, i, r);
  }

  lemma ValueParseFromBroker(binding: string, instance: string, s: string)
    ensures ParseFromBroker(binding, instance, s).Some? ==>
      var d := ParseFromBroker(binding, instance, s).value;
      d.servicebindingId == binding && d.serviceInstanceName == instance && s == d.serviceBrokerName + Closing
  {
  }

  lemma ValueParseFromInstance(binding: string, s: string)
    ensures ParseFromInstance(binding, s).Some? ==>
      var d := ParseFromInstance(binding, s).value;
      && d.servicebindingId == binding && '>' !in d.serviceInstanceName
      && s == d.serviceInstanceName + ['>'] + (BrokerLead + (d.serviceBrokerName + Closing))
  {
    if ParseFromInstance(binding, s).Some? {
      var (instance, rest) := SplitAtFirst(s, '>').value;
      PrefixKept(rest, BrokerLead);
      ValueParseFromBroker(binding, instance, rest[|BrokerLead|..]);
    }
  }

  lemma ValueParseFromBinding(s: string)
    ensures ParseFromBinding(s).Some? ==>
      var d := ParseFromBinding(s).value;
      && '>' !in d.servicebindingId && '>' !in d.serviceInstanceName
      && s == d.servicebindingId + ['>'] + (InstanceLead + (d.serviceInstanceName + ['>'] + (BrokerLead + (d.serviceBrokerName + Closing))))
  {
    if ParseFromBinding(s).Some? {
      var (binding, rest) := SplitAtFirst(s, '>').value;
      PrefixKept(rest, InstanceLead);
      ValueParseFromInstance(binding, rest[|InstanceLead|..]);
    }
  }

  /** Every text `Parse` accepts is the rendering of what it returns, and
      the returned binding id and instance name hold no '>'. */
  lemma ValueParse(s: string)
    ensures Parse(s).Some? ==> Parse(s).value.Value() == s
    ensures Parse(s).Some? ==> '>' !in Parse(s).value.servicebindingId && '>' !in Parse(s).value.serviceInstanceName
  {
    if Parse(s).Some? {
      PrefixKept(s, Preamble);
      ValueParseFromBinding(s[|Preamble|..]);
      var d := Parse(s).value;
      Nest(Preamble, d.servicebindingId, InstanceLead, d.serviceInstanceName, BrokerLead, d.serviceBrokerName, Closing);
    }
  }
}
