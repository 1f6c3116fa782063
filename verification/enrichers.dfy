/**
 * The two enrichers: PropertyEnricher, which converts its value when it
 * enriches, and FixedPropertyEnricher, which carries a ready property. Both
 * add their property only when the event has no property of that name.
 */
module Enrichers {
  import opened Wrappers
  import opened Values
  import opened Events
  import opened Tokens
  import opened Converter

  datatype Enricher =
    | PropertyEnricher(name: string, value: JValue, destructureObjects: bool)
    | FixedPropertyEnricher(property: Property)

  /** The PropertyEnricher constructor: a name that is not valid is rejected. */
  function NewPropertyEnricher(name: string, value: JValue, destructureObjects: bool): (r: Outcome<Enricher>)
    ensures r.Ok? <==> ValidName(name)
    ensures r.Ok? ==> r.value == PropertyEnricher(name, value, destructureObjects)
    ensures r.Thrown? ==> r.failure == IllegalArgument("name")
  {
    if ValidName(name) then Ok(PropertyEnricher(name, value, destructureObjects)) else Thrown(IllegalArgument("name"))
  }

  /** getName of either enricher. */
  function Name(e: Enricher): string {
    match e
    case PropertyEnricher(n, _, _) => n
    case FixedPropertyEnricher(p) => p.name
  }

  /**
   * The property enrich offers to the event: a PropertyEnricher asks the
   * factory (the converter) for it, a FixedPropertyEnricher ignores the factory.
   */
  function Offered(e: Enricher, c: Converter): (r: Outcome<Property>)
    ensures e.FixedPropertyEnricher? ==> r == Ok(e.property)
    ensures e.PropertyEnricher? ==> r == CreateProperty(c, e.name, e.value, e.destructureObjects)
    ensures r.Ok? ==> r.value.name == Name(e)
  {
    match e
    case PropertyEnricher(n, v, d) => CreateProperty(c, n, v, d)
    case FixedPropertyEnricher(p) => Ok(p)
  }

  /** enrich on a property map: the offered property is added only under a new name; a failure changes nothing. */
  function Enriched(e: Enricher, c: Converter, m: map<string, Value>): Outcome<map<string, Value>> {
    match Offered(e, c)
    case Thrown(f) => Thrown(f)
    case Ok(p) => Ok(IfAbsent(m, p))
  }

  /** enrich: builds the property, then addPropertyIfAbsent. `failure` is the exception it throws. */
  method Enrich(e: Enricher, ev: LogEvent, c: Converter) returns (failure: Option<Failure>)
    modifies ev
    ensures Enriched(e, c, old(ev.properties)).Ok? ==> failure.None? && ev.properties == Enriched(e, c, old(ev.properties)).value
    ensures Enriched(e, c, old(ev.properties)).Thrown? ==>
      failure == Some(Enriched(e, c, old(ev.properties)).failure) && ev.properties == old(ev.properties)
  {
    var property := Offered(e, c);
    if property.Thrown? {
      return Some(property.failure);
    }
    ev.AddPropertyIfAbsent(property.value);
    failure := None;
  }

  /**
   * Enriching never changes a property the event already has, and afterwards
   * the enricher's name is present, unless it threw.
   */
  lemma EnrichNeverOverwrites(e: Enricher, c: Converter, m: map<string, Value>, n: string)
    requires Enriched(e, c, m).Ok?
    ensures n in m ==> n in Enriched(e, c, m).value && Enriched(e, c, m).value[n] == m[n]
    ensures Name(e) in Enriched(e, c, m).value
    ensures Enriched(e, c, m).value.Keys == m.Keys + {Name(e)}
  {
  }

  /** A fixed property enricher ignores the factory, and never fails. */
  lemma FixedIgnoresFactory(p: Property, c: Converter, d: Converter, m: map<string, Value>)
    ensures Enriched(FixedPropertyEnricher(p), c, m) == Enriched(FixedPropertyEnricher(p), d, m) == Ok(IfAbsent(m, p))
  {
  }

  /**
   * A PropertyEnricher under a new name adds the converter's value; it fails
   * exactly when the conversion fails.
   */
  lemma PropertyEnricherAdds(name: string, v: JValue, destructure: bool, c: Converter, m: map<string, Value>)
    requires NewPropertyEnricher(name, v, destructure).Ok?
    ensures var e := NewPropertyEnricher(name, v, destructure).value;
      Enriched(e, c, m).Ok? <==> CreatePropertyValue(c, v, if destructure then Destructure else Default).Ok?
    ensures var e := NewPropertyEnricher(name, v, destructure).value;
      Enriched(e, c, m).Ok? && name !in m ==>
        Enriched(e, c, m).value == m[name := CreatePropertyValue(c, v, if destructure then Destructure else Default).value]
  {
  }
}
