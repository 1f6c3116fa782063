/**
 * LogEvent: a timestamp, a level, an optional exception, the parsed message
 * template and a property map that enrichers change in place.
 */
module Events {
  import opened Wrappers
  import opened Levels
  import opened Values
  import opened Templates

  /** An event as a value: what a sink sees at the moment it receives the event. */
  datatype EventData = EventData(
    timestamp: int,
    level: Level,
    exception: Option<string>,
    template: MessageTemplate,
    properties: map<string, Value>)

  /** The constructor's loop: each property in list order, overwriting an earlier one of the same name. */
  function Overwrite(m: map<string, Value>, ps: seq<Property>): map<string, Value> {
    if ps == [] then m
    else Overwrite(m, ps[..|ps| - 1])[ps[|ps| - 1].name := ps[|ps| - 1].value]
  }

  /** addPropertyIfAbsent on a map: an existing name is left alone. */
  function IfAbsent(m: map<string, Value>, p: Property): (r: map<string, Value>)
    ensures p.name in m ==> r == m
    ensures p.name !in m ==> r == m[p.name := p.value]
  {
    if p.name in m then m else m[p.name := p.value]
  }

  /** The index of the last property named n; the one whose value the map keeps. */
  predicate LastNamed(ps: seq<Property>, n: string, i: nat) {
    i < |ps| && ps[i].name == n && forall j :: i < j < |ps| ==> ps[j].name != n
  }

  /**
   * Loading properties in order keeps every name, and each name holds the
   * value of the last property with that name; other names keep what m had.
   */
  lemma {:induction false} OverwriteLastWins(m: map<string, Value>, ps: seq<Property>, n: string)
    ensures n in Overwrite(m, ps) <==> n in m || exists i :: 0 <= i < |ps| && ps[i].name == n
    ensures (forall i :: 0 <= i < |ps| ==> ps[i].name != n) && n in m ==> Overwrite(m, ps)[n] == m[n]
    ensures forall i: nat :: LastNamed(ps, n, i) ==> n in Overwrite(m, ps) && Overwrite(m, ps)[n] == ps[i].value
  {
    OverwriteNames(m, ps, n);
    if ps != [] {
      var init := ps[..|ps| - 1];
      var last := ps[|ps| - 1];
      OverwriteLastWins(m, init, n);
      forall i: nat | LastNamed(ps, n, i) ensures n in Overwrite(m, ps) && Overwrite(m, ps)[n] == ps[i].value {
        if i < |ps| - 1 {
          assert last.name != n;
          assert LastNamed(init, n, i);
        }
      }
    }
  }

  /** The names the loop leaves in the map, and what a name no property carries keeps. */
  lemma {:induction false} OverwriteNames(m: map<string, Value>, ps: seq<Property>, n: string)
    ensures n in Overwrite(m, ps) <==> n in m || exists i :: 0 <= i < |ps| && ps[i].name == n
    ensures (forall i :: 0 <= i < |ps| ==> ps[i].name != n) && n in m ==> Overwrite(m, ps)[n] == m[n]
  {
    if ps != [] {
      var init := ps[..|ps| - 1];
      OverwriteNames(m, init, n);
      if exists i :: 0 <= i < |ps| && ps[i].name == n {
        var i :| 0 <= i < |ps| && ps[i].name == n;
        if i < |ps| - 1 {
          assert init[i].name == n;
        }
      }
    }
  }

  class LogEvent {
    const timestamp: int
    const level: Level
    const exception: Option<string>
    const messageTemplate: MessageTemplate
    var properties: map<string, Value>

    /** The event as a value. */
    function Data(): (d: EventData)
      reads this
      ensures d.properties == properties && d.level == level
    {
      EventData(timestamp, level, exception, messageTemplate, properties)
    }

    /** The constructor adds the bound properties in order with addOrUpdateProperty. */
    constructor (timestamp: int, level: Level, exception: Option<string>, messageTemplate: MessageTemplate, ps: seq<Property>)
      ensures this.timestamp == timestamp && this.level == level && this.exception == exception
      ensures this.messageTemplate == messageTemplate
      ensures properties == Overwrite(map[], ps)
    {
      this.timestamp := timestamp;
      this.level := level;
      this.exception := exception;
      this.messageTemplate := messageTemplate;
      properties := map[];
      new;
      for i := 0 to |ps|
        invariant properties == Overwrite(map[], ps[..i])
      {
        assert ps[..i + 1][..i] == ps[..i];
        AddOrUpdateProperty(ps[i]);
      }
      assert ps[..|ps|] == ps;
    }

    /** addOrUpdateProperty: sets the entry for the name; every other entry stays. */
    method AddOrUpdateProperty(p: Property)
      modifies this
      ensures properties == old(properties)[p.name := p.value]
    {
      properties := properties[p.name := p.value];
    }

    /** addPropertyIfAbsent: nothing changes when the name is there; otherwise the entry is added. */
    method AddPropertyIfAbsent(p: Property)
      modifies this
      ensures properties == IfAbsent(old(properties), p)
    {
      if p.name in properties {
        return;
      }
      properties := properties[p.name := p.value];
    }

    /** remotePropertyIfPresent (sic): the name is absent afterwards; every other entry stays. */
    method RemovePropertyIfPresent(name: string)
      modifies this
      ensures properties == old(properties) - {name}
    {
      properties := properties - {name};
    }

    /** renderMessage: the template rendered against the event's own properties. */
    method RenderMessage() returns (out: string)
      ensures out == RenderTokens(messageTemplate.tokens, properties)
    {
      out := RenderTemplate(messageTemplate, properties);
    }
  }

  /** After addPropertyIfAbsent a name that was there keeps its value, and the new name is present. */
  lemma IfAbsentKeeps(m: map<string, Value>, p: Property, n: string)
    ensures n in m ==> n in IfAbsent(m, p) && IfAbsent(m, p)[n] == m[n]
    ensures p.name in IfAbsent(m, p)
    ensures IfAbsent(m, p).Keys == m.Keys + {p.name}
  {
  }
}
