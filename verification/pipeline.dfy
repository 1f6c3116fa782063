/**
 * The logging pipeline: Logger with its level gate, enrichers and
 * forContext, and the routing sinks RestrictedSink, FilteringSink and
 * SafeAggregateSink. A Logger is itself a sink (forContext makes the parent
 * the child's sink), so loggers and sinks form one tree. Sinks outside the
 * model (console, file, Seq) are leaves whose outcomes are given by the
 * environment, as are the current levels of the LoggingLevelSwitch objects.
 */
module Pipeline {
  import opened Wrappers
  import opened Levels
  import opened Values
  import opened Tokens
  import opened Templates
  import Parser
  import opened Events
  import opened Converter
  import Binder
  import opened Enrichers

  /** ILogEventFilter.isEnabled: a verdict, or the exception it throws. */
  type Filter = EventData -> Outcome<bool>

  datatype Sink =
    | External(id: nat, closeable: bool)
    | Restricted(inner: Sink, levelSwitch: nat)
    | Filtering(inner: Sink, filters: seq<Filter>)
    | SafeAggregate(sinks: seq<Sink>)
    | LoggerSink(logger: Logger)

  /** A Logger: its minimum level, an optional level switch, its sink and its enrichers. */
  datatype Logger = Logger(
    minimumLevel: Level,
    levelSwitch: Option<nat>,
    sink: Sink,
    enrichers: seq<Enricher>,
    closeSink: bool)

  /**
   * What the pipeline does not decide itself: the converter of the template
   * processor, the current level of each switch, and what each external
   * sink throws when it is given an event or closed.
   */
  datatype Env = Env(
    converter: Converter,
    switchLevel: nat -> Level,
    emitFailure: (nat, EventData) -> Option<Failure>,
    closeFailure: nat -> Option<Failure>)

  /** An external sink was given the event, as it was at that moment. */
  datatype Delivery = Delivery(sink: nat, event: EventData)

  /** One emit: the deliveries in order, the event's properties afterwards, and the exception that escaped. */
  datatype Run = Run(delivered: seq<Delivery>, properties: map<string, Value>, failure: Option<Failure>)

  /** catch (RuntimeException): everything the model throws except an Error and the checked IOException. */
  predicate IsRuntime(f: Failure) {
    !f.StackOverflow? && !f.IO?
  }

  /** catch (Exception): everything except an Error. */
  predicate IsException(f: Failure) {
    !f.StackOverflow?
  }

  // ------------------------------------------------------------ level gate

  /** isEnabled: at least the minimum level and, when there is a switch, at least its current level. */
  predicate IsEnabled(l: Logger, level: Level, env: Env) {
    AtLeast(level, l.minimumLevel) && (l.levelSwitch.None? || AtLeast(level, env.switchLevel(l.levelSwitch.value)))
  }

  // ------------------------------------------------------------ enrichment

  /** The event's properties after the first k enrichers, and the Error that stopped them, if any. */
  datatype Enrichment = Enrichment(properties: map<string, Value>, failure: Option<Failure>)

  /** dispatch's enricher loop: each exception is swallowed; an Error escapes and stops the loop. */
  function EnrichEach(es: seq<Enricher>, c: Converter, m: map<string, Value>, k: nat): (r: Enrichment)
    requires k <= |es|
    ensures r.failure.Some? ==> !IsException(r.failure.value)
  {
    if k == 0 then Enrichment(m, None)
    else
      var before := EnrichEach(es, c, m, k - 1);
      if before.failure.Some? then before
      else
        match Enriched(es[k - 1], c, before.properties)
        case Ok(next) => Enrichment(next, None)
        case Thrown(f) => Enrichment(before.properties, if IsException(f) then None else Some(f))
  }

  /** The properties a value had before survive with their values. */
  predicate Keeps(m: map<string, Value>, m': map<string, Value>) {
    forall n :: n in m ==> n in m' && m'[n] == m[n]
  }

  /** Enrichment only adds: no property the event had is changed or removed. */
  lemma {:induction false} EnrichKeeps(es: seq<Enricher>, c: Converter, m: map<string, Value>, k: nat)
    requires k <= |es|
    ensures Keeps(m, EnrichEach(es, c, m, k).properties)
  {
    if k > 0 {
      EnrichKeeps(es, c, m, k - 1);
      var before := EnrichEach(es, c, m, k - 1);
      if before.failure.None? && Enriched(es[k - 1], c, before.properties).Ok? {
        forall n | n in before.properties
          ensures n in Enriched(es[k - 1], c, before.properties).value
          && Enriched(es[k - 1], c, before.properties).value[n] == before.properties[n]
        {
          EnrichNeverOverwrites(es[k - 1], c, before.properties, n);
        }
      }
    }
  }

  /** Without an Error, every enricher runs and each one's name ends up present unless it threw. */
  lemma {:induction false} EnrichEachAddsNames(es: seq<Enricher>, c: Converter, m: map<string, Value>, k: nat, i: nat)
    requires i < k <= |es|
    requires EnrichEach(es, c, m, k).failure.None?
    requires Enriched(es[i], c, EnrichEach(es, c, m, i).properties).Ok?
    ensures Enrichers.Name(es[i]) in EnrichEach(es, c, m, k).properties
  {
    var before := EnrichEach(es, c, m, k - 1);
    if i == k - 1 {
      EnrichNeverOverwrites(es[i], c, before.properties, Enrichers.Name(es[i]));
    } else {
      assert before.failure.None?;
      EnrichEachAddsNames(es, c, m, k - 1, i);
      EnrichKeeps([es[k - 1]], c, before.properties, 1);
      if Enriched(es[k - 1], c, before.properties).Ok? {
        EnrichNeverOverwrites(es[k - 1], c, before.properties, Enrichers.Name(es[i]));
      }
    }
  }

  // ------------------------------------------------------------ emit

  /** Emitting an event to a sink. */
  function EmitTo(s: Sink, e: EventData, env: Env): Run
    decreases s, 3
  {
    match s
    case External(id, _) => Run([Delivery(id, e)], e.properties, env.emitFailure(id, e))
    case Restricted(inner, sw) =>
      if !AtLeast(e.level, env.switchLevel(sw)) then Run([], e.properties, None) else EmitTo(inner, e, env)
    case Filtering(inner, fs) =>
      var verdict := Passes(fs, e, |fs|);
      if verdict.Thrown? then Run([], e.properties, Some(verdict.failure))
      else if verdict.value then EmitTo(inner, e, env)
      else Run([], e.properties, None)
    case SafeAggregate(sinks) => EmitEach(s, e, env, |sinks|)
    case LoggerSink(l) => Write(l, e, env)
  }

  /**
   * FilteringSink.emit's loop over its first k filters: true while every
   * filter is enabled; the first filter that is not enabled, or that throws,
   * ends the loop with its verdict.
   */
  function Passes(fs: seq<Filter>, e: EventData, k: nat): Outcome<bool>
    requires k <= |fs|
  {
    if k == 0 then Ok(true)
    else
      var before := Passes(fs, e, k - 1);
      if before != Ok(true) then before else fs[k - 1](e)
  }

  /**
   * The filters pass exactly when each one is enabled; otherwise the verdict
   * is that of the first filter that is not enabled or throws.
   */
  lemma {:induction false} PassesFirst(fs: seq<Filter>, e: EventData, k: nat)
    requires k <= |fs|
    ensures Passes(fs, e, k) == Ok(true) <==> forall j :: 0 <= j < k ==> fs[j](e) == Ok(true)
    ensures forall i :: 0 <= i < k && fs[i](e) != Ok(true) && (forall j :: 0 <= j < i ==> fs[j](e) == Ok(true)) ==>
      Passes(fs, e, k) == fs[i](e)
  {
    if k > 0 {
      PassesFirst(fs, e, k - 1);
    }
  }

  /** Once a filter has stopped the loop, later filters are not consulted. */
  lemma {:induction false} PassesStops(fs: seq<Filter>, e: EventData, k: nat, m: nat)
    requires k <= m <= |fs|
    requires Passes(fs, e, k) != Ok(true)
    ensures Passes(fs, e, m) == Passes(fs, e, k)
    decreases m
  {
    if m > k {
      PassesStops(fs, e, k, m - 1);
    }
  }

  /** SafeAggregateSink.emit over its first k sinks: runtime exceptions are swallowed, an Error stops the loop. */
  function EmitEach(s: Sink, e: EventData, env: Env, k: nat): (r: Run)
    requires s.SafeAggregate? && k <= |s.sinks|
    decreases s, 2, k
  {
    if k == 0 then Run([], e.properties, None)
    else
      var before := EmitEach(s, e, env, k - 1);
      if before.failure.Some? then before
      else
        var r := EmitTo(s.sinks[k - 1], e.(properties := before.properties), env);
        Run(before.delivered + r.delivered, r.properties,
            if r.failure.Some? && IsRuntime(r.failure.value) then None else r.failure)
  }

  /** Logger.write(LogEvent) and Logger.emit: a disabled event is dropped, any other dispatched. */
  function Write(l: Logger, e: EventData, env: Env): Run
    decreases LoggerSink(l), 2
  {
    if !IsEnabled(l, e.level, env) then Run([], e.properties, None) else Dispatch(l, e, env)
  }

  /** dispatch: every enricher in order, then one emit to the sink, unless an Error escaped an enricher. */
  function Dispatch(l: Logger, e: EventData, env: Env): Run
    decreases LoggerSink(l), 1
  {
    var en := EnrichEach(l.enrichers, env.converter, e.properties, |l.enrichers|);
    if en.failure.Some? then Run([], en.properties, en.failure)
    else EmitTo(l.sink, e.(properties := en.properties), env)
  }

  /** A delivered event is the emitted one with properties added, never changed. */
  predicate Extends(d: EventData, e: EventData) {
    d.timestamp == e.timestamp && d.level == e.level && d.exception == e.exception && d.template == e.template
    && Keeps(e.properties, d.properties)
  }

  /**
   * Along the whole tree the event is only ever added to: every sink is
   * given the emitted event with extra properties at most, and the
   * properties afterwards keep everything the event had.
   */
  lemma {:induction false} EmitExtends(s: Sink, e: EventData, env: Env)
    ensures Keeps(e.properties, EmitTo(s, e, env).properties)
    ensures forall i :: 0 <= i < |EmitTo(s, e, env).delivered| ==> Extends(EmitTo(s, e, env).delivered[i].event, e)
    decreases s, 3
  {
    match s
    case External(_, _) =>
    case Restricted(inner, _) => EmitExtends(inner, e, env);
    case Filtering(inner, _) => EmitExtends(inner, e, env);
    case SafeAggregate(sinks) => EachExtends(s, e, env, |sinks|);
    case LoggerSink(l) => WriteExtends(l, e, env);
  }

  lemma {:induction false} EachExtends(s: Sink, e: EventData, env: Env, k: nat)
    requires s.SafeAggregate? && k <= |s.sinks|
    ensures Keeps(e.properties, EmitEach(s, e, env, k).properties)
    ensures forall i :: 0 <= i < |EmitEach(s, e, env, k).delivered| ==> Extends(EmitEach(s, e, env, k).delivered[i].event, e)
    decreases s, 2, k
  {
    if k > 0 {
      EachExtends(s, e, env, k - 1);
      var before := EmitEach(s, e, env, k - 1);
      if before.failure.None? {
        var e' := e.(properties := before.properties);
        EmitExtends(s.sinks[k - 1], e', env);
        var r := EmitTo(s.sinks[k - 1], e', env);
        var all := before.delivered + r.delivered;
        forall i | 0 <= i < |all| ensures Extends(all[i].event, e) {
          if i >= |before.delivered| {
            assert all[i] == r.delivered[i - |before.delivered|];
          }
        }
      }
    }
  }

  lemma {:induction false} WriteExtends(l: Logger, e: EventData, env: Env)
    ensures Keeps(e.properties, Write(l, e, env).properties)
    ensures forall i :: 0 <= i < |Write(l, e, env).delivered| ==> Extends(Write(l, e, env).delivered[i].event, e)
    decreases LoggerSink(l), 2
  {
    if IsEnabled(l, e.level, env) {
      DispatchExtends(l, e, env);
    }
  }

  lemma {:induction false} DispatchExtends(l: Logger, e: EventData, env: Env)
    ensures Keeps(e.properties, Dispatch(l, e, env).properties)
    ensures forall i :: 0 <= i < |Dispatch(l, e, env).delivered| ==> Extends(Dispatch(l, e, env).delivered[i].event, e)
    decreases LoggerSink(l), 1
  {
    var en := EnrichEach(l.enrichers, env.converter, e.properties, |l.enrichers|);
    EnrichKeeps(l.enrichers, env.converter, e.properties, |l.enrichers|);
    if en.failure.None? {
      var e' := e.(properties := en.properties);
      EmitExtends(l.sink, e', env);
    }
  }

  /**
   * An aggregate of external sinks gives the event to every one of them in
   * order, whatever runtime exceptions they throw; only an Error escapes.
   */
  lemma {:induction false} AggregateReachesAll(s: Sink, e: EventData, env: Env, k: nat)
    requires s.SafeAggregate? && k <= |s.sinks|
    requires forall i :: 0 <= i < |s.sinks| ==> s.sinks[i].External?
    requires forall i :: 0 <= i < k ==> env.emitFailure(s.sinks[i].id, e).None? || IsRuntime(env.emitFailure(s.sinks[i].id, e).value)
    ensures EmitEach(s, e, env, k) == Run(seq(k, i requires 0 <= i < k => Delivery(s.sinks[i].id, e)), e.properties, None)
  {
    if k > 0 {
      AggregateReachesAll(s, e, env, k - 1);
      var before := EmitEach(s, e, env, k - 1);
      assert e.(properties := before.properties) == e;
      assert before.delivered + [Delivery(s.sinks[k - 1].id, e)] == seq(k, i requires 0 <= i < k => Delivery(s.sinks[i].id, e));
    }
  }

  /** Once an Error escapes one sink of an aggregate, the later sinks are not given the event. */
  lemma {:induction false} AggregateStops(s: Sink, e: EventData, env: Env, k: nat, m: nat)
    requires s.SafeAggregate? && k <= m <= |s.sinks|
    requires EmitEach(s, e, env, k).failure.Some?
    ensures EmitEach(s, e, env, m) == EmitEach(s, e, env, k)
    decreases m
  {
    if m > k {
      AggregateStops(s, e, env, k, m - 1);
    }
  }

  /** Only an Error escapes an aggregate. */
  lemma {:induction false} AggregateOnlyErrors(s: Sink, e: EventData, env: Env, k: nat)
    requires s.SafeAggregate? && k <= |s.sinks|
    ensures EmitEach(s, e, env, k).failure.Some? ==> !IsRuntime(EmitEach(s, e, env, k).failure.value)
  {
    if k > 0 {
      AggregateOnlyErrors(s, e, env, k - 1);
    }
  }

  /**
   * The restricted and filtering sinks: what reaches the inner sink, and what
   * is dropped. The first filter that is not enabled drops the event; the
   * first one that throws lets its exception out of the filtering sink.
   */
  lemma RoutingRules(inner: Sink, sw: nat, fs: seq<Filter>, e: EventData, env: Env)
    ensures !AtLeast(e.level, env.switchLevel(sw)) ==> EmitTo(Restricted(inner, sw), e, env) == Run([], e.properties, None)
    ensures AtLeast(e.level, env.switchLevel(sw)) ==> EmitTo(Restricted(inner, sw), e, env) == EmitTo(inner, e, env)
    ensures (forall i :: 0 <= i < |fs| ==> fs[i](e) == Ok(true)) ==> EmitTo(Filtering(inner, fs), e, env) == EmitTo(inner, e, env)
    ensures forall i :: 0 <= i < |fs| && (forall j :: 0 <= j < i ==> fs[j](e) == Ok(true)) ==>
      (fs[i](e) == Ok(false) ==> EmitTo(Filtering(inner, fs), e, env) == Run([], e.properties, None))
      && (fs[i](e).Thrown? ==> EmitTo(Filtering(inner, fs), e, env) == Run([], e.properties, Some(fs[i](e).failure)))
    ensures EmitTo(Filtering(inner, []), e, env) == EmitTo(inner, e, env)
  {
    PassesFirst(fs, e, |fs|);
  }

  // ------------------------------------------------------------ the methods

  /** ILogEventSink.emit on the tree: the event object is enriched in place as it travels. */
  method EmitToSink(s: Sink, ev: LogEvent, env: Env) returns (delivered: seq<Delivery>, failure: Option<Failure>)
    modifies ev
    ensures Run(delivered, ev.properties, failure) == EmitTo(s, old(ev.Data()), env)
    decreases s, 3
  {
    match s
    case External(id, _) =>
      delivered, failure := [Delivery(id, ev.Data())], env.emitFailure(id, ev.Data());
    case Restricted(inner, sw) =>
      if Ordinal(ev.level) < Ordinal(env.switchLevel(sw)) {
        return [], None;
      }
      delivered, failure := EmitToSink(inner, ev, env);
    case Filtering(inner, fs) =>
      for i := 0 to |fs|
        invariant Passes(fs, ev.Data(), i) == Ok(true)
      {
        var enabled := fs[i](ev.Data());
        if enabled.Thrown? {
          PassesStops(fs, ev.Data(), i + 1, |fs|);
          return [], Some(enabled.failure);
        }
        if !enabled.value {
          PassesStops(fs, ev.Data(), i + 1, |fs|);
          return [], None;
        }
      }
      delivered, failure := EmitToSink(inner, ev, env);
    case SafeAggregate(sinks) =>
      delivered, failure := EmitToEach(s, ev, env);
    case LoggerSink(l) =>
      delivered, failure := WriteEvent(l, ev, env);
  }

  /** SafeAggregateSink.emit: each sink in order, inside its own try/catch (RuntimeException). */
  method EmitToEach(s: Sink, ev: LogEvent, env: Env) returns (delivered: seq<Delivery>, failure: Option<Failure>)
    requires s.SafeAggregate?
    modifies ev
    ensures Run(delivered, ev.properties, failure) == EmitEach(s, old(ev.Data()), env, |s.sinks|)
    decreases s, 2
  {
    ghost var e := ev.Data();
    delivered, failure := [], None;
    for k := 0 to |s.sinks|
      invariant Run(delivered, ev.properties, None) == EmitEach(s, e, env, k)
      invariant ev.Data() == e.(properties := ev.properties)
    {
      var d, f := EmitToSink(s.sinks[k], ev, env);
      delivered := delivered + d;
      if f.Some? && !IsRuntime(f.value) {
        AggregateStops(s, e, env, k + 1, |s.sinks|);
        return delivered, f;
      }
    }
  }

  /** Logger.write(LogEvent), which Logger.emit calls. */
  method WriteEvent(l: Logger, ev: LogEvent, env: Env) returns (delivered: seq<Delivery>, failure: Option<Failure>)
    modifies ev
    ensures Run(delivered, ev.properties, failure) == Write(l, old(ev.Data()), env)
    decreases LoggerSink(l), 2
  {
    if Ordinal(ev.level) < Ordinal(l.minimumLevel) {
      return [], None;
    }
    if l.levelSwitch.Some? && Ordinal(ev.level) < Ordinal(env.switchLevel(l.levelSwitch.value)) {
      return [], None;
    }
    delivered, failure := DispatchEvent(l, ev, env);
  }

  /** dispatch: the enricher loop with its catch (Exception), then one emit to the sink. */
  method DispatchEvent(l: Logger, ev: LogEvent, env: Env) returns (delivered: seq<Delivery>, failure: Option<Failure>)
    modifies ev
    ensures Run(delivered, ev.properties, failure) == Dispatch(l, old(ev.Data()), env)
    decreases LoggerSink(l), 1
  {
    ghost var e := ev.Data();
    for k := 0 to |l.enrichers|
      invariant EnrichEach(l.enrichers, env.converter, e.properties, k) == Enrichment(ev.properties, None)
      invariant ev.Data() == e.(properties := ev.properties)
    {
      var f := Enrich(l.enrichers[k], ev, env.converter);
      if f.Some? && !IsException(f.value) {
        EnrichStops(l.enrichers, env.converter, e.properties, k + 1, |l.enrichers|);
        return [], f;
      }
    }
    delivered, failure := EmitToSink(l.sink, ev, env);
  }

  lemma {:induction false} EnrichStops(es: seq<Enricher>, c: Converter, m: map<string, Value>, k: nat, n: nat)
    requires k <= n <= |es|
    requires EnrichEach(es, c, m, k).failure.Some?
    ensures EnrichEach(es, c, m, n) == EnrichEach(es, c, m, k)
    decreases n
  {
    if n > k {
      EnrichStops(es, c, m, k, n - 1);
    }
  }

  // ------------------------------------------------------------ write(level, template, args)

  /** The name Class.getName() gives Object[]. */
  const ObjectArrayClass := "[Ljava.lang.Object;"

  /** A single Object[] argument is unwrapped into the argument list. */
  function Unwrapped(args: seq<JValue>): (r: seq<JValue>)
    ensures |args| == 1 && args[0].JArray? && args[0].cls == ObjectArrayClass ==> r == args[0].elems
    ensures !(|args| == 1 && args[0].JArray? && args[0].cls == ObjectArrayClass) ==> r == args
  {
    if |args| == 1 && args[0].JArray? && args[0].cls == ObjectArrayClass then args[0].elems else args
  }

  /** MessageTemplateProcessor.process: parse, then bind the arguments. */
  function Process(c: Converter, text: string, args: seq<JValue>): (r: Outcome<(MessageTemplate, seq<Property>)>)
    ensures r.Ok? ==> Parser.Parse(text) == Ok(r.value.0)
    ensures Parser.Parse(text).Thrown? ==> r == Thrown(Parser.Parse(text).failure)
  {
    match Parser.Tokenize(text)
    case Thrown(f) => Thrown(f)
    case Ok(ts) =>
      var mt := Classified(text, ts);
      Binder.ClassifiedBinds(text, ts);
      match Binder.Properties(Binder.ConverterOf(c), mt, args)
      case Thrown(f) => Thrown(f)
      case Ok(ps) => Ok((mt, ps))
  }

  /**
   * write(level, exception, template, values...) at time `now`: nothing for
   * a null template or a disabled level; otherwise a new event dispatched.
   * The event that was built is returned alongside the run.
   */
  function WriteTemplate(l: Logger, level: Level, exception: Option<string>, text: Option<string>,
                         args: seq<JValue>, now: int, env: Env): Option<Outcome<(EventData, Run)>>
  {
    if text.None? || !IsEnabled(l, level, env) then None
    else
      match Process(env.converter, text.value, Unwrapped(args))
      case Thrown(f) => Some(Thrown(f))
      case Ok(p) =>
        var e := EventData(now, level, exception, p.0, Overwrite(map[], p.1));
        Some(Ok((e, Dispatch(l, e, env))))
  }

  /**
   * A template property keeps its bound value all the way to every sink:
   * enrichers, including those of parent loggers, never overwrite it.
   */
  lemma TemplateWins(l: Logger, level: Level, exception: Option<string>, text: Option<string>,
                     args: seq<JValue>, now: int, env: Env, i: nat, n: string)
    requires WriteTemplate(l, level, exception, text, args, now, env).Some?
    requires WriteTemplate(l, level, exception, text, args, now, env).value.Ok?
    requires var (e, r) := WriteTemplate(l, level, exception, text, args, now, env).value.value;
      i < |r.delivered| && n in e.properties
    ensures var (e, r) := WriteTemplate(l, level, exception, text, args, now, env).value.value;
      n in r.delivered[i].event.properties && r.delivered[i].event.properties[n] == e.properties[n]
      && r.delivered[i].event.level == level
  {
    var (e, r) := WriteTemplate(l, level, exception, text, args, now, env).value.value;
    DispatchExtends(l, e, env);
  }

  /** Nothing is written for a null template or a disabled level. */
  lemma WriteTemplateGate(l: Logger, level: Level, exception: Option<string>, text: Option<string>,
                          args: seq<JValue>, now: int, env: Env)
    ensures WriteTemplate(l, level, exception, text, args, now, env).None? <==> text.None? || !IsEnabled(l, level, env)
  {
  }

  // ------------------------------------------------------------ forContext

  /** forContext(enrichers): a child logger whose sink is this one; null enrichers become none. */
  function ForContext(l: Logger, es: Option<seq<Enricher>>): (r: Logger)
    ensures r.sink == LoggerSink(l) && !r.closeSink
    ensures r.minimumLevel == l.minimumLevel && r.levelSwitch == l.levelSwitch
    ensures r.enrichers == (if es.None? then [] else es.value)
  {
    Logger(l.minimumLevel, l.levelSwitch, LoggerSink(l), if es.None? then [] else es.value, false)
  }

  /** The first fixed-property enricher with this name. */
  predicate FirstFixed(es: seq<Enricher>, name: string, i: int) {
    0 <= i < |es| && es[i].FixedPropertyEnricher? && es[i].property.name == name
    && forall j :: 0 <= j < i ==> !(es[j].FixedPropertyEnricher? && es[j].property.name == name)
  }

  /** The copied enricher array with the new fixed enricher in place of the first one with its name, or appended. */
  function WithFixed(es: seq<Enricher>, p: Property): (r: seq<Enricher>)
    ensures (exists i :: FirstFixed(es, p.name, i)) ==>
      forall i :: FirstFixed(es, p.name, i) ==> r == es[i := FixedPropertyEnricher(p)]
    ensures (forall i :: !FirstFixed(es, p.name, i)) ==> r == es + [FixedPropertyEnricher(p)]
  {
    if es == [] then [FixedPropertyEnricher(p)]
    else if es[0].FixedPropertyEnricher? && es[0].property.name == p.name then
      assert FirstFixed(es, p.name, 0);
      es[0 := FixedPropertyEnricher(p)]
    else
      var rest := WithFixed(es[1..], p);
      assert forall i :: FirstFixed(es[1..], p.name, i) ==> FirstFixed(es, p.name, i + 1);
      assert forall i :: FirstFixed(es, p.name, i) ==> i > 0 && FirstFixed(es[1..], p.name, i - 1);
      [es[0]] + rest
  }

  /** forContext(name, value, destructureObjects) as a value: the property is made by the converter. */
  function ForContextProperty(l: Logger, name: string, value: JValue, destructureObjects: bool, c: Converter): Outcome<Logger> {
    match CreateProperty(c, name, value, destructureObjects)
    case Thrown(f) => Thrown(f)
    case Ok(p) => Ok(ForContext(l, Some(WithFixed(l.enrichers, p))))
  }

  /**
   * forContext(name, value, destructureObjects): a search loop for the first
   * fixed enricher with the name, then a copy loop into a new array.
   */
  method NewForContext(l: Logger, name: string, value: JValue, destructureObjects: bool, c: Converter)
    returns (r: Outcome<Logger>)
    ensures r == ForContextProperty(l, name, value, destructureObjects, c)
  {
    var found := FindFixed(l.enrichers, name);
    var enrichers := new Enricher[|l.enrichers| + (if found == -1 then 1 else 0)];
    for k := 0 to |l.enrichers|
      invariant enrichers[..k] == l.enrichers[..k]
    {
      enrichers[k] := l.enrichers[k];
    }
    var property := CreateProperty(c, name, value, destructureObjects);
    if property.Thrown? {
      return Thrown(property.failure);
    }
    assert enrichers[..|l.enrichers|] == l.enrichers;
    var at := if found == -1 then enrichers.Length - 1 else found;
    enrichers[at] := FixedPropertyEnricher(property.value);
    if found == -1 {
      assert enrichers[..] == l.enrichers + [FixedPropertyEnricher(property.value)];
    } else {
      assert enrichers[..] == l.enrichers[found := FixedPropertyEnricher(property.value)];
    }
    r := Ok(ForContext(l, Some(enrichers[..])));
  }

  /** forContext's search loop: the index of the first fixed enricher with the name, or -1. */
  method FindFixed(es: seq<Enricher>, name: string) returns (found: int)
    ensures found == -1 ==> forall j :: !FirstFixed(es, name, j)
    ensures found != -1 ==> FirstFixed(es, name, found)
  {
    found := -1;
    var i := 0;
    while i < |es|
      invariant 0 <= i <= |es|
      invariant forall j :: 0 <= j < i ==> !(es[j].FixedPropertyEnricher? && es[j].property.name == name)
    {
      if es[i].FixedPropertyEnricher? && es[i].property.name == name {
        return i;
      }
      i := i + 1;
    }
  }

  /** forContext(Class): the source-context property holding the class name, never destructured. */
  function ForContextClass(l: Logger, sourceContextName: string, className: string, c: Converter): Outcome<Logger> {
    ForContextProperty(l, sourceContextName, JStr(className), false, c)
  }

  /**
   * forContext(name, …) keeps the parent's enrichers, puts the new property
   * first in line for its name, and the child's events pass through the
   * parent: the child's enrichers run first, then the parent's.
   */
  lemma ForContextShape(l: Logger, name: string, value: JValue, destructureObjects: bool, c: Converter)
    requires ForContextProperty(l, name, value, destructureObjects, c).Ok?
    ensures var child := ForContextProperty(l, name, value, destructureObjects, c).value;
      child.sink == LoggerSink(l)
      && |child.enrichers| == |l.enrichers| + (if exists i :: FirstFixed(l.enrichers, name, i) then 0 else 1)
      && (exists k :: 0 <= k < |child.enrichers| && child.enrichers[k].FixedPropertyEnricher? && child.enrichers[k].property.name == name)
      && forall k :: 0 <= k < |l.enrichers| && !FirstFixed(l.enrichers, name, k) ==> child.enrichers[k] == l.enrichers[k]
  {
    var p := CreateProperty(c, name, value, destructureObjects).value;
    var child := ForContextProperty(l, name, value, destructureObjects, c).value;
    if exists i :: FirstFixed(l.enrichers, name, i) {
      var i :| FirstFixed(l.enrichers, name, i);
      assert child.enrichers[i].FixedPropertyEnricher?;
    } else {
      assert child.enrichers[|l.enrichers|] == FixedPropertyEnricher(p);
    }
  }

  // ------------------------------------------------------------ close

  /** The external sinks closed, in order, and the exception that escaped. */
  datatype Closing = Closing(closed: seq<nat>, failure: Option<Failure>)

  /**
   * close on the tree. Only closeable sinks are closed: external ones that
   * are Closeable, aggregates, and loggers, which close their sink only when
   * they own it. Restricted and filtering sinks are not Closeable.
   */
  function CloseSink(s: Sink, env: Env): Closing
    decreases s, 2
  {
    match s
    case External(id, closeable) => if closeable then Closing([id], env.closeFailure(id)) else Closing([], None)
    case Restricted(_, _) => Closing([], None)
    case Filtering(_, _) => Closing([], None)
    case SafeAggregate(sinks) => CloseEach(s, env, |sinks|)
    case LoggerSink(l) => if l.closeSink then CloseSink(l.sink, env) else Closing([], None)
  }

  /** SafeAggregateSink.close over its first k sinks: the first exception ends the pass. */
  function CloseEach(s: Sink, env: Env, k: nat): Closing
    requires s.SafeAggregate? && k <= |s.sinks|
    decreases s, 1, k
  {
    if k == 0 then Closing([], None)
    else
      var before := CloseEach(s, env, k - 1);
      if before.failure.Some? then before
      else
        var r := CloseSink(s.sinks[k - 1], env);
        Closing(before.closed + r.closed, r.failure)
  }

  /** close on the tree, with SafeAggregateSink.close's loop. */
  method Close(s: Sink, env: Env) returns (closed: seq<nat>, failure: Option<Failure>)
    ensures Closing(closed, failure) == CloseSink(s, env)
    decreases s, 2
  {
    closed, failure := [], None;
    match s
    case External(id, closeable) =>
      if closeable {
        closed, failure := [id], env.closeFailure(id);
      }
    case Restricted(_, _) =>
    case Filtering(_, _) =>
    case SafeAggregate(sinks) =>
      for k := 0 to |sinks|
        invariant Closing(closed, None) == CloseEach(s, env, k)
      {
        var c, f := Close(sinks[k], env);
        closed := closed + c;
        if f.Some? {
          CloseStops(s, env, k + 1, |sinks|);
          return closed, f;
        }
      }
    case LoggerSink(l) =>
      if l.closeSink {
        closed, failure := Close(l.sink, env);
      }
  }

  lemma {:induction false} CloseStops(s: Sink, env: Env, k: nat, m: nat)
    requires s.SafeAggregate? && k <= m <= |s.sinks|
    requires CloseEach(s, env, k).failure.Some?
    ensures CloseEach(s, env, m) == CloseEach(s, env, k)
    decreases m
  {
    if m > k {
      CloseStops(s, env, k, m - 1);
    }
  }

  /**
   * Closing an aggregate of external sinks closes the closeable ones in
   * order up to and including the first that throws; none after it.
   */
  lemma {:induction false} CloseStopsAtFirstFailure(s: Sink, env: Env, k: nat, j: nat)
    requires s.SafeAggregate? && j < k <= |s.sinks|
    requires forall i :: 0 <= i < |s.sinks| ==> s.sinks[i].External?
    requires s.sinks[j].closeable && env.closeFailure(s.sinks[j].id).Some?
    requires forall i :: 0 <= i < j && s.sinks[i].closeable ==> env.closeFailure(s.sinks[i].id).None?
    ensures CloseEach(s, env, k).failure == env.closeFailure(s.sinks[j].id)
    ensures |CloseEach(s, env, k).closed| > 0 && CloseEach(s, env, k).closed[|CloseEach(s, env, k).closed| - 1] == s.sinks[j].id
  {
    if k == j + 1 {
      CloseEachSucceeds(s, env, j);
    } else {
      CloseStopsAtFirstFailure(s, env, k - 1, j);
    }
  }

  lemma {:induction false} CloseEachSucceeds(s: Sink, env: Env, k: nat)
    requires s.SafeAggregate? && k <= |s.sinks|
    requires forall i :: 0 <= i < k ==> s.sinks[i].External?
    requires forall i :: 0 <= i < k && s.sinks[i].closeable ==> env.closeFailure(s.sinks[i].id).None?
    ensures CloseEach(s, env, k).failure.None?
  {
    if k > 0 {
      CloseEachSucceeds(s, env, k - 1);
    }
  }
}
