/**
 * TextFormatter: the plain-text formatter (MessageTemplateTextFormatter)
 * and the output properties it renders an event with. An output template
 * such as "{Timestamp} [{Level:u3}] {Message}{NewLine}{Exception}" is
 * parsed once; each event is written by rendering the template's tokens
 * against the event's properties plus five special ones.
 */
module TextFormatter {
  import opened Wrappers
  import opened Levels
  import opened Tokens
  import opened Padding
  import opened Values
  import opened Templates
  import opened Events
  import opened Display
  import Parser

  /**
   * What the formatter learns from the platform: System.lineSeparator, the
   * text a java.util.Date of the timestamp renders as, and the stack trace
   * printStackTrace writes for an exception (named by its toString text).
   */
  datatype Platform = Platform(newLine: string, dateText: int -> string, stackTrace: string -> string)

  const MessagePropertyName := "Message"
  const TimestampPropertyName := "Timestamp"
  const LevelPropertyName := "Level"
  const NewLinePropertyName := "NewLine"
  const ExceptionPropertyName := "Exception"

  const SpecialNames: set<string> :=
    {MessagePropertyName, TimestampPropertyName, LevelPropertyName, NewLinePropertyName, ExceptionPropertyName}

  /** The Exception output property: empty without an exception, else its text, a line separator and its stack trace. */
  function ExceptionText(e: EventData, p: Platform): (r: string)
    ensures e.exception.None? ==> r == ""
    ensures e.exception.Some? ==> |r| >= |e.exception.value| && r[..|e.exception.value|] == e.exception.value
  {
    if e.exception.None? then ""
    else e.exception.value + p.newLine + p.stackTrace(e.exception.value)
  }

  /**
   * GetOutputProperties: every event property, with the five special
   * properties always present and taking the place of event properties of
   * the same name.
   */
  function OutputProps(e: EventData, p: Platform): (r: map<string, PropertyValue>)
    ensures r.Keys == e.properties.Keys + SpecialNames
    ensures forall k :: k in e.properties && k !in SpecialNames ==> r[k] == EventValue(e.properties[k])
    ensures r[MessagePropertyName] == MessageValue(e.template, e.properties)
    ensures r[TimestampPropertyName] == EventValue(Scalar(JBoxed(DateBox, p.dateText(e.timestamp))))
    ensures r[LevelPropertyName] == LevelValue(e.level)
    ensures r[NewLinePropertyName] == Literal(LiteralStringValue(p.newLine))
    ensures r[ExceptionPropertyName] == Literal(LiteralStringValue(ExceptionText(e, p)))
  {
    (map k | k in e.properties :: EventValue(e.properties[k]))
      [MessagePropertyName := MessageValue(e.template, e.properties)]
      [TimestampPropertyName := EventValue(Scalar(JBoxed(DateBox, p.dateText(e.timestamp))))]
      [LevelPropertyName := LevelValue(e.level)]
      [NewLinePropertyName := Literal(LiteralStringValue(p.newLine))]
      [ExceptionPropertyName := Literal(LiteralStringValue(ExceptionText(e, p)))]
  }

  /** GetOutputProperties: copies the event's properties one at a time, then puts the special ones. */
  method GetOutputProperties(e: EventData, p: Platform) returns (result: map<string, PropertyValue>)
    ensures result == OutputProps(e, p)
  {
    result := map[];
    var pending := e.properties.Keys;
    while pending != {}
      invariant pending <= e.properties.Keys
      invariant result.Keys == e.properties.Keys - pending
      invariant forall k :: k in result ==> result[k] == EventValue(e.properties[k])
      decreases pending
    {
      var k :| k in pending;
      result := result[k := EventValue(e.properties[k])];
      pending := pending - {k};
    }
    assert result == map k | k in e.properties :: EventValue(e.properties[k]);
    result := result[MessagePropertyName := MessageValue(e.template, e.properties)];
    result := result[TimestampPropertyName := EventValue(Scalar(JBoxed(DateBox, p.dateText(e.timestamp))))];
    result := result[LevelPropertyName := LevelValue(e.level)];
    result := result[NewLinePropertyName := Literal(LiteralStringValue(p.newLine))];
    var exception := "";
    if e.exception.Some? {
      exception := e.exception.value + p.newLine;
      exception := exception + p.stackTrace(e.exception.value);
    }
    result := result[ExceptionPropertyName := Literal(LiteralStringValue(exception))];
  }

  /** LogEventPropertyValue.render(output, format) for each kind of output property. */
  function RenderPropertyValue(v: PropertyValue, format: Option<string>): string {
    match v
    case EventValue(value) => Values.Render(value, format)
    case MessageValue(template, properties) => RenderTokens(template.tokens, properties)
    case LevelValue(level) => LevelText(level, format)
    case Literal(literal) => RenderLiteral(literal, format)
  }

  /**
   * What the formatter writes for one output token: text verbatim; nothing
   * for an absent property; a string scalar as a literal (unquoted, with
   * "u"/"w" casing); a level abbreviated to the alignment; anything else
   * as the token renders it.
   */
  function TokenOutput(t: Token, props: map<string, PropertyValue>): (r: string)
    ensures t.TextToken? ==> r == t.text
    ensures t.PropertyToken? && t.name !in props ==> r == ""
  {
    match t
    case TextToken(text, _) => text
    case PropertyToken(name, _, format, alignment, _, _) =>
      if name !in props then ""
      else
        match props[name]
        case EventValue(Scalar(JStr(s))) => RenderedProperty(t, Some(RenderLiteral(LiteralStringValue(s), format)))
        case LevelValue(level) => AlignedLevelText(level, alignment, format)
        case v => RenderedProperty(t, Some(RenderPropertyValue(v, format)))
  }

  /** The text the formatter writes for a sequence of output tokens. */
  function FormatText(tokens: seq<Token>, props: map<string, PropertyValue>): string {
    if tokens == [] then ""
    else FormatText(tokens[..|tokens| - 1], props) + TokenOutput(tokens[|tokens| - 1], props)
  }

  class MessageTemplateTextFormatter {
    const outputTemplate: MessageTemplate

    constructor (outputTemplate: MessageTemplate)
      ensures this.outputTemplate == outputTemplate
    {
      this.outputTemplate := outputTemplate;
    }

    /** The public constructor: the output template text is parsed once, and a parse failure propagates. */
    static method Create(text: string) returns (r: Outcome<MessageTemplateTextFormatter>)
      ensures Parser.Parse(text).Thrown? ==> r.Thrown? && r.failure == Parser.Parse(text).failure
      ensures Parser.Parse(text).Ok? ==> r.Ok? && r.value.outputTemplate == Parser.Parse(text).value
    {
      var parsed, _ := Parser.ParseTemplate(text);
      if parsed.Thrown? {
        return Thrown(parsed.failure);
      }
      var formatter := new MessageTemplateTextFormatter(parsed.value);
      r := Ok(formatter);
    }

    /** format: every output token written in order against the event's output properties. */
    method Format(e: EventData, p: Platform) returns (out: string)
      ensures out == FormatText(outputTemplate.tokens, OutputProps(e, p))
    {
      var properties := GetOutputProperties(e, p);
      var tokens := outputTemplate.tokens;
      out := "";
      for i := 0 to |tokens|
        invariant out == FormatText(tokens[..i], properties)
      {
        assert tokens[..i + 1][..i] == tokens[..i];
        var piece := WriteToken(tokens[i], properties);
        out := out + piece;
      }
      assert tokens[..|tokens|] == tokens;
    }
  }

  /** One pass of format's loop. */
  method WriteToken(t: Token, properties: map<string, PropertyValue>) returns (out: string)
    ensures out == TokenOutput(t, properties)
  {
    if t.TextToken? {
      return t.text;
    }
    if t.name !in properties {
      return "";
    }
    var value := properties[t.name];
    if value.EventValue? && value.value.Scalar? && value.value.payload.JStr? {
      var overridden := LiteralStringValue(value.value.payload.s);
      out := RenderedProperty(t, Some(RenderLiteral(overridden, t.format)));
    } else if value.LevelValue? {
      out := AlignedLevelText(value.level, t.alignment, t.format);
    } else {
      out := RenderedProperty(t, Some(RenderPropertyValue(value, t.format)));
    }
  }

  /* ------------------------------------------------------------ properties */

  /**
   * An absent property writes nothing here, where rendering the message
   * template would write the raw tag.
   */
  lemma AbsentPropertyWritesNothing(t: Token, e: EventData, p: Platform)
    requires t.PropertyToken? && t.name !in e.properties && t.name !in SpecialNames
    ensures TokenOutput(t, OutputProps(e, p)) == ""
    ensures TokenText(t, e.properties) == t.rawText
  {
  }

  /** An event's string property is written unquoted, with its casing applied, then aligned. */
  lemma StringPropertyIsLiteral(t: Token, e: EventData, p: Platform, s: string)
    requires t.PropertyToken? && t.name !in SpecialNames
    requires t.name in e.properties && e.properties[t.name] == Scalar(JStr(s))
    ensures TokenOutput(t, OutputProps(e, p)) == Padded(Casing(s, t.format), t.alignment)
    ensures t.format.None? && t.alignment.None? ==> TokenOutput(t, OutputProps(e, p)) == s
  {
  }

  /**
   * Any other event property is written exactly as the message template
   * would write it.
   */
  lemma OtherPropertyAsMessage(t: Token, e: EventData, p: Platform)
    requires t.PropertyToken? && t.name !in SpecialNames && t.name in e.properties
    requires !(e.properties[t.name].Scalar? && e.properties[t.name].payload.JStr?)
    ensures TokenOutput(t, OutputProps(e, p)) == TokenText(t, e.properties)
  {
  }

  /**
   * {Level} writes the event's level, whatever property named Level the
   * event carries, and with a positive width it is exactly that wide.
   */
  lemma LevelProperty(t: Token, e: EventData, p: Platform)
    requires t.PropertyToken? && t.name == LevelPropertyName
    ensures TokenOutput(t, OutputProps(e, p)) == AlignedLevelText(e.level, t.alignment, t.format)
    ensures t.alignment.Some? && t.alignment.value.width > 0 ==>
      |TokenOutput(t, OutputProps(e, p))| == t.alignment.value.width
  {
  }

  /** {Message} writes the event's message rendered with the event's own properties, not the special ones. */
  lemma MessageProperty(t: Token, e: EventData, p: Platform)
    requires t.PropertyToken? && t.name == MessagePropertyName
    ensures TokenOutput(t, OutputProps(e, p)) == Padded(RenderTokens(e.template.tokens, e.properties), t.alignment)
  {
  }

  /** {NewLine} writes the line separator, and {Exception} writes nothing for an event without an exception. */
  lemma NewLineAndException(t: Token, e: EventData, p: Platform)
    requires t.PropertyToken? && t.alignment.None? && t.format.None?
    ensures t.name == NewLinePropertyName ==> TokenOutput(t, OutputProps(e, p)) == p.newLine
    ensures t.name == ExceptionPropertyName && e.exception.None? ==> TokenOutput(t, OutputProps(e, p)) == ""
    ensures t.name == ExceptionPropertyName && e.exception.Some? ==>
      TokenOutput(t, OutputProps(e, p)) ==
        e.exception.value + p.newLine + p.stackTrace(e.exception.value)
  {
  }

  predicate AllText(tokens: seq<Token>) {
    forall i :: 0 <= i < |tokens| ==> tokens[i].TextToken?
  }

  /** An output template of text alone writes the same as the message template would, for any event. */
  lemma {:induction false} TextOnlyTemplate(tokens: seq<Token>, props: map<string, PropertyValue>, q: map<string, Value>)
    requires AllText(tokens)
    ensures FormatText(tokens, props) == RenderTokens(tokens, q)
  {
    if tokens != [] {
      TextOnlyTemplate(tokens[..|tokens| - 1], props, q);
    }
  }

  /** The formatter's output is its tokens' outputs concatenated. */
  lemma {:induction false} FormatTextAppend(a: seq<Token>, b: seq<Token>, props: map<string, PropertyValue>)
    ensures FormatText(a + b, props) == FormatText(a, props) + FormatText(b, props)
  {
    if b == [] {
      assert a + b == a;
    } else {
      var front := b[..|b| - 1];
      assert (a + b)[..|a + b| - 1] == a + front;
      FormatTextAppend(a, front, props);
    }
  }
}
