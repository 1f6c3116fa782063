# serilogj core, modelled in Dafny

serilogj is a structured-logging library for Java, ported from Serilog. This model covers the path a log call takes through it:

- **Templates.** A message template such as `"User {Name} logged in from {@Address,-10:u}"` is parsed into text and property tokens. Parsed templates are cached.
- **Binding.** The call's arguments are bound to the property tokens, by position or by name.
- **Conversion.** Each argument is converted into a log-event property value: a scalar, a sequence, a dictionary or a structure. The conversion uses scalar and destructuring policies, reflection over fields and getters, and a depth limiter.
- **Events.** The resulting log event is enriched with properties from the logger and from the log context, without overwriting existing ones.
- **Sinks.** The event is routed through level-restricted, filtering and fault-isolating aggregate sinks.
- **Output.** The event is finally written by one of these:
  - the plain-text formatter, which handles casing, level abbreviation and padding;
  - the JSON formatter;
  - a rolling file sink that names one file per day, retries locked files and deletes old ones;
  - a periodic batching sink, with exponential back-off after failures.
- **Seq.** The Seq sink's reading of the server's minimum accepted level is modelled too.

Each core file becomes one Dafny module. Code that computes a value is modelled as functions and lemmas. Code that changes state step by step is modelled as follows:
- Classes whose fields the Java code updates in place become Dafny classes with `modifies` clauses. These are `LogEvent`, `LogContext`, `MessageTemplateCache`, the rolling file sink, the batching sink and its connection status, the enum policy memo and the descriptor cache.
- Loops become methods with loop invariants, proved equal to a specification function. Properties are then proved about that function.
- A Java `Writer` is modelled by the text an operation appends. Render and format methods return that text.
- A Java exception is modelled as the `Thrown` case of `Wrappers.Outcome`.

Where the code and its documentation disagree, the model follows the code:

- **Doubled `{{`.** The text tokenizer emits one `{` for `{{` but does not skip the second brace. That brace is read again and starts the next token. So `"{{"` parses to two text tokens `"{"` and `"{"`, and `"{{x}"` to `"{"` plus the property `x`. A doubled `}}` is collapsed as documented.
- **Empty property name.** A tag whose content starts with `:` or `,`, such as `"{:x}"` or `"{,5}"`, throws `StringIndexOutOfBoundsException`. It is not kept as text. The name is empty, and its first character is read before the name is checked.
- **Non-collection `Iterable`.** An `Iterable` that is not a `Collection` flattens to itself. Under a positive maximum depth it becomes sequences nested down to `null`. With a maximum depth of 0 it recurses without end, which the model returns as a `StackOverflowError`.
- **Closing delimiter.** A null closing delimiter in the JSON formatter is written with `Writer.write(String)`. A file writer throws `NullPointerException` on it, after the closing brace. The model follows the file writers here, not the doc comment.
- **Boxed `Void`.** `Reflection` compares a getter's return type with `Void.class`, the boxed type. So `void` methods named like getters are kept as getters, and only a method declared to return `java.lang.Void` is skipped (`MethodDecl.returnsBoxedVoid`).

## Model

| member | source | states |
|---|---|---|
| Levels.ValueOf | src/serilogj/sinks/seq/SeqApi.java:49 | `LogEventLevel.valueOf` gives the level whose name is exactly the text, and no level when no name matches |
| Levels.ValueOfName | src/serilogj/sinks/seq/SeqApi.java:49 | every level's own name reads back as that level |
| Levels.OrdinalInjective | src/serilogj/formatting/display/LogEventLevelValue.java:57-64 | two levels share an ordinal exactly when they are the same level, so the per-ordinal abbreviation table is unambiguous |
| Tokens.Position | src/serilogj/parsing/PropertyToken.java:34-41 | a token is positional exactly when its name parses as a non-negative 32-bit int, and its position is that int |
| Tokens.PositionOfParsedName | src/serilogj/parsing/PropertyToken.java:34-41 | for a name the parser accepts, positional means all digits with value at most 2^31-1, and the position is the digits' value |
| Tokens.SignedNames | src/serilogj/parsing/PropertyToken.java:34-41 | `parseInt` accepts a sign: "-0" and "+7" are positions 0 and 7, "-1" is not a position |
| Tokens.EqualIsEquivalence | src/serilogj/parsing/PropertyToken.java:112-115 | token equality is reflexive, symmetric and transitive |
| Padding.Padded | src/serilogj/formatting/display/Padding.java:16-37 | no alignment leaves the value alone; otherwise the text is as many UTF-16 code units long as the width or the value, whichever is larger, with the value at the right (Right) or left (Left) end and spaces elsewhere |
| Padding.PaddedBmp | src/serilogj/formatting/display/Padding.java:16-37 | for text without supplementary characters, code units and characters agree: the padded text has max(width, length) characters and none supplementary |
| Padding.SupplementaryPadding | src/serilogj/formatting/display/Padding.java:22 | an emoji right-aligned to 3 gets one space, because it counts as two code units |
| Padding.WideValueUnchanged | src/serilogj/formatting/display/Padding.java:22-36 | a value whose UTF-16 length is at least the alignment's width is written unchanged |
| Padding.Apply | src/serilogj/formatting/display/Padding.java:16-37 | the loop that writes width minus the value's UTF-16 length spaces writes exactly `Padded` |
| Templates.PropertyTokens | src/serilogj/events/MessageTemplate.java:26-52 | a template has no more property tokens than tokens, and each is a property token |
| Templates.PropertyTokensMembers | src/serilogj/events/MessageTemplate.java:26-52 | a token is among the property tokens exactly when it is one of the tokens and a property token |
| Templates.PropertyTokensAppend | src/serilogj/events/MessageTemplate.java:26-52 | the property tokens of two concatenated token lists are those of each, concatenated |
| Templates.Classified | src/serilogj/events/MessageTemplate.java:15-53 | a template is positional or named, never both; it is positional exactly when every property token is positional, and the chosen list holds every property token |
| Templates.NewMessageTemplate | src/serilogj/events/MessageTemplate.java:15-53 | the classifying loop builds `Classified` and reports a mix of positional and named tokens |
| Templates.ScanStep | src/serilogj/events/MessageTemplate.java:26-52 | one more token adds itself to the property tokens only when it is a property token, sets anyPositional when positional, and clears allPositional when it is a named property token |
| Templates.NoPropertiesIsPositional | src/serilogj/events/MessageTemplate.java:26-52 | a template of text only is positional with no property tokens, and is not malformed |
| Templates.RenderedProperty | src/serilogj/parsing/PropertyToken.java:74-104 | a property token absent from the properties renders its raw text; a present one renders its value padded to the token's alignment, the width counted in UTF-16 code units |
| Templates.RenderTokensAppend | src/serilogj/events/MessageTemplate.java:71-75 | rendering concatenated token lists is concatenating their renderings |
| Templates.RenderToken | src/serilogj/parsing/PropertyToken.java:74-104 | one token writes its text (text token) or its rendered value (property token) |
| Templates.RenderTemplate | src/serilogj/events/MessageTemplate.java:71-85 | the render loop writes each token's text in order |
| Templates.TextIgnoresProperties | src/serilogj/parsing/TextToken.java:38-43 | a text token renders its text whatever the properties |
| Parser.HintOf | src/serilogj/parsing/MessageTemplateParser.java:220-229 | '@' means destructure, '$' means stringify, and any other character is the default |
| Parser.TextRun | src/serilogj/parsing/MessageTemplateParser.java:60-86 | a text run stops at the end or at a '{' that is not followed by another '{' |
| Parser.TextRunKeeps | src/serilogj/parsing/MessageTemplateParser.java:60-86 | the text token is the run's source text with each "}}" collapsed, and every '{' inside the run was doubled |
| Parser.ParseTextToken | src/serilogj/parsing/MessageTemplateParser.java:60-86 | the do-while loop returns `TextRun`'s end index and a text token of its text at the start index |
| Parser.TagEnd | src/serilogj/parsing/MessageTemplateParser.java:90-93 | the tag scan stops at the first character not valid in a tag, and every character before it is valid |
| Parser.TrySplitTagContent | src/serilogj/parsing/MessageTemplateParser.java:182-218 | a split tag has a name-and-hint prefix, an alignment after a ',' and a format after the last ':', each taken from the content |
| Parser.SplitColonFirst | src/serilogj/parsing/MessageTemplateParser.java:182-218 | a ':' before any ',' splits name from format, and an empty format is no format |
| Parser.SplitTrailingComma | src/serilogj/parsing/MessageTemplateParser.java:182-218 | an alignment that is empty because of a trailing ',' makes the split invalid |
| Parser.SplitCommaBeforeColon | src/serilogj/parsing/MessageTemplateParser.java:182-218 | ",:" leaves an empty alignment and the split is invalid |
| Parser.AlignmentRules | src/serilogj/parsing/MessageTemplateParser.java:140-162 | an alignment is accepted exactly when it is an optional leading '-' and digits with value in 1..2^31-1; '-' means Left, otherwise Right, and the width is the digits' value |
| Parser.DecodeTag | src/serilogj/parsing/MessageTemplateParser.java:99-166 | a decoded tag keeps its start index and raw text, and a property token's hint is read from its first character |
| Parser.PropertyAt | src/serilogj/parsing/MessageTemplateParser.java:88-166 | a property-or-text token at a '{' covers exactly the source text it consumes and ends past its start |
| Parser.EmptyTagIsText | src/serilogj/parsing/MessageTemplateParser.java:103-105 | "{}" is text |
| Parser.EmptyNameThrows | src/serilogj/parsing/MessageTemplateParser.java:107-118 | "{:x}" and "{,5}" throw StringIndexOutOfBoundsException, because the empty name's first character is read |
| Parser.InvalidPartsAreText | src/serilogj/parsing/MessageTemplateParser.java:120-138 | a name or format holding an invalid character turns the whole tag into text |
| Parser.ParsePropertyToken | src/serilogj/parsing/MessageTemplateParser.java:88-166 | the scanning and checking loops compute `PropertyAt` |
| Parser.DecodeTagText | src/serilogj/parsing/MessageTemplateParser.java:99-166 | the validation loops over name, format and alignment compute `DecodeTag` |
| Parser.CheckAlignment | src/serilogj/parsing/MessageTemplateParser.java:140-162 | the alignment loop and `parseInt` compute the alignment rules, with an int overflow as NumberFormatException |
| Parser.TokenizeTemplate | src/serilogj/parsing/MessageTemplateParser.java:27-58 | the alternating text/property loop computes `Tokenize`, keeps only non-empty tokens and propagates the first exception |
| Parser.ParseTemplate | src/serilogj/parsing/MessageTemplateParser.java:19-25 | parse is tokenize then classify; the diagnostic is raised exactly for a template mixing positional and named tokens |
| Parser.ParseEmpty | src/serilogj/parsing/MessageTemplateParser.java:30-33 | "" parses to one empty text token at index -1, positional with no properties |
| Parser.DoubledOpenBraces | src/serilogj/parsing/MessageTemplateParser.java:66-71 | "{{" gives two "{" text tokens, and "{{x}" gives "{" and the property x |
| Parser.DoubledCloseBraces | src/serilogj/parsing/MessageTemplateParser.java:73-79 | "}}" gives one "}", and "a}}b" gives "a}b" |
| Parser.UnclosedTagIsText | src/serilogj/parsing/MessageTemplateParser.java:95-97 | a tag not closed by '}' is text up to where the scan stopped |
| Parser.RenderWithoutProperties | src/serilogj/parsing/MessageTemplateParser.java:27-58 | without "}}", rendering the tokens from any index with no properties gives back the source text from that index |
| Parser.TemplateWithoutProperties | src/serilogj/events/MessageTemplate.java:71-85 | a template without "}}", rendered with no properties, is its own text (parse and render round-trip) |
| Cache.MessageTemplateCache.Parse | src/serilogj/core/pipeline/MessageTemplateCache.java:34-75 | the cached parse equals the uncached parse; templates longer than 1024 UTF-16 code units, already cached ones and failed ones leave the cache alone; a new one is added, after clearing a full cache of 1000 |
| Values.IsValidName | src/serilogj/events/LogEventProperty.java:69-81 | a name is valid exactly when it holds a character other than a space |
| Values.NewProperty | src/serilogj/events/LogEventProperty.java:35-45 | a property is built exactly when its name is valid, and otherwise IllegalArgumentException is thrown |
| Values.RenderScalar | src/serilogj/events/ScalarValue.java:19-59 | null writes "null"; a string with "l" is raw; any other string is quoted with its quotes escaped, and unescaping gives the string back |
| Values.EscapeQuotesRoundTrip | src/serilogj/events/ScalarValue.java:31-35 | escaping '"' as '\"' is undone by unescaping |
| Values.RenderSequence | src/serilogj/events/SequenceValue.java:22-38 | the loop writes "[", the elements joined by ", ", then "]" |
| Values.RenderStructure | src/serilogj/events/StructureValue.java:32-55 | the loop writes the tag, if any, then "{ name: value, ... }" |
| Values.RenderDictionary | src/serilogj/events/DictionaryValue.java:31-47 | the loop writes "[(key: value), ...]" |
| Values.RenderValue | src/serilogj/events/LogEventPropertyValue.java:1-66 | rendering dispatches on the value's kind and equals `Render` |
| Values.DictionaryIgnoresFormat | src/serilogj/events/DictionaryValue.java:31-47 | a dictionary renders the same under every format |
| Values.TaggedStructure | src/serilogj/events/StructureValue.java:32-55 | a tagged structure renders as the tag, a space, then the untagged rendering |
| Values.EmptyComposites | src/serilogj/events/SequenceValue.java:22-38 | empty sequence, structure and dictionary render as "[]", "{  }" and "[]" |
| Values.SetTypeTag | src/serilogj/events/StructureValue.java:23-25 | setting the tag changes the tag and nothing else |
| Values.Put | src/serilogj/events/DictionaryValue.java:9-16 | putting a key replaces an equal key's entry in place, or appends a new entry |
| Values.LookupPut | src/serilogj/events/DictionaryValue.java:9-16 | after a put, the key maps to the new value and other keys keep theirs |
| Values.FromEntriesLastWins | src/serilogj/events/DictionaryValue.java:9-16 | with repeated keys, the last entry's value wins |
| Values.KeepsLookup | src/serilogj/events/DictionaryValue.java:9-16 | entries with other keys do not change a key's value |
| Policies.TrySimple | src/serilogj/policies/SimpleScalarConversionPolicy.java:32-40 | a value of one of the scalar types is kept as a scalar, and any other is not converted |
| Policies.EnumScalarPolicy.TryConvert | src/serilogj/policies/EnumScalarConversionPolicy.java:29-56 | every enum becomes a scalar of that constant; the first conversion is memoised per class and ordinal, later ones return the memo, and existing memo entries never change |
| Policies.Unsigned | src/serilogj/policies/ByteArrayScalarConversionPolicy.java:32-35 | a signed byte's unsigned value is in 0..255 |
| Policies.Hex2 | src/serilogj/policies/ByteArrayScalarConversionPolicy.java:32-35 | a byte is written as two hex digits |
| Policies.HexOf | src/serilogj/policies/ByteArrayScalarConversionPolicy.java:32-35 | a byte string is written as twice as many hex digits |
| Policies.TryConvertBytes | src/serilogj/policies/ByteArrayScalarConversionPolicy.java:25-50 | the policy's loops compute the byte-array result: a copy up to 1024 bytes, a preview beyond |
| Policies.HexPreview | src/serilogj/policies/ByteArrayScalarConversionPolicy.java:30-38 | the preview loop writes the hex of the first 16 bytes, then "... (n bytes)" |
| Policies.Hex2RoundTrip | src/serilogj/policies/ByteArrayScalarConversionPolicy.java:32-35 | two hex digits read back as the byte |
| Policies.HexRoundTrip | src/serilogj/policies/ByteArrayScalarConversionPolicy.java:32-35 | the hex text of a byte string reads back as the byte string |
| Policies.PreviewShape | src/serilogj/policies/ByteArrayScalarConversionPolicy.java:30-38 | a preview is 32 hex digits encoding the first 16 bytes, followed by "... (n bytes)" |
| Policies.ByteArrayCopies | src/serilogj/policies/ByteArrayScalarConversionPolicy.java:25-50 | only byte arrays are converted; up to 1024 bytes are kept as bytes, longer ones become a string |
| Policies.TryBoolean | src/serilogj/policies/BooleanScalarConversionPolicy.java:13-30 | the policy claims exactly booleans and yields a null result |
| Reflection.UnifyListOrArray | src/serilogj/reflection/Reflection.java:42-81 | the loop appends the flattened value to the list |
| Reflection.BoxedBytes | src/serilogj/reflection/Reflection.java:56-65 | a byte array flattens to its bytes, each boxed, in order |
| Reflection.ArrayDropsNulls | src/serilogj/reflection/Reflection.java:42-81 | an array of plain elements flattens to its non-null elements, in order |
| Reflection.SingleElement | src/serilogj/reflection/Reflection.java:76-79 | a value that is neither an array nor a collection flattens to itself alone |
| Reflection.CollectionKeepsItems | src/serilogj/reflection/Reflection.java:42-81 | a collection of plain items flattens to its items, nulls included |
| Reflection.NestedArraySpliced | src/serilogj/reflection/Reflection.java:42-81 | a nested array is spliced in place |
| Reflection.Lookup | src/serilogj/reflection/Reflection.java:83-101 | a descriptor finds an alias exactly when one of its entries has it |
| Reflection.LookupPut | src/serilogj/reflection/Reflection.java:103-120 | a put makes the alias find the new accessor and keeps the others |
| Reflection.LookupPutAllKeeping | src/serilogj/reflection/Reflection.java:83-101 | merging without overwriting keeps existing aliases and takes the first new entry otherwise |
| Reflection.LookupPutAllOverwriting | src/serilogj/reflection/Reflection.java:103-120 | merging with overwriting takes the last new entry for an alias |
| Reflection.FieldPropertiesFind | src/serilogj/reflection/Reflection.java:122-140 | a level's fields find a name exactly when a visible (non-static, non-synthetic) field of that name is declared there |
| Reflection.FieldLevelsFind | src/serilogj/reflection/Reflection.java:103-120 | the class and its superclasses find a name exactly when some level declares it |
| Reflection.FieldShadowing | src/serilogj/reflection/Reflection.java:103-120 | the field found is the one declared nearest the class itself |
| Reflection.Decapitalize | src/serilogj/reflection/Reflection.java:159-175 | the alias is the rest of the name with its first letter lower-cased |
| Reflection.GetterAlias | src/serilogj/reflection/Reflection.java:142-182 | a getter is an instance method without parameters, not declared to return `java.lang.Void`, not getClass, named is/get followed by at least one character; its alias is that tail decapitalised |
| Reflection.MethodPropertiesSound | src/serilogj/reflection/Reflection.java:142-182 | every getter entry comes from an accepted method under that alias |
| Reflection.FieldShadowsGetter | src/serilogj/reflection/Reflection.java:83-101 | a field and a getter with the same alias resolve to the field |
| Reflection.GetterEntriesSound | src/serilogj/reflection/Reflection.java:83-101 | a getter is used only when no visible field has its alias |
| Reflection.GetFieldProperties | src/serilogj/reflection/Reflection.java:122-140 | the field loop computes the level's field entries |
| Reflection.GetAllFieldProperties | src/serilogj/reflection/Reflection.java:103-120 | the superclass walk computes the field descriptor |
| Reflection.PutEach | src/serilogj/reflection/Reflection.java:83-101 | the merging loop computes `PutAll` |
| Reflection.GetAllMethodProperties | src/serilogj/reflection/Reflection.java:142-182 | the method loop computes the getter descriptor |
| Reflection.DescriptorCache.GetProperties | src/serilogj/reflection/Reflection.java:83-101 | the descriptor is the fields, then the getters not shadowed by a field, and it is cached per class |
| Converter.NewConverter | src/serilogj/parameters/PropertyValueConverter.java:76-108 | a negative maximum depth throws IllegalArgumentException; otherwise the scalar types are the built-in ones plus the extra ones, and the policies are kept in order |
| Converter.ScalarPolicies | src/serilogj/parameters/PropertyValueConverter.java:148-153 | the scalar policies claim exactly the scalar types, enums and byte arrays, always yielding a scalar; a scalar type is kept as is |
| Converter.CustomPolicies | src/serilogj/parameters/PropertyValueConverter.java:155-162 | the first user policy that converts decides |
| Converter.TypeTag | src/serilogj/parameters/PropertyValueConverter.java:184-191 | a structure's tag is the class name, and there is none for an empty or compiler-generated name |
| Converter.ReadingOf | src/serilogj/parameters/PropertyValueConverter.java:197-221 | an accessor has a reading exactly when the object was read through it |
| Converter.CreateProperty | src/serilogj/parameters/PropertyValueConverter.java:110-116 | a property is created exactly when the value converts and the name is valid, from the converted value |
| Converter.ConversionCases | src/serilogj/parameters/PropertyValueConverter.java:136-194 | null gives Scalar(null); stringify gives its text; scalar types and enums stay scalars; maps give dictionaries; undestructured objects give their text; destructured ones give structures tagged with the class |
| Converter.ConvertSequenceLoop | src/serilogj/parameters/PropertyValueConverter.java:173-182 | the element loop converts each flattened element one level deeper, stopping at the first failure |
| Converter.ConvertMapLoop | src/serilogj/parameters/PropertyValueConverter.java:164-171 | the entry loop converts keys (as scalars) and values, with a non-scalar key as ClassCastException |
| Converter.GetPropertiesLoop | src/serilogj/parameters/PropertyValueConverter.java:197-221 | the property loop reads each descriptor entry and converts it one level deeper |
| Converter.ElementsPointwise | src/serilogj/parameters/PropertyValueConverter.java:173-182 | a sequence converts exactly when each element does, element by element, in order |
| Converter.EntriesPointwise | src/serilogj/parameters/PropertyValueConverter.java:164-171 | a converted dictionary has one entry per map entry, each key and value converted |
| Converter.PropertiesFromDescriptor | src/serilogj/parameters/PropertyValueConverter.java:197-221 | every structure property is named by a descriptor alias the object was read through |
| Converter.PropertiesOnlyError | src/serilogj/parameters/PropertyValueConverter.java:197-221 | reading properties can fail only by a StackOverflowError |
| Converter.ChildAtLimit | src/serilogj/parameters/PropertyValueConverter.java:239-258 | at the maximum depth every child is Scalar(null), and a maximum of 0 never cuts off |
| Converter.BooleanPolicyNeverDecides | src/serilogj/parameters/PropertyValueConverter.java:148-153 | Boolean is a built-in scalar type, so the Boolean policy is never reached |
| Converter.PlainIterableNests | src/serilogj/parameters/PropertyValueConverter.java:173-182 | a non-collection Iterable nests one sequence per remaining level down to Scalar(null), and with maximum depth 0 it overflows the stack |
| Converter.ConvertWithin | src/serilogj/parameters/PropertyValueConverter.java:228-259 | without user policies, a converted value nests no deeper than the remaining depth plus two |
| Converter.PoliciesOnlyUnderDestructure | src/serilogj/parameters/PropertyValueConverter.java:155-162 | user policies matter only when destructuring |
| Converter.CustomPolicyDecides | src/serilogj/parameters/PropertyValueConverter.java:155-162 | when destructuring a non-scalar, the first user policy that converts gives the result |
| Binder.Bind | src/serilogj/parameters/PropertyBinder.java:98-101 | a token binds to a property of its name and converted value exactly when conversion succeeds and the name is valid |
| Binder.Slot | src/serilogj/parameters/PropertyBinder.java:55-60 | a positional token fills the slot of its position when that position is among the arguments |
| Binder.SlotsFilled | src/serilogj/parameters/PropertyBinder.java:48-73 | a slot is filled exactly when some token targets it |
| Binder.SlotsHoldLastToken | src/serilogj/parameters/PropertyBinder.java:48-73 | a slot holds the binding of the last token that targets it |
| Binder.SlotsThrow | src/serilogj/parameters/PropertyBinder.java:48-73 | positional binding throws exactly when some token stops it |
| Binder.FilledInOrder | src/serilogj/parameters/PropertyBinder.java:66-72 | filled slots are collected in position order |
| Binder.FilledHasEverySlot | src/serilogj/parameters/PropertyBinder.java:66-72 | the result holds exactly the filled slots' properties |
| Binder.ConstructPositionalProperties | src/serilogj/parameters/PropertyBinder.java:48-73 | the array loop computes positional binding; a count mismatch is reported |
| Binder.ReadSlots | src/serilogj/parameters/PropertyBinder.java:66-72 | reading the array keeps the filled slots in order |
| Binder.NamedPairs | src/serilogj/parameters/PropertyBinder.java:75-96 | named binding pairs the i-th token with the i-th argument, succeeding exactly when each pair binds |
| Binder.NamedFirstFailure | src/serilogj/parameters/PropertyBinder.java:75-96 | named binding throws the first pair's failure |
| Binder.ConstructNamedProperties | src/serilogj/parameters/PropertyBinder.java:75-96 | the loop computes named binding over the shorter of tokens and arguments |
| Binder.ConstructProperties | src/serilogj/parameters/PropertyBinder.java:33-46 | no arguments give no properties (a diagnostic when tokens exist); otherwise positional or named binding is used as the template says |
| Binder.ClassifiedBinds | src/serilogj/events/MessageTemplate.java:15-53 | every parsed template is well formed for binding, and has property tokens exactly when its tokens include one |
| Binder.PositionalBounds | src/serilogj/parameters/PropertyBinder.java:48-73 | positional binding yields at most one property per argument, each named by a token |
| Events.IfAbsent | src/serilogj/events/LogEvent.java:64-72 | an existing name is kept; otherwise the property is added |
| Events.OverwriteLastWins | src/serilogj/events/LogEvent.java:18-35 | the constructor's properties hold each name given, with the last value given for it |
| Events.OverwriteNames | src/serilogj/events/LogEvent.java:18-35 | a name is in the properties exactly when it was there before or some property carries it; a name no property carries keeps its value |
| Events.LogEvent.constructor | src/serilogj/events/LogEvent.java:18-35 | the event keeps its timestamp, level, exception and template, and its properties are the given ones, the last one winning for each name |
| Events.LogEvent.AddOrUpdateProperty | src/serilogj/events/LogEvent.java:57-62 | the property replaces any other of its name |
| Events.LogEvent.AddPropertyIfAbsent | src/serilogj/events/LogEvent.java:64-72 | the property is added only when its name is absent |
| Events.LogEvent.RemovePropertyIfPresent | src/serilogj/events/LogEvent.java:74-76 | the name is removed and nothing else changes |
| Events.LogEvent.RenderMessage | src/serilogj/events/LogEvent.java:78-84 | the message is the template rendered with the event's properties |
| Events.IfAbsentKeeps | src/serilogj/events/LogEvent.java:64-72 | adding if absent never changes an existing value, and the name is present afterwards |
| Enrichers.NewPropertyEnricher | src/serilogj/core/enrichers/PropertyEnricher.java:46-54 | an invalid name throws IllegalArgumentException("name") |
| Enrichers.Offered | src/serilogj/core/enrichers/PropertyEnricher.java:64-73 | a property enricher asks the factory for its property; a fixed enricher offers its own; either way the name is the enricher's |
| Enrichers.Enrich | src/serilogj/core/enrichers/PropertyEnricher.java:64-73 | enrich adds the offered property if absent, or throws and leaves the event alone |
| Enrichers.EnrichNeverOverwrites | src/serilogj/core/enrichers/FixedPropertyEnricher.java:30-32 | enrichment never changes an existing property and always leaves the enricher's name present |
| Enrichers.FixedIgnoresFactory | src/serilogj/core/enrichers/FixedPropertyEnricher.java:30-32 | a fixed enricher gives the same result with any factory |
| Enrichers.PropertyEnricherAdds | src/serilogj/core/enrichers/PropertyEnricher.java:64-73 | a property enricher succeeds exactly when its value converts, and adds the converted value under its name when absent |
| Context.EnrichersOf | src/serilogj/context/LogContext.java:48-58 | the enrichers are the items' enrichers, in order |
| Context.Without | src/serilogj/context/LogContext.java:44-46 | removing an item not pushed changes nothing; otherwise exactly one element goes |
| Context.LogContext.PushProperty | src/serilogj/context/LogContext.java:34-42 | a valid name pushes a new item with a property enricher at the end of the stack; an invalid one throws IllegalArgumentException("name") |
| Context.LogContext.Close | src/serilogj/context/LogContext.java:23-25 | closing an item removes it from the stack |
| Context.LogContext.GetEnrichers | src/serilogj/context/LogContext.java:48-58 | the enrichers are the most recent one per name, newest first |
| Context.WithoutKeepsDistinct | src/serilogj/context/LogContext.java:44-46 | removal keeps the items distinct and removes exactly the closed item |
| Context.CloseRemovesExactly | src/serilogj/context/LogContext.java:44-46 | closing removes the item and keeps every other |
| Context.WithoutCutsIndex | src/serilogj/context/LogContext.java:44-46 | removal cuts out the first occurrence |
| Context.RecentDistinctNames | src/serilogj/context/LogContext.java:48-58 | the enrichers returned have distinct names |
| Context.RecentKeepsLatest | src/serilogj/context/LogContext.java:48-58 | each name pushed is returned once, and it is the latest push of that name |
| Context.RecentFindsNames | src/serilogj/context/LogContext.java:48-58 | a name has an enricher in the result exactly when some pushed enricher has that name |
| Context.RecentIsLatest | src/serilogj/context/LogContext.java:48-58 | the enricher returned for a name is the last one pushed under it |
| Context.RecentFromStack | src/serilogj/context/LogContext.java:48-58 | every enricher returned was pushed |
| Pipeline.EnrichEach | src/serilogj/core/Logger.java:111-117 | an enricher's exception is caught, and only an Error escapes |
| Pipeline.EnrichKeeps | src/serilogj/core/Logger.java:111-117 | enrichment never loses or changes an existing property |
| Pipeline.EnrichEachAddsNames | src/serilogj/core/Logger.java:111-117 | every enricher that succeeded left its name on the event |
| Pipeline.EmitExtends | src/serilogj/core/sinks/SafeAggregateSink.java:45-53 | every event a sink receives extends the original event |
| Pipeline.WriteExtends | src/serilogj/core/Logger.java:130-138 | every delivered event extends the written one |
| Pipeline.DispatchExtends | src/serilogj/core/Logger.java:110-120 | dispatch keeps every original property in each delivered event |
| Pipeline.AggregateReachesAll | src/serilogj/core/sinks/SafeAggregateSink.java:45-53 | when the sinks fail at most with runtime exceptions, every sink receives the event in order |
| Pipeline.AggregateStops | src/serilogj/core/sinks/SafeAggregateSink.java:45-53 | after an Error escapes, no later sink is reached |
| Pipeline.AggregateOnlyErrors | src/serilogj/core/sinks/SafeAggregateSink.java:45-53 | only non-runtime failures escape the aggregate |
| Pipeline.RoutingRules | src/serilogj/core/sinks/RestrictedSink.java:36-46 | a restricted sink passes exactly the events at or above the switch level; a filtering sink passes exactly the events all filters accept, drops the event at the first filter that rejects it, and lets the exception of the first filter that throws escape |
| Pipeline.PassesFirst | src/serilogj/core/sinks/FilteringSink.java:37-45 | the filter loop passes exactly when every filter accepts; otherwise its verdict is that of the first filter that rejects or throws |
| Pipeline.PassesStops | src/serilogj/core/sinks/FilteringSink.java:38-42 | once a filter has stopped the loop, later filters do not change the verdict |
| Pipeline.EmitToSink | src/serilogj/core/sinks/FilteringSink.java:37-45 | emitting to a sink tree computes `EmitTo` |
| Pipeline.EmitToEach | src/serilogj/core/sinks/SafeAggregateSink.java:45-53 | the aggregate loop computes `EmitEach` |
| Pipeline.WriteEvent | src/serilogj/core/Logger.java:130-138 | write checks the level and dispatches |
| Pipeline.DispatchEvent | src/serilogj/core/Logger.java:110-120 | dispatch runs the enrichers, then emits |
| Pipeline.EnrichStops | src/serilogj/core/Logger.java:111-117 | after an escaping Error, no later enricher runs |
| Pipeline.Unwrapped | src/serilogj/core/Logger.java:153-156 | a single Object[] argument is unwrapped into the arguments |
| Pipeline.Process | src/serilogj/parameters/MessageTemplateProcessor.java:32-37 | processing parses the template, and a parse exception propagates |
| Pipeline.TemplateWins | src/serilogj/core/Logger.java:146-162 | a delivered event keeps the template's properties and the level written |
| Pipeline.WriteTemplateGate | src/serilogj/core/Logger.java:146-162 | nothing is written exactly when the template is null or the level is not enabled |
| Pipeline.ForContext | src/serilogj/core/Logger.java:69-72 | the child writes to the parent, does not close it, and keeps its levels; null enrichers become none |
| Pipeline.WithFixed | src/serilogj/core/Logger.java:80-100 | the new fixed enricher replaces the first fixed enricher of that name, or is appended |
| Pipeline.NewForContext | src/serilogj/core/Logger.java:80-100 | the search and copy loops compute `ForContextProperty` |
| Pipeline.FindFixed | src/serilogj/core/Logger.java:81-91 | the search finds the first fixed enricher with the name, or -1 |
| Pipeline.ForContextShape | src/serilogj/core/Logger.java:80-100 | the child has one fixed enricher for the name, keeps the parent's other enrichers, and grows by one only when the name was new |
| Pipeline.Close | src/serilogj/core/sinks/SafeAggregateSink.java:56-62 | closing computes `CloseSink` |
| Pipeline.CloseStops | src/serilogj/core/sinks/SafeAggregateSink.java:56-62 | after the first close failure, no later sink is closed |
| Pipeline.CloseStopsAtFirstFailure | src/serilogj/core/sinks/SafeAggregateSink.java:56-62 | the failure reported is the first closeable sink's failure, and that sink is the last one closed |
| Pipeline.CloseEachSucceeds | src/serilogj/core/sinks/SafeAggregateSink.java:56-62 | when no closeable sink fails, closing succeeds |
| Display.Casing | src/serilogj/formatting/display/Casing.java:17-30 | "u" leaves no lower-case letter and "w" no upper-case letter, each changing only case; any other format leaves the value alone |
| Display.CasingOf | src/serilogj/formatting/display/Casing.java:6-8 | the one-argument overload leaves the value alone |
| Display.CasingIdempotent | src/serilogj/formatting/display/Casing.java:17-30 | casing twice is casing once |
| Display.NewLiteral | src/serilogj/formatting/display/LiteralStringValue.java:11-17 | a null string throws IllegalArgumentException("value") |
| Display.RenderLiteral | src/serilogj/formatting/display/LiteralStringValue.java:20-22 | a literal writes its string with casing only, never quoted |
| Display.StringHash | src/serilogj/formatting/display/LiteralStringValue.java:31-33 | the hash is a signed 32-bit int, computed over the string's UTF-16 code units |
| Display.HashUnits | src/serilogj/formatting/display/LiteralStringValue.java:31-33 | the polynomial hash of the code units stays in the signed 32-bit range |
| Unicode.Utf16 | src/serilogj/formatting/display/LiteralStringValue.java:31-33 | a string has one or two UTF-16 code units per character, each below 0x10000 |
| Unicode.CharUnits | src/serilogj/formatting/display/LiteralStringValue.java:31-33 | a character takes one or two UTF-16 code units, each below 0x10000 |
| Unicode.CharUnitsDecode | src/serilogj/formatting/display/LiteralStringValue.java:31-33 | a character takes one unit exactly when it is below U+10000, that unit is the character itself, and a surrogate pair decodes back to the character |
| Unicode.Utf16Length | src/serilogj/formatting/display/Padding.java:22 | `String.length()` counts one or two code units per character |
| Unicode.Utf16Append | src/serilogj/formatting/display/Padding.java:22 | the code units of a concatenation are those of its parts, in order |
| Unicode.Utf16LengthAppend | src/serilogj/formatting/display/Padding.java:22 | the UTF-16 length of a concatenation is the sum of the lengths |
| Unicode.Utf16LengthBmp | src/serilogj/formatting/display/Padding.java:22 | the UTF-16 length equals the number of characters exactly when no character is supplementary |
| Display.CasedLevelBmp | src/serilogj/formatting/display/LogEventLevelValue.java:32-38 | the level name, abbreviated and cased, has no supplementary character, so its padding counts characters |
| Unicode.Utf16Bmp | src/serilogj/formatting/display/LiteralStringValue.java:31-33 | a string of characters below U+10000 has its own code points as its units |
| Display.SupplementaryHash | src/serilogj/formatting/display/LiteralStringValue.java:31-33 | U+1F600 hashes as its surrogate pair 0xD83D 0xDE00, as String.hashCode does |
| Display.LiteralEquality | src/serilogj/formatting/display/LiteralStringValue.java:25-33 | literals are equal exactly when their strings are; equality is an equivalence; equal literals hash alike; null is never equal |
| Display.LiteralNotScalar | src/serilogj/formatting/display/LiteralStringValue.java:25-28 | a literal never equals a scalar of the same text |
| Display.HashCollision | src/serilogj/formatting/display/LiteralStringValue.java:31-33 | "Aa" and "BB" share a hash but are not equal |
| Display.HashOfPair | src/serilogj/formatting/display/LiteralStringValue.java:31-33 | a two-character string below U+10000 hashes to 31 times its first character plus its second |
| Display.ShortLevelShape | src/serilogj/formatting/display/LogEventLevelValue.java:14-17 | every abbreviation has the width asked, starts with the name's initial and uses only letters of the name |
| Display.AlignedValue | src/serilogj/formatting/display/LogEventLevelValue.java:40-55 | without a positive width the full name; otherwise as wide as the width allows, cut from the name from width 5 up |
| Display.LevelText | src/serilogj/formatting/display/LogEventLevelValue.java:28-30 | the plain render writes the full name, cased |
| Display.AlignedLevelText | src/serilogj/formatting/display/LogEventLevelValue.java:32-38 | with a positive width, exactly that wide; without one, the plain render |
| Display.AbbreviatedLevel | src/serilogj/formatting/display/LogEventLevelValue.java:57-64 | Error at width 4 with "u" is "EROR" |
| Display.TruncatedLevel | src/serilogj/formatting/display/LogEventLevelValue.java:47-52 | Information at width 5 is "Infor" |
| Display.PaddedLevel | src/serilogj/formatting/display/LogEventLevelValue.java:32-38 | Error right-aligned to 7 with "w" is "  error" |
| TextFormatter.ExceptionText | src/serilogj/formatting/display/OutputProperties.java:79-88 | no exception gives "", otherwise the text starts with the exception |
| TextFormatter.OutputProps | src/serilogj/formatting/display/OutputProperties.java:63-90 | the event's properties plus Message, Timestamp, Level, NewLine and Exception, which override the event's properties of the same name |
| TextFormatter.GetOutputProperties | src/serilogj/formatting/display/OutputProperties.java:63-90 | the copying loop and the puts compute `OutputProps` |
| TextFormatter.TokenOutput | src/serilogj/formatting/display/MessageTemplateTextFormatter.java:33-60 | text is written verbatim and an absent property writes nothing |
| TextFormatter.MessageTemplateTextFormatter.Create | src/serilogj/formatting/display/MessageTemplateTextFormatter.java:13-20 | the formatter holds the parsed output template, and a parse exception propagates |
| TextFormatter.MessageTemplateTextFormatter.Format | src/serilogj/formatting/display/MessageTemplateTextFormatter.java:23-63 | the token loop writes each token's output in order |
| TextFormatter.WriteToken | src/serilogj/formatting/display/MessageTemplateTextFormatter.java:33-60 | one token's branch computes `TokenOutput` |
| TextFormatter.AbsentPropertyWritesNothing | src/serilogj/formatting/display/MessageTemplateTextFormatter.java:42-44 | an absent property writes nothing, where the message renderer writes its raw text |
| TextFormatter.StringPropertyIsLiteral | src/serilogj/formatting/display/MessageTemplateTextFormatter.java:52-55 | a string property is written unquoted, cased and padded |
| TextFormatter.OtherPropertyAsMessage | src/serilogj/formatting/display/MessageTemplateTextFormatter.java:58-60 | any other event property is written as the message renderer writes it |
| TextFormatter.LevelProperty | src/serilogj/formatting/display/MessageTemplateTextFormatter.java:56-57 | the level is abbreviated and padded to exactly the alignment's width |
| TextFormatter.MessageProperty | src/serilogj/formatting/display/OutputProperties.java:73-77 | Message writes the rendered message, padded |
| TextFormatter.NewLineAndException | src/serilogj/formatting/display/OutputProperties.java:79-88 | NewLine writes the line separator; Exception writes nothing or the exception, a newline and its stack trace |
| TextFormatter.TextOnlyTemplate | src/serilogj/formatting/display/MessageTemplateTextFormatter.java:33-36 | a template of text only is written as the message renderer writes it |
| TextFormatter.FormatTextAppend | src/serilogj/formatting/display/MessageTemplateTextFormatter.java:23-63 | formatting concatenated tokens is concatenating their outputs |
| Json.EscapeChar | src/serilogj/formatting/json/JsonFormatter.java:297-351 | a character needing no escape is kept; any other becomes a backslash sequence |
| Json.EscapedUnchanged | src/serilogj/formatting/json/JsonFormatter.java:297-351 | escaping leaves a string unchanged exactly when it needs no escape |
| Json.Escape | src/serilogj/formatting/json/JsonFormatter.java:297-351 | null stays null; a clean string is returned as is; otherwise the escaped text |
| Json.EscapeSegments | src/serilogj/formatting/json/JsonFormatter.java:297-351 | the clean-segment loop builds the escaped text |
| Json.EscapedIsStringBody | src/serilogj/formatting/json/JsonFormatter.java:297-351 | escaped text is a valid JSON string body |
| Json.EscapeRoundTrip | src/serilogj/formatting/json/JsonFormatter.java:297-351 | JSON-unescaping the escaped text gives the string back |
| Json.StringLiteralReadsBack | src/serilogj/formatting/json/JsonFormatter.java:203-208 | a string literal is quoted, a valid body, and reads back as the string |
| Json.BooleanQuoted | src/serilogj/formatting/json/JsonFormatter.java:85-101 | booleans are written as the strings "true" and "false" |
| Json.IntegerKeyBare | src/serilogj/formatting/json/JsonFormatter.java:239-251 | an integer dictionary key is written unquoted |
| Json.WriteSequence | src/serilogj/formatting/json/JsonFormatter.java:228-237 | a sequence is a JSON array of its elements |
| Json.WriteDictionary | src/serilogj/formatting/json/JsonFormatter.java:239-251 | a dictionary is a JSON object of its entries |
| Json.WriteStructure | src/serilogj/formatting/json/JsonFormatter.java:253-274 | a structure is a JSON object of its members, with "_typeTag" first when tagged |
| Json.WriteLiteral | src/serilogj/formatting/json/JsonFormatter.java:214-226 | a value is written by its kind |
| Json.MembersOrder | src/serilogj/formatting/json/JsonFormatter.java:105-159 | the members are Timestamp, Level, MessageTemplate, then Message, Exception and Properties when present |
| Json.OptionalMembers | src/serilogj/formatting/json/JsonFormatter.java:105-159 | Message appears exactly when rendering messages, Exception exactly with an exception, Properties exactly with properties |
| Json.Format | src/serilogj/formatting/json/JsonFormatter.java:105-159 | the enclosing braces and delimiter are written unless omitted; with a file writer, a null delimiter throws NullPointerException after the braces; an exception is written as its stack trace |
| Json.ExceptionMember | src/serilogj/formatting/json/JsonFormatter.java:125-130 | an event with an exception has an "Exception" member, a JSON string that unescapes to the exception's printed stack trace |
| Json.WriteProperties | src/serilogj/formatting/json/JsonFormatter.java:167-175 | the properties are an object member named "Properties" |
| Json.WriteJsonProperty | src/serilogj/formatting/json/JsonFormatter.java:177-185 | a member is the name in quotes as given, unescaped, then a colon and the value, after a comma when asked |
| Json.FormatEvent | src/serilogj/formatting/json/JsonFormatter.java:105-159 | the writing methods compute `Format` |
| SeqApi.ValueFrom | src/serilogj/sinks/seq/SeqApi.java:37-47 | a value starting at or past the end of the reply, or without a closing double quote, is not read; one that is read holds no quote and is followed by one |
| SeqApi.MarkerValueFound | src/serilogj/sinks/seq/SeqApi.java:32-47 | a value read is the text right after the first case-insensitive occurrence of the marker, holds no double quote and is followed by one |
| SeqApi.ReadEventInputResult | src/serilogj/sinks/seq/SeqApi.java:27-54 | a level is returned only when its exact name follows the marker; otherwise null |
| SeqApi.NoMarkerNoLevel | src/serilogj/sinks/seq/SeqApi.java:32-35 | without the marker no level is read |
| SeqApi.ReadsValue | src/serilogj/sinks/seq/SeqApi.java:32-47 | whatever precedes the marker without a quote, and whatever the marker's case, the value up to the next quote is read |
| SeqApi.ReadsLevel | src/serilogj/sinks/seq/SeqApi.java:27-54 | a reply naming a level gives that level |
| SeqApi.NameIsCaseSensitive | src/serilogj/sinks/seq/SeqApi.java:49 | "warning" is not a level name |
| Roller.NextDay | src/serilogj/sinks/rollingfile/RollingFileSink.java:83 | the next day is a valid date after the given one |
| Roller.FormatYear | src/serilogj/sinks/rollingfile/TemplatedPathRoller.java:106 | a year in 1..9999 is written as four digits |
| Roller.ParseDate | src/serilogj/sinks/rollingfile/TemplatedPathRoller.java:130-136 | eight digits parse only to a valid date |
| Roller.DateRoundTrip | src/serilogj/sinks/rollingfile/TemplatedPathRoller.java:106 | a formatted date is eight digits and parses back to the date |
| Roller.NewRoller | src/serilogj/sinks/rollingfile/TemplatedPathRoller.java:45-95 | a template with "{0}", a directory whose canonical path fails or holds "{date}", or an empty file name of the normalised template throws IllegalArgumentException("pathTemplate"); otherwise the directory is the canonical one and prefix, date tag and suffix make the file name with a date tag |
| Roller.NormalizeNormal | src/serilogj/sinks/rollingfile/TemplatedPathRoller.java:53-54 | the normalised template has no doubled '/' and no trailing '/' but the root; a path already in that form is unchanged, so normalising is idempotent |
| Roller.CollapseSlashes | src/serilogj/sinks/rollingfile/TemplatedPathRoller.java:53-54 | collapsing keeps the first and last characters and leaves no doubled '/' |
| Roller.CollapseNormal | src/serilogj/sinks/rollingfile/TemplatedPathRoller.java:53-54 | a path without a doubled '/' is left unchanged |
| Roller.TrailingSlashTemplate | src/serilogj/sinks/rollingfile/TemplatedPathRoller.java:53-95 | "logs/" is accepted: the file name is "logs", the directory is the canonical working directory, and files are named "logs-<date>" |
| Roller.WithDateHasTag | src/serilogj/sinks/rollingfile/TemplatedPathRoller.java:75-84 | the file name always gets a date tag |
| Roller.PrefixHasNoTag | src/serilogj/sinks/rollingfile/TemplatedPathRoller.java:86-88 | the prefix holds no date tag |
| Roller.TagSplit | src/serilogj/sinks/rollingfile/TemplatedPathRoller.java:86-88 | the first "{date}", in any case, splits the name into a prefix without the tag, the tag and the rest |
| Roller.DateInsertedBeforeExtension | src/serilogj/sinks/rollingfile/TemplatedPathRoller.java:75-84 | without a tag, "-{date}" is inserted before the last '.' |
| Roller.JoinFileName | src/serilogj/sinks/rollingfile/TemplatedPathRoller.java:110 | the path's file name is the name joined to the directory |
| Roller.MatchName | src/serilogj/sinks/rollingfile/TemplatedPathRoller.java:116-138 | a match keeps the file name, a valid date and a non-negative sequence |
| Roller.Matches | src/serilogj/sinks/rollingfile/TemplatedPathRoller.java:113-142 | there are no more matches than names |
| Roller.GetMatches | src/serilogj/sinks/rollingfile/TemplatedPathRoller.java:113-142 | the loop computes `Matches` |
| Roller.MatchesExactly | src/serilogj/sinks/rollingfile/TemplatedPathRoller.java:113-142 | a file is matched exactly when one of the names matches to it |
| Roller.MatchesAppend | src/serilogj/sinks/rollingfile/TemplatedPathRoller.java:113-142 | the matches of two listings are those of each, concatenated, so input order is kept |
| Roller.MatchesCons | src/serilogj/sinks/rollingfile/TemplatedPathRoller.java:113-142 | the matches of a name and more names are its own match, if any, followed by theirs |
| Roller.SequencePartParses | src/serilogj/sinks/rollingfile/TemplatedPathRoller.java:107-109 | "_" and a sequence padded to three digits parse back to the sequence |
| Roller.RoundTrip | src/serilogj/sinks/rollingfile/TemplatedPathRoller.java:105-142 | a generated file name matches back to its date and sequence |
| Rolling.MidnightAfter | src/serilogj/sinks/rollingfile/RollingFileSink.java:83 | the checkpoint is the next midnight, after now |
| Rolling.SameDayKeepsFile | src/serilogj/sinks/rollingfile/RollingFileSink.java:60-67 | the same day never rolls, and the next day rolls exactly after midnight |
| Rolling.SortFilesSorts | src/serilogj/sinks/rollingfile/RollingFileSink.java:69-79 | sorting gives the newest first (by date, then sequence) and is a permutation |
| Rolling.InsertSorted | src/serilogj/sinks/rollingfile/RollingFileSink.java:69-79 | inserting keeps the list sorted |
| Rolling.SortedHeadNewest | src/serilogj/sinks/rollingfile/RollingFileSink.java:88-92 | no file is newer than the head of the sorted list |
| Rolling.RemoveIgnoreCase | src/serilogj/sinks/rollingfile/RollingFileSink.java:136 | the files kept are exactly those whose names differ from the current one ignoring case |
| Rolling.RetentionKeepsNewest | src/serilogj/sinks/rollingfile/RollingFileSink.java:124-161 | the newest `limit` candidates are kept and the rest deleted, each older than every kept one |
| Rolling.CandidatesFrom | src/serilogj/sinks/rollingfile/RollingFileSink.java:130-137 | the candidates are the matches other than the current file, plus the current file's match |
| Rolling.FirstOpenableShape | src/serilogj/sinks/rollingfile/RollingFileSink.java:94-109 | attempts stop at the first path that opens; retention runs only after a successful open |
| Rolling.RollingFileSink.Create | src/serilogj/sinks/rollingfile/RollingFileSink.java:26-39 | the sink is created exactly when its roller is, with no file and no checkpoint |
| Rolling.RollingFileSink.ApplyRetentionPolicy | src/serilogj/sinks/rollingfile/RollingFileSink.java:124-161 | the files deleted are `Deletions` |
| Rolling.RollingFileSink.DropFirst | src/serilogj/sinks/rollingfile/RollingFileSink.java:148-150 | removing the first files keeps the rest |
| Rolling.RollingFileSink.DeleteEach | src/serilogj/sinks/rollingfile/RollingFileSink.java:152-160 | each file left is deleted, in order |
| Rolling.RollingFileSink.NewestSequence | src/serilogj/sinks/rollingfile/RollingFileSink.java:86-92 | openFile starts from the sequence number of the newest matching file (latest date, then highest sequence), or 0 when no listed name matches |
| Rolling.RollingFileSink.OpenFile | src/serilogj/sinks/rollingfile/RollingFileSink.java:81-110 | the checkpoint moves to the next midnight; a missing listing throws NullPointerException; otherwise up to three attempts open a file |
| Rolling.RollingFileSink.CloseFile | src/serilogj/sinks/rollingfile/RollingFileSink.java:112-122 | the file and the checkpoint are cleared |
| Rolling.RollingFileSink.Emit | src/serilogj/sinks/rollingfile/RollingFileSink.java:42-58 | a disposed sink throws IllegalStateException; otherwise the file rolls when due and the event goes to the current file |
| Rolling.RollingFileSink.Close | src/serilogj/sinks/rollingfile/RollingFileSink.java:164-171 | the first close clears the file and disposes; later ones change nothing |
| Rolling.ThreeFailuresOpenNothing | src/serilogj/sinks/rollingfile/RollingFileSink.java:94-109 | three locked paths open nothing and delete nothing |
| Rolling.StartFromNewest | src/serilogj/sinks/rollingfile/RollingFileSink.java:88-92 | the first attempt uses the newest file's sequence |
| Batching.Pow2 | src/serilogj/sinks/periodicbatching/BatchedConnectionStatus.java:48 | the back-off factor 2^n is at least 1 |
| Batching.Pow2Exceeds | src/serilogj/sinks/periodicbatching/BatchedConnectionStatus.java:48 | 2^n exceeds n, so the back-off factor grows without bound with the failure count |
| Batching.DropQueueDropsBatch | src/serilogj/sinks/periodicbatching/BatchedConnectionStatus.java:32-38 | the batch is dropped from 8 failures on and the queue from 10, so dropping the queue drops the batch |
| Batching.IntervalBounds | src/serilogj/sinks/periodicbatching/BatchedConnectionStatus.java:40-65 | up to one failure the interval is the period; after that it lies between the period and 10 minutes |
| Batching.Pow2Monotone | src/serilogj/sinks/periodicbatching/BatchedConnectionStatus.java:40-65 | powers of two grow with the exponent |
| Batching.IntervalMonotone | src/serilogj/sinks/periodicbatching/BatchedConnectionStatus.java:40-65 | the interval never shrinks as failures grow |
| Batching.IntervalSchedule | src/serilogj/sinks/periodicbatching/BatchedConnectionStatus.java:40-65 | for a short period the back-off is 10 s, 20 s, then 320 s at 7 failures and 10 minutes from 8 |
| Batching.ConnectionStatus.Create | src/serilogj/sinks/periodicbatching/BatchedConnectionStatus.java:16-22 | a zero period throws IllegalArgumentException("period"); otherwise no failures |
| Batching.ConnectionStatus.MarkSuccess | src/serilogj/sinks/periodicbatching/BatchedConnectionStatus.java:24-26 | success resets the failures |
| Batching.ConnectionStatus.MarkFailure | src/serilogj/sinks/periodicbatching/BatchedConnectionStatus.java:28-30 | failure counts one more |
| Batching.Kept | src/serilogj/sinks/periodicbatching/PeriodicBatchingSink.java:94-98 | no more events are kept than polled, and each kept one is accepted by `canInclude` |
| Batching.KeptMembers | src/serilogj/sinks/periodicbatching/PeriodicBatchingSink.java:94-98 | the events kept are exactly the polled ones `canInclude` accepts |
| Batching.DrainTakesFront | src/serilogj/sinks/periodicbatching/PeriodicBatchingSink.java:94-98 | draining polls a prefix of the queue and appends its accepted events to the batch |
| Batching.DrainStops | src/serilogj/sinks/periodicbatching/PeriodicBatchingSink.java:94-98 | draining stops with the queue empty or the batch full, never over the limit |
| Batching.CyclesOutcome | src/serilogj/sinks/periodicbatching/PeriodicBatchingSink.java:89-129 | no batch means nothing changes; a run ends with success and an empty batch, or with one more failure keeping the failed batch after an Exception, or with the count untouched, the batch kept and the Error escaping after an Error; no empty batch is emitted |
| Batching.CyclesTakeFront | src/serilogj/sinks/periodicbatching/PeriodicBatchingSink.java:89-129 | a tick is first-in first-out: it polls a prefix of the queue, leaves the rest queued, and the batches it hands over, concatenated, are the staged batch followed by the accepted events of that prefix in queue order |
| Batching.FullCycleTakesFront | src/serilogj/sinks/periodicbatching/PeriodicBatchingSink.java:92-110 | a full batch accepted by emitBatch, followed by a first-in first-out rest of the tick, keeps the tick first-in first-out |
| Batching.LastCycleTakesFront | src/serilogj/sinks/periodicbatching/PeriodicBatchingSink.java:92-115 | the tick's last cycle polls a prefix of the queue and hands over at most the staged batch plus its accepted events |
| Batching.TakeFrontStep | src/serilogj/sinks/periodicbatching/PeriodicBatchingSink.java:94-110 | one drained batch followed by batches taken from the front of the rest are taken from the front of the whole queue |
| Batching.TakeFrontLast | src/serilogj/sinks/periodicbatching/PeriodicBatchingSink.java:94-110 | the last drained batch, if not empty, is the one batch handed over, and it is the staged batch plus the accepted events of the polled prefix |
| Batching.KeptAppend | src/serilogj/sinks/periodicbatching/PeriodicBatchingSink.java:94-98 | filtering a concatenation filters each part, in order |
| Batching.CyclesFull | src/serilogj/sinks/periodicbatching/PeriodicBatchingSink.java:105-110 | after a full batch that emitBatch accepted, the tick goes round again on the rest of the queue |
| Batching.CyclesLast | src/serilogj/sinks/periodicbatching/PeriodicBatchingSink.java:99-115 | any other cycle is the tick's last: an empty batch hands over nothing, otherwise exactly that batch |
| Batching.CyclesBatchSizes | src/serilogj/sinks/periodicbatching/PeriodicBatchingSink.java:92-110 | every emitted batch is within the limit |
| Batching.Finished | src/serilogj/sinks/periodicbatching/PeriodicBatchingSink.java:116-124 | the finally block drops the batch and the queue when the failures call for it |
| Batching.PeriodicBatchingSink.Create | src/serilogj/sinks/periodicbatching/PeriodicBatchingSink.java:53-66 | a zero period throws; otherwise empty queue and batch and one timer for the period |
| Batching.PeriodicBatchingSink.Emit | src/serilogj/sinks/periodicbatching/PeriodicBatchingSink.java:69-79 | an event is queued unless the sink is unloading |
| Batching.PeriodicBatchingSink.Execute | src/serilogj/sinks/periodicbatching/PeriodicBatchingSink.java:89-129 | execute runs `Cycles` then `Finished`, and schedules the next interval unless unloading, also when an Error escapes; it returns the batches handed over and the escaping Error |
| Batching.PeriodicBatchingSink.RunCycles | src/serilogj/sinks/periodicbatching/PeriodicBatchingSink.java:91-115 | the do/while of drain and emitBatch computes `Cycles`: an Exception counts one failure, an Error counts none and is returned |
| Batching.PeriodicBatchingSink.DrainLoop | src/serilogj/sinks/periodicbatching/PeriodicBatchingSink.java:94-98 | the poll loop computes `Drain` |
| Batching.PeriodicBatchingSink.Close | src/serilogj/sinks/periodicbatching/PeriodicBatchingSink.java:132-148 | the first close marks unloading and runs a last execute; later ones do nothing; an Error from that execute is returned |

## Left out

- Dates, times and floating-point numbers are not formatted in the model. The formatters take their text as parameters: `Json.Formats` and `TextFormatter.Platform`.
- Values.RenderScalar: a `Date` with a non-empty format goes through `SimpleDateFormat` in ScalarValue.java:36-53. The model writes its `toString` text instead.
- The `Timestamp` output property's `Date.toString` text, the line separator and an exception's stack trace come from `Platform`. They are left opaque.
- Locales are ignored. Case mapping is the ASCII one.
- File and network I/O, threads, locks, the scheduled executor and `SelfLog` are not modelled. The rolling sink takes the directory listing and the outcome of each open as parameters. The batching sink's timer is a list of scheduled delays. Deleting a file always succeeds, because a failed delete is only logged.
- Every `IllegalArgumentException` thrown for a `null` argument is excluded by Dafny's non-null types.
- Json.WriteProperties: a Java `HashMap`'s iteration order is a parameter (`order`, constrained by `IsOrder`). The other HashMaps below get a fixed order in the model instead.
- Converter.EntriesPointwise: the dictionary keeps the source map's entry order. Java puts the entries into a `HashMap` (PropertyValueConverter.java:167-170), which iterates in key-hash order. So a rendered dictionary may list its entries in a different order from Java's. Which keys map to which values is modelled.
- Reflection.DescriptorCache.GetProperties: the descriptor lists fields, then getters, in declaration order (`Reflection.Descriptor`). Java's `HashMap`s (Reflection.java:104, 143) iterate by alias hash, so a structure's properties may come in another order than Java's. Which aliases there are, and which accessor each reads, is modelled.
- Context.LogContext.GetEnrichers: the result is newest first. Java returns `HashMap.values()`, in name-hash order. The model proves one enricher per name and that it is the latest pushed; the order is not part of that.
- Values.SameKey: two dictionary keys are the same only when both are null. ScalarValue.equals compares payloads by reference, so Java also merges two keys whose conversions return the same `String` object, such as an interned literal. The model keeps those as separate entries.
- Values.ToString: an array's `toString` is its class name and "@", without the identity hash code, because that hash depends on the object's identity.
- Chars.IsLetterOrDigit: only ASCII letters and digits. Java's `Character.isLetterOrDigit` and `Character.isDigit` accept all Unicode letters and decimal digits, and `Integer.parseInt` reads any Unicode decimal digit. So a tag holding a non-ASCII letter or digit, such as "{Größe}" or "{٣}", is text in the model where Java makes it a property token.
- Parser.TagEnd: the scan stops at the first character that is not an ASCII letter or digit (or an allowed punctuation mark), so a tag with a non-ASCII letter becomes text.
- Parser.AlignmentRules: only ASCII digits are accepted in an alignment width.
- Parser.InvalidPartsAreText: "invalid" uses the ASCII character classes, so a name with a non-ASCII letter is text here but a property in Java.
- Tokens.Position: only ASCII digits make a name positional. Java's `Integer.parseInt` also reads other Unicode decimal digits, so "٣" (Arabic-Indic three) is position 3 there.
- `JsonFormatter.writeRenderings` is not modelled: its body is empty. `writeTemporal`'s exception path is not modelled either.
- Roller.NewRoller: `user.dir` is the parameter `workingDirectory`, and `File.getCanonicalPath` is the parameter `canonical` (None when it throws an IOException). Both are also parameters of `Rolling.RollingFileSink.Create`. `java.io.File`'s normalisation is modelled for the Unix separator '/' only (`Roller.Normalize`).
- Roller: `getDirectorySearchPattern` is not modelled, because nothing in the core reads it.
- Policies.EnumScalarPolicy.TryConvert: the memo is keyed by class name and ordinal, not by object identity.
- Converter.CustomPolicies: user destructuring policies are total functions. A policy that throws is not modelled.
- Converter.CustomPolicyDecides: a user policy gets only the value, not the depth-limiting factory that `PropertyValueConverter.java:157` passes to `tryDestructure`. So in the model its result cannot depend on the remaining depth, and it cannot hand parts of the value back to the converter.
- Reflection: an exception while reading a field or getter is not modelled. Readings are given with the object.
- Converter.ConvertWithin: the depth bound is proved only without user policies, which may return values of any depth.
- Pipeline.AggregateReachesAll: the aggregate sink's own copy of the sink array is not modelled separately from the sink list.
- Templates.NewMessageTemplate: the "Unassigned positional value" diagnostic is a flag. SelfLog's text is not modelled.
- LogContextEnricher and SecondaryLoggerSink are not part of this model. Their job is covered by `Context.LogContext.GetEnrichers` and `Pipeline.ForContext`.
- Pipeline.Process: the logger parses with the parser directly, not through `MessageTemplateCache`. The cache gives the same result (`Cache.MessageTemplateCache.Parse`).
- Pipeline.Passes: filters, enrichers and emitBatch can throw only the failures listed in `Wrappers.Failure`, a closed set that stands for Java's open hierarchy of exceptions and errors; of these only `StackOverflow` is an Error.
- Json.Format: a `StringWriter`, as used by `ColoredConsoleSink.java:123`, appends the text "null" for a null closing delimiter instead of throwing. The model follows the file writers only.
- Parser.ParseTemplate: token start indices count characters, not UTF-16 code units, so they differ from Java's for text before a supplementary character.
- Batching.ConnectionStatus.MarkFailure: the failure count is an unbounded integer. Java's 32-bit wrap-around after 2^31 failures is not modelled.
- Batching.PeriodicBatchingSink.Execute: `onEmptyBatch` is a no-op in the base class, and it is not modelled.
- Constants.java is not part of this model. The source-context property name is a parameter of `Pipeline.ForContextClass`.
- FileSink's writing and size limit are not modelled, because they are I/O.
- Display.ShortLevelFor: the out-of-range branch that returns "" cannot be reached with six levels, so it is not modelled.
