/**
 * The validators of the newer router package: the recursive option tree of a
 * slash command, the five inbound interaction shapes and the three outbound
 * response shapes. Each zod schema becomes a `Parse…` function from a raw
 * `Json` value to a typed value; `Nothing` is a rejected payload. Objects are
 * read the way zod reads them: declared keys are checked, undeclared keys are
 * dropped.
 */
module Schema {
  import opened Wrappers
  import opened Json

  // Discriminator values of the Discord interactions API.
  const PING: int := 1
  const APPLICATION_COMMAND: int := 2
  const MESSAGE_COMPONENT: int := 3
  const APPLICATION_COMMAND_AUTOCOMPLETE: int := 4
  const MODAL_SUBMIT: int := 5

  const PONG: int := 1
  const CHANNEL_MESSAGE_WITH_SOURCE: int := 4
  const APPLICATION_COMMAND_AUTOCOMPLETE_RESULT: int := 8
  const MODAL: int := 9

  const ACTION_ROW: int := 1
  const BUTTON: int := 2
  const STRING_SELECT: int := 3
  const INPUT_TEXT: int := 4

  const EPHEMERAL: int := 64

  // ---------------------------------------------------------------------
  // Property readers: z.string(), z.number(), z.boolean(), .optional(), arrays
  // ---------------------------------------------------------------------

  function AsString(j: Json): Maybe<string> { if j.JStr? then Just(j.s) else Nothing }
  function AsNumber(j: Json): Maybe<int> { if j.JNum? then Just(j.n) else Nothing }
  function AsBool(j: Json): Maybe<bool> { if j.JBool? then Just(j.b) else Nothing }

  /** `z.literal(n)` on property `key`. */
  predicate HasTag(j: Json, key: string, n: int) { Get(j, key) == Just(JNum(n)) }

  /** Property `key` is present with a value of the given JSON kind. */
  predicate StrAt(j: Json, key: string) { Get(j, key).Just? && Get(j, key).value.JStr? }
  predicate NumAt(j: Json, key: string) { Get(j, key).Just? && Get(j, key).value.JNum? }
  predicate BoolAt(j: Json, key: string) { Get(j, key).Just? && Get(j, key).value.JBool? }

  /** The optional `focused` flag as it appears on the wire. */
  function FocusedOnWire(focused: Maybe<bool>): Maybe<Json>
  {
    match focused
    case Just(b) => Just(JBool(b))
    case Nothing => Nothing
  }

  /** A required property validated by `f`. */
  function Req<T>(j: Json, key: string, f: Json -> Maybe<T>): Maybe<T>
  {
    match Get(j, key)
    case Just(v) => f(v)
    case Nothing => Nothing
  }

  /** An optional property: `Just(Nothing)` when absent, `Nothing` when present but rejected. */
  function Opt<T>(j: Json, key: string, f: Json -> Maybe<T>): Maybe<Maybe<T>>
  {
    match Get(j, key)
    case Nothing => Just(Nothing)
    case Just(v) =>
      match f(v)
      case Just(x) => Just(Just(x))
      case Nothing => Nothing
  }

  /** `z.array(f)`: every element must be accepted, in order. */
  function ParseEach<T>(items: seq<Json>, f: Json -> Maybe<T>): (r: Maybe<seq<T>>)
    ensures r.Just? <==> forall k :: 0 <= k < |items| ==> f(items[k]).Just?
    ensures r.Just? ==> |r.value| == |items| && forall k :: 0 <= k < |items| ==> f(items[k]) == Just(r.value[k])
  {
    if forall k :: 0 <= k < |items| ==> f(items[k]).Just? then
      Just(seq(|items|, k requires 0 <= k < |items| => f(items[k]).value))
    else
      Nothing
  }

  function ArrayOf<T>(j: Json, f: Json -> Maybe<T>): Maybe<seq<T>>
  {
    if j.JArr? then ParseEach(j.items, f) else Nothing
  }

  // ---------------------------------------------------------------------
  // Option tree
  // ---------------------------------------------------------------------

  /** One node of a command's argument tree. */
  datatype Option =
    | Subcommand(name: string, flags: OptionalOptions)
    | SubcommandGroup(name: string, children: seq<Option>)
    | StringOption(name: string, text: string, focused: Maybe<bool>)
    | IntegerOption(name: string, number: int, focused: Maybe<bool>)
    | BooleanOption(name: string, flag: bool)
    | UserOption(name: string, userId: string)

  /** A subcommand's `options` property, which may be omitted. */
  datatype OptionalOptions = Omitted | Given(items: seq<Option>)

  /** The wire `type` of each option kind. */
  function OptionType(o: Option): int
  {
    match o
    case Subcommand(_, _) => 1
    case SubcommandGroup(_, _) => 2
    case StringOption(_, _, _) => 3
    case IntegerOption(_, _, _) => 4
    case BooleanOption(_, _) => 5
    case UserOption(_, _) => 6
  }

  predicate IsFlagOption(o: Option) { 3 <= OptionType(o) <= 6 }
  predicate IsSubcommandOption(o: Option) { o.Subcommand? || o.SubcommandGroup? }

  /**
   * The nesting rules: a subcommand holds only value options, a group holds
   * at least one subcommand or group, recursively valid.
   */
  predicate ValidOption(o: Option)
  {
    match o
    case Subcommand(_, flags) =>
      flags.Omitted? || forall k :: 0 <= k < |flags.items| ==> IsFlagOption(flags.items[k])
    case SubcommandGroup(_, children) =>
      |children| >= 1 &&
      forall k :: 0 <= k < |children| ==> IsSubcommandOption(children[k]) && ValidOption(children[k])
    case _ => true
  }

  /** The options a subcommand or group passes down (`options ?? []`). */
  function NestedOptions(o: Option): (r: seq<Option>)
    ensures o.SubcommandGroup? ==> r == o.children
    ensures o.Subcommand? && o.flags.Given? ==> r == o.flags.items
    ensures (o.Subcommand? && o.flags.Omitted?) || IsFlagOption(o) ==> r == []
  {
    match o
    case Subcommand(_, Given(fs)) => fs
    case SubcommandGroup(_, cs) => cs
    case _ => []
  }

  function ParseStringOption(j: Json): (r: Maybe<Option>)
    ensures r.Just? ==> r.value.StringOption? && HasTag(j, "type", 3)
    ensures r.Just? ==> Get(j, "name") == Just(JStr(r.value.name)) && Get(j, "value") == Just(JStr(r.value.text))
                        && Get(j, "focused") == FocusedOnWire(r.value.focused)
    ensures r.Just? <==> j.JObj? && HasTag(j, "type", 3) && StrAt(j, "name") && StrAt(j, "value")
                         && (Get(j, "focused").Nothing? || BoolAt(j, "focused"))
  {
    var value := Req(j, "value", AsString);
    var focused := Opt(j, "focused", AsBool);
    var name := Req(j, "name", AsString);
    if j.JObj? && HasTag(j, "type", 3) && value.Just? && focused.Just? && name.Just? then
      Just(StringOption(name.value, value.value, focused.value))
    else
      Nothing
  }

  function ParseIntegerOption(j: Json): (r: Maybe<Option>)
    ensures r.Just? ==> r.value.IntegerOption? && HasTag(j, "type", 4)
    ensures r.Just? ==> Get(j, "name") == Just(JStr(r.value.name)) && Get(j, "value") == Just(JNum(r.value.number))
                        && Get(j, "focused") == FocusedOnWire(r.value.focused)
    ensures r.Just? <==> j.JObj? && HasTag(j, "type", 4) && StrAt(j, "name") && NumAt(j, "value")
                         && (Get(j, "focused").Nothing? || BoolAt(j, "focused"))
  {
    var value := Req(j, "value", AsNumber);
    var focused := Opt(j, "focused", AsBool);
    var name := Req(j, "name", AsString);
    if j.JObj? && HasTag(j, "type", 4) && value.Just? && focused.Just? && name.Just? then
      Just(IntegerOption(name.value, value.value, focused.value))
    else
      Nothing
  }

  function ParseBooleanOption(j: Json): (r: Maybe<Option>)
    ensures r.Just? ==> r.value.BooleanOption? && HasTag(j, "type", 5)
    ensures r.Just? ==> Get(j, "name") == Just(JStr(r.value.name)) && Get(j, "value") == Just(JBool(r.value.flag))
    ensures r.Just? <==> j.JObj? && HasTag(j, "type", 5) && StrAt(j, "name") && BoolAt(j, "value")
  {
    var value := Req(j, "value", AsBool);
    var name := Req(j, "name", AsString);
    if j.JObj? && HasTag(j, "type", 5) && value.Just? && name.Just? then
      Just(BooleanOption(name.value, value.value))
    else
      Nothing
  }

  function ParseUserOption(j: Json): (r: Maybe<Option>)
    ensures r.Just? ==> r.value.UserOption? && HasTag(j, "type", 6)
    ensures r.Just? ==> Get(j, "name") == Just(JStr(r.value.name)) && Get(j, "value") == Just(JStr(r.value.userId))
    ensures r.Just? <==> j.JObj? && HasTag(j, "type", 6) && StrAt(j, "name") && StrAt(j, "value")
  {
    var value := Req(j, "value", AsString);
    var name := Req(j, "name", AsString);
    if j.JObj? && HasTag(j, "type", 6) && value.Just? && name.Just? then
      Just(UserOption(name.value, value.value))
    else
      Nothing
  }

  /** `flagOption`: the value options, discriminated by `type` 3 to 6. */
  function ParseFlagOption(j: Json): (r: Maybe<Option>)
    ensures r.Just? ==> IsFlagOption(r.value) && HasTag(j, "type", OptionType(r.value))
    ensures r.Just? ==> Get(j, "name") == Just(JStr(r.value.name))
  {
    match Get(j, "type")
    case Just(JNum(3)) => ParseStringOption(j)
    case Just(JNum(4)) => ParseIntegerOption(j)
    case Just(JNum(5)) => ParseBooleanOption(j)
    case Just(JNum(6)) => ParseUserOption(j)
    case _ => Nothing
  }

  /** `subcommand`: type 1, a name, and optionally an array of value options. */
  function ParseSubcommand(j: Json): (r: Maybe<Option>)
    ensures r.Just? ==> r.value.Subcommand? && ValidOption(r.value) && HasTag(j, "type", 1)
    ensures r.Just? ==> Get(j, "name") == Just(JStr(r.value.name))
  {
    var name := Req(j, "name", AsString);
    if j.JObj? && HasTag(j, "type", 1) && name.Just? then
      match Get(j, "options")
      case Nothing => Just(Subcommand(name.value, Omitted))
      case Just(JArr(items)) =>
        if forall k :: 0 <= k < |items| ==> ParseFlagOption(items[k]).Just? then
          Just(Subcommand(name.value, Given(seq(|items|, k requires 0 <= k < |items| => ParseFlagOption(items[k]).value))))
        else
          Nothing
      case _ => Nothing
    else
      Nothing
  }

  /** `subcommandGroup`: type 2, a name, and at least one subcommand or group. */
  function ParseSubcommandGroup(j: Json): (r: Maybe<Option>)
    ensures r.Just? ==> r.value.SubcommandGroup? && ValidOption(r.value) && HasTag(j, "type", 2)
    ensures r.Just? ==> Get(j, "name") == Just(JStr(r.value.name))
    decreases j, 0
  {
    var name := Req(j, "name", AsString);
    if j.JObj? && HasTag(j, "type", 2) && name.Just? then
      match Get(j, "options")
      case Just(JArr(items)) =>
        if |items| >= 1 && forall k :: 0 <= k < |items| ==> ParseSubcommandOption(items[k]).Just? then
          Just(SubcommandGroup(name.value, seq(|items|, k requires 0 <= k < |items| => ParseSubcommandOption(items[k]).value)))
        else
          Nothing
      case _ => Nothing
    else
      Nothing
  }

  /** `subcommandOption`: a subcommand or a group, discriminated by `type`. */
  function ParseSubcommandOption(j: Json): (r: Maybe<Option>)
    ensures r.Just? ==> IsSubcommandOption(r.value) && ValidOption(r.value)
    ensures r.Just? ==> HasTag(j, "type", OptionType(r.value)) && Get(j, "name") == Just(JStr(r.value.name))
    decreases j, 1
  {
    match Get(j, "type")
    case Just(JNum(1)) => ParseSubcommand(j)
    case Just(JNum(2)) => ParseSubcommandGroup(j)
    case _ => Nothing
  }

  /** `option`: the union of the container kinds and the value kinds. */
  function ParseOption(j: Json): (r: Maybe<Option>)
    ensures r.Just? ==> ValidOption(r.value)
    ensures r.Just? ==> HasTag(j, "type", OptionType(r.value)) && Get(j, "name") == Just(JStr(r.value.name))
  {
    match ParseSubcommandOption(j)
    case Just(o) => Just(o)
    case Nothing => ParseFlagOption(j)
  }

  /** The wire form of an option: the inverse of `ParseOption` on valid trees. */
  function EncodeOption(o: Option): Json
  {
    match o
    case Subcommand(n, Omitted) =>
      JObj(map["type" := JNum(1), "name" := JStr(n)])
    case Subcommand(n, Given(fs)) =>
      JObj(map["type" := JNum(1), "name" := JStr(n),
               "options" := JArr(seq(|fs|, k requires 0 <= k < |fs| => EncodeOption(fs[k])))])
    case SubcommandGroup(n, cs) =>
      JObj(map["type" := JNum(2), "name" := JStr(n),
               "options" := JArr(seq(|cs|, k requires 0 <= k < |cs| => EncodeOption(cs[k])))])
    case StringOption(n, v, f) =>
      JObj(map["type" := JNum(3), "name" := JStr(n), "value" := JStr(v)] + FocusedField(f))
    case IntegerOption(n, v, f) =>
      JObj(map["type" := JNum(4), "name" := JStr(n), "value" := JNum(v)] + FocusedField(f))
    case BooleanOption(n, v) =>
      JObj(map["type" := JNum(5), "name" := JStr(n), "value" := JBool(v)])
    case UserOption(n, v) =>
      JObj(map["type" := JNum(6), "name" := JStr(n), "value" := JStr(v)])
  }

  function FocusedField(f: Maybe<bool>): map<string, Json>
  {
    match f
    case Nothing => map[]
    case Just(b) => map["focused" := JBool(b)]
  }

  lemma FocusedRoundTrip(base: map<string, Json>, f: Maybe<bool>)
    requires "focused" !in base
    ensures Opt(JObj(base + FocusedField(f)), "focused", AsBool) == Just(f)
    ensures forall key :: key in base ==> Get(JObj(base + FocusedField(f)), key) == Just(base[key])
  {
  }

  lemma FlagRoundTrip(o: Option)
    requires IsFlagOption(o)
    ensures ParseFlagOption(EncodeOption(o)) == Just(o)
  {
    match o
    case StringOption(n, v, f) =>
      StringOptionRoundTrip(n, v, f);
    case IntegerOption(n, v, f) =>
      IntegerOptionRoundTrip(n, v, f);
    case BooleanOption(n, v) =>
    case UserOption(n, v) =>
  }

  lemma StringOptionRoundTrip(n: string, v: string, f: Maybe<bool>)
    ensures ParseStringOption(EncodeOption(StringOption(n, v, f))) == Just(StringOption(n, v, f))
  {
    FocusedRoundTrip(map["type" := JNum(3), "name" := JStr(n), "value" := JStr(v)], f);
  }

  lemma IntegerOptionRoundTrip(n: string, v: int, f: Maybe<bool>)
    ensures ParseIntegerOption(EncodeOption(IntegerOption(n, v, f))) == Just(IntegerOption(n, v, f))
  {
    FocusedRoundTrip(map["type" := JNum(4), "name" := JStr(n), "value" := JNum(v)], f);
  }

  /** Encoding a valid subcommand or group and validating it gives it back. */
  lemma {:induction false} SubcommandOptionRoundTrip(o: Option)
    requires IsSubcommandOption(o) && ValidOption(o)
    ensures ParseSubcommandOption(EncodeOption(o)) == Just(o)
  {
    match o
    case Subcommand(n, Omitted) =>
    case Subcommand(n, Given(fs)) =>
      var items := seq(|fs|, k requires 0 <= k < |fs| => EncodeOption(fs[k]));
      forall k | 0 <= k < |fs| ensures ParseFlagOption(items[k]) == Just(fs[k]) {
        FlagRoundTrip(fs[k]);
      }
      assert seq(|items|, k requires 0 <= k < |items| => ParseFlagOption(items[k]).value) == fs;
    case SubcommandGroup(n, cs) =>
      var items := seq(|cs|, k requires 0 <= k < |cs| => EncodeOption(cs[k]));
      forall k | 0 <= k < |cs| ensures ParseSubcommandOption(items[k]) == Just(cs[k]) {
        SubcommandOptionRoundTrip(cs[k]);
      }
      assert seq(|items|, k requires 0 <= k < |items| => ParseSubcommandOption(items[k]).value) == cs;
  }

  /** Every valid option tree survives encoding and validation unchanged. */
  lemma OptionRoundTrip(o: Option)
    requires ValidOption(o)
    ensures ParseOption(EncodeOption(o)) == Just(o)
  {
    if IsSubcommandOption(o) {
      SubcommandOptionRoundTrip(o);
    } else {
      FlagRoundTrip(o);
      assert ParseSubcommandOption(EncodeOption(o)) == Nothing;
    }
  }

  /**
   * The union of `subcommand` and `subcommandGroup` accepts exactly the
   * well-formed containers: a value option, a subcommand holding a container, or an empty
   * group anywhere in the tree makes it throw.
   */
  lemma {:induction false} SubgroupAcceptsExactlyValidContainers(o: Option)
    ensures ParseSubcommandOption(EncodeOption(o)).Just? <==> IsSubcommandOption(o) && ValidOption(o)
  {
    if IsSubcommandOption(o) && ValidOption(o) {
      SubcommandOptionRoundTrip(o);
    } else {
      var r := ParseSubcommandOption(EncodeOption(o));
      if r.Just? {
        ParsedEncodingIsSource(o);
      }
    }
  }

  /** What the schema accepts from an encoded option is the option itself. */
  lemma {:induction false} ParsedEncodingIsSource(o: Option)
    requires ParseSubcommandOption(EncodeOption(o)).Just?
    ensures ParseSubcommandOption(EncodeOption(o)) == Just(o)
  {
    match o
    case Subcommand(n, Omitted) =>
    case Subcommand(n, Given(fs)) =>
      var items := seq(|fs|, k requires 0 <= k < |fs| => EncodeOption(fs[k]));
      assert Get(EncodeOption(o), "options") == Just(JArr(items));
      forall k | 0 <= k < |fs| ensures ParseFlagOption(items[k]) == Just(fs[k]) {
        assert ParseFlagOption(items[k]).Just?;
        ParsedFlagIsSource(fs[k]);
      }
      assert seq(|items|, k requires 0 <= k < |items| => ParseFlagOption(items[k]).value) == fs;
    case SubcommandGroup(n, cs) =>
      var items := seq(|cs|, k requires 0 <= k < |cs| => EncodeOption(cs[k]));
      assert Get(EncodeOption(o), "options") == Just(JArr(items));
      forall k | 0 <= k < |cs| ensures ParseSubcommandOption(items[k]) == Just(cs[k]) {
        assert ParseSubcommandOption(items[k]).Just?;
        ParsedEncodingIsSource(cs[k]);
      }
      assert seq(|items|, k requires 0 <= k < |items| => ParseSubcommandOption(items[k]).value) == cs;
    case StringOption(_, _, _) =>
    case IntegerOption(_, _, _) =>
    case BooleanOption(_, _) =>
    case UserOption(_, _) =>
  }

  lemma ParsedFlagIsSource(o: Option)
    requires ParseFlagOption(EncodeOption(o)).Just?
    ensures IsFlagOption(o) && ParseFlagOption(EncodeOption(o)) == Just(o)
  {
    match o
    case Subcommand(_, Omitted) =>
    case Subcommand(_, Given(_)) =>
    case SubcommandGroup(_, _) =>
    case _ => FlagRoundTrip(o);
  }

  /**
   * Validation is all-or-nothing: one rejected node anywhere among a
   * group's children rejects the whole group.
   */
  lemma GroupRejectsOnAnyChild(j: Json, k: nat)
    requires HasTag(j, "type", 2)
    requires Get(j, "options").Just? && Get(j, "options").value.JArr?
    requires k < |Get(j, "options").value.items|
    requires ParseSubcommandOption(Get(j, "options").value.items[k]).Nothing?
    ensures ParseSubcommandGroup(j).Nothing? && ParseOption(j).Nothing?
  {
  }

  /** Likewise one rejected value option rejects the subcommand holding it. */
  lemma SubcommandRejectsOnAnyFlag(j: Json, k: nat)
    requires HasTag(j, "type", 1)
    requires Get(j, "options").Just? && Get(j, "options").value.JArr?
    requires k < |Get(j, "options").value.items|
    requires ParseFlagOption(Get(j, "options").value.items[k]).Nothing?
    ensures ParseSubcommand(j).Nothing? && ParseOption(j).Nothing?
  {
  }

  // ---------------------------------------------------------------------
  // Inbound interactions
  // ---------------------------------------------------------------------

  /** `member`: the invoking guild member's user id and name. */
  datatype Member = Member(userId: string, username: string)

  /** `messageData`: the invoked command's name and its options. */
  datatype MessageData = MessageData(kind: int, name: string, options: Maybe<seq<Option>>)

  datatype ComponentData = ComponentData(componentType: int, customId: string, values: Maybe<seq<string>>)

  /** `message.interaction`: the command that produced the clicked message. */
  datatype MessageOrigin = MessageOrigin(name: string, kind: int, userId: string)

  /** One modal row: its single text input's custom id and submitted value. */
  datatype TextValue = TextValue(customId: string, value: string)

  datatype Interaction =
    | Ping
    | ApplicationCommand(member: Member, guildId: string, data: MessageData)
    | MessageComponent(member: Member, guildId: string, origin: Maybe<MessageOrigin>, component: ComponentData)
    | Autocomplete(guildId: string, data: MessageData)
    | ModalSubmit(member: Member, guildId: string, customId: string, rows: seq<TextValue>)

  function InteractionType(i: Interaction): int
  {
    match i
    case Ping => PING
    case ApplicationCommand(_, _, _) => APPLICATION_COMMAND
    case MessageComponent(_, _, _, _) => MESSAGE_COMPONENT
    case Autocomplete(_, _) => APPLICATION_COMMAND_AUTOCOMPLETE
    case ModalSubmit(_, _, _, _) => MODAL_SUBMIT
  }

  predicate ValidOptions(os: Maybe<seq<Option>>)
  {
    os.Nothing? || forall k :: 0 <= k < |os.value| ==> ValidOption(os.value[k])
  }

  predicate ValidInteraction(i: Interaction)
  {
    match i
    case ApplicationCommand(_, _, data) => ValidOptions(data.options)
    case Autocomplete(_, data) => ValidOptions(data.options)
    case ModalSubmit(_, _, _, rows) => 1 <= |rows| <= 5
    case _ => true
  }

  function ParseUser(j: Json): Maybe<string>
  {
    if j.JObj? then Req(j, "id", AsString) else Nothing
  }

  function ParseMember(j: Json): Maybe<Member>
  {
    match Get(j, "user")
    case Just(u) =>
      var id := Req(u, "id", AsString);
      var username := Req(u, "username", AsString);
      if j.JObj? && u.JObj? && id.Just? && username.Just? then Just(Member(id.value, username.value)) else Nothing
    case Nothing => Nothing
  }

  function ParseMessageData(j: Json): (r: Maybe<MessageData>)
    ensures r.Just? ==> ValidOptions(r.value.options)
  {
    var kind := Req(j, "type", AsNumber);
    var name := Req(j, "name", AsString);
    if j.JObj? && kind.Just? && name.Just? then
      match Get(j, "options")
      case Nothing => Just(MessageData(kind.value, name.value, Nothing))
      case Just(JArr(items)) =>
        if forall k :: 0 <= k < |items| ==> ParseOption(items[k]).Just? then
          Just(MessageData(kind.value, name.value, Just(seq(|items|, k requires 0 <= k < |items| => ParseOption(items[k]).value))))
        else
          Nothing
      case _ => Nothing
    else
      Nothing
  }

  function ParseComponentData(j: Json): Maybe<ComponentData>
  {
    var kind := Req(j, "component_type", AsNumber);
    var id := Req(j, "custom_id", AsString);
    var values := Opt(j, "values", (v: Json) => ArrayOf(v, AsString));
    if j.JObj? && kind.Just? && id.Just? && values.Just? then
      Just(ComponentData(kind.value, id.value, values.value))
    else
      Nothing
  }

  function ParseOrigin(j: Json): Maybe<MessageOrigin>
  {
    var name := Req(j, "name", AsString);
    var kind := Req(j, "type", AsNumber);
    var user := Req(j, "user", ParseUser);
    if j.JObj? && name.Just? && kind.Just? && user.Just? then Just(MessageOrigin(name.value, kind.value, user.value)) else Nothing
  }

  /** A modal row: type 1 holding exactly one type-4 text input with a string value. */
  function ParseModalRow(j: Json): (r: Maybe<TextValue>)
    ensures r.Just? ==> j.JObj? && HasTag(j, "type", 1) && ModalRowInput(j).Just?
    ensures r.Just? ==> var input := ModalRowInput(j).value;
                        HasTag(input, "type", 4) && Get(input, "custom_id") == Just(JStr(r.value.customId))
                        && Get(input, "value") == Just(JStr(r.value.value))
  {
    match Get(j, "components")
    case Just(JArr(inputs)) =>
      if j.JObj? && HasTag(j, "type", 1) && |inputs| == 1 then
        var input := inputs[0];
        var id := Req(input, "custom_id", AsString);
        var value := Req(input, "value", AsString);
        if input.JObj? && HasTag(input, "type", 4) && id.Just? && value.Just? then
          Just(TextValue(id.value, value.value))
        else
          Nothing
      else
        Nothing
    case _ => Nothing
  }

  /** The row's only input, when `components` is an array of exactly one element. */
  function ModalRowInput(j: Json): Maybe<Json>
  {
    match Get(j, "components")
    case Just(JArr(inputs)) => if |inputs| == 1 then Just(inputs[0]) else Nothing
    case _ => Nothing
  }

  function ParsePing(j: Json): Maybe<Interaction>
  {
    if j.JObj? && HasTag(j, "type", PING) then Just(Ping) else Nothing
  }

  function ParseApplicationCommand(j: Json): (r: Maybe<Interaction>)
    ensures r.Just? ==> r.value.ApplicationCommand? && ValidInteraction(r.value)
  {
    var member := Req(j, "member", ParseMember);
    var guild := Req(j, "guild_id", AsString);
    var data := Req(j, "data", ParseMessageData);
    if j.JObj? && HasTag(j, "type", APPLICATION_COMMAND) && member.Just? && guild.Just? && data.Just? then
      Just(ApplicationCommand(member.value, guild.value, data.value))
    else
      Nothing
  }

  function ParseMessageComponent(j: Json): (r: Maybe<Interaction>)
    ensures r.Just? ==> r.value.MessageComponent?
  {
    var member := Req(j, "member", ParseMember);
    var guild := Req(j, "guild_id", AsString);
    var message := Get(j, "message");
    var origin := if message.Just? then Opt(message.value, "interaction", ParseOrigin) else Nothing;
    var data := Req(j, "data", ParseComponentData);
    if j.JObj? && HasTag(j, "type", MESSAGE_COMPONENT) && member.Just? && guild.Just?
       && message.Just? && message.value.JObj? && origin.Just? && data.Just? then
      Just(MessageComponent(member.value, guild.value, origin.value, data.value))
    else
      Nothing
  }

  function ParseAutocomplete(j: Json): (r: Maybe<Interaction>)
    ensures r.Just? ==> r.value.Autocomplete? && ValidInteraction(r.value)
  {
    var guild := Req(j, "guild_id", AsString);
    var data := Req(j, "data", ParseMessageData);
    if j.JObj? && HasTag(j, "type", APPLICATION_COMMAND_AUTOCOMPLETE) && guild.Just? && data.Just? then
      Just(Autocomplete(guild.value, data.value))
    else
      Nothing
  }

  function ParseModalSubmit(j: Json): (r: Maybe<Interaction>)
    ensures r.Just? ==> r.value.ModalSubmit? && ValidInteraction(r.value)
    ensures r.Just? ==> Get(j, "data").Just? && var data := Get(j, "data").value;
                        Get(data, "custom_id") == Just(JStr(r.value.customId))
                        && Get(data, "components").Just? && Get(data, "components").value.JArr?
                        && var items := Get(data, "components").value.items;
                           |items| == |r.value.rows|
                           && forall k :: 0 <= k < |items| ==> ParseModalRow(items[k]) == Just(r.value.rows[k])
  {
    var member := Req(j, "member", ParseMember);
    var guild := Req(j, "guild_id", AsString);
    var data := Get(j, "data");
    var id := if data.Just? then Req(data.value, "custom_id", AsString) else Nothing;
    var rows := if data.Just? then Req(data.value, "components", (c: Json) => ArrayOf(c, ParseModalRow)) else Nothing;
    if j.JObj? && HasTag(j, "type", MODAL_SUBMIT) && member.Just? && guild.Just? && data.Just? && data.value.JObj?
       && id.Just? && rows.Just? && 1 <= |rows.value| <= 5 then
      Just(ModalSubmit(member.value, guild.value, id.value, rows.value))
    else
      Nothing
  }

  /**
   * `interaction`: discriminated by `type` alone. The variant chosen is the
   * one the tag names, and a tag outside 1 to 5 is rejected.
   */
  function ParseInteraction(j: Json): (r: Maybe<Interaction>)
    ensures r.Just? ==> ValidInteraction(r.value)
    ensures r.Just? ==> HasTag(j, "type", InteractionType(r.value))
  {
    match Get(j, "type")
    case Just(JNum(1)) => ParsePing(j)
    case Just(JNum(2)) => ParseApplicationCommand(j)
    case Just(JNum(3)) => ParseMessageComponent(j)
    case Just(JNum(4)) => ParseAutocomplete(j)
    case Just(JNum(5)) => ParseModalSubmit(j)
    case _ => Nothing
  }

  /** A tag other than 1 to 5 (or no tag at all) is always rejected. */
  lemma UnknownInteractionTagRejected(j: Json)
    requires forall t :: 1 <= t <= 5 ==> !HasTag(j, "type", t)
    ensures ParseInteraction(j).Nothing?
  {
  }

  /** The wire form of a member. */
  function EncodeMember(m: Member): Json
  {
    JObj(map["user" := JObj(map["id" := JStr(m.userId), "username" := JStr(m.username)])])
  }

  /** The wire form of a command's data. */
  function EncodeMessageData(d: MessageData): Json
  {
    match d.options
    case Nothing => JObj(map["type" := JNum(d.kind), "name" := JStr(d.name)])
    case Just(os) =>
      JObj(map["type" := JNum(d.kind), "name" := JStr(d.name),
               "options" := JArr(seq(|os|, k requires 0 <= k < |os| => EncodeOption(os[k])))])
  }

  /** The wire form of a command or an autocompletion request. */
  function EncodeCommand(i: Interaction): Json
    requires i.ApplicationCommand? || i.Autocomplete?
  {
    match i
    case ApplicationCommand(m, g, d) =>
      JObj(map["type" := JNum(APPLICATION_COMMAND), "member" := EncodeMember(m), "guild_id" := JStr(g),
               "data" := EncodeMessageData(d)])
    case Autocomplete(g, d) =>
      JObj(map["type" := JNum(APPLICATION_COMMAND_AUTOCOMPLETE), "guild_id" := JStr(g), "data" := EncodeMessageData(d)])
  }

  /** Command data with valid options survives encoding and validation unchanged. */
  lemma MessageDataRoundTrip(d: MessageData)
    requires ValidOptions(d.options)
    ensures ParseMessageData(EncodeMessageData(d)) == Just(d)
  {
    if d.options.Just? {
      var os := d.options.value;
      var items := seq(|os|, k requires 0 <= k < |os| => EncodeOption(os[k]));
      forall k | 0 <= k < |items| ensures ParseOption(items[k]) == Just(os[k]) {
        OptionRoundTrip(os[k]);
      }
      assert seq(|items|, k requires 0 <= k < |items| => ParseOption(items[k]).value) == os;
    }
  }

  /**
   * A valid command or autocompletion request survives encoding and
   * validation unchanged, and is read as the variant its tag names.
   */
  lemma CommandRoundTrip(i: Interaction)
    requires i.ApplicationCommand? || i.Autocomplete?
    requires ValidInteraction(i)
    ensures ParseInteraction(EncodeCommand(i)) == Just(i)
  {
    MessageDataRoundTrip(i.data);
  }

  /**
   * In a component interaction both `data.values` and `message.interaction`
   * may be missing: such a payload is accepted with both fields absent.
   */
  lemma ComponentWithoutOptionalFields(m: Member, guild: string, kind: int, id: string)
    ensures ParseInteraction(JObj(map[
      "type" := JNum(3), "member" := EncodeMember(m), "guild_id" := JStr(guild),
      "message" := JObj(map[]),
      "data" := JObj(map["component_type" := JNum(kind), "custom_id" := JStr(id)])]))
      == Just(MessageComponent(m, guild, Nothing, ComponentData(kind, id, Nothing)))
  {
  }

  // ---------------------------------------------------------------------
  // Outbound responses
  // ---------------------------------------------------------------------

  datatype Emoji = Emoji(id: Maybe<string>, name: string, animated: Maybe<bool>)

  datatype SelectOption = SelectOption(labelText: string, value: string, description: Maybe<string>,
                                       emoji: Maybe<Emoji>, isDefault: Maybe<bool>)

  datatype TextInput = TextInput(customId: string, style: int, labelText: string,
                                 minLength: Maybe<int>, maxLength: Maybe<int>, required: Maybe<bool>,
                                 value: Maybe<string>, placeholder: Maybe<string>)

  datatype Component =
    | Button(style: int, labelText: string, emoji: Maybe<Emoji>, customId: Maybe<string>, disabled: Maybe<bool>)
    | StringSelect(selectId: string, placeholder: Maybe<string>, minValues: Maybe<int>, maxValues: Maybe<int>,
                   disabled: Maybe<bool>, options: seq<SelectOption>)
    | TextInputComponent(input: TextInput)

  datatype ActionRow = ActionRow(components: seq<Component>)

  datatype Choice = Choice(name: string, value: string)

  /** `interactionResponse`: exactly one of three kinds. */
  datatype Response =
    | ChannelMessage(content: Maybe<string>, rows: Maybe<seq<ActionRow>>, flags: Maybe<int>)
    | AutocompleteResult(choices: seq<Choice>)
    | Modal(customId: string, title: string, inputs: seq<TextInput>)

  function ResponseType(r: Response): int
  {
    match r
    case ChannelMessage(_, _, _) => CHANNEL_MESSAGE_WITH_SOURCE
    case AutocompleteResult(_) => APPLICATION_COMMAND_AUTOCOMPLETE_RESULT
    case Modal(_, _, _) => MODAL
  }

  /** Text input styles SHORT (1) and PARAGRAPH (2). */
  predicate IsTextStyle(n: int) { n == 1 || n == 2 }
  /** Button styles PRIMARY (1) to LINK (5). */
  predicate IsButtonStyle(n: int) { 1 <= n <= 5 }

  predicate ValidComponent(c: Component)
  {
    match c
    case Button(style, _, _, _, _) => IsButtonStyle(style)
    case StringSelect(_, _, _, _, _, _) => true
    case TextInputComponent(input) => IsTextStyle(input.style)
  }

  predicate ValidResponse(r: Response)
  {
    match r
    case ChannelMessage(_, rows, _) =>
      rows.Nothing? ||
      forall k, m :: 0 <= k < |rows.value| && 0 <= m < |rows.value[k].components| ==> ValidComponent(rows.value[k].components[m])
    case AutocompleteResult(_) => true
    case Modal(_, _, inputs) =>
      1 <= |inputs| <= 5 && forall k :: 0 <= k < |inputs| ==> IsTextStyle(inputs[k].style)
  }

  function ParseEmoji(j: Json): Maybe<Emoji>
  {
    var id := Opt(j, "id", AsString);
    var name := Req(j, "name", AsString);
    var animated := Opt(j, "animated", AsBool);
    if j.JObj? && id.Just? && name.Just? && animated.Just? then Just(Emoji(id.value, name.value, animated.value)) else Nothing
  }

  function ParseSelectOption(j: Json): Maybe<SelectOption>
  {
    var labelText := Req(j, "label", AsString);
    var value := Req(j, "value", AsString);
    var description := Opt(j, "description", AsString);
    var emoji := Opt(j, "emoji", ParseEmoji);
    var isDefault := Opt(j, "default", AsBool);
    if j.JObj? && labelText.Just? && value.Just? && description.Just? && emoji.Just? && isDefault.Just? then
      Just(SelectOption(labelText.value, value.value, description.value, emoji.value, isDefault.value))
    else
      Nothing
  }

  function ParseTextInput(j: Json): (r: Maybe<TextInput>)
    ensures r.Just? ==> IsTextStyle(r.value.style)
  {
    var id := Req(j, "custom_id", AsString);
    var style := Req(j, "style", AsNumber);
    var labelText := Req(j, "label", AsString);
    var minLength := Opt(j, "min_length", AsNumber);
    var maxLength := Opt(j, "max_length", AsNumber);
    var required := Opt(j, "required", AsBool);
    var value := Opt(j, "value", AsString);
    var placeholder := Opt(j, "placeholder", AsString);
    if j.JObj? && HasTag(j, "type", INPUT_TEXT) && id.Just? && style.Just? && IsTextStyle(style.value) && labelText.Just?
       && minLength.Just? && maxLength.Just? && required.Just? && value.Just? && placeholder.Just? then
      Just(TextInput(id.value, style.value, labelText.value, minLength.value, maxLength.value, required.value,
                     value.value, placeholder.value))
    else
      Nothing
  }

  function ParseButton(j: Json): Maybe<Component>
  {
    var style := Req(j, "style", AsNumber);
    var labelText := Req(j, "label", AsString);
    var emoji := Opt(j, "emoji", ParseEmoji);
    var id := Opt(j, "custom_id", AsString);
    var disabled := Opt(j, "disabled", AsBool);
    if j.JObj? && HasTag(j, "type", BUTTON) && style.Just? && IsButtonStyle(style.value) && labelText.Just?
       && emoji.Just? && id.Just? && disabled.Just? then
      Just(Button(style.value, labelText.value, emoji.value, id.value, disabled.value))
    else
      Nothing
  }

  function ParseStringSelect(j: Json): Maybe<Component>
  {
    var id := Req(j, "custom_id", AsString);
    var placeholder := Opt(j, "placeholder", AsString);
    var minValues := Opt(j, "min_values", AsNumber);
    var maxValues := Opt(j, "max_values", AsNumber);
    var disabled := Opt(j, "disabled", AsBool);
    var options := Req(j, "options", (o: Json) => ArrayOf(o, ParseSelectOption));
    if j.JObj? && HasTag(j, "type", STRING_SELECT) && id.Just? && placeholder.Just? && minValues.Just?
       && maxValues.Just? && disabled.Just? && options.Just? then
      Just(StringSelect(id.value, placeholder.value, minValues.value, maxValues.value, disabled.value, options.value))
    else
      Nothing
  }

  /** A message component, discriminated by `type`: button, string select or text input. */
  function ParseComponent(j: Json): (r: Maybe<Component>)
    ensures r.Just? ==> ValidComponent(r.value)
  {
    match Get(j, "type")
    case Just(JNum(2)) => ParseButton(j)
    case Just(JNum(3)) => ParseStringSelect(j)
    case Just(JNum(4)) =>
      (match ParseTextInput(j)
       case Just(t) => Just(TextInputComponent(t))
       case Nothing => Nothing)
    case _ => Nothing
  }

  function ParseActionRow(j: Json): (r: Maybe<ActionRow>)
    ensures r.Just? ==> forall m :: 0 <= m < |r.value.components| ==> ValidComponent(r.value.components[m])
  {
    var components := Req(j, "components", (c: Json) => ArrayOf(c, ParseComponent));
    if j.JObj? && HasTag(j, "type", ACTION_ROW) && components.Just? then Just(ActionRow(components.value)) else Nothing
  }

  /** A modal row: an action row holding exactly one text input. */
  function ParseModalInputRow(j: Json): (r: Maybe<TextInput>)
    ensures r.Just? ==> IsTextStyle(r.value.style)
  {
    var inputs := Req(j, "components", (c: Json) => ArrayOf(c, ParseTextInput));
    if j.JObj? && HasTag(j, "type", ACTION_ROW) && inputs.Just? && |inputs.value| == 1 then Just(inputs.value[0]) else Nothing
  }

  function ParseChoice(j: Json): Maybe<Choice>
  {
    var name := Req(j, "name", AsString);
    var value := Req(j, "value", AsString);
    if j.JObj? && name.Just? && value.Just? then Just(Choice(name.value, value.value)) else Nothing
  }

  function ParseChannelMessage(j: Json): (r: Maybe<Response>)
    ensures r.Just? ==> r.value.ChannelMessage? && ValidResponse(r.value)
  {
    match Get(j, "data")
    case Just(data) =>
      var content := Opt(data, "content", AsString);
      var rows := Opt(data, "components", (c: Json) => ArrayOf(c, ParseActionRow));
      var flags := Opt(data, "flags", AsNumber);
      if j.JObj? && HasTag(j, "type", CHANNEL_MESSAGE_WITH_SOURCE) && data.JObj?
         && content.Just? && rows.Just? && flags.Just? then
        Just(ChannelMessage(content.value, rows.value, flags.value))
      else
        Nothing
    case Nothing => Nothing
  }

  function ParseAutocompleteResult(j: Json): (r: Maybe<Response>)
    ensures r.Just? ==> r.value.AutocompleteResult?
  {
    match Get(j, "data")
    case Just(data) =>
      var choices := Req(data, "choices", (c: Json) => ArrayOf(c, ParseChoice));
      if j.JObj? && HasTag(j, "type", APPLICATION_COMMAND_AUTOCOMPLETE_RESULT) && data.JObj? && choices.Just? then
        Just(AutocompleteResult(choices.value))
      else
        Nothing
    case Nothing => Nothing
  }

  function ParseModal(j: Json): (r: Maybe<Response>)
    ensures r.Just? ==> r.value.Modal? && ValidResponse(r.value)
  {
    match Get(j, "data")
    case Just(data) =>
      var id := Req(data, "custom_id", AsString);
      var title := Req(data, "title", AsString);
      var inputs := Req(data, "components", (c: Json) => ArrayOf(c, ParseModalInputRow));
      if j.JObj? && HasTag(j, "type", MODAL) && data.JObj? && id.Just? && title.Just? && inputs.Just?
         && 1 <= |inputs.value| <= 5 then
        Just(Modal(id.value, title.value, inputs.value))
      else
        Nothing
    case Nothing => Nothing
  }

  /**
   * `interactionResponse`: a payload is accepted as exactly the kind its
   * `type` names (4, 8 or 9); a modal then has 1 to 5 single-input rows.
   */
  function ParseResponse(j: Json): (r: Maybe<Response>)
    ensures r.Just? ==> ValidResponse(r.value) && HasTag(j, "type", ResponseType(r.value))
  {
    match Get(j, "type")
    case Just(JNum(4)) => ParseChannelMessage(j)
    case Just(JNum(8)) => ParseAutocompleteResult(j)
    case Just(JNum(9)) => ParseModal(j)
    case _ => Nothing
  }
}
