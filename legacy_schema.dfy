/**
 * The older revision's inbound schema. Its option, member and command-data
 * validators are the same as the newer revision's (they are reused from
 * `Schema`); the interaction union differs: four variants, no modal
 * submission, a component's data requires both `custom_id` and `values`,
 * and it records neither the component type nor the originating message.
 */
module LegacySchema {
  import opened Wrappers
  import opened Json
  import opened Schema

  /** `messageComponentInteractionData` of the older revision. */
  datatype LegacyComponentData = LegacyComponentData(customId: string, values: seq<string>)

  /** The older four-variant `interaction` union. */
  datatype LegacyInteraction =
    | PingRequest
    | CommandRequest(member: Member, guildId: string, data: MessageData)
    | ComponentRequest(member: Member, guildId: string, component: LegacyComponentData)
    | AutocompleteRequest(guildId: string, data: MessageData)

  function LegacyInteractionType(i: LegacyInteraction): int
  {
    match i
    case PingRequest => PING
    case CommandRequest(_, _, _) => APPLICATION_COMMAND
    case ComponentRequest(_, _, _) => MESSAGE_COMPONENT
    case AutocompleteRequest(_, _) => APPLICATION_COMMAND_AUTOCOMPLETE
  }

  predicate ValidLegacyInteraction(i: LegacyInteraction)
  {
    match i
    case CommandRequest(_, _, data) => ValidOptions(data.options)
    case AutocompleteRequest(_, data) => ValidOptions(data.options)
    case _ => true
  }

  /** Component data: a custom id and a list of selected string values, both required. */
  function ParseLegacyComponentData(j: Json): (r: Maybe<LegacyComponentData>)
    ensures r.Just? ==> Get(j, "custom_id") == Just(JStr(r.value.customId))
    ensures r.Just? ==> Get(j, "values").Just?
  {
    var id := Req(j, "custom_id", AsString);
    var values := Req(j, "values", (v: Json) => ArrayOf(v, AsString));
    if j.JObj? && id.Just? && values.Just? then Just(LegacyComponentData(id.value, values.value)) else Nothing
  }

  /** `messageInteraction`: type 2 with a member, a guild and the command data. */
  function ParseLegacyCommand(j: Json): (r: Maybe<LegacyInteraction>)
    ensures r.Just? ==> r.value.CommandRequest? && ValidLegacyInteraction(r.value)
  {
    var member := Req(j, "member", ParseMember);
    var guild := Req(j, "guild_id", AsString);
    var data := Req(j, "data", ParseMessageData);
    if j.JObj? && HasTag(j, "type", APPLICATION_COMMAND) && member.Just? && guild.Just? && data.Just? then
      Just(CommandRequest(member.value, guild.value, data.value))
    else
      Nothing
  }

  function ParseLegacyComponent(j: Json): (r: Maybe<LegacyInteraction>)
    ensures r.Just? ==> r.value.ComponentRequest?
  {
    var member := Req(j, "member", ParseMember);
    var guild := Req(j, "guild_id", AsString);
    var data := Req(j, "data", ParseLegacyComponentData);
    if j.JObj? && HasTag(j, "type", MESSAGE_COMPONENT) && member.Just? && guild.Just? && data.Just? then
      Just(ComponentRequest(member.value, guild.value, data.value))
    else
      Nothing
  }

  function ParseLegacyAutocomplete(j: Json): (r: Maybe<LegacyInteraction>)
    ensures r.Just? ==> r.value.AutocompleteRequest? && ValidLegacyInteraction(r.value)
  {
    var guild := Req(j, "guild_id", AsString);
    var data := Req(j, "data", ParseMessageData);
    if j.JObj? && HasTag(j, "type", APPLICATION_COMMAND_AUTOCOMPLETE) && guild.Just? && data.Just? then
      Just(AutocompleteRequest(guild.value, data.value))
    else
      Nothing
  }

  /** The older `interaction` union, discriminated by `type` 1 to 4. */
  function ParseLegacyInteraction(j: Json): (r: Maybe<LegacyInteraction>)
    ensures r.Just? ==> ValidLegacyInteraction(r.value)
    ensures r.Just? ==> HasTag(j, "type", LegacyInteractionType(r.value))
  {
    match Get(j, "type")
    case Just(JNum(1)) => if j.JObj? then Just(PingRequest) else Nothing
    case Just(JNum(2)) => ParseLegacyCommand(j)
    case Just(JNum(3)) => ParseLegacyComponent(j)
    case Just(JNum(4)) => ParseLegacyAutocomplete(j)
    case _ => Nothing
  }

  /** There is no modal variant: a type-5 payload is rejected whatever it holds. */
  lemma ModalSubmitRejected(j: Json)
    requires HasTag(j, "type", MODAL_SUBMIT)
    ensures ParseLegacyInteraction(j).Nothing?
  {
  }

  /** A component payload without a `values` array is rejected. */
  lemma ComponentRequiresValues(j: Json)
    requires HasTag(j, "type", MESSAGE_COMPONENT)
    requires Get(j, "data").Just? && Get(Get(j, "data").value, "values").Nothing?
    ensures ParseLegacyInteraction(j).Nothing?
  {
  }

  /**
   * On application commands the two revisions agree exactly: the older
   * union accepts a command payload iff the newer one does, with the same
   * member, guild and command data.
   */
  lemma CommandsAgreeAcrossRevisions(j: Json)
    ensures ParseLegacyCommand(j).Just? <==> ParseApplicationCommand(j).Just?
    ensures ParseLegacyCommand(j).Just? ==>
              var c := ParseLegacyCommand(j).value;
              ParseApplicationCommand(j) == Just(ApplicationCommand(c.member, c.guildId, c.data))
  {
  }

  /** Autocompletions carry no member in either revision, and otherwise agree too. */
  lemma AutocompletesAgreeAcrossRevisions(j: Json)
    ensures ParseLegacyAutocomplete(j).Just? <==> ParseAutocomplete(j).Just?
    ensures ParseLegacyAutocomplete(j).Just? ==>
              var a := ParseLegacyAutocomplete(j).value;
              ParseAutocomplete(j) == Just(Autocomplete(a.guildId, a.data))
  {
  }
}
