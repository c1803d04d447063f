# cg-bob: Discord slash-command routing and token bookkeeping, in Dafny

This project models the core of `cg-bob`, a Discord bot for a tabletop game.
Players hold tokens: a strong move spends one and a weak move earns one. The
bot answers Discord "interactions" (slash commands, button and select clicks,
autocompletion requests and modal submissions) through a small router built
on zod validators. It also has an older revision of that router and an older
HTTP server that kept the counts in memory.

The model covers these parts:

- **Wire schemas.** `Schema` models the newer schema; `LegacySchema` models the
  interaction union that differs in the older one.
  - Raw JSON is a `Json` datatype.
  - Every zod validator is a `Parse…` function from `Json` to a typed value,
    or `Nothing` where zod throws.
  - Objects ignore unknown keys, and optional fields are absent.
  - A subcommand group must have at least one child, and a modal has one to
    five rows.
  - Discriminated unions choose by their tag.
- **Newer router** (`Router`).
  - `discordRoute` folds a list of routes into a table; `RouteTable` holds the
    fold and the `reduceRoutes` loop.
  - A branch validates its first argument as a subcommand or a group, looks up
    its name, and forwards the nested options.
  - `discordRouterRoot` builds four tables and dispatches by interaction type.
  - Handlers are abstract ids. Dispatching gives the leaf's call (id and
    arguments) together with the context the handler runs under.
- **Older router** (`LegacyRouter`). Every route carries a tuple parser, and
  the root serves command interactions only. The older endpoint as written
  throws when loaded (see "Left out"); its model follows the intended wiring.
- **The two bot endpoints** (`Endpoint`, `LegacyEndpoint`).
  - Their concrete route trees, each proved to fold into the expected tables.
  - The argument shapes their leaves declare.
  - The handlers that read and change game state: the token list, `moves do`,
    `gm game`, `gm assign`, `gm create character`, autocompletion, the modal,
    and the placeholder components.
- **Shared game rules** (`TokenMoves`).
  - The token transition and reply texts of `moves do`.
  - A `Store` class holding the rows the handlers write: games, characters,
    token counts and user-to-character assignments.
- **The first server** (`Server`, `Players`). The in-memory `tokens` map,
  changed in place by the strong-move and weak-move endpoints, and its minimal
  interactions endpoint.
- **Text helpers** (`Text`). Number formatting and parsing, `join`/`split`,
  and ASCII case mapping, each with its round trip.

Database reads other than the `Store` rows are parameters holding the rows the
query returned, in the order returned. `capitalize` comes from a library that
is not part of this model, so it is a function parameter.

## Model

| member | source | states |
|---|---|---|
| `Schema.ParseStringOption` | packages/discord-router/schema.ts:55-61 | accepted exactly for an object tagged 3 with a string `name` and `value` and an optional boolean `focused`; the option keeps the wire name, text and focused flag |
| `Schema.ParseIntegerOption` | packages/discord-router/schema.ts:62-68 | accepted exactly for an object tagged 4 with a string `name`, a numeric `value` and an optional boolean `focused`; the option keeps the wire name, number and focused flag |
| `Schema.ParseBooleanOption` | packages/discord-router/schema.ts:69-74 | accepted exactly for an object tagged 5 with a string `name` and a boolean `value`; the option keeps the wire name and flag |
| `Schema.ParseUserOption` | packages/discord-router/schema.ts:75-80 | accepted exactly for an object tagged 6 with a string `name` and `value`; the option keeps the wire name and user id |
| `Schema.ParseFlagOption` | packages/discord-router/schema.ts:93-98 | the discriminated union yields a value option whose type matches the wire tag and whose name is the wire name |
| `Schema.ParseSubcommand` | packages/discord-router/schema.ts:41-45 | an accepted subcommand is valid (every child is a value option), tagged 1, and keeps the wire name |
| `Schema.ParseSubcommandGroup` | packages/discord-router/schema.ts:50-54 | an accepted group is valid (at least one child, each a container), tagged 2, and keeps the wire name |
| `Schema.ParseSubcommandOption` | packages/discord-router/schema.ts:82-85 | an accepted container is valid and its type matches the wire tag |
| `Schema.ParseOption` | packages/discord-router/schema.ts:101 | every accepted option tree is valid, and its type and name are the wire ones |
| `Schema.NestedOptions` | packages/discord-router/src.ts:41 | `options ?? []`: a group's children, a subcommand's options, or nothing |
| `Schema.FlagRoundTrip` | packages/discord-router/schema.ts:93-98 | decoding an encoded value option gives it back |
| `Schema.SubcommandOptionRoundTrip` | packages/discord-router/schema.ts:82-85 | decoding an encoded valid container gives it back (by induction over the tree) |
| `Schema.OptionRoundTrip` | packages/discord-router/schema.ts:101 | every valid option tree survives encoding and validation unchanged |
| `Schema.SubgroupAcceptsExactlyValidContainers` | packages/discord-router/src.ts:120 | the `subgroup` union accepts an encoded option if and only if it is a valid container |
| `Schema.ParsedEncodingIsSource` | packages/discord-router/schema.ts:82-85 | whatever the container validator accepts from an encoding is the encoded option itself |
| `Schema.ParsedFlagIsSource` | packages/discord-router/schema.ts:93-98 | whatever the value-option validator accepts from an encoding is the encoded option, and it is a value option |
| `Schema.GroupRejectsOnAnyChild` | packages/discord-router/schema.ts:50-54 | a group with one invalid child is rejected as a whole |
| `Schema.SubcommandRejectsOnAnyFlag` | packages/discord-router/schema.ts:41-45 | a subcommand with one invalid option is rejected as a whole |
| `Schema.ParseMessageData` | packages/discord-router/schema.ts:104-108 | accepted command data holds only valid option trees |
| `Schema.ParseApplicationCommand` | packages/discord-router/schema.ts:124-129 | an accepted command interaction is valid |
| `Schema.ParseMessageComponent` | packages/discord-router/schema.ts:132-148 | an accepted component interaction is a component interaction |
| `Schema.ParseAutocomplete` | packages/discord-router/schema.ts:153-157 | an accepted autocompletion is valid |
| `Schema.ParseModalRow` | packages/discord-router/schema.ts:166-175 | an accepted row is tagged 1 and holds one input, tagged 4, whose wire `custom_id` and `value` are the row's id and value |
| `Schema.ParseModalSubmit` | packages/discord-router/schema.ts:159-181 | an accepted modal submission keeps the wire `custom_id` and has one to five rows, one per wire row, each the row's single text input (type 4) with its wire id and value |
| `Schema.ParseInteraction` | packages/discord-router/schema.ts:184-190 | the interaction union returns a valid interaction of the variant its `type` tag names |
| `Schema.UnknownInteractionTagRejected` | packages/discord-router/schema.ts:184-190 | a tag outside 1 to 5, or no tag, is rejected |
| `Schema.MessageDataRoundTrip` | packages/discord-router/schema.ts:104-108 | command data with valid options survives encoding and validation |
| `Schema.CommandRoundTrip` | packages/discord-router/schema.ts:124-157 | a valid command or autocompletion request survives encoding and validation |
| `Schema.ComponentWithoutOptionalFields` | packages/discord-router/schema.ts:132-148 | a component interaction without `values` or `message.interaction` is accepted with both absent |
| `Schema.ParseTextInput` | packages/discord-router/schema.ts:199-209 | an accepted text input has a text style from the enum |
| `Schema.ParseComponent` | packages/discord-router/schema.ts:218-245 | an accepted row component is valid (its style is in range) |
| `Schema.ParseActionRow` | packages/discord-router/schema.ts:211-248 | every component of an accepted action row is valid |
| `Schema.ParseModalInputRow` | packages/discord-router/schema.ts:284-285 | a modal row's single text input has a text style from the enum |
| `Schema.ParseChannelMessage` | packages/discord-router/schema.ts:250-257 | an accepted message response is valid |
| `Schema.ParseAutocompleteResult` | packages/discord-router/schema.ts:262-274 | an accepted autocompletion response is an autocompletion result |
| `Schema.ParseModal` | packages/discord-router/schema.ts:279-290 | an accepted modal response is valid (one to five rows of one input) |
| `Schema.ParseResponse` | packages/discord-router/schema.ts:293-297 | the response union returns a valid response of the kind its tag names |
| `RouteTable.TableKeys` | packages/discord-router/src.ts:17-23 | the folded table's keys are exactly the route names |
| `RouteTable.TableLastWins` | packages/discord-router/src.ts:17-23 | each name maps to the handler of its last route |
| `RouteTable.TableKeepsLast` | packages/discord-router/src.ts:17-23 | for every route list, the folded table maps each name to the route given last under it |
| `RouteTable.TableAppend` | packages/discord-router/src.ts:21 | folding one more route sets that name and leaves the rest |
| `RouteTable.DuplicateNameOverwrites` | packages/discord-router/src.ts:21 | a repeated name keeps only the later handler |
| `RouteTable.ReduceRoutes` | packages/discord-router/src.ts:30-33 | the loop over the routes builds exactly the folded table |
| `Router.DiscordRoute` | packages/discord-router/src.ts:25-45 | a function becomes a leaf; a list becomes a branch whose table holds every name, each bound to its last route |
| `Router.InvokeFollowsPath` | packages/discord-router/src.ts:35-42 | a successful call ends at the leaf reached by following the argument's names through the tables |
| `Router.BranchRejectsBadFirstArgument` | packages/discord-router/src.ts:36 | a branch given no argument, or a first argument that is not a valid container, fails validation |
| `Router.BranchIgnoresTrailingArguments` | packages/discord-router/src.ts:35-36 | a branch looks only at its first argument |
| `Router.SubcommandLeafReceivesItsOptions` | packages/discord-router/src.ts:37-41 | a subcommand naming a leaf calls it with the subcommand's options, in order |
| `Router.DeepGroupsAreRouted` | packages/discord-router/src.ts:35-42 | groups nested three deep are routed to the leaf |
| `Router.DiscordRouterRoot` | packages/discord-router/src.ts:51-72 | each of the four tables holds exactly the names of its route list, and each name maps to the last route given under it |
| `Router.ModalArgs` | packages/discord-router/src.ts:114 | a modal leaf gets one text argument per row: the row's value, in order |
| `Router.Dispatch` | packages/discord-router/src.ts:76-117 | a failed context lookup fails; a ping, and only a ping, gets PONG; otherwise the result is the route found under the interaction's key in its kind's table, invoked with the kind's arguments (command options or `[]`, none for components, the row values for modals) and run under the interaction and the context; a missing key is a route-not-found error and an invocation error is passed on |
| `Router.MissingKeyIsRouteError` | packages/discord-router/src.ts:85-112 | an interaction whose key is not in its table gets "Route not found" |
| `Router.DispatchReadsOnlyItsTable` | packages/discord-router/src.ts:83-115 | dispatching depends only on the table of the interaction's kind |
| `Router.ComponentHandlerGetsNoArguments` | packages/discord-router/src.ts:92-98 | a component handler is called with no arguments |
| `Router.ModalLeafGetsRowValues` | packages/discord-router/src.ts:108-114 | a modal leaf is called with the submitted row values |
| `Router.ModalBranchRejected` | packages/discord-router/src.ts:108-114 | a modal key bound to a branch fails, since a text value is not a container |
| `Router.ComponentKeyPrefersOrigin` | packages/discord-router/src.ts:93-95 | a component is routed by the originating command's name if present, else by its custom id |
| `LegacySchema.ParseLegacyComponentData` | src/schema.ts:92-95 | accepted component data has the wire custom id and a `values` array |
| `LegacySchema.ParseLegacyCommand` | src/schema.ts:101-106 | an accepted command interaction is valid |
| `LegacySchema.ParseLegacyComponent` | src/schema.ts:109-114 | an accepted component interaction is a component interaction |
| `LegacySchema.ParseLegacyAutocomplete` | src/schema.ts:119-123 | an accepted autocompletion is valid |
| `LegacySchema.ParseLegacyInteraction` | src/schema.ts:125-130 | the union returns a valid interaction of the variant its tag names |
| `LegacySchema.ModalSubmitRejected` | src/schema.ts:125-130 | the older union has no modal variant: tag 5 is rejected |
| `LegacySchema.ComponentRequiresValues` | src/schema.ts:92-95 | a component interaction without `values` is rejected |
| `LegacySchema.CommandsAgreeAcrossRevisions` | src/schema.ts:101-106 | both revisions accept the same command payloads and read them identically |
| `LegacySchema.AutocompletesAgreeAcrossRevisions` | src/schema.ts:119-123 | both revisions accept the same autocompletion payloads and read them identically |
| `LegacyRouter.DiscordRoute` | src/discord-router.ts:28-50 | a route keeps its parser; a function becomes a leaf; a list becomes a branch over all its names, each mapped to the last route given under it |
| `LegacyRouter.LeafRunsIffParsed` | src/discord-router.ts:29-33 | a leaf runs if and only if its parser accepts the options, and then gets them unchanged |
| `LegacyRouter.EmptyTupleAcceptsOnlyEmpty` | src/discord-router.ts:31 | `z.tuple([])` accepts exactly the empty option list |
| `LegacyRouter.RestAcceptsTrailing` | src/discordEndpoint.ts:441 | a one-string tuple with a rest element accepts any trailing options the rest schema accepts, and only those |
| `LegacyRouter.BranchRouteNotFound` | src/discord-router.ts:40-44 | a parsed first option naming no route gets "Route not found" |
| `LegacyRouter.BranchForwardsNested` | src/discord-router.ts:40-46 | a branch forwards the first option's nested options to the named route |
| `LegacyRouter.SubAcceptsOneSubcommand` | src/discordEndpoint.ts:19 | `sub` accepts exactly one valid subcommand |
| `LegacyRouter.DiscordRouterRoot` | src/discord-router.ts:56-57 | the served table holds exactly the route names, each mapped to the last route given under it |
| `LegacyRouter.Dispatch` | src/discord-router.ts:67-79 | only command interactions are routed; a failed context lookup fails; otherwise the result is the route under the command's name invoked with `options ?? []`, run under the command and the context; a missing name is a route-not-found error and an invocation error is passed on |
| `LegacyRouter.Serve` | src/discord-router.ts:66-83 | a reply exists if and only if routing and the handler both succeed, and it is the handler's reply |
| `LegacyRouter.NonCommandsGetNoReply` | src/discord-router.ts:68 | pings, components and autocompletions get no reply from the older root |
| `Players.RosterDistinct` | packages/server/src/tokens.ts:1 | the roster lists four distinct players |
| `Players.ZeroCounts` | packages/server/src/tokens.ts:3-6 | the reduce loop gives every listed name, and no other, a count of 0 |
| `Players.InitialTokens` | packages/server/src/tokens.ts:3-6 | the initial map has a zero count for every player and no other key |
| `Server.Disabled` | src/server.ts:52 | strong moves are shown disabled exactly when the player has no token |
| `Server.StrongMoveSpendsOne` | src/server.ts:57-63 | a strong move succeeds if and only if the player holds a token; it spends exactly one, of that player only |
| `Server.DisabledIffStrongMoveRefused` | src/server.ts:60-61 | the disabled flag is shown exactly when a strong move would be refused |
| `Server.WeakMoveEarnsOne` | src/server.ts:76-84 | a weak move earns exactly one token, for that player only, and re-enables strong moves |
| `Server.WeakThenStrongRestores` | src/server.ts:63-79 | a weak move followed by a strong move leaves every count as it was |
| `Server.TokenCounter.constructor` | packages/server/src/tokens.ts:3-6 | counts start at zero for every player |
| `Server.TokenCounter.Actions` | src/server.ts:46-55 | an unknown player is rejected; otherwise it reports whether strong moves are disabled |
| `Server.TokenCounter.StrongMove` | src/server.ts:57-74 | when refused, the counts do not change; otherwise they become the strong-move result |
| `Server.TokenCounter.WeakMove` | src/server.ts:76-93 | an unknown player changes nothing; otherwise the counts become the weak-move result |
| `Server.ParseChoice` | src/server.ts:95-100 | an absent option, and only that, is accepted as no choice; an accepted choice is its wire `value`, which names a player |
| `Server.Respond` | src/server.ts:117-137 | a null body fails; a ping gets PONG; a request that is neither a ping nor a command gets no reply; a command without non-null `data` fails; a rejected first option fails with its error; any other command gets no reply; `tokens` replies with the chosen player's sentence, or with the stringified map when there is no choice |
| `Server.TokensWithoutChoiceReportsAll` | src/server.ts:125-133 | `tokens` with no option replies with the stringified map of all counts |
| `Server.StringifyCountsMeaning` | src/server.ts:131 | the whole-map reply is a braced list with one member per player, in roster order, each naming the player and reading back as that player's count |
| `Server.CountEntryMeaning` | src/server.ts:131 | a map member holds no comma, names the player and reads back as the count |
| `Server.TokensChoiceReportsCount` | src/server.ts:125-132 | `tokens` with a player choice reports that player's current count |
| `Server.CountSentenceMeaning` | src/server.ts:130-132 | the sentence starts with the capitalised name, and the count reads back exactly |
| `Server.UnknownPlayerRejected` | src/server.ts:123 | a choice naming someone outside the roster fails validation, whatever the command |
| `Text.IntToStringRoundTrip` | packages/server/src/discordEndpoint.ts:70 | parsing a formatted integer gives it back |
| `Text.NatToStringRoundTrip` | packages/server/src/discordEndpoint.ts:70 | the digits of a formatted natural number read back as that number |
| `Text.SplitJoin` | packages/server/src/discordEndpoint.ts:72 | splitting separator-free parts joined by the separator gives the parts back |
| `Text.JoinWithPrefix` | packages/server/src/discordEndpoint.ts:94 | a leading prefix plus a join by newline and prefix is the prefixed parts joined by newline |
| `Text.ToUpperMeaning` | packages/server/src/discordEndpoint.ts:585 | upper-casing leaves no lower-case letter, keeps every other character, and is idempotent |
| `Text.ToLowerMeaning` | packages/server/src/discordEndpoint.ts:454 | no upper-case ASCII letter remains; an upper-case letter becomes the letter 32 code points higher and every other character is kept; lower-casing twice is lower-casing once, and upper-casing the result is upper-casing the input |
| `Text.UpperFirst` | src/server.ts:130-132 | only the first character is upper-cased |
| `TokenMoves.MoveFromValue` | packages/server/src/discordEndpoint.ts:36-41 | a recognised value is the spelling of the category it names |
| `TokenMoves.MoveValueRoundTrip` | packages/server/src/discordEndpoint.ts:36-41 | each category's spelling reads back as that category |
| `TokenMoves.NextCountBounds` | packages/server/src/discordEndpoint.ts:298-331 | counts never drop below zero and change by at most one; down exactly for a strong move with a token, up exactly for a weak move |
| `TokenMoves.StrongMoveWithoutTokenClaimsSpent` | packages/server/src/discordEndpoint.ts:298-310 | a strong move without a token leaves the count, yet the reply says a token was spent |
| `TokenMoves.Store.constructor` | src/db/schema.ts:57-68 | the store starts with the given rows, every count belonging to a character |
| `TokenMoves.Store.UpdateTokenCount` | packages/server/src/queries.ts:74-78 | sets the character's count if it has a row, and otherwise changes nothing |
| `TokenMoves.Store.InsertCharacter` | src/db/schema.ts:63 | a new character is stored with a count of 0; an existing id stores nothing |
| `TokenMoves.Store.InsertGame` | packages/server/src/discordEndpoint.ts:350-353 | the game is appended and nothing else changes |
| `TokenMoves.Store.InsertAssignment` | src/db/schema.ts:27-40 | an assignment is stored unless the same pair exists (unique key); assignments stay distinct |
| `TokenMoves.GameForGuild` | packages/server/src/queries.ts:61-65 | the found game is a stored game of that guild; none is found exactly when the guild has no game |
| `TokenMoves.NewGameIsFound` | packages/server/src/discordEndpoint.ts:342-362 | a game added to a guild without one is found for it afterwards; a later game for a guild that has one is never found |
| `TokenMoves.PlayedBy` | packages/server/src/discordEndpoint.ts:281-293 | a character is listed for a user exactly when that assignment is stored |
| `TokenMoves.ApplyMove` | packages/server/src/discordEndpoint.ts:298-331 | the character's count becomes the transition's result, and the reply is the move's text |
| `TokenMoves.PluralOnlyAboveOne` | packages/server/src/discordEndpoint.ts:158-160 | the reply ends in "s!" exactly when the count exceeds one |
| `Endpoint.GmTable` | packages/server/src/discordEndpoint.ts:340-470 | the `gm` subtree folds into the tables of `game`, `assign` and `create` |
| `Endpoint.CommandTable` | packages/server/src/discordEndpoint.ts:80-471 | the command table is `list`, `tokens`, `moves` and `gm`, with their subtrees |
| `Endpoint.CommandRootNames` | packages/server/src/discordEndpoint.ts:80-471 | the top-level command names are exactly `list`, `tokens`, `moves` and `gm` |
| `Endpoint.CommandPathsResolve` | packages/server/src/discordEndpoint.ts:80-471 | every command leaf is reached by following its command path |
| `Endpoint.ComponentKeys` | packages/server/src/discordEndpoint.ts:472-555 | the component table's keys are the two command names and the three button ids |
| `Endpoint.ModalTable` | packages/server/src/discordEndpoint.ts:628-650 | the modal table holds the one character-select id |
| `Endpoint.AutocompleteTable` | packages/server/src/discordEndpoint.ts:556-627 | autocompletion is routed for `gm assign tokens` and for `moves` |
| `Endpoint.MovesDoIsRouted` | packages/server/src/discordEndpoint.ts:166-338 | a `moves` command whose `do` subcommand carries one string option reaches the `do` leaf with that option as its only argument, under the interaction and the game (the registered command sends two options; see "Left out") |
| `Endpoint.TrailingArgumentsIgnored` | packages/server/src/discordEndpoint.ts:262-264 | extra trailing arguments never fail a leaf's argument check |
| `Endpoint.AssignTokensShape` | packages/server/src/discordEndpoint.ts:417-419 | `assign tokens` accepts a string then an integer, and not the swapped order |
| `Endpoint.Ephemeral` | packages/discord-router/schema.ts:250-257 | an ephemeral message reply is a valid response |
| `Endpoint.GetTokenContent` | packages/server/src/discordEndpoint.ts:57-73 | fails exactly when some row lacks a token count |
| `Endpoint.TokenContentLines` | packages/server/src/discordEndpoint.ts:57-73 | the list has one line per row, in row order, and each line's count reads back as that row's count |
| `Endpoint.TokensHandler` | packages/server/src/discordEndpoint.ts:118-165 | a non-command fails with the wrong-type error and no game fails; the GM gets the whole list as an ephemeral reply, failing exactly when the list does and with its error; a player gets their own count, and a player with no character fails with character-not-found |
| `Endpoint.FirstPlayable` | packages/server/src/discordEndpoint.ts:281-293 | the chosen character is the caller's, in the game, with a count; none is chosen only when no such character exists |
| `Endpoint.MovesDoHandler` | packages/server/src/discordEndpoint.ts:260-338 | rejected arguments or no game fail; a non-command fails; the GM succeeds, is told so and nothing changes; a player succeeds exactly when a playable assigned character exists, which takes the transition and whose text is the reply; otherwise the error is character-not-found |
| `Endpoint.GameContext` | packages/server/src/discordEndpoint.ts:674-682 | a ping has no game; otherwise the game found is a stored game of the interaction's guild, and none is found only when the guild has none |
| `Endpoint.GameInitHandler` | packages/server/src/discordEndpoint.ts:342-362 | a command stores a new game run by the caller; it becomes the guild's context only if the guild had none |
| `Endpoint.GameInfoHandler` | packages/server/src/discordEndpoint.ts:363-376 | succeeds exactly when there is a game, with the ephemeral reply naming the game's GM as a mention; without one the context lookup throws |
| `Endpoint.NoGameReplyUnreachable` | packages/server/src/discordEndpoint.ts:370-372 | the "No game running in this server" reply is never produced |
| `Endpoint.AssignCharacterHandler` | packages/server/src/discordEndpoint.ts:379-414 | rejected arguments and no game fail; an existing user-character pair fails with a duplicate-assignment error (the insert hits the unique key) and sends no reply; otherwise the assignment is appended, the user then plays the character, and the reply names the character or says it was not found; games, characters and counts are unchanged |
| `Endpoint.AssignTokensHandler` | packages/server/src/discordEndpoint.ts:415-439 | an unknown character fails and changes nothing; otherwise its count becomes exactly the given number |
| `Endpoint.CreateCharacterHandler` | packages/server/src/discordEndpoint.ts:441-469 | rejected arguments fail, no game fails and an id already in use fails, each changing nothing; with a game, stores the lower-cased name under the fresh id with a count of 0 |
| `Endpoint.AutocompleteHandler` | packages/server/src/discordEndpoint.ts:556-627 | succeeds exactly for a focused option of an autocompletion; one upper-cased choice per match, in order |
| `Endpoint.UnfocusedRejected` | packages/server/src/discordEndpoint.ts:572-574 | an unfocused option is refused whatever the search found |
| `Endpoint.BulletLines` | packages/server/src/discordEndpoint.ts:93-94 | an empty list is a lone bullet; otherwise the lines are the items, each after a bullet |
| `Endpoint.ListCharactersHandler` | packages/server/src/discordEndpoint.ts:82-98 | needs a game; lists the game's characters as bullets |
| `Endpoint.ListPlayersHandler` | packages/server/src/discordEndpoint.ts:99-116 | needs a game; mentions the game's users as bullets |
| `Endpoint.PlaceholderHandler` | packages/server/src/discordEndpoint.ts:472-555 | the `moves` component (on a component interaction) and the move buttons answer with the placeholder reply |
| `Endpoint.CharacterSelectHandler` | packages/server/src/discordEndpoint.ts:628-650 | rejected arguments fail; with a text argument and no game the context read fails; otherwise the reply is ephemeral and lists the found names joined by newlines (empty for no matches) |
| `Endpoint.CharacterSelectLines` | packages/server/src/discordEndpoint.ts:644 | the modal's reply splits back into the found names, in order |
| `Endpoint.EndpointReply` | packages/server/src/discordEndpoint.ts:671-688 | a reply is sent exactly when the handler returned one without throwing, and it is the handler's response |
| `LegacyEndpoint.ServerTable` | src/discordEndpoint.ts:92-434 | the served table is `list`, `tokens`, `moves` and `gm`, each with its parser |
| `LegacyEndpoint.GmTable` | src/discordEndpoint.ts:296-433 | the `gm` subtree's tables, with each leaf's tuple parser |
| `LegacyEndpoint.MovesIsRouted` | src/discordEndpoint.ts:180-183 | `/moves` runs with exactly three string options; any other count fails validation |
| `LegacyEndpoint.AssignTokensIsRouted` | src/discordEndpoint.ts:370-376 | `/gm assign tokens` passes the group, subcommand and tuple checks, and the leaf gets both options |
| `LegacyEndpoint.TokensHandler` | src/discordEndpoint.ts:134-179 | a non-command fails with the wrong-type error and no game fails; the GM gets the whole list, failing exactly when the list does and with its error; a player gets their own count, or character-not-found without a character; equal to the newer handler |
| `LegacyEndpoint.TokensAgreeAcrossRevisions` | src/discordEndpoint.ts:134-179 | for a command, both revisions' `tokens` replies are identical |
| `LegacyEndpoint.FirstNamed` | src/discordEndpoint.ts:246-252 | the found character has the name, is in the game and has a count; none is found only when no such character exists |
| `LegacyEndpoint.MovesHandler` | src/discordEndpoint.ts:180-295 | no game fails; `list` returns the list reply; other actions return nothing; `do` needs a player's name, succeeds exactly when that player's character is found in the game, applies the transition to it, and otherwise fails with character-not-found; only token counts change |
| `LegacyEndpoint.GameInitHandler` | src/discordEndpoint.ts:298-318 | a command stores a new game run by the caller |
| `LegacyEndpoint.GameInfoHandler` | src/discordEndpoint.ts:319-332 | identical to the newer handler, so the no-game reply is unreachable |
| `LegacyEndpoint.AssignCharacterHandler` | src/discordEndpoint.ts:335-369 | needs a game; an existing user-character pair fails with a duplicate-assignment error (the insert hits the unique key) and sends no reply; otherwise the assignment is appended and the reply is "Assigned <name> to <@user>" when the character exists and "Character not found" otherwise |
| `LegacyEndpoint.AssignTokensHandler` | src/discordEndpoint.ts:370-404 | finds the character by its lower-cased name in the game; sets its count exactly, or fails with no game or character-not-found and changes nothing; games, characters and assignments never change |
| `LegacyEndpoint.FirstNamedAny` | src/discordEndpoint.ts:377-389 | the found character has the name and is in the game; none is found only when no such character exists |
| `LegacyEndpoint.CreatedCharacterIsFound` | src/discordEndpoint.ts:383 | a created character is found by `assign tokens` under any spelling with the same lower-case form |
| `LegacyEndpoint.AutocompleteHandler` | src/discordEndpoint.ts:436-521 | succeeds exactly for a focused option of an autocompletion; one upper-cased choice per match |
| `LegacyEndpoint.AutocompleteNeverAnswers` | src/discordEndpoint.ts:445-448 | under the intended reading, where the older root routes commands only (as written the module throws at load), the autocompletion handlers always refuse |
| `LegacyEndpoint.CreateCharacterHandler` | src/discordEndpoint.ts:406-432 | no game fails and an id already in use fails with a duplicate-character error, changing nothing; with a game, stores the lower-cased name under the fresh id with a count of 0; games and assignments never change |
| `LegacyEndpoint.EndpointReply` | src/discordEndpoint.ts:553-555 | a reply is sent exactly when the root returned one, and it is the root's response |

## Left out

- **HTTP, signatures and templates.** Signature verification (`verifyKey`),
  the HTTP frameworks, the HTML templates and the site endpoints are left out.
  The model starts from the parsed request body.
- **`AsyncLocalStorage`.** The ambient context becomes the explicit `Context`
  value the router builds: the interaction plus what `getContext` returned.
  A context field named `interaction` would be overridden by the spread; it is
  not modelled.
- **Queries.**
  - Database queries other than the `Store` rows are parameters holding the
    rows returned, in the order returned. Neither the order nor any
    `LIKE`-pattern matching is modelled.
  - Row order without `ORDER BY` is taken as insertion order: for `selectGame`
    in `TokenMoves.GameForGuild`, and for the assignment join in
    `Endpoint.MovesDoHandler`.
  - The `users` and `gamesUsers` inserts of `gm assign character` are left
    out. Their `onConflictDoNothing` makes them unobservable here, and the
    player list they feed is a parameter.
- **Database constraints.**
  - Foreign keys are not enforced: an assignment to a missing character is
    stored, as SQLite does by default.
  - Fresh ids (`crypto.randomUUID`) are parameters.
  - `TokenMoves.Store.InsertGame` does not check its id against the stored
    games, since a random UUID is not expected to collide.
- **Number and text types.**
  - Numbers are unbounded integers; JavaScript's float numbers, `NaN` and
    non-integral values are not modelled.
  - Case mapping is ASCII only.
  - `capitalize` comes from a library that is not part of this model, so it is
    a function parameter.
- **Route-name duplicates.** A duplicate route name overwrites the earlier one,
  as `Map.set` does; no error is raised.
- **Group nesting.** Groups nest to any depth, because the schema's recursion
  does not stop at two levels (`Router.DeepGroupsAreRouted`).
- **The older endpoint's router wiring.**
  - As written, `src/discordEndpoint.ts:92` passes an object of four route
    lists to the older `discordRouterRoot`, whose first step
    (`src/discord-router.ts:57`) calls `handler.reduce`. An object has no
    `reduce`, so loading the module throws a `TypeError` and the older
    endpoint serves nothing at all.
  - The model takes the intended reading instead: the older root serves the
    command routes only, so the component and autocompletion tables are
    never consulted. Every `LegacyEndpoint` routing lemma is about that
    reading, not about the module as it loads.
  - `sub` and `subgroup` are not defined in the older router file. They are
    read as one-element tuples of a subcommand and of a container, with
    `z.tuple([subgroup])` read like `subgroup`.
- **Older handlers that are the same code.** The older `list characters` and
  `list players` are the same code as the newer ones; `Endpoint.ListCharactersHandler`
  and `Endpoint.ListPlayersHandler` cover both.
- **The registered `moves do` options.** The command registered in
  `packages/server/src/commands.ts:149-172` sends a `character` option and
  then a `moveset` option. The handler reads its first argument as the move,
  so with that registration it reads the character name. Unless a
  character is named exactly like a move spelling (`strongMoves` and so on),
  the reply has no content and no count changes
  (`TokenMoves.MoveFromValue`, `TokenMoves.NextCount`). Command
  registration is not part of this model. `Endpoint.MovesDoIsRouted` is
  stated for a payload with one option.
- **`moves list`.** The command and its component both depend on the move
  tables in `src/moves.ts`, which are not part of this model. The older
  `moves list` reply is a parameter of `LegacyEndpoint.MovesHandler`.
- **The older `meme` component** has an empty body and is not
  modelled.
- **ButtonStyle range.** `Schema.ParseComponent` checks button styles against
  the range 1 to 5 of the Discord enumeration.
- **Error payloads.** Handler failures are `HandlerError` values standing for
  the thrown `Error`s; their messages and the console logging are not
  modelled.
- **Partner of `ParseMessageComponent`.** `Schema.ParseMessageComponent` has no
  encoder; `Schema.ComponentWithoutOptionalFields` pins down its optional fields
  instead.
