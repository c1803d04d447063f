/**
 * The older bot endpoint (`src/discordEndpoint.ts`): its route tree, each
 * route with the tuple parser it declares, and the handlers that change
 * token counts.
 *
 * As written, `src/discordEndpoint.ts` passes an object of four route lists
 * to the older `discordRouterRoot`, which calls `reduce` on its argument as
 * on an array; an object has no `reduce`, so loading the module throws and
 * the endpoint serves nothing. This module takes the intended reading: the
 * root serves the command routes only (see `LegacyRouter`), and the
 * component and autocompletion tables are never consulted.
 */
module LegacyEndpoint {
  import opened Wrappers
  import opened Schema
  import opened LegacySchema
  import opened LegacyRouter
  import RouteTable
  import Text
  import opened TokenMoves
  import opened Players
  import Endpoint
  import Router

  // ---------------------------------------------------------------------
  // The route tree
  // ---------------------------------------------------------------------

  datatype LeafId =
    | ListCharacters | ListPlayers | TokensCommand | MovesCommand
    | GameInit | GameInfo | AssignCharacter | AssignTokens | CreateCharacter
    | Meme | AutocompleteAssignTokens | AutocompleteMoves

  /** `z.tuple([])`. */
  const NoOptions: Parser := Tuple([], Nothing)

  function LeafRoute(path: string, parser: Parser, id: LeafId): Route<LeafId>
  {
    DiscordRoute(path, parser, HandlerFn(id))
  }

  function BranchRoute(path: string, parser: Parser, children: seq<Route<LeafId>>): Route<LeafId>
  {
    DiscordRoute(path, parser, Children(children))
  }

  /** The `gm` command: `game`, `assign` and `create`, each a group of subcommands. */
  function GmRoute(): Route<LeafId>
  {
    BranchRoute("gm", Subgroup, [
      BranchRoute("game", Sub, [LeafRoute("init", NoOptions, GameInit), LeafRoute("info", NoOptions, GameInfo)]),
      BranchRoute("assign", Sub, [
        LeafRoute("character", Tuple([UserItem, StringItem], Nothing), AssignCharacter),
        LeafRoute("tokens", Tuple([StringItem, IntegerItem], Nothing), AssignTokens)]),
      BranchRoute("create", Sub, [LeafRoute("character", Tuple([StringItem], Nothing), CreateCharacter)])])
  }

  /** `applicationCmds`. */
  function ApplicationRoutes(): seq<Route<LeafId>>
  {
    [ BranchRoute("list", Sub, [LeafRoute("characters", NoOptions, ListCharacters),
                                LeafRoute("players", NoOptions, ListPlayers)]),
      LeafRoute("tokens", NoOptions, TokensCommand),
      LeafRoute("moves", Tuple([StringItem, StringItem, StringItem], Nothing), MovesCommand),
      GmRoute()]
  }

  /** `componentCmds`. */
  function ComponentRoutes(): seq<Route<LeafId>>
  {
    [LeafRoute("meme", NoOptions, Meme)]
  }

  /** `autocompleteCmds`: each leaf takes one string option and a rest element. */
  function AutocompleteRoutes(): seq<Route<LeafId>>
  {
    [ BranchRoute("gm", Subgroup, [BranchRoute("assign", Sub, [
        LeafRoute("tokens", Tuple([StringItem], Just(IntegerItem)), AutocompleteAssignTokens)])]),
      LeafRoute("moves", Tuple([StringItem], Just(StringItem)), AutocompleteMoves)]
  }

  /** The table the older root serves: the command routes. */
  function LegacyServer(): map<string, Handler<LeafId>>
  {
    DiscordRouterRoot(ApplicationRoutes())
  }

  /** The served table as the fold builds it, with `gm` left folded. */
  lemma ServerTable()
    ensures LegacyServer() == map[
              "list" := Branch(Sub, map["characters" := Leaf(NoOptions, ListCharacters),
                                        "players" := Leaf(NoOptions, ListPlayers)]),
              "tokens" := Leaf(NoOptions, TokensCommand),
              "moves" := Leaf(Tuple([StringItem, StringItem, StringItem], Nothing), MovesCommand),
              "gm" := GmRoute().1]
  {
    var characters := LeafRoute("characters", NoOptions, ListCharacters);
    var players := LeafRoute("players", NoOptions, ListPlayers);
    RouteTable.TableOfOne(characters);
    RouteTable.TableOfTwo(characters, players);
    var r := ApplicationRoutes();
    RouteTable.TableOfOne(r[0]);
    RouteTable.TableOfTwo(r[0], r[1]);
    RouteTable.TableOfThree(r[0], r[1], r[2]);
    RouteTable.TableOfFour(r[0], r[1], r[2], r[3]);
  }

  /** The `gm` table, group by group. */
  lemma GmTable()
    ensures GmRoute().1 == Branch(Subgroup, map[
              "game" := Branch(Sub, map["init" := Leaf(NoOptions, GameInit), "info" := Leaf(NoOptions, GameInfo)]),
              "assign" := Branch(Sub, map["character" := Leaf(Tuple([UserItem, StringItem], Nothing), AssignCharacter),
                                          "tokens" := Leaf(Tuple([StringItem, IntegerItem], Nothing), AssignTokens)]),
              "create" := Branch(Sub, map["character" := Leaf(Tuple([StringItem], Nothing), CreateCharacter)])])
  {
    var init, info := LeafRoute("init", NoOptions, GameInit), LeafRoute("info", NoOptions, GameInfo);
    RouteTable.TableOfOne(init);
    RouteTable.TableOfTwo(init, info);
    var character := LeafRoute("character", Tuple([UserItem, StringItem], Nothing), AssignCharacter);
    var tokens := LeafRoute("tokens", Tuple([StringItem, IntegerItem], Nothing), AssignTokens);
    RouteTable.TableOfOne(character);
    RouteTable.TableOfTwo(character, tokens);
    var create := LeafRoute("character", Tuple([StringItem], Nothing), CreateCharacter);
    RouteTable.TableOfOne(create);
    var game := BranchRoute("game", Sub, [init, info]);
    var assign := BranchRoute("assign", Sub, [character, tokens]);
    var creates := BranchRoute("create", Sub, [create]);
    RouteTable.TableOfOne(game);
    RouteTable.TableOfTwo(game, assign);
    RouteTable.TableOfThree(game, assign, creates);
  }

  /**
   * `/moves` takes exactly three string options (character, action, move)
   * and passes them on as one list; any other count is refused.
   */
  lemma MovesIsRouted(m: Member, guild: string, kind: int, opts: seq<Option>, game: Maybe<Game>)
    ensures var i := CommandRequest(m, guild, MessageData(kind, "moves", Just(opts)));
            var r := Dispatch(LegacyServer(), i, Just(game));
            && (|opts| == 3 && (forall k :: 0 <= k < 3 ==> opts[k].StringOption?) ==>
                  r == Success(Run(Call(MovesCommand, opts), Context(i, game))))
            && (|opts| != 3 ==> r == Failure(InvalidArguments))
  {
    ServerTable();
    MovesRouted(LegacyServer(), m, guild, kind, opts, game);
  }

  /** Dispatch through any table whose `moves` entry is the three-string leaf. */
  lemma MovesRouted(server: map<string, Handler<LeafId>>, m: Member, guild: string, kind: int, opts: seq<Option>,
                    game: Maybe<Game>)
    requires "moves" in server && server["moves"] == Leaf(Tuple([StringItem, StringItem, StringItem], Nothing), MovesCommand)
    ensures var i := CommandRequest(m, guild, MessageData(kind, "moves", Just(opts)));
            var r := Dispatch(server, i, Just(game));
            && (|opts| == 3 && (forall k :: 0 <= k < 3 ==> opts[k].StringOption?) ==>
                  r == Success(Run(Call(MovesCommand, opts), Context(i, game))))
            && (|opts| != 3 ==> r == Failure(InvalidArguments))
  {
  }

  /**
   * `/gm assign tokens <character> <count>` passes the group check, the
   * subcommand check and the leaf's tuple, and the leaf gets the two options.
   */
  lemma AssignTokensIsRouted(m: Member, guild: string, kind: int, s: Option, n: Option, game: Maybe<Game>)
    requires s.StringOption? && n.IntegerOption?
    ensures var group := SubcommandGroup("assign", [Subcommand("tokens", Given([s, n]))]);
            var i := CommandRequest(m, guild, MessageData(kind, "gm", Just([group])));
            Dispatch(LegacyServer(), i, Just(game)) == Success(Run(Call(AssignTokens, [s, n]), Context(i, game)))
  {
    ServerTable();
    GmAssignTokensInvoked(s, n);
  }

  /** The `gm` branch passes an `assign tokens` group down to its leaf with the two options. */
  lemma GmAssignTokensInvoked(s: Option, n: Option)
    requires s.StringOption? && n.IntegerOption?
    ensures var group := SubcommandGroup("assign", [Subcommand("tokens", Given([s, n]))]);
            Invoke(GmRoute().1, [group]) == Success(Call(AssignTokens, [s, n]))
  {
    GmTable();
    AssignTokensInvoked(GmRoute().1.server, s, n);
  }

  /** A `gm` table whose `assign tokens` leaf takes a string and an integer hands both to it. */
  lemma AssignTokensInvoked(gm: map<string, Handler<LeafId>>, s: Option, n: Option)
    requires s.StringOption? && n.IntegerOption?
    requires "assign" in gm && gm["assign"] == Branch(Sub, map[
               "character" := Leaf(Tuple([UserItem, StringItem], Nothing), AssignCharacter),
               "tokens" := Leaf(Tuple([StringItem, IntegerItem], Nothing), AssignTokens)])
    ensures var group := SubcommandGroup("assign", [Subcommand("tokens", Given([s, n]))]);
            Invoke(Branch(Subgroup, gm), [group]) == Success(Call(AssignTokens, [s, n]))
  {
    var sub := Subcommand("tokens", Given([s, n]));
    var group := SubcommandGroup("assign", [sub]);
    assert IsFlagOption(s) && IsFlagOption(n);
    assert ValidOption(sub) && ValidOption(group);
    assert Parses(Subgroup, [group]);
    assert NestedOptions(group) == [sub];
    assert Parses(Sub, [sub]);
    assert Invoke(gm["assign"], [sub]) == Invoke(gm["assign"].server["tokens"], [s, n]);
  }

  // ---------------------------------------------------------------------
  // Handlers
  // ---------------------------------------------------------------------

  type HandlerError = Endpoint.HandlerError

  /**
   * The `tokens` command: the same replies as the newer revision, checked
   * in the same order (the interaction kind, then the game).
   */
  function TokensHandler(ctx: Context<Maybe<Game>>, all: seq<Endpoint.TokenRow>, own: Maybe<Endpoint.OwnCount>,
                         capitalize: string -> string): (r: Result<Response, HandlerError>)
    ensures r.Success? ==> ctx.interaction.CommandRequest? && ctx.extra.Just?
    ensures !ctx.interaction.CommandRequest? ==> r == Failure(Endpoint.WrongInteractionType)
    ensures ctx.interaction.CommandRequest? && ctx.extra.Nothing? ==> r == Failure(Endpoint.NoGame)
    ensures ctx.interaction.CommandRequest? && ctx.extra.Just? && ctx.extra.value.gmDiscordId != ctx.interaction.member.userId ==>
              (own.Just? ==> r == Success(Endpoint.Ephemeral(PlayerTokensSentence(capitalize(own.value.name), own.value.tokens))))
              && (own.Nothing? ==> r == Failure(Endpoint.CharacterNotFound))
    ensures ctx.interaction.CommandRequest? && ctx.extra.Just? && ctx.extra.value.gmDiscordId == ctx.interaction.member.userId ==>
              (r.Success? <==> Endpoint.GetTokenContent(all, capitalize).Success?)
              && (r.Success? ==> r.value == Endpoint.Ephemeral(Endpoint.GetTokenContent(all, capitalize).value))
              && (r.Failure? ==> r.error == Endpoint.GetTokenContent(all, capitalize).error)
  {
    if !ctx.interaction.CommandRequest? then Failure(Endpoint.WrongInteractionType)
    else if ctx.extra.Nothing? then Failure(Endpoint.NoGame)
    else if ctx.extra.value.gmDiscordId == ctx.interaction.member.userId then
      match Endpoint.GetTokenContent(all, capitalize)
      case Success(content) => Success(Endpoint.Ephemeral(content))
      case Failure(e) => Failure(e)
    else
      match own
      case Just(o) => Success(Endpoint.Ephemeral(PlayerTokensSentence(capitalize(o.name), o.tokens)))
      case Nothing => Failure(Endpoint.CharacterNotFound)
  }

  /** The newer revision's interaction for an older command request. */
  function AsNewer(i: LegacyInteraction): Interaction
    requires i.CommandRequest?
  {
    ApplicationCommand(i.member, i.guildId, i.data)
  }

  /** For a command, the two revisions' `tokens` commands reply identically. */
  lemma TokensAgreeAcrossRevisions(ctx: Context<Maybe<Game>>, all: seq<Endpoint.TokenRow>,
                                   own: Maybe<Endpoint.OwnCount>, capitalize: string -> string)
    requires ctx.interaction.CommandRequest?
    ensures TokensHandler(ctx, all, own, capitalize) ==
              Endpoint.TokensHandler(Router.Context(AsNewer(ctx.interaction), ctx.extra), all, own, capitalize)
  {
  }

  /** The first character in table order with the given name in the given game and a token row. */
  function FirstNamed(order: seq<string>, characters: map<string, CharacterRow>, tokens: map<string, int>,
                      name: string, gameId: string): (r: Maybe<string>)
    ensures r.Just? ==>
              && r.value in order && r.value in characters && r.value in tokens
              && characters[r.value].name == name && characters[r.value].gameId == gameId
    ensures r.Nothing? ==> forall k :: 0 <= k < |order| ==>
              !(order[k] in characters && order[k] in tokens
                && characters[order[k]].name == name && characters[order[k]].gameId == gameId)
  {
    if |order| == 0 then Nothing
    else if order[0] in characters && order[0] in tokens
            && characters[order[0]].name == name && characters[order[0]].gameId == gameId then Just(order[0])
    else FirstNamed(order[1..], characters, tokens, name, gameId)
  }

  /**
   * `/moves <character> <action> <move>`. Without a game it throws. With
   * `list` it returns what the list body produced (`listReply`, no reply
   * when that body threw, the error being caught there). With `do` the
   * name must be a player's, and that player's character in this game
   * takes the token transition; the reply carries no flags. Any other
   * action returns nothing.
   */
  method MovesHandler(store: Store, ctx: Context<Maybe<Game>>, opts: seq<Option>, order: seq<string>,
                      listReply: Maybe<Response>, capitalize: string -> string)
    returns (r: Result<Maybe<Response>, HandlerError>)
    requires |opts| == 3 && forall k :: 0 <= k < 3 ==> opts[k].StringOption?
    requires store.Valid()
    modifies store
    ensures store.Valid() && store.characters == old(store.characters)
    ensures store.games == old(store.games) && store.assignments == old(store.assignments)
    ensures ctx.extra.Nothing? ==> r == Failure(Endpoint.NoGame)
    ensures ctx.extra.Just? && opts[1].text == "list" ==> r == Success(listReply)
    ensures ctx.extra.Just? && opts[1].text != "list" && opts[1].text != "do" ==> r == Success(Nothing)
    ensures ctx.extra.Just? && opts[1].text == "do" && !IsPlayer(opts[0].text) ==> r == Failure(Endpoint.NotAPlayer)
    ensures ctx.extra.Just? && opts[1].text == "do" && IsPlayer(opts[0].text) ==>
              var found := FirstNamed(order, old(store.characters), old(store.tokens), opts[0].text, ctx.extra.value.id);
              (r.Success? <==> found.Just?) && (r.Failure? ==> r == Failure(Endpoint.CharacterNotFound))
    ensures r.Failure? || opts[1].text != "do" ==> store.tokens == old(store.tokens)
    ensures r.Success? && opts[1].text == "do" ==>
              var found := FirstNamed(order, old(store.characters), old(store.tokens), opts[0].text, ctx.extra.value.id);
              var move := MoveFromValue(opts[2].text);
              && IsPlayer(opts[0].text) && found.Just?
              && store.tokens == old(store.tokens)[found.value := NextCount(move, old(store.tokens)[found.value])]
              && r == Success(Just(ChannelMessage(MoveContent(capitalize(opts[0].text), move), Nothing, Nothing)))
  {
    if ctx.extra.Nothing? {
      return Failure(Endpoint.NoGame);
    }
    var act := opts[1].text;
    if act == "list" {
      return Success(listReply);
    }
    if act != "do" {
      return Success(Nothing);
    }
    var c := opts[0].text;
    if !IsPlayer(c) {
      return Failure(Endpoint.NotAPlayer);
    }
    var found := FirstNamed(order, store.characters, store.tokens, c, ctx.extra.value.id);
    if found.Nothing? {
      return Failure(Endpoint.CharacterNotFound);
    }
    var content := ApplyMove(store, found.value, capitalize(c), opts[2].text);
    r := Success(Just(ChannelMessage(content, Nothing, Nothing)));
  }

  /** The newer revision's context for an older command context. */
  function NewerContext(ctx: Context<Maybe<Game>>): Router.Context<Maybe<Game>>
    requires ctx.interaction.CommandRequest?
  {
    Router.Context(AsNewer(ctx.interaction), ctx.extra)
  }

  /** `gm game init`: the same code as the newer revision's, run on the command's newer form. */
  method GameInitHandler(store: Store, ctx: Context<Maybe<Game>>, newId: string)
    returns (r: Result<Response, HandlerError>)
    requires store.Valid()
    modifies store
    ensures store.Valid()
    ensures store.characters == old(store.characters) && store.tokens == old(store.tokens)
    ensures store.assignments == old(store.assignments)
    ensures !ctx.interaction.CommandRequest? ==> r == Failure(Endpoint.WrongInteractionType) && store.games == old(store.games)
    ensures ctx.interaction.CommandRequest? ==>
              && store.games == old(store.games) + [Game(newId, ctx.interaction.member.userId, ctx.interaction.guildId)]
              && r == Success(Endpoint.Ephemeral("Started a new game run by <@" + ctx.interaction.member.userId + ">"))
  {
    if !ctx.interaction.CommandRequest? {
      return Failure(Endpoint.WrongInteractionType);
    }
    r := Endpoint.GameInitHandler(store, NewerContext(ctx), newId);
  }

  /** `gm game info`: the same code as the newer revision's, so the no-game reply is unreachable here too. */
  function GameInfoHandler(ctx: Context<Maybe<Game>>): (r: Result<Response, HandlerError>)
    requires ctx.interaction.CommandRequest?
    ensures r == Endpoint.GameInfoHandler(NewerContext(ctx))
    ensures r != Success(Endpoint.Ephemeral("No game running in this server"))
  {
    Endpoint.NoGameReplyUnreachable(NewerContext(ctx));
    match ctx.extra
    case Nothing => Failure(Endpoint.MissingContext)
    case Just(game) => Success(Endpoint.Ephemeral("This server has a game run by <@" + game.gmDiscordId + ">"))
  }

  /**
   * `gm assign character <user> <character>`: the same code as the newer
   * revision's, on the two options the leaf's tuple let through.
   */
  method AssignCharacterHandler(store: Store, ctx: Context<Maybe<Game>>, opts: seq<Option>)
    returns (r: Result<Response, HandlerError>)
    requires |opts| == 2 && opts[0].UserOption? && opts[1].StringOption?
    requires store.Valid()
    modifies store
    ensures store.Valid()
    ensures store.games == old(store.games) && store.characters == old(store.characters) && store.tokens == old(store.tokens)
    ensures ctx.extra.Nothing? ==> r == Failure(Endpoint.NoGame) && store.assignments == old(store.assignments)
    ensures ctx.extra.Just? ==>
              var a := Assignment(opts[0].userId, opts[1].text);
              && (a in old(store.assignments) ==>
                    r == Failure(Endpoint.DuplicateAssignment) && store.assignments == old(store.assignments))
              && (a !in old(store.assignments) ==>
                    && store.assignments == old(store.assignments) + [a]
                    && r == Success(Endpoint.Ephemeral(
                         if a.characterId in store.characters
                         then "Assigned " + store.characters[a.characterId].name + " to <@" + a.discordId + ">"
                         else "Character not found")))
  {
    var args := [Router.OptionArg(opts[0]), Router.OptionArg(opts[1])];
    assert Endpoint.Shape(Endpoint.AssignCharacter) == Just([Endpoint.UserArg, Endpoint.StringArg]);
    assert Endpoint.ArgsAccepted(Endpoint.AssignCharacter, args);
    // The handler reads only the game from its context.
    r := Endpoint.AssignCharacterHandler(store, Router.Context(Schema.Ping, ctx.extra), args);
  }

  /**
   * `gm assign tokens <name> <count>`: the character of this game whose
   * stored name is the lower-cased `name` gets exactly `count`; the reply
   * capitalises the name as typed.
   */
  method AssignTokensHandler(store: Store, ctx: Context<Maybe<Game>>, opts: seq<Option>, order: seq<string>,
                             capitalize: string -> string)
    returns (r: Result<Response, HandlerError>)
    requires |opts| == 2 && opts[0].StringOption? && opts[1].IntegerOption?
    requires store.Valid()
    modifies store
    ensures store.Valid() && store.characters == old(store.characters)
    ensures store.games == old(store.games) && store.assignments == old(store.assignments)
    ensures ctx.extra.Nothing? ==> r == Failure(Endpoint.NoGame) && store.tokens == old(store.tokens)
    ensures ctx.extra.Just? ==>
              var found := FirstNamedAny(order, old(store.characters), Text.ToLower(opts[0].text), ctx.extra.value.id);
              (found.Nothing? ==> r == Failure(Endpoint.CharacterNotFound) && store.tokens == old(store.tokens))
              && (found.Just? ==>
                    r == Success(Endpoint.Ephemeral(AssignedTokensSentence(capitalize(opts[0].text), opts[1].number)))
                    && store.tokens == if found.value in old(store.tokens) then old(store.tokens)[found.value := opts[1].number]
                                       else old(store.tokens))
  {
    if ctx.extra.Nothing? {
      return Failure(Endpoint.NoGame);
    }
    var found := FirstNamedAny(order, store.characters, Text.ToLower(opts[0].text), ctx.extra.value.id);
    if found.Nothing? {
      return Failure(Endpoint.CharacterNotFound);
    }
    store.UpdateTokenCount(found.value, opts[1].number);
    r := Success(Endpoint.Ephemeral(AssignedTokensSentence(capitalize(opts[0].text), opts[1].number)));
  }

  /** The first character in table order with the given name in the given game, token row or not. */
  function FirstNamedAny(order: seq<string>, characters: map<string, CharacterRow>, name: string, gameId: string)
    : (r: Maybe<string>)
    ensures r.Just? ==>
              && r.value in order && r.value in characters
              && characters[r.value].name == name && characters[r.value].gameId == gameId
    ensures r.Nothing? ==> forall k :: 0 <= k < |order| ==>
              !(order[k] in characters && characters[order[k]].name == name && characters[order[k]].gameId == gameId)
  {
    if |order| == 0 then Nothing
    else if order[0] in characters && characters[order[0]].name == name && characters[order[0]].gameId == gameId
    then Just(order[0])
    else FirstNamedAny(order[1..], characters, name, gameId)
  }

  /**
   * Names are stored lower-cased, so a character created as `name` is found
   * by `assign tokens` under any spelling with the same lower-case form.
   */
  lemma {:induction false} CreatedCharacterIsFound(order: seq<string>, characters: map<string, CharacterRow>,
                                                   id: string, name: string, typed: string, gameId: string)
    requires id in order && id in characters && characters[id] == CharacterRow(Text.ToLower(name), gameId)
    requires Text.ToLower(typed) == Text.ToLower(name)
    ensures FirstNamedAny(order, characters, Text.ToLower(typed), gameId).Just?
  {
    if order[0] != id {
      CreatedCharacterIsFound(order[1..], characters, id, name, typed, gameId);
    }
  }

  /**
   * The autocompletion leaves: the interaction must be an autocompletion
   * and the option focused; each match becomes one choice.
   */
  function AutocompleteHandler(ctx: Context<Maybe<Game>>, typed: Option, matches: seq<Endpoint.CharacterMatch>)
    : (r: Result<Response, HandlerError>)
    requires typed.StringOption?
    ensures r.Success? <==> ctx.interaction.AutocompleteRequest? && typed.focused == Just(true)
    ensures r.Success? ==>
              && r.value.AutocompleteResult?
              && |r.value.choices| == |matches|
              && forall k :: 0 <= k < |matches| ==>
                   r.value.choices[k] == Choice(Text.ToUpper(matches[k].name), matches[k].id)
  {
    if !ctx.interaction.AutocompleteRequest? then Failure(Endpoint.WrongInteractionType)
    else if typed.focused != Just(true) then Failure(Endpoint.NotFocused)
    else Success(AutocompleteResult(seq(|matches|, k requires 0 <= k < |matches| =>
                                          Choice(Text.ToUpper(matches[k].name), matches[k].id))))
  }

  /**
   * Under the older root the autocompletion handlers can never answer: the
   * root runs handlers only for command interactions, and the handlers
   * refuse every interaction but an autocompletion.
   */
  lemma AutocompleteNeverAnswers<H>(server: map<string, Handler<H>>, i: LegacyInteraction, game: Maybe<Game>,
                                    typed: Option, matches: seq<Endpoint.CharacterMatch>)
    requires typed.StringOption?
    requires Dispatch(server, i, Just(game)).Success?
    ensures AutocompleteHandler(Dispatch(server, i, Just(game)).value.context, typed, matches) ==
              Failure(Endpoint.WrongInteractionType)
  {
  }

  /**
   * `gm create character <name>`: needs a game, stores the lower-cased name
   * under a fresh id with a token count of 0.
   */
  method CreateCharacterHandler(store: Store, ctx: Context<Maybe<Game>>, opts: seq<Option>, newId: string)
    returns (r: Result<Response, HandlerError>)
    requires |opts| == 1 && opts[0].StringOption?
    requires store.Valid()
    modifies store
    ensures store.Valid()
    ensures store.games == old(store.games) && store.assignments == old(store.assignments)
    ensures r.Failure? ==> store.characters == old(store.characters) && store.tokens == old(store.tokens)
    ensures ctx.extra.Nothing? ==> r == Failure(Endpoint.NoGame)
    ensures ctx.extra.Just? && newId in old(store.characters) ==> r == Failure(Endpoint.DuplicateCharacter)
    ensures ctx.extra.Just? && newId !in old(store.characters) ==>
              r == Success(Endpoint.Ephemeral("Created new character: " + opts[0].text))
              && store.characters == old(store.characters)[newId := CharacterRow(Text.ToLower(opts[0].text), ctx.extra.value.id)]
              && store.tokens == old(store.tokens)[newId := 0]
  {
    if ctx.extra.Nothing? {
      return Failure(Endpoint.NoGame);
    }
    var name := opts[0].text;
    var ok := store.InsertCharacter(newId, CharacterRow(Text.ToLower(name), ctx.extra.value.id));
    if !ok {
      return Failure(Endpoint.DuplicateCharacter);
    }
    r := Success(Endpoint.Ephemeral("Created new character: " + name));
  }

  /** The endpoint's reply: the root's result when it is one (`if (res) return res`), else none. */
  function EndpointReply(res: Maybe<Maybe<Response>>): (reply: Maybe<Response>)
    ensures reply.Just? <==> res.Just? && res.value.Just?
    ensures reply.Just? ==> reply.value == res.value.value
  {
    match res
    case Just(Just(resp)) => Just(resp)
    case _ => Nothing
  }
}
