/**
 * The newer bot endpoint (`packages/server/src/discordEndpoint.ts`): the
 * concrete route tree given to the newer router, the argument shapes its
 * leaves declare, and the handlers that read and change game state.
 *
 * The handlers' ambient context is the explicit `Context` the router
 * builds; database reads other than the stored rows in `Store` are
 * parameters holding the rows the query returned; `capitalize` is a
 * parameter because its definition is not part of this model.
 */
module Endpoint {
  import opened Wrappers
  import opened Schema
  import opened Router
  import RouteTable
  import Text
  import opened TokenMoves

  // ---------------------------------------------------------------------
  // The route tree
  // ---------------------------------------------------------------------

  /** The application functions at the leaves of the tree. */
  datatype LeafId =
    | ListCharacters | ListPlayers | TokensCommand | MovesList | MovesDo
    | GameInit | GameInfo | AssignCharacter | AssignTokens | CreateCharacter
    | ComponentMoves | ComponentMovesList | MoveStrong | MoveNormal | MoveWeak
    | AutocompleteAssignTokens | AutocompleteMoves | CharacterSelectModal

  function LeafRoute(path: string, id: LeafId): Route<LeafId>
  {
    DiscordRoute(path, HandlerFn(id))
  }

  function BranchRoute(path: string, children: seq<Route<LeafId>>): Route<LeafId>
  {
    DiscordRoute(path, Children(children))
  }

  /** The `gm` command's groups and their subcommands. */
  function GmRoute(): Route<LeafId>
  {
    BranchRoute("gm", [
      BranchRoute("game", [LeafRoute("init", GameInit), LeafRoute("info", GameInfo)]),
      BranchRoute("assign", [LeafRoute("character", AssignCharacter), LeafRoute("tokens", AssignTokens)]),
      BranchRoute("create", [LeafRoute("character", CreateCharacter)])])
  }

  /** The autocompletion routes. */
  function AutocompleteRoutes(): seq<Route<LeafId>>
  {
    [ BranchRoute("gm", [BranchRoute("assign", [LeafRoute("tokens", AutocompleteAssignTokens)])]),
      LeafRoute("moves", AutocompleteMoves)]
  }

  /** The application command routes. */
  function CommandRoutes(): seq<Route<LeafId>>
  {
    [ BranchRoute("list", [LeafRoute("characters", ListCharacters), LeafRoute("players", ListPlayers)]),
      LeafRoute("tokens", TokensCommand),
      BranchRoute("moves", [LeafRoute("list", MovesList), LeafRoute("do", MovesDo)]),
      GmRoute()]
  }

  /** The four route lists passed to `discordRouterRoot`. */
  function RouteTree(): Tables<LeafId>
  {
    Tables(
      CommandRoutes(),
      [ LeafRoute("moves", ComponentMoves), LeafRoute("moves list", ComponentMovesList),
        LeafRoute("move-strong", MoveStrong), LeafRoute("move-normal", MoveNormal),
        LeafRoute("move-weak", MoveWeak)],
      AutocompleteRoutes(),
      [ LeafRoute("gm-character-select-moves-list", CharacterSelectModal)])
  }

  function EndpointRoot(): Root<LeafId>
  {
    DiscordRouterRoot(RouteTree())
  }

  /** The command path of each command leaf, outermost name first. */
  function CommandPath(id: LeafId): seq<string>
  {
    match id
    case ListCharacters => ["list", "characters"]
    case ListPlayers => ["list", "players"]
    case TokensCommand => ["tokens"]
    case MovesList => ["moves", "list"]
    case MovesDo => ["moves", "do"]
    case GameInit => ["gm", "game", "init"]
    case GameInfo => ["gm", "game", "info"]
    case AssignCharacter => ["gm", "assign", "character"]
    case AssignTokens => ["gm", "assign", "tokens"]
    case CreateCharacter => ["gm", "create", "character"]
    case _ => []
  }

  /** A branch of two leaves folds into the table of its two names. */
  lemma TwoLeafBranch(path: string, n1: string, f1: LeafId, n2: string, f2: LeafId)
    requires n1 != n2
    ensures BranchRoute(path, [LeafRoute(n1, f1), LeafRoute(n2, f2)]) == (path, Branch(map[n1 := Leaf(f1), n2 := Leaf(f2)]))
  {
    RouteTable.TableOfOne(LeafRoute(n1, f1));
    RouteTable.TableOfTwo(LeafRoute(n1, f1), LeafRoute(n2, f2));
  }

  /** The `gm` subtree's table. */
  lemma GmTable()
    ensures GmRoute() == ("gm", Branch(map[
              "game" := Branch(map["init" := Leaf(GameInit), "info" := Leaf(GameInfo)]),
              "assign" := Branch(map["character" := Leaf(AssignCharacter), "tokens" := Leaf(AssignTokens)]),
              "create" := Branch(map["character" := Leaf(CreateCharacter)])]))
  {
    TwoLeafBranch("game", "init", GameInit, "info", GameInfo);
    TwoLeafBranch("assign", "character", AssignCharacter, "tokens", AssignTokens);
    RouteTable.TableOfOne(LeafRoute("character", CreateCharacter));
    var game := BranchRoute("game", [LeafRoute("init", GameInit), LeafRoute("info", GameInfo)]);
    var assign := BranchRoute("assign", [LeafRoute("character", AssignCharacter), LeafRoute("tokens", AssignTokens)]);
    var create := BranchRoute("create", [LeafRoute("character", CreateCharacter)]);
    RouteTable.TableOfOne(game);
    RouteTable.TableOfTwo(game, assign);
    RouteTable.TableOfThree(game, assign, create);
  }

  /** The command table as the fold builds it. */
  lemma CommandTable()
    ensures var m := EndpointRoot().applicationCommandServer;
            && m.Keys == {"list", "tokens", "moves", "gm"}
            && m["list"] == Branch(map["characters" := Leaf(ListCharacters), "players" := Leaf(ListPlayers)])
            && m["tokens"] == Leaf(TokensCommand)
            && m["moves"] == Branch(map["list" := Leaf(MovesList), "do" := Leaf(MovesDo)])
            && m["gm"] == GmRoute().1
  {
    assert EndpointRoot().applicationCommandServer == RouteTable.Table(CommandRoutes());
    CommandMap();
    CommandFacts(RouteTable.Table(CommandRoutes()), GmRoute().1);
  }

  /** The command routes' fold, one route at a time. */
  lemma CommandMap()
    ensures RouteTable.Table(CommandRoutes()) == map[
              "list" := Branch(map["characters" := Leaf(ListCharacters), "players" := Leaf(ListPlayers)]),
              "tokens" := Leaf(TokensCommand),
              "moves" := Branch(map["list" := Leaf(MovesList), "do" := Leaf(MovesDo)]),
              "gm" := GmRoute().1]
  {
    var list := BranchRoute("list", [LeafRoute("characters", ListCharacters), LeafRoute("players", ListPlayers)]);
    var tokens := LeafRoute("tokens", TokensCommand);
    var moves := BranchRoute("moves", [LeafRoute("list", MovesList), LeafRoute("do", MovesDo)]);
    TwoLeafBranch("list", "characters", ListCharacters, "players", ListPlayers);
    TwoLeafBranch("moves", "list", MovesList, "do", MovesDo);
    RouteTable.TableOfOne(list);
    RouteTable.TableOfTwo(list, tokens);
    RouteTable.TableOfThree(list, tokens, moves);
    RouteTable.TableOfFour(list, tokens, moves, GmRoute());
  }

  /** The names and entries of the command table's literal. */
  lemma CommandFacts(m: map<string, Handler<LeafId>>, gm: Handler<LeafId>)
    requires m == map[
              "list" := Branch(map["characters" := Leaf(ListCharacters), "players" := Leaf(ListPlayers)]),
              "tokens" := Leaf(TokensCommand),
              "moves" := Branch(map["list" := Leaf(MovesList), "do" := Leaf(MovesDo)]),
              "gm" := gm]
    ensures m.Keys == {"list", "tokens", "moves", "gm"}
    ensures m["list"] == Branch(map["characters" := Leaf(ListCharacters), "players" := Leaf(ListPlayers)])
    ensures m["tokens"] == Leaf(TokensCommand)
    ensures m["moves"] == Branch(map["list" := Leaf(MovesList), "do" := Leaf(MovesDo)])
    ensures m["gm"] == gm
  {
  }

  /** The command table's top-level names are exactly `list`, `tokens`, `moves` and `gm`. */
  lemma CommandRootNames()
    ensures EndpointRoot().applicationCommandServer.Keys == {"list", "tokens", "moves", "gm"}
  {
    CommandTable();
  }

  /** Following a two-name path through a table of tables. */
  lemma ResolveTwo(m: map<string, Handler<LeafId>>, a: string, b: string)
    requires a in m && m[a].Branch? && b in m[a].server
    ensures Resolve(Branch(m), [a, b]) == Just(m[a].server[b])
  {
    assert [a, b][1..] == [b];
    assert [b][1..] == [];
    assert Resolve(m[a].server[b], []) == Just(m[a].server[b]);
    assert Resolve(m[a], [b]) == Just(m[a].server[b]);
  }

  /** Following a three-name path through three nested tables. */
  lemma ResolveThree(m: map<string, Handler<LeafId>>, a: string, b: string, c: string)
    requires a in m && m[a].Branch? && b in m[a].server && m[a].server[b].Branch? && c in m[a].server[b].server
    ensures Resolve(Branch(m), [a, b, c]) == Just(m[a].server[b].server[c])
  {
    assert [a, b, c][1..] == [b, c];
    ResolveTwo(m[a].server, b, c);
  }

  /** Every command leaf is reached by following its command path through the tables. */
  lemma CommandPathsResolve(id: LeafId)
    requires CommandPath(id) != []
    ensures Resolve(Branch(EndpointRoot().applicationCommandServer), CommandPath(id)) == Just(Leaf(id))
  {
    var m := EndpointRoot().applicationCommandServer;
    CommandTable();
    if id.GameInit? || id.GameInfo? || id.AssignCharacter? || id.AssignTokens? || id.CreateCharacter? {
      GmLeavesResolve(id, m);
    } else {
      OtherLeavesResolve(id, m);
    }
  }

  lemma OtherLeavesResolve(id: LeafId, m: map<string, Handler<LeafId>>)
    requires id.ListCharacters? || id.ListPlayers? || id.TokensCommand? || id.MovesList? || id.MovesDo?
    requires "list" in m && m["list"] == Branch(map["characters" := Leaf(ListCharacters), "players" := Leaf(ListPlayers)])
    requires "tokens" in m && m["tokens"] == Leaf(TokensCommand)
    requires "moves" in m && m["moves"] == Branch(map["list" := Leaf(MovesList), "do" := Leaf(MovesDo)])
    ensures Resolve(Branch(m), CommandPath(id)) == Just(Leaf(id))
  {
    match id
    case ListCharacters => ResolveTwo(m, "list", "characters");
    case ListPlayers => ResolveTwo(m, "list", "players");
    case TokensCommand => assert ["tokens"][1..] == [];
    case MovesList => ResolveTwo(m, "moves", "list");
    case MovesDo => ResolveTwo(m, "moves", "do");
  }

  lemma GmLeavesResolve(id: LeafId, m: map<string, Handler<LeafId>>)
    requires id.GameInit? || id.GameInfo? || id.AssignCharacter? || id.AssignTokens? || id.CreateCharacter?
    requires "gm" in m && m["gm"] == GmRoute().1
    ensures Resolve(Branch(m), CommandPath(id)) == Just(Leaf(id))
  {
    GmTable();
    match id
    case GameInit => ResolveThree(m, "gm", "game", "init");
    case GameInfo => ResolveThree(m, "gm", "game", "info");
    case AssignCharacter => ResolveThree(m, "gm", "assign", "character");
    case AssignTokens => ResolveThree(m, "gm", "assign", "tokens");
    case CreateCharacter => ResolveThree(m, "gm", "create", "character");
  }

  /** The component table: the two command names and the three move buttons' custom ids. */
  lemma ComponentKeys()
    ensures EndpointRoot().componentServer.Keys == {"moves", "moves list", "move-strong", "move-normal", "move-weak"}
  {
    var c := RouteTree().componentCmds;
    RouteTable.TableOfOne(c[0]);
    RouteTable.TableOfTwo(c[0], c[1]);
    RouteTable.TableOfThree(c[0], c[1], c[2]);
    RouteTable.TableOfFour(c[0], c[1], c[2], c[3]);
    RouteTable.TableOfFive(c[0], c[1], c[2], c[3], c[4]);
    assert c == [c[0], c[1], c[2], c[3], c[4]];
  }

  /** The modal table holds the one character-select id. */
  lemma ModalTable()
    ensures EndpointRoot().modalSubmitServer == map["gm-character-select-moves-list" := Leaf(CharacterSelectModal)]
  {
    RouteTable.TableOfOne(RouteTree().modalsubmitCmds[0]);
  }

  /** Autocompletion is routed for `gm assign tokens` and for `moves`. */
  lemma AutocompleteTable()
    ensures EndpointRoot().autoCompleteServer.Keys == {"gm", "moves"}
    ensures EndpointRoot().autoCompleteServer["moves"] == Leaf(AutocompleteMoves)
    ensures Resolve(Branch(EndpointRoot().autoCompleteServer), ["gm", "assign", "tokens"]) == Just(Leaf(AutocompleteAssignTokens))
  {
    assert EndpointRoot().autoCompleteServer == RouteTable.Table(AutocompleteRoutes());
    AutocompleteMap();
    AutocompleteFacts(EndpointRoot().autoCompleteServer);
  }

  /** What the autocomplete table's literal holds and where `gm assign tokens` leads in it. */
  lemma AutocompleteFacts(m: map<string, Handler<LeafId>>)
    requires m == map["gm" := Branch(map["assign" := Branch(map["tokens" := Leaf(AutocompleteAssignTokens)])]),
                      "moves" := Leaf(AutocompleteMoves)]
    ensures m.Keys == {"gm", "moves"} && m["moves"] == Leaf(AutocompleteMoves)
    ensures Resolve(Branch(m), ["gm", "assign", "tokens"]) == Just(Leaf(AutocompleteAssignTokens))
  {
    ResolveThree(m, "gm", "assign", "tokens");
  }


  /** The autocomplete table as the fold builds it. */
  lemma AutocompleteMap()
    ensures RouteTable.Table(AutocompleteRoutes())
              == map["gm" := Branch(map["assign" := Branch(map["tokens" := Leaf(AutocompleteAssignTokens)])]),
                     "moves" := Leaf(AutocompleteMoves)]
  {
    var tokens := LeafRoute("tokens", AutocompleteAssignTokens);
    RouteTable.TableOfOne(tokens);
    var assign := BranchRoute("assign", [tokens]);
    RouteTable.TableOfOne(assign);
    var gm := BranchRoute("gm", [assign]);
    var moves := LeafRoute("moves", AutocompleteMoves);
    RouteTable.TableOfOne(gm);
    RouteTable.TableOfTwo(gm, moves);
  }

  /**
   * `/moves do <move>` reaches the `moves do` leaf with the move option as
   * its only argument, under the interaction and the game found for it.
   */
  lemma MovesDoIsRouted(m: Member, guild: string, kind: int, opt: Option, game: Maybe<Game>)
    requires opt.StringOption?
    ensures var i := ApplicationCommand(m, guild, MessageData(kind, "moves", Just([Subcommand("do", Given([opt]))])));
            Dispatch(EndpointRoot(), i, Just(game)) == Success(Run(Call(MovesDo, [OptionArg(opt)]), Context(i, game)))
  {
    var sub := Subcommand("do", Given([opt]));
    var data := MessageData(kind, "moves", Just([sub]));
    var moves := map["list" := Leaf(MovesList), "do" := Leaf(MovesDo)];
    CommandTable();
    assert EndpointRoot().applicationCommandServer["moves"] == Branch(moves);
    MovesDoInvoked(kind, opt);
  }

  /** The `moves` branch hands the `do` subcommand's options to the `moves do` leaf. */
  lemma MovesDoInvoked(kind: int, opt: Option)
    requires opt.StringOption?
    ensures var sub := Subcommand("do", Given([opt]));
            var moves := map["list" := Leaf(MovesList), "do" := Leaf(MovesDo)];
            CommandArgs(MessageData(kind, "moves", Just([sub]))) == [OptionArg(sub)]
            && Invoke(Branch(moves), [OptionArg(sub)]) == Success(Call(MovesDo, [OptionArg(opt)]))
  {
    var sub := Subcommand("do", Given([opt]));
    var data := MessageData(kind, "moves", Just([sub]));
    var moves := map["list" := Leaf(MovesList), "do" := Leaf(MovesDo)];
    SubgroupAcceptsExactlyValidContainers(sub);
    assert IsSubgroup(OptionArg(sub));
    assert CommandArgs(data) == [OptionArg(sub)];
    assert OptionArgs(NestedOptions(sub)) == [OptionArg(opt)];
  }

  // ---------------------------------------------------------------------
  // Declared argument shapes
  // ---------------------------------------------------------------------

  datatype ArgKind = StringArg | IntegerArg | UserArg | TextArgKind

  predicate ArgFits(kind: ArgKind, a: Arg)
  {
    match kind
    case StringArg => a.OptionArg? && a.option.StringOption?
    case IntegerArg => a.OptionArg? && a.option.IntegerOption?
    case UserArg => a.OptionArg? && a.option.UserOption?
    case TextArgKind => a.TextArg?
  }

  /** The `z.function().args(...)` list a leaf declares; none for a plain `async` leaf. */
  function Shape(id: LeafId): Maybe<seq<ArgKind>>
  {
    match id
    case MovesList => Just([StringArg])
    case MovesDo => Just([StringArg])
    case AssignCharacter => Just([UserArg, StringArg])
    case AssignTokens => Just([StringArg, IntegerArg])
    case CreateCharacter => Just([StringArg])
    case AutocompleteAssignTokens => Just([StringArg])
    case AutocompleteMoves => Just([StringArg])
    case CharacterSelectModal => Just([TextArgKind])
    case _ => Nothing
  }

  /**
   * Whether a leaf's arguments pass its declared shape: one argument of the
   * declared kind per position; arguments past the declared ones are not
   * checked (the argument tuple's rest element is `unknown`).
   */
  predicate ArgsAccepted(id: LeafId, args: seq<Arg>)
  {
    match Shape(id)
    case Nothing => true
    case Just(kinds) => |args| >= |kinds| && forall k :: 0 <= k < |kinds| ==> ArgFits(kinds[k], args[k])
  }

  /** Extra trailing arguments never make a call fail validation. */
  lemma TrailingArgumentsIgnored(id: LeafId, args: seq<Arg>, extra: seq<Arg>)
    requires ArgsAccepted(id, args)
    ensures ArgsAccepted(id, args + extra)
  {
    match Shape(id)
    case Nothing =>
    case Just(kinds) =>
      forall k | 0 <= k < |kinds| ensures ArgFits(kinds[k], (args + extra)[k]) {
        assert (args + extra)[k] == args[k];
      }
  }

  /** `assign tokens` needs a string then an integer, in that order. */
  lemma AssignTokensShape(s: Option, n: Option)
    ensures ArgsAccepted(AssignTokens, [OptionArg(s), OptionArg(n)]) <==> s.StringOption? && n.IntegerOption?
    ensures !ArgsAccepted(AssignTokens, [OptionArg(n), OptionArg(s)]) || (n.StringOption? && s.IntegerOption?)
  {
    assert Shape(AssignTokens) == Just([StringArg, IntegerArg]);
    var ok := [OptionArg(s), OptionArg(n)];
    assert ArgsAccepted(AssignTokens, ok) <==> ArgFits(StringArg, ok[0]) && ArgFits(IntegerArg, ok[1]);
    var swapped := [OptionArg(n), OptionArg(s)];
    assert ArgsAccepted(AssignTokens, swapped) <==> ArgFits(StringArg, swapped[0]) && ArgFits(IntegerArg, swapped[1]);
  }

  // ---------------------------------------------------------------------
  // Handlers
  // ---------------------------------------------------------------------

  datatype HandlerError =
    | ArgumentsRejected       // the declared argument shape rejected the call
    | NoGame                  // "No game in this server"
    | WrongInteractionType    // "Wrong interaction type"
    | CharacterNotFound       // "Character not found!", or a missing row dereferenced
    | TokensMissing           // "Tokens missing in list!"
    | NotFocused              // "Option not focused"
    | DuplicateCharacter      // the inserted id already exists
    | NotAPlayer              // the older `moves do`: the name is not in the roster
    | MissingContext          // "Fucking context": the context lacks what the handler reads
    | DuplicateAssignment     // the inserted assignment already exists

  function Ephemeral(content: string): (r: Response)
    ensures ValidResponse(r)
  {
    ChannelMessage(Just(content), Nothing, Just(EPHEMERAL))
  }

  /** The invoking member is the game's GM. */
  predicate IsGm(ctx: Context<Maybe<Game>>)
    requires ctx.extra.Just? && ctx.interaction.ApplicationCommand?
  {
    ctx.extra.value.gmDiscordId == ctx.interaction.member.userId
  }

  /** One row of the game's character list joined with its token-count row, if any. */
  datatype TokenRow = TokenRow(name: string, tokens: Maybe<int>)

  /** One line of the GM's token list. */
  function TokenLine(capitalize: string -> string, name: string, count: int): string
  {
    "- " + capitalize(name) + ": " + Text.IntToString(count)
  }

  /**
   * `getTokenContent`: fails if any row lacks a token count, otherwise one
   * line per row, in row order, joined by newlines.
   */
  function GetTokenContent(rows: seq<TokenRow>, capitalize: string -> string): (r: Result<string, HandlerError>)
    ensures r.Failure? <==> exists k :: 0 <= k < |rows| && rows[k].tokens.Nothing?
  {
    if exists k :: 0 <= k < |rows| && rows[k].tokens.Nothing? then Failure(TokensMissing)
    else Success(Text.Join(seq(|rows|, k requires 0 <= k < |rows| => TokenLine(capitalize, rows[k].name, rows[k].tokens.value)), '\n'))
  }

  /**
   * Reading the GM's list back: when no capitalised name holds a newline,
   * splitting the text at newlines gives exactly one line per row, in row
   * order, and each line's count reads back as that row's count.
   */
  lemma TokenContentLines(rows: seq<TokenRow>, capitalize: string -> string)
    requires |rows| > 0
    requires forall k :: 0 <= k < |rows| ==> rows[k].tokens.Just? && '\n' !in capitalize(rows[k].name)
    ensures var lines := Text.Split(GetTokenContent(rows, capitalize).value, '\n');
            |lines| == |rows|
            && forall k :: 0 <= k < |rows| ==>
                 lines[k] == TokenLine(capitalize, rows[k].name, rows[k].tokens.value)
                 && Text.ParseInt(lines[k][|capitalize(rows[k].name)| + 4..]) == Just(rows[k].tokens.value)
  {
    var lines := seq(|rows|, k requires 0 <= k < |rows| => TokenLine(capitalize, rows[k].name, rows[k].tokens.value));
    forall k | 0 <= k < |rows| ensures '\n' !in lines[k] {
      var digits := Text.IntToString(rows[k].tokens.value);
      assert '\n' !in digits by {
        if rows[k].tokens.value < 0 {
          assert digits == [digits[0]] + digits[1..];
        }
      }
      assert lines[k] == "- " + capitalize(rows[k].name) + ": " + digits;
    }
    Text.SplitJoin(lines, '\n');
    forall k | 0 <= k < |rows|
      ensures Text.ParseInt(lines[k][|capitalize(rows[k].name)| + 4..]) == Just(rows[k].tokens.value)
    {
      Text.IntToStringRoundTrip(rows[k].tokens.value);
      assert lines[k][|capitalize(rows[k].name)| + 4..] == Text.IntToString(rows[k].tokens.value);
    }
  }

  /** The caller's own character and count, as the player's query returns it. */
  datatype OwnCount = OwnCount(name: string, tokens: int)

  /**
   * The `tokens` command: the GM gets every character's count, a player
   * gets their own character's count.
   */
  function TokensHandler(ctx: Context<Maybe<Game>>, all: seq<TokenRow>, own: Maybe<OwnCount>,
                         capitalize: string -> string): (r: Result<Response, HandlerError>)
    ensures r.Success? ==> ctx.interaction.ApplicationCommand? && ctx.extra.Just?
    ensures !ctx.interaction.ApplicationCommand? ==> r == Failure(WrongInteractionType)
    ensures ctx.interaction.ApplicationCommand? && ctx.extra.Nothing? ==> r == Failure(NoGame)
    ensures ctx.interaction.ApplicationCommand? && ctx.extra.Just? && !IsGm(ctx) && own.Just? ==>
              r == Success(Ephemeral(PlayerTokensSentence(capitalize(own.value.name), own.value.tokens)))
    ensures ctx.interaction.ApplicationCommand? && ctx.extra.Just? && !IsGm(ctx) && own.Nothing? ==>
              r == Failure(CharacterNotFound)
    ensures ctx.interaction.ApplicationCommand? && ctx.extra.Just? && IsGm(ctx) ==>
              (r.Success? <==> GetTokenContent(all, capitalize).Success?)
              && (r.Success? ==> r.value == Ephemeral(GetTokenContent(all, capitalize).value))
              && (r.Failure? ==> r.error == GetTokenContent(all, capitalize).error)
  {
    if !ctx.interaction.ApplicationCommand? then Failure(WrongInteractionType)
    else if ctx.extra.Nothing? then Failure(NoGame)
    else if IsGm(ctx) then
      match GetTokenContent(all, capitalize)
      case Success(content) => Success(Ephemeral(content))
      case Failure(e) => Failure(e)
    else
      match own
      case Just(o) => Success(Ephemeral(PlayerTokensSentence(capitalize(o.name), o.tokens)))
      case Nothing => Failure(CharacterNotFound)
  }

  /** The `list` replies: a bullet, then the items joined by a newline and a bullet. */
  function BulletList(items: seq<string>): string
  {
    "- " + Text.JoinWith(items, "\n- ")
  }

  /**
   * An empty list reads as a lone bullet; otherwise, when no item holds a
   * newline, the reply's lines are the items, each after a bullet, in order.
   */
  lemma BulletLines(items: seq<string>)
    requires forall k :: 0 <= k < |items| ==> '\n' !in items[k]
    ensures |items| == 0 ==> BulletList(items) == "- "
    ensures |items| > 0 ==>
              Text.Split(BulletList(items), '\n') == seq(|items|, k requires 0 <= k < |items| => "- " + items[k])
  {
    if |items| > 0 {
      var lines := seq(|items|, k requires 0 <= k < |items| => "- " + items[k]);
      Text.JoinWithPrefix(items, "- ");
      assert "\n" + "- " == "\n- ";
      assert BulletList(items) == Text.Join(lines, '\n');
      forall k | 0 <= k < |items| ensures '\n' !in lines[k] {
        assert lines[k] == "- " + items[k];
      }
      Text.SplitJoin(lines, '\n');
    }
  }

  /** `list characters`: needs a game; lists the game's characters, names capitalised, in row order. */
  function ListCharactersHandler(ctx: Context<Maybe<Game>>, names: seq<string>, capitalize: string -> string)
    : (r: Result<Response, HandlerError>)
    ensures r.Success? <==> ctx.extra.Just?
    ensures r.Failure? ==> r.error == NoGame
    ensures r.Success? ==>
              r.value == Ephemeral(BulletList(seq(|names|, k requires 0 <= k < |names| => capitalize(names[k]))))
  {
    if ctx.extra.Nothing? then Failure(NoGame)
    else Success(Ephemeral(BulletList(seq(|names|, k requires 0 <= k < |names| => capitalize(names[k])))))
  }

  /** `list players`: needs a game; mentions each of the game's users, in row order. */
  function ListPlayersHandler(ctx: Context<Maybe<Game>>, userIds: seq<string>): (r: Result<Response, HandlerError>)
    ensures r.Success? <==> ctx.extra.Just?
    ensures r.Failure? ==> r.error == NoGame
    ensures r.Success? ==>
              r.value == Ephemeral(BulletList(seq(|userIds|, k requires 0 <= k < |userIds| => "<@" + userIds[k] + ">")))
  {
    if ctx.extra.Nothing? then Failure(NoGame)
    else Success(Ephemeral(BulletList(seq(|userIds|, k requires 0 <= k < |userIds| => "<@" + userIds[k] + ">"))))
  }

  /** The first of the caller's characters that belongs to the game and has a token count. */
  function FirstPlayable(played: seq<string>, characters: map<string, CharacterRow>, tokens: map<string, int>,
                         gameId: string): (r: Maybe<string>)
    ensures r.Just? ==> r.value in played && r.value in characters && characters[r.value].gameId == gameId && r.value in tokens
    ensures r.Nothing? ==> forall k :: 0 <= k < |played| ==>
              !(played[k] in characters && characters[played[k]].gameId == gameId && played[k] in tokens)
  {
    if |played| == 0 then Nothing
    else if played[0] in characters && characters[played[0]].gameId == gameId && played[0] in tokens then Just(played[0])
    else FirstPlayable(played[1..], characters, tokens, gameId)
  }

  /**
   * `moves do <move>`: the GM is told so and nothing changes; otherwise the
   * first character assigned to the caller that belongs to the game and has
   * a token count takes the token transition, and the reply is its text,
   * under the message overwrite.
   */
  method MovesDoHandler(store: Store, ctx: Context<Maybe<Game>>, args: seq<Arg>, capitalize: string -> string)
    returns (r: Result<Response, HandlerError>)
    requires store.Valid()
    modifies store
    ensures store.Valid() && store.characters == old(store.characters)
    ensures store.games == old(store.games) && store.assignments == old(store.assignments)
    ensures !ArgsAccepted(MovesDo, args) ==> r == Failure(ArgumentsRejected)
    ensures ArgsAccepted(MovesDo, args) && ctx.extra.Nothing? ==> r == Failure(NoGame)
    ensures r.Failure? ==> store.tokens == old(store.tokens)
    ensures r.Success? ==> ctx.extra.Just? && ctx.interaction.ApplicationCommand?
    ensures ArgsAccepted(MovesDo, args) && ctx.extra.Just? && !ctx.interaction.ApplicationCommand? ==>
              r == Failure(WrongInteractionType)
    ensures ArgsAccepted(MovesDo, args) && ctx.extra.Just? && ctx.interaction.ApplicationCommand? ==>
              (IsGm(ctx) ==> r.Success?)
              && (!IsGm(ctx) ==>
                    var played := PlayedBy(old(store.assignments), ctx.interaction.member.userId);
                    (r.Success? <==> FirstPlayable(played, old(store.characters), old(store.tokens), ctx.extra.value.id).Just?)
                    && (r.Failure? ==> r.error == CharacterNotFound))
    ensures r.Success? && IsGm(ctx) ==>
              store.tokens == old(store.tokens) && r == Success(Ephemeral("You are the gm of this game"))
    ensures r.Success? && !IsGm(ctx) ==>
              var played := PlayedBy(store.assignments, ctx.interaction.member.userId);
              FirstPlayable(played, old(store.characters), old(store.tokens), ctx.extra.value.id).Just? &&
              var id := FirstPlayable(played, old(store.characters), old(store.tokens), ctx.extra.value.id).value;
              var move := MoveFromValue(args[0].option.text);
              && Assignment(ctx.interaction.member.userId, id) in store.assignments
              && store.tokens == old(store.tokens)[id := NextCount(move, old(store.tokens)[id])]
              && r == Success(ChannelMessage(MoveContent(capitalize(store.characters[id].name), move), Nothing, Just(EPHEMERAL)))
  {
    if !ArgsAccepted(MovesDo, args) {
      return Failure(ArgumentsRejected);
    }
    if ctx.extra.Nothing? {
      return Failure(NoGame);
    }
    if !ctx.interaction.ApplicationCommand? {
      return Failure(WrongInteractionType);
    }
    if IsGm(ctx) {
      return Success(Ephemeral("You are the gm of this game"));
    }
    var played := PlayedBy(store.assignments, ctx.interaction.member.userId);
    var found := FirstPlayable(played, store.characters, store.tokens, ctx.extra.value.id);
    if found.Nothing? {
      return Failure(CharacterNotFound);
    }
    var id := found.value;
    var content := ApplyMove(store, id, capitalize(store.characters[id].name), args[0].option.text);
    r := Success(ChannelMessage(content, Nothing, Just(EPHEMERAL)));
  }

  /** The guild an interaction comes from; a ping has none. */
  function Guild(i: Interaction): Maybe<string>
  {
    match i
    case Ping => Nothing
    case ApplicationCommand(_, g, _) => Just(g)
    case MessageComponent(_, g, _, _) => Just(g)
    case Autocomplete(g, _) => Just(g)
    case ModalSubmit(_, g, _, _) => Just(g)
  }

  /** The context the endpoint builds: no game for a ping, else the first game stored for the guild. */
  function GameContext(games: seq<Game>, i: Interaction): (r: Maybe<Game>)
    ensures i.Ping? ==> r.Nothing?
    ensures r.Just? ==> Guild(i).Just? && r.value in games && r.value.discordServerId == Guild(i).value
    ensures !i.Ping? && r.Nothing? ==> forall k :: 0 <= k < |games| ==> games[k].discordServerId != Guild(i).value
  {
    match Guild(i)
    case Nothing => Nothing
    case Just(g) => GameForGuild(games, g)
  }

  /**
   * `gm game init`: stores a new game for the guild, run by the caller,
   * whether or not the guild already has one. The new game becomes the
   * guild's context only when the guild had none; a second one is stored
   * but never found.
   */
  method GameInitHandler(store: Store, ctx: Context<Maybe<Game>>, newId: string)
    returns (r: Result<Response, HandlerError>)
    requires store.Valid()
    modifies store
    ensures store.Valid()
    ensures store.characters == old(store.characters) && store.tokens == old(store.tokens)
    ensures store.assignments == old(store.assignments)
    ensures !ctx.interaction.ApplicationCommand? ==> r == Failure(WrongInteractionType) && store.games == old(store.games)
    ensures ctx.interaction.ApplicationCommand? ==>
              var game := Game(newId, ctx.interaction.member.userId, ctx.interaction.guildId);
              && store.games == old(store.games) + [game]
              && r == Success(Ephemeral("Started a new game run by <@" + ctx.interaction.member.userId + ">"))
              && (GameContext(old(store.games), ctx.interaction).Nothing? ==>
                    GameContext(store.games, ctx.interaction) == Just(game))
              && (GameContext(old(store.games), ctx.interaction).Just? ==>
                    GameContext(store.games, ctx.interaction) == GameContext(old(store.games), ctx.interaction))
  {
    if !ctx.interaction.ApplicationCommand? {
      return Failure(WrongInteractionType);
    }
    var game := Game(newId, ctx.interaction.member.userId, ctx.interaction.guildId);
    NewGameIsFound(store.games, game);
    store.InsertGame(game);
    r := Success(Ephemeral("Started a new game run by <@" + ctx.interaction.member.userId + ">"));
  }

  /**
   * `gm game info`: names the game's GM. The context lookup throws when
   * there is no game, before the reply is built.
   */
  function GameInfoHandler(ctx: Context<Maybe<Game>>): (r: Result<Response, HandlerError>)
    ensures r.Success? <==> ctx.extra.Just?
    ensures r.Success? ==> r.value == Ephemeral("This server has a game run by <@" + ctx.extra.value.gmDiscordId + ">")
    ensures r.Success? ==> ValidResponse(r.value)
    ensures r.Failure? ==> r.error == MissingContext
  {
    match ctx.extra
    case Nothing => Failure(MissingContext)
    case Just(game) => Success(Ephemeral("This server has a game run by <@" + game.gmDiscordId + ">"))
  }

  /** The "No game running in this server" reply is never produced. */
  lemma NoGameReplyUnreachable(ctx: Context<Maybe<Game>>)
    ensures GameInfoHandler(ctx) != Success(Ephemeral("No game running in this server"))
  {
    if ctx.extra.Just? {
      var content := "This server has a game run by <@" + ctx.extra.value.gmDiscordId + ">";
      assert content[0] == 'T';
      assert "No game running in this server"[0] == 'N';
    }
  }

  /**
   * `gm assign character <user> <character>`: needs a game; stores the
   * assignment (a duplicate violates the unique key and throws) and names
   * the character if it exists. The id is not checked against the stored
   * characters, so an assignment to a missing one is stored too.
   */
  method AssignCharacterHandler(store: Store, ctx: Context<Maybe<Game>>, args: seq<Arg>)
    returns (r: Result<Response, HandlerError>)
    requires store.Valid()
    modifies store
    ensures store.Valid()
    ensures store.games == old(store.games) && store.characters == old(store.characters) && store.tokens == old(store.tokens)
    ensures !ArgsAccepted(AssignCharacter, args) || ctx.extra.Nothing? ==> store.assignments == old(store.assignments)
    ensures !ArgsAccepted(AssignCharacter, args) ==> r == Failure(ArgumentsRejected)
    ensures ArgsAccepted(AssignCharacter, args) && ctx.extra.Nothing? ==> r == Failure(NoGame)
    ensures ArgsAccepted(AssignCharacter, args) && ctx.extra.Just? ==>
              var a := Assignment(args[0].option.userId, args[1].option.text);
              && (a in old(store.assignments) ==> r == Failure(DuplicateAssignment) && store.assignments == old(store.assignments))
              && (a !in old(store.assignments) ==>
                    && store.assignments == old(store.assignments) + [a]
                    && a.characterId in PlayedBy(store.assignments, a.discordId)
                    && r == Success(Ephemeral(
                         if a.characterId in store.characters
                         then "Assigned " + store.characters[a.characterId].name + " to <@" + a.discordId + ">"
                         else "Character not found")))
  {
    if !ArgsAccepted(AssignCharacter, args) {
      return Failure(ArgumentsRejected);
    }
    if ctx.extra.Nothing? {
      return Failure(NoGame);
    }
    var a := Assignment(args[0].option.userId, args[1].option.text);
    var ok := store.InsertAssignment(a);
    if !ok {
      return Failure(DuplicateAssignment);
    }
    if a.characterId in store.characters {
      r := Success(Ephemeral("Assigned " + store.characters[a.characterId].name + " to <@" + a.discordId + ">"));
    } else {
      r := Success(Ephemeral("Character not found"));
    }
  }

  /**
   * `gm assign tokens <character> <count>`: the character's count becomes
   * exactly the given integer (nothing is written if it has no count row).
   */
  method AssignTokensHandler(store: Store, args: seq<Arg>, capitalize: string -> string)
    returns (r: Result<Response, HandlerError>)
    requires store.Valid()
    modifies store
    ensures store.Valid() && store.characters == old(store.characters)
    ensures store.games == old(store.games) && store.assignments == old(store.assignments)
    ensures !ArgsAccepted(AssignTokens, args) ==> r == Failure(ArgumentsRejected) && store.tokens == old(store.tokens)
    ensures ArgsAccepted(AssignTokens, args) ==>
              var id := args[0].option.text;
              var n := args[1].option.number;
              (id !in old(store.characters) ==> r == Failure(CharacterNotFound) && store.tokens == old(store.tokens))
              && (id in old(store.characters) ==>
                    r == Success(Ephemeral(AssignedTokensSentence(capitalize(old(store.characters)[id].name), n)))
                    && store.tokens == if id in old(store.tokens) then old(store.tokens)[id := n] else old(store.tokens))
  {
    if !ArgsAccepted(AssignTokens, args) {
      return Failure(ArgumentsRejected);
    }
    var id := args[0].option.text;
    var n := args[1].option.number;
    if id !in store.characters {
      return Failure(CharacterNotFound);
    }
    store.UpdateTokenCount(id, n);
    r := Success(Ephemeral(AssignedTokensSentence(capitalize(store.characters[id].name), n)));
  }

  /**
   * `gm create character <name>`: stores the character under a fresh id
   * with its name lower-cased and a token count of 0.
   */
  method CreateCharacterHandler(store: Store, ctx: Context<Maybe<Game>>, args: seq<Arg>, newId: string)
    returns (r: Result<Response, HandlerError>)
    requires store.Valid()
    modifies store
    ensures store.Valid()
    ensures store.games == old(store.games) && store.assignments == old(store.assignments)
    ensures r.Failure? ==> store.characters == old(store.characters) && store.tokens == old(store.tokens)
    ensures !ArgsAccepted(CreateCharacter, args) ==> r == Failure(ArgumentsRejected)
    ensures ArgsAccepted(CreateCharacter, args) && ctx.extra.Nothing? ==> r == Failure(NoGame)
    ensures ArgsAccepted(CreateCharacter, args) && ctx.extra.Just? && newId in old(store.characters) ==>
              r == Failure(DuplicateCharacter)
    ensures ArgsAccepted(CreateCharacter, args) && ctx.extra.Just? && newId !in old(store.characters) ==>
              var name := args[0].option.text;
              r == Success(Ephemeral("Created new character: " + name))
              && store.characters == old(store.characters)[newId := CharacterRow(Text.ToLower(name), ctx.extra.value.id)]
              && store.tokens == old(store.tokens)[newId := 0]
  {
    if !ArgsAccepted(CreateCharacter, args) {
      return Failure(ArgumentsRejected);
    }
    if ctx.extra.Nothing? {
      return Failure(NoGame);
    }
    var name := args[0].option.text;
    var ok := store.InsertCharacter(newId, CharacterRow(Text.ToLower(name), ctx.extra.value.id));
    if !ok {
      return Failure(DuplicateCharacter);
    }
    r := Success(Ephemeral("Created new character: " + name));
  }

  /** A character found by the autocompletion search. */
  datatype CharacterMatch = CharacterMatch(id: string, name: string)

  /**
   * The two autocompletion leaves: the option must be focused, and each
   * match becomes one choice named by the upper-cased name, valued by the id.
   */
  function AutocompleteHandler(id: LeafId, ctx: Context<Maybe<Game>>, args: seq<Arg>, matches: seq<CharacterMatch>)
    : (r: Result<Response, HandlerError>)
    requires id == AutocompleteAssignTokens || id == AutocompleteMoves
    ensures r.Success? <==> ArgsAccepted(id, args) && ctx.interaction.Autocomplete? && args[0].option.focused == Just(true)
    ensures r.Success? ==>
              && r.value.AutocompleteResult? && ValidResponse(r.value)
              && |r.value.choices| == |matches|
              && forall k :: 0 <= k < |matches| ==>
                   r.value.choices[k] == Choice(Text.ToUpper(matches[k].name), matches[k].id)
  {
    if !ArgsAccepted(id, args) then Failure(ArgumentsRejected)
    else if !ctx.interaction.Autocomplete? then Failure(WrongInteractionType)
    else if args[0].option.focused != Just(true) then Failure(NotFocused)
    else Success(AutocompleteResult(seq(|matches|, k requires 0 <= k < |matches| =>
                                          Choice(Text.ToUpper(matches[k].name), matches[k].id))))
  }

  /** An unfocused option is refused whatever the search would find. */
  lemma UnfocusedRejected(id: LeafId, ctx: Context<Maybe<Game>>, opt: Option, matches: seq<CharacterMatch>)
    requires id == AutocompleteAssignTokens || id == AutocompleteMoves
    requires ctx.interaction.Autocomplete? && opt.StringOption? && opt.focused != Just(true)
    ensures AutocompleteHandler(id, ctx, [OptionArg(opt)], matches) == Failure(NotFocused)
  {
  }

  /** The reply of the component handlers that are not finished yet. */
  const UnderConstruction: Response := Ephemeral("Working, but not implemented")

  /**
   * The `moves` component and the three move buttons: each answers with the
   * placeholder reply; the `moves` component first checks that the
   * interaction is a component.
   */
  function PlaceholderHandler(id: LeafId, ctx: Context<Maybe<Game>>): (r: Result<Response, HandlerError>)
    requires id == ComponentMoves || id == MoveStrong || id == MoveNormal || id == MoveWeak
    ensures r.Failure? <==> id == ComponentMoves && !ctx.interaction.MessageComponent?
    ensures r.Success? ==> r.value == UnderConstruction && ValidResponse(r.value)
  {
    if id == ComponentMoves && !ctx.interaction.MessageComponent? then Failure(WrongInteractionType)
    else Success(UnderConstruction)
  }

  /**
   * The character-select modal: reading the game's guild throws when there
   * is no game; the reply lists the names the search found, one per line.
   */
  function CharacterSelectHandler(ctx: Context<Maybe<Game>>, args: seq<Arg>, matches: seq<CharacterMatch>)
    : (r: Result<Response, HandlerError>)
    ensures r.Success? <==> ArgsAccepted(CharacterSelectModal, args) && ctx.extra.Just?
    ensures !ArgsAccepted(CharacterSelectModal, args) ==> r == Failure(ArgumentsRejected)
    ensures ArgsAccepted(CharacterSelectModal, args) && ctx.extra.Nothing? ==> r == Failure(MissingContext)
    ensures r.Success? ==> ValidResponse(r.value)
                           && r.value == Ephemeral(Text.Join(seq(|matches|, k requires 0 <= k < |matches| => matches[k].name), '\n'))
  {
    if !ArgsAccepted(CharacterSelectModal, args) then Failure(ArgumentsRejected)
    else if ctx.extra.Nothing? then Failure(MissingContext)
    else Success(Ephemeral(Text.Join(seq(|matches|, k requires 0 <= k < |matches| => matches[k].name), '\n')))
  }

  /** When no found name holds a newline, splitting the modal's reply at newlines gives the names back in order. */
  lemma CharacterSelectLines(ctx: Context<Maybe<Game>>, args: seq<Arg>, matches: seq<CharacterMatch>)
    requires CharacterSelectHandler(ctx, args, matches).Success?
    requires |matches| > 0 && forall k :: 0 <= k < |matches| ==> '\n' !in matches[k].name
    ensures var content := CharacterSelectHandler(ctx, args, matches).value.content.value;
            Text.Split(content, '\n') == seq(|matches|, k requires 0 <= k < |matches| => matches[k].name)
  {
    Text.SplitJoin(seq(|matches|, k requires 0 <= k < |matches| => matches[k].name), '\n');
  }

  /** The endpoint's `try`: a thrown error, or a handler that returns nothing, sends no reply. */
  function EndpointReply(r: Result<Maybe<Response>, HandlerError>): (reply: Maybe<Response>)
    ensures reply.Just? <==> r.Success? && r.value.Just?
    ensures reply.Just? ==> reply.value == r.value.value
  {
    match r
    case Success(Just(resp)) => Just(resp)
    case _ => Nothing
  }
}
