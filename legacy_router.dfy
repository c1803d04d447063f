/**
 * The older router: every route carries its own argument parser, a leaf
 * receives the parsed option list as ONE array argument, and the root
 * serves application commands only, turning every failure into no reply.
 */
module LegacyRouter {
  import opened Wrappers
  import opened Schema
  import opened LegacySchema
  import RouteTable

  /** The element validators route tuples are built from. */
  datatype ItemSchema =
    | StringItem      // `schema.stringOption`
    | IntegerItem     // `schema.integerOption`
    | BooleanItem     // `schema.booleanOption`
    | UserItem        // `schema.userOption`
    | SubItem         // one subcommand
    | SubgroupItem    // one subcommand or subcommand group

  /** Which options an element validator accepts. */
  predicate Accepts(s: ItemSchema, o: Option)
  {
    match s
    case StringItem => o.StringOption?
    case IntegerItem => o.IntegerOption?
    case BooleanItem => o.BooleanOption?
    case UserItem => o.UserOption?
    case SubItem => o.Subcommand? && ValidOption(o)
    case SubgroupItem => IsSubcommandOption(o) && ValidOption(o)
  }

  /** A route's parser: `z.tuple(items)`, with `.rest(rest)` when `rest` is given. */
  datatype Parser = Tuple(items: seq<ItemSchema>, rest: Maybe<ItemSchema>)

  /** `sub`: a list of exactly one subcommand. */
  const Sub: Parser := Tuple([SubItem], Nothing)

  /** `subgroup`: a list of exactly one subcommand or group. */
  const Subgroup: Parser := Tuple([SubgroupItem], Nothing)

  /**
   * `parser.parse(opts)` succeeds: one option per declared element, each
   * accepted by its element, and any further options accepted by the rest
   * element; without a rest element the length must match exactly.
   */
  predicate Parses(p: Parser, opts: seq<Option>)
  {
    |opts| >= |p.items|
    && (p.rest.Nothing? ==> |opts| == |p.items|)
    && (forall k :: 0 <= k < |p.items| ==> Accepts(p.items[k], opts[k]))
    && (p.rest.Just? ==> forall k :: |p.items| <= k < |opts| ==> Accepts(p.rest.value, opts[k]))
  }

  /** A route's handler, with the parser it was declared with. */
  datatype Handler<H> = Leaf(parser: Parser, fn: H) | Branch(parser: Parser, server: map<string, Handler<H>>)

  type Route<H> = (string, Handler<H>)

  datatype RouteBody<H> = HandlerFn(fn: H) | Children(routes: seq<Route<H>>)

  datatype RouteError =
    | InvalidArguments   // the route's parser threw
    | NoOption           // the parsed list was empty, so reading its first element's name threw
    | RouteNotFound      // `new Error("Route not found")`
    | NotACommand        // `messageInteraction.parse` threw
    | ContextFailed      // `getContext()` threw

  /** The application function reached and the one array it receives. */
  datatype Call<H> = Call(fn: H, options: seq<Option>)

  /** `discordRoute(path, parser, handler)`. */
  function DiscordRoute<H>(path: string, parser: Parser, body: RouteBody<H>): (r: Route<H>)
    ensures r.0 == path && r.1.parser == parser
    ensures body.HandlerFn? ==> r.1 == Leaf(parser, body.fn)
    ensures body.Children? ==> r.1.Branch? && r.1.server.Keys == RouteTable.Names(body.routes)
    ensures body.Children? ==> RouteTable.KeepsLast(body.routes, r.1.server)
  {
    match body
    case HandlerFn(fn) => (path, Leaf(parser, fn))
    case Children(routes) =>
      RouteTable.TableKeys(routes);
      RouteTable.TableKeepsLast(routes);
      (path, Branch(parser, RouteTable.Table(routes)))
  }

  /**
   * Calling a route's handler with the option list. A leaf parses the whole
   * list and passes the parsed list on. A branch parses the list, takes its
   * first element, looks its name up and calls the child with that element's
   * own options (`options ?? []`) as one array.
   */
  function Invoke<H>(h: Handler<H>, opts: seq<Option>): Result<Call<H>, RouteError>
  {
    if !Parses(h.parser, opts) then Failure(InvalidArguments)
    else match h
      case Leaf(_, fn) => Success(Call(fn, opts))
      case Branch(_, server) =>
        if |opts| == 0 then Failure(NoOption)
        else if opts[0].name !in server then Failure(RouteNotFound)
        else Invoke(server[opts[0].name], NestedOptions(opts[0]))
  }

  /** A leaf runs exactly when its parser accepts the list, and then gets that list. */
  lemma LeafRunsIffParsed<H>(p: Parser, fn: H, opts: seq<Option>)
    ensures Invoke(Leaf(p, fn), opts).Success? <==> Parses(p, opts)
    ensures Invoke(Leaf(p, fn), opts).Success? ==> Invoke(Leaf(p, fn), opts).value == Call(fn, opts)
  {
  }

  /** `z.tuple([])` accepts only the empty list. */
  lemma EmptyTupleAcceptsOnlyEmpty(opts: seq<Option>)
    ensures Parses(Tuple([], Nothing), opts) <==> opts == []
  {
  }

  /**
   * A tuple with a rest element accepts any number of trailing options of
   * the rest kind after the declared ones, and rejects one of another kind.
   */
  lemma RestAcceptsTrailing(first: Option, rest: seq<Option>, s: ItemSchema)
    requires first.StringOption?
    ensures Parses(Tuple([StringItem], Just(s)), [first] + rest) <==>
              forall k :: 0 <= k < |rest| ==> Accepts(s, rest[k])
  {
    var opts := [first] + rest;
    if forall k :: 0 <= k < |rest| ==> Accepts(s, rest[k]) {
      forall k | 1 <= k < |opts| ensures Accepts(s, opts[k]) {
        assert opts[k] == rest[k - 1];
      }
    } else {
      var k :| 0 <= k < |rest| && !Accepts(s, rest[k]);
      assert opts[k + 1] == rest[k];
    }
  }

  /** A branch whose first parsed option names no child throws "Route not found". */
  lemma BranchRouteNotFound<H>(p: Parser, server: map<string, Handler<H>>, opts: seq<Option>)
    requires Parses(p, opts) && |opts| > 0 && opts[0].name !in server
    ensures Invoke(Branch(p, server), opts) == Failure(RouteNotFound)
  {
  }

  /** A branch returns its child's result unchanged, given the first option's own options. */
  lemma BranchForwardsNested<H>(p: Parser, server: map<string, Handler<H>>, opts: seq<Option>)
    requires Parses(p, opts) && |opts| > 0 && opts[0].name in server
    ensures Invoke(Branch(p, server), opts) == Invoke(server[opts[0].name], NestedOptions(opts[0]))
  {
  }

  /** Under `sub`, a branch accepts exactly one option and only a well-formed subcommand. */
  lemma SubAcceptsOneSubcommand(opts: seq<Option>)
    ensures Parses(Sub, opts) <==> |opts| == 1 && opts[0].Subcommand? && ValidOption(opts[0])
  {
  }

  // ---------------------------------------------------------------------
  // The root
  // ---------------------------------------------------------------------

  /** What a handler sees: the validated command interaction and the caller's context. */
  datatype Context<C> = Context(interaction: LegacyInteraction, extra: C)

  datatype Run<H, C> = Run(call: Call<H>, context: Context<C>)

  /** `discordRouterRoot(routes)`: the root table. */
  function DiscordRouterRoot<H>(routes: seq<Route<H>>): (r: map<string, Handler<H>>)
    ensures r.Keys == RouteTable.Names(routes)
    ensures RouteTable.KeepsLast(routes, r)
  {
    RouteTable.TableKeys(routes);
    RouteTable.TableKeepsLast(routes);
    RouteTable.Table(routes)
  }

  /** A command's options, `data.options ?? []`. */
  function GivenOptions(data: MessageData): seq<Option>
  {
    match data.options
    case Just(os) => os
    case Nothing => []
  }

  /**
   * The root up to the handler call: validate as an application command,
   * await the context, look `data.name` up and invoke with `data.options ?? []`.
   */
  function Dispatch<H, C>(server: map<string, Handler<H>>, i: LegacyInteraction, context: Maybe<C>): (r: Result<Run<H, C>, RouteError>)
    ensures !i.CommandRequest? ==> r == Failure(NotACommand)
    ensures i.CommandRequest? && context.Nothing? ==> r == Failure(ContextFailed)
    ensures r.Success? ==> i.CommandRequest? && i.data.name in server && r.value.context == Context(i, context.value)
    ensures i.CommandRequest? && context.Just? ==>
              var name := i.data.name;
              (r.Success? <==> name in server && Invoke(server[name], GivenOptions(i.data)).Success?)
              && (r.Success? ==> r.value == Run(Invoke(server[name], GivenOptions(i.data)).value, Context(i, context.value)))
              && (r.Failure? ==> r.error == if name in server then Invoke(server[name], GivenOptions(i.data)).error
                                            else RouteNotFound)
  {
    if !i.CommandRequest? then Failure(NotACommand)
    else if context.Nothing? then Failure(ContextFailed)
    else if i.data.name !in server then Failure(RouteNotFound)
    else
      var opts := GivenOptions(i.data);
      match Invoke(server[i.data.name], opts)
      case Success(call) => Success(Run(call, Context(i, context.value)))
      case Failure(e) => Failure(e)
  }

  /**
   * The whole root: dispatch, then run the handler (`run` stands for the
   * application function). Every error, in dispatch or in the handler, is
   * caught and the result is then no reply.
   */
  function Serve<H, C, R, E>(server: map<string, Handler<H>>, i: LegacyInteraction, context: Maybe<C>,
                             run: Run<H, C> -> Result<R, E>): (r: Maybe<R>)
    ensures r.Just? <==> Dispatch(server, i, context).Success? && run(Dispatch(server, i, context).value).Success?
    ensures r.Just? ==> r.value == run(Dispatch(server, i, context).value).value
  {
    match Dispatch(server, i, context)
    case Failure(_) => Nothing
    case Success(x) =>
      match run(x)
      case Success(reply) => Just(reply)
      case Failure(_) => Nothing
  }

  /** The older root never answers a ping, nor any other non-command interaction. */
  lemma NonCommandsGetNoReply<H, C, R, E>(server: map<string, Handler<H>>, i: LegacyInteraction, context: Maybe<C>,
                                          run: Run<H, C> -> Result<R, E>)
    requires !i.CommandRequest?
    ensures Serve(server, i, context, run) == Nothing
  {
  }
}
