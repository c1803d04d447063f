/**
 * The newer router (`@cg/discord-router`): route values built by
 * `discordRoute`, the branch handler that descends one level of nested
 * options, and the root that picks one of four tables by interaction kind.
 *
 * A handler is modelled by the value `H` naming the application function it
 * would run; running it is the caller's business. Invocation returns the
 * call that would be made, with its positional arguments, or the error
 * thrown before any handler runs.
 */
module Router {
  import opened Wrappers
  import opened Schema
  import RouteTable

  /** A positional argument passed to a handler: an option, or a submitted modal text. */
  datatype Arg = OptionArg(option: Option) | TextArg(text: string)

  /**
   * A route's handler: an application function, or the branch function
   * `discordRoute` builds around its children's table.
   */
  datatype Handler<H> = Leaf(fn: H) | Branch(server: map<string, Handler<H>>)

  type Route<H> = (string, Handler<H>)

  /** The second argument of `discordRoute`: a handler function or a list of child routes. */
  datatype RouteBody<H> = HandlerFn(fn: H) | Children(routes: seq<Route<H>>)

  /** The errors thrown before any application handler runs. */
  datatype RouteError =
    | RouteNotFound        // `new Error("Route not found")`, and the root's `routeError`
    | InvalidArguments     // `subgroup.parse` rejected the first argument
    | ContextFailed        // `getContext()` threw

  /** The application function reached and the arguments it is called with. */
  datatype Call<H> = Call(fn: H, args: seq<Arg>)

  /** `discordRoute(path, handler)`. */
  function DiscordRoute<H>(path: string, body: RouteBody<H>): (r: Route<H>)
    ensures r.0 == path
    ensures body.HandlerFn? ==> r.1 == Leaf(body.fn)
    ensures body.Children? ==> r.1.Branch? && r.1.server.Keys == RouteTable.Names(body.routes)
    ensures body.Children? ==> forall i :: RouteTable.LastWithName(body.routes, i) ==>
              r.1.server[body.routes[i].0] == body.routes[i].1
  {
    match body
    case HandlerFn(fn) => (path, Leaf(fn))
    case Children(routes) =>
      RouteTable.TableKeys(routes);
      forall i | RouteTable.LastWithName(routes, i)
        ensures routes[i].0 in RouteTable.Table(routes) && RouteTable.Table(routes)[routes[i].0] == routes[i].1
      {
        RouteTable.TableLastWins(routes, i);
      }
      (path, Branch(RouteTable.Table(routes)))
  }

  /**
   * `subgroup.parse(opt)` succeeds: the argument is an option whose wire
   * form the union of `subcommand` and `subcommandGroup` accepts.
   */
  predicate IsSubgroup(a: Arg)
  {
    a.OptionArg? && ParseSubcommandOption(EncodeOption(a.option)).Just?
  }

  /** Options as positional arguments, in order. */
  function OptionArgs(os: seq<Option>): (r: seq<Arg>)
    ensures |r| == |os| && forall k :: 0 <= k < |os| ==> r[k] == OptionArg(os[k])
  {
    seq(|os|, k requires 0 <= k < |os| => OptionArg(os[k]))
  }

  /**
   * Calling a route's handler with `args`. A leaf is the application
   * function itself and receives every argument. A branch looks only at its
   * first argument: it must pass `subgroup`, its name must be in the
   * branch's table, and the child is then called with that option's own
   * options (`options ?? []`); any further arguments are dropped.
   */
  function Invoke<H>(h: Handler<H>, args: seq<Arg>): Result<Call<H>, RouteError>
  {
    match h
    case Leaf(fn) => Success(Call(fn, args))
    case Branch(server) =>
      if |args| == 0 || !IsSubgroup(args[0]) then Failure(InvalidArguments)
      else if args[0].option.name !in server then Failure(RouteNotFound)
      else Invoke(server[args[0].option.name], OptionArgs(NestedOptions(args[0].option)))
  }

  /** The path of container names an option spells out, outermost first. */
  function Path(o: Option): seq<string>
  {
    match o
    case Subcommand(name, _) => [name]
    case SubcommandGroup(name, children) =>
      [name] + (if |children| > 0 then Path(children[0]) else [])
    case _ => []
  }

  /** The path the first argument spells out; empty when it is not an option. */
  function ArgPath(args: seq<Arg>): seq<string>
  {
    if |args| > 0 && args[0].OptionArg? then Path(args[0].option) else []
  }

  /** Following names down through branches: the independent reference for lookup. */
  function Resolve<H>(h: Handler<H>, names: seq<string>): Maybe<Handler<H>>
  {
    if |names| == 0 then Just(h)
    else match h
      case Leaf(_) => Nothing
      case Branch(server) => if names[0] in server then Resolve(server[names[0]], names[1..]) else Nothing
  }

  /**
   * A successful invocation runs the leaf found by following a prefix of
   * the path the arguments spell out: each branch consumes one container
   * name, and nothing else selects the handler.
   */
  lemma {:induction false} InvokeFollowsPath<H>(h: Handler<H>, args: seq<Arg>)
    requires Invoke(h, args).Success?
    ensures exists k :: 0 <= k <= |ArgPath(args)| &&
              Resolve(h, ArgPath(args)[..k]) == Just(Leaf(Invoke(h, args).value.fn))
  {
    var fn := Invoke(h, args).value.fn;
    match h
    case Leaf(f) =>
      assert ArgPath(args)[..0] == [];
    case Branch(server) =>
      var o := args[0].option;
      var child := server[o.name];
      var rest := OptionArgs(NestedOptions(o));
      InvokeFollowsPath(child, rest);
      var k :| 0 <= k <= |ArgPath(rest)| && Resolve(child, ArgPath(rest)[..k]) == Just(Leaf(fn));
      SubgroupAcceptsExactlyValidContainers(o);
      assert ArgPath(args) == [o.name] + ArgPath(rest) by {
        match o
        case Subcommand(_, flags) =>
          if |rest| > 0 {
            assert IsFlagOption(flags.items[0]);
          }
        case SubcommandGroup(_, _) =>
      }
      var p := ArgPath(args);
      assert p[..k + 1] == [o.name] + ArgPath(rest)[..k];
      assert p[..k + 1][1..] == ArgPath(rest)[..k];
  }

  /** A branch called without an argument, or with one `subgroup` rejects, throws before any lookup. */
  lemma BranchRejectsBadFirstArgument<H>(server: map<string, Handler<H>>, args: seq<Arg>)
    requires |args| == 0 || !(args[0].OptionArg? && IsSubcommandOption(args[0].option) && ValidOption(args[0].option))
    ensures Invoke(Branch(server), args) == Failure(InvalidArguments)
  {
    if |args| > 0 && args[0].OptionArg? {
      SubgroupAcceptsExactlyValidContainers(args[0].option);
    }
  }

  /** A branch ignores every argument after the first. */
  lemma BranchIgnoresTrailingArguments<H>(server: map<string, Handler<H>>, first: Arg, rest: seq<Arg>)
    ensures Invoke(Branch(server), [first] + rest) == Invoke(Branch(server), [first])
  {
  }

  /** Any value options among a subcommand's options reach its leaf, all of them, in order. */
  lemma SubcommandLeafReceivesItsOptions<H>(server: map<string, Handler<H>>, name: string, flags: seq<Option>, fn: H)
    requires forall k :: 0 <= k < |flags| ==> IsFlagOption(flags[k])
    requires name in server && server[name] == Leaf(fn)
    ensures Invoke(Branch(server), [OptionArg(Subcommand(name, Given(flags)))]) == Success(Call(fn, OptionArgs(flags)))
  {
    SubgroupAcceptsExactlyValidContainers(Subcommand(name, Given(flags)));
  }

  /**
   * Groups nest without limit in the schema: a three-level group chain
   * above a subcommand is accepted and routed.
   */
  lemma DeepGroupsAreRouted<H>(fn: H)
    ensures var o := SubcommandGroup("a", [SubcommandGroup("b", [SubcommandGroup("c", [Subcommand("d", Omitted)])])]);
            var h := Branch(map["a" := Branch(map["b" := Branch(map["c" := Branch(map["d" := Leaf(fn)])])])]);
            Invoke(h, [OptionArg(o)]) == Success(Call(fn, []))
  {
    var d := Subcommand("d", Omitted);
    var c := SubcommandGroup("c", [d]);
    var b := SubcommandGroup("b", [c]);
    var a := SubcommandGroup("a", [b]);
    var hd := Branch(map["d" := Leaf(fn)]);
    var hc := Branch(map["c" := hd]);
    var hb := Branch(map["b" := hc]);
    SubgroupAcceptsExactlyValidContainers(d);
    assert Invoke(hd, [OptionArg(d)]) == Success(Call(fn, []));
    SubgroupAcceptsExactlyValidContainers(c);
    GroupLayer("c", d, hd, Call(fn, []));
    SubgroupAcceptsExactlyValidContainers(b);
    GroupLayer("b", c, hc, Call(fn, []));
    SubgroupAcceptsExactlyValidContainers(a);
    GroupLayer("a", b, hb, Call(fn, []));
  }

  /** A group holding one container passes that container on to the branch under its name. */
  lemma GroupLayer<H>(name: string, inner: Option, h: Handler<H>, c: Call<H>)
    requires IsSubgroup(OptionArg(SubcommandGroup(name, [inner])))
    requires Invoke(h, [OptionArg(inner)]) == Success(c)
    ensures Invoke(Branch(map[name := h]), [OptionArg(SubcommandGroup(name, [inner]))]) == Success(c)
  {
    assert NestedOptions(SubcommandGroup(name, [inner])) == [inner];
    assert OptionArgs([inner]) == [OptionArg(inner)];
  }

  // ---------------------------------------------------------------------
  // The root
  // ---------------------------------------------------------------------

  /** The four route lists given to `discordRouterRoot`. */
  datatype Tables<H> = Tables(applicationCmds: seq<Route<H>>, componentCmds: seq<Route<H>>,
                              autocompleteCmds: seq<Route<H>>, modalsubmitCmds: seq<Route<H>>)

  /** The four tables the root closes over. */
  datatype Root<H> = Root(applicationCommandServer: map<string, Handler<H>>,
                          componentServer: map<string, Handler<H>>,
                          autoCompleteServer: map<string, Handler<H>>,
                          modalSubmitServer: map<string, Handler<H>>)

  /** `discordRouterRoot(handlers)`: each list folded into its own table. */
  function DiscordRouterRoot<H>(t: Tables<H>): (r: Root<H>)
    ensures r.applicationCommandServer.Keys == RouteTable.Names(t.applicationCmds)
    ensures r.componentServer.Keys == RouteTable.Names(t.componentCmds)
    ensures r.autoCompleteServer.Keys == RouteTable.Names(t.autocompleteCmds)
    ensures r.modalSubmitServer.Keys == RouteTable.Names(t.modalsubmitCmds)
    ensures RouteTable.KeepsLast(t.applicationCmds, r.applicationCommandServer)
    ensures RouteTable.KeepsLast(t.componentCmds, r.componentServer)
    ensures RouteTable.KeepsLast(t.autocompleteCmds, r.autoCompleteServer)
    ensures RouteTable.KeepsLast(t.modalsubmitCmds, r.modalSubmitServer)
  {
    RouteTable.TableKeys(t.applicationCmds);
    RouteTable.TableKeys(t.componentCmds);
    RouteTable.TableKeys(t.autocompleteCmds);
    RouteTable.TableKeys(t.modalsubmitCmds);
    RouteTable.TableKeepsLast(t.applicationCmds);
    RouteTable.TableKeepsLast(t.componentCmds);
    RouteTable.TableKeepsLast(t.autocompleteCmds);
    RouteTable.TableKeepsLast(t.modalsubmitCmds);
    Root(RouteTable.Table(t.applicationCmds), RouteTable.Table(t.componentCmds),
         RouteTable.Table(t.autocompleteCmds), RouteTable.Table(t.modalsubmitCmds))
  }

  /** The store every handler reads: the interaction, then the caller's context merged in. */
  datatype Context<C> = Context(interaction: Interaction, extra: C)

  /** What the root produces: the PONG reply, or the call to run under a context. */
  datatype Outcome<H, C> = Pong | Run(call: Call<H>, context: Context<C>)

  /** The component table's key: the originating command's name, else the component's custom id. */
  function ComponentKey(i: Interaction): string
    requires i.MessageComponent?
  {
    match i.origin
    case Just(origin) => origin.name
    case Nothing => i.component.customId
  }

  /** A command's or autocompletion's options as arguments (`data.options ?? []`). */
  function CommandArgs(data: MessageData): seq<Arg>
  {
    match data.options
    case Just(os) => OptionArgs(os)
    case Nothing => []
  }

  /** Each modal row's single text value, in row order. */
  function ModalArgs(rows: seq<TextValue>): (r: seq<Arg>)
    ensures |r| == |rows| && forall k :: 0 <= k < |rows| ==> r[k] == TextArg(rows[k].value)
  {
    seq(|rows|, k requires 0 <= k < |rows| => TextArg(rows[k].value))
  }

  /** Look `key` up in `server` and invoke what is found. */
  function RunIn<H, C>(server: map<string, Handler<H>>, key: string, args: seq<Arg>, ctx: Context<C>): Result<Outcome<H, C>, RouteError>
  {
    if key !in server then Failure(RouteNotFound)
    else match Invoke(server[key], args)
      case Success(call) => Success(Run(call, ctx))
      case Failure(e) => Failure(e)
  }

  /**
   * The function `discordRouterRoot` returns, applied to one interaction.
   * `context` is the value `getContext()` produced, `Nothing` when it threw;
   * it is awaited before anything else, the ping included.
   */
  function Dispatch<H, C>(root: Root<H>, i: Interaction, context: Maybe<C>): (r: Result<Outcome<H, C>, RouteError>)
    ensures context.Nothing? ==> r == Failure(ContextFailed)
    ensures context.Just? && i.Ping? ==> r == Success(Pong)
    ensures r.Success? && r.value.Run? ==> r.value.context == Context(i, context.value)
    ensures r.Success? && r.value.Pong? <==> context.Just? && i.Ping?
    ensures context.Just? && !i.Ping? ==>
              var table := TableFor(root, i);
              (r.Success? <==> KeyFor(i) in table && Invoke(table[KeyFor(i)], ArgsFor(i)).Success?)
              && (r.Success? ==> r.value == Run(Invoke(table[KeyFor(i)], ArgsFor(i)).value, Context(i, context.value)))
              && (r.Failure? ==> r.error == if KeyFor(i) in table then Invoke(table[KeyFor(i)], ArgsFor(i)).error
                                            else RouteNotFound)
  {
    match context
    case Nothing => Failure(ContextFailed)
    case Just(extra) =>
      var ctx := Context(i, extra);
      match i
      case Ping => Success(Pong)
      case ApplicationCommand(_, _, data) => RunIn(root.applicationCommandServer, data.name, CommandArgs(data), ctx)
      case MessageComponent(_, _, _, _) => RunIn(root.componentServer, ComponentKey(i), [], ctx)
      case Autocomplete(_, data) => RunIn(root.autoCompleteServer, data.name, CommandArgs(data), ctx)
      case ModalSubmit(_, _, customId, rows) => RunIn(root.modalSubmitServer, customId, ModalArgs(rows), ctx)
  }

  /** The table and key the root consults for each interaction kind; a ping consults none. */
  function TableFor<H>(root: Root<H>, i: Interaction): map<string, Handler<H>>
    requires !i.Ping?
  {
    match i
    case ApplicationCommand(_, _, _) => root.applicationCommandServer
    case MessageComponent(_, _, _, _) => root.componentServer
    case Autocomplete(_, _) => root.autoCompleteServer
    case ModalSubmit(_, _, _, _) => root.modalSubmitServer
  }

  /**
   * The arguments the found handler is called with: a command's or an
   * autocompletion's options, none for a component, a modal's row values.
   */
  function ArgsFor(i: Interaction): seq<Arg>
    requires !i.Ping?
  {
    match i
    case ApplicationCommand(_, _, data) => CommandArgs(data)
    case MessageComponent(_, _, _, _) => []
    case Autocomplete(_, data) => CommandArgs(data)
    case ModalSubmit(_, _, _, rows) => ModalArgs(rows)
  }

  /** The key each interaction kind is looked up by. */
  function KeyFor(i: Interaction): string
    requires !i.Ping?
  {
    match i
    case ApplicationCommand(_, _, data) => data.name
    case MessageComponent(_, _, _, _) => ComponentKey(i)
    case Autocomplete(_, data) => data.name
    case ModalSubmit(_, _, customId, _) => customId
  }

  /** An interaction whose key is missing from its kind's table throws `routeError`. */
  lemma MissingKeyIsRouteError<H, C>(root: Root<H>, i: Interaction, extra: C)
    requires !i.Ping? && KeyFor(i) !in TableFor(root, i)
    ensures Dispatch(root, i, Just(extra)) == Failure(RouteNotFound)
  {
  }

  /**
   * Each kind reads only its own table: two roots that agree on that table
   * dispatch the interaction identically, whatever the other tables hold.
   */
  lemma DispatchReadsOnlyItsTable<H, C>(root1: Root<H>, root2: Root<H>, i: Interaction, context: Maybe<C>)
    requires !i.Ping? ==> TableFor(root1, i) == TableFor(root2, i)
    ensures Dispatch(root1, i, context) == Dispatch(root2, i, context)
  {
  }

  /** A component handler is called with no arguments, whatever the component carried. */
  lemma ComponentHandlerGetsNoArguments<H, C>(root: Root<H>, i: Interaction, extra: C)
    requires i.MessageComponent?
    requires Dispatch(root, i, Just(extra)).Success?
    ensures Dispatch(root, i, Just(extra)).value.call.args == []
  {
  }

  /** A modal leaf receives the rows' text values in row order, nothing else. */
  lemma ModalLeafGetsRowValues<H, C>(root: Root<H>, i: Interaction, extra: C, fn: H)
    requires i.ModalSubmit? && i.customId in root.modalSubmitServer
    requires root.modalSubmitServer[i.customId] == Leaf(fn)
    ensures Dispatch(root, i, Just(extra)) == Success(Run(Call(fn, ModalArgs(i.rows)), Context(i, extra)))
  {
  }

  /** A modal routed to a branch always fails: text values never pass `subgroup`. */
  lemma ModalBranchRejected<H, C>(root: Root<H>, i: Interaction, extra: C)
    requires i.ModalSubmit? && i.customId in root.modalSubmitServer
    requires root.modalSubmitServer[i.customId].Branch?
    ensures Dispatch(root, i, Just(extra)) == Failure(InvalidArguments)
  {
  }

  /** The component key prefers the originating command's name over the custom id. */
  lemma ComponentKeyPrefersOrigin(m: Member, guild: string, origin: MessageOrigin, data: ComponentData)
    ensures ComponentKey(MessageComponent(m, guild, Just(origin), data)) == origin.name
    ensures ComponentKey(MessageComponent(m, guild, Nothing, data)) == data.customId
  {
  }
}
