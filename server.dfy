/**
 * The first server (`src/server.ts`): an in-memory token count per player,
 * changed in place by the strong-move and weak-move endpoints, read by the
 * actions endpoint and by a minimal interactions endpoint that answers a
 * ping and the `tokens` command.
 */
module Server {
  import opened Wrappers
  import opened Json
  import opened Players
  import Text

  datatype ServerError =
    | InvalidNerd            // `moveBodySchema.parse` rejected `nerd`
    | NoStrongMove(nerd: string)
    | MalformedBody          // destructuring a null body threw
    | MissingData            // a command without `data`
    | MalformedChoice        // `choiceSchema.parse` rejected the first option

  /** Every player has a count and no count is negative. */
  ghost predicate CountsValid(tokens: map<string, int>)
  {
    (forall name :: name in tokens <==> IsPlayer(name))
    && forall name :: name in tokens ==> tokens[name] >= 0
  }

  /** `/strong-move`: refused without a token, else one token spent. */
  function StrongMoveSpec(tokens: map<string, int>, nerd: string): (r: Result<map<string, int>, ServerError>)
    requires CountsValid(tokens)
  {
    if !IsPlayer(nerd) then Failure(InvalidNerd)
    else if tokens[nerd] < 1 then Failure(NoStrongMove(nerd))
    else Success(tokens[nerd := tokens[nerd] - 1])
  }

  /** `/weak-move`: one token earned. */
  function WeakMoveSpec(tokens: map<string, int>, nerd: string): (r: Result<map<string, int>, ServerError>)
    requires CountsValid(tokens)
  {
    if !IsPlayer(nerd) then Failure(InvalidNerd)
    else Success(tokens[nerd := tokens[nerd] + 1])
  }

  /** Whether the strong moves are shown disabled: no token left. */
  function Disabled(tokens: map<string, int>, nerd: string): (r: bool)
    requires CountsValid(tokens) && IsPlayer(nerd)
    ensures r <==> tokens[nerd] == 0
  {
    tokens[nerd] < 1
  }

  /**
   * A strong move succeeds exactly when the player holds a token; it then
   * spends exactly one, of that player only, and counts stay valid.
   */
  lemma StrongMoveSpendsOne(tokens: map<string, int>, nerd: string)
    requires CountsValid(tokens)
    ensures StrongMoveSpec(tokens, nerd).Success? <==> IsPlayer(nerd) && tokens[nerd] >= 1
    ensures StrongMoveSpec(tokens, nerd).Success? ==>
              var after := StrongMoveSpec(tokens, nerd).value;
              CountsValid(after) && after[nerd] == tokens[nerd] - 1
              && forall other :: other in tokens && other != nerd ==> after[other] == tokens[other]
  {
  }

  /** The strong-move list is disabled exactly when a strong move would be refused. */
  lemma DisabledIffStrongMoveRefused(tokens: map<string, int>, nerd: string)
    requires CountsValid(tokens) && IsPlayer(nerd)
    ensures Disabled(tokens, nerd) <==> StrongMoveSpec(tokens, nerd) == Failure(NoStrongMove(nerd))
  {
  }

  /** A weak move earns exactly one token, for that player only, and always re-enables strong moves. */
  lemma WeakMoveEarnsOne(tokens: map<string, int>, nerd: string)
    requires CountsValid(tokens) && IsPlayer(nerd)
    ensures WeakMoveSpec(tokens, nerd).Success?
    ensures var after := WeakMoveSpec(tokens, nerd).value;
            CountsValid(after) && after[nerd] == tokens[nerd] + 1 && !Disabled(after, nerd)
            && forall other :: other in tokens && other != nerd ==> after[other] == tokens[other]
  {
  }

  /** A weak move followed by a strong move by the same player changes nothing. */
  lemma WeakThenStrongRestores(tokens: map<string, int>, nerd: string)
    requires CountsValid(tokens) && IsPlayer(nerd)
    ensures var after := WeakMoveSpec(tokens, nerd).value;
            StrongMoveSpec(after, nerd) == Success(tokens)
  {
    var after := WeakMoveSpec(tokens, nerd).value;
    assert after[nerd := after[nerd] - 1] == tokens;
  }

  /** The module-level `tokens` object and the endpoints that change it. */
  class TokenCounter {
    var tokens: map<string, int>

    ghost predicate Valid()
      reads this
    {
      CountsValid(tokens)
    }

    /** Module load: `tokens` starts at zero for every player. */
    constructor ()
      ensures Valid()
      ensures forall name :: name in tokens ==> tokens[name] == 0
    {
      var initial := InitialTokens();
      tokens := initial;
    }

    /** `GET /actions`: validate `nerd`, then report whether strong moves are disabled. */
    method Actions(nerd: string) returns (r: Result<bool, ServerError>)
      requires Valid()
      ensures !IsPlayer(nerd) ==> r == Failure(InvalidNerd)
      ensures IsPlayer(nerd) ==> r == Success(Disabled(tokens, nerd))
    {
      if !IsPlayer(nerd) {
        return Failure(InvalidNerd);
      }
      r := Success(tokens[nerd] < 1);
    }

    /** `POST /strong-move`: spend a token, or throw and change nothing. */
    method StrongMove(nerd: string) returns (r: Result<bool, ServerError>)
      requires Valid()
      modifies this
      ensures Valid()
      ensures StrongMoveSpec(old(tokens), nerd).Failure? ==>
                tokens == old(tokens) && r == Failure(StrongMoveSpec(old(tokens), nerd).error)
      ensures StrongMoveSpec(old(tokens), nerd).Success? ==>
                tokens == StrongMoveSpec(old(tokens), nerd).value && r == Success(Disabled(tokens, nerd))
    {
      if !IsPlayer(nerd) {
        return Failure(InvalidNerd);
      }
      if tokens[nerd] < 1 {
        return Failure(NoStrongMove(nerd));
      }
      tokens := tokens[nerd := tokens[nerd] - 1];
      r := Success(tokens[nerd] < 1);
    }

    /** `POST /weak-move`: earn a token; strong moves are then shown enabled. */
    method WeakMove(nerd: string) returns (r: Result<bool, ServerError>)
      requires Valid()
      modifies this
      ensures Valid()
      ensures !IsPlayer(nerd) ==> tokens == old(tokens) && r == Failure(InvalidNerd)
      ensures IsPlayer(nerd) ==> tokens == WeakMoveSpec(old(tokens), nerd).value && r == Success(false)
    {
      if !IsPlayer(nerd) {
        return Failure(InvalidNerd);
      }
      tokens := tokens[nerd := tokens[nerd] + 1];
      r := Success(false);
    }
  }

  // ---------------------------------------------------------------------
  // The interactions endpoint
  // ---------------------------------------------------------------------

  datatype ServerReply = PongReply | MessageReply(content: string)

  /** `data.options?.[0]`, as JavaScript indexes whatever `options` holds. */
  function FirstOption(data: Json): Maybe<Json>
  {
    match Get(data, "options")
    case Just(JArr(items)) => if |items| > 0 then Just(items[0]) else Nothing
    case Just(JObj(fields)) => if "0" in fields then Just(fields["0"]) else Nothing
    case Just(JStr(s)) => if |s| > 0 then Just(JStr([s[0]])) else Nothing
    case _ => Nothing
  }

  /** `choiceSchema.parse`: absent, or an object with a string `name` and a player `value`. */
  function ParseChoice(x: Maybe<Json>): (r: Result<Maybe<string>, ServerError>)
    ensures r.Success? && r.value.Just? ==> IsPlayer(r.value.value)
    ensures x.Nothing? <==> r == Success(Nothing)
    ensures r.Success? && r.value.Just? ==> Get(x.value, "value") == Just(JStr(r.value.value))
  {
    match x
    case Nothing => Success(Nothing)
    case Just(j) =>
      match (Get(j, "name"), Get(j, "value"))
      case (Just(JStr(_)), Just(JStr(v))) => if j.JObj? && IsPlayer(v) then Success(Just(v)) else Failure(MalformedChoice)
      case _ => Failure(MalformedChoice)
  }

  /** One `"name":count` member of the stringified map. */
  function CountEntry(name: string, count: int): string
  {
    "\"" + name + "\":" + Text.IntToString(count)
  }

  /** The members of the stringified map, in roster order. */
  function CountEntries(tokens: map<string, int>): seq<string>
    requires forall k :: 0 <= k < |Roster| ==> Roster[k] in tokens
  {
    seq(|Roster|, k requires 0 <= k < |Roster| => CountEntry(Roster[k], tokens[Roster[k]]))
  }

  /** `JSON.stringify(tokens)`: the counts as an object, keys in roster order. */
  function StringifyCounts(tokens: map<string, int>): string
    requires forall k :: 0 <= k < |Roster| ==> Roster[k] in tokens
  {
    "{" + Text.Join(CountEntries(tokens), ',') + "}"
  }

  /** A member holds no comma, and its value reads back as the count. */
  lemma CountEntryMeaning(name: string, count: int)
    requires ',' !in name
    ensures var e := CountEntry(name, count);
            ',' !in e && e[1..|name| + 1] == name && Text.ParseInt(e[|name| + 3..]) == Just(count)
  {
    var e := CountEntry(name, count);
    var digits := Text.IntToString(count);
    assert e[|name| + 3..] == digits;
    assert ',' !in digits by {
      if count < 0 {
        assert forall k :: 1 <= k < |digits| ==> digits[1..][k - 1] == digits[k];
      }
    }
    Text.IntToStringRoundTrip(count);
  }

  /**
   * The whole-map reply is a braced, comma-separated list with one member per
   * player, in roster order, each naming the player and reading back as
   * that player's count.
   */
  lemma StringifyCountsMeaning(tokens: map<string, int>)
    requires CountsValid(tokens)
    ensures var s := StringifyCounts(tokens);
            && |s| >= 2 && s[0] == '{' && s[|s| - 1] == '}'
            && Text.Split(s[1..|s| - 1], ',') == CountEntries(tokens)
            && forall k :: 0 <= k < |Roster| ==>
                 var e := CountEntries(tokens)[k];
                 e[1..|Roster[k]| + 1] == Roster[k] && Text.ParseInt(e[|Roster[k]| + 3..]) == Just(tokens[Roster[k]])
  {
    var entries := CountEntries(tokens);
    forall k | 0 <= k < |Roster|
      ensures ',' !in entries[k]
      ensures entries[k][1..|Roster[k]| + 1] == Roster[k]
      ensures Text.ParseInt(entries[k][|Roster[k]| + 3..]) == Just(tokens[Roster[k]])
    {
      CountEntryMeaning(Roster[k], tokens[Roster[k]]);
    }
    var s := StringifyCounts(tokens);
    assert s[1..|s| - 1] == Text.Join(entries, ',');
    Text.SplitJoin(entries, ',');
  }

  /** The `tokens` reply text for one player. */
  function CountSentence(nerd: string, count: int): string
  {
    Text.UpperFirst(nerd) + " has " + Text.IntToString(count) + " tokens"
  }

  /**
   * `POST /api/interactions` after the signature check, on the raw body: a
   * ping gets PONG; a command first validates its first option as a choice
   * and then, if it is `tokens`, replies with that player's count or, with no
   * choice, the whole map; anything else gets no reply.
   */
  function Respond(tokens: map<string, int>, body: Json): (r: Result<Maybe<ServerReply>, ServerError>)
    requires CountsValid(tokens)
    ensures HasTypeTag(body, 1) ==> r == Success(Just(PongReply))
    ensures !HasTypeTag(body, 1) && !HasTypeTag(body, 2) && !body.JNull? ==> r == Success(Nothing)
    ensures body.JNull? ==> r == Failure(MalformedBody)
    ensures HasTypeTag(body, 2) && (Get(body, "data").Nothing? || Get(body, "data") == Just(JNull)) ==>
              r == Failure(MissingData)
    ensures HasTypeTag(body, 2) && Get(body, "data").Just? && !Get(body, "data").value.JNull? ==>
              var data := Get(body, "data").value;
              var choice := ParseChoice(FirstOption(data));
              && (choice.Failure? ==> r == Failure(choice.error))
              && (choice.Success? && Get(data, "name") != Just(JStr("tokens")) ==> r == Success(Nothing))
              && (choice.Success? && Get(data, "name") == Just(JStr("tokens")) ==>
                    r == Success(Just(MessageReply(
                           if choice.value.Just? then CountSentence(choice.value.value, tokens[choice.value.value])
                           else StringifyCounts(tokens)))))
  {
    if body.JNull? then Failure(MalformedBody)
    else if HasTypeTag(body, 1) then Success(Just(PongReply))
    else if !HasTypeTag(body, 2) then Success(Nothing)
    else match Get(body, "data")
      case Nothing => Failure(MissingData)
      case Just(data) =>
        if data.JNull? then Failure(MissingData)
        else match ParseChoice(FirstOption(data))
        case Failure(e) => Failure(e)
        case Success(choice) =>
          if Get(data, "name") != Just(JStr("tokens")) then Success(Nothing)
          else match choice
            case Just(nerd) => Success(Just(MessageReply(CountSentence(nerd, tokens[nerd]))))
            case Nothing => Success(Just(MessageReply(StringifyCounts(tokens))))
  }

  predicate HasTypeTag(body: Json, n: int)
  {
    Get(body, "type") == Just(JNum(n))
  }

  /** The `tokens` command with a choice reports that player's current count, name capitalised. */
  lemma TokensChoiceReportsCount(tokens: map<string, int>, nerd: string, shown: string)
    requires CountsValid(tokens) && IsPlayer(nerd)
    ensures var choice := JObj(map["name" := JStr(shown), "value" := JStr(nerd)]);
            var body := JObj(map["type" := JNum(2),
                                 "data" := JObj(map["name" := JStr("tokens"), "options" := JArr([choice])])]);
            Respond(tokens, body) == Success(Just(MessageReply(CountSentence(nerd, tokens[nerd]))))
  {
  }

  /** The `tokens` command with no option reports every player's count. */
  lemma TokensWithoutChoiceReportsAll(tokens: map<string, int>)
    requires CountsValid(tokens)
    ensures var body := JObj(map["type" := JNum(2), "data" := JObj(map["name" := JStr("tokens")])]);
            Respond(tokens, body) == Success(Just(MessageReply(StringifyCounts(tokens))))
  {
  }

  /** The reported sentence starts with the capitalised name and reads the count back exactly. */
  lemma CountSentenceMeaning(nerd: string, count: int)
    requires |nerd| > 0
    ensures var s := CountSentence(nerd, count);
            s[0] == Text.UpperChar(nerd[0]) && s[1..|nerd|] == nerd[1..]
            && Text.ParseInt(s[|nerd| + 5..|s| - 7]) == Just(count)
  {
    var s := CountSentence(nerd, count);
    var digits := Text.IntToString(count);
    assert s == Text.UpperFirst(nerd) + " has " + digits + " tokens";
    assert s[|nerd| + 5..|s| - 7] == digits;
    Text.IntToStringRoundTrip(count);
  }

  /** A choice naming someone outside the roster fails validation, whatever the command. */
  lemma UnknownPlayerRejected(tokens: map<string, int>, name: string, shown: string, command: string)
    requires CountsValid(tokens) && !IsPlayer(name)
    ensures var choice := JObj(map["name" := JStr(shown), "value" := JStr(name)]);
            var body := JObj(map["type" := JNum(2),
                                 "data" := JObj(map["name" := JStr(command), "options" := JArr([choice])])]);
            Respond(tokens, body) == Failure(MalformedChoice)
  {
  }
}
