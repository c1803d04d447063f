/**
 * The game rules both endpoint revisions share: the token transition of
 * `moves do`, its reply text, and the stored rows they read and write (an
 * abstract stand-in for the `game`, `characters`, `tokenCount` and
 * `userPlayers` tables).
 */
module TokenMoves {
  import opened Wrappers
  import Text

  /** The four move categories (`movesSchema`). */
  datatype Move = Strong | Normal | Weak | Social

  /** The string each category is spelled as in a command option. */
  function MoveValue(m: Move): string
  {
    match m
    case Strong => "strongMoves"
    case Normal => "normalMoves"
    case Weak => "weakMoves"
    case Social => "socialMoves"
  }

  /** Which category, if any, an option value names. */
  function MoveFromValue(v: string): (m: Maybe<Move>)
    ensures m.Just? ==> MoveValue(m.value) == v
  {
    if v == "strongMoves" then Just(Strong)
    else if v == "weakMoves" then Just(Weak)
    else if v == "normalMoves" then Just(Normal)
    else if v == "socialMoves" then Just(Social)
    else Nothing
  }

  /** The spellings and the categories correspond one to one. */
  lemma MoveValueRoundTrip(m: Move)
    ensures MoveFromValue(MoveValue(m)) == Just(m)
  {
  }

  /**
   * The token count after a move: a strong move spends a token only when
   * one is held, a weak move earns one, and every other value leaves the
   * count alone.
   */
  function NextCount(move: Maybe<Move>, count: int): int
  {
    match move
    case Just(Strong) => if count < 1 then count else count - 1
    case Just(Weak) => count + 1
    case _ => count
  }

  /** The reply text a move ends with; no text at all for an unknown value. */
  function MoveContent(name: string, move: Maybe<Move>): Maybe<string>
  {
    match move
    case Just(Strong) => Just(name + " has spent a token and made a strong move!")
    case Just(Weak) => Just(name + " has made a weak move and earned a token!")
    case Just(Normal) => Just(name + " has made a normal move.")
    case Just(Social) => Just(name + " has made a normal move? Ask your GM what happens next.")
    case Nothing => Nothing
  }

  /** The transition never takes a count below zero, and moves it by at most one. */
  lemma {:induction false} NextCountBounds(move: Maybe<Move>, count: int)
    ensures count >= 0 ==> NextCount(move, count) >= 0
    ensures count - 1 <= NextCount(move, count) <= count + 1
    ensures NextCount(move, count) == count - 1 <==> move == Just(Strong) && count >= 1
    ensures NextCount(move, count) == count + 1 <==> move == Just(Weak)
  {
    match move
    case Just(Strong) =>
    case Just(Weak) =>
    case Just(Normal) =>
    case Just(Social) =>
    case Nothing =>
  }

  /**
   * The message overwrite: a strong move with no token changes no count, yet
   * its reply still says a token was spent.
   */
  lemma StrongMoveWithoutTokenClaimsSpent(name: string, count: int)
    requires count < 1
    ensures NextCount(Just(Strong), count) == count
    ensures MoveContent(name, Just(Strong)) == Just(name + " has spent a token and made a strong move!")
  {
  }

  /** A stored character row (`characters`). */
  datatype CharacterRow = CharacterRow(name: string, gameId: string)

  /** A stored game row (`game`): the guild it runs in and its GM. */
  datatype Game = Game(id: string, gmDiscordId: string, discordServerId: string)

  /** A stored assignment of a character to a user (`userPlayers`). */
  datatype Assignment = Assignment(discordId: string, characterId: string)

  /** The stored rows the handlers read and write. */
  class Store {
    /** Game rows, in insertion order. */
    var games: seq<Game>
    /** Character rows by id. */
    var characters: map<string, CharacterRow>
    /** Token counts by character id (`tokenCount`), at most one per character. */
    var tokens: map<string, int>
    /** Assignments, in insertion order. */
    var assignments: seq<Assignment>

    /** Every token count belongs to a stored character, and no assignment is stored twice. */
    ghost predicate Valid()
      reads this
    {
      && tokens.Keys <= characters.Keys
      && forall i, j :: 0 <= i < j < |assignments| ==> assignments[i] != assignments[j]
    }

    constructor (games: seq<Game>, characters: map<string, CharacterRow>, tokens: map<string, int>,
                 assignments: seq<Assignment>)
      requires tokens.Keys <= characters.Keys
      requires forall i, j :: 0 <= i < j < |assignments| ==> assignments[i] != assignments[j]
      ensures Valid()
      ensures this.games == games && this.characters == characters && this.tokens == tokens
      ensures this.assignments == assignments
    {
      this.games := games;
      this.characters := characters;
      this.tokens := tokens;
      this.assignments := assignments;
    }

    /** `updateTokenCount(id, n)`: sets the count of `id`, and changes nothing when it has no row. */
    method UpdateTokenCount(id: string, n: int)
      modifies this
      ensures games == old(games) && characters == old(characters) && assignments == old(assignments)
      ensures id in old(tokens) ==> tokens == old(tokens)[id := n]
      ensures id !in old(tokens) ==> tokens == old(tokens)
    {
      if id in tokens {
        tokens := tokens[id := n];
      }
    }

    /**
     * Inserting a new character and its token-count row, which takes the
     * column default 0. The id is fresh; an id already present violates the
     * key and nothing is stored.
     */
    method InsertCharacter(id: string, row: CharacterRow) returns (ok: bool)
      requires Valid()
      modifies this
      ensures Valid()
      ensures games == old(games) && assignments == old(assignments)
      ensures ok <==> id !in old(characters)
      ensures ok ==> characters == old(characters)[id := row] && tokens == old(tokens)[id := 0]
      ensures !ok ==> characters == old(characters) && tokens == old(tokens)
    {
      if id in characters {
        return false;
      }
      characters := characters[id := row];
      tokens := tokens[id := 0];
      ok := true;
    }

    /** Inserting a game row; nothing constrains two games to differ in their guild. */
    method InsertGame(game: Game)
      requires Valid()
      modifies this
      ensures Valid()
      ensures games == old(games) + [game]
      ensures characters == old(characters) && tokens == old(tokens) && assignments == old(assignments)
    {
      games := games + [game];
    }

    /** Inserting an assignment; the same pair twice violates the unique key and nothing is stored. */
    method InsertAssignment(a: Assignment) returns (ok: bool)
      requires Valid()
      modifies this
      ensures Valid()
      ensures ok <==> a !in old(assignments)
      ensures ok ==> assignments == old(assignments) + [a]
      ensures !ok ==> assignments == old(assignments)
      ensures games == old(games) && characters == old(characters) && tokens == old(tokens)
    {
      if a in assignments {
        return false;
      }
      assignments := assignments + [a];
      ok := true;
    }
  }

  /** `selectGame` for a guild, first row: the earliest game stored for it. */
  function GameForGuild(games: seq<Game>, guild: string): (r: Maybe<Game>)
    ensures r.Just? ==> r.value in games && r.value.discordServerId == guild
    ensures r.Nothing? <==> forall k :: 0 <= k < |games| ==> games[k].discordServerId != guild
  {
    if |games| == 0 then Nothing
    else if games[0].discordServerId == guild then Just(games[0])
    else GameForGuild(games[1..], guild)
  }

  /**
   * A game inserted for a guild that had none is the one found for it; a
   * later game for a guild that already has one is never found.
   */
  lemma {:induction false} NewGameIsFound(games: seq<Game>, game: Game)
    ensures GameForGuild(games, game.discordServerId).Nothing? ==>
              GameForGuild(games + [game], game.discordServerId) == Just(game)
    ensures GameForGuild(games, game.discordServerId).Just? ==>
              GameForGuild(games + [game], game.discordServerId) == GameForGuild(games, game.discordServerId)
  {
    if |games| > 0 {
      assert (games + [game])[1..] == games[1..] + [game];
      NewGameIsFound(games[1..], game);
    } else {
      assert (games + [game])[0] == game;
    }
  }

  /** The characters assigned to a user, in assignment order. */
  function PlayedBy(assignments: seq<Assignment>, discordId: string): (r: seq<string>)
    ensures forall c :: c in r <==> Assignment(discordId, c) in assignments
  {
    if |assignments| == 0 then []
    else
      var rest := PlayedBy(assignments[1..], discordId);
      if assignments[0].discordId == discordId then [assignments[0].characterId] + rest else rest
  }

  /**
   * The body of `moves do` once the character and its count are found:
   * `let content` is assigned along the branch the move value selects, the
   * count is written back through `updateTokenCount`, and in the strong
   * branch the refusal text is overwritten by the spent-a-token text.
   */
  method ApplyMove(store: Store, id: string, name: string, mov: string) returns (content: Maybe<string>)
    requires id in store.tokens
    modifies store
    ensures store.games == old(store.games) && store.assignments == old(store.assignments)
    ensures store.characters == old(store.characters)
    ensures store.tokens == old(store.tokens)[id := NextCount(MoveFromValue(mov), old(store.tokens[id]))]
    ensures content == MoveContent(name, MoveFromValue(mov))
  {
    var count := store.tokens[id];
    content := Nothing;
    if mov == "strongMoves" {
      if count < 1 {
        content := Just(name + " can't make a strong move without a token!");
      } else {
        store.UpdateTokenCount(id, count - 1);
      }
      content := Just(name + " has spent a token and made a strong move!");
    } else if mov == "weakMoves" {
      store.UpdateTokenCount(id, count + 1);
      content := Just(name + " has made a weak move and earned a token!");
    } else if mov == "normalMoves" {
      content := Just(name + " has made a normal move.");
    } else if mov == "socialMoves" {
      content := Just(name + " has made a normal move? Ask your GM what happens next.");
    }
    assert store.tokens == old(store.tokens)[id := NextCount(MoveFromValue(mov), count)];
  }

  /** The reply to a player asking for their own count: "token" gets an "s" only above one. */
  function PlayerTokensSentence(name: string, count: int): string
  {
    name + " has " + Text.IntToString(count) + " token" + (if count > 1 then "s" else "") + "!"
  }

  /** The plural suffix appears exactly when the count exceeds one, so zero reads "0 token!". */
  lemma PluralOnlyAboveOne(name: string, count: int)
    ensures var s := PlayerTokensSentence(name, count);
            |s| >= 2 && (s[|s| - 2..] == "s!" <==> count > 1)
  {
    var s := PlayerTokensSentence(name, count);
    var digits := Text.IntToString(count);
    if count <= 1 {
      assert s == name + " has " + digits + " token" + "!";
      assert s[|s| - 2] == 'n';
    }
  }

  /** The reply to the GM setting a count: the count is stated as given. */
  function AssignedTokensSentence(name: string, count: int): string
  {
    name + " has " + Text.IntToString(count) + " tokens"
  }
}
