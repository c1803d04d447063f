/**
 * The fixed player roster and the initial in-memory token map built from it
 * (`packages/server/src/tokens.ts`).
 */
module Players {

  /** `players`, in declaration order. */
  const Roster: seq<string> := ["azrael", "grey", "ludwig", "riminar"]

  /** Membership in the `players` enum (`z.enum(players)`). */
  predicate IsPlayer(name: string)
  {
    name in Roster
  }

  /** The roster lists four distinct names. */
  lemma RosterDistinct()
    ensures |Roster| == 4
    ensures forall i, j :: 0 <= i < j < |Roster| ==> Roster[i] != Roster[j]
  {
  }

  /**
   * `names.reduce((acc, cur) => { acc[cur] = 0; return acc; }, {})`: the
   * accumulator object gets a zero entry for each name, in order.
   */
  method ZeroCounts(names: seq<string>) returns (acc: map<string, int>)
    ensures acc.Keys == set k | 0 <= k < |names| :: names[k]
    ensures forall name :: name in acc ==> acc[name] == 0
  {
    acc := map[];
    for i := 0 to |names|
      invariant acc.Keys == set k | 0 <= k < i :: names[k]
      invariant forall name :: name in acc ==> acc[name] == 0
    {
      acc := acc[names[i] := 0];
    }
  }

  /** The initial `tokens` map: one zero count per player and no other key. */
  method InitialTokens() returns (tokens: map<string, int>)
    ensures forall name :: name in tokens <==> IsPlayer(name)
    ensures forall name :: name in tokens ==> tokens[name] == 0
  {
    tokens := ZeroCounts(Roster);
    forall name | IsPlayer(name) ensures name in tokens {
      var k :| 0 <= k < |Roster| && Roster[k] == name;
    }
  }
}
