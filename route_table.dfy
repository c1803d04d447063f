/**
 * Sibling routes folded into a name-keyed table, as both router revisions do
 * with `routes.reduce(reduceRoutes, new Map())`: each `[path, handler]` pair is
 * set into the map in list order, so a later sibling with the same name
 * silently replaces an earlier one.
 */
module RouteTable {

  /** The table the fold produces: the pairs set one after another, left to right. */
  function Table<V>(routes: seq<(string, V)>): map<string, V>
  {
    if |routes| == 0 then map[]
    else Table(routes[..|routes| - 1])[routes[|routes| - 1].0 := routes[|routes| - 1].1]
  }

  /** The names of a list of routes. */
  function Names<V>(routes: seq<(string, V)>): set<string>
  {
    set i | 0 <= i < |routes| :: routes[i].0
  }

  /** `i` is the last position in `routes` that carries its name. */
  predicate LastWithName<V>(routes: seq<(string, V)>, i: int)
  {
    0 <= i < |routes| && forall j :: i < j < |routes| ==> routes[j].0 != routes[i].0
  }

  /** The table has exactly the siblings' names as keys. */
  lemma {:induction false} TableKeys<V>(routes: seq<(string, V)>)
    ensures Table(routes).Keys == Names(routes)
  {
    if |routes| > 0 {
      var init := routes[..|routes| - 1];
      TableKeys(init);
      assert Names(routes) == Names(init) + {routes[|routes| - 1].0} by {
        forall name | name in Names(routes) ensures name in Names(init) + {routes[|routes| - 1].0} {
          var i :| 0 <= i < |routes| && routes[i].0 == name;
          if i < |routes| - 1 {
            assert init[i] == routes[i];
          }
        }
        forall name | name in Names(init) ensures name in Names(routes) {
          var i :| 0 <= i < |init| && init[i].0 == name;
          assert routes[i] == init[i];
        }
      }
    }
  }

  /** The handler stored under a name is the one of the LAST sibling with that name. */
  lemma {:induction false} TableLastWins<V>(routes: seq<(string, V)>, i: int)
    requires LastWithName(routes, i)
    ensures routes[i].0 in Table(routes) && Table(routes)[routes[i].0] == routes[i].1
  {
    var last := |routes| - 1;
    if i < last {
      var init := routes[..last];
      assert init[i] == routes[i];
      TableLastWins(init, i);
    }
  }

  /** Every name in `table` is bound to the handler of the last sibling carrying it. */
  ghost predicate KeepsLast<V>(routes: seq<(string, V)>, table: map<string, V>)
  {
    forall i :: LastWithName(routes, i) ==> routes[i].0 in table && table[routes[i].0] == routes[i].1
  }

  /** The fold keeps the last sibling of each name. */
  lemma TableKeepsLast<V>(routes: seq<(string, V)>)
    ensures KeepsLast(routes, Table(routes))
  {
    forall i | LastWithName(routes, i)
      ensures routes[i].0 in Table(routes) && Table(routes)[routes[i].0] == routes[i].1
    {
      TableLastWins(routes, i);
    }
  }

  /** Adding one more sibling sets one more entry. */
  lemma TableAppend<V>(routes: seq<(string, V)>, r: (string, V))
    ensures Table(routes + [r]) == Table(routes)[r.0 := r.1]
  {
    assert (routes + [r])[..|routes|] == routes;
  }

  /** The tables of short literal lists, entry by entry. */
  lemma TableOfOne<V>(a: (string, V))
    ensures Table([a]) == map[a.0 := a.1]
  {
    TableAppend([], a);
    assert [] + [a] == [a];
  }

  lemma TableOfTwo<V>(a: (string, V), b: (string, V))
    ensures Table([a, b]) == Table([a])[b.0 := b.1]
  {
    TableAppend([a], b);
    assert [a] + [b] == [a, b];
  }

  lemma TableOfThree<V>(a: (string, V), b: (string, V), c: (string, V))
    ensures Table([a, b, c]) == Table([a, b])[c.0 := c.1]
  {
    TableAppend([a, b], c);
    assert [a, b] + [c] == [a, b, c];
  }

  lemma TableOfFour<V>(a: (string, V), b: (string, V), c: (string, V), d: (string, V))
    ensures Table([a, b, c, d]) == Table([a, b, c])[d.0 := d.1]
  {
    TableAppend([a, b, c], d);
    assert [a, b, c] + [d] == [a, b, c, d];
  }

  lemma TableOfFive<V>(a: (string, V), b: (string, V), c: (string, V), d: (string, V), e: (string, V))
    ensures Table([a, b, c, d, e]) == Table([a, b, c, d])[e.0 := e.1]
  {
    TableAppend([a, b, c, d], e);
    assert [a, b, c, d] + [e] == [a, b, c, d, e];
  }

  /**
   * Registering two siblings under one name is not refused: the second
   * handler is kept and the first is lost.
   */
  lemma DuplicateNameOverwrites<V>(name: string, first: V, second: V)
    ensures Table([(name, first), (name, second)]) == map[name := second]
  {
    var routes := [(name, first), (name, second)];
    assert routes[..1] == [(name, first)];
    assert [(name, first)][..0] == [];
    assert Table([(name, first)]) == map[name := first];
    assert Table(routes) == Table(routes[..1])[name := second];
  }

  /** `reduceRoutes` run over the list: `acc.set(path, fn)` for each route in turn. */
  method ReduceRoutes<V>(routes: seq<(string, V)>) returns (acc: map<string, V>)
    ensures acc == Table(routes)
    ensures acc.Keys == Names(routes)
  {
    acc := map[];
    for i := 0 to |routes|
      invariant acc == Table(routes[..i])
    {
      assert routes[..i + 1][..i] == routes[..i];
      acc := acc[routes[i].0 := routes[i].1];
    }
    assert routes[..|routes|] == routes;
    TableKeys(routes);
  }
}
