/** The order in which a hash map hands out its keys: any order, every key once. */
module MapOrder {
  ghost predicate IsOrder(order: seq<string>, keys: set<string>) {
    && (forall p :: p in order <==> p in keys)
    && (forall i, j | 0 <= i < j < |order| :: order[i] != order[j])
  }

  lemma HasName(names: set<string>)
    requires names != {}
    ensures exists p :: p in names
  {
    if !exists p :: p in names {
      forall p | p in names ensures false {
      }
    }
  }

  lemma EmptyOrder()
    ensures IsOrder([], {})
  {
  }

  lemma OrderGrows(order: seq<string>, keys: set<string>, v: string)
    requires IsOrder(order, keys) && v !in keys
    ensures IsOrder(order + [v], keys + {v})
  {
  }

  lemma FirstOfOrder(order: seq<string>, keys: set<string>)
    requires IsOrder(order, keys)
    ensures
      if order == [] then keys == {}
      else order[0] in keys && IsOrder(order[1..], keys - {order[0]})
  {
    if order == [] {
      assert forall p :: p !in keys;
    } else {
      assert order[0] in order;
      assert forall p | p in order[1..] :: p in order && p != order[0];
      assert forall p | p in order && p != order[0] :: p in order[1..];
    }
  }

  lemma {:induction false} OrderExists(keys: set<string>) returns (order: seq<string>)
    ensures IsOrder(order, keys)
    decreases |keys|
  {
    hide IsOrder;
    if keys == {} {
      EmptyOrder();
      order := [];
    } else {
      HasName(keys);
      var k :| k in keys;
      order := OrderExists(keys - {k});
      OrderGrows(order, keys - {k}, k);
      assert keys - {k} + {k} == keys;
      order := order + [k];
    }
  }

  lemma OrderStarts(order: seq<string>, keys: set<string>, v: string)
    requires IsOrder(order, keys) && v !in keys
    ensures IsOrder([v] + order, keys + {v})
  {
    forall i, j | 0 <= i < j < |order| + 1 ensures ([v] + order)[i] != ([v] + order)[j] {
      assert order[j - 1] in order;
    }
  }
}
