/** Reducing a keyed collection group by group is reducing it whole, however the groups interleave. */
module Reductions {
  import opened Basics
  import opened AggregateRecords

  ghost predicate Commutative(op: (real, real) -> real) {
    && (forall a, b :: op(a, b) == op(b, a))
    && (forall a, b, c :: op(op(a, b), c) == op(a, op(b, c)))
  }

  function Join(op: (real, real) -> real, a: Option<real>, b: Option<real>): Option<real> {
    if a.None? then b else if b.None? then a else Some(op(a.value, b.value))
  }

  function JoinAll(op: (real, real) -> real, parts: seq<Option<real>>): Option<real> {
    if parts == [] then None else Join(op, JoinAll(op, parts[..|parts| - 1]), parts[|parts| - 1])
  }

  /** `Reduce`, with no value for no values. */
  function ReduceAll(op: (real, real) -> real, values: seq<real>): Option<real> {
    if values == [] then None else Some(Reduce(op, values))
  }

  lemma ReduceSnoc(op: (real, real) -> real, values: seq<real>, x: real)
    ensures ReduceAll(op, values + [x]) == Join(op, ReduceAll(op, values), Some(x))
  {
    assert (values + [x])[..|values|] == values;
  }

  lemma JoinAllSnoc(op: (real, real) -> real, parts: seq<Option<real>>, x: Option<real>)
    ensures JoinAll(op, parts + [x]) == Join(op, JoinAll(op, parts), x)
  {
    assert (parts + [x])[..|parts|] == parts;
  }

  datatype Item = Item(key: Key, value: real)

  function ItemKey(item: Item): Key {
    item.key
  }

  function ItemValue(item: Item): real {
    item.value
  }

  function KeyIs(key: Key): Item -> bool {
    (item: Item) => item.key == key
  }

  function KeyIn(p: Key -> bool): Item -> bool {
    (item: Item) => p(item.key)
  }

  /** The reduction of the items under one key. */
  function Part(op: (real, real) -> real, items: seq<Item>): Key -> Option<real> {
    k => ReduceAll(op, Map(ItemValue, Filter(KeyIs(k), items)))
  }

  lemma PartSnoc(op: (real, real) -> real, items: seq<Item>, last: Item, k: Key)
    ensures Part(op, items + [last])(k) ==
            if k == last.key then Join(op, Part(op, items)(k), Some(last.value)) else Part(op, items)(k)
  {
    FilterSnoc(KeyIs(k), items, last);
    if k == last.key {
      var kept := Filter(KeyIs(k), items);
      assert Map(ItemValue, kept + [last]) == Map(ItemValue, kept) + [last.value];
      ReduceSnoc(op, Map(ItemValue, kept), last.value);
    }
  }

  /** Changing one part by joining `x` into it joins `x` into the whole. */
  lemma {:induction false} JoinOnePart(
    op: (real, real) -> real, before: Key -> Option<real>, after: Key -> Option<real>,
    key: Key, x: real, keys: seq<Key>)
    requires Commutative(op) && NoDuplicates(keys)
    requires forall k :: k in keys && k != key ==> after(k) == before(k)
    requires key in keys ==> after(key) == Join(op, before(key), Some(x))
    ensures JoinAll(op, Map(after, keys)) ==
            if key in keys then Join(op, JoinAll(op, Map(before, keys)), Some(x)) else JoinAll(op, Map(before, keys))
  {
    if keys != [] {
      var init, last := keys[..|keys| - 1], keys[|keys| - 1];
      JoinOnePart(op, before, after, key, x, init);
      assert keys == init + [last];
      assert Map(after, keys) == Map(after, init) + [after(last)];
      assert Map(before, keys) == Map(before, init) + [before(last)];
      JoinAllSnoc(op, Map(after, init), after(last));
      JoinAllSnoc(op, Map(before, init), before(last));
      JoinShuffle(op, JoinAll(op, Map(before, init)), before(last), x);
    }
  }

  lemma Rearrange(op: (real, real) -> real, a: real, b: real, x: real)
    requires Commutative(op)
    ensures op(op(a, x), b) == op(op(a, b), x) == op(a, op(b, x)) && op(x, b) == op(b, x)
  {
    assert op(op(a, x), b) == op(a, op(x, b));
  }

  lemma JoinShuffle(op: (real, real) -> real, a: Option<real>, b: Option<real>, x: real)
    requires Commutative(op)
    ensures Join(op, Join(op, a, Some(x)), b) == Join(op, Join(op, a, b), Some(x))
    ensures Join(op, a, Join(op, b, Some(x))) == Join(op, Join(op, a, b), Some(x))
  {
    if b.Some? {
      Rearrange(op, if a.Some? then a.value else x, b.value, x);
    }
  }

  function ChosenKeys(p: Key -> bool, items: seq<Item>): seq<Key> {
    Filter(p, Distinct(Map(ItemKey, items)))
  }

  function ByGroups(op: (real, real) -> real, p: Key -> bool, items: seq<Item>): Option<real> {
    JoinAll(op, Map(Part(op, items), ChosenKeys(p, items)))
  }

  function AtOnce(op: (real, real) -> real, p: Key -> bool, items: seq<Item>): Option<real> {
    ReduceAll(op, Map(ItemValue, Filter(KeyIn(p), items)))
  }

  lemma AtOnceSnoc(op: (real, real) -> real, p: Key -> bool, items: seq<Item>, last: Item)
    ensures AtOnce(op, p, items + [last]) ==
            if p(last.key) then Join(op, AtOnce(op, p, items), Some(last.value)) else AtOnce(op, p, items)
  {
    FilterSnoc(KeyIn(p), items, last);
    if p(last.key) {
      var kept := Filter(KeyIn(p), items);
      assert Map(ItemValue, kept + [last]) == Map(ItemValue, kept) + [last.value];
      ReduceSnoc(op, Map(ItemValue, kept), last.value);
    }
  }

  lemma ChosenKeysSnoc(p: Key -> bool, items: seq<Item>, last: Item)
    ensures NoDuplicates(ChosenKeys(p, items))
    ensures last.key in ChosenKeys(p, items) <==> last.key in Map(ItemKey, items) && p(last.key)
    ensures ChosenKeys(p, items + [last]) ==
            if last.key in Map(ItemKey, items) || !p(last.key) then ChosenKeys(p, items)
            else ChosenKeys(p, items) + [last.key]
  {
    var keys := Map(ItemKey, items);
    assert Map(ItemKey, items + [last]) == keys + [last.key];
    assert (keys + [last.key])[..|keys|] == keys;
    FilterNoDuplicates(p, Distinct(keys));
    FilterMember(p, Distinct(keys), last.key);
    FilterSnoc(p, Distinct(keys), last.key);
  }

  lemma PartsSnoc(op: (real, real) -> real, items: seq<Item>, last: Item, keys: seq<Key>)
    requires Commutative(op) && NoDuplicates(keys)
    ensures var before := JoinAll(op, Map(Part(op, items), keys));
            JoinAll(op, Map(Part(op, items + [last]), keys)) ==
            if last.key in keys then Join(op, before, Some(last.value)) else before
  {
    forall k | k in keys
      ensures Part(op, items + [last])(k) ==
        if k == last.key then Join(op, Part(op, items)(k), Some(last.value)) else Part(op, items)(k)
    {
      PartSnoc(op, items, last, k);
    }
    JoinOnePart(op, Part(op, items), Part(op, items + [last]), last.key, last.value, keys);
  }

  lemma NewGroup(op: (real, real) -> real, items: seq<Item>, last: Item, keys: seq<Key>)
    requires last.key !in Map(ItemKey, items)
    ensures JoinAll(op, Map(Part(op, items + [last]), keys + [last.key])) ==
            Join(op, JoinAll(op, Map(Part(op, items + [last]), keys)), Some(last.value))
  {
    var part := Part(op, items + [last]);
    NoItemsNoPart(op, items, last.key);
    PartSnoc(op, items, last, last.key);
    assert Map(part, keys + [last.key]) == Map(part, keys) + [part(last.key)];
    JoinAllSnoc(op, Map(part, keys), part(last.key));
  }

  lemma ByGroupsSnoc(op: (real, real) -> real, p: Key -> bool, items: seq<Item>, last: Item)
    requires Commutative(op)
    ensures ByGroups(op, p, items + [last]) ==
            if p(last.key) then Join(op, ByGroups(op, p, items), Some(last.value)) else ByGroups(op, p, items)
  {
    var chosen := ChosenKeys(p, items);
    ChosenKeysSnoc(p, items, last);
    PartsSnoc(op, items, last, chosen);
    if last.key !in Map(ItemKey, items) {
      NewGroup(op, items, last, chosen);
    }
  }

  /** Reducing group by group and then across groups is reducing everything, however groups interleave. */
  lemma {:induction false} ReduceByGroups(op: (real, real) -> real, p: Key -> bool, items: seq<Item>)
    requires Commutative(op)
    ensures ByGroups(op, p, items) == AtOnce(op, p, items)
  {
    if items != [] {
      var init, last := items[..|items| - 1], items[|items| - 1];
      assert items == init + [last];
      ReduceByGroups(op, p, init);
      ByGroupsSnoc(op, p, init, last);
      AtOnceSnoc(op, p, init, last);
    }
  }

  lemma NoItemsNoPart(op: (real, real) -> real, items: seq<Item>, key: Key)
    requires key !in Map(ItemKey, items)
    ensures Part(op, items)(key) == None
  {
    forall i | 0 <= i < |items| ensures !KeyIs(key)(items[i]) {
      assert Map(ItemKey, items)[i] == items[i].key;
    }
    FilterNone(KeyIs(key), items);
  }

  lemma {:induction false} JoinAllOfValues(op: (real, real) -> real, parts: seq<Option<real>>, values: seq<real>)
    requires |parts| == |values| && forall i :: 0 <= i < |parts| ==> parts[i] == Some(values[i])
    ensures JoinAll(op, parts) == ReduceAll(op, values)
  {
    if parts != [] {
      var init := values[..|values| - 1];
      JoinAllOfValues(op, parts[..|parts| - 1], init);
      assert values == init + [values[|values| - 1]];
      ReduceSnoc(op, init, values[|values| - 1]);
    }
  }
}
