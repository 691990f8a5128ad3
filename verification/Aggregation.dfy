/** Grouping and aggregating records in one pass, and when an aggregate can be rolled up. */
module AggregateRecords {
  import opened Basics
  import opened JsonValues
  import opened Records

  datatype Operation = Count | Sum | Min | Max | Avg

  datatype Aggregation = Aggregation(operation: Operation, output: string, field: Option<string>)

  // ---------- Group keys ----------

  predicate Hashable(value: Json) {
    !value.Array? && !value.Object?
  }

  /** Dictionary keys compare as Python does: `True == 1` and `False == 0`. */
  function Normal(value: Json): Json {
    match value
    case Bool(flag) => Number(if flag then 1.0 else 0.0)
    case _ => value
  }

  type Key = seq<Json>

  predicate HasFields(fields: seq<string>, record: Record) {
    forall f :: f in fields ==> f in record
  }

  function NormalField(record: Record): string -> Json {
    f => Normal(FieldOf(record, f))
  }

  function KeyOf(fields: seq<string>, record: Record): Key {
    Map(NormalField(record), fields)
  }

  function KeyBy(fields: seq<string>): Record -> Key {
    r => KeyOf(fields, r)
  }

  function CheckKey(fields: seq<string>, record: Record): Result<Key, RecordError> {
    if !HasFields(fields, record) then Err(MissingGroupField)
    else if exists f :: f in fields && !Hashable(FieldOf(record, f)) then Err(GroupKeyNotScalar)
    else Ok(KeyOf(fields, record))
  }

  /** The key of every record, or the error of the first record that has none. */
  function CheckKeys(fields: seq<string>, records: seq<Record>): Result<seq<Key>, RecordError> {
    if records == [] then Ok([])
    else
      var earlier :- CheckKeys(fields, records[..|records| - 1]);
      var last :- CheckKey(fields, records[|records| - 1]);
      Ok(earlier + [last])
  }

  /** The distinct elements in order of first occurrence. */
  function Distinct(keys: seq<Key>): (distinct: seq<Key>)
    ensures forall k :: k in distinct <==> k in keys
    ensures NoDuplicates(distinct)
  {
    if keys == [] then []
    else
      var earlier, last := Distinct(keys[..|keys| - 1]), keys[|keys| - 1];
      assert keys == keys[..|keys| - 1] + [last];
      if last in keys[..|keys| - 1] then earlier else earlier + [last]
  }

  function WithKey(fields: seq<string>, key: Key): Record -> bool {
    r => KeyOf(fields, r) == key
  }

  function Group(fields: seq<string>, key: Key, records: seq<Record>): seq<Record> {
    Filter(WithKey(fields, key), records)
  }

  /** Group keys in order; with no records and nothing to group by there is one empty group. */
  function GroupOrder(fields: seq<string>, records: seq<Record>, keys: seq<Key>): seq<Key> {
    if records == [] && fields == [] then [[]] else Distinct(keys)
  }

  // ---------- Aggregates ----------

  function NumericValues(field: string, records: seq<Record>): Result<seq<real>, RecordError> {
    if records == [] then Ok([])
    else
      var first := FieldOf(records[0], field);
      if !first.Number? then Err(NotNumeric)
      else
        var rest :- NumericValues(field, records[1..]);
        Ok([first.number] + rest)
  }

  function Plus(a: real, b: real): real {
    a + b
  }

  function Lesser(a: real, b: real): real {
    if a <= b then a else b
  }

  function Greater(a: real, b: real): real {
    if a >= b then a else b
  }

  function Reduce(op: (real, real) -> real, values: seq<real>): real
    requires values != []
  {
    if |values| == 1 then values[0] else op(Reduce(op, values[..|values| - 1]), values[|values| - 1])
  }

  function Apply(group: seq<Record>, aggregation: Aggregation): Result<Json, RecordError> {
    if aggregation.operation.Count? then Ok(Number(|group| as real))
    else if aggregation.field.None? then Err(FieldRequired)
    else
      var values :- NumericValues(aggregation.field.value, group);
      if values == [] then Ok(Null)
      else if aggregation.operation.Sum? then Ok(Number(Reduce(Plus, values)))
      else if aggregation.operation.Min? then Ok(Number(Reduce(Lesser, values)))
      else if aggregation.operation.Max? then Ok(Number(Reduce(Greater, values)))
      else Ok(Number(Reduce(Plus, values) / |values| as real))
  }

  /** The group-by columns as the first record of the group has them. */
  function KeyColumns(fields: seq<string>, group: seq<Record>): Record {
    if group == [] then map[] else map f | f in fields :: FieldOf(group[0], f)
  }

  /** Outputs are written in order, over the key columns and over each other. */
  function FillRow(row: Record, group: seq<Record>, aggregations: seq<Aggregation>): Result<Record, RecordError> {
    if aggregations == [] then Ok(row)
    else
      var last := aggregations[|aggregations| - 1];
      var earlier :- FillRow(row, group, aggregations[..|aggregations| - 1]);
      var value :- Apply(group, last);
      Ok(earlier[last.output := value])
  }

  function RowFor(
    fields: seq<string>, aggregations: seq<Aggregation>, records: seq<Record>, key: Key): Result<Record, RecordError>
  {
    var group := Group(fields, key, records);
    FillRow(KeyColumns(fields, group), group, aggregations)
  }

  function Rows(
    fields: seq<string>, aggregations: seq<Aggregation>, records: seq<Record>, keys: seq<Key>):
    Result<seq<Record>, RecordError>
  {
    if keys == [] then Ok([])
    else
      var earlier :- Rows(fields, aggregations, records, keys[..|keys| - 1]);
      var last :- RowFor(fields, aggregations, records, keys[|keys| - 1]);
      Ok(earlier + [last])
  }

  /** One row per distinct key, in order of first occurrence, over exactly the records with that key. */
  function Aggregate(fields: seq<string>, aggregations: seq<Aggregation>, records: seq<Record>):
    Result<seq<Record>, RecordError>
  {
    var keys :- CheckKeys(fields, records);
    Rows(fields, aggregations, records, GroupOrder(fields, records, keys))
  }

  // ---------- The one-pass loop ----------

  /** The dictionary built so far: keys in insertion order, each with its records in order. */
  ghost predicate Grouped(fields: seq<string>, records: seq<Record>, order: seq<Key>, grouped: map<Key, seq<Record>>) {
    && CheckKeys(fields, records).Ok?
    && order == Distinct(CheckKeys(fields, records).value)
    && (forall k :: k in grouped <==> k in order)
    && (forall k :: k in grouped ==> grouped[k] == Group(fields, k, records))
  }

  lemma {:induction false} CheckedKeys(fields: seq<string>, records: seq<Record>)
    requires CheckKeys(fields, records).Ok?
    ensures var keys := CheckKeys(fields, records).value;
            && |keys| == |records|
            && (forall i :: 0 <= i < |records| ==> CheckKey(fields, records[i]) == Ok(KeyOf(fields, records[i])))
            && keys == Map(KeyBy(fields), records)
  {
    if records != [] {
      CheckedKeys(fields, records[..|records| - 1]);
    }
  }

  lemma {:induction false} CheckKeysFailsAt(fields: seq<string>, records: seq<Record>, i: nat)
    requires i < |records| && CheckKeys(fields, records[..i]).Ok?
    requires CheckKey(fields, records[i]).Err?
    ensures CheckKeys(fields, records) == Err(CheckKey(fields, records[i]).error)
    decreases |records|
  {
    var init := records[..|records| - 1];
    if i < |init| {
      assert init[..i] == records[..i];
      CheckKeysFailsAt(fields, init, i);
    } else {
      assert init == records[..i];
    }
  }

  lemma NewKeyHasNoGroup(fields: seq<string>, records: seq<Record>, key: Key)
    requires CheckKeys(fields, records).Ok? && key !in CheckKeys(fields, records).value
    ensures Group(fields, key, records) == []
  {
    CheckedKeys(fields, records);
    FilterNone(WithKey(fields, key), records);
  }

  lemma {:induction false} FilterNone<T>(p: T -> bool, xs: seq<T>)
    requires forall i :: 0 <= i < |xs| ==> !p(xs[i])
    ensures Filter(p, xs) == []
  {
    if xs != [] {
      FilterNone(p, xs[1..]);
    }
  }

  function Extend(grouped: map<Key, seq<Record>>, key: Key, record: Record): map<Key, seq<Record>> {
    grouped[key := (if key in grouped then grouped[key] else []) + [record]]
  }

  lemma CheckKeysSnoc(fields: seq<string>, records: seq<Record>, record: Record)
    requires CheckKeys(fields, records).Ok? && CheckKey(fields, record).Ok?
    ensures var keys, key := CheckKeys(fields, records).value, KeyOf(fields, record);
            && CheckKeys(fields, records + [record]) == Ok(keys + [key])
            && Distinct(keys + [key]) == if key in keys then Distinct(keys) else Distinct(keys) + [key]
  {
    var keys, key := CheckKeys(fields, records).value, KeyOf(fields, record);
    assert (records + [record])[..|records|] == records;
    assert (keys + [key])[..|keys|] == keys;
  }

  lemma GroupSnoc(fields: seq<string>, records: seq<Record>, record: Record, k: Key)
    ensures Group(fields, k, records + [record]) ==
            if k == KeyOf(fields, record) then Group(fields, k, records) + [record] else Group(fields, k, records)
  {
    FilterSnoc(WithKey(fields, k), records, record);
  }

  lemma ExtendedGroup(
    fields: seq<string>, records: seq<Record>, record: Record, order: seq<Key>, grouped: map<Key, seq<Record>>, k: Key)
    requires Grouped(fields, records, order, grouped) && k in Extend(grouped, KeyOf(fields, record), record)
    ensures Extend(grouped, KeyOf(fields, record), record)[k] == Group(fields, k, records + [record])
  {
    GroupSnoc(fields, records, record, k);
    if k !in grouped {
      NewKeyHasNoGroup(fields, records, k);
    }
  }

  lemma GroupedSnoc(
    fields: seq<string>, records: seq<Record>, record: Record, order: seq<Key>, grouped: map<Key, seq<Record>>)
    requires Grouped(fields, records, order, grouped) && CheckKey(fields, record).Ok?
    ensures var key := KeyOf(fields, record);
            Grouped(
              fields, records + [record], if key in grouped then order else order + [key], Extend(grouped, key, record))
  {
    var key := KeyOf(fields, record);
    CheckKeysSnoc(fields, records, record);
    forall k | k in Extend(grouped, key, record)
      ensures Extend(grouped, key, record)[k] == Group(fields, k, records + [record])
    {
      ExtendedGroup(fields, records, record, order, grouped, k);
    }
  }

  lemma GroupedNothing(fields: seq<string>)
    ensures Grouped(fields, [], [], map[])
  {
  }

  method GroupRecords(fields: seq<string>, records: seq<Record>)
    returns (r: Result<(seq<Key>, map<Key, seq<Record>>), RecordError>)
    ensures r.Ok? ==> Grouped(fields, records, r.value.0, r.value.1)
    ensures r.Err? ==> CheckKeys(fields, records) == Err(r.error)
  {
    var order: seq<Key> := [];
    var grouped: map<Key, seq<Record>> := map[];
    GroupedNothing(fields);
    assert records[..0] == [];
    for i := 0 to |records|
      invariant Grouped(fields, records[..i], order, grouped)
    {
      var record := records[i];
      var checked := CheckKey(fields, record);
      if checked.Err? {
        CheckKeysFailsAt(fields, records, i);
        return Err(checked.error);
      }
      order, grouped := InsertRecord(fields, records[..i], record, order, grouped);
      assert records[..i + 1] == records[..i] + [record];
    }
    assert records[..|records|] == records;
    return Ok((order, grouped));
  }

  method InsertRecord(
    fields: seq<string>, ghost records: seq<Record>, record: Record, order: seq<Key>, grouped: map<Key, seq<Record>>)
    returns (order': seq<Key>, grouped': map<Key, seq<Record>>)
    requires Grouped(fields, records, order, grouped) && CheckKey(fields, record).Ok?
    ensures Grouped(fields, records + [record], order', grouped')
  {
    var key := KeyOf(fields, record);
    GroupedSnoc(fields, records, record, order, grouped);
    order' := if key in grouped then order else order + [key];
    grouped' := grouped[key := (if key in grouped then grouped[key] else []) + [record]];
  }

  method FillRowInOrder(row: Record, group: seq<Record>, aggregations: seq<Aggregation>)
    returns (r: Result<Record, RecordError>)
    ensures r == FillRow(row, group, aggregations)
  {
    var filled := row;
    for i := 0 to |aggregations|
      invariant FillRow(row, group, aggregations[..i]) == Ok(filled)
    {
      assert aggregations[..i + 1][..i] == aggregations[..i];
      var value := Apply(group, aggregations[i]);
      if value.Err? {
        FillRowFails(row, group, aggregations, i + 1);
        return Err(value.error);
      }
      filled := filled[aggregations[i].output := value.value];
    }
    assert aggregations[..|aggregations|] == aggregations;
    return Ok(filled);
  }

  lemma {:induction false} FillRowFails(row: Record, group: seq<Record>, aggregations: seq<Aggregation>, i: nat)
    requires i <= |aggregations| && FillRow(row, group, aggregations[..i]).Err?
    ensures FillRow(row, group, aggregations) == FillRow(row, group, aggregations[..i])
    decreases |aggregations|
  {
    if i == |aggregations| {
      assert aggregations[..i] == aggregations;
    } else {
      assert aggregations[..|aggregations| - 1][..i] == aggregations[..i];
      FillRowFails(row, group, aggregations[..|aggregations| - 1], i);
    }
  }

  lemma {:induction false} RowsFail(
    fields: seq<string>, aggregations: seq<Aggregation>, records: seq<Record>, keys: seq<Key>, i: nat)
    requires i <= |keys| && Rows(fields, aggregations, records, keys[..i]).Err?
    ensures Rows(fields, aggregations, records, keys) == Rows(fields, aggregations, records, keys[..i])
    decreases |keys|
  {
    if i == |keys| {
      assert keys[..i] == keys;
    } else {
      assert keys[..|keys| - 1][..i] == keys[..i];
      RowsFail(fields, aggregations, records, keys[..|keys| - 1], i);
    }
  }

  method BuildRows(
    fields: seq<string>, aggregations: seq<Aggregation>, records: seq<Record>,
    order: seq<Key>, grouped: map<Key, seq<Record>>)
    returns (r: Result<seq<Record>, RecordError>)
    requires forall k :: k in order ==> k in grouped && grouped[k] == Group(fields, k, records)
    ensures r == Rows(fields, aggregations, records, order)
  {
    var output: seq<Record> := [];
    for i := 0 to |order|
      invariant Rows(fields, aggregations, records, order[..i]) == Ok(output)
    {
      var group := grouped[order[i]];
      assert order[..i + 1][..i] == order[..i];
      var row := FillRowInOrder(KeyColumns(fields, group), group, aggregations);
      if row.Err? {
        RowsFail(fields, aggregations, records, order, i + 1);
        return Err(row.error);
      }
      output := output + [row.value];
    }
    assert order[..|order|] == order;
    return Ok(output);
  }

  method Run(fields: seq<string>, aggregations: seq<Aggregation>, records: seq<Record>)
    returns (r: Result<seq<Record>, RecordError>)
    ensures r == Aggregate(fields, aggregations, records)
  {
    var groups := GroupRecords(fields, records);
    if groups.Err? {
      return Err(groups.error);
    }
    var (order, grouped) := groups.value;
    if records == [] && fields == [] {
      order, grouped := [[]], grouped[[] := []];
    }
    r := BuildRows(fields, aggregations, records, order, grouped);
  }

  // ---------- What the rows are ----------

  lemma {:induction false} RowsPointwise(
    fields: seq<string>, aggregations: seq<Aggregation>, records: seq<Record>, keys: seq<Key>)
    requires Rows(fields, aggregations, records, keys).Ok?
    ensures var rows := Rows(fields, aggregations, records, keys).value;
            && |rows| == |keys|
            && forall i :: 0 <= i < |keys| ==> RowFor(fields, aggregations, records, keys[i]) == Ok(rows[i])
  {
    if keys != [] {
      var init := keys[..|keys| - 1];
      RowsPointwise(fields, aggregations, records, init);
      var rows := Rows(fields, aggregations, records, keys).value;
      assert rows[..|init|] == Rows(fields, aggregations, records, init).value;
      forall i | 0 <= i < |keys| ensures RowFor(fields, aggregations, records, keys[i]) == Ok(rows[i]) {
        if i < |init| {
          assert rows[i] == rows[..|init|][i] && init[i] == keys[i];
        }
      }
    }
  }

  lemma {:induction false} RowsSucceed(
    fields: seq<string>, aggregations: seq<Aggregation>, records: seq<Record>, keys: seq<Key>)
    requires forall k :: k in keys ==> RowFor(fields, aggregations, records, k).Ok?
    ensures Rows(fields, aggregations, records, keys).Ok?
  {
    if keys != [] {
      RowsSucceed(fields, aggregations, records, keys[..|keys| - 1]);
    }
  }

  /** Each distinct key stands where it first occurred. */
  lemma {:induction false} DistinctInOrder(keys: seq<Key>) returns (first: seq<nat>)
    ensures |first| == |Distinct(keys)|
    ensures forall j :: 0 <= j < |first| ==> FirstAt(keys, Distinct(keys)[j], first[j])
    ensures forall i, j :: 0 <= i < j < |first| ==> first[i] < first[j]
  {
    first := [];
    if keys != [] {
      var init, last := keys[..|keys| - 1], keys[|keys| - 1];
      assert keys == init + [last];
      first := DistinctInOrder(init);
      forall j | 0 <= j < |first| ensures FirstAt(keys, Distinct(init)[j], first[j]) {
        FirstAtExtends(init, last, Distinct(init)[j], first[j]);
      }
      if last !in init {
        assert keys[..|init|] == init;
        first := first + [|init|];
      }
    }
  }

  predicate FirstAt(keys: seq<Key>, key: Key, i: nat) {
    i < |keys| && keys[i] == key && key !in keys[..i]
  }

  lemma FirstAtExtends(keys: seq<Key>, last: Key, key: Key, i: nat)
    requires FirstAt(keys, key, i)
    ensures FirstAt(keys + [last], key, i)
  {
    assert (keys + [last])[..i] == keys[..i];
  }

  function GroupSize(fields: seq<string>, records: seq<Record>): Key -> nat {
    k => |Group(fields, k, records)|
  }

  lemma GroupSizeSnoc(fields: seq<string>, records: seq<Record>, last: Record, k: Key)
    ensures GroupSize(fields, records + [last])(k) ==
            GroupSize(fields, records)(k) + if k == KeyOf(fields, last) then 1 else 0
  {
    GroupSnoc(fields, records, last, k);
  }

  lemma KeysSnoc(fields: seq<string>, records: seq<Record>)
    requires records != [] && CheckKeys(fields, records).Ok?
    ensures var init, last := records[..|records| - 1], records[|records| - 1];
            && CheckKeys(fields, init).Ok? && CheckKey(fields, last).Ok?
            && (var keys := CheckKeys(fields, init).value;
                && CheckKeys(fields, records).value == keys + [KeyOf(fields, last)]
                && Distinct(CheckKeys(fields, records).value) ==
                   (if KeyOf(fields, last) in keys then Distinct(keys) else Distinct(keys) + [KeyOf(fields, last)]))
  {
    var all := CheckKeys(fields, records).value;
    assert all[..|all| - 1] == CheckKeys(fields, records[..|records| - 1]).value;
  }

  /** Groups lose nothing and share nothing: their sizes add up to the number of records. */
  lemma {:induction false} GroupsPartition(fields: seq<string>, records: seq<Record>)
    requires CheckKeys(fields, records).Ok?
    ensures Total(Map(GroupSize(fields, records), Distinct(CheckKeys(fields, records).value))) == |records|
  {
    if records != [] {
      var init, last := records[..|records| - 1], records[|records| - 1];
      assert records == init + [last];
      KeysSnoc(fields, records);
      GroupsPartition(fields, init);
      var keys, key := CheckKeys(fields, init).value, KeyOf(fields, last);
      forall k: Key
        ensures GroupSize(fields, records)(k) == GroupSize(fields, init)(k) + if k == key then 1 else 0
      {
        GroupSizeSnoc(fields, init, last, k);
      }
      CountsGrow(GroupSize(fields, init), GroupSize(fields, records), key, Distinct(keys));
      if key !in keys {
        NewKeyHasNoGroup(fields, init, key);
        assert GroupSize(fields, records)(key) == 1;
        TotalMapSnoc(GroupSize(fields, records), Distinct(keys), key);
      }
    }
  }

  lemma TotalMapSnoc(size: Key -> nat, order: seq<Key>, key: Key)
    ensures Total(Map(size, order + [key])) == Total(Map(size, order)) + size(key)
  {
    assert Map(size, order + [key]) == Map(size, order) + [size(key)];
    TotalConcat(Map(size, order), [size(key)]);
    assert Total([size(key)]) == size(key) + Total([]);
  }

  lemma {:induction false} CountsGrow(before: Key -> nat, after: Key -> nat, key: Key, order: seq<Key>)
    requires NoDuplicates(order) && forall k :: after(k) == before(k) + if k == key then 1 else 0
    ensures Total(Map(after, order)) == Total(Map(before, order)) + if key in order then 1 else 0
  {
    if order != [] {
      CountsGrow(before, after, key, order[1..]);
      assert Map(after, order)[1..] == Map(after, order[1..]);
      assert Map(before, order)[1..] == Map(before, order[1..]);
    }
  }
}
