/** Rolling a finer aggregate up to a coarser one: exactly when it is the direct aggregate. */
module RollUp {
  import opened Basics
  import opened JsonValues
  import opened Records
  import opened AggregateRecords
  import opened Reductions

  // ---------- Aggregations that roll up ----------

  predicate Rollable(aggregation: Aggregation) {
    match aggregation.operation
    case Count => true
    case Avg => false
    case _ => aggregation.field.Some?
  }

  /** COUNT is rolled up by SUM, the others by themselves, over the column they produced. */
  function Roll(aggregation: Aggregation): Aggregation {
    Aggregation(
      if aggregation.operation.Count? then Sum else aggregation.operation, aggregation.output, Some(aggregation.output))
  }

  function OpOf(aggregation: Aggregation): (real, real) -> real {
    match aggregation.operation
    case Min => Lesser
    case Max => Greater
    case _ => Plus
  }

  lemma OpsCommute(aggregation: Aggregation)
    ensures Commutative(OpOf(aggregation))
    ensures Rollable(aggregation) ==> OpOf(Roll(aggregation)) == OpOf(aggregation)
  {
  }

  function NumberIn(record: Record, field: string): real {
    if FieldOf(record, field).Number? then FieldOf(record, field).number else 0.0
  }

  /** What one record contributes. */
  function ValueOf(aggregation: Aggregation): Record -> real {
    r => if aggregation.operation.Count? || aggregation.field.None? then 1.0 else NumberIn(r, aggregation.field.value)
  }

  predicate Counted(aggregation: Aggregation, records: seq<Record>) {
    aggregation.operation.Count? ||
    (aggregation.field.Some? && forall r :: r in records ==> FieldOf(r, aggregation.field.value).Number?)
  }

  function Numbers(field: string): Record -> real {
    r => NumberIn(r, field)
  }

  lemma {:induction false} NumericValuesAre(field: string, records: seq<Record>)
    ensures NumericValues(field, records) ==
            if forall r :: r in records ==> FieldOf(r, field).Number?
            then Ok(Map(Numbers(field), records)) else Err(NotNumeric)
  {
    if records != [] {
      NumericValuesAre(field, records[1..]);
      assert forall r :: r in records <==> r == records[0] || r in records[1..];
      assert Map(Numbers(field), records) == [Numbers(field)(records[0])] + Map(Numbers(field), records[1..]);
    }
  }

  lemma {:induction false} OnesAddUp(ones: seq<real>)
    requires ones != [] && forall i :: 0 <= i < |ones| ==> ones[i] == 1.0
    ensures Reduce(Plus, ones) == |ones| as real
  {
    if |ones| > 1 {
      OnesAddUp(ones[..|ones| - 1]);
    }
  }

  /** On a nonempty group a rollable aggregation is a reduction of what its records contribute. */
  lemma ApplyReduces(aggregation: Aggregation, group: seq<Record>)
    requires Rollable(aggregation) && group != []
    ensures Apply(group, aggregation) ==
            if Counted(aggregation, group)
            then Ok(Number(Reduce(OpOf(aggregation), Map(ValueOf(aggregation), group)))) else Err(NotNumeric)
  {
    if aggregation.operation.Count? {
      OnesAddUp(Map(ValueOf(aggregation), group));
    } else {
      NumericValuesAre(aggregation.field.value, group);
      assert Map(Numbers(aggregation.field.value), group) == Map(ValueOf(aggregation), group);
    }
  }

  // ---------- Filled rows ----------

  /** No later aggregation writes the same output. */
  ghost predicate Effective(aggregations: seq<Aggregation>, i: int) {
    0 <= i < |aggregations| && forall j :: i < j < |aggregations| ==> aggregations[j].output != aggregations[i].output
  }

  ghost predicate IsOutput(aggregations: seq<Aggregation>, name: string) {
    exists i :: 0 <= i < |aggregations| && aggregations[i].output == name
  }

  lemma {:induction false} LastWriter(aggregations: seq<Aggregation>, name: string) returns (i: nat)
    requires IsOutput(aggregations, name)
    ensures Effective(aggregations, i) && aggregations[i].output == name
  {
    var last := |aggregations| - 1;
    if aggregations[last].output == name {
      i := last;
    } else {
      i := LastWriter(aggregations[..last], name);
    }
  }

  lemma OutputsSnoc(aggregations: seq<Aggregation>, last: Aggregation, name: string)
    ensures IsOutput(aggregations + [last], name) <==> IsOutput(aggregations, name) || name == last.output
  {
    if IsOutput(aggregations, name) {
      var i :| 0 <= i < |aggregations| && aggregations[i].output == name;
      assert (aggregations + [last])[i].output == name;
    }
    if name == last.output {
      assert (aggregations + [last])[|aggregations|].output == name;
    }
  }

  /** Filling adds the outputs and leaves every other column alone. */
  lemma {:induction false} FilledColumns(row: Record, group: seq<Record>, aggregations: seq<Aggregation>)
    requires FillRow(row, group, aggregations).Ok?
    ensures var filled := FillRow(row, group, aggregations).value;
            && (forall name :: name in filled <==> name in row || IsOutput(aggregations, name))
            && (forall name :: name in row && !IsOutput(aggregations, name) ==> filled[name] == row[name])
  {
    if aggregations != [] {
      var init, last := aggregations[..|aggregations| - 1], aggregations[|aggregations| - 1];
      FilledColumns(row, group, init);
      assert aggregations == init + [last];
      forall name ensures IsOutput(aggregations, name) <==> IsOutput(init, name) || name == last.output {
        OutputsSnoc(init, last, name);
      }
    }
  }

  /** Each output column holds what the last aggregation that writes it computes. */
  lemma {:induction false} FilledOutput(row: Record, group: seq<Record>, aggregations: seq<Aggregation>, i: int)
    requires FillRow(row, group, aggregations).Ok? && Effective(aggregations, i)
    ensures var filled := FillRow(row, group, aggregations).value;
            aggregations[i].output in filled && Apply(group, aggregations[i]) == Ok(filled[aggregations[i].output])
    decreases |aggregations|
  {
    var init := aggregations[..|aggregations| - 1];
    if i < |init| {
      assert forall j :: i < j < |init| ==> init[j] == aggregations[j];
      FilledOutput(row, group, init, i);
    }
  }

  lemma {:induction false} FilledFrom(row: Record, group: seq<Record>, aggregations: seq<Aggregation>, i: nat)
    requires FillRow(row, group, aggregations).Ok? && i < |aggregations|
    ensures Apply(group, aggregations[i]).Ok?
    decreases |aggregations|
  {
    if i < |aggregations| - 1 {
      FilledFrom(row, group, aggregations[..|aggregations| - 1], i);
    }
  }

  lemma {:induction false} FillRowSucceeds(row: Record, group: seq<Record>, aggregations: seq<Aggregation>)
    requires forall i :: 0 <= i < |aggregations| ==> Apply(group, aggregations[i]).Ok?
    ensures FillRow(row, group, aggregations).Ok?
  {
    if aggregations != [] {
      FillRowSucceeds(row, group, aggregations[..|aggregations| - 1]);
    }
  }

  function RollAll(aggregations: seq<Aggregation>): seq<Aggregation> {
    Map(Roll, aggregations)
  }

  lemma RollKeepsOutputs(aggregations: seq<Aggregation>)
    ensures forall i :: Effective(RollAll(aggregations), i) <==> Effective(aggregations, i)
    ensures forall name :: IsOutput(RollAll(aggregations), name) <==> IsOutput(aggregations, name)
  {
    forall i ensures Effective(RollAll(aggregations), i) <==> Effective(aggregations, i) {
      if Effective(RollAll(aggregations), i) {
        forall j | i < j < |aggregations| ensures aggregations[j].output != aggregations[i].output {
          assert RollAll(aggregations)[j].output != RollAll(aggregations)[i].output;
        }
      }
    }
    forall name ensures IsOutput(RollAll(aggregations), name) <==> IsOutput(aggregations, name) {
      if IsOutput(aggregations, name) {
        var i :| 0 <= i < |aggregations| && aggregations[i].output == name;
        assert RollAll(aggregations)[i].output == name;
      }
      if IsOutput(RollAll(aggregations), name) {
        var i :| 0 <= i < |aggregations| && RollAll(aggregations)[i].output == name;
        assert aggregations[i].output == name;
      }
    }
  }

  lemma SameColumn(
    row: Record, rows: seq<Record>, group: seq<Record>, aggregations: seq<Aggregation>, name: string)
    requires FillRow(row, group, aggregations).Ok? && FillRow(row, rows, RollAll(aggregations)).Ok?
    requires forall i :: Effective(aggregations, i) ==>
      Apply(rows, Roll(aggregations[i])) == Apply(group, aggregations[i])
    ensures var a, b := FillRow(row, rows, RollAll(aggregations)).value, FillRow(row, group, aggregations).value;
            (name in a <==> name in b) && (name in a ==> a[name] == b[name])
  {
    FilledColumns(row, group, aggregations);
    FilledColumns(row, rows, RollAll(aggregations));
    RollKeepsOutputs(aggregations);
    if IsOutput(aggregations, name) {
      var i := LastWriter(aggregations, name);
      FilledOutput(row, group, aggregations, i);
      FilledOutput(row, rows, RollAll(aggregations), i);
    }
  }

  /** Two rows filled alike, output by output, are the same row. */
  lemma SameRow(row: Record, rows: seq<Record>, group: seq<Record>, aggregations: seq<Aggregation>)
    requires FillRow(row, group, aggregations).Ok? && FillRow(row, rows, RollAll(aggregations)).Ok?
    requires forall i :: Effective(aggregations, i) ==>
      Apply(rows, Roll(aggregations[i])) == Apply(group, aggregations[i])
    ensures FillRow(row, rows, RollAll(aggregations)) == FillRow(row, group, aggregations)
  {
    var a, b := FillRow(row, rows, RollAll(aggregations)).value, FillRow(row, group, aggregations).value;
    forall name ensures (name in a <==> name in b) && (name in a ==> a[name] == b[name]) {
      SameColumn(row, rows, group, aggregations, name);
    }
    assert a == b;
  }

  // ---------- Keys of the finer rows ----------

  function IndexOf(fields: seq<string>, field: string): nat
    requires field in fields
    ensures IndexOf(fields, field) < |fields| && fields[IndexOf(fields, field)] == field
  {
    if fields[0] == field then 0 else 1 + IndexOf(fields[1..], field)
  }

  /** The part of a finer key that the coarser one keeps. */
  function Project(fine: seq<string>, coarse: seq<string>): Key -> Key {
    key => Map(f => if f in fine && IndexOf(fine, f) < |key| then key[IndexOf(fine, f)] else Null, coarse)
  }

  lemma ProjectKey(fine: seq<string>, coarse: seq<string>, record: Record)
    requires forall f :: f in coarse ==> f in fine
    ensures Project(fine, coarse)(KeyOf(fine, record)) == KeyOf(coarse, record)
  {
  }

  function Kept(fine: seq<string>, coarse: seq<string>, key: Key): Key -> bool {
    k => Project(fine, coarse)(k) == key
  }

  lemma {:induction false} CheckKeysSucceeds(fields: seq<string>, records: seq<Record>)
    requires forall r :: r in records ==> CheckKey(fields, r).Ok?
    ensures CheckKeys(fields, records) == Ok(Map(KeyBy(fields), records))
  {
    if records != [] {
      var init, last := records[..|records| - 1], records[|records| - 1];
      CheckKeysSucceeds(fields, init);
      assert Map(KeyBy(fields), records) == Map(KeyBy(fields), init) + [KeyOf(fields, last)];
    }
  }

  lemma DistinctSnoc(keys: seq<Key>, last: Key)
    ensures Distinct(keys + [last]) == if last in keys then Distinct(keys) else Distinct(keys) + [last]
  {
    assert (keys + [last])[..|keys|] == keys;
  }

  lemma {:induction false} DistinctProjected(project: Key -> Key, keys: seq<Key>)
    ensures Distinct(Map(project, Distinct(keys))) == Distinct(Map(project, keys))
  {
    if keys != [] {
      var init, last := keys[..|keys| - 1], keys[|keys| - 1];
      assert keys == init + [last];
      DistinctProjected(project, init);
      ProjectedSnoc(project, init, last);
    }
  }

  lemma AppendSame(a: seq<Key>, b: seq<Key>, key: Key)
    requires Distinct(a) == Distinct(b)
    ensures Distinct(a + [key]) == Distinct(b + [key])
  {
    DistinctSnoc(a, key);
    DistinctSnoc(b, key);
    assert key in a <==> key in Distinct(a);
  }

  lemma ProjectedMember(project: Key -> Key, keys: seq<Key>, key: Key)
    requires key in keys
    ensures project(key) in Map(project, keys)
  {
    var i :| 0 <= i < |keys| && keys[i] == key;
    assert Map(project, keys)[i] == project(key);
  }

  lemma ProjectedSnoc(project: Key -> Key, keys: seq<Key>, last: Key)
    requires Distinct(Map(project, Distinct(keys))) == Distinct(Map(project, keys))
    ensures Distinct(Map(project, Distinct(keys + [last]))) == Distinct(Map(project, keys + [last]))
  {
    DistinctSnoc(keys, last);
    assert Map(project, keys + [last]) == Map(project, keys) + [project(last)];
    if last in keys {
      ProjectedMember(project, keys, last);
      DistinctSnoc(Map(project, keys), project(last));
    } else {
      assert Map(project, Distinct(keys) + [last]) == Map(project, Distinct(keys)) + [project(last)];
      AppendSame(Map(project, Distinct(keys)), Map(project, keys), project(last));
    }
  }

  // ---------- The two aggregates, group by group ----------

  /** A finer aggregation that succeeded, over aggregations that can be rolled up. */
  ghost predicate Setting(
      fine: seq<string>, coarse: seq<string>, aggregations: seq<Aggregation>, records: seq<Record>) {
    && (forall f :: f in coarse ==> f in fine)
    && (forall a :: a in aggregations ==> Rollable(a) && a.output !in fine)
    && Aggregate(fine, aggregations, records).Ok?
  }

  function FineKeys(fine: seq<string>, records: seq<Record>): seq<Key> {
    Map(KeyBy(fine), records)
  }

  function RowOf(fine: seq<string>, aggregations: seq<Aggregation>, records: seq<Record>): Key -> Record {
    k => match RowFor(fine, aggregations, records, k) case Ok(row) => row case Err(_) => map[]
  }

  lemma FineRows(fine: seq<string>, coarse: seq<string>, aggregations: seq<Aggregation>, records: seq<Record>)
    requires Setting(fine, coarse, aggregations, records) && records != []
    ensures CheckKeys(fine, records) == Ok(FineKeys(fine, records))
    ensures Aggregate(fine, aggregations, records).value ==
            Map(RowOf(fine, aggregations, records), Distinct(FineKeys(fine, records)))
    ensures forall k :: k in FineKeys(fine, records) ==> RowFor(fine, aggregations, records, k).Ok?
  {
    CheckedKeys(fine, records);
    RowsAreMapped(fine, aggregations, records, Distinct(FineKeys(fine, records)));
  }

  lemma RowsAreMapped(fields: seq<string>, aggregations: seq<Aggregation>, records: seq<Record>, order: seq<Key>)
    requires Rows(fields, aggregations, records, order).Ok?
    ensures Rows(fields, aggregations, records, order).value == Map(RowOf(fields, aggregations, records), order)
    ensures forall k :: k in order ==> RowFor(fields, aggregations, records, k).Ok?
  {
    RowsPointwise(fields, aggregations, records, order);
  }

  lemma GroupMember(fields: seq<string>, records: seq<Record>, record: Record)
    requires record in records
    ensures record in Group(fields, KeyOf(fields, record), records)
    ensures KeyOf(fields, record) in Map(KeyBy(fields), records)
  {
    var i :| 0 <= i < |records| && records[i] == record;
    FilterMember(WithKey(fields, KeyOf(fields, record)), records, record);
    assert Map(KeyBy(fields), records)[i] == KeyOf(fields, record);
  }

  lemma GroupOfKey(fields: seq<string>, records: seq<Record>, key: Key)
    requires key in Map(KeyBy(fields), records)
    ensures Group(fields, key, records) != []
    ensures forall r :: r in Group(fields, key, records) ==> r in records && KeyOf(fields, r) == key
  {
    var i :| 0 <= i < |records| && Map(KeyBy(fields), records)[i] == key;
    GroupMember(fields, records, records[i]);
    FilterMembers(WithKey(fields, key), records);
  }

  lemma FilledKeyColumns(fine: seq<string>, group: seq<Record>, aggregations: seq<Aggregation>)
    requires forall a :: a in aggregations ==> a.output !in fine
    requires group != [] && FillRow(KeyColumns(fine, group), group, aggregations).Ok?
    ensures var row := FillRow(KeyColumns(fine, group), group, aggregations).value;
            forall f :: f in fine ==> f in row && FieldOf(row, f) == FieldOf(group[0], f)
  {
    FilledColumns(KeyColumns(fine, group), group, aggregations);
    var row := FillRow(KeyColumns(fine, group), group, aggregations).value;
    forall f | f in fine ensures f in row && FieldOf(row, f) == FieldOf(group[0], f) {
      assert f in KeyColumns(fine, group);
      assert !IsOutput(aggregations, f);
    }
  }

  lemma FineRowColumns(
    fine: seq<string>, coarse: seq<string>, aggregations: seq<Aggregation>, records: seq<Record>, key: Key)
    requires Setting(fine, coarse, aggregations, records) && key in FineKeys(fine, records) && records != []
    ensures var row := RowOf(fine, aggregations, records)(key);
            var group := Group(fine, key, records);
            group != [] && forall f :: f in fine ==> f in row && FieldOf(row, f) == FieldOf(group[0], f)
  {
    FineRows(fine, coarse, aggregations, records);
    GroupOfKey(fine, records, key);
    FilledKeyColumns(fine, Group(fine, key, records), aggregations);
  }

  lemma AgreeingRecords(fine: seq<string>, coarse: seq<string>, row: Record, record: Record)
    requires forall f :: f in coarse ==> f in fine
    requires forall f :: f in fine ==> f in row && FieldOf(row, f) == FieldOf(record, f)
    requires CheckKey(fine, record).Ok?
    ensures CheckKey(coarse, row) == Ok(KeyOf(coarse, row))
    ensures KeyOf(coarse, row) == KeyOf(coarse, record)
  {
  }

  lemma MemberChecked(fields: seq<string>, records: seq<Record>, record: Record)
    requires CheckKeys(fields, records).Ok? && record in records
    ensures CheckKey(fields, record) == Ok(KeyOf(fields, record))
  {
    CheckedKeys(fields, records);
    var i :| 0 <= i < |records| && records[i] == record;
  }

  /** A finer row carries the key columns of its group's first record, so the coarser key too. */
  lemma FineRowKey(
    fine: seq<string>, coarse: seq<string>, aggregations: seq<Aggregation>, records: seq<Record>, key: Key)
    requires Setting(fine, coarse, aggregations, records) && key in FineKeys(fine, records) && records != []
    ensures CheckKey(coarse, RowOf(fine, aggregations, records)(key)).Ok?
    ensures KeyOf(coarse, RowOf(fine, aggregations, records)(key)) == Project(fine, coarse)(key)
  {
    FineRowColumns(fine, coarse, aggregations, records, key);
    GroupOfKey(fine, records, key);
    var row, first := RowOf(fine, aggregations, records)(key), Group(fine, key, records)[0];
    MemberChecked(fine, records, first);
    AgreeingRecords(fine, coarse, row, first);
    ProjectKey(fine, coarse, first);
  }

  /** Every output column of a finer row is a number. */
  lemma FineOutputs(
    fine: seq<string>, coarse: seq<string>, aggregations: seq<Aggregation>, records: seq<Record>, key: Key, i: nat)
    requires Setting(fine, coarse, aggregations, records) && key in FineKeys(fine, records) && records != []
    requires i < |aggregations|
    ensures var row := RowOf(fine, aggregations, records)(key);
            var group := Group(fine, key, records);
            && group != [] && Counted(aggregations[i], group)
            && FieldOf(row, aggregations[i].output).Number?
            && (Effective(aggregations, i) ==>
              NumberIn(row, aggregations[i].output) ==
              Reduce(OpOf(aggregations[i]), Map(ValueOf(aggregations[i]), group)))
  {
    FineRows(fine, coarse, aggregations, records);
    GroupOfKey(fine, records, key);
    var group := Group(fine, key, records);
    var columns := KeyColumns(fine, group);
    FilledFrom(columns, group, aggregations, i);
    ApplyReduces(aggregations[i], group);
    var last := LastWriter(aggregations, aggregations[i].output);
    FilledOutput(columns, group, aggregations, last);
    ApplyReduces(aggregations[last], group);
  }

  // ---------- Coarser groups ----------

  /** The finer keys that fall under one coarser key, in order. */
  function Chosen(fine: seq<string>, coarse: seq<string>, records: seq<Record>, key: Key): seq<Key> {
    Filter(Kept(fine, coarse, key), Distinct(FineKeys(fine, records)))
  }

  lemma ChosenMember(fine: seq<string>, coarse: seq<string>, records: seq<Record>, key: Key, k: Key)
    ensures k in Chosen(fine, coarse, records, key) <==> k in FineKeys(fine, records) && Kept(fine, coarse, key)(k)
  {
    FilterMember(Kept(fine, coarse, key), Distinct(FineKeys(fine, records)), k);
  }

  lemma ChosenRows(
    fine: seq<string>, coarse: seq<string>, aggregations: seq<Aggregation>, records: seq<Record>, key: Key)
    requires Setting(fine, coarse, aggregations, records) && records != []
    ensures Group(coarse, key, Aggregate(fine, aggregations, records).value) ==
            Map(RowOf(fine, aggregations, records), Chosen(fine, coarse, records, key))
  {
    FineRows(fine, coarse, aggregations, records);
    var order, row := Distinct(FineKeys(fine, records)), RowOf(fine, aggregations, records);
    forall k | k in order ensures Kept(fine, coarse, key)(k) == WithKey(coarse, key)(row(k)) {
      FineRowKey(fine, coarse, aggregations, records, k);
    }
    FilterMap(row, WithKey(coarse, key), Kept(fine, coarse, key), order);
  }

  function ItemOf(fine: seq<string>, aggregation: Aggregation): Record -> Item {
    r => Item(KeyOf(fine, r), ValueOf(aggregation)(r))
  }

  lemma PartOfGroup(
      fine: seq<string>, aggregation: Aggregation, records: seq<Record>, op: (real, real) -> real, key: Key)
    ensures Part(op, Map(ItemOf(fine, aggregation), records))(key) ==
            ReduceAll(op, Map(ValueOf(aggregation), Group(fine, key, records)))
  {
    var item := ItemOf(fine, aggregation);
    FilterMap(item, KeyIs(key), WithKey(fine, key), records);
    assert Map(ItemValue, Map(item, Group(fine, key, records))) == Map(ValueOf(aggregation), Group(fine, key, records));
  }

  lemma ItemsOfGroup(fine: seq<string>, coarse: seq<string>, aggregation: Aggregation, records: seq<Record>, key: Key)
    requires forall f :: f in coarse ==> f in fine
    ensures Map(ItemValue, Filter(KeyIn(Kept(fine, coarse, key)), Map(ItemOf(fine, aggregation), records))) ==
            Map(ValueOf(aggregation), Group(coarse, key, records))
    ensures Map(ItemKey, Map(ItemOf(fine, aggregation), records)) == FineKeys(fine, records)
  {
    var item := ItemOf(fine, aggregation);
    forall r | r in records ensures WithKey(coarse, key)(r) == KeyIn(Kept(fine, coarse, key))(item(r)) {
      ProjectKey(fine, coarse, r);
    }
    FilterMap(item, KeyIn(Kept(fine, coarse, key)), WithKey(coarse, key), records);
    assert Map(ItemValue, Map(item, Group(coarse, key, records))) ==
           Map(ValueOf(aggregation), Group(coarse, key, records));
  }

  /** Reducing the column the finer rows produced is reducing the records themselves. */
  lemma RolledReduction(
    fine: seq<string>, coarse: seq<string>, aggregations: seq<Aggregation>, records: seq<Record>, key: Key, i: int)
    requires Setting(fine, coarse, aggregations, records) && records != [] && Effective(aggregations, i)
    ensures var op := OpOf(aggregations[i]);
            var rows := Group(coarse, key, Aggregate(fine, aggregations, records).value);
            ReduceAll(op, Map(ValueOf(Roll(aggregations[i])), rows)) ==
            ReduceAll(op, Map(ValueOf(aggregations[i]), Group(coarse, key, records)))
  {
    var aggregation := aggregations[i];
    var op, items := OpOf(aggregation), Map(ItemOf(fine, aggregation), records);
    var chosen, row := Chosen(fine, coarse, records, key), RowOf(fine, aggregations, records);
    OpsCommute(aggregation);
    ReduceByGroups(op, Kept(fine, coarse, key), items);
    ItemsOfGroup(fine, coarse, aggregation, records, key);
    ChosenRows(fine, coarse, aggregations, records, key);
    var values := Map(ValueOf(Roll(aggregation)), Map(row, chosen));
    forall j | 0 <= j < |chosen| ensures Map(Part(op, items), chosen)[j] == Some(values[j]) {
      ChosenMember(fine, coarse, records, key, chosen[j]);
      PartOfGroup(fine, aggregation, records, op, chosen[j]);
      FineOutputs(fine, coarse, aggregations, records, chosen[j], i);
    }
    JoinAllOfValues(op, Map(Part(op, items), chosen), values);
  }

  lemma CoarseGroup(
    fine: seq<string>, coarse: seq<string>, aggregations: seq<Aggregation>, records: seq<Record>, key: Key, i: nat)
    requires Setting(fine, coarse, aggregations, records) && i < |aggregations|
    requires key in Map(KeyBy(coarse), records)
    ensures Group(coarse, key, records) != [] && Counted(aggregations[i], Group(coarse, key, records))
    ensures var rows := Group(coarse, key, Aggregate(fine, aggregations, records).value);
            rows != [] && Counted(Roll(aggregations[i]), rows)
  {
    var group, chosen := Group(coarse, key, records), Chosen(fine, coarse, records, key);
    GroupOfKey(coarse, records, key);
    ChosenRows(fine, coarse, aggregations, records, key);
    forall r | r in group
      ensures aggregations[i].operation.Count? || FieldOf(r, aggregations[i].field.value).Number?
    {
      GroupMember(fine, records, r);
      FineOutputs(fine, coarse, aggregations, records, KeyOf(fine, r), i);
    }
    GroupMember(fine, records, group[0]);
    ProjectKey(fine, coarse, group[0]);
    ChosenMember(fine, coarse, records, key, KeyOf(fine, group[0]));
    var row := RowOf(fine, aggregations, records);
    forall j | 0 <= j < |chosen| ensures FieldOf(Map(row, chosen)[j], aggregations[i].output).Number? {
      ChosenMember(fine, coarse, records, key, chosen[j]);
      FineOutputs(fine, coarse, aggregations, records, chosen[j], i);
    }
  }

  lemma RolledApply(
    fine: seq<string>, coarse: seq<string>, aggregations: seq<Aggregation>, records: seq<Record>, key: Key, i: nat)
    requires Setting(fine, coarse, aggregations, records) && i < |aggregations|
    requires key in Map(KeyBy(coarse), records)
    ensures var rows := Group(coarse, key, Aggregate(fine, aggregations, records).value);
            var group := Group(coarse, key, records);
            && Apply(rows, Roll(aggregations[i])).Ok? && Apply(group, aggregations[i]).Ok?
            && (Effective(aggregations, i) ==> Apply(rows, Roll(aggregations[i])) == Apply(group, aggregations[i]))
  {
    var rows, group := Group(coarse, key, Aggregate(fine, aggregations, records).value), Group(coarse, key, records);
    CoarseGroup(fine, coarse, aggregations, records, key, i);
    assert aggregations[i] in aggregations;
    ApplyReduces(aggregations[i], group);
    ApplyReduces(Roll(aggregations[i]), rows);
    OpsCommute(aggregations[i]);
    if Effective(aggregations, i) {
      RolledReduction(fine, coarse, aggregations, records, key, i);
    }
  }

  // ---------- The first record of a coarser group ----------

  lemma {:induction false} FilterHead<T>(p: T -> bool, q: T -> bool, xs: seq<T>)
    requires forall x :: x in xs && q(x) ==> p(x)
    requires Filter(p, xs) != [] && q(Filter(p, xs)[0])
    ensures Filter(q, xs) != [] && Filter(q, xs)[0] == Filter(p, xs)[0]
  {
    if !p(xs[0]) {
      FilterHead(p, q, xs[1..]);
    }
  }

  lemma ChosenSnoc(fine: seq<string>, coarse: seq<string>, records: seq<Record>, last: Record, key: Key)
    requires forall f :: f in coarse ==> f in fine
    ensures Group(coarse, key, records + [last]) ==
            if KeyOf(coarse, last) == key then Group(coarse, key, records) + [last] else Group(coarse, key, records)
    ensures Chosen(fine, coarse, records + [last], key) ==
            if KeyOf(coarse, last) == key && KeyOf(fine, last) !in FineKeys(fine, records)
            then Chosen(fine, coarse, records, key) + [KeyOf(fine, last)] else Chosen(fine, coarse, records, key)
  {
    FilterSnoc(WithKey(coarse, key), records, last);
    var keys, next := FineKeys(fine, records), KeyOf(fine, last);
    assert FineKeys(fine, records + [last]) == keys + [next];
    assert (keys + [next])[..|keys|] == keys;
    FilterSnoc(Kept(fine, coarse, key), Distinct(keys), next);
    ProjectKey(fine, coarse, last);
  }

  /** The first finer key under a coarser one is that of the first record under it. */
  lemma {:induction false} FirstChosen(fine: seq<string>, coarse: seq<string>, records: seq<Record>, key: Key)
    requires forall f :: f in coarse ==> f in fine
    requires Group(coarse, key, records) != []
    ensures Chosen(fine, coarse, records, key) != []
    ensures Chosen(fine, coarse, records, key)[0] == KeyOf(fine, Group(coarse, key, records)[0])
  {
    var init, last := records[..|records| - 1], records[|records| - 1];
    assert records == init + [last];
    ChosenSnoc(fine, coarse, init, last, key);
    if Group(coarse, key, init) != [] {
      FirstChosen(fine, coarse, init, key);
    } else {
      NothingChosen(fine, coarse, init, key);
      ChosenMember(fine, coarse, init, key, KeyOf(fine, last));
      ProjectKey(fine, coarse, last);
    }
  }

  lemma NothingChosen(fine: seq<string>, coarse: seq<string>, records: seq<Record>, key: Key)
    requires forall f :: f in coarse ==> f in fine
    requires Group(coarse, key, records) == []
    ensures Chosen(fine, coarse, records, key) == []
  {
    var order := Distinct(FineKeys(fine, records));
    forall i | 0 <= i < |order| ensures !Kept(fine, coarse, key)(order[i]) {
      assert order[i] in FineKeys(fine, records);
      var j :| 0 <= j < |records| && FineKeys(fine, records)[j] == order[i];
      ProjectKey(fine, coarse, records[j]);
      GroupMember(coarse, records, records[j]);
    }
    FilterNone(Kept(fine, coarse, key), order);
  }

  lemma FirstRowUnder(
    fine: seq<string>, coarse: seq<string>, aggregations: seq<Aggregation>, records: seq<Record>, key: Key)
    requires Setting(fine, coarse, aggregations, records)
    requires key in Map(KeyBy(coarse), records)
    ensures var rows := Group(coarse, key, Aggregate(fine, aggregations, records).value);
            var group := Group(coarse, key, records);
            && rows != [] && group != [] && group[0] in records
            && rows[0] == RowOf(fine, aggregations, records)(KeyOf(fine, group[0]))
  {
    GroupOfKey(coarse, records, key);
    FirstChosen(fine, coarse, records, key);
    ChosenRows(fine, coarse, aggregations, records, key);
  }

  lemma FirstOfBoth(fine: seq<string>, coarse: seq<string>, records: seq<Record>, key: Key, first: Record)
    requires forall f :: f in coarse ==> f in fine
    requires Group(coarse, key, records) != [] && Group(coarse, key, records)[0] == first
    ensures Group(fine, KeyOf(fine, first), records) != [] && Group(fine, KeyOf(fine, first), records)[0] == first
  {
    FilterMember(WithKey(coarse, key), records, first);
    forall r | r in records && WithKey(fine, KeyOf(fine, first))(r) ensures WithKey(coarse, key)(r) {
      ProjectKey(fine, coarse, r);
      ProjectKey(fine, coarse, first);
    }
    FilterHead(WithKey(coarse, key), WithKey(fine, KeyOf(fine, first)), records);
  }

  /** A coarser group and the finer rows under it show the same key columns. */
  lemma SameKeyColumns(
    fine: seq<string>, coarse: seq<string>, aggregations: seq<Aggregation>, records: seq<Record>, key: Key)
    requires Setting(fine, coarse, aggregations, records)
    requires key in Map(KeyBy(coarse), records)
    ensures KeyColumns(coarse, Group(coarse, key, Aggregate(fine, aggregations, records).value)) ==
            KeyColumns(coarse, Group(coarse, key, records))
  {
    FirstRowUnder(fine, coarse, aggregations, records, key);
    var first := Group(coarse, key, records)[0];
    GroupMember(fine, records, first);
    FirstOfBoth(fine, coarse, records, key, first);
    FineRowColumns(fine, coarse, aggregations, records, KeyOf(fine, first));
  }

  lemma RolledRow(
    fine: seq<string>, coarse: seq<string>, aggregations: seq<Aggregation>, records: seq<Record>, key: Key)
    requires Setting(fine, coarse, aggregations, records)
    requires key in Map(KeyBy(coarse), records)
    ensures RowFor(coarse, aggregations, records, key).Ok?
    ensures RowFor(coarse, RollAll(aggregations), Aggregate(fine, aggregations, records).value, key) ==
            RowFor(coarse, aggregations, records, key)
  {
    var rows, group := Group(coarse, key, Aggregate(fine, aggregations, records).value), Group(coarse, key, records);
    var columns := KeyColumns(coarse, group);
    SameKeyColumns(fine, coarse, aggregations, records, key);
    forall i: nat | i < |aggregations|
      ensures Apply(rows, Roll(aggregations[i])).Ok? && Apply(group, aggregations[i]).Ok?
      ensures Effective(aggregations, i) ==> Apply(rows, Roll(aggregations[i])) == Apply(group, aggregations[i])
    {
      RolledApply(fine, coarse, aggregations, records, key, i);
    }
    FillRowSucceeds(columns, group, aggregations);
    FillRowSucceeds(columns, rows, RollAll(aggregations));
    SameRow(columns, rows, group, aggregations);
  }

  // ---------- The law ----------

  lemma {:induction false} SameRows(
    fields: seq<string>, a: seq<Aggregation>, b: seq<Aggregation>, rows: seq<Record>,
    records: seq<Record>, keys: seq<Key>)
    requires forall k :: k in keys ==> RowFor(fields, a, rows, k) == RowFor(fields, b, records, k)
    ensures Rows(fields, a, rows, keys) == Rows(fields, b, records, keys)
  {
    if keys != [] {
      SameRows(fields, a, b, rows, records, keys[..|keys| - 1]);
    }
  }

  lemma CoarseKeysOfRecords(
      fine: seq<string>, coarse: seq<string>, aggregations: seq<Aggregation>, records: seq<Record>)
    requires Setting(fine, coarse, aggregations, records)
    ensures CheckKeys(coarse, records) == Ok(Map(KeyBy(coarse), records))
    ensures Map(KeyBy(coarse), records) == Map(Project(fine, coarse), FineKeys(fine, records))
  {
    forall r | r in records ensures CheckKey(coarse, r).Ok? {
      MemberChecked(fine, records, r);
    }
    CheckKeysSucceeds(coarse, records);
    forall i | 0 <= i < |records| ensures Project(fine, coarse)(KeyOf(fine, records[i])) == KeyOf(coarse, records[i]) {
      ProjectKey(fine, coarse, records[i]);
    }
  }

  lemma CoarseKeysOfRows(fine: seq<string>, coarse: seq<string>, aggregations: seq<Aggregation>, records: seq<Record>)
    requires Setting(fine, coarse, aggregations, records) && records != []
    ensures var rows := Aggregate(fine, aggregations, records).value;
            && rows != [] && CheckKeys(coarse, rows) == Ok(Map(KeyBy(coarse), rows))
            && Map(KeyBy(coarse), rows) == Map(Project(fine, coarse), Distinct(FineKeys(fine, records)))
  {
    FineRows(fine, coarse, aggregations, records);
    var rows, order := Aggregate(fine, aggregations, records).value, Distinct(FineKeys(fine, records));
    assert FineKeys(fine, records)[0] in order;
    KeysOfRows(fine, coarse, aggregations, records, order);
    CheckKeysSucceeds(coarse, rows);
  }

  lemma KeysOfRows(
    fine: seq<string>, coarse: seq<string>, aggregations: seq<Aggregation>, records: seq<Record>, order: seq<Key>)
    requires Setting(fine, coarse, aggregations, records) && records != []
    requires forall k :: k in order ==> k in FineKeys(fine, records)
    ensures var rows := Map(RowOf(fine, aggregations, records), order);
            && (forall r :: r in rows ==> CheckKey(coarse, r).Ok?)
            && Map(KeyBy(coarse), rows) == Map(Project(fine, coarse), order)
  {
    var rows := Map(RowOf(fine, aggregations, records), order);
    forall j | 0 <= j < |order|
      ensures CheckKey(coarse, rows[j]).Ok? && KeyOf(coarse, rows[j]) == Project(fine, coarse)(order[j])
    {
      FineRowKey(fine, coarse, aggregations, records, order[j]);
    }
  }

  lemma CoarseKeys(fine: seq<string>, coarse: seq<string>, aggregations: seq<Aggregation>, records: seq<Record>)
    requires Setting(fine, coarse, aggregations, records) && records != []
    ensures CheckKeys(coarse, records) == Ok(Map(KeyBy(coarse), records))
    ensures var rows := Aggregate(fine, aggregations, records).value;
            rows != [] && CheckKeys(coarse, rows) == Ok(Map(KeyBy(coarse), rows))
            && Distinct(Map(KeyBy(coarse), rows)) == Distinct(Map(KeyBy(coarse), records))
  {
    CoarseKeysOfRecords(fine, coarse, aggregations, records);
    CoarseKeysOfRows(fine, coarse, aggregations, records);
    DistinctProjected(Project(fine, coarse), FineKeys(fine, records));
  }

  lemma RollUpRecords(fine: seq<string>, coarse: seq<string>, aggregations: seq<Aggregation>, records: seq<Record>)
    requires Setting(fine, coarse, aggregations, records) && records != []
    ensures Aggregate(coarse, RollAll(aggregations), Aggregate(fine, aggregations, records).value) ==
            Aggregate(coarse, aggregations, records)
  {
    var rows := Aggregate(fine, aggregations, records).value;
    CoarseKeys(fine, coarse, aggregations, records);
    var order := Distinct(Map(KeyBy(coarse), records));
    forall k | k in order
      ensures RowFor(coarse, RollAll(aggregations), rows, k) == RowFor(coarse, aggregations, records, k)
    {
      RolledRow(fine, coarse, aggregations, records, k);
    }
    SameRows(coarse, RollAll(aggregations), aggregations, rows, records, order);
  }

  /** With no records, and one row over all of them, the two levels can part ways. */
  ghost predicate PartsOnEmpty(
      fine: seq<string>, coarse: seq<string>, aggregations: seq<Aggregation>, records: seq<Record>) {
    && records == [] && coarse == []
    && exists i :: Effective(aggregations, i) && (aggregations[i].operation.Count? <==> fine != [])
  }

  lemma ApplyToNothing(aggregation: Aggregation)
    requires Rollable(aggregation)
    ensures Apply([], aggregation) == Ok(if aggregation.operation.Count? then Number(0.0) else Null)
    ensures Apply([], Roll(aggregation)) == Ok(Null)
  {
  }

  /** Aggregating nothing by nothing gives one row. */
  lemma NothingByNothing(aggregations: seq<Aggregation>)
    requires FillRow(map[], [], aggregations).Ok?
    ensures Aggregate([], aggregations, []) == Ok([FillRow(map[], [], aggregations).value])
  {
    assert Group([], [], []) == [];
    assert Rows([], aggregations, [], []) == Ok([]);
    var keys: seq<Key> := [[]];
    assert keys[..0] == [];
    assert RowFor([], aggregations, [], []) == FillRow(map[], [], aggregations);
    var row := FillRow(map[], [], aggregations).value;
    assert [] + [row] == [row];
    assert Rows([], aggregations, [], keys) == Ok([row]);
  }

  lemma EmptyRowFilled(aggregations: seq<Aggregation>)
    requires forall a :: a in aggregations ==> Rollable(a)
    ensures FillRow(map[], [], aggregations).Ok? && FillRow(map[], [], RollAll(aggregations)).Ok?
  {
    forall i | 0 <= i < |aggregations|
      ensures Apply([], aggregations[i]).Ok? && Apply([], RollAll(aggregations)[i]).Ok?
    {
      ApplyToNothing(aggregations[i]);
    }
    FillRowSucceeds(map[], [], aggregations);
    FillRowSucceeds(map[], [], RollAll(aggregations));
  }

  /** No rows to roll up: counts come back as null, everything else as it would directly. */
  lemma RollUpNoRows(fine: seq<string>, aggregations: seq<Aggregation>)
    requires fine != [] && Setting(fine, [], aggregations, [])
    ensures Aggregate([], RollAll(aggregations), Aggregate(fine, aggregations, []).value) ==
            Aggregate([], aggregations, [])
            <==> !PartsOnEmpty(fine, [], aggregations, [])
  {
    assert Aggregate(fine, aggregations, []) == Ok([]);
    EmptyRowFilled(aggregations);
    NothingByNothing(aggregations);
    NothingByNothing(RollAll(aggregations));
    RollKeepsOutputs(aggregations);
    forall i | 0 <= i < |aggregations| ensures Rollable(aggregations[i]) {
      assert aggregations[i] in aggregations;
    }
    if PartsOnEmpty(fine, [], aggregations, []) {
      var i :| Effective(aggregations, i) && aggregations[i].operation.Count?;
      ApplyToNothing(aggregations[i]);
      FilledOutput(map[], [], aggregations, i);
      FilledOutput(map[], [], RollAll(aggregations), i);
    } else {
      forall i | Effective(aggregations, i) ensures Apply([], Roll(aggregations[i])) == Apply([], aggregations[i]) {
        ApplyToNothing(aggregations[i]);
      }
      SameRow(map[], [], [], aggregations);
    }
  }

  lemma OneKeyByNothing(row: Record)
    ensures CheckKeys([], [row]) == Ok([[]])
    ensures Group([], [], [row]) == [row]
  {
    var rows, key: Key := [row], [];
    assert rows[..0] == [] && rows[1..] == [];
    assert KeyOf([], row) == key;
    assert CheckKey([], row) == Ok(key);
    assert CheckKeys([], rows[..0]) == Ok([]);
    assert [] + [key] == [key];
  }

  lemma OneRow(fields: seq<string>, aggregations: seq<Aggregation>, records: seq<Record>, key: Key)
    ensures Rows(fields, aggregations, records, [key]) ==
            match RowFor(fields, aggregations, records, key) case Ok(row) => Ok([row]) case Err(error) => Err(error)
  {
    assert [key][..0] == [];
    assert Rows(fields, aggregations, records, []) == Ok([]);
    var row := RowFor(fields, aggregations, records, key);
    assert row.Ok? ==> [] + [row.value] == [row.value];
  }

  lemma OneRowByNothing(aggregations: seq<Aggregation>, row: Record)
    ensures Aggregate([], aggregations, [row]) ==
            match FillRow(map[], [row], aggregations) case Ok(filled) => Ok([filled]) case Err(error) => Err(error)
  {
    var key: Key := [];
    OneKeyByNothing(row);
    DistinctSnoc([], key);
    assert [] + [key] == [key] && Distinct([]) == [];
    OneRow([], aggregations, [row], key);
    assert KeyColumns([], [row]) == map[];
  }

  lemma ApplyToOne(aggregation: Aggregation, row: Record)
    requires aggregation.operation in {Sum, Min, Max} && aggregation.field.Some?
    ensures Apply([row], aggregation) ==
            var value := FieldOf(row, aggregation.field.value);
            if value.Number? then Ok(value) else Err(NotNumeric)
  {
    assert [row][1..] == [];
    NumericValuesAre(aggregation.field.value, [row]);
  }

  /** One row of aggregates of nothing: its counts are zero, and its nulls cannot be aggregated again. */
  lemma RollUpOneRow(aggregations: seq<Aggregation>)
    requires Setting([], [], aggregations, [])
    ensures Aggregate([], RollAll(aggregations), Aggregate([], aggregations, []).value) ==
            Aggregate([], aggregations, [])
            <==> !PartsOnEmpty([], [], aggregations, [])
  {
    EmptyRowFilled(aggregations);
    NothingByNothing(aggregations);
    var row := FillRow(map[], [], aggregations).value;
    OneRowByNothing(RollAll(aggregations), row);
    RollKeepsOutputs(aggregations);
    forall i | 0 <= i < |aggregations| ensures Rollable(aggregations[i]) {
      assert aggregations[i] in aggregations;
    }
    if PartsOnEmpty([], [], aggregations, []) {
      var i :| Effective(aggregations, i) && !aggregations[i].operation.Count?;
      ApplyToNothing(aggregations[i]);
      FilledOutput(map[], [], aggregations, i);
      ApplyToOne(Roll(aggregations[i]), row);
      if FillRow(map[], [row], RollAll(aggregations)).Ok? {
        FilledFrom(map[], [row], RollAll(aggregations), i);
        assert false;
      }
    } else {
      CountsOnly(aggregations, row);
    }
  }

  lemma CountsOnly(aggregations: seq<Aggregation>, row: Record)
    requires forall i :: 0 <= i < |aggregations| ==> Rollable(aggregations[i])
    requires forall i :: Effective(aggregations, i) ==> aggregations[i].operation.Count?
    requires FillRow(map[], [], aggregations) == Ok(row)
    ensures FillRow(map[], [row], RollAll(aggregations)) == Ok(row)
  {
    forall i | 0 <= i < |aggregations| ensures Apply([row], Roll(aggregations[i])) == Ok(Number(0.0)) {
      var last := LastWriter(aggregations, aggregations[i].output);
      ApplyToNothing(aggregations[last]);
      FilledOutput(map[], [], aggregations, last);
      ApplyToOne(Roll(aggregations[i]), row);
    }
    FillRowSucceeds(map[], [row], RollAll(aggregations));
    forall i | Effective(aggregations, i) ensures Apply([row], Roll(aggregations[i])) == Apply([], aggregations[i]) {
      ApplyToNothing(aggregations[i]);
    }
    SameRow(map[], [row], [], aggregations);
  }

  /**
   Aggregating by a finer list of fields and rolling the result up by a coarser one (COUNT by SUM,
   SUM, MIN and MAX by themselves) gives the direct aggregate, rows and their order included, as long
   as output names do not collide with the key fields. It fails exactly when there are no records and
   no coarser field, so that there is one row over nothing: then either the finer level had no row and
   some output is a count, or it had one and some output is null.
   */
  lemma RollUpLaw(fine: seq<string>, coarse: seq<string>, aggregations: seq<Aggregation>, records: seq<Record>)
    requires forall f :: f in coarse ==> f in fine
    requires forall a :: a in aggregations ==> Rollable(a) && a.output !in fine
    requires Aggregate(fine, aggregations, records).Ok?
    ensures Aggregate(coarse, RollAll(aggregations), Aggregate(fine, aggregations, records).value) ==
            Aggregate(coarse, aggregations, records)
            <==> !PartsOnEmpty(fine, coarse, aggregations, records)
  {
    if records != [] {
      RollUpRecords(fine, coarse, aggregations, records);
    } else if coarse != [] {
      assert coarse[0] in fine;
      assert Aggregate(fine, aggregations, []) == Ok([]);
      assert Aggregate(coarse, RollAll(aggregations), []) == Ok([]) == Aggregate(coarse, aggregations, []);
    } else if fine != [] {
      RollUpNoRows(fine, aggregations);
    } else {
      RollUpOneRow(aggregations);
    }
  }

  /** A concrete case: counting no records by team and then overall yields null, not zero. */
  lemma CountOfNothingIsLost()
    ensures var counts := [Aggregation(Count, "rows", None)];
            && Aggregate(["team"], counts, []) == Ok([])
            && Aggregate([], RollAll(counts), []) == Ok([map["rows" := Null]])
            && Aggregate([], counts, []) == Ok([map["rows" := Number(0.0)]])
  {
    var counts := [Aggregation(Count, "rows", None)];
    assert counts[..0] == [] && RollAll(counts)[..0] == [];
    assert FillRow(map[], [], counts) == Ok(map["rows" := Number(0.0)]);
    assert FillRow(map[], [], RollAll(counts)) == Ok(map["rows" := Null]);
    NothingByNothing(counts);
    NothingByNothing(RollAll(counts));
  }
}
