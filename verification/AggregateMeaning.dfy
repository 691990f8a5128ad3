/** What every row of an aggregate says about the records behind it, without its own functions. */
module AggregateMeaning {
  import opened Basics
  import opened JsonValues
  import opened Records
  import opened AggregateRecords
  import opened RollUp

  // ---------- Which records belong together ----------

  /** Python's `==` on scalars: `True` is 1 and `False` is 0. */
  predicate SameValue(a: Json, b: Json) {
    || a == b
    || (a.Bool? && b.Number? && b.number == if a.flag then 1.0 else 0.0)
    || (b.Bool? && a.Number? && a.number == if b.flag then 1.0 else 0.0)
  }

  predicate Alike(fields: seq<string>, a: Record, b: Record) {
    forall f :: f in fields ==> SameValue(FieldOf(a, f), FieldOf(b, f))
  }

  function AlikeTo(fields: seq<string>, a: Record): Record -> bool {
    r => Alike(fields, a, r)
  }

  lemma SameKeyIffAlike(fields: seq<string>, a: Record, b: Record)
    ensures KeyOf(fields, a) == KeyOf(fields, b) <==> Alike(fields, a, b)
  {
    var x, y := KeyOf(fields, a), KeyOf(fields, b);
    if x == y {
      forall f | f in fields ensures SameValue(FieldOf(a, f), FieldOf(b, f)) {
        var i :| 0 <= i < |fields| && fields[i] == f;
        assert x[i] == y[i];
      }
    }
    if Alike(fields, a, b) {
      forall i | 0 <= i < |fields| ensures x[i] == y[i] {
        assert fields[i] in fields && SameValue(FieldOf(a, fields[i]), FieldOf(b, fields[i]));
      }
    }
  }

  lemma GroupIsAlike(fields: seq<string>, a: Record, records: seq<Record>)
    ensures Group(fields, KeyOf(fields, a), records) == Filter(AlikeTo(fields, a), records)
  {
    forall r | r in records ensures WithKey(fields, KeyOf(fields, a))(r) == AlikeTo(fields, a)(r) {
      SameKeyIffAlike(fields, a, r);
    }
    FilterCongruent(WithKey(fields, KeyOf(fields, a)), AlikeTo(fields, a), records);
  }

  // ---------- What one aggregate means ----------

  /** The values of a numeric field, added up. */
  function SumOf(field: string, group: seq<Record>): real {
    if group == [] then 0.0
    else
      var last := FieldOf(group[|group| - 1], field);
      SumOf(field, group[..|group| - 1]) + if last.Number? then last.number else 0.0
  }

  predicate AllNumeric(field: string, group: seq<Record>) {
    forall r :: r in group ==> FieldOf(r, field).Number?
  }

  /** `value` is what the aggregation says of the group. */
  ghost predicate Means(aggregation: Aggregation, group: seq<Record>, value: Json) {
    if aggregation.operation.Count? then value == Number(|group| as real)
    else if aggregation.field.None? then false
    else if group == [] then value == Null
    else
      var field := aggregation.field.value;
      && AllNumeric(field, group) && value.Number?
      && match aggregation.operation
         case Min =>
           && (forall r :: r in group ==> value.number <= FieldOf(r, field).number)
           && (exists r :: r in group && value.number == FieldOf(r, field).number)
         case Max =>
           && (forall r :: r in group ==> value.number >= FieldOf(r, field).number)
           && (exists r :: r in group && value.number == FieldOf(r, field).number)
         case Avg => value.number * |group| as real == SumOf(field, group)
         case _ => value.number == SumOf(field, group)
  }

  lemma {:induction false} ReduceLesser(values: seq<real>)
    requires values != []
    ensures forall i :: 0 <= i < |values| ==> Reduce(Lesser, values) <= values[i]
    ensures Reduce(Lesser, values) in values
  {
    if |values| > 1 {
      var init := values[..|values| - 1];
      ReduceLesser(init);
      forall i | 0 <= i < |values| ensures Reduce(Lesser, values) <= values[i] {
        assert i < |init| ==> init[i] == values[i];
      }
    }
  }

  lemma {:induction false} ReduceGreater(values: seq<real>)
    requires values != []
    ensures forall i :: 0 <= i < |values| ==> Reduce(Greater, values) >= values[i]
    ensures Reduce(Greater, values) in values
  {
    if |values| > 1 {
      var init := values[..|values| - 1];
      ReduceGreater(init);
      forall i | 0 <= i < |values| ensures Reduce(Greater, values) >= values[i] {
        assert i < |init| ==> init[i] == values[i];
      }
    }
  }

  lemma {:induction false} ReducePlus(field: string, group: seq<Record>)
    requires group != [] && AllNumeric(field, group)
    ensures Reduce(Plus, Map(Numbers(field), group)) == SumOf(field, group)
  {
    var init, values := group[..|group| - 1], Map(Numbers(field), group);
    assert group[|group| - 1] in group;
    assert values[..|values| - 1] == Map(Numbers(field), init);
    if init != [] {
      ReducePlus(field, init);
    } else {
      assert SumOf(field, init) == 0.0;
    }
  }

  lemma ExtremeMeans(field: string, group: seq<Record>, value: real)
    requires group != [] && AllNumeric(field, group) && value in Map(Numbers(field), group)
    ensures exists r :: r in group && value == FieldOf(r, field).number
  {
    var values := Map(Numbers(field), group);
    var i :| 0 <= i < |values| && values[i] == value;
    assert group[i] in group;
  }

  lemma ApplyMeans(group: seq<Record>, aggregation: Aggregation)
    requires Apply(group, aggregation).Ok?
    ensures Means(aggregation, group, Apply(group, aggregation).value)
  {
    if !aggregation.operation.Count? && group != [] {
      var field := aggregation.field.value;
      var values := Map(Numbers(field), group);
      NumericValuesAre(field, group);
      ReducePlus(field, group);
      match aggregation.operation
      case Min => LeastMeans(field, group);
      case Max => GreatestMeans(field, group);
      case Avg => AverageMeans(Reduce(Plus, values), |group|);
      case _ =>
    }
  }

  lemma AverageMeans(sum: real, n: nat)
    requires n > 0
    ensures sum / n as real * n as real == sum
  {
  }

  lemma LeastMeans(field: string, group: seq<Record>)
    requires group != [] && AllNumeric(field, group)
    ensures var least := Reduce(Lesser, Map(Numbers(field), group));
            && (forall r :: r in group ==> least <= FieldOf(r, field).number)
            && (exists r :: r in group && least == FieldOf(r, field).number)
  {
    var values := Map(Numbers(field), group);
    ReduceLesser(values);
    ExtremeMeans(field, group, Reduce(Lesser, values));
    forall r | r in group ensures Reduce(Lesser, values) <= FieldOf(r, field).number {
      var i :| 0 <= i < |group| && group[i] == r;
      assert values[i] == FieldOf(r, field).number;
    }
  }

  lemma GreatestMeans(field: string, group: seq<Record>)
    requires group != [] && AllNumeric(field, group)
    ensures var greatest := Reduce(Greater, Map(Numbers(field), group));
            && (forall r :: r in group ==> greatest >= FieldOf(r, field).number)
            && (exists r :: r in group && greatest == FieldOf(r, field).number)
  {
    var values := Map(Numbers(field), group);
    ReduceGreater(values);
    ExtremeMeans(field, group, Reduce(Greater, values));
    forall r | r in group ensures Reduce(Greater, values) >= FieldOf(r, field).number {
      var i :| 0 <= i < |group| && group[i] == r;
      assert values[i] == FieldOf(r, field).number;
    }
  }

  /** An aggregate of a group exists iff it counts, or names a field that is numeric throughout. */
  lemma AppliesIff(group: seq<Record>, aggregation: Aggregation)
    ensures Apply(group, aggregation).Ok? <==>
      aggregation.operation.Count? || (aggregation.field.Some? && AllNumeric(aggregation.field.value, group))
    ensures Apply(group, aggregation).Err? ==>
      Apply(group, aggregation).error == if aggregation.field.None? then FieldRequired else NotNumeric
  {
    if aggregation.field.Some? {
      NumericValuesAre(aggregation.field.value, group);
    }
  }

  // ---------- What a row means ----------

  /** The row has the group's key columns and one column per output, each meaning what its last writer says. */
  ghost predicate RowMeans(
    fields: seq<string>, aggregations: seq<Aggregation>, group: seq<Record>, row: Record)
  {
    && (forall name :: name in row <==> (group != [] && name in fields) || IsOutput(aggregations, name))
    && (forall name :: name in fields && name in row && !IsOutput(aggregations, name) ==>
      group != [] && row[name] == FieldOf(group[0], name))
    && (forall j :: Effective(aggregations, j) ==>
      aggregations[j].output in row && Means(aggregations[j], group, row[aggregations[j].output]))
  }

  lemma FilledMeans(fields: seq<string>, aggregations: seq<Aggregation>, group: seq<Record>)
    requires FillRow(KeyColumns(fields, group), group, aggregations).Ok?
    ensures RowMeans(fields, aggregations, group, FillRow(KeyColumns(fields, group), group, aggregations).value)
  {
    var columns := KeyColumns(fields, group);
    FilledColumns(columns, group, aggregations);
    forall j | Effective(aggregations, j)
      ensures var row := FillRow(columns, group, aggregations).value;
              aggregations[j].output in row && Means(aggregations[j], group, row[aggregations[j].output])
    {
      FilledOutput(columns, group, aggregations, j);
      ApplyMeans(group, aggregations[j]);
    }
  }

  // ---------- What an aggregate means ----------

  /** `first[i]` is where the i-th kind of record first occurs; together they are all kinds, in order. */
  ghost predicate FirstOfEach(fields: seq<string>, records: seq<Record>, first: seq<nat>) {
    && (forall i :: 0 <= i < |first| ==> first[i] < |records|)
    && (forall i, j :: 0 <= i < j < |first| ==> first[i] < first[j])
    && (forall i :: 0 <= i < |first| ==>
      forall k :: 0 <= k < first[i] ==> !Alike(fields, records[k], records[first[i]]))
    && (forall k :: 0 <= k < |records| ==>
      exists i :: 0 <= i < |first| && Alike(fields, records[first[i]], records[k]))
  }

  lemma FirstsOfDistinct(fields: seq<string>, records: seq<Record>) returns (first: seq<nat>)
    requires CheckKeys(fields, records).Ok?
    ensures var keys := CheckKeys(fields, records).value;
            && |first| == |Distinct(keys)| && FirstOfEach(fields, records, first)
            && forall i :: 0 <= i < |first| ==> Distinct(keys)[i] == KeyOf(fields, records[first[i]])
  {
    var keys := CheckKeys(fields, records).value;
    CheckedKeys(fields, records);
    first := DistinctInOrder(keys);
    forall i | 0 <= i < |first|
      ensures first[i] < |records| && Distinct(keys)[i] == KeyOf(fields, records[first[i]])
      ensures forall k :: 0 <= k < first[i] ==> !Alike(fields, records[k], records[first[i]])
    {
      assert FirstAt(keys, Distinct(keys)[i], first[i]);
      assert keys[first[i]] == KeyBy(fields)(records[first[i]]);
      forall k | 0 <= k < first[i] ensures !Alike(fields, records[k], records[first[i]]) {
        SameKeyIffAlike(fields, records[k], records[first[i]]);
        assert keys[k] == KeyBy(fields)(records[k]) && keys[k] in keys[..first[i]];
      }
    }
    forall k | 0 <= k < |records|
      ensures exists i :: 0 <= i < |first| && Alike(fields, records[first[i]], records[k])
    {
      assert keys[k] == KeyBy(fields)(records[k]) && keys[k] in Distinct(keys);
      var i :| 0 <= i < |first| && Distinct(keys)[i] == keys[k];
      SameKeyIffAlike(fields, records[first[i]], records[k]);
    }
  }

  /**
   One row per kind of record, in the order in which the kinds first occur, and each row means what it should
   over exactly the records of its kind.
   */
  lemma AggregateMeans(fields: seq<string>, aggregations: seq<Aggregation>, records: seq<Record>)
    returns (first: seq<nat>)
    requires records != [] && Aggregate(fields, aggregations, records).Ok?
    ensures var rows := Aggregate(fields, aggregations, records).value;
            && |rows| == |first| && FirstOfEach(fields, records, first)
            && forall i :: 0 <= i < |rows| ==>
                 RowMeans(fields, aggregations, Filter(AlikeTo(fields, records[first[i]]), records), rows[i])
  {
    var keys := CheckKeys(fields, records).value;
    first := FirstsOfDistinct(fields, records);
    RowsPointwise(fields, aggregations, records, Distinct(keys));
    var rows := Aggregate(fields, aggregations, records).value;
    forall i | 0 <= i < |rows|
      ensures RowMeans(fields, aggregations, Filter(AlikeTo(fields, records[first[i]]), records), rows[i])
    {
      GroupIsAlike(fields, records[first[i]], records);
      FilledMeans(fields, aggregations, Group(fields, Distinct(keys)[i], records));
    }
  }

  /** Over no records there is one row about nothing if there is nothing to group by, and no row otherwise. */
  lemma AggregateOfNothing(fields: seq<string>, aggregations: seq<Aggregation>)
    requires Aggregate(fields, aggregations, []).Ok?
    ensures var rows := Aggregate(fields, aggregations, []).value;
            if fields == [] then |rows| == 1 && RowMeans(fields, aggregations, [], rows[0]) else rows == []
  {
    if fields == [] {
      RowsPointwise(fields, aggregations, [], [[]]);
      FilledMeans(fields, aggregations, []);
    }
  }

  predicate ScalarKey(fields: seq<string>, record: Record) {
    forall f :: f in fields ==> f in record && !FieldOf(record, f).Array? && !FieldOf(record, f).Object?
  }

  predicate Computable(aggregations: seq<Aggregation>, records: seq<Record>) {
    forall j :: 0 <= j < |aggregations| ==>
      || aggregations[j].operation.Count?
      || (aggregations[j].field.Some? && AllNumeric(aggregations[j].field.value, records))
  }

  lemma KeyCheckedIff(fields: seq<string>, record: Record)
    ensures CheckKey(fields, record).Ok? <==> ScalarKey(fields, record)
    ensures CheckKey(fields, record).Err? ==>
      CheckKey(fields, record).error ==
      if exists f :: f in fields && f !in record then MissingGroupField else GroupKeyNotScalar
  {
    if HasFields(fields, record) && exists f :: f in fields && !Hashable(FieldOf(record, f)) {
      var f :| f in fields && !Hashable(FieldOf(record, f));
      assert !ScalarKey(fields, record);
    }
  }

  lemma {:induction false} KeysCheckedIff(fields: seq<string>, records: seq<Record>)
    ensures CheckKeys(fields, records).Ok? <==> forall r :: r in records ==> ScalarKey(fields, r)
  {
    if records != [] {
      var init, last := records[..|records| - 1], records[|records| - 1];
      KeysCheckedIff(fields, init);
      KeyCheckedIff(fields, last);
      assert forall r :: r in records <==> r in init || r == last by {
        assert records == init + [last];
      }
    }
  }

  /** The first record without a scalar key decides the error: a missing field before one that is not scalar. */
  lemma KeyErrors(fields: seq<string>, records: seq<Record>, i: nat)
    requires i < |records| && !ScalarKey(fields, records[i])
    requires forall k :: 0 <= k < i ==> ScalarKey(fields, records[k])
    ensures CheckKeys(fields, records) ==
            Err(if exists f :: f in fields && f !in records[i] then MissingGroupField else GroupKeyNotScalar)
  {
    KeysCheckedIff(fields, records[..i]);
    KeyCheckedIff(fields, records[i]);
    CheckKeysFailsAt(fields, records, i);
  }

  lemma {:induction false} RowsFound(
    fields: seq<string>, aggregations: seq<Aggregation>, records: seq<Record>, keys: seq<Key>)
    requires Computable(aggregations, records)
    ensures Rows(fields, aggregations, records, keys).Ok?
  {
    forall k | k in keys ensures RowFor(fields, aggregations, records, k).Ok? {
      var group := Group(fields, k, records);
      FilterMembers(WithKey(fields, k), records);
      forall j | 0 <= j < |aggregations| ensures Apply(group, aggregations[j]).Ok? {
        AppliesIff(group, aggregations[j]);
      }
      FillRowSucceeds(KeyColumns(fields, group), group, aggregations);
    }
    RowsSucceed(fields, aggregations, records, keys);
  }

  lemma RowsComputable(
    fields: seq<string>, aggregations: seq<Aggregation>, records: seq<Record>, keys: seq<Key>)
    requires Rows(fields, aggregations, records, keys).Ok? && keys != []
    requires forall r :: r in records ==> KeyOf(fields, r) in keys
    ensures Computable(aggregations, records)
  {
    RowsPointwise(fields, aggregations, records, keys);
    forall j | 0 <= j < |aggregations| && !aggregations[j].operation.Count?
      ensures aggregations[j].field.Some? && AllNumeric(aggregations[j].field.value, records)
    {
      GroupComputable(fields, aggregations, records, keys[0], j);
      forall r | r in records ensures FieldOf(r, aggregations[j].field.value).Number? {
        var i :| 0 <= i < |keys| && keys[i] == KeyOf(fields, r);
        GroupComputable(fields, aggregations, records, keys[i], j);
        FilterMember(WithKey(fields, keys[i]), records, r);
      }
    }
  }

  lemma GroupComputable(
    fields: seq<string>, aggregations: seq<Aggregation>, records: seq<Record>, key: Key, j: nat)
    requires RowFor(fields, aggregations, records, key).Ok?
    requires j < |aggregations| && !aggregations[j].operation.Count?
    ensures aggregations[j].field.Some? && AllNumeric(aggregations[j].field.value, Group(fields, key, records))
  {
    var group := Group(fields, key, records);
    FilledFrom(KeyColumns(fields, group), group, aggregations, j);
    AppliesIff(group, aggregations[j]);
  }

  /** Aggregation succeeds iff every group key is there and scalar and, if there is any row, all it needs is numeric. */
  lemma AggregatesIff(fields: seq<string>, aggregations: seq<Aggregation>, records: seq<Record>)
    ensures Aggregate(fields, aggregations, records).Ok? <==>
      && (forall r :: r in records ==> ScalarKey(fields, r))
      && (records != [] || fields == [] ==> Computable(aggregations, records))
  {
    KeysCheckedIff(fields, records);
    if CheckKeys(fields, records).Ok? {
      var keys := CheckKeys(fields, records).value;
      var order := GroupOrder(fields, records, keys);
      CheckedKeys(fields, records);
      if Computable(aggregations, records) {
        RowsFound(fields, aggregations, records, order);
      }
      forall r | r in records ensures KeyOf(fields, r) in order {
        var i :| 0 <= i < |records| && records[i] == r;
        assert keys[i] == KeyBy(fields)(r);
      }
      if Rows(fields, aggregations, records, order).Ok? && (records != [] || fields == []) {
        assert records != [] ==> KeyOf(fields, records[0]) in order;
        RowsComputable(fields, aggregations, records, order);
      }
    }
  }
}
