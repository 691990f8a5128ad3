/** Selecting the first k records by a field, over JSON records. */
module Records {
  import opened Basics
  import opened JsonValues

  type Record = map<string, Json>

  datatype RecordError =
    | MissingField
    | MixedFieldTypes
    | NotText
    | MissingGroupField
    | GroupKeyNotScalar
    | FieldRequired
    | NotNumeric

  /** `record.get(field)`. */
  function FieldOf(record: Record, field: string): Json {
    if field in record then record[field] else Null
  }
}

module TopKRecords {
  import opened Basics
  import opened JsonValues
  import opened Sorting
  import opened Records

  function Kind(value: Json): int {
    match value
    case Number(_) => 0
    case String(_) => 1
    case _ => 2
  }

  /** Numbers by value and strings by code point; kinds are never mixed by a request that passes the checks. */
  predicate ValueLeq(a: Json, b: Json) {
    if a.Number? && b.Number? then a.number <= b.number
    else if a.String? && b.String? then LexLeq(a.text, b.text)
    else Kind(a) <= Kind(b)
  }

  predicate FieldLeq(field: string, descending: bool, a: Record, b: Record) {
    if descending then ValueLeq(FieldOf(b, field), FieldOf(a, field))
    else ValueLeq(FieldOf(a, field), FieldOf(b, field))
  }

  function Ranking(field: string, descending: bool): (Record, Record) -> bool {
    (a, b) => FieldLeq(field, descending, a, b)
  }

  lemma ValueLeqTransitive(a: Json, b: Json, c: Json)
    requires ValueLeq(a, b) && ValueLeq(b, c)
    ensures ValueLeq(a, c)
  {
    if a.String? && b.String? && c.String? {
      LexTransitive(a.text, b.text, c.text);
    }
  }

  lemma RankingIsTotalPreorder(field: string, descending: bool)
    ensures TotalPreorder(Ranking(field, descending))
  {
    forall a: Record, b: Record ensures Ranking(field, descending)(a, b) || Ranking(field, descending)(b, a) {
      if FieldOf(a, field).String? && FieldOf(b, field).String? {
        LexTotal(FieldOf(a, field).text, FieldOf(b, field).text);
      }
    }
    forall a: Record, b: Record, c: Record | Ranking(field, descending)(a, b) && Ranking(field, descending)(b, c)
      ensures Ranking(field, descending)(a, c)
    {
      if descending {
        ValueLeqTransitive(FieldOf(c, field), FieldOf(b, field), FieldOf(a, field));
      } else {
        ValueLeqTransitive(FieldOf(a, field), FieldOf(b, field), FieldOf(c, field));
      }
    }
  }

  predicate AllNumbers(field: string, records: seq<Record>) {
    forall r :: r in records ==> FieldOf(r, field).Number?
  }

  predicate AllStrings(field: string, records: seq<Record>) {
    forall r :: r in records ==> FieldOf(r, field).String?
  }

  predicate AllHave(field: string, records: seq<Record>) {
    forall r :: r in records ==> field in r
  }

  predicate Rankable(field: string, records: seq<Record>) {
    AllNumbers(field, records) || AllStrings(field, records)
  }

  function Select(field: string, k: nat, descending: bool, records: seq<Record>): Result<seq<Record>, RecordError> {
    if !AllHave(field, records) then Err(MissingField)
    else if records != [] && !Rankable(field, records) then Err(MixedFieldTypes)
    else Ok(TopK(Ranking(field, descending), k, records))
  }

  // ---------- What the selection means ----------

  lemma SelectedAreMembers(field: string, k: nat, descending: bool, records: seq<Record>)
    ensures forall r :: r in TopK(Ranking(field, descending), k, records) ==> r in records
    ensures k > 0 && records != [] ==> TopK(Ranking(field, descending), k, records) != []
  {
    var sorted := Sort(Ranking(field, descending), records);
    assert |sorted| == |records|;
    forall r | r in TopK(Ranking(field, descending), k, records) ensures r in records {
      assert r in sorted;
      assert r in multiset(sorted);
    }
  }

  /** The records a selection passes over, in rank order. */
  function PassedOver(field: string, k: nat, descending: bool, records: seq<Record>): seq<Record> {
    Drop(k, Sort(Ranking(field, descending), records))
  }

  /**
   A selection has k records or all of them, in rank order; with those passed over it is the whole
   input, none of them ranks before a selected one, and records with equal values keep their input order.
   */
  lemma SelectCharacterised(field: string, k: nat, descending: bool, records: seq<Record>, value: Json)
    requires Select(field, k, descending, records).Ok?
    ensures var top := Select(field, k, descending, records).value;
            var rest := PassedOver(field, k, descending, records);
            var tied := (r: Record) => FieldOf(r, field) == value;
            && |top| == (if k < |records| then k else |records|)
            && multiset(top + rest) == multiset(records)
            && Sorted(Ranking(field, descending), top)
            && (forall s, r :: s in top && r in rest ==> FieldLeq(field, descending, s, r))
            && Filter(tied, top + rest) == Filter(tied, records)
  {
    var ranking := Ranking(field, descending);
    var top, rest := Select(field, k, descending, records).value, PassedOver(field, k, descending, records);
    RankingIsTotalPreorder(field, descending);
    SortSorted(ranking, records);
    TakeDrop(k, Sort(ranking, records));
    forall s, r | s in top && r in rest ensures ranking(s, r) {
      SortedAcross(ranking, top, rest, s, r);
    }
    var tied := (r: Record) => FieldOf(r, field) == value;
    forall y: Record, z: Record | tied(y) && tied(z) ensures ranking(y, z) {
      LexTotalSelf(value);
    }
    SortStable(ranking, tied, records);
  }

  lemma SortedAcross<T(!new)>(leq: (T, T) -> bool, a: seq<T>, b: seq<T>, x: T, y: T)
    requires Sorted(leq, a + b) && x in a && y in b
    ensures leq(x, y)
  {
    var i :| 0 <= i < |a| && a[i] == x;
    var j :| 0 <= j < |b| && b[j] == y;
    assert (a + b)[i] == x && (a + b)[|a| + j] == y;
  }

  lemma LexTotalSelf(value: Json)
    ensures ValueLeq(value, value)
  {
    if value.String? {
      LexTotal(value.text, value.text);
    }
  }

  /** Selecting again keeps the lesser of the two counts. */
  lemma SelectNested(field: string, j: nat, k: nat, descending: bool, records: seq<Record>)
    requires Select(field, k, descending, records).Ok?
    ensures Select(field, j, descending, Select(field, k, descending, records).value) ==
            Select(field, if j < k then j else k, descending, records)
  {
    RankingIsTotalPreorder(field, descending);
    TopKNested(Ranking(field, descending), j, k, records);
    SelectedAreMembers(field, k, descending, records);
  }

  function SelectEach(
      field: string, k: nat, descending: bool, shards: seq<seq<Record>>): Result<seq<seq<Record>>, RecordError> {
    if shards == [] then Ok([])
    else
      var first :- Select(field, k, descending, shards[0]);
      var rest :- SelectEach(field, k, descending, shards[1..]);
      Ok([first] + rest)
  }

  /** Every member of a shard has the same kind of field value as some member of its selection. */
  lemma SelectionRepresents(field: string, k: nat, descending: bool, shard: seq<Record>)
    requires k > 0 && Select(field, k, descending, shard).Ok?
    ensures var top := Select(field, k, descending, shard).value;
            && AllHave(field, top)
            && (AllNumbers(field, top) <==> AllNumbers(field, shard))
            && (AllStrings(field, top) <==> AllStrings(field, shard))
            && (top == [] <==> shard == [])
  {
    SelectedAreMembers(field, k, descending, shard);
    var top := Select(field, k, descending, shard).value;
    if shard != [] {
      assert top[0] in shard && top[0] in top;
    }
  }

  lemma {:induction false} SelectEachRepresents(field: string, k: nat, descending: bool, shards: seq<seq<Record>>)
    requires k > 0 && SelectEach(field, k, descending, shards).Ok?
    ensures var tops := SelectEach(field, k, descending, shards).value;
            && |tops| == |shards|
            && (forall i :: 0 <= i < |shards| ==> tops[i] == TopK(Ranking(field, descending), k, shards[i]))
            && AllHave(field, Flatten(shards)) && AllHave(field, Flatten(tops))
            && (AllNumbers(field, Flatten(tops)) <==> AllNumbers(field, Flatten(shards)))
            && (AllStrings(field, Flatten(tops)) <==> AllStrings(field, Flatten(shards)))
            && (Flatten(tops) == [] <==> Flatten(shards) == [])
    decreases |shards|
  {
    if shards != [] {
      SelectionRepresents(field, k, descending, shards[0]);
      SelectEachRepresents(field, k, descending, shards[1..]);
      var tops := SelectEach(field, k, descending, shards).value;
      assert tops[0] == Select(field, k, descending, shards[0]).value;
      assert tops[1..] == SelectEach(field, k, descending, shards[1..]).value;
    }
  }

  /** What can be ranked together can be ranked in parts. */
  lemma SelectPart(field: string, k: nat, descending: bool, part: seq<Record>, whole: seq<Record>)
    requires Select(field, k, descending, whole).Ok? && forall r :: r in part ==> r in whole
    ensures Select(field, k, descending, part).Ok?
  {
  }

  lemma {:induction false} SelectEachPossible(
      field: string, k: nat, descending: bool, shards: seq<seq<Record>>, whole: seq<Record>)
    requires Select(field, k, descending, whole).Ok? && forall r :: r in Flatten(shards) ==> r in whole
    ensures SelectEach(field, k, descending, shards).Ok?
    decreases |shards|
  {
    if shards != [] {
      forall r | r in shards[0] || r in Flatten(shards[1..]) ensures r in whole {
        assert r in Flatten(shards);
      }
      SelectPart(field, k, descending, shards[0], whole);
      SelectEachPossible(field, k, descending, shards[1..], whole);
    }
  }

  /**
   Sharding does not show: selecting from a concatenation is selecting from the concatenated
   selections of its shards, ties and type errors included; and when some shard cannot be ranked alone
   neither can the concatenation.
   */
  lemma SelectSharded(field: string, k: nat, descending: bool, shards: seq<seq<Record>>)
    requires k > 0
    ensures var each := SelectEach(field, k, descending, shards);
            var whole := Select(field, k, descending, Flatten(shards));
            if each.Ok? then whole == Select(field, k, descending, Flatten(each.value)) else whole.Err?
  {
    if Select(field, k, descending, Flatten(shards)).Ok? {
      SelectEachPossible(field, k, descending, shards, Flatten(shards));
    }
    if SelectEach(field, k, descending, shards).Ok? {
      ShardsRanked(field, k, descending, shards);
    }
  }

  lemma ShardsRanked(field: string, k: nat, descending: bool, shards: seq<seq<Record>>)
    requires k > 0 && SelectEach(field, k, descending, shards).Ok?
    ensures Select(field, k, descending, Flatten(shards)) ==
            Select(field, k, descending, Flatten(SelectEach(field, k, descending, shards).value))
  {
    RankingIsTotalPreorder(field, descending);
    SelectEachRepresents(field, k, descending, shards);
    TopKShards(Ranking(field, descending), k, shards);
    assert SelectEach(field, k, descending, shards).value ==
           Map((s: seq<Record>) => TopK(Ranking(field, descending), k, s), shards);
  }

  /** Selection needs the field in every record, and its values to be all numbers or all strings. */
  lemma SelectsIff(field: string, k: nat, descending: bool, records: seq<Record>)
    ensures Select(field, k, descending, records).Ok? <==>
      && (forall r :: r in records ==> field in r)
      && ((forall r :: r in records ==> FieldOf(r, field).Number?)
          || (forall r :: r in records ==> FieldOf(r, field).String?))
    ensures Select(field, k, descending, records).Err? ==>
      Select(field, k, descending, records).error ==
      if forall r :: r in records ==> field in r then MixedFieldTypes else MissingField
  {
  }

  /** Ascending or descending by value: numbers as numbers, strings by code point. */
  lemma SelectionDirection(field: string, k: nat, descending: bool, records: seq<Record>, s: Record, r: Record)
    requires Select(field, k, descending, records).Ok?
    requires s in Select(field, k, descending, records).value && r in PassedOver(field, k, descending, records)
    ensures var x, y := FieldOf(s, field), FieldOf(r, field);
            && (x.Number? && y.Number? ==> if descending then x.number >= y.number else x.number <= y.number)
            && (x.String? && y.String? ==> if descending then LexLeq(y.text, x.text) else LexLeq(x.text, y.text))
            && (x.Number? || x.String?) && x.Number? == y.Number? && x.String? == y.String?
  {
    SelectCharacterised(field, k, descending, records, FieldOf(s, field));
    SelectedAreMembers(field, k, descending, records);
    var top, rest := Select(field, k, descending, records).value, PassedOver(field, k, descending, records);
    assert r in multiset(top + rest);
    assert r in records;
  }
}
