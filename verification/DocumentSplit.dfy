/** Splitting a long context into documents at a literal delimiter. */
module DocumentSplit {
  import opened Basics
  import Utf8

  predicate OccursAt(delimiter: string, text: string, i: int) {
    0 <= i <= |text| - |delimiter| && text[i..i + |delimiter|] == delimiter
  }

  /** The leftmost occurrence at or after `from`. */
  function Find(delimiter: string, text: string, from: nat): (found: Option<nat>)
    ensures found.Some? ==> from <= found.value && found.value + |delimiter| <= |text|
    decreases |text| - from
  {
    if from + |delimiter| > |text| then None
    else if OccursAt(delimiter, text, from) then Some(from)
    else Find(delimiter, text, from + 1)
  }

  lemma {:induction false} FindLeftmost(delimiter: string, text: string, from: nat)
    ensures match Find(delimiter, text, from)
            case Some(i) => OccursAt(delimiter, text, i) && forall j :: from <= j < i ==> !OccursAt(delimiter, text, j)
            case None => forall j :: from <= j ==> !OccursAt(delimiter, text, j)
    decreases |text| - from
  {
    if from + |delimiter| <= |text| && !OccursAt(delimiter, text, from) {
      FindLeftmost(delimiter, text, from + 1);
    }
  }

  /** `re.finditer` over an escaped literal: leftmost occurrences that do not overlap. */
  function Occurrences(delimiter: string, text: string, from: nat): seq<int>
    requires delimiter != ""
    decreases |text| - from
  {
    match Find(delimiter, text, from)
    case None => []
    case Some(i) => [i] + Occurrences(delimiter, text, i + |delimiter|)
  }

  predicate Later(i: int) {
    i != 0
  }

  function Starts(delimiter: string, text: string): seq<int>
    requires delimiter != ""
  {
    [0] + Filter(Later, Occurrences(delimiter, text, 0))
  }

  function End(text: string, starts: seq<int>, k: int): int {
    if 0 <= k < |starts| - 1 then starts[k + 1] else |text|
  }

  /** From start `k` to the next start, or to the end of the text. */
  function Piece(text: string, starts: seq<int>, k: int): string {
    if 0 <= k < |starts| && 0 <= starts[k] <= End(text, starts, k) <= |text| then text[starts[k]..End(text, starts, k)]
    else ""
  }

  function Cut(text: string, starts: seq<int>): seq<string> {
    seq(|starts|, k => Piece(text, starts, k))
  }

  function Documents(delimiter: string, text: string): seq<string>
    requires delimiter != ""
  {
    Cut(text, Starts(delimiter, text))
  }

  // ---------- The splitting loops ----------

  lemma OccurrencesStep(delimiter: string, text: string, from: nat)
    requires delimiter != ""
    ensures match Find(delimiter, text, from)
            case None => Occurrences(delimiter, text, from) == []
            case Some(i) => Occurrences(delimiter, text, from) == [i] + Occurrences(delimiter, text, i + |delimiter|)
  {
  }

  function LaterFrom(delimiter: string, text: string, position: nat): seq<int>
    requires delimiter != ""
  {
    Filter(Later, Occurrences(delimiter, text, position))
  }

  lemma NextStart(delimiter: string, text: string, position: nat)
    requires delimiter != ""
    ensures match Find(delimiter, text, position)
            case None => LaterFrom(delimiter, text, position) == []
            case Some(i) =>
              LaterFrom(delimiter, text, position) ==
              (if i == 0 then [] else [i]) + LaterFrom(delimiter, text, i + |delimiter|)
  {
    OccurrencesStep(delimiter, text, position);
    var found := Find(delimiter, text, position);
    if found.Some? {
      FilterConcat(Later, [found.value], Occurrences(delimiter, text, found.value + |delimiter|));
    }
  }

  lemma ExtendStarts(delimiter: string, text: string, starts: seq<int>, position: nat)
    requires delimiter != "" && Starts(delimiter, text) == starts + LaterFrom(delimiter, text, position)
    ensures match Find(delimiter, text, position)
            case None => starts == Starts(delimiter, text)
            case Some(i) =>
              Starts(delimiter, text) ==
              (if i != 0 then starts + [i] else starts) + LaterFrom(delimiter, text, i + |delimiter|)
  {
    NextStart(delimiter, text, position);
    var found := Find(delimiter, text, position);
    if found.Some? {
      ConcatAssociates(
        starts, if found.value == 0 then [] else [found.value], LaterFrom(delimiter, text, found.value + |delimiter|));
      assert starts + [] == starts;
    }
  }

  method CollectStarts(delimiter: string, text: string) returns (starts: seq<int>)
    requires delimiter != ""
    ensures starts == Starts(delimiter, text)
  {
    starts := [0];
    var position: nat := 0;
    while true
      invariant position <= |text|
      invariant Starts(delimiter, text) == starts + LaterFrom(delimiter, text, position)
      decreases |text| - position
    {
      ExtendStarts(delimiter, text, starts, position);
      var next := Find(delimiter, text, position);
      if next.None? {
        return;
      }
      if next.value != 0 {
        starts := starts + [next.value];
      }
      position := next.value + |delimiter|;
    }
  }

  lemma PieceBetween(text: string, starts: seq<int>, i: nat)
    requires Ordered(text, starts) && i < |starts|
    ensures var boundaries := starts + [|text|];
            0 <= boundaries[i] <= boundaries[i + 1] <= |text|
            && text[boundaries[i]..boundaries[i + 1]] == Piece(text, starts, i)
  {
  }

  method Split(delimiter: string, text: string) returns (documents: seq<string>)
    requires delimiter != ""
    ensures documents == Documents(delimiter, text)
  {
    var starts := CollectStarts(delimiter, text);
    StartsShape(delimiter, text);
    documents := CutAt(text, starts);
  }

  method CutAt(text: string, starts: seq<int>) returns (documents: seq<string>)
    requires Ordered(text, starts)
    ensures documents == Cut(text, starts)
  {
    var boundaries := starts + [|text|];
    documents := [];
    for i := 0 to |starts|
      invariant |documents| == i && forall k :: 0 <= k < i ==> documents[k] == Piece(text, starts, k)
    {
      PieceBetween(text, starts, i);
      documents := documents + [text[boundaries[i]..boundaries[i + 1]]];
    }
  }

  // ---------- Where documents start ----------

  /** Occurrences from `from`, each past the end of the one before, and nothing occurring in between. */
  ghost predicate Spaced(delimiter: string, text: string, from: int, starts: seq<int>)
    decreases |starts|
  {
    if starts == [] then forall j :: from <= j ==> !OccursAt(delimiter, text, j)
    else
      && from <= starts[0] && OccursAt(delimiter, text, starts[0])
      && (forall j :: from <= j < starts[0] ==> !OccursAt(delimiter, text, j))
      && Spaced(delimiter, text, starts[0] + |delimiter|, starts[1..])
  }

  lemma {:induction false} OccurrencesSpaced(delimiter: string, text: string, from: nat)
    requires delimiter != ""
    ensures Spaced(delimiter, text, from, Occurrences(delimiter, text, from))
    decreases |text| - from
  {
    OccurrencesStep(delimiter, text, from);
    FindLeftmost(delimiter, text, from);
    var found := Find(delimiter, text, from);
    if found.Some? {
      OccurrencesSpaced(delimiter, text, found.value + |delimiter|);
    }
  }

  lemma {:induction false} SpacedIncreasing(delimiter: string, text: string, from: int, starts: seq<int>)
    requires delimiter != "" && Spaced(delimiter, text, from, starts)
    ensures forall i :: 0 <= i < |starts| ==> from <= starts[i] && OccursAt(delimiter, text, starts[i])
    ensures forall i, j :: 0 <= i < j < |starts| ==> starts[i] + |delimiter| <= starts[j]
    decreases |starts|
  {
    if starts != [] {
      SpacedIncreasing(delimiter, text, starts[0] + |delimiter|, starts[1..]);
    }
  }

  /** Where searching resumes after the first document has started. */
  function Resume(delimiter: string, text: string): nat {
    if OccursAt(delimiter, text, 0) then |delimiter| else 0
  }

  lemma {:induction false} KeepLater(xs: seq<int>)
    requires forall i :: 0 <= i < |xs| ==> xs[i] != 0
    ensures Filter(Later, xs) == xs
  {
    if xs != [] {
      KeepLater(xs[1..]);
    }
  }

  lemma LaterStarts(delimiter: string, text: string)
    requires delimiter != ""
    ensures Spaced(delimiter, text, Resume(delimiter, text), Filter(Later, Occurrences(delimiter, text, 0)))
  {
    var all := Occurrences(delimiter, text, 0);
    OccurrencesSpaced(delimiter, text, 0);
    SpacedIncreasing(delimiter, text, 0, all);
    if OccursAt(delimiter, text, 0) {
      assert all[0] == 0;
      KeepLater(all[1..]);
      assert Filter(Later, all) == all[1..];
    } else {
      KeepLater(all);
    }
  }

  ghost predicate Ordered(text: string, starts: seq<int>) {
    && starts != [] && (forall i :: 0 <= i < |starts| ==> 0 <= starts[i] <= |text|)
    && (forall i, j :: 0 <= i < j < |starts| ==> starts[i] < starts[j])
  }

  lemma StartsShape(delimiter: string, text: string)
    requires delimiter != ""
    ensures var starts := Starts(delimiter, text);
            && starts[0] == 0 && Ordered(text, starts)
            && Spaced(delimiter, text, Resume(delimiter, text), starts[1..])
            && (forall i :: 0 < i < |starts| ==> OccursAt(delimiter, text, starts[i]))
            && (forall i, j :: 0 < i < j < |starts| ==> starts[i] + |delimiter| <= starts[j])
  {
    var starts, later := Starts(delimiter, text), Filter(Later, Occurrences(delimiter, text, 0));
    assert starts[1..] == later;
    LaterStarts(delimiter, text);
    SpacedIncreasing(delimiter, text, Resume(delimiter, text), later);
    assert forall i :: 0 < i < |starts| ==> starts[i] == later[i - 1];
    assert forall i :: 0 <= i < |later| ==> Later(later[i]);
  }

  // ---------- What the documents are ----------

  lemma {:induction false} CutJoins(text: string, starts: seq<int>)
    requires Ordered(text, starts)
    ensures Flatten(Cut(text, starts)) == text[starts[0]..]
    decreases |starts|
  {
    var rest := Cut(text, starts)[1..];
    assert rest == Cut(text, starts[1..]);
    if |starts| > 1 {
      CutJoins(text, starts[1..]);
      assert text[starts[0]..starts[1]] + text[starts[1]..] == text[starts[0]..];
    } else {
      assert rest == [];
      assert text[starts[0]..|text|] + [] == text[starts[0]..];
    }
  }

  lemma EndOfDocument(delimiter: string, text: string, k: nat)
    requires delimiter != "" && text != "" && k < |Starts(delimiter, text)|
    ensures var starts := Starts(delimiter, text);
            && 0 <= starts[k] < End(text, starts, k) <= |text|
            && (k > 0 ==> OccursAt(delimiter, text, starts[k]) && starts[k] + |delimiter| <= End(text, starts, k))
  {
    StartsShape(delimiter, text);
  }

  /** Document k runs from its start for at least one delimiter, or one character if it is the first. */
  lemma DocumentAt(delimiter: string, text: string, k: nat)
    requires delimiter != "" && text != "" && k < |Starts(delimiter, text)|
    ensures var starts := Starts(delimiter, text);
            && 0 <= starts[k] <= End(text, starts, k) <= |text|
            && Documents(delimiter, text)[k] == text[starts[k]..End(text, starts, k)]
            && Documents(delimiter, text)[k] != "" && (k > 0 ==> delimiter <= Documents(delimiter, text)[k])
  {
    EndOfDocument(delimiter, text, k);
    var starts := Starts(delimiter, text);
    if k > 0 {
      SliceOfSlice(text, starts[k], End(text, starts, k), 0, |delimiter|);
    }
  }

  /** Documents are nonempty, rebuild the context, and all but the first start with the delimiter. */
  lemma SplitCharacterised(delimiter: string, text: string)
    requires delimiter != "" && text != ""
    ensures var documents := Documents(delimiter, text);
            && documents != [] && Flatten(documents) == text
            && (forall k :: 0 <= k < |documents| ==> documents[k] != "")
            && (forall k :: 0 < k < |documents| ==> delimiter <= documents[k])
  {
    StartsShape(delimiter, text);
    CutJoins(text, Starts(delimiter, text));
    forall k: nat | k < |Documents(delimiter, text)|
      ensures Documents(delimiter, text)[k] != "" && (k > 0 ==> delimiter <= Documents(delimiter, text)[k])
    {
      DocumentAt(delimiter, text, k);
    }
  }

  // ---------- Bytes and artifact IDs ----------

  function EncodeEach(documents: seq<string>): seq<Bytes> {
    Map(Utf8.Encode, documents)
  }

  lemma {:induction false} EncodeFlatten(documents: seq<string>)
    ensures Flatten(EncodeEach(documents)) == Utf8.Encode(Flatten(documents))
  {
    if documents != [] {
      EncodeFlatten(documents[1..]);
      assert EncodeEach(documents)[1..] == EncodeEach(documents[1..]);
      Utf8.EncodeConcat(documents[0], Flatten(documents[1..]));
    }
  }

  /** The audit's comparison of reconstructed with source bytes can only succeed. */
  lemma InformationAlwaysPreserved(delimiter: string, text: string)
    requires delimiter != "" && text != ""
    ensures Flatten(EncodeEach(Documents(delimiter, text))) == Utf8.Encode(text)
  {
    SplitCharacterised(delimiter, text);
    EncodeFlatten(Documents(delimiter, text));
  }

  function ArtifactId(prefix: string, index: nat): Id {
    prefix + "-" + Padded(index, 4)
  }

  /** However many documents there are, no two share an artifact ID. */
  lemma ArtifactIdsDistinct(prefix: string, i: nat, j: nat)
    requires i != j
    ensures ArtifactId(prefix, i) != ArtifactId(prefix, j)
  {
    if ArtifactId(prefix, i) == ArtifactId(prefix, j) {
      assert ArtifactId(prefix, i)[|prefix| + 1..] == Padded(i, 4);
      assert ArtifactId(prefix, j)[|prefix| + 1..] == Padded(j, 4);
      PaddedInjective(i, j, 4);
    }
  }

  // ---------- Splitting again ----------

  lemma SpacedEmpty(delimiter: string, text: string, from: int, starts: seq<int>)
    requires Spaced(delimiter, text, from, starts) && forall j :: from <= j ==> !OccursAt(delimiter, text, j)
    ensures starts == []
  {
  }

  lemma NothingToSplit(delimiter: string, text: string)
    requires delimiter != "" && text != ""
    requires forall j :: Resume(delimiter, text) <= j ==> !OccursAt(delimiter, text, j)
    ensures Documents(delimiter, text) == [text]
  {
    StartsShape(delimiter, text);
    var starts := Starts(delimiter, text);
    SpacedEmpty(delimiter, text, Resume(delimiter, text), starts[1..]);
    assert starts == [0];
    assert text[0..|text|] == text;
  }

  lemma {:induction false} NothingBetween(delimiter: string, text: string, from: int, starts: seq<int>, k: nat, j: int)
    requires delimiter != "" && Spaced(delimiter, text, from, starts) && k <= |starts|
    requires (if k == 0 then from else starts[k - 1] + |delimiter|) <= j
    requires k < |starts| ==> j < starts[k]
    ensures !OccursAt(delimiter, text, j)
    decreases k
  {
    if k > 0 {
      NothingBetween(delimiter, text, starts[0] + |delimiter|, starts[1..], k - 1, j);
    }
  }

  lemma OccursWithin(delimiter: string, text: string, start: int, end: int, j: int)
    requires 0 <= start <= end <= |text|
    ensures OccursAt(delimiter, text[start..end], j) <==>
      0 <= j && start + j + |delimiter| <= end && OccursAt(delimiter, text, start + j)
  {
    if 0 <= j && start + j + |delimiter| <= end {
      SliceOfSlice(text, start, end, j, j + |delimiter|);
    }
  }

  lemma QuietBetween(delimiter: string, text: string, k: nat, j: int)
    requires delimiter != "" && k < |Starts(delimiter, text)|
    requires (if k == 0 then Resume(delimiter, text) else Starts(delimiter, text)[k] + |delimiter|) <= j
    requires k + 1 < |Starts(delimiter, text)| ==> j < Starts(delimiter, text)[k + 1]
    ensures !OccursAt(delimiter, text, j)
  {
    StartsShape(delimiter, text);
    NothingBetween(delimiter, text, Resume(delimiter, text), Starts(delimiter, text)[1..], k, j);
  }

  /** Nothing in document k but its own beginning is an occurrence. */
  lemma QuietDocument(delimiter: string, text: string, k: nat, j: int)
    requires delimiter != "" && text != "" && k < |Starts(delimiter, text)|
    requires Resume(delimiter, Documents(delimiter, text)[k]) <= j
    ensures !OccursAt(delimiter, Documents(delimiter, text)[k], j)
  {
    var start, end := Starts(delimiter, text)[k], End(text, Starts(delimiter, text), k);
    EndOfDocument(delimiter, text, k);
    DocumentAt(delimiter, text, k);
    OccursWithin(delimiter, text, start, end, j);
    OccursWithin(delimiter, text, start, end, 0);
    if OccursAt(delimiter, text[start..end], j) {
      FirstStart(delimiter, text);
      QuietBetween(delimiter, text, k, start + j);
    }
  }

  lemma FirstStart(delimiter: string, text: string)
    requires delimiter != ""
    ensures Starts(delimiter, text)[0] == 0
  {
  }

  /** Splitting a document again leaves it whole, even when the delimiter overlaps itself. */
  lemma SplitAgain(delimiter: string, text: string, k: nat)
    requires delimiter != "" && text != "" && k < |Documents(delimiter, text)|
    ensures Documents(delimiter, Documents(delimiter, text)[k]) == [Documents(delimiter, text)[k]]
  {
    DocumentAt(delimiter, text, k);
    var document := Documents(delimiter, text)[k];
    forall j | Resume(delimiter, document) <= j ensures !OccursAt(delimiter, document, j) {
      QuietDocument(delimiter, text, k, j);
    }
    NothingToSplit(delimiter, document);
  }
}
