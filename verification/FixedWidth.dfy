/** Converting fixed-width text to typed records without losing a character of data. */
module FixedWidth {
  import opened Basics
  import opened JsonValues
  import opened Sorting
  import opened Records

  /** The characters `str.strip` removes. */
  const IsSpace: char -> bool

  datatype ValueType = StringType | IntegerType | NumberType

  datatype Column = Column(name: string, start: nat, end: nat, valueType: ValueType, nullable: bool)

  datatype FixedWidthError =
    | TooFewLines
    | HeaderMismatch
    | UnmappedData
    | EmptyNumeric
    | InvalidNumber

  // ---------- Stripping ----------

  predicate IsVisible(c: char) {
    !IsSpace(c)
  }

  /** Where `str.splitlines` breaks lines. */
  predicate IsLineBreak(c: char) {
    c in "\n\r\U{000B}\U{000C}\U{001C}\U{001D}\U{001E}\U{0085}\U{2028}\U{2029}"
  }

  ghost predicate LineBreaksAreSpace() {
    forall c :: IsLineBreak(c) ==> IsSpace(c)
  }

  function LineEnd(text: string): (end: nat)
    ensures end <= |text| && (end < |text| ==> IsLineBreak(text[end]))
  {
    if text == "" || IsLineBreak(text[0]) then 0 else 1 + LineEnd(text[1..])
  }

  /** A carriage return and a line feed after it are one break. */
  function BreakLength(rest: string): (length: nat)
    ensures length <= |rest| && (rest != "" ==> length > 0)
  {
    if rest == "" then 0 else if "\r\n" <= rest then 2 else 1
  }

  /** What follows the first line and its break. */
  function AfterLine(text: string): (later: string)
    ensures text != "" ==> |later| < |text|
  {
    var rest := text[LineEnd(text)..];
    rest[BreakLength(rest)..]
  }

  /** `str.splitlines`: a break at the very end opens no further line. */
  function SplitLines(text: string): seq<string>
    decreases |text|
  {
    if text == "" then [] else [text[..LineEnd(text)]] + SplitLines(AfterLine(text))
  }

  /** The data of a text: everything but white space. */
  function Visible(text: string): string {
    Filter(IsVisible, text)
  }

  function TrimLeft(text: string): string {
    if text != "" && IsSpace(text[0]) then TrimLeft(text[1..]) else text
  }

  function TrimRight(text: string): string {
    if text != "" && IsSpace(text[|text| - 1]) then TrimRight(text[..|text| - 1]) else text
  }

  function Strip(text: string): string {
    TrimRight(TrimLeft(text))
  }

  lemma {:induction false} TrimLeftVisible(text: string)
    ensures Visible(TrimLeft(text)) == Visible(text)
    ensures TrimLeft(text) != "" ==> IsVisible(TrimLeft(text)[0])
  {
    if text != "" && IsSpace(text[0]) {
      TrimLeftVisible(text[1..]);
    }
  }

  lemma {:induction false} TrimRightVisible(text: string)
    ensures Visible(TrimRight(text)) == Visible(text)
    ensures TrimRight(text) <= text
    ensures text != "" && IsVisible(text[0]) ==> TrimRight(text) != ""
  {
    if text != "" && IsSpace(text[|text| - 1]) {
      var init := text[..|text| - 1];
      TrimRightVisible(init);
      assert text == init + [text[|text| - 1]];
      FilterSnoc(IsVisible, init, text[|text| - 1]);
    }
  }

  /** Stripping loses no data, and leaves nothing exactly when there is none. */
  lemma StripVisible(text: string)
    ensures Visible(Strip(text)) == Visible(text)
    ensures Strip(text) == "" <==> Visible(text) == ""
  {
    TrimLeftVisible(text);
    TrimRightVisible(TrimLeft(text));
    var left := TrimLeft(text);
    if left != "" {
      assert left == [left[0]] + left[1..];
    }
  }

  // ---------- Columns ----------

  function ByStart(): (Column, Column) -> bool {
    (a: Column, b: Column) => a.start <= b.start
  }

  function NameOf(column: Column): string {
    column.name
  }

  /** Adjacent pairs in start order do not overlap. */
  predicate AdjacentApart(ordered: seq<Column>) {
    forall i :: 0 <= i < |ordered| - 1 ==> ordered[i].end <= ordered[i + 1].start
  }

  predicate WellFormed(columns: seq<Column>) {
    NoDuplicates(Map(NameOf, columns)) && forall c :: c in columns ==> c.start < c.end
  }

  function InOrder(columns: seq<Column>): seq<Column> {
    Sort(ByStart(), columns)
  }

  /** The adapter's check of its column list. */
  predicate Accepted(columns: seq<Column>) {
    WellFormed(columns) && AdjacentApart(InOrder(columns))
  }

  predicate Apart(a: Column, b: Column) {
    a.end <= b.start || b.end <= a.start
  }

  ghost predicate PairwiseApart(columns: seq<Column>) {
    forall a, b :: a in columns && b in columns && a != b ==> Apart(a, b)
  }

  lemma ByStartIsTotalPreorder()
    ensures TotalPreorder(ByStart())
  {
  }

  lemma InOrderMembers(columns: seq<Column>)
    ensures forall c :: c in columns <==> c in InOrder(columns)
    ensures Sorted(ByStart(), InOrder(columns))
  {
    ByStartIsTotalPreorder();
    SortSorted(ByStart(), columns);
    forall c ensures c in columns <==> c in InOrder(columns) {
      assert c in multiset(columns) <==> c in multiset(InOrder(columns));
    }
  }

  lemma {:induction false} Chained(ordered: seq<Column>, i: nat, j: nat)
    requires AdjacentApart(ordered) && forall c :: c in ordered ==> c.start < c.end
    requires i < j < |ordered|
    ensures ordered[i].end <= ordered[j].start
    decreases j - i
  {
    if i + 1 < j {
      Chained(ordered, i + 1, j);
      assert ordered[i + 1] in ordered;
    }
  }

  lemma DistinctByName(columns: seq<Column>)
    requires NoDuplicates(Map(NameOf, columns))
    ensures NoDuplicates(columns)
  {
    var names := Map(NameOf, columns);
    forall i, j | 0 <= i < j < |columns| ensures columns[i] != columns[j] {
      assert names[i] != names[j];
    }
  }

  lemma NeighboursDiffer(columns: seq<Column>, i: nat)
    requires NoDuplicates(Map(NameOf, columns)) && i < |InOrder(columns)| - 1
    ensures InOrder(columns)[i] != InOrder(columns)[i + 1]
  {
    var ordered := InOrder(columns);
    DistinctByName(columns);
    CountNoDuplicates(columns, ordered[i]);
    assert ordered == ordered[..i] + [ordered[i], ordered[i + 1]] + ordered[i + 2..];
    assert multiset([ordered[i], ordered[i + 1]]) <= multiset(ordered);
    assert multiset([ordered[i], ordered[i + 1]])[ordered[i]] <= 1;
  }

  /** Checking neighbours in start order is checking every pair. */
  lemma AdjacentIffPairwise(columns: seq<Column>)
    requires WellFormed(columns)
    ensures AdjacentApart(InOrder(columns)) <==> PairwiseApart(columns)
  {
    var ordered := InOrder(columns);
    InOrderMembers(columns);
    if AdjacentApart(ordered) {
      forall a, b | a in columns && b in columns && a != b ensures Apart(a, b) {
        var i :| 0 <= i < |ordered| && ordered[i] == a;
        var j :| 0 <= j < |ordered| && ordered[j] == b;
        if i < j {
          Chained(ordered, i, j);
        } else {
          Chained(ordered, j, i);
        }
      }
    }
    if PairwiseApart(columns) {
      forall i: nat | i < |ordered| - 1 ensures ordered[i].end <= ordered[i + 1].start {
        NeighboursDiffer(columns, i);
        assert ordered[i] in columns && ordered[i + 1] in columns;
        assert ByStart()(ordered[i], ordered[i + 1]);
      }
    }
  }

  // ---------- Lines covered by columns ----------

  predicate Inside(column: Column, i: int) {
    column.start <= i < column.end
  }

  /** Every data character of the line belongs to some column. */
  ghost predicate Covered(columns: seq<Column>, line: string) {
    forall i :: 0 <= i < |line| ==> InSome(columns, line, i)
  }

  ghost predicate InSome(columns: seq<Column>, line: string, i: nat)
    requires i < |line|
  {
    IsVisible(line[i]) ==> InColumns(columns, i)
  }

  ghost predicate InColumns(columns: seq<Column>, i: int) {
    exists c :: c in columns && Inside(c, i)
  }

  function Clamp(i: nat, length: nat): nat {
    if i < length then i else length
  }

  /** `line[start:end]`, which Python cuts at the end of the line. */
  function Slice(line: string): Column -> string {
    (c: Column) => if c.start <= c.end then line[Clamp(c.start, |line|)..Clamp(c.end, |line|)] else ""
  }

  method MarkColumn(covered: array<bool>, column: Column)
    modifies covered
    ensures forall i :: 0 <= i < covered.Length ==> covered[i] == (old(covered[i]) || Inside(column, i))
  {
    var stop := Clamp(column.end, covered.Length);
    var index := column.start;
    while index < stop
      invariant column.start <= index
      invariant forall i :: 0 <= i < covered.Length ==>
        covered[i] == (old(covered[i]) || (column.start <= i < index && i < stop))
    {
      covered[index] := true;
      index := index + 1;
    }
  }

  method AssertColumnsCoverLine(line: string, columns: seq<Column>) returns (ok: bool)
    ensures ok <==> Covered(columns, line)
  {
    var covered := new bool[|line|](_ => false);
    for k := 0 to |columns|
      invariant forall i :: 0 <= i < |line| ==> covered[i] == InColumns(columns[..k], i)
    {
      ghost var before := covered[..];
      MarkColumn(covered, columns[k]);
      assert columns[..k + 1] == columns[..k] + [columns[k]];
      forall i | 0 <= i < |line| ensures covered[i] == InColumns(columns[..k + 1], i) {
        assert covered[i] == (before[i] || Inside(columns[k], i));
        CoveredSnoc(columns[..k], columns[k], i);
      }
    }
    assert columns[..|columns|] == columns;
    var remainder := "";
    for i := 0 to |line|
      invariant forall j :: 0 <= j < |line| ==> covered[j] == InColumns(columns, j)
      invariant Visible(remainder) == "" <==> forall j :: 0 <= j < i ==> InSome(columns, line, j)
    {
      assert InSome(columns, line, i) <==> covered[i] || IsSpace(line[i]);
      if !covered[i] {
        FilterSnoc(IsVisible, remainder, line[i]);
        remainder := remainder + [line[i]];
      }
    }
    StripVisible(remainder);
    ok := Strip(remainder) == "";
  }

  lemma CoveredSnoc(columns: seq<Column>, column: Column, i: int)
    ensures InColumns(columns + [column], i) <==> InColumns(columns, i) || Inside(column, i)
  {
    if InColumns(columns, i) {
      var c :| c in columns && Inside(c, i);
      assert c in columns + [column];
    }
    if Inside(column, i) {
      assert column in columns + [column];
    }
  }

  /** On an accepted line each data character belongs to exactly one column. */
  lemma OneColumnEach(columns: seq<Column>, line: string, i: nat)
    requires Accepted(columns) && Covered(columns, line) && i < |line| && IsVisible(line[i])
    ensures exists c ::
      c in columns && Inside(c, i) && forall other :: other in columns && Inside(other, i) ==> other == c
  {
    AdjacentIffPairwise(columns);
    assert InSome(columns, line, i);
    var c :| c in columns && Inside(c, i);
    forall other | other in columns && Inside(other, i) ensures other == c {
      assert other != c ==> Apart(other, c);
    }
  }

  // ---------- Nothing is lost ----------

  lemma {:induction false} NothingVisible(text: string)
    requires forall i :: 0 <= i < |text| ==> IsSpace(text[i])
    ensures Visible(text) == ""
  {
    if text != "" {
      NothingVisible(text[1..]);
    }
  }

  lemma GapIsBlank(line: string, ordered: seq<Column>, from: nat)
    requires ordered != [] && from <= ordered[0].start
    requires forall i :: 0 <= i < |ordered| ==> ordered[0].start <= ordered[i].start
    requires forall i :: from <= i < |line| && IsVisible(line[i]) ==> InColumns(ordered, i)
    ensures Visible(line[Clamp(from, |line|)..Clamp(ordered[0].start, |line|)]) == ""
  {
    var low, high := Clamp(from, |line|), Clamp(ordered[0].start, |line|);
    forall i | 0 <= i < high - low ensures IsSpace(line[low..high][i]) {
      assert line[low..high][i] == line[low + i];
    }
    NothingVisible(line[low..high]);
  }

  /** Cutting a line around a column. */
  lemma AroundColumn(line: string, first: Column, from: nat)
    requires from <= first.start < first.end
    ensures Visible(line[Clamp(from, |line|)..]) ==
            Visible(line[Clamp(from, |line|)..Clamp(first.start, |line|)])
            + (Visible(Slice(line)(first)) + Visible(line[Clamp(first.end, |line|)..]))
  {
    var a, b, c := Clamp(from, |line|), Clamp(first.start, |line|), Clamp(first.end, |line|);
    assert line[a..] == line[a..b] + (line[b..c] + line[c..]);
    FilterConcat(IsVisible, line[a..b], line[b..c] + line[c..]);
    FilterConcat(IsVisible, line[b..c], line[c..]);
  }

  lemma RestCovers(line: string, ordered: seq<Column>, from: nat)
    requires ordered != [] && AdjacentApart(ordered) && forall c :: c in ordered ==> c.start < c.end
    requires from <= ordered[0].start
    requires forall i :: from <= i < |line| && IsVisible(line[i]) ==> InColumns(ordered, i)
    ensures forall i :: 0 < i < |ordered| ==> ordered[0].end <= ordered[i].start
    ensures forall i :: ordered[0].end <= i < |line| && IsVisible(line[i]) ==> InColumns(ordered[1..], i)
  {
    assert ordered[0] in ordered;
    forall i | 0 < i < |ordered| ensures ordered[0].end <= ordered[i].start {
      Chained(ordered, 0, i);
    }
    forall i | ordered[0].end <= i < |line| && IsVisible(line[i]) ensures InColumns(ordered[1..], i) {
      var c :| c in ordered && Inside(c, i);
      assert c in ordered[1..];
    }
  }

  lemma TailApart(ordered: seq<Column>)
    requires ordered != [] && AdjacentApart(ordered)
    ensures AdjacentApart(ordered[1..])
  {
    forall i: nat | i < |ordered| - 2 ensures ordered[1..][i].end <= ordered[1..][i + 1].start {
      assert ordered[i + 1].end <= ordered[i + 2].start;
    }
  }

  lemma {:induction false} SlicesFrom(line: string, ordered: seq<Column>, from: nat)
    requires AdjacentApart(ordered) && forall c :: c in ordered ==> c.start < c.end
    requires ordered != [] ==> from <= ordered[0].start
    requires forall i :: from <= i < |line| && IsVisible(line[i]) ==> InColumns(ordered, i)
    ensures Visible(Flatten(Map(Slice(line), ordered))) == Visible(line[Clamp(from, |line|)..])
    decreases |ordered|
  {
    if ordered == [] {
      NothingVisible(line[Clamp(from, |line|)..]);
    } else {
      var first, rest := ordered[0], ordered[1..];
      assert first in ordered;
      RestCovers(line, ordered, from);
      TailApart(ordered);
      SlicesFrom(line, rest, first.end);
      GapIsBlank(line, ordered, from);
      AroundColumn(line, first, from);
      assert Map(Slice(line), ordered)[1..] == Map(Slice(line), rest);
      FilterConcat(IsVisible, Slice(line)(first), Flatten(Map(Slice(line), rest)));
    }
  }

  /** The column slices, left to right, carry exactly the data of an accepted line. */
  lemma SlicesHoldLine(columns: seq<Column>, line: string)
    requires Accepted(columns) && Covered(columns, line)
    ensures Visible(Flatten(Map(Slice(line), InOrder(columns)))) == Visible(line)
  {
    InOrderMembers(columns);
    var ordered := InOrder(columns);
    forall i | 0 <= i < |line| && IsVisible(line[i]) ensures InColumns(ordered, i) {
      assert InSome(columns, line, i);
      var c :| c in columns && Inside(c, i);
      assert c in ordered;
    }
    SlicesFrom(line, ordered, 0);
    assert line[0..] == line;
  }

  // ---------- Values and records ----------

  /** Integers by pattern, numbers by exact decimal conversion; nothing when either is refused. */
  const ParseNumber: (ValueType, string) -> Option<real>

  function ParseValue(column: Column, raw: string): Result<Json, FixedWidthError> {
    if column.valueType.StringType? then Ok(String(raw))
    else if raw == "" then if column.nullable then Ok(Null) else Err(EmptyNumeric)
    else match ParseNumber(column.valueType, raw)
      case Some(number) => Ok(Number(number))
      case None => Err(InvalidNumber)
  }

  function ParseColumns(columns: seq<Column>, line: string): Result<Record, FixedWidthError> {
    if columns == [] then Ok(map[])
    else
      var last := columns[|columns| - 1];
      var earlier :- ParseColumns(columns[..|columns| - 1], line);
      var value :- ParseValue(last, Strip(Slice(line)(last)));
      Ok(earlier[last.name := value])
  }

  ghost function ParseLine(columns: seq<Column>, line: string): Result<Record, FixedWidthError> {
    if !Covered(columns, line) then Err(UnmappedData) else ParseColumns(columns, line)
  }

  predicate HasData(line: string) {
    Strip(line) != ""
  }

  ghost function ParseLines(columns: seq<Column>, lines: seq<string>): Result<seq<Record>, FixedWidthError> {
    if lines == [] then Ok([])
    else if !HasData(lines[0]) then ParseLines(columns, lines[1..])
    else
      var first :- ParseLine(columns, lines[0]);
      var rest :- ParseLines(columns, lines[1..]);
      Ok([first] + rest)
  }

  ghost function CheckHeader(columns: seq<Column>, headerLines: nat, lines: seq<string>): Result<(), FixedWidthError> {
    if |lines| < headerLines then Err(TooFewLines)
    else if headerLines == 0 then Ok(())
    else if !Covered(columns, lines[headerLines - 1]) then Err(UnmappedData)
    else if exists c :: c in columns && Strip(Slice(lines[headerLines - 1])(c)) != c.name then Err(HeaderMismatch)
    else Ok(())
  }

  ghost function Conversion(
      columns: seq<Column>, headerLines: nat, lines: seq<string>): Result<seq<Record>, FixedWidthError> {
    var checked :- CheckHeader(columns, headerLines, lines);
    ParseLines(columns, lines[headerLines..])
  }

  method ReadHeader(columns: seq<Column>, headerLines: nat, lines: seq<string>) returns (r: Result<(), FixedWidthError>)
    ensures r == CheckHeader(columns, headerLines, lines)
  {
    if |lines| < headerLines {
      return Err(TooFewLines);
    }
    if headerLines == 0 {
      return Ok(());
    }
    var header := lines[headerLines - 1];
    var covered := AssertColumnsCoverLine(header, columns);
    if !covered {
      return Err(UnmappedData);
    }
    for k := 0 to |columns|
      invariant forall c :: c in columns[..k] ==> Strip(Slice(header)(c)) == c.name
    {
      if Strip(Slice(header)(columns[k])) != columns[k].name {
        assert columns[k] in columns;
        return Err(HeaderMismatch);
      }
      assert columns[..k + 1] == columns[..k] + [columns[k]];
    }
    assert columns[..|columns|] == columns;
    return Ok(());
  }

  ghost function Following(
      done: seq<Record>, rest: Result<seq<Record>, FixedWidthError>): Result<seq<Record>, FixedWidthError> {
    match rest
    case Ok(records) => Ok(done + records)
    case Err(error) => Err(error)
  }

  lemma ParseNext(columns: seq<Column>, lines: seq<string>, done: seq<Record>)
    requires lines != []
    ensures Following(done, ParseLines(columns, lines)) ==
            if !HasData(lines[0]) then Following(done, ParseLines(columns, lines[1..]))
            else match ParseLine(columns, lines[0])
              case Err(error) => Err(error)
              case Ok(record) => Following(done + [record], ParseLines(columns, lines[1..]))
  {
    if HasData(lines[0]) && ParseLine(columns, lines[0]).Ok? && ParseLines(columns, lines[1..]).Ok? {
      ConcatAssociates(done, [ParseLine(columns, lines[0]).value], ParseLines(columns, lines[1..]).value);
    }
  }

  method ConvertLines(columns: seq<Column>, headerLines: nat, lines: seq<string>)
    returns (r: Result<seq<Record>, FixedWidthError>)
    ensures r == Conversion(columns, headerLines, lines)
  {
    var header := ReadHeader(columns, headerLines, lines);
    if header.Err? {
      return Err(header.error);
    }
    var body := lines[headerLines..];
    var records: seq<Record> := [];
    assert body[0..] == body;
    assert Following([], ParseLines(columns, body)) == ParseLines(columns, body) by {
      if ParseLines(columns, body).Ok? {
        assert [] + ParseLines(columns, body).value == ParseLines(columns, body).value;
      }
    }
    for i := 0 to |body|
      invariant ParseLines(columns, body) == Following(records, ParseLines(columns, body[i..]))
    {
      assert body[i..][0] == body[i] && body[i..][1..] == body[i + 1..];
      ParseNext(columns, body[i..], records);
      if Strip(body[i]) == "" {
        continue;
      }
      var covered := AssertColumnsCoverLine(body[i], columns);
      if !covered {
        return Err(UnmappedData);
      }
      var record := ParseColumns(columns, body[i]);
      if record.Err? {
        return Err(record.error);
      }
      records := records + [record.value];
    }
    assert body[|body|..] == [] && records + [] == records;
    return Ok(records);
  }

  /** The records as compact JSON with sorted keys, in UTF-8. */
  const RecordsJson: seq<Record> -> Bytes

  /** The content of the artifact that a context becomes. */
  method Convert(columns: seq<Column>, headerLines: nat, context: string) returns (r: Result<Bytes, FixedWidthError>)
    ensures match Conversion(columns, headerLines, SplitLines(context))
            case Ok(records) => r == Ok(RecordsJson(records))
            case Err(error) => r == Err(error)
  {
    var records := ConvertLines(columns, headerLines, SplitLines(context));
    return if records.Ok? then Ok(RecordsJson(records.value)) else Err(records.error);
  }

  // ---------- What the records hold ----------

  function TextIn(record: Record): Column -> string {
    (c: Column) => match FieldOf(record, c.name) case String(text) => text case _ => ""
  }

  /** Each column's value is its stripped slice, parsed as the column says. */
  lemma {:induction false} ParsedColumn(columns: seq<Column>, line: string, c: Column)
    requires NoDuplicates(Map(NameOf, columns)) && ParseColumns(columns, line).Ok? && c in columns
    ensures var record := ParseColumns(columns, line).value;
            c.name in record && ParseValue(c, Strip(Slice(line)(c))) == Ok(record[c.name])
  {
    var init, last := columns[..|columns| - 1], columns[|columns| - 1];
    assert forall i :: 0 <= i < |init| ==> Map(NameOf, init)[i] == Map(NameOf, columns)[i];
    if c in init {
      ParsedColumn(init, line, c);
      var i :| 0 <= i < |init| && init[i] == c;
      assert Map(NameOf, columns)[i] == c.name && Map(NameOf, columns)[|init|] == last.name;
    } else {
      assert c == last;
    }
  }

  lemma {:induction false} TextsHoldSlices(line: string, text: Column -> string, columns: seq<Column>)
    requires forall c :: c in columns ==> text(c) == Strip(Slice(line)(c))
    ensures Visible(Flatten(Map(text, columns))) == Visible(Flatten(Map(Slice(line), columns)))
  {
    if columns != [] {
      var rest := columns[1..];
      TextsHoldSlices(line, text, rest);
      assert Map(text, columns)[1..] == Map(text, rest);
      assert Map(Slice(line), columns)[1..] == Map(Slice(line), rest);
      StripVisible(Slice(line)(columns[0]));
      FilterConcat(IsVisible, text(columns[0]), Flatten(Map(text, rest)));
      FilterConcat(IsVisible, Slice(line)(columns[0]), Flatten(Map(Slice(line), rest)));
    }
  }

  /** The texts of a record, column by column from the left. */
  function RecordText(columns: seq<Column>): Record -> string {
    record => Flatten(Map(TextIn(record), InOrder(columns)))
  }

  /** A record of text columns holds, column by column, all the data of its line. */
  lemma RecordHoldsLine(columns: seq<Column>, line: string)
    requires Accepted(columns) && ParseLine(columns, line).Ok?
    requires forall c :: c in columns ==> c.valueType.StringType?
    ensures Visible(RecordText(columns)(ParseLine(columns, line).value)) == Visible(line)
  {
    var record := ParseLine(columns, line).value;
    InOrderMembers(columns);
    forall c | c in InOrder(columns) ensures TextIn(record)(c) == Strip(Slice(line)(c)) {
      ParsedColumn(columns, line, c);
    }
    TextsHoldSlices(line, TextIn(record), InOrder(columns));
    SlicesHoldLine(columns, line);
  }

  /** One record per line that has data, in order; the lines left out had none. */
  lemma {:induction false} RecordsMatchLines(columns: seq<Column>, lines: seq<string>)
    requires ParseLines(columns, lines).Ok?
    ensures var records, kept := ParseLines(columns, lines).value, Filter(HasData, lines);
            && |records| == |kept|
            && forall i :: 0 <= i < |kept| ==> ParseLine(columns, kept[i]) == Ok(records[i])
    ensures forall line :: line in lines && !HasData(line) ==> Visible(line) == ""
  {
    forall line | line in lines && !HasData(line) ensures Visible(line) == "" {
      StripVisible(line);
    }
    if lines != [] {
      RecordsMatchLines(columns, lines[1..]);
    }
  }

  // ---------- What a whole context keeps ----------

  function AllText(columns: seq<Column>, records: seq<Record>): string {
    Flatten(Map(RecordText(columns), records))
  }

  lemma FlattenCons(first: string, rest: seq<string>)
    ensures Flatten([first] + rest) == first + Flatten(rest)
  {
    assert ([first] + rest)[1..] == rest;
  }

  lemma MapCons<T, U>(f: T -> U, first: T, rest: seq<T>)
    ensures Map(f, [first] + rest) == [f(first)] + Map(f, rest)
  {
  }

  lemma AllTextCons(columns: seq<Column>, first: Record, rest: seq<Record>)
    ensures Visible(AllText(columns, [first] + rest)) ==
            Visible(RecordText(columns)(first)) + Visible(AllText(columns, rest))
  {
    var text, texts := RecordText(columns)(first), Map(RecordText(columns), rest);
    MapCons(RecordText(columns), first, rest);
    FlattenCons(text, texts);
    FilterConcat(IsVisible, text, Flatten(texts));
  }

  lemma {:induction false} RecordsHoldLines(columns: seq<Column>, lines: seq<string>)
    requires Accepted(columns) && ParseLines(columns, lines).Ok?
    requires forall c :: c in columns ==> c.valueType.StringType?
    ensures Visible(AllText(columns, ParseLines(columns, lines).value)) == Visible(Flatten(lines))
  {
    if lines != [] {
      RecordsHoldLines(columns, lines[1..]);
      FilterConcat(IsVisible, lines[0], Flatten(lines[1..]));
      if HasData(lines[0]) {
        RecordHoldsLine(columns, lines[0]);
        AllTextCons(columns, ParseLine(columns, lines[0]).value, ParseLines(columns, lines[1..]).value);
      } else {
        StripVisible(lines[0]);
      }
    }
  }

  /** The header that was checked says no more than the column names. */
  lemma HeaderHoldsNames(columns: seq<Column>, headerLines: nat, lines: seq<string>)
    requires Accepted(columns) && headerLines > 0 && CheckHeader(columns, headerLines, lines).Ok?
    ensures Visible(Flatten(Map(NameOf, InOrder(columns)))) == Visible(lines[headerLines - 1])
  {
    var header := lines[headerLines - 1];
    InOrderMembers(columns);
    forall c | c in InOrder(columns) ensures NameOf(c) == Strip(Slice(header)(c)) {
      assert c in columns;
    }
    TextsHoldSlices(header, NameOf, InOrder(columns));
    SlicesHoldLine(columns, header);
  }

  lemma {:induction false} NoDataInSpace(text: string)
    requires forall c :: c in text ==> IsSpace(c)
    ensures Visible(text) == ""
  {
    if text != "" {
      assert text[0] in text;
      NoDataInSpace(text[1..]);
    }
  }

  lemma BreakHasNoData(rest: string)
    requires LineBreaksAreSpace() && (rest != "" ==> IsLineBreak(rest[0]))
    ensures Visible(rest) == Visible(rest[BreakLength(rest)..])
  {
    var ending := rest[..BreakLength(rest)];
    forall c | c in ending ensures IsSpace(c) {
      assert IsLineBreak(c);
    }
    NoDataInSpace(ending);
    assert rest == ending + rest[BreakLength(rest)..];
    FilterConcat(IsVisible, ending, rest[BreakLength(rest)..]);
  }

  lemma AfterLineHoldsRest(text: string)
    requires LineBreaksAreSpace()
    ensures Visible(text) == Visible(text[..LineEnd(text)]) + Visible(AfterLine(text))
  {
    var end := LineEnd(text);
    BreakHasNoData(text[end..]);
    HoldsBothParts(text, end);
  }

  lemma HoldsBothParts(text: string, end: nat)
    requires end <= |text|
    ensures Visible(text) == Visible(text[..end]) + Visible(text[end..])
  {
    assert text == text[..end] + text[end..];
    FilterConcat(IsVisible, text[..end], text[end..]);
  }

  /** Splitting into lines loses no data. */
  lemma {:induction false} LinesHoldText(text: string)
    requires LineBreaksAreSpace()
    ensures Visible(Flatten(SplitLines(text))) == Visible(text)
    decreases |text|
  {
    if text != "" {
      var line, later := text[..LineEnd(text)], AfterLine(text);
      LinesHoldText(later);
      AfterLineHoldsRest(text);
      FlattenCons(line, SplitLines(later));
      FilterConcat(IsVisible, line, Flatten(SplitLines(later)));
    }
  }

  /** What reaches the artifact: the column names, if there was a header to check them against, and the records. */
  function Kept(columns: seq<Column>, headerLines: nat, records: seq<Record>): string {
    (if headerLines == 0 then "" else Visible(Flatten(Map(NameOf, InOrder(columns)))))
    + Visible(AllText(columns, records))
  }

  /** The lines above the header that is checked. */
  function AboveHeader(headerLines: nat, lines: seq<string>): seq<string> {
    if headerLines == 0 || headerLines > |lines| then [] else lines[..headerLines - 1]
  }

  /**
   With text columns, names and records carry every non-blank character of the context in order, except
   for the header lines above the last one: the conversion preserves the data iff those are blank.
   */
  lemma DataPreservedIff(columns: seq<Column>, headerLines: nat, context: string)
    requires LineBreaksAreSpace() && Accepted(columns)
    requires forall c :: c in columns ==> c.valueType.StringType?
    requires Conversion(columns, headerLines, SplitLines(context)).Ok?
    ensures var lines := SplitLines(context);
            var kept := Kept(columns, headerLines, Conversion(columns, headerLines, lines).value);
            && Visible(context) == Visible(Flatten(AboveHeader(headerLines, lines))) + kept
            && (kept == Visible(context) <==> Visible(Flatten(AboveHeader(headerLines, lines))) == "")
  {
    LinesHoldText(context);
    LinesKept(columns, headerLines, SplitLines(context));
  }

  lemma LinesKept(columns: seq<Column>, headerLines: nat, lines: seq<string>)
    requires Accepted(columns) && Conversion(columns, headerLines, lines).Ok?
    requires forall c :: c in columns ==> c.valueType.StringType?
    ensures Visible(Flatten(lines)) ==
            Visible(Flatten(AboveHeader(headerLines, lines)))
            + Kept(columns, headerLines, Conversion(columns, headerLines, lines).value)
  {
    RecordsHoldLines(columns, lines[headerLines..]);
    if headerLines == 0 {
      assert lines[0..] == lines;
    } else {
      HeaderHoldsNames(columns, headerLines, lines);
      HeaderSplits(headerLines, lines);
    }
  }

  lemma HeaderSplits(headerLines: nat, lines: seq<string>)
    requires 0 < headerLines <= |lines|
    ensures Visible(Flatten(lines)) ==
            Visible(Flatten(lines[..headerLines - 1]))
            + (Visible(lines[headerLines - 1]) + Visible(Flatten(lines[headerLines..])))
  {
    var above, header, body := lines[..headerLines - 1], lines[headerLines - 1], lines[headerLines..];
    assert lines[headerLines - 1..] == [header] + body;
    assert lines == above + lines[headerLines - 1..];
    ThreeParts(above, header, body);
  }

  lemma ThreeParts(above: seq<string>, header: string, body: seq<string>)
    ensures Visible(Flatten(above + ([header] + body))) ==
            Visible(Flatten(above)) + (Visible(header) + Visible(Flatten(body)))
  {
    FlattenConcat(above, [header] + body);
    FlattenCons(header, body);
    FilterConcat(IsVisible, Flatten(above), header + Flatten(body));
    FilterConcat(IsVisible, header, Flatten(body));
  }

  lemma OneCharacterLine(c: char)
    requires !IsLineBreak(c)
    ensures SplitLines([c]) == [[c]]
  {
    assert [c][1..] == "" && [c][..1] == [c];
    assert LineEnd([c]) == 1 && AfterLine([c]) == "";
  }

  /** A line, a line feed and what follows. */
  lemma FirstCharacterLine(c: char, later: string)
    requires !IsLineBreak(c)
    ensures SplitLines([c, '\n'] + later) == [[c]] + SplitLines(later)
  {
    var text := [c, '\n'] + later;
    var rest := text[1..];
    assert rest == ['\n'] + later && rest[1..] == later && text[..1] == [c];
    assert LineEnd(rest) == 0 && LineEnd(text) == 1 && BreakLength(rest) == 1;
  }

  lemma OneColumnAccepted(column: Column, name: char)
    requires column == Column([name], 0, 1, StringType, false)
    ensures InOrder([column]) == [column] && Accepted([column])
    ensures Flatten(Map(NameOf, [column])) == [name]
  {
    assert [column][1..] == [];
    assert Map(NameOf, [column]) == [[name]] && [[name]][1..] == [];
  }

  lemma OneColumnHeader(column: Column, name: char)
    requires column == Column([name], 0, 1, StringType, false) && IsVisible(name)
    ensures Covered([column], [name]) && Strip(Slice([name])(column)) == column.name
  {
    assert Slice([name])(column) == [name] && column in [column];
    forall i | 0 <= i < |[name]| ensures InSome([column], [name], i) {
      assert Inside(column, i);
    }
  }

  /** Lines that end with an accepted header convert to no records. */
  lemma HeaderOnly(columns: seq<Column>, lines: seq<string>)
    requires lines != [] && Covered(columns, lines[|lines| - 1])
    requires forall c :: c in columns ==> Strip(Slice(lines[|lines| - 1])(c)) == c.name
    ensures Conversion(columns, |lines|, lines) == Ok([])
  {
    assert lines[|lines|..] == [];
  }

  lemma NameIsKept(title: char, name: char, column: Column)
    requires column == Column([name], 0, 1, StringType, false) && title != name
    ensures Kept([column], 2, []) == Visible([name]) && title !in Visible([name])
  {
    OneColumnAccepted(column, name);
    FilterMember(IsVisible, [name], title);
  }

  lemma TitledLines(title: char, name: char)
    requires !IsLineBreak(title) && !IsLineBreak(name)
    ensures SplitLines([title, '\n'] + [name]) == [[title], [name]]
  {
    FirstCharacterLine(title, [name]);
    OneCharacterLine(name);
  }

  lemma TitleConverts(title: char, name: char, column: Column)
    requires column == Column([name], 0, 1, StringType, false) && IsVisible(name)
    ensures Conversion([column], 2, [[title], [name]]) == Ok([])
  {
    OneColumnHeader(column, name);
    HeaderOnly([column], [[title], [name]]);
  }

  lemma FirstIsVisible(title: char, later: string)
    requires IsVisible(title)
    ensures title in Visible([title] + later)
  {
    assert ([title] + later)[0] == title;
    FilterMember(IsVisible, [title] + later, title);
  }

  /** A title above the header line never reaches the artifact, though the conversion succeeds. */
  lemma TitleIsLost(title: char, name: char, column: Column)
    requires IsVisible(title) && IsVisible(name) && title != name && !IsLineBreak(title) && !IsLineBreak(name)
    requires column == Column([name], 0, 1, StringType, false)
    ensures Accepted([column])
    ensures Conversion([column], 2, SplitLines([title, '\n'] + [name])) == Ok([])
    ensures title in Visible([title, '\n'] + [name]) && title !in Kept([column], 2, [])
  {
    TitledLines(title, name);
    OneColumnAccepted(column, name);
    TitleConverts(title, name, column);
    NameIsKept(title, name, column);
    FirstIsVisible(title, ['\n', name]);
    assert [title] + ['\n', name] == [title, '\n'] + [name];
  }

  // ---------- What one value is ----------

  /** Stripping cuts white space off both ends and nothing else. */
  lemma StripMeans(text: string) returns (i: nat, j: nat)
    ensures i <= j <= |text| && Strip(text) == text[i..j]
    ensures forall k :: 0 <= k < i || j <= k < |text| ==> IsSpace(text[k])
    ensures i < j ==> IsVisible(text[i]) && IsVisible(text[j - 1])
  {
    i := TrimLeftMeans(text);
    var left := TrimLeft(text);
    var n := TrimRightMeans(left);
    j := i + n;
    assert Strip(text) == left[..n] == text[i..j];
    forall k | 0 <= k < i || j <= k < |text| ensures IsSpace(text[k]) {
      if j <= k {
        assert left[k - i] == text[k];
      }
    }
    if i < j {
      assert left[0] == text[i] && left[n - 1] == text[j - 1];
    }
  }

  lemma {:induction false} TrimLeftMeans(text: string) returns (i: nat)
    ensures i <= |text| && TrimLeft(text) == text[i..]
    ensures forall k :: 0 <= k < i ==> IsSpace(text[k])
    ensures i < |text| ==> IsVisible(text[i])
  {
    i := 0;
    if text != "" && IsSpace(text[0]) {
      var rest := TrimLeftMeans(text[1..]);
      i := rest + 1;
      assert text[1..][rest..] == text[i..];
      assert forall k :: 0 < k < i ==> text[k] == text[1..][k - 1];
    } else {
      assert text[0..] == text;
    }
  }

  lemma {:induction false} TrimRightMeans(text: string) returns (n: nat)
    ensures n <= |text| && TrimRight(text) == text[..n]
    ensures forall k :: n <= k < |text| ==> IsSpace(text[k])
    ensures n > 0 ==> IsVisible(text[n - 1])
  {
    n := |text|;
    if text != "" && IsSpace(text[|text| - 1]) {
      var init := text[..|text| - 1];
      n := TrimRightMeans(init);
      assert init[..n] == text[..n];
      assert forall k :: n <= k < |init| ==> text[k] == init[k];
    } else {
      assert text[..|text|] == text;
    }
  }

  /**
   The value of a column on a line: its stripped text as it is; or, for a numeric column, null where there is
   none and that is allowed, and otherwise the number it spells.
   */
  lemma ValueMeans(columns: seq<Column>, line: string, c: Column)
    requires NoDuplicates(Map(NameOf, columns)) && ParseColumns(columns, line).Ok? && c in columns
    ensures var record, raw := ParseColumns(columns, line).value, Strip(Slice(line)(c));
            && c.name in record
            && match c.valueType
               case StringType => record[c.name] == String(raw)
               case _ =>
                 if raw == "" then c.nullable && record[c.name] == Null
                 else ParseNumber(c.valueType, raw).Some?
                      && record[c.name] == Number(ParseNumber(c.valueType, raw).value)
  {
    ParsedColumn(columns, line, c);
  }

  predicate Readable(c: Column, raw: string) {
    c.valueType.StringType? || (raw == "" && c.nullable) || (raw != "" && ParseNumber(c.valueType, raw).Some?)
  }

  predicate AllReadable(columns: seq<Column>, line: string) {
    forall c :: c in columns ==> Readable(c, Strip(Slice(line)(c)))
  }

  lemma ReadableLast(columns: seq<Column>, line: string)
    requires columns != []
    ensures var init, last := columns[..|columns| - 1], columns[|columns| - 1];
            && (ParseColumns(columns, line).Ok? <==>
                ParseColumns(init, line).Ok? && Readable(last, Strip(Slice(line)(last))))
            && (AllReadable(columns, line) <==>
                AllReadable(init, line) && Readable(last, Strip(Slice(line)(last))))
  {
    var init, last := columns[..|columns| - 1], columns[|columns| - 1];
    assert forall c :: c in columns <==> c in init || c == last;
  }

  /** A line is read iff every column can be. */
  lemma {:induction false} LineReadIff(columns: seq<Column>, line: string)
    ensures ParseColumns(columns, line).Ok? <==> AllReadable(columns, line)
  {
    if columns != [] {
      var init := columns[..|columns| - 1];
      LineReadIff(init, line);
      ReadableLast(columns, line);
    }
  }

  lemma NamesSnoc(columns: seq<Column>)
    requires columns != []
    ensures Map(NameOf, columns) == Map(NameOf, columns[..|columns| - 1]) + [columns[|columns| - 1].name]
  {
  }

  /** A record has a value for each column and no other. */
  lemma {:induction false} RecordNames(columns: seq<Column>, line: string, name: string)
    requires ParseColumns(columns, line).Ok?
    ensures name in ParseColumns(columns, line).value <==> name in Map(NameOf, columns)
  {
    if columns != [] {
      RecordNames(columns[..|columns| - 1], line, name);
      NamesSnoc(columns);
    }
  }

  lemma ParseColumnsFirst(columns: seq<Column>, line: string, i: nat)
    requires i <= |columns| && ParseColumns(columns[..i], line).Err?
    ensures ParseColumns(columns, line) == ParseColumns(columns[..i], line)
    decreases |columns|
  {
    if i == |columns| {
      assert columns[..i] == columns;
    } else {
      assert columns[..|columns| - 1][..i] == columns[..i];
      ParseColumnsFirst(columns[..|columns| - 1], line, i);
    }
  }

  lemma LastUnreadable(earlier: seq<Column>, last: Column, line: string)
    requires ParseColumns(earlier, line).Ok? && !Readable(last, Strip(Slice(line)(last)))
    ensures ParseColumns(earlier + [last], line) ==
            Err(if Strip(Slice(line)(last)) == "" then EmptyNumeric else InvalidNumber)
  {
    var columns := earlier + [last];
    assert columns[..|columns| - 1] == earlier && columns[|columns| - 1] == last;
  }

  /** The first column that cannot be read is the error: an empty number, or something that is no number. */
  lemma FirstUnreadable(columns: seq<Column>, line: string, i: nat)
    requires i < |columns| && AllReadable(columns[..i], line)
    requires !Readable(columns[i], Strip(Slice(line)(columns[i])))
    ensures ParseColumns(columns, line) ==
            Err(if Strip(Slice(line)(columns[i])) == "" then EmptyNumeric else InvalidNumber)
  {
    LineReadIff(columns[..i], line);
    LastUnreadable(columns[..i], columns[i], line);
    assert columns[..i + 1] == columns[..i] + [columns[i]];
    ParseColumnsFirst(columns, line, i + 1);
  }

  /** A line is skipped, or all its visible characters are in columns and every column can be read. */
  ghost predicate Fits(columns: seq<Column>, line: string) {
    Strip(line) == "" || (Covered(columns, line) && AllReadable(columns, line))
  }

  lemma {:induction false} LinesFit(columns: seq<Column>, lines: seq<string>)
    ensures ParseLines(columns, lines).Ok? <==> forall line :: line in lines ==> Fits(columns, line)
  {
    if lines != [] {
      var first, rest := lines[0], lines[1..];
      LineReadIff(columns, first);
      LinesFit(columns, rest);
      assert forall line :: line in lines <==> line == first || line in rest;
      assert Fits(columns, first) <==> !HasData(first) || ParseLine(columns, first).Ok?;
    }
  }

  ghost predicate HeaderFits(columns: seq<Column>, header: string) {
    Covered(columns, header) && forall c :: c in columns ==> Strip(Slice(header)(c)) == c.name
  }

  /**
   A context converts iff it has the header lines, the last of them names the columns, and every line below fits.
   Without enough lines, or with a header that does not fit, that is the error.
   */
  lemma ConvertsIff(columns: seq<Column>, headerLines: nat, lines: seq<string>)
    ensures Conversion(columns, headerLines, lines).Ok? <==>
      && headerLines <= |lines|
      && (headerLines > 0 ==> HeaderFits(columns, lines[headerLines - 1]))
      && (forall line :: line in lines[headerLines..] ==> Fits(columns, line))
    ensures |lines| < headerLines ==> Conversion(columns, headerLines, lines) == Err(TooFewLines)
    ensures 0 < headerLines <= |lines| && !HeaderFits(columns, lines[headerLines - 1]) ==>
      Conversion(columns, headerLines, lines) ==
      Err(if Covered(columns, lines[headerLines - 1]) then HeaderMismatch else UnmappedData)
  {
    if headerLines <= |lines| {
      LinesFit(columns, lines[headerLines..]);
    }
  }

  // ---------- What a line is ----------

  predicate NoBreak(line: string) {
    forall c :: c in line ==> !IsLineBreak(c)
  }

  lemma {:induction false} LineEndMeans(line: string, rest: string)
    requires NoBreak(line) && (rest != "" ==> IsLineBreak(rest[0]))
    ensures LineEnd(line + rest) == |line|
  {
    if line == "" {
      assert line + rest == rest;
    } else {
      assert line[0] in line && (line + rest)[0] == line[0];
      assert (line + rest)[1..] == line[1..] + rest;
      LineEndMeans(line[1..], rest);
    }
  }

  lemma BreakIsMark(mark: string, later: string)
    requires mark == "\r\n" || (|mark| == 1 && IsLineBreak(mark[0]) && !(mark == "\r" && "\n" <= later))
    ensures BreakLength(mark + later) == |mark|
  {
    var rest := mark + later;
    assert rest[0] == mark[0];
    if |mark| == 1 {
      assert mark == [mark[0]];
      assert rest[1..] == later;
      assert |rest| >= 2 ==> rest[1] == later[0];
    } else {
      assert rest[..2] == mark;
    }
  }

  /** A line goes up to its break; a carriage return takes the line feed after it along. */
  lemma LineThenBreak(line: string, mark: string, later: string)
    requires NoBreak(line)
    requires mark == "\r\n" || (|mark| == 1 && IsLineBreak(mark[0]) && !(mark == "\r" && "\n" <= later))
    ensures SplitLines(line + mark + later) == [line] + SplitLines(later)
  {
    var text, rest := line + mark + later, mark + later;
    assert text == line + rest && rest[0] == mark[0];
    LineEndMeans(line, rest);
    assert text[..|line|] == line && text[|line|..] == rest;
    BreakIsMark(mark, later);
    assert rest[|mark|..] == later;
  }

  /** What follows the last break is a line of its own only if there is something. */
  lemma LastLine(line: string)
    requires NoBreak(line)
    ensures SplitLines(line) == if line == "" then [] else [line]
  {
    LineEndMeans(line, "");
    assert line + "" == line && line[..|line|] == line;
  }
}
