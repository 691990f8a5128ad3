/** BM25 retrieval over the reals; the logarithm and the tokenizer are uninterpreted. */
module Retrieval {
  import opened Basics
  import opened JsonValues
  import opened Sorting
  import opened Records
  import opened TopKRecords

  const Log: real -> real

  /** All that is assumed of the logarithm. */
  ghost predicate LogPositive() {
    forall x: real {:trigger Log(1.0 + x)} :: x > 0.0 ==> Log(1.0 + x) > 0.0
  }

  type Token = string
  type Document = seq<Token>

  const Tokenize: string -> Document

  datatype Parameters = Parameters(k1: real, b: real) {
    predicate Valid() {
      k1 > 0.0 && 0.0 <= b <= 1.0
    }
  }

  // ---------- Scores ----------

  function TermFrequency(document: Document, token: Token): nat {
    multiset(document)[token]
  }

  function Contains(token: Token): Document -> bool {
    document => token in document
  }

  function DocumentFrequency(documents: seq<Document>, token: Token): nat {
    |Filter(Contains(token), documents)|
  }

  function Length(document: Document): nat {
    |document|
  }

  function AverageLength(documents: seq<Document>): (average: real)
    ensures average > 0.0
  {
    var total := Total(Map(Length, documents));
    if total == 0 || documents == [] then 1.0
    else
      PositiveQuotient(total as real, |documents| as real);
      total as real / |documents| as real
  }

  lemma PositiveQuotient(x: real, y: real)
    requires x > 0.0 && y > 0.0
    ensures x / y > 0.0
  {
  }

  lemma QuotientNonNegative(x: real, y: real)
    requires x >= 0.0 && y > 0.0
    ensures x / y >= 0.0
  {
    if x > 0.0 {
      PositiveQuotient(x, y);
    }
  }

  /** No denominator is zero: it is at least the term frequency. */
  function Denominator(p: Parameters, frequency: nat, length: nat, average: real): (d: real)
    requires p.Valid() && average > 0.0
    ensures d >= frequency as real
  {
    QuotientNonNegative(p.b * length as real, average);
    var norm := 1.0 - p.b + p.b * length as real / average;
    assert p.k1 * norm >= 0.0;
    frequency as real + p.k1 * norm
  }

  /** What one occurring query token adds, from the counts the loops keep. */
  function Weight(p: Parameters, corpus: nat, containing: nat, frequency: nat, length: nat, average: real): real
    requires p.Valid() && average > 0.0 && frequency > 0
  {
    Idf(corpus, containing) * frequency as real * (p.k1 + 1.0) / Denominator(p, frequency, length, average)
  }

  function Idf(corpus: nat, containing: nat): real {
    Log(1.0 + (corpus as real - containing as real + 0.5) / (containing as real + 0.5))
  }

  function Contribution(p: Parameters, documents: seq<Document>, document: Document, token: Token): real
    requires p.Valid()
  {
    var frequency := TermFrequency(document, token);
    if frequency == 0 then 0.0
    else Weight(p, |documents|, DocumentFrequency(documents, token), frequency, |document|, AverageLength(documents))
  }

  function Score(p: Parameters, documents: seq<Document>, document: Document, query: seq<Token>): real
    requires p.Valid()
  {
    if query == [] then 0.0
    else
      Score(p, documents, document, query[..|query| - 1]) + Contribution(p, documents, document, query[|query| - 1])
  }

  // ---------- The scoring loops ----------

  method CountTokens(document: Document) returns (counts: map<Token, nat>)
    ensures forall t :: TermFrequency(document, t) == if t in counts then counts[t] else 0
  {
    counts := map[];
    for i := 0 to |document|
      invariant forall t :: TermFrequency(document[..i], t) == if t in counts then counts[t] else 0
    {
      assert document[..i + 1] == document[..i] + [document[i]];
      counts := counts[document[i] := (if document[i] in counts then counts[document[i]] else 0) + 1];
    }
    assert document[..|document|] == document;
  }

  lemma FrequencySnoc(documents: seq<Document>, document: Document, token: Token)
    ensures DocumentFrequency(documents + [document], token) ==
            DocumentFrequency(documents, token) + if token in document then 1 else 0
  {
    FilterSnoc(Contains(token), documents, document);
  }

  function Lookup(counts: map<Token, nat>, token: Token): nat {
    if token in counts then counts[token] else 0
  }

  method CountDocument(counts: map<Token, nat>, document: Document) returns (counts': map<Token, nat>)
    ensures forall t :: Lookup(counts', t) == Lookup(counts, t) + if t in document then 1 else 0
  {
    counts' := counts;
    var distinct := set t | t in document;
    var remaining := distinct;
    while remaining != {}
      invariant remaining <= distinct
      invariant forall t :: Lookup(counts', t) == Lookup(counts, t) + if t in distinct - remaining then 1 else 0
      decreases |remaining|
    {
      var token :| token in remaining;
      counts' := counts'[token := Lookup(counts', token) + 1];
      remaining := remaining - {token};
    }
  }

  method CountDocuments(documents: seq<Document>) returns (counts: map<Token, nat>)
    ensures forall t :: Lookup(counts, t) == DocumentFrequency(documents, t)
  {
    counts := map[];
    for i := 0 to |documents|
      invariant forall t :: Lookup(counts, t) == DocumentFrequency(documents[..i], t)
    {
      assert documents[..i + 1] == documents[..i] + [documents[i]];
      forall t ensures DocumentFrequency(documents[..i + 1], t) ==
        DocumentFrequency(documents[..i], t) + if t in documents[i] then 1 else 0
      {
        FrequencySnoc(documents[..i], documents[i], t);
      }
      counts := CountDocument(counts, documents[i]);
    }
    assert documents[..|documents|] == documents;
  }

  method ScoreDocument(
    p: Parameters, documents: seq<Document>, document: Document, query: seq<Token>,
    average: real, documentFrequency: map<Token, nat>)
    returns (score: real)
    requires p.Valid() && average == AverageLength(documents)
    requires forall t :: Lookup(documentFrequency, t) == DocumentFrequency(documents, t)
    ensures score == Score(p, documents, document, query)
  {
    var frequencies := CountTokens(document);
    score := 0.0;
    for i := 0 to |query|
      invariant score == Score(p, documents, document, query[..i])
    {
      assert query[..i + 1][..i] == query[..i];
      var token := query[i];
      var frequency := Lookup(frequencies, token);
      if frequency == 0 {
        continue;
      }
      var containing := Lookup(documentFrequency, token);
      score := score + Weight(p, |documents|, containing, frequency, |document|, average);
    }
    assert query[..|query|] == query;
  }

  function ScoreIn(p: Parameters, documents: seq<Document>, query: seq<Token>): Document -> real
    requires p.Valid()
  {
    document => Score(p, documents, document, query)
  }

  method Bm25Scores(p: Parameters, documents: seq<Document>, query: seq<Token>) returns (scores: seq<real>)
    requires p.Valid()
    ensures scores == Map(ScoreIn(p, documents, query), documents)
  {
    scores := [];
    if documents == [] {
      return;
    }
    var average := AverageLength(documents);
    var documentFrequency := CountDocuments(documents);
    for i := 0 to |documents|
      invariant scores == Map(ScoreIn(p, documents, query), documents[..i])
    {
      var score := ScoreDocument(p, documents, documents[i], query, average, documentFrequency);
      scores := scores + [score];
    }
    assert documents[..|documents|] == documents;
  }

  // ---------- What scores mean ----------

  lemma FrequencyBounded(documents: seq<Document>, token: Token)
    ensures DocumentFrequency(documents, token) <= |documents|
    ensures DocumentFrequency(documents, token) > 0 <==> exists d :: d in documents && token in d
  {
    var containing := Filter(Contains(token), documents);
    FilterMembers(Contains(token), documents);
    if containing != [] {
      assert containing[0] in documents && Contains(token)(containing[0]);
    }
    if exists d :: d in documents && token in d {
      var d :| d in documents && token in d;
      assert Contains(token)(d);
      assert d in containing;
    }
  }

  lemma IdfPositive(corpus: nat, containing: nat)
    requires LogPositive() && containing <= corpus
    ensures Idf(corpus, containing) > 0.0
  {
    PositiveQuotient(corpus as real - containing as real + 0.5, containing as real + 0.5);
  }

  lemma ScaledBelow(x: real, f: real, d: real)
    requires x > 0.0 && 0.0 < f <= d
    ensures 0.0 < x * f / d <= x
  {
    PositiveQuotient(x * f, d);
    QuotientNonNegative(x * (d - f), d);
    assert x * f / d == x - x * (d - f) / d;
  }

  /** The most a query token can add. */
  function Cap(p: Parameters, documents: seq<Document>, token: Token): real {
    Idf(|documents|, DocumentFrequency(documents, token)) * (p.k1 + 1.0)
  }

  lemma WeightBounds(p: Parameters, corpus: nat, containing: nat, frequency: nat, length: nat, average: real)
    requires LogPositive() && containing <= corpus
    requires p.Valid() && average > 0.0 && frequency > 0
    ensures 0.0 < Weight(p, corpus, containing, frequency, length, average) <= Idf(corpus, containing) * (p.k1 + 1.0)
  {
    IdfPositive(corpus, containing);
    var idf := Idf(corpus, containing);
    ScaledBelow(idf * (p.k1 + 1.0), frequency as real, Denominator(p, frequency, length, average));
    assert idf * frequency as real * (p.k1 + 1.0) == idf * (p.k1 + 1.0) * frequency as real;
  }

  /** A token adds something exactly when the document has it, and never more than idf * (k1 + 1). */
  lemma ContributionBounds(p: Parameters, documents: seq<Document>, document: Document, token: Token)
    requires p.Valid() && LogPositive()
    ensures Contribution(p, documents, document, token) > 0.0 <==> token in document
    ensures 0.0 <= Contribution(p, documents, document, token) <= Cap(p, documents, token)
  {
    FrequencyBounded(documents, token);
    var containing, frequency := DocumentFrequency(documents, token), TermFrequency(document, token);
    IdfPositive(|documents|, containing);
    if frequency > 0 {
      WeightBounds(p, |documents|, containing, frequency, |document|, AverageLength(documents));
    }
  }

  predicate Matches(document: Document, query: seq<Token>) {
    exists t :: t in query && t in document
  }

  lemma MatchesSnoc(document: Document, query: seq<Token>, last: Token)
    ensures Matches(document, query + [last]) <==> Matches(document, query) || last in document
  {
    if Matches(document, query) {
      var t :| t in query && t in document;
      assert t in query + [last];
    }
    if last in document {
      assert last in query + [last];
    }
  }

  function MostPossible(p: Parameters, documents: seq<Document>, query: seq<Token>): real {
    if query == [] then 0.0
    else MostPossible(p, documents, query[..|query| - 1]) + Cap(p, documents, query[|query| - 1])
  }

  /** A score is positive exactly when the document contains a query token, and zero otherwise. */
  lemma {:induction false} ScoreBounds(p: Parameters, documents: seq<Document>, document: Document, query: seq<Token>)
    requires p.Valid() && LogPositive()
    ensures Score(p, documents, document, query) > 0.0 <==> Matches(document, query)
    ensures 0.0 <= Score(p, documents, document, query) <= MostPossible(p, documents, query)
  {
    if query != [] {
      var init, last := query[..|query| - 1], query[|query| - 1];
      ScoreBounds(p, documents, document, init);
      ContributionBounds(p, documents, document, last);
      assert query == init + [last];
      MatchesSnoc(document, init, last);
    }
  }

  // ---------- Ranking ----------

  function Range(low: int, high: int): (indices: seq<int>)
    requires low <= high
    ensures |indices| == high - low && forall i :: 0 <= i < |indices| ==> indices[i] == low + i
  {
    seq(high - low, i requires 0 <= i < high - low => low + i)
  }

  function ScoreAt(scores: seq<real>, i: int): real {
    if 0 <= i < |scores| then scores[i] else 0.0
  }

  /** The order of the keys (-score, index). */
  function ByScoreThenIndex(scores: seq<real>): (int, int) -> bool {
    (i, j) => ScoreAt(scores, i) > ScoreAt(scores, j) || (ScoreAt(scores, i) == ScoreAt(scores, j) && i <= j)
  }

  function ByScore(scores: seq<real>): (int, int) -> bool {
    (i, j) => ScoreAt(scores, i) >= ScoreAt(scores, j)
  }

  function RankedIndices(scores: seq<real>, k: nat): (ranked: seq<int>)
    ensures forall i :: i in ranked ==> 0 <= i < |scores|
  {
    var sorted := Sort(ByScoreThenIndex(scores), Range(0, |scores|));
    assert forall i :: i in sorted ==> 0 <= i < |scores| by {
      forall i | i in sorted ensures 0 <= i < |scores| {
        assert i in multiset(Range(0, |scores|));
      }
    }
    assert forall i :: i in Take(k, sorted) ==> i in sorted;
    Take(k, sorted)
  }

  lemma ByScoreThenIndexIsTotalPreorder(scores: seq<real>)
    ensures TotalPreorder(ByScoreThenIndex(scores))
  {
  }

  lemma RankedPair(scores: seq<real>, k: nat, i: nat, j: nat)
    requires i < j < |RankedIndices(scores, k)|
    ensures var ranked := RankedIndices(scores, k);
            && ByScoreThenIndex(scores)(ranked[i], ranked[j]) && ranked[i] != ranked[j]
            && 0 <= ranked[i] < |scores| && 0 <= ranked[j] < |scores|
  {
    var sorted, range := Sort(ByScoreThenIndex(scores), Range(0, |scores|)), Range(0, |scores|);
    ByScoreThenIndexIsTotalPreorder(scores);
    SortSorted(ByScoreThenIndex(scores), range);
    assert sorted[i] in RankedIndices(scores, k) && sorted[j] in RankedIndices(scores, k);
    CountNoDuplicates(range, sorted[i]);
    TwiceInSequence(sorted, i, j);
  }

  lemma TwiceInSequence(s: seq<int>, i: nat, j: nat)
    requires i < j < |s|
    ensures s[i] == s[j] ==> multiset(s)[s[i]] >= 2
  {
    assert s == s[..j] + s[j..] && s[i] in s[..j] && s[j] in s[j..];
    assert multiset(s) == multiset(s[..j]) + multiset(s[j..]);
    assert s[i] in multiset(s[..j]) && s[j] in multiset(s[j..]);
  }

  /** Matching documents come first; those that match nothing keep their corpus order. */
  lemma RankingOrder(p: Parameters, documents: seq<Document>, query: seq<Token>, k: nat, i: nat, j: nat)
    requires p.Valid() && LogPositive()
    requires i < j < |RankedIndices(Map(ScoreIn(p, documents, query), documents), k)|
    ensures var ranked := RankedIndices(Map(ScoreIn(p, documents, query), documents), k);
            && 0 <= ranked[i] < |documents| && 0 <= ranked[j] < |documents| && ranked[i] != ranked[j]
            && (Matches(documents[ranked[j]], query) ==> Matches(documents[ranked[i]], query))
            && (!Matches(documents[ranked[i]], query) ==> ranked[i] < ranked[j])
  {
    var scores := Map(ScoreIn(p, documents, query), documents);
    var ranked := RankedIndices(scores, k);
    RankedPair(scores, k, i, j);
    ScoreOfRanked(p, documents, query, ranked[i]);
    ScoreOfRanked(p, documents, query, ranked[j]);
  }

  lemma ScoreOfRanked(p: Parameters, documents: seq<Document>, query: seq<Token>, i: int)
    requires p.Valid() && LogPositive() && 0 <= i < |documents|
    ensures var score := ScoreAt(Map(ScoreIn(p, documents, query), documents), i);
            score >= 0.0 && (score > 0.0 <==> Matches(documents[i], query))
  {
    ScoreBounds(p, documents, documents[i], query);
  }

  // ---------- The operator ----------

  const SCORE_FIELD := "_bm25_score"

  function Annotated(records: seq<Record>, scores: seq<real>): int -> Record {
    i => (if 0 <= i < |records| then records[i] else map[])[SCORE_FIELD := Number(ScoreAt(scores, i))]
  }

  predicate AllText(field: string, records: seq<Record>) {
    forall r :: r in records ==> FieldOf(r, field).String?
  }

  function DocumentOf(field: string): Record -> Document {
    r => if FieldOf(r, field).String? then Tokenize(FieldOf(r, field).text) else []
  }

  function ScoresOf(p: Parameters, query: string, field: string, records: seq<Record>): seq<real>
    requires p.Valid()
  {
    var documents := Map(DocumentOf(field), records);
    Map(ScoreIn(p, documents, Tokenize(query)), documents)
  }

  method Bm25Retrieve(p: Parameters, query: string, field: string, k: nat, records: seq<Record>)
    returns (r: Result<seq<Record>, RecordError>)
    requires p.Valid() && k > 0
    ensures r == if AllText(field, records)
      then Select(
        SCORE_FIELD, k, true, Map(Annotated(records, ScoresOf(p, query, field, records)), Range(0, |records|)))
      else Err(NotText)
  {
    var texts: seq<Document> := [];
    for i := 0 to |records|
      invariant texts == Map(DocumentOf(field), records[..i])
      invariant AllText(field, records[..i])
    {
      if !FieldOf(records[i], field).String? {
        return Err(NotText);
      }
      texts := texts + [Tokenize(FieldOf(records[i], field).text)];
    }
    assert records[..|records|] == records;
    var scores := Bm25Scores(p, texts, Tokenize(query));
    var ranked := RankedIndices(scores, k);
    RankingIsTopK(records, scores, k);
    return Ok(Map(Annotated(records, scores), ranked));
  }

  lemma MapCons<T, U>(f: T -> U, x: T, s: seq<T>)
    ensures Map(f, [x] + s) == [f(x)] + Map(f, s)
  {
  }

  lemma {:induction false} InsertMapped<T(!new), U(!new)>(
    leq: (T, T) -> bool, leq': (U, U) -> bool, f: T -> U, x: T, s: seq<T>)
    requires forall y :: leq(x, y) == leq'(f(x), f(y))
    ensures Insert(leq', f(x), Map(f, s)) == Map(f, Insert(leq, x, s))
  {
    if s == [] || leq(x, s[0]) {
      MapCons(f, x, s);
      assert [x] + s == if s == [] then [x] else [x] + s;
    } else {
      InsertMapped(leq, leq', f, x, s[1..]);
      assert Map(f, s)[1..] == Map(f, s[1..]);
      MapCons(f, s[0], Insert(leq, x, s[1..]));
    }
  }

  /** Sorting by an order that only looks through `f` commutes with `f`. */
  lemma {:induction false} SortMapped<T(!new), U(!new)>(leq: (T, T) -> bool, leq': (U, U) -> bool, f: T -> U, s: seq<T>)
    requires forall x, y :: leq(x, y) == leq'(f(x), f(y))
    ensures Sort(leq', Map(f, s)) == Map(f, Sort(leq, s))
  {
    if s != [] {
      SortMapped(leq, leq', f, s[1..]);
      assert Map(f, s)[1..] == Map(f, s[1..]);
      InsertMapped(leq, leq', f, s[0], Sort(leq, s[1..]));
    }
  }

  lemma {:induction false} InsertSame<T(!new)>(leq: (T, T) -> bool, leq': (T, T) -> bool, x: T, s: seq<T>)
    requires forall y :: y in s ==> leq(x, y) == leq'(x, y)
    ensures Insert(leq, x, s) == Insert(leq', x, s)
  {
    if s != [] && !leq(x, s[0]) {
      InsertSame(leq, leq', x, s[1..]);
    }
  }

  /** On ascending indices the index in the key only says what a stable sort does anyway. */
  lemma {:induction false} TieBreakIsStability(scores: seq<real>, low: int, high: int)
    requires low <= high
    ensures Sort(ByScoreThenIndex(scores), Range(low, high)) == Sort(ByScore(scores), Range(low, high))
    decreases high - low
  {
    if low < high {
      assert Range(low, high)[1..] == Range(low + 1, high);
      TieBreakIsStability(scores, low + 1, high);
      var rest := Sort(ByScore(scores), Range(low + 1, high));
      forall y | y in rest ensures ByScoreThenIndex(scores)(low, y) == ByScore(scores)(low, y) {
        assert y in multiset(Range(low + 1, high));
      }
      InsertSame(ByScoreThenIndex(scores), ByScore(scores), low, rest);
    }
  }

  /** The (-score, index) ranking is the descending stable selection on the score field. */
  lemma RankingIsTopK(records: seq<Record>, scores: seq<real>, k: nat)
    requires |scores| == |records|
    ensures Select(SCORE_FIELD, k, true, Map(Annotated(records, scores), Range(0, |records|))) ==
            Ok(Map(Annotated(records, scores), RankedIndices(scores, k)))
  {
    var annotate, range := Annotated(records, scores), Range(0, |records|);
    AnnotatedRankable(records, scores, range);
    TieBreakIsStability(scores, 0, |records|);
    LooksThrough(records, scores);
    SortMapped(ByScore(scores), Ranking(SCORE_FIELD, true), annotate, range);
    TakeMapped(annotate, k, Sort(ByScoreThenIndex(scores), range));
  }

  lemma AnnotatedRankable(records: seq<Record>, scores: seq<real>, indices: seq<int>)
    ensures AllHave(SCORE_FIELD, Map(Annotated(records, scores), indices))
    ensures AllNumbers(SCORE_FIELD, Map(Annotated(records, scores), indices))
  {
  }

  lemma LooksThrough(records: seq<Record>, scores: seq<real>)
    ensures forall i, j ::
      ByScore(scores)(i, j) == Ranking(SCORE_FIELD, true)(Annotated(records, scores)(i), Annotated(records, scores)(j))
  {
  }

  lemma TakeMapped<T, U>(f: T -> U, k: nat, s: seq<T>)
    ensures Map(f, Take(k, s)) == Take(k, Map(f, s))
  {
  }

  // ---------- What moves a score ----------

  ghost predicate LogMonotone() {
    forall x: real, y: real {:trigger Log(x), Log(y)} :: 0.0 < x < y ==> Log(x) < Log(y)
  }

  lemma ScaleLess(x: real, y: real, z: real)
    requires z > 0.0 && x * z < y * z
    ensures x < y
  {
  }

  lemma ProductBelow(a: real, b: real, c: real, d: real)
    requires 0.0 < a < c && 0.0 < b < d
    ensures 0.0 < a * b < c * d
  {
    assert a * b < c * b < c * d;
  }

  lemma CrossQuotient(a: real, b: real, c: real, d: real)
    requires b > 0.0 && d > 0.0 && a * d < c * b
    ensures a / b < c / d
  {
    var q, r := a / b, c / d;
    assert a == q * b && c == r * d;
    assert q * (b * d) == a * d && r * (b * d) == c * b;
    ScaleLess(q, r, b * d);
  }

  /** The rarer a token is in the corpus, the more it weighs. */
  lemma RarerWeighsMore(corpus: nat, rare: nat, common: nat)
    requires LogMonotone() && rare < common <= corpus
    ensures Idf(corpus, rare) > Idf(corpus, common)
  {
    var n, r, c := corpus as real, rare as real, common as real;
    ProductBelow(n - c + 0.5, r + 0.5, n - r + 0.5, c + 0.5);
    CrossQuotient(n - c + 0.5, c + 0.5, n - r + 0.5, r + 0.5);
    PositiveQuotient(n - c + 0.5, c + 0.5);
  }

  lemma DenominatorGrows(p: Parameters, frequency: nat, length: nat, longer: nat, average: real)
    requires p.Valid() && average > 0.0 && length < longer
    ensures Denominator(p, frequency, length, average) <= Denominator(p, frequency, longer, average)
    ensures p.b > 0.0 ==> Denominator(p, frequency, length, average) < Denominator(p, frequency, longer, average)
  {
    var gap := p.b * (longer - length) as real / average;
    QuotientNonNegative(p.b * (longer - length) as real, average);
    if p.b > 0.0 {
      PositiveQuotient(p.b * (longer - length) as real, average);
    }
    assert p.b * longer as real / average == p.b * length as real / average + gap;
    assert Denominator(p, frequency, longer, average) == Denominator(p, frequency, length, average) + p.k1 * gap;
  }

  /** Of two documents with a token equally often, the longer one scores less for it, unless lengths do not count. */
  lemma LongerScoresLess(
    p: Parameters, corpus: nat, containing: nat, frequency: nat, length: nat, longer: nat, average: real)
    requires LogPositive() && containing <= corpus && p.Valid() && average > 0.0 && frequency > 0 && length < longer
    ensures Weight(p, corpus, containing, frequency, longer, average)
            <= Weight(p, corpus, containing, frequency, length, average)
    ensures p.b > 0.0 ==>
      Weight(p, corpus, containing, frequency, longer, average)
      < Weight(p, corpus, containing, frequency, length, average)
  {
    IdfPositive(corpus, containing);
    DenominatorGrows(p, frequency, length, longer, average);
    var x := Idf(corpus, containing) * frequency as real * (p.k1 + 1.0);
    var d, d' := Denominator(p, frequency, length, average), Denominator(p, frequency, longer, average);
    assert x > 0.0;
    if p.b > 0.0 {
      CrossQuotient(x, d', x, d);
    } else {
      assert d == d';
    }
  }

  /** A token that occurs more often in a document of the same length scores at least as much there. */
  lemma OftenerScoresMore(
    p: Parameters, corpus: nat, containing: nat, frequency: nat, oftener: nat, length: nat, average: real)
    requires LogPositive() && containing <= corpus && p.Valid() && average > 0.0 && 0 < frequency < oftener
    requires p.b < 1.0 || length > 0
    ensures Weight(p, corpus, containing, frequency, length, average)
            < Weight(p, corpus, containing, oftener, length, average)
  {
    var k := Denominator(p, 0, length, average);
    NormPositive(p, length, average);
    WeightFactors(p, corpus, containing, frequency, length, average);
    WeightFactors(p, corpus, containing, oftener, length, average);
    SaturationGrows(frequency as real, oftener as real, k);
    IdfPositive(corpus, containing);
    ScaledLess(0.0, Idf(corpus, containing), p.k1 + 1.0);
    ScaledLess(
      frequency as real / (frequency as real + k), oftener as real / (oftener as real + k),
      (p.k1 + 1.0) * Idf(corpus, containing));
  }

  lemma WeightFactors(p: Parameters, corpus: nat, containing: nat, frequency: nat, length: nat, average: real)
    requires p.Valid() && average > 0.0 && frequency > 0 && (p.b < 1.0 || length > 0)
    ensures var k := Denominator(p, 0, length, average);
            && frequency as real + k > 0.0
            && Weight(p, corpus, containing, frequency, length, average) ==
               (p.k1 + 1.0) * Idf(corpus, containing) * (frequency as real / (frequency as real + k))
  {
    NormPositive(p, length, average);
    var idf, f := Idf(corpus, containing), frequency as real;
    FactorOut(idf, f, p.k1 + 1.0, Denominator(p, frequency, length, average));
    assert idf * (p.k1 + 1.0) == (p.k1 + 1.0) * idf;
  }

  lemma Remainder(f: real, k: real)
    requires f > 0.0 && k > 0.0
    ensures f / (f + k) == 1.0 - k / (f + k)
  {
    assert (f + k) / (f + k) == 1.0;
    assert (f + k) / (f + k) == f / (f + k) + k / (f + k);
  }

  lemma SaturationGrows(f: real, g: real, k: real)
    requires 0.0 < f < g && k > 0.0
    ensures 0.0 < f / (f + k) < g / (g + k)
  {
    Remainder(f, k);
    Remainder(g, k);
    ScaledLess(f + k, g + k, k);
    CrossQuotient(k, g + k, k, f + k);
    PositiveQuotient(f, f + k);
  }

  lemma FactorOut(x: real, f: real, y: real, d: real)
    requires d > 0.0
    ensures x * f * y / d == x * y * (f / d)
  {
    var q := f / d;
    assert f == q * d;
    assert x * f * y == x * y * q * d;
  }

  lemma ScaledLess(x: real, y: real, z: real)
    requires x < y && z > 0.0
    ensures z * x < z * y
  {
  }

  lemma NormPositive(p: Parameters, length: nat, average: real)
    requires p.Valid() && average > 0.0 && (p.b < 1.0 || length > 0)
    ensures Denominator(p, 0, length, average) > 0.0
    ensures forall f: nat :: Denominator(p, f, length, average) == f as real + Denominator(p, 0, length, average)
  {
    var share := p.b * length as real / average;
    QuotientNonNegative(p.b * length as real, average);
    if p.b == 1.0 {
      PositiveQuotient(p.b * length as real, average);
    }
    var norm := 1.0 - p.b + share;
    assert norm > 0.0;
    ScaledLess(0.0, norm, p.k1);
    assert p.k1 * 0.0 == 0.0;
    forall f: nat ensures Denominator(p, f, length, average) == f as real + p.k1 * norm {
    }
  }

  /** Lengths are compared with the mean: it times the number of documents is all the tokens there are. */
  lemma AverageMeans(documents: seq<Document>)
    ensures Total(Map(Length, documents)) > 0 ==>
      AverageLength(documents) * |documents| as real == Total(Map(Length, documents)) as real
    ensures Total(Map(Length, documents)) == 0 ==> AverageLength(documents) == 1.0
  {
    if documents != [] {
      var total := Total(Map(Length, documents)) as real;
      assert total / |documents| as real * |documents| as real == total;
    }
  }

  /** The formula, with its denominator on the other side. */
  lemma ContributionFormula(p: Parameters, documents: seq<Document>, document: Document, token: Token)
    requires p.Valid() && token in document
    ensures var (n, df, tf) := (|documents| as real, DocumentFrequency(documents, token) as real,
                                multiset(document)[token] as real);
            var length := |document| as real / AverageLength(documents);
            Contribution(p, documents, document, token) * (tf + p.k1 * (1.0 - p.b + p.b * length)) ==
            Log(1.0 + (n - df + 0.5) / (df + 0.5)) * tf * (p.k1 + 1.0)
  {
  }

  // ---------- What is retrieved ----------

  /** A record scores positively iff its text has a token of the query. */
  lemma RecordScores(p: Parameters, query: string, field: string, records: seq<Record>, i: nat)
    requires p.Valid() && LogPositive() && AllText(field, records) && i < |records|
    ensures |ScoresOf(p, query, field, records)| == |records|
    ensures ScoresOf(p, query, field, records)[i] > 0.0 <==>
            exists t :: t in Tokenize(query) && t in Tokenize(FieldOf(records[i], field).text)
  {
    var documents := Map(DocumentOf(field), records);
    assert records[i] in records;
    assert documents[i] == Tokenize(FieldOf(records[i], field).text);
    ScoreBounds(p, documents, documents[i], Tokenize(query));
  }

  /**
   What is retrieved are different records of the input, as many as asked for or all of them, each as it was
   but for its score; none of those passed over scores higher.
   */
  lemma RetrievedMeans(p: Parameters, query: string, field: string, k: nat, records: seq<Record>)
    requires p.Valid() && AllText(field, records)
    ensures var scores := ScoresOf(p, query, field, records);
            var ranked := RankedIndices(scores, k);
            && Select(SCORE_FIELD, k, true, Map(Annotated(records, scores), Range(0, |records|))) ==
               Ok(Map(Annotated(records, scores), ranked))
            && |ranked| == (if k < |records| then k else |records|) && NoDuplicates(ranked)
            && (forall j :: 0 <= j < |ranked| ==>
              && 0 <= ranked[j] < |records|
              && (var retrieved := Annotated(records, scores)(ranked[j]);
                  && retrieved.Keys == records[ranked[j]].Keys + {SCORE_FIELD}
                  && retrieved[SCORE_FIELD] == Number(scores[ranked[j]])
                  && forall f :: f in records[ranked[j]] && f != SCORE_FIELD ==> retrieved[f] == records[ranked[j]][f]))
  {
    var scores := ScoresOf(p, query, field, records);
    RankingIsTopK(records, scores, k);
    var ranked := RankedIndices(scores, k);
    forall i: nat, j: nat | i < j < |ranked| ensures ranked[i] != ranked[j] {
      RankedPair(scores, k, i, j);
    }
    forall j | 0 <= j < |ranked| ensures 0 <= ranked[j] < |records| {
      assert ranked[j] in ranked;
    }
  }
}
