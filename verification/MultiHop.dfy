/** When an adapted benchmark counts as the official one. */
module Validity {
  datatype SettingKind = OfficialEquivalent | Derived

  datatype TransformationRecord = TransformationRecord(informationPreserved: bool, goldIndependent: bool)

  datatype ValidityAssessment = ValidityAssessment(
    informationEquivalent: bool, queryEquivalent: bool, evaluatorEquivalent: bool, settingKind: SettingKind)

  function AssessValidity(
    transformations: seq<TransformationRecord>, queryEquivalent: bool, evaluatorEquivalent: bool): ValidityAssessment
  {
    var informationEquivalent := forall t :: t in transformations ==> t.informationPreserved && t.goldIndependent;
    ValidityAssessment(
      informationEquivalent, queryEquivalent, evaluatorEquivalent,
      if informationEquivalent && queryEquivalent && evaluatorEquivalent then OfficialEquivalent else Derived)
  }

  /** One lossy or gold-dependent transformation, another query or another evaluator makes a setting a derived one. */
  lemma OfficialIff(transformations: seq<TransformationRecord>, queryEquivalent: bool, evaluatorEquivalent: bool)
    ensures AssessValidity(transformations, queryEquivalent, evaluatorEquivalent).settingKind == Derived <==>
      || (exists t :: t in transformations && (!t.informationPreserved || !t.goldIndependent))
      || !queryEquivalent || !evaluatorEquivalent
  {
  }
}

/** Sharding a corpus by document content, and the audit that compares it with the source. */
module CorpusSharding {
  import opened Basics
  import opened Sorting
  import opened ArtifactStore
  import opened PlanningTypes
  import opened Validity
  import DocumentSplit

  datatype Document = Document(
    title: string, body: string, author: string, source: string, publishedAt: string, category: string, url: string)

  /** SHA-256 over the canonical JSON of one document, in hexadecimal. */
  const StableId: Document -> string

  const CanonicalJson: seq<Document> -> Bytes

  function HexDigit(c: char): nat {
    if '0' <= c <= '9' then c as int - '0' as int
    else if 'a' <= c <= 'f' then c as int - 'a' as int + 10
    else 0
  }

  /** `int(s, 16)` for a lower-case digest. */
  function HexValue(s: string): nat {
    if s == "" then 0 else 16 * HexValue(s[..|s| - 1]) + HexDigit(s[|s| - 1])
  }

  datatype Setting = Setting(corpus: seq<Document>, shardCount: nat, artifactPrefix: string) {
    /** The checks of the full-corpus setting. */
    predicate Valid() {
      corpus != [] && shardCount >= 1 && NoDuplicates(Map(StableId, corpus))
    }

    /** Never more shards than documents. */
    function Shards(): (count: nat)
      ensures count <= shardCount && count <= |corpus| && (count == shardCount || count == |corpus|)
      ensures Valid() ==> count >= 1
    {
      if shardCount < |corpus| then shardCount else |corpus|
    }
  }

  function ShardIndex(document: Document, count: nat): (index: nat)
    requires count > 0
    ensures index < count
  {
    HexValue(StableId(document)) % count
  }

  function InShard(count: nat, index: nat): Document -> bool {
    d => count > 0 && ShardIndex(d, count) == index
  }

  /** Shard `index`: its documents in corpus order. */
  function ShardOf(corpus: seq<Document>, count: nat, index: nat): seq<Document> {
    Filter(InShard(count, index), corpus)
  }

  function AllShards(corpus: seq<Document>, count: nat): seq<seq<Document>> {
    seq(count, i requires 0 <= i < count => ShardOf(corpus, count, i))
  }

  lemma AllShardsSnoc(corpus: seq<Document>, document: Document, count: nat)
    requires count > 0
    ensures var index, shards := ShardIndex(document, count), AllShards(corpus, count);
            AllShards(corpus + [document], count) == shards[index := shards[index] + [document]]
  {
    var index, shards := ShardIndex(document, count), AllShards(corpus, count);
    forall i: nat | i < count
      ensures ShardOf(corpus + [document], count, i) == shards[index := shards[index] + [document]][i]
    {
      FilterSnoc(InShard(count, i), corpus, document);
    }
  }

  method ShardCorpus(corpus: seq<Document>, count: nat) returns (shards: seq<seq<Document>>)
    requires count > 0
    ensures shards == AllShards(corpus, count)
  {
    shards := seq(count, _ => []);
    assert shards == AllShards([], count);
    assert corpus[..0] == [];
    for i := 0 to |corpus|
      invariant shards == AllShards(corpus[..i], count)
    {
      var index := HexValue(StableId(corpus[i])) % count;
      AllShardsSnoc(corpus[..i], corpus[i], count);
      assert corpus[..i + 1] == corpus[..i] + [corpus[i]];
      shards := shards[index := shards[index] + [corpus[i]]];
    }
    assert corpus[..|corpus|] == corpus;
  }

  // ---------- Lossless ----------

  lemma {:induction false} FlattenGrow(shards: seq<seq<Document>>, index: nat, document: Document)
    requires index < |shards|
    ensures multiset(Flatten(shards[index := shards[index] + [document]])) ==
            multiset(Flatten(shards)) + multiset{document}
  {
    var grown := shards[index := shards[index] + [document]];
    if index == 0 {
      assert grown[1..] == shards[1..];
    } else {
      FlattenGrow(shards[1..], index - 1, document);
      assert grown[1..] == shards[1..][index - 1 := shards[1..][index - 1] + [document]];
    }
  }

  lemma {:induction false} FlattenEmpty(shards: seq<seq<Document>>)
    requires forall i :: 0 <= i < |shards| ==> shards[i] == []
    ensures Flatten(shards) == []
  {
    if shards != [] {
      FlattenEmpty(shards[1..]);
    }
  }

  /** Every document is in the shard its content names and in no other; together they are the corpus. */
  lemma {:induction false} ShardsPermuteCorpus(corpus: seq<Document>, count: nat)
    requires count > 0
    ensures multiset(Flatten(AllShards(corpus, count))) == multiset(corpus)
    ensures forall d, i: nat :: i < count && d in corpus ==>
      (d in AllShards(corpus, count)[i] <==> i == ShardIndex(d, count))
  {
    if corpus == [] {
      FlattenEmpty(AllShards(corpus, count));
    } else {
      var init, last := corpus[..|corpus| - 1], corpus[|corpus| - 1];
      assert corpus == init + [last];
      ShardsPermuteCorpus(init, count);
      AllShardsSnoc(init, last, count);
      FlattenGrow(AllShards(init, count), ShardIndex(last, count), last);
    }
    ShardMembers(corpus, count);
  }

  /** Within a shard, documents stand in corpus order, each once, and none of the shard's own is missing. */
  lemma ShardKeepsOrder(corpus: seq<Document>, count: nat, index: nat) returns (at: seq<nat>)
    requires count > 0
    ensures PlacesOf(InShard(count, index), corpus, at) && |at| == |ShardOf(corpus, count, index)|
    ensures forall k :: 0 <= k < |at| ==> ShardOf(corpus, count, index)[k] == corpus[at[k]]
  {
    at := FilterPlaces(InShard(count, index), corpus);
  }

  lemma ShardMembers(corpus: seq<Document>, count: nat)
    requires count > 0
    ensures forall d, i: nat :: i < count && d in corpus ==>
      (d in AllShards(corpus, count)[i] <==> i == ShardIndex(d, count))
  {
    forall d, i: nat | i < count && d in corpus
      ensures d in AllShards(corpus, count)[i] <==> i == ShardIndex(d, count)
    {
      FilterMember(InShard(count, i), corpus, d);
    }
  }

  // ---------- Canonical ----------

  function ById(): (Document, Document) -> bool {
    (a: Document, b: Document) => LexLeq(StableId(a), StableId(b))
  }

  function CorpusDigest(corpus: seq<Document>): string {
    Sha256(CanonicalJson(Sort(ById(), corpus)))
  }

  lemma ByIdIsTotalPreorder()
    ensures TotalPreorder(ById())
  {
    LexIsTotalPreorder();
  }

  lemma DistinctKeys(corpus: seq<Document>, a: Document, b: Document)
    requires NoDuplicates(Map(StableId, corpus))
    requires a in corpus && b in corpus && ById()(a, b) && ById()(b, a)
    ensures a == b
  {
    LexAntisymmetric(StableId(a), StableId(b));
    var i :| 0 <= i < |corpus| && corpus[i] == a;
    var j :| 0 <= j < |corpus| && corpus[j] == b;
    assert Map(StableId, corpus)[i] == Map(StableId, corpus)[j];
  }

  /** Any rearrangement of a corpus without duplicates has the same sorted records, hence the same digest. */
  lemma DigestIsCanonical(corpus: seq<Document>, other: seq<Document>)
    requires NoDuplicates(Map(StableId, corpus)) && multiset(corpus) == multiset(other)
    ensures Sort(ById(), corpus) == Sort(ById(), other)
    ensures CorpusDigest(corpus) == CorpusDigest(other)
  {
    ByIdIsTotalPreorder();
    SortSorted(ById(), corpus);
    SortSorted(ById(), other);
    var sorted := Sort(ById(), corpus);
    forall x, y | x in sorted && y in sorted && ById()(x, y) && ById()(y, x) ensures x == y {
      assert x in multiset(sorted) && y in multiset(sorted);
      DistinctKeys(corpus, x, y);
    }
    SortedUnique(ById(), sorted, Sort(ById(), other));
  }

  // ---------- The artifacts ----------

  /** What the adapter hands to the experiment: a declaration, and the bytes to put. */
  datatype Prepared = Prepared(spec: ArtifactSpec, content: Bytes, sha256Hex: string)

  function JsonArtifact(taskId: string, artifactId: Id, logicalType: string, content: Bytes): Prepared {
    var source := "prepared://multihop-rag/" + taskId + "/" + artifactId;
    Prepared(
      ArtifactSpec(artifactId, logicalType, "application/json", |content|, Some(source)), content, Sha256(content))
  }

  function ShardArtifact(taskId: string, prefix: string, index: nat, shard: seq<Document>): Prepared {
    JsonArtifact(taskId, DocumentSplit.ArtifactId(prefix, index + 1), "corpus_shard", CanonicalJson(shard))
  }

  function ShardArtifacts(taskId: string, prefix: string, shards: seq<seq<Document>>): (artifacts: seq<Prepared>)
    ensures |artifacts| == |shards|
  {
    seq(|shards|, i requires 0 <= i < |shards| => ShardArtifact(taskId, prefix, i, shards[i]))
  }

  function PreparedKey(artifact: Prepared): Id {
    artifact.spec.artifactId
  }

  /** However many shards there are, no two get the same ID, and each is declared as the canonical JSON it holds. */
  lemma ShardArtifactsDistinct(taskId: string, prefix: string, shards: seq<seq<Document>>)
    ensures NoDuplicates(Map(PreparedKey, ShardArtifacts(taskId, prefix, shards)))
    ensures forall i :: 0 <= i < |shards| ==>
      var artifact := ShardArtifacts(taskId, prefix, shards)[i];
      && artifact.content == CanonicalJson(shards[i]) && artifact.sha256Hex == Sha256(artifact.content)
      && artifact.spec.artifactId == prefix + "-" + Padded(i + 1, 4)
      && artifact.spec.logicalType == "corpus_shard" && artifact.spec.mediaType == "application/json"
      && artifact.spec.sizeBytes == |artifact.content|
  {
    var ids := Map(PreparedKey, ShardArtifacts(taskId, prefix, shards));
    forall i, j | 0 <= i < j < |ids| ensures ids[i] != ids[j] {
      DocumentSplit.ArtifactIdsDistinct(prefix, i + 1, j + 1);
    }
  }

  method PrepareFullCorpus(taskId: string, setting: Setting)
    returns (artifacts: seq<Prepared>, record: TransformationRecord)
    requires setting.Valid()
    ensures artifacts ==
            ShardArtifacts(taskId, setting.artifactPrefix, AllShards(setting.corpus, setting.Shards()))
    ensures record == TransformationRecord(
      CorpusDigest(setting.corpus) == CorpusDigest(Flatten(AllShards(setting.corpus, setting.Shards()))), true)
  {
    var shards := ShardCorpus(setting.corpus, setting.Shards());
    artifacts := ShardArtifacts(taskId, setting.artifactPrefix, shards);
    var digest := CorpusDigest(setting.corpus);
    var adapted := CorpusDigest(Flatten(shards));
    record := TransformationRecord(digest == adapted, true);
  }

  /** The two digests always agree, so a full-corpus setting is official-equivalent however it is sharded. */
  lemma AlwaysOfficialEquivalent(setting: Setting)
    requires setting.Valid()
    ensures var adapted := Flatten(AllShards(setting.corpus, setting.Shards()));
            var record := TransformationRecord(CorpusDigest(setting.corpus) == CorpusDigest(adapted), true);
            && record.informationPreserved
            && AssessValidity([record], true, true).settingKind == OfficialEquivalent
  {
    ShardsPermuteCorpus(setting.corpus, setting.Shards());
    DigestIsCanonical(setting.corpus, Flatten(AllShards(setting.corpus, setting.Shards())));
  }

  // ---------- Numbers and digests ----------

  const HEX_DIGITS := "0123456789abcdef"

  /** A number written in lower-case hexadecimal. */
  function Hex(n: nat): string {
    if n < 16 then [HEX_DIGITS[n]] else Hex(n / 16) + [HEX_DIGITS[n % 16]]
  }

  lemma HexDigitRead(d: nat)
    requires d < 16
    ensures HexDigit(HEX_DIGITS[d]) == d
  {
  }

  lemma HexSnoc(s: string, d: nat)
    requires d < 16
    ensures HexValue(s + [HEX_DIGITS[d]]) == 16 * HexValue(s) + d
  {
    HexDigitRead(d);
    assert (s + [HEX_DIGITS[d]])[..|s|] == s;
  }

  /** Reading a hexadecimal number gives back the number that was written. */
  lemma {:induction false} HexValueOfHex(n: nat)
    ensures HexValue(Hex(n)) == n
  {
    if n >= 16 {
      HexValueOfHex(n / 16);
      HexSnoc(Hex(n / 16), n % 16);
    } else {
      HexSnoc("", n);
      assert "" + [HEX_DIGITS[n]] == Hex(n);
    }
  }

  /** A document goes to the shard its content names: its digest, read as a number, modulo the number of shards. */
  lemma ShardByContent(corpus: seq<Document>, count: nat, index: nat, document: Document, digest: nat)
    requires index < count && StableId(document) == Hex(digest)
    ensures document in AllShards(corpus, count)[index] <==> document in corpus && digest % count == index
  {
    HexValueOfHex(digest);
    FilterMember(InShard(count, index), corpus, document);
  }

  ghost predicate CanonicalInjective() {
    forall a, b :: CanonicalJson(a) == CanonicalJson(b) ==> a == b
  }

  /** Corpora with one digest hold the same documents: the audit cannot pass by accident. */
  lemma DigestTellsApart(corpus: seq<Document>, other: seq<Document>)
    requires Sha256Injective() && CanonicalInjective() && CorpusDigest(corpus) == CorpusDigest(other)
    ensures multiset(corpus) == multiset(other)
  {
    assert multiset(Sort(ById(), corpus)) == multiset(corpus);
    assert multiset(Sort(ById(), other)) == multiset(other);
  }
}
