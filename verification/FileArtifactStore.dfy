/**
 The persistent store: one blob file and one metadata file per artifact, each written to a
 temporary name and renamed. A put may be cut short by a crash between, or in the middle of,
 any of its four file operations; renames are atomic and take effect in program order.
 */
module FileStore {
  import opened Basics
  import opened Sorting
  import opened ArtifactStore
  import Utf8

  // ---------- Files ----------

  datatype Path = Blob(key: string) | Meta(key: string) | BlobTemp(key: string) | MetaTemp(key: string)

  type Files = map<Path, Bytes>

  datatype Metadata = Metadata(artifactId: Id, mediaType: string, sizeBytes: nat, sha256Hex: string)

  /** Pydantic's JSON text of a metadata record, and its validating parser. */
  const DumpMetadata: Metadata -> Bytes
  const ParseMetadata: Bytes -> Option<Metadata>

  function Key(id: Id): string {
    Sha256(Utf8.Encode(id))
  }

  function MetadataOf(artifact: StoredArtifact): Metadata {
    Metadata(artifact.artifactId, artifact.mediaType, |artifact.content|, artifact.sha256Hex)
  }

  /** The parser accepts, and gives back, what is dumped for an artifact that may be stored. */
  ghost predicate MetadataRoundTrips() {
    forall a: StoredArtifact :: a.Valid() ==> ParseMetadata(DumpMetadata(MetadataOf(a))) == Some(MetadataOf(a))
  }

  function Rename(files: Files, source: Path, target: Path): Files
    requires source in files
  {
    files[target := files[source]] - {source}
  }

  // ---------- Operations ----------

  function GetFile(files: Files, id: Id): Result<StoredArtifact, StoreError> {
    var key := Key(id);
    if id == "" then Err(EmptyId)
    else if Blob(key) !in files || Meta(key) !in files then Err(NotFound(id))
    else match ParseMetadata(files[Meta(key)])
      case None => Err(Corruption(id))
      case Some(metadata) =>
        var content := files[Blob(key)];
        if metadata.artifactId != id || |content| != metadata.sizeBytes || Sha256(content) != metadata.sha256Hex then
          Err(Corruption(id))
        else
          Ok(StoredArtifact(id, metadata.mediaType, content, metadata.sha256Hex))
  }

  function MetaKeys(files: Files): set<string> {
    set path | path in files.Keys && path.Meta? :: path.key
  }

  function ReadMetadata(files: Files, key: string): Option<Metadata> {
    if Meta(key) in files then ParseMetadata(files[Meta(key)]) else None
  }

  function AllMetadata(files: Files): (parsed: seq<Option<Metadata>>)
    ensures |parsed| == |MetaKeys(files)|
  {
    Map(key => ReadMetadata(files, key), Enumerate(MetaKeys(files)))
  }

  function ArtifactIds(parsed: seq<Option<Metadata>>): seq<Id> {
    Map((m: Option<Metadata>) => if m.Some? then m.value.artifactId else "", parsed)
  }

  function IdsOf(files: Files): Result<seq<Id>, StoreError> {
    if None in AllMetadata(files) then Err(InvalidMetadataFile)
    else Ok(SortIds(ArtifactIds(AllMetadata(files))))
  }

  /** Where a put stops. A torn write leaves arbitrary bytes under the temporary name. */
  datatype Crash =
    | BeforeWrites
    | TornBlobTemp(written: Bytes)
    | AfterBlobTemp
    | TornMetaTemp(written: Bytes)
    | AfterMetaTemp
    | AfterBlobRename
    | AfterMetaRename
    | NoCrash

  datatype PutOutcome = Returned(result: Result<(), StoreError>) | Crashed

  function WriteSteps(files: Files, artifact: StoredArtifact, crash: Crash): Files {
    var key := Key(artifact.artifactId);
    var first := files[BlobTemp(key) := artifact.content];
    var second := first[MetaTemp(key) := DumpMetadata(MetadataOf(artifact))];
    var third := Rename(second, BlobTemp(key), Blob(key));
    match crash
    case BeforeWrites => files
    case TornBlobTemp(written) => files[BlobTemp(key) := written]
    case AfterBlobTemp => first
    case TornMetaTemp(written) => first[MetaTemp(key) := written]
    case AfterMetaTemp => second
    case AfterBlobRename => third
    case AfterMetaRename => Rename(third, MetaTemp(key), Meta(key))
    case NoCrash => Rename(third, MetaTemp(key), Meta(key))
  }

  function PutFile(files: Files, artifact: StoredArtifact, crash: Crash): (Files, PutOutcome) {
    var id := artifact.artifactId;
    if Blob(Key(id)) in files || Meta(Key(id)) in files then
      match GetFile(files, id)
      case Ok(existing) => (files, Returned(if existing == artifact then Ok(()) else Err(Conflict(id))))
      case Err(error) => (files, Returned(Err(if error == NotFound(id) then Corruption(id) else error)))
    else
      (WriteSteps(files, artifact, crash), if crash == NoCrash then Returned(Ok(())) else Crashed)
  }

  class FileArtifactStore {
    var files: Files

    constructor ()
      ensures files == map[]
    {
      files := map[];
    }

    method PutArtifact(artifact: StoredArtifact, crash: Crash) returns (outcome: PutOutcome)
      modifies this
      ensures (files, outcome) == PutFile(old(files), artifact, crash)
    {
      var id := artifact.artifactId;
      var key := Key(id);
      if Blob(key) in files || Meta(key) in files {
        var existing := GetArtifact(id);
        if existing == Err(NotFound(id)) {
          return Returned(Err(Corruption(id)));
        }
        if existing.Err? {
          return Returned(Err(existing.error));
        }
        if existing.value == artifact {
          return Returned(Ok(()));
        }
        return Returned(Err(Conflict(id)));
      }
      if crash.BeforeWrites? { return Crashed; }
      if crash.TornBlobTemp? {
        files := files[BlobTemp(key) := crash.written];
        return Crashed;
      }
      files := files[BlobTemp(key) := artifact.content];
      if crash.AfterBlobTemp? { return Crashed; }
      if crash.TornMetaTemp? {
        files := files[MetaTemp(key) := crash.written];
        return Crashed;
      }
      files := files[MetaTemp(key) := DumpMetadata(MetadataOf(artifact))];
      if crash.AfterMetaTemp? { return Crashed; }
      files := Rename(files, BlobTemp(key), Blob(key));
      if crash.AfterBlobRename? { return Crashed; }
      files := Rename(files, MetaTemp(key), Meta(key));
      return if crash.AfterMetaRename? then Crashed else Returned(Ok(()));
    }

    /** Whatever the disk holds, what is returned has the requested ID and content matching its checksum. */
    method GetArtifact(id: Id) returns (r: Result<StoredArtifact, StoreError>)
      ensures r == GetFile(files, id)
      ensures r.Ok? ==>
        && r.value.artifactId == id && r.value.sha256Hex == Sha256(r.value.content)
        && Blob(Key(id)) in files && r.value.content == files[Blob(Key(id))]
    {
      if id == "" { return Err(EmptyId); }
      var key := Key(id);
      if Blob(key) !in files || Meta(key) !in files { return Err(NotFound(id)); }
      var parsed := ParseMetadata(files[Meta(key)]);
      if parsed.None? { return Err(Corruption(id)); }
      var metadata := parsed.value;
      if metadata.artifactId != id { return Err(Corruption(id)); }
      var content := files[Blob(key)];
      if |content| != metadata.sizeBytes || Sha256(content) != metadata.sha256Hex {
        return Err(Corruption(id));
      }
      return Ok(StoredArtifact(metadata.artifactId, metadata.mediaType, content, metadata.sha256Hex));
    }

    method Ids() returns (r: Result<seq<Id>, StoreError>)
      ensures r == IdsOf(files)
    {
      var keys := Enumerate(MetaKeys(files));
      ghost var parsed := AllMetadata(files);
      var ids: seq<Id> := [];
      for i := 0 to |keys|
        invariant |ids| == i
        invariant forall j :: 0 <= j < i ==> parsed[j].Some? && ids[j] == parsed[j].value.artifactId
      {
        assert keys[i] in keys && Meta(keys[i]) in files;
        var metadata := ParseMetadata(files[Meta(keys[i])]);
        assert metadata == parsed[i];
        if metadata.None? { return Err(InvalidMetadataFile); }
        ids := ids + [metadata.value.artifactId];
      }
      assert ids == ArtifactIds(parsed);
      return Ok(SortIds(ids));
    }
  }

  // ---------- What reading a file means ----------

  /**
   Whatever the disk holds, an artifact is read iff both its files are there and its metadata is readable, names
   the ID asked for, and has the size and checksum of the blob. Otherwise the error says which: no ID, a file
   missing, or files that do not belong together.
   */
  lemma GetFileMeans(files: Files, id: Id, artifact: StoredArtifact)
    ensures var meta, blob := Meta(Key(id)), Blob(Key(id));
            && (GetFile(files, id) == Ok(artifact) <==>
              && id != "" && meta in files && blob in files
              && ParseMetadata(files[meta]) ==
                 Some(Metadata(id, artifact.mediaType, |artifact.content|, artifact.sha256Hex))
              && artifact.artifactId == id && artifact.content == files[blob]
              && artifact.sha256Hex == Sha256(files[blob]))
            && (GetFile(files, id) == Err(EmptyId) <==> id == "")
            && (GetFile(files, id) == Err(NotFound(id)) <==> id != "" && (meta !in files || blob !in files))
            && (GetFile(files, id).Err? ==> GetFile(files, id).error in {EmptyId, NotFound(id), Corruption(id)})
  {
  }

  // ---------- What survives crashes ----------

  /** Committed artifacts, and IDs whose blob was renamed but whose metadata never was. */
  datatype Durable = Durable(committed: Contents, orphans: set<Id>)

  function AbstractPut(d: Durable, artifact: StoredArtifact, crash: Crash): (Durable, PutOutcome) {
    var id := artifact.artifactId;
    if id in d.committed then
      (d, Returned(if d.committed[id] == artifact then Ok(()) else Err(Conflict(id))))
    else if id in d.orphans then
      (d, Returned(Err(Corruption(id))))
    else match crash
      case NoCrash => (d.(committed := d.committed[id := artifact]), Returned(Ok(())))
      case AfterMetaRename => (d.(committed := d.committed[id := artifact]), Crashed)
      case AfterBlobRename => (d.(orphans := d.orphans + {id}), Crashed)
      case _ => (d, Crashed)
  }

  ghost predicate Owned(key: string, ids: set<Id>) {
    exists id :: id in ids && Key(id) == key
  }

  function FileAt(files: Files, path: Path): Option<Bytes> {
    if path in files then Some(files[path]) else None
  }

  ghost predicate Faithful(files: Files, committed: Contents) {
    forall id :: id in committed ==>
      && FileAt(files, Meta(Key(id))) == Some(DumpMetadata(MetadataOf(committed[id])))
      && FileAt(files, Blob(Key(id))) == Some(committed[id].content)
  }

  ghost predicate MetasOwned(files: Files, ids: set<Id>) {
    forall key :: FileAt(files, Meta(key)).Some? <==> Owned(key, ids)
  }

  ghost predicate BlobsOwned(files: Files, ids: set<Id>) {
    forall key :: FileAt(files, Blob(key)).Some? <==> Owned(key, ids)
  }

  ghost predicate Represents(files: Files, d: Durable) {
    && ValidContents(d.committed)
    && d.orphans !! d.committed.Keys
    && Faithful(files, d.committed)
    && MetasOwned(files, d.committed.Keys)
    && BlobsOwned(files, d.committed.Keys + d.orphans)
  }

  /** A reader sees the same blobs and metadata under every key but, perhaps, this one. */
  ghost predicate SameElsewhere(files: Files, files': Files, key: string) {
    forall k :: k != key ==>
      FileAt(files', Meta(k)) == FileAt(files, Meta(k)) && FileAt(files', Blob(k)) == FileAt(files, Blob(k))
  }

  lemma KeyInjective(a: Id, b: Id)
    requires Sha256Injective() && Key(a) == Key(b)
    ensures a == b
  {
    Utf8.EncodeInjective(a, b);
  }

  lemma OwnedKey(id: Id, ids: set<Id>)
    requires Sha256Injective()
    ensures Owned(Key(id), ids) <==> id in ids
  {
    if Owned(Key(id), ids) {
      var owner :| owner in ids && Key(owner) == Key(id);
      KeyInjective(owner, id);
    }
  }

  lemma OwnedAdd(key: string, ids: set<Id>, id: Id)
    ensures Owned(key, ids + {id}) <==> Owned(key, ids) || key == Key(id)
  {
    if Owned(key, ids) {
      var owner :| owner in ids && Key(owner) == key;
      assert owner in ids + {id};
    }
    assert id in ids + {id};
  }

  lemma GetRepresented(files: Files, d: Durable, id: Id)
    requires Sha256Injective() && MetadataRoundTrips() && Represents(files, d)
    requires id != ""
    ensures GetFile(files, id) == Get(d.committed, id)
  {
    OwnedKey(id, d.committed.Keys);
    assert FileAt(files, Meta(Key(id))).Some? <==> id in d.committed;
    if id in d.committed {
      assert FileAt(files, Blob(Key(id))) == Some(d.committed[id].content);
    }
  }

  lemma MetadataRepresented(files: Files, d: Durable, key: string)
    requires MetadataRoundTrips() && Represents(files, d)
    requires Meta(key) in files
    ensures ReadMetadata(files, key).Some?
    ensures var id := ReadMetadata(files, key).value.artifactId; id in d.committed && Key(id) == key
  {
    assert FileAt(files, Meta(key)).Some?;
    var id :| id in d.committed.Keys && Key(id) == key;
    assert FileAt(files, Meta(key)) == Some(DumpMetadata(MetadataOf(d.committed[id])));
  }

  lemma ListedIds(keys: seq<string>, ids: seq<Id>, committed: set<Id>)
    requires Sha256Injective()
    requires NoDuplicates(keys) && |ids| == |keys|
    requires forall i :: 0 <= i < |keys| ==> ids[i] in committed && Key(ids[i]) == keys[i]
    requires forall id :: id in committed ==> Key(id) in keys
    ensures SortIds(ids) == Enumerate(committed)
  {
    forall id | id in committed ensures id in ids {
      var i :| 0 <= i < |keys| && keys[i] == Key(id);
      KeyInjective(ids[i], id);
    }
    SortOfDistinctIds(ids);
    assert (set id | id in ids) == committed;
  }

  lemma CommittedKeyListed(files: Files, d: Durable, id: Id)
    requires Represents(files, d) && id in d.committed
    ensures Key(id) in MetaKeys(files)
  {
    assert FileAt(files, Meta(Key(id))).Some?;
    assert Meta(Key(id)) in files.Keys && Meta(Key(id)).key == Key(id);
  }

  lemma ListedMetadata(files: Files, d: Durable, i: nat)
    requires MetadataRoundTrips() && Represents(files, d)
    requires i < |AllMetadata(files)|
    ensures AllMetadata(files)[i].Some?
    ensures var id := ArtifactIds(AllMetadata(files))[i];
            id in d.committed && Key(id) == Enumerate(MetaKeys(files))[i]
  {
    var key := Enumerate(MetaKeys(files))[i];
    assert key in Enumerate(MetaKeys(files));
    MetadataRepresented(files, d, key);
  }

  lemma IdsRepresented(files: Files, d: Durable)
    requires Sha256Injective() && MetadataRoundTrips() && Represents(files, d)
    ensures IdsOf(files) == Ok(Enumerate(d.committed.Keys))
  {
    var keys, parsed := Enumerate(MetaKeys(files)), AllMetadata(files);
    var ids := ArtifactIds(parsed);
    forall i | 0 <= i < |keys| ensures parsed[i].Some? && ids[i] in d.committed && Key(ids[i]) == keys[i] {
      ListedMetadata(files, d, i);
    }
    assert None !in parsed;
    forall id | id in d.committed.Keys ensures Key(id) in keys {
      CommittedKeyListed(files, d, id);
    }
    ListedIds(keys, ids, d.committed.Keys);
  }

  /** A crash before the first rename changes nothing a reader can see. */
  lemma StillRepresents(files: Files, files': Files, d: Durable, key: string)
    requires Represents(files, d) && SameElsewhere(files, files', key)
    requires FileAt(files', Meta(key)) == FileAt(files, Meta(key))
    requires FileAt(files', Blob(key)) == FileAt(files, Blob(key))
    ensures Represents(files', d)
  {
    forall k
      ensures FileAt(files', Meta(k)) == FileAt(files, Meta(k)) && FileAt(files', Blob(k)) == FileAt(files, Blob(k))
    {
    }
  }

  lemma BlobsOwnedAdd(files: Files, files': Files, ids: set<Id>, id: Id)
    requires BlobsOwned(files, ids) && SameElsewhere(files, files', Key(id))
    requires FileAt(files', Blob(Key(id))).Some?
    ensures BlobsOwned(files', ids + {id})
  {
    forall k ensures FileAt(files', Blob(k)).Some? <==> Owned(k, ids + {id}) {
      OwnedAdd(k, ids, id);
    }
  }

  lemma MetasOwnedAdd(files: Files, files': Files, ids: set<Id>, id: Id)
    requires MetasOwned(files, ids) && SameElsewhere(files, files', Key(id))
    requires FileAt(files', Meta(Key(id))).Some?
    ensures MetasOwned(files', ids + {id})
  {
    forall k ensures FileAt(files', Meta(k)).Some? <==> Owned(k, ids + {id}) {
      OwnedAdd(k, ids, id);
    }
  }

  lemma FaithfulFrame(files: Files, files': Files, committed: Contents, id: Id)
    requires Sha256Injective() && Faithful(files, committed) && id !in committed
    requires SameElsewhere(files, files', Key(id))
    ensures Faithful(files', committed)
  {
    forall owner | owner in committed ensures Key(owner) != Key(id) {
      if Key(owner) == Key(id) {
        KeyInjective(owner, id);
      }
    }
  }

  lemma OrphanRepresents(files: Files, files': Files, d: Durable, id: Id)
    requires Sha256Injective() && Represents(files, d)
    requires id !in d.committed && SameElsewhere(files, files', Key(id))
    requires FileAt(files', Blob(Key(id))).Some? && FileAt(files', Meta(Key(id))).None?
    requires FileAt(files, Meta(Key(id))).None?
    ensures Represents(files', d.(orphans := d.orphans + {id}))
  {
    BlobsOwnedAdd(files, files', d.committed.Keys + d.orphans, id);
    assert d.committed.Keys + d.orphans + {id} == d.committed.Keys + (d.orphans + {id});
    FaithfulFrame(files, files', d.committed, id);
    forall k ensures FileAt(files', Meta(k)).Some? <==> Owned(k, d.committed.Keys) {
      assert FileAt(files, Meta(k)).Some? <==> Owned(k, d.committed.Keys);
    }
  }

  lemma CommitRepresents(files: Files, files': Files, d: Durable, artifact: StoredArtifact)
    requires Sha256Injective() && Represents(files, d) && artifact.Valid()
    requires artifact.artifactId !in d.committed.Keys + d.orphans
    requires SameElsewhere(files, files', Key(artifact.artifactId))
    requires FileAt(files', Blob(Key(artifact.artifactId))) == Some(artifact.content)
    requires FileAt(files', Meta(Key(artifact.artifactId))) == Some(DumpMetadata(MetadataOf(artifact)))
    ensures Represents(files', d.(committed := d.committed[artifact.artifactId := artifact]))
  {
    CommitOwned(files, files', d.committed.Keys, d.orphans, artifact.artifactId);
    CommitFaithful(files, files', d.committed, artifact);
    CommitValid(d, artifact);
  }

  lemma CommitValid(d: Durable, artifact: StoredArtifact)
    requires ValidContents(d.committed) && d.orphans !! d.committed.Keys && artifact.Valid()
    requires artifact.artifactId !in d.committed.Keys + d.orphans
    ensures var committed := d.committed[artifact.artifactId := artifact];
            && ValidContents(committed) && committed.Keys == d.committed.Keys + {artifact.artifactId}
            && d.orphans !! committed.Keys
  {
  }

  lemma CommitOwned(files: Files, files': Files, committed: set<Id>, orphans: set<Id>, id: Id)
    requires MetasOwned(files, committed) && BlobsOwned(files, committed + orphans)
    requires SameElsewhere(files, files', Key(id))
    requires FileAt(files', Blob(Key(id))).Some? && FileAt(files', Meta(Key(id))).Some?
    ensures MetasOwned(files', committed + {id}) && BlobsOwned(files', committed + {id} + orphans)
  {
    BlobsOwnedAdd(files, files', committed + orphans, id);
    MetasOwnedAdd(files, files', committed, id);
    assert committed + {id} + orphans == committed + orphans + {id};
  }

  lemma CommitFaithful(files: Files, files': Files, committed: Contents, artifact: StoredArtifact)
    requires Sha256Injective() && Faithful(files, committed) && artifact.artifactId !in committed
    requires SameElsewhere(files, files', Key(artifact.artifactId))
    requires FileAt(files', Blob(Key(artifact.artifactId))) == Some(artifact.content)
    requires FileAt(files', Meta(Key(artifact.artifactId))) == Some(DumpMetadata(MetadataOf(artifact)))
    ensures Faithful(files', committed[artifact.artifactId := artifact])
  {
    FaithfulFrame(files, files', committed, artifact.artifactId);
  }

  /** Whatever the crash, only this artifact's blob and metadata can differ, and only by their renames. */
  lemma WriteStepsEffect(files: Files, artifact: StoredArtifact, crash: Crash)
    requires Blob(Key(artifact.artifactId)) !in files && Meta(Key(artifact.artifactId)) !in files
    ensures var key, after := Key(artifact.artifactId), WriteSteps(files, artifact, crash);
            && SameElsewhere(files, after, key)
            && FileAt(after, Blob(key)) ==
               (if ReachedCommit(crash) || crash.AfterBlobRename? then Some(artifact.content) else None)
            && FileAt(after, Meta(key)) ==
               (if ReachedCommit(crash) then Some(DumpMetadata(MetadataOf(artifact))) else None)
  {
  }

  lemma WriteStepsRepresent(files: Files, d: Durable, artifact: StoredArtifact, crash: Crash)
    requires Sha256Injective() && Represents(files, d) && artifact.Valid()
    requires Blob(Key(artifact.artifactId)) !in files && Meta(Key(artifact.artifactId)) !in files
    ensures Represents(WriteSteps(files, artifact, crash), AbstractPut(d, artifact, crash).0)
  {
    var id, after := artifact.artifactId, WriteSteps(files, artifact, crash);
    OwnedKey(id, d.committed.Keys + d.orphans);
    assert FileAt(files, Blob(Key(id))).None?;
    WriteStepsEffect(files, artifact, crash);
    if ReachedCommit(crash) {
      CommitRepresents(files, after, d, artifact);
    } else if crash.AfterBlobRename? {
      OrphanRepresents(files, after, d, id);
    } else {
      StillRepresents(files, after, d, Key(id));
    }
  }

  lemma OutcomeRepresented(files: Files, d: Durable, artifact: StoredArtifact, crash: Crash)
    requires Sha256Injective() && MetadataRoundTrips() && Represents(files, d) && artifact.Valid()
    ensures PutFile(files, artifact, crash).1 == AbstractPut(d, artifact, crash).1
    ensures artifact.artifactId in d.committed.Keys + d.orphans ==> PutFile(files, artifact, crash).0 == files
  {
    var id := artifact.artifactId;
    GetRepresented(files, d, id);
    OwnedKey(id, d.committed.Keys);
    OwnedKey(id, d.committed.Keys + d.orphans);
    assert FileAt(files, Meta(Key(id))).Some? <==> id in d.committed;
    assert FileAt(files, Blob(Key(id))).Some? <==> id in d.committed || id in d.orphans;
  }

  lemma PutRepresented(files: Files, d: Durable, artifact: StoredArtifact, crash: Crash)
    requires Sha256Injective() && MetadataRoundTrips() && Represents(files, d) && artifact.Valid()
    ensures Represents(PutFile(files, artifact, crash).0, AbstractPut(d, artifact, crash).0)
  {
    var id := artifact.artifactId;
    OutcomeRepresented(files, d, artifact, crash);
    OwnedKey(id, d.committed.Keys);
    OwnedKey(id, d.committed.Keys + d.orphans);
    assert FileAt(files, Meta(Key(id))).Some? <==> id in d.committed;
    assert FileAt(files, Blob(Key(id))).Some? <==> id in d.committed || id in d.orphans;
    if id !in d.committed.Keys + d.orphans {
      WriteStepsRepresent(files, d, artifact, crash);
    }
  }

  // ---------- Whole histories ----------

  datatype Event = PutEvent(artifact: StoredArtifact, crash: Crash)

  function RunFiles(events: seq<Event>): Files {
    if events == [] then map[]
    else var last := events[|events| - 1];
         PutFile(RunFiles(events[..|events| - 1]), last.artifact, last.crash).0
  }

  function RunDurable(events: seq<Event>): Durable {
    if events == [] then Durable(map[], {})
    else var last := events[|events| - 1];
         AbstractPut(RunDurable(events[..|events| - 1]), last.artifact, last.crash).0
  }

  predicate ReachedCommit(crash: Crash) {
    crash.NoCrash? || crash.AfterMetaRename?
  }

  lemma {:induction false} RunRepresented(events: seq<Event>)
    requires Sha256Injective() && MetadataRoundTrips()
    requires forall e :: e in events ==> e.artifact.Valid()
    ensures Represents(RunFiles(events), RunDurable(events))
  {
    if events == [] {
      assert forall key :: !Owned(key, {});
    } else {
      var earlier, last := events[..|events| - 1], events[|events| - 1];
      RunRepresented(earlier);
      PutRepresented(RunFiles(earlier), RunDurable(earlier), last.artifact, last.crash);
    }
  }

  lemma {:induction false} CommittedWhole(events: seq<Event>, id: Id)
    requires id in RunDurable(events).committed
    ensures exists e :: e in events && e.artifact == RunDurable(events).committed[id] && ReachedCommit(e.crash)
  {
    var earlier, last := events[..|events| - 1], events[|events| - 1];
    if id in RunDurable(earlier).committed {
      CommittedWhole(earlier, id);
      var e :| e in earlier && e.artifact == RunDurable(earlier).committed[id] && ReachedCommit(e.crash);
      assert e in events;
    } else {
      assert last in events;
    }
  }

  /**
   After any history of puts, cut short by crashes anywhere: reads return exactly the committed
   artifacts, the listing is exactly the readable IDs, what is committed was handed in whole by
   a put that reached its last rename, and an orphaned ID is refused without touching a file.
   */
  lemma CrashSafety(events: seq<Event>)
    requires Sha256Injective() && MetadataRoundTrips()
    requires forall e :: e in events ==> e.artifact.Valid()
    ensures forall id :: id != "" ==> GetFile(RunFiles(events), id) == Get(RunDurable(events).committed, id)
    ensures IdsOf(RunFiles(events)) == Ok(Enumerate(RunDurable(events).committed.Keys))
    ensures forall id :: id in RunDurable(events).committed ==>
      exists e :: e in events && e.artifact == RunDurable(events).committed[id] && ReachedCommit(e.crash)
    ensures forall artifact: StoredArtifact, crash ::
      artifact.Valid() && artifact.artifactId in RunDurable(events).orphans ==>
      PutFile(RunFiles(events), artifact, crash) == (RunFiles(events), Returned(Err(Corruption(artifact.artifactId))))
  {
    var files, d := RunFiles(events), RunDurable(events);
    RunRepresented(events);
    IdsRepresented(files, d);
    forall id | id != "" ensures GetFile(files, id) == Get(d.committed, id) {
      GetRepresented(files, d, id);
    }
    forall id | id in d.committed
      ensures exists e :: e in events && e.artifact == d.committed[id] && ReachedCommit(e.crash)
    {
      CommittedWhole(events, id);
    }
    forall artifact: StoredArtifact, crash | artifact.Valid() && artifact.artifactId in d.orphans
      ensures PutFile(files, artifact, crash) == (files, Returned(Err(Corruption(artifact.artifactId))))
    {
      OutcomeRepresented(files, d, artifact, crash);
    }
  }

  /**
   Commits are durable, whatever puts and crashes come afterwards: the artifact still reads back from
   the files as it was committed, and an orphan is never adopted.
   */
  lemma CommitsAreDurable(events: seq<Event>, later: seq<Event>, id: Id)
    requires Sha256Injective() && MetadataRoundTrips()
    requires forall e :: e in events + later ==> e.artifact.Valid()
    ensures id in RunDurable(events).committed ==>
      && GetFile(RunFiles(events), id) == Ok(RunDurable(events).committed[id])
      && GetFile(RunFiles(events + later), id) == Ok(RunDurable(events).committed[id])
    ensures id in RunDurable(events).orphans ==> GetFile(RunFiles(events + later), id).Err?
  {
    forall e | e in events ensures e.artifact.Valid() {
      assert e in events + later;
    }
    DurableGrows(events, later);
    RunRepresented(events);
    RunRepresented(events + later);
    if id != "" {
      GetRepresented(RunFiles(events), RunDurable(events), id);
      GetRepresented(RunFiles(events + later), RunDurable(events + later), id);
    }
  }

  lemma {:induction false} DurableGrows(events: seq<Event>, later: seq<Event>)
    ensures Extends(RunDurable(events).committed, RunDurable(events + later).committed)
    ensures RunDurable(events).orphans <= RunDurable(events + later).orphans
  {
    if later == [] {
      assert events + later == events;
    } else {
      assert (events + later)[..|events + later| - 1] == events + later[..|later| - 1];
      DurableGrows(events, later[..|later| - 1]);
    }
  }

  // ---------- Without crashes: the in-memory store ----------

  function RunMemory(events: seq<Event>): Contents {
    if events == [] then map[]
    else
      var earlier, last := RunMemory(events[..|events| - 1]), events[|events| - 1];
      match Put(earlier, last.artifact) case Ok(after) => after case Err(_) => earlier
  }

  function MemoryOutcome(memory: Contents, next: StoredArtifact): PutOutcome {
    match Put(memory, next)
    case Ok(_) => Returned(Ok(()))
    case Err(error) => Returned(Err(error))
  }

  lemma {:induction false} NoOrphansWithoutCrashes(events: seq<Event>)
    requires forall e :: e in events ==> e.crash.NoCrash?
    ensures RunDurable(events) == Durable(RunMemory(events), {})
  {
    if events != [] {
      NoOrphansWithoutCrashes(events[..|events| - 1]);
    }
  }

  /**
   Crash-free, the file store is the in-memory store: same result for the next put, same listing,
   and the same read for exactly the non-empty IDs (an empty ID is a ValueError here, not-found there).
   */
  lemma MatchesMemory(events: seq<Event>, next: StoredArtifact)
    requires Sha256Injective() && MetadataRoundTrips()
    requires forall e :: e in events ==> e.crash.NoCrash? && e.artifact.Valid()
    requires next.Valid()
    ensures PutFile(RunFiles(events), next, NoCrash).1 == MemoryOutcome(RunMemory(events), next)
    ensures IdsOf(RunFiles(events)) == Ok(Enumerate(RunMemory(events).Keys))
    ensures forall id :: GetFile(RunFiles(events), id) == Get(RunMemory(events), id) <==> id != ""
  {
    NoOrphansWithoutCrashes(events);
    RunRepresented(events);
    RepresentsMemory(RunFiles(events), RunMemory(events), next);
  }

  lemma RepresentsMemory(files: Files, memory: Contents, next: StoredArtifact)
    requires Sha256Injective() && MetadataRoundTrips()
    requires Represents(files, Durable(memory, {})) && next.Valid()
    ensures PutFile(files, next, NoCrash).1 == MemoryOutcome(memory, next)
    ensures IdsOf(files) == Ok(Enumerate(memory.Keys))
    ensures forall id :: GetFile(files, id) == Get(memory, id) <==> id != ""
  {
    IdsRepresented(files, Durable(memory, {}));
    PutAgrees(files, memory, next);
    forall id ensures GetFile(files, id) == Get(memory, id) <==> id != "" {
      GetAgrees(files, memory, id);
    }
  }

  lemma PutAgrees(files: Files, memory: Contents, next: StoredArtifact)
    requires Sha256Injective() && MetadataRoundTrips()
    requires Represents(files, Durable(memory, {})) && next.Valid()
    ensures PutFile(files, next, NoCrash).1 == MemoryOutcome(memory, next)
  {
    OutcomeRepresented(files, Durable(memory, {}), next, NoCrash);
  }

  lemma GetAgrees(files: Files, memory: Contents, id: Id)
    requires Sha256Injective() && MetadataRoundTrips()
    requires Represents(files, Durable(memory, {}))
    ensures GetFile(files, id) == Get(memory, id) <==> id != ""
  {
    if id == "" {
      assert GetFile(files, id) == Err(EmptyId);
    } else {
      GetRepresented(files, Durable(memory, {}), id);
    }
  }
}
