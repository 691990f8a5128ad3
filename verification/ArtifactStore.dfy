/**
 The write-once artifact store of a worker: content-checked artifacts under logical IDs.
 SHA-256 is an uninterpreted function; where a result needs two contents never to collide,
 that is an explicit `requires Sha256Injective()`.
 */
module ArtifactStore {
  import opened Basics
  import opened Sorting

  const Sha256: Bytes -> string

  ghost predicate Sha256Injective() {
    forall a, b :: Sha256(a) == Sha256(b) ==> a == b
  }

  datatype StoreError =
    | InvalidArtifact
    | EmptyId
    | NotFound(id: Id)
    | Conflict(id: Id)
    | Corruption(id: Id)
    | InvalidMetadataFile

  datatype StoredArtifact = StoredArtifact(artifactId: Id, mediaType: string, content: Bytes, sha256Hex: string) {
    /** The checks of `StoredArtifact.__post_init__`. */
    predicate Valid() {
      artifactId != "" && mediaType != "" && sha256Hex == Sha256(content)
    }
  }

  function CreateArtifact(artifactId: Id, mediaType: string, content: Bytes): (r: Result<StoredArtifact, StoreError>)
    ensures r.Ok? ==> r.value.Valid()
  {
    if artifactId == "" || mediaType == "" then Err(InvalidArtifact)
    else Ok(StoredArtifact(artifactId, mediaType, content, Sha256(content)))
  }

  // ---------- The abstract store ----------

  type Contents = map<Id, StoredArtifact>

  predicate ValidContents(m: Contents) {
    forall id :: id in m ==> m[id].artifactId == id && m[id].Valid()
  }

  function Put(m: Contents, artifact: StoredArtifact): Result<Contents, StoreError> {
    if artifact.artifactId in m then
      if m[artifact.artifactId] == artifact then Ok(m) else Err(Conflict(artifact.artifactId))
    else Ok(m[artifact.artifactId := artifact])
  }

  function Get(m: Contents, id: Id): Result<StoredArtifact, StoreError> {
    if id in m then Ok(m[id]) else Err(NotFound(id))
  }

  function PutAll(m: Contents, artifacts: seq<StoredArtifact>): Result<Contents, StoreError>
    decreases |artifacts|
  {
    if artifacts == [] then Ok(m)
    else
      var m' :- Put(m, artifacts[0]);
      PutAll(m', artifacts[1..])
  }

  /** What is stored after writes in order that stop at the first one refused. */
  function PutUntilRefused(m: Contents, artifacts: seq<StoredArtifact>): Contents
    decreases |artifacts|
  {
    if artifacts == [] then m
    else match Put(m, artifacts[0])
      case Err(_) => m
      case Ok(m') => PutUntilRefused(m', artifacts[1..])
  }

  /** All of a batch that is accepted, and otherwise what came before the write that is refused. */
  lemma {:induction false} PutUntilRefusedIsPrefix(m: Contents, artifacts: seq<StoredArtifact>) returns (n: nat)
    ensures n <= |artifacts| && PutAll(m, artifacts[..n]) == Ok(PutUntilRefused(m, artifacts))
    ensures n == |artifacts| <==> PutAll(m, artifacts).Ok?
    ensures n < |artifacts| ==> Put(PutUntilRefused(m, artifacts), artifacts[n]).Err?
    decreases |artifacts|
  {
    n := 0;
    if artifacts == [] {
      assert artifacts[..0] == artifacts;
    } else if Put(m, artifacts[0]).Ok? {
      var rest := PutUntilRefusedIsPrefix(Put(m, artifacts[0]).value, artifacts[1..]);
      n := rest + 1;
      assert artifacts[..n][1..] == artifacts[1..][..rest];
    }
  }

  ghost predicate Extends(m: Contents, m': Contents) {
    forall id :: id in m ==> id in m' && m'[id] == m[id]
  }

  /** Writes never replace: an accepted batch keeps every earlier entry and adds only itself. */
  lemma {:induction false} PutAllExtends(m: Contents, artifacts: seq<StoredArtifact>)
    requires PutAll(m, artifacts).Ok?
    ensures Extends(m, PutAll(m, artifacts).value)
    ensures forall a :: a in artifacts ==>
      a.artifactId in PutAll(m, artifacts).value && PutAll(m, artifacts).value[a.artifactId] == a
    ensures forall id :: id in PutAll(m, artifacts).value && id !in m ==>
      PutAll(m, artifacts).value[id] in artifacts && PutAll(m, artifacts).value[id].artifactId == id
    decreases |artifacts|
  {
    if artifacts != [] {
      PutAllExtends(Put(m, artifacts[0]).value, artifacts[1..]);
    }
  }

  /** No write was refused, in whatever order they came, iff no two contents were claimed for one ID. */
  lemma {:induction false} PutAllAccepts(m: Contents, artifacts: seq<StoredArtifact>)
    ensures PutAll(m, artifacts).Ok? <==>
      && (forall a :: a in artifacts && a.artifactId in m ==> m[a.artifactId] == a)
      && (forall a, b :: a in artifacts && b in artifacts && a.artifactId == b.artifactId ==> a == b)
    decreases |artifacts|
  {
    if artifacts != [] {
      var first, rest := artifacts[0], artifacts[1..];
      assert forall a :: a in artifacts <==> a == first || a in rest;
      var step := Put(m, first);
      if step.Ok? {
        PutAllAccepts(step.value, rest);
      }
    }
  }

  // ---------- The in-memory store ----------

  class InMemoryArtifactStore {
    var artifacts: Contents

    predicate Valid()
      reads this
    {
      ValidContents(artifacts)
    }

    constructor (initial: seq<StoredArtifact>)
      requires forall a :: a in initial ==> a.Valid()
      ensures Valid()
      ensures forall id :: id in artifacts <==> exists a :: a in initial && a.artifactId == id
      ensures forall id :: id in artifacts ==> artifacts[id] in initial
    {
      var m: Contents := map[];
      for i := 0 to |initial|
        invariant ValidContents(m)
        invariant forall id :: id in m <==> exists a :: a in initial[..i] && a.artifactId == id
        invariant forall id :: id in m ==> m[id] in initial
      {
        ghost var before := m;
        m := m[initial[i].artifactId := initial[i]];
        assert initial[..i + 1] == initial[..i] + [initial[i]];
        forall id ensures id in m <==> exists a :: a in initial[..i + 1] && a.artifactId == id {
          if id in m && id in before {
            var a :| a in initial[..i] && a.artifactId == id;
            assert a in initial[..i + 1];
          } else if id in m {
            assert initial[i] in initial[..i + 1];
          }
        }
      }
      assert initial[..|initial|] == initial;
      artifacts := m;
    }

    method PutArtifact(artifact: StoredArtifact) returns (r: Result<(), StoreError>)
      requires Valid() && artifact.Valid()
      modifies this
      ensures Valid()
      ensures match Put(old(artifacts), artifact)
              case Ok(after) => r == Ok(()) && artifacts == after
              case Err(error) => r == Err(error) && artifacts == old(artifacts)
    {
      if artifact.artifactId in artifacts {
        if artifacts[artifact.artifactId] == artifact {
          return Ok(());
        }
        return Err(Conflict(artifact.artifactId));
      }
      artifacts := artifacts[artifact.artifactId := artifact];
      return Ok(());
    }

    method GetArtifact(id: Id) returns (r: Result<StoredArtifact, StoreError>)
      requires Valid()
      ensures r == Get(artifacts, id)
      ensures r.Ok? ==> r.value.artifactId == id && r.value.sha256Hex == Sha256(r.value.content)
    {
      if id in artifacts {
        return Ok(artifacts[id]);
      }
      return Err(NotFound(id));
    }

    /** The stored IDs, each once, in ascending order. */
    function Ids(): (ids: seq<Id>)
      reads this
      ensures Sorted(LexLeq, ids) && NoDuplicates(ids)
      ensures forall id :: id in ids <==> id in artifacts
    {
      Enumerate(artifacts.Keys)
    }
  }
}
