/** The Pinecone vector index behind `VectorDBService`
    (rag_app/services/vectordb_service.py): a map from vector id to the
    stored embedding and its metadata, with upsert, similarity search and
    delete-by-file.  Pinecone itself is not modelled beyond that map: a
    failing call is an `Option<string>` fault passed in by the caller, and
    the ranking done by `index.query` is an uninterpreted function. */
module VectorDb {
  import opened Common
  import opened Documents

  /** `top_k` of the dummy-vector query that finds a file's vectors. */
  const DeleteQueryLimit := 10000

  /** The five metadata keys kept in the index; a key missing from the
      document's metadata is stored as `None`. */
  datatype StoredMeta = StoredMeta(
    text: string,
    fileId: Option<MetaValue>,
    chunkIndex: Option<MetaValue>,
    totalChunks: Option<MetaValue>,
    source: MetaValue)

  datatype Record = Record(values: Embedding, metadata: StoredMeta)

  type Store = map<string, Record>

  /** A match returned by `index.query`, best first. */
  datatype Match = Match(id: string, score: real, metadata: StoredMeta)

  /** Metadata of a search result: the stored metadata without the text. */
  datatype ResultMeta = ResultMeta(
    fileId: Option<MetaValue>,
    chunkIndex: Option<MetaValue>,
    totalChunks: Option<MetaValue>,
    source: MetaValue)

  datatype SearchResult = SearchResult(id: string, text: string, score: real, metadata: ResultMeta)

  datatype IndexStats = IndexStats(totalVectorCount: nat, dimension: nat)

  /** Pinecone's nearest-neighbour query: for the index contents, a query
      vector and `top_k`, the ranked matches or an error message. */
  type QueryFn = (Store, Embedding, int) -> Result<seq<Match>>

  /** `dict.get(key)`. */
  function Get(m: Metadata, key: string): Option<MetaValue> {
    if key in m then Some(m[key]) else None
  }

  /** The vector `upsert_documents` builds for one document. */
  function RecordOf(doc: EmbeddedDoc): Record {
    Record(doc.embedding, StoredMeta(
      doc.text,
      Get(doc.metadata, "file_id"),
      Get(doc.metadata, "chunk_index"),
      Get(doc.metadata, "total_chunks"),
      Get(doc.metadata, "source").GetOr(MStr("pdf"))))
  }

  /** Only the text, the embedding and the four metadata keys reach the
      index: two documents that agree on those are stored identically,
      whatever else their metadata holds. */
  lemma OnlyFourKeysStored(d1: EmbeddedDoc, d2: EmbeddedDoc)
    requires d1.text == d2.text && d1.embedding == d2.embedding
    requires forall k :: k in ["file_id", "chunk_index", "total_chunks", "source"] ==>
      Get(d1.metadata, k) == Get(d2.metadata, k)
    ensures RecordOf(d1) == RecordOf(d2)
  {
    assert "file_id" in ["file_id", "chunk_index", "total_chunks", "source"];
    assert "chunk_index" in ["file_id", "chunk_index", "total_chunks", "source"];
    assert "total_chunks" in ["file_id", "chunk_index", "total_chunks", "source"];
    assert "source" in ["file_id", "chunk_index", "total_chunks", "source"];
  }

  /** A document without a "source" key is stored with source "pdf". */
  lemma SourceDefaultsToPdf(doc: EmbeddedDoc)
    requires "source" !in doc.metadata
    ensures RecordOf(doc).metadata.source == MStr("pdf")
  {
  }

  /** One Pinecone upsert of a batch: each vector is written under its id,
      a later vector replacing an earlier one with the same id. */
  function UpsertAll(store: Store, docs: seq<EmbeddedDoc>): Store
    decreases |docs|
  {
    if docs == [] then store else UpsertAll(store[docs[0].id := RecordOf(docs[0])], docs[1..])
  }

  /** A vector as `upsert_documents` hands it to Pinecone: its id, with the
      embedding and the projected metadata. */
  datatype Vector = Vector(id: string, record: Record)

  /** `index.upsert(vectors=...)`: each vector written under its id, in
      order. */
  function WriteVectors(store: Store, vectors: seq<Vector>): Store
    decreases |vectors|
  {
    if vectors == [] then store else WriteVectors(store[vectors[0].id := vectors[0].record], vectors[1..])
  }

  /** Writing the projected vectors of a batch is upserting the batch. */
  lemma {:induction false} WriteProjected(store: Store, docs: seq<EmbeddedDoc>, vectors: seq<Vector>)
    requires |vectors| == |docs|
    requires forall k :: 0 <= k < |docs| ==> vectors[k] == Vector(docs[k].id, RecordOf(docs[k]))
    ensures WriteVectors(store, vectors) == UpsertAll(store, docs)
    decreases |docs|
  {
    if docs != [] {
      WriteProjected(store[docs[0].id := RecordOf(docs[0])], docs[1..], vectors[1..]);
    }
  }

  /** The ids of a batch. */
  function Ids(docs: seq<EmbeddedDoc>): set<string> {
    set i | 0 <= i < |docs| :: docs[i].id
  }

  /** No later document of the batch has the same id as document `i`. */
  predicate LastWithId(docs: seq<EmbeddedDoc>, i: int)
    requires 0 <= i < |docs|
  {
    forall j :: i < j < |docs| ==> docs[j].id != docs[i].id
  }

  /** After an upsert every document's id is present, the last document
      with a given id is what is stored under it, and every vector whose id
      is not in the batch is unchanged. */
  lemma {:induction false} UpsertAllSpec(store: Store, docs: seq<EmbeddedDoc>)
    ensures UpsertAll(store, docs).Keys == store.Keys + Ids(docs)
    ensures forall i :: 0 <= i < |docs| && LastWithId(docs, i) ==>
      UpsertAll(store, docs)[docs[i].id] == RecordOf(docs[i])
    ensures forall k :: k in store && k !in Ids(docs) ==> UpsertAll(store, docs)[k] == store[k]
    decreases |docs|
  {
    if docs != [] {
      var s' := store[docs[0].id := RecordOf(docs[0])];
      var rest := docs[1..];
      UpsertAllSpec(s', rest);
      assert Ids(docs) == {docs[0].id} + Ids(rest) by {
        forall k | k in Ids(docs) ensures k in {docs[0].id} + Ids(rest) {
          var i :| 0 <= i < |docs| && docs[i].id == k;
          if i > 0 { assert rest[i - 1].id == k; }
        }
        forall k | k in Ids(rest) ensures k in Ids(docs) {
          var i :| 0 <= i < |rest| && rest[i].id == k;
          assert docs[i + 1].id == k;
        }
      }
      forall i | 0 <= i < |docs| && LastWithId(docs, i)
        ensures UpsertAll(store, docs)[docs[i].id] == RecordOf(docs[i])
      {
        if i == 0 {
          forall j | 0 <= j < |rest| ensures rest[j].id != docs[0].id {
            assert rest[j] == docs[j + 1];
          }
        } else {
          assert rest[i - 1] == docs[i];
          assert LastWithId(rest, i - 1);
        }
      }
    }
  }

  /** The vector carries `file_id == fileId`, the index's `$eq` filter. */
  predicate HasFileId(rec: Record, fileId: string) {
    rec.metadata.fileId == Some(MStr(fileId))
  }

  /** The ids whose vectors carry the given file_id. */
  function MatchingIds(store: Store, fileId: string): set<string> {
    set k | k in store && HasFileId(store[k], fileId)
  }

  /** The index with every vector of one file removed. */
  function RemoveFile(store: Store, fileId: string): (r: Store)
    ensures r.Keys == store.Keys - MatchingIds(store, fileId)
  {
    map k | k in store && !HasFileId(store[k], fileId) :: store[k]
  }

  /** Removing a file removes all its vectors and touches no other vector. */
  lemma RemoveFileSpec(store: Store, fileId: string)
    ensures MatchingIds(RemoveFile(store, fileId), fileId) == {}
    ensures forall k :: k in store && !HasFileId(store[k], fileId) ==>
      k in RemoveFile(store, fileId) && RemoveFile(store, fileId)[k] == store[k]
  {
  }

  /** Deleting a file that has no vectors changes nothing. */
  lemma RemoveUnknownFile(store: Store, fileId: string)
    requires MatchingIds(store, fileId) == {}
    ensures RemoveFile(store, fileId) == store
  {
    var r := RemoveFile(store, fileId);
    assert r.Keys == store.Keys;
    forall k | k in store ensures r[k] == store[k] {
      assert k !in MatchingIds(store, fileId);
    }
  }

  /** A second delete of the same file is a no-op. */
  lemma RemoveFileIdempotent(store: Store, fileId: string)
    ensures RemoveFile(RemoveFile(store, fileId), fileId) == RemoveFile(store, fileId)
  {
    RemoveFileSpec(store, fileId);
    RemoveUnknownFile(RemoveFile(store, fileId), fileId);
  }

  /** Deleting one file and then another, in either order, leaves the same
      index. */
  lemma RemoveFileCommutes(store: Store, f1: string, f2: string)
    ensures RemoveFile(RemoveFile(store, f1), f2) == RemoveFile(RemoveFile(store, f2), f1)
  {
  }

  /** The index without the given ids: Pinecone's `delete(ids=...)`. */
  function RemoveIds(store: Store, ids: set<string>): (r: Store)
    ensures r.Keys == store.Keys - ids
    ensures forall k :: k in r ==> r[k] == store[k]
  {
    map k | k in store && k !in ids :: store[k]
  }

  /** Deleting exactly the ids that carry a file_id removes that file. */
  lemma RemoveMatchingIsRemoveFile(store: Store, fileId: string)
    ensures RemoveIds(store, MatchingIds(store, fileId)) == RemoveFile(store, fileId)
  {
  }

  /** How a `delete_by_file_id` that succeeded leaves the index: nothing is
      added or changed, every vector of another file stays, a file with at
      most 10000 vectors is removed completely, and otherwise exactly 10000
      of its vectors go. */
  predicate DeleteEffect(before: Store, after: Store, fileId: string) {
    && (forall k :: k in before && !HasFileId(before[k], fileId) ==> k in after && after[k] == before[k])
    && (forall k :: k in after ==> k in before && after[k] == before[k])
    && (|MatchingIds(before, fileId)| <= DeleteQueryLimit ==> after == RemoveFile(before, fileId))
    && (|MatchingIds(before, fileId)| > DeleteQueryLimit ==> |before.Keys - after.Keys| == DeleteQueryLimit)
  }

  /** How a search result is formatted from a match. */
  function ResultOf(m: Match): SearchResult {
    SearchResult(m.id, m.metadata.text, m.score,
      ResultMeta(m.metadata.fileId, m.metadata.chunkIndex, m.metadata.totalChunks, m.metadata.source))
  }

  /** The search results for a list of matches, in the index's order. */
  function Results(ms: seq<Match>): (r: seq<SearchResult>)
    ensures |r| == |ms|
  {
    seq(|ms|, i requires 0 <= i < |ms| => ResultOf(ms[i]))
  }

  /** One step of collecting a file's ids: an id not yet collected joins
      the collected set. */
  lemma TakeOneId(matching: set<string>, remaining: set<string>, ids: seq<string>, id: string)
    requires remaining <= matching && id in remaining
    requires (set k | k in ids) == matching - remaining
    ensures (set k | k in ids + [id]) == matching - (remaining - {id})
    ensures |matching - (remaining - {id})| == |matching - remaining| + 1
  {
    assert (set k | k in ids + [id]) == (set k | k in ids) + {id};
    assert matching - (remaining - {id}) == (matching - remaining) + {id};
  }

  class VectorIndex {
    /** The vectors in the Pinecone index, by id. */
    var store: Store
    /** `settings.MAX_RETRIEVAL_RESULTS`, the default `top_k`. */
    const maxRetrievalResults: int
    /** The index's dimension, fixed when it is created. */
    const dimension: nat

    /** Connects to an index holding `initial`. */
    constructor (initial: Store, maxRetrievalResults: int, dimension: nat)
      ensures store == initial
      ensures this.maxRetrievalResults == maxRetrievalResults && this.dimension == dimension
    {
      store := initial;
      this.maxRetrievalResults := maxRetrievalResults;
      this.dimension := dimension;
    }

    /** `upsert_documents`: one vector per document, keyed by its id and
        holding the text and the four metadata keys; a failing Pinecone
        call changes nothing and is re-raised. */
    method UpsertDocuments(documents: seq<EmbeddedDoc>, fault: Option<string>) returns (r: Outcome)
      modifies this
      ensures fault.Some? ==> r == Fail("Failed to upsert documents: " + fault.value) && store == old(store)
      ensures fault.None? ==> r == Pass && store == UpsertAll(old(store), documents)
    {
      var vectors: seq<Vector> := [];
      for i := 0 to |documents|
        invariant |vectors| == i
        invariant forall k :: 0 <= k < i ==> vectors[k] == Vector(documents[k].id, RecordOf(documents[k]))
      {
        var doc := documents[i];
        var vector := Vector(doc.id, Record(doc.embedding, StoredMeta(
          doc.text,
          Get(doc.metadata, "file_id"),
          Get(doc.metadata, "chunk_index"),
          Get(doc.metadata, "total_chunks"),
          Get(doc.metadata, "source").GetOr(MStr("pdf")))));
        vectors := vectors + [vector];
      }
      if fault.Some? {
        return Fail("Failed to upsert documents: " + fault.value);
      }
      WriteProjected(store, documents, vectors);
      store := WriteVectors(store, vectors);
      r := Pass;
    }

    /** `search_similar`: query with `top_k` (the configured default when
        none is given) and format each match, in the order returned. */
    method SearchSimilar(queryEmbedding: Embedding, topK: Option<int>, query: QueryFn)
      returns (r: Result<seq<SearchResult>>)
      ensures var k := if topK.Some? then topK.value else maxRetrievalResults;
        match query(store, queryEmbedding, k)
        case Err(e) => r == Err("Failed to search similar documents: " + e)
        case Ok(ms) => r == Ok(Results(ms))
    {
      var k := if topK.Some? then topK.value else maxRetrievalResults;
      var results := query(store, queryEmbedding, k);
      if results.Err? {
        return Err("Failed to search similar documents: " + results.message);
      }
      var matches := results.value;
      var similar: seq<SearchResult> := [];
      for i := 0 to |matches|
        invariant |similar| == i
        invariant forall j :: 0 <= j < i ==> similar[j] == ResultOf(matches[j])
      {
        similar := similar + [ResultOf(matches[i])];
      }
      assert similar == Results(matches);
      r := Ok(similar);
    }

    /** The filtered query of `delete_by_file_id` followed by
        `[match.id for match in results.matches]`: up to 10000 distinct ids
        of the file's vectors, in an order Pinecone chooses; all of them
        when the file has no more than that. */
    method QueryFileIds(fileId: string) returns (ids: seq<string>)
      ensures (set k | k in ids) <= MatchingIds(store, fileId)
      ensures |MatchingIds(store, fileId)| <= DeleteQueryLimit ==> (set k | k in ids) == MatchingIds(store, fileId)
      ensures |MatchingIds(store, fileId)| > DeleteQueryLimit ==> |set k | k in ids| == DeleteQueryLimit
    {
      var matching := MatchingIds(store, fileId);
      ids := [];
      var remaining := matching;
      while remaining != {} && |ids| < DeleteQueryLimit
        invariant remaining <= matching
        invariant (set k | k in ids) == matching - remaining
        invariant |matching - remaining| == |ids| <= DeleteQueryLimit
        decreases |remaining|
      {
        var id :| id in remaining;
        TakeOneId(matching, remaining, ids, id);
        ids := ids + [id];
        remaining := remaining - {id};
      }
    }

    /** `delete_by_file_id`: the vectors the query returned, if any, are
        deleted by id.  Nothing else in the index changes, and a file with at
        most 10000 vectors is removed completely. */
    method DeleteByFileId(fileId: string, fault: Option<string>) returns (r: Outcome)
      modifies this
      ensures fault.Some? ==> r == Fail("Failed to delete vectors: " + fault.value) && store == old(store)
      ensures fault.None? ==> r == Pass && DeleteEffect(old(store), store, fileId)
    {
      if fault.Some? {
        return Fail("Failed to delete vectors: " + fault.value);
      }
      var idsToDelete := QueryFileIds(fileId);
      var deleted := set k | k in idsToDelete;
      if |idsToDelete| > 0 {
        store := RemoveIds(store, deleted);
      } else {
        assert deleted == {};
      }
      assert old(store).Keys - store.Keys == deleted;
      if |MatchingIds(old(store), fileId)| <= DeleteQueryLimit {
        RemoveMatchingIsRemoveFile(old(store), fileId);
      }
      r := Pass;
    }

    /** `get_index_stats`. */
    method GetIndexStats(fault: Option<string>) returns (r: Result<IndexStats>)
      ensures fault.None? <==> r.Ok?
      ensures r.Ok? ==> r.value.totalVectorCount == |store| && r.value.dimension == dimension
      ensures fault.Some? ==> r == Err("Failed to get index statistics: " + fault.value)
    {
      if fault.Some? {
        return Err("Failed to get index statistics: " + fault.value);
      }
      r := Ok(IndexStats(|store|, dimension));
    }

    /** `health_check`: healthy exactly when the statistics call succeeds. */
    method HealthCheck(fault: Option<string>) returns (healthy: bool)
      ensures healthy <==> fault.None?
    {
      var stats := GetIndexStats(fault);
      healthy := stats.Ok?;
    }
  }
}
