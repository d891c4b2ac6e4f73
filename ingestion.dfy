/** `create_embeddings_and_store`: embed the segments, store them under a fresh session id,
    then make sure the vector index exists. */
module Ingestion {
  import opened Wrappers
  import opened Transcript
  import opened Store
  import opened Services

  /** What the index step reported: created, already there, or a swallowed exception. */
  datatype IndexStatus = IndexCreated | IndexAlreadyExists | IndexWarning(error: string)

  /** The function's outcome: `(session_id, len(docs))` with the index step's report, or the
      exception it let through. */
  datatype IngestResult = Stored(sessionId: string, count: nat, index: IndexStatus) | Raised(error: string)

  /** Which store calls fail, and how. */
  datatype Faults = Faults(insert: InsertFault, listIndexes: Option<string>, createIndex: Option<string>)

  /** The store after the call, with the call's outcome. */
  datatype Ingestion = Ingestion(store: StoreState, result: IngestResult)

  function Min(a: nat, b: nat): (m: nat)
    ensures m <= a && m <= b && (m == a || m == b)
  {
    if a <= b then a else b
  }

  /** The documents of `zip(speaker_sents, embeds)`, all under one session id. */
  function Documents(sents: seq<string>, embeds: seq<Embedding>, sessionId: string): (docs: seq<Document>) {
    seq(Min(|sents|, |embeds|), i requires 0 <= i < Min(|sents|, |embeds|) => Document(sents[i], embeds[i], sessionId))
  }

  /** The append loop over `zip(speaker_sents, embeds)`: pairs text i with embedding i,
      stops at the shorter list, and stamps every document with the same session id. */
  method BuildDocuments(sents: seq<string>, embeds: seq<Embedding>, sessionId: string) returns (docs: seq<Document>)
    ensures |docs| == Min(|sents|, |embeds|)
    ensures forall i :: 0 <= i < |docs| ==>
      docs[i].text == sents[i] && docs[i].embedding == embeds[i] && docs[i].sessionId == sessionId
    ensures docs == Documents(sents, embeds, sessionId)
  {
    docs := [];
    var k := 0;
    while k < |sents| && k < |embeds|
      invariant 0 <= k <= Min(|sents|, |embeds|)
      invariant docs == Documents(sents[..k], embeds[..k], sessionId)
    {
      docs := docs + [Document(sents[k], embeds[k], sessionId)];
      k := k + 1;
    }
    assert sents[..k] == sents[..Min(|sents|, |embeds|)];
  }

  /** `any(idx.get('name') == 'vector_index' for idx in existing_indexes)`. */
  function VectorIndexExists(indexes: seq<SearchIndexModel>): (b: bool)
    ensures b <==> exists i :: 0 <= i < |indexes| && indexes[i].name == VectorIndexName
    ensures b <==> CountNamed(indexes, VectorIndexName) > 0
  {
    if indexes == [] then false
    else indexes[0].name == VectorIndexName || VectorIndexExists(indexes[1..])
  }

  /** The index step: list the indexes, create `vector_index` only when none has that name,
      and turn any exception into a warning. */
  function EnsureVectorIndex(indexes: seq<SearchIndexModel>, listFault: Option<string>, createFault: Option<string>)
    : (r: (seq<SearchIndexModel>, IndexStatus))
    ensures r.0 == indexes || (!VectorIndexExists(indexes) && r.0 == indexes + [VectorIndexModel()])
    ensures r.1 == IndexCreated <==> r.0 != indexes
    ensures r.1 == IndexAlreadyExists <==> listFault.None? && VectorIndexExists(indexes)
    ensures r.1.IndexWarning? <==> listFault.Some? || (!VectorIndexExists(indexes) && createFault.Some?)
  {
    if listFault.Some? then (indexes, IndexWarning(listFault.value))
    else if VectorIndexExists(indexes) then (indexes, IndexAlreadyExists)
    else if createFault.Some? then (indexes, IndexWarning(createFault.value))
    else (indexes + [VectorIndexModel()], IndexCreated)
  }

  /** The index step never makes a second `vector_index`, and when neither call fails,
      exactly one exists afterwards. */
  lemma EnsureVectorIndexKeepsOne(indexes: seq<SearchIndexModel>, listFault: Option<string>, createFault: Option<string>)
    requires CountNamed(indexes, VectorIndexName) <= 1
    ensures CountNamed(EnsureVectorIndex(indexes, listFault, createFault).0, VectorIndexName) <= 1
    ensures listFault.None? && createFault.None? ==>
      CountNamed(EnsureVectorIndex(indexes, listFault, createFault).0, VectorIndexName) == 1
  {
  }

  /** Running the index step twice leaves exactly one `vector_index`, and the second run,
      whatever fails in it, changes nothing. */
  lemma EnsureVectorIndexIdempotent(indexes: seq<SearchIndexModel>, listFault: Option<string>, createFault: Option<string>)
    requires CountNamed(indexes, VectorIndexName) <= 1
    ensures var once := EnsureVectorIndex(indexes, None, None).0;
      EnsureVectorIndex(once, listFault, createFault).0 == once &&
      CountNamed(EnsureVectorIndex(once, None, None).0, VectorIndexName) == 1
  {
  }

  /** The whole call, as a function of the store before it. `sessionId` is the fresh
      `uuid4()` value; `embed` is the embedding service. */
  function Ingest(s: StoreState, records: seq<SpeakerRecord>, embed: Embedder, sessionId: string, faults: Faults): (out: Ingestion)
    ensures |s.documents| <= |out.store.documents| && out.store.documents[..|s.documents|] == s.documents
    ensures out.result.Stored? ==> out.result.sessionId == sessionId && out.result.count > 0
    ensures out.result.Raised? ==> out.store.indexes == s.indexes
    ensures out.result.Stored? ==> out.store.indexes == EnsureVectorIndex(s.indexes, faults.listIndexes, faults.createIndex).0
  {
    var sents := SpeakerSents(records);
    match embed(EmbedRequest(sents, EmbeddingModel, DocumentInput))
    case Failure(e) => Ingestion(s, Raised(e))
    case Success(embeds) =>
      var docs := Documents(sents, embeds, sessionId);
      var (documents', raised) := InsertMany(s.documents, docs, faults.insert);
      if raised.Some? then Ingestion(StoreState(documents', s.indexes), Raised(raised.value))
      else
        var (indexes', status) := EnsureVectorIndex(s.indexes, faults.listIndexes, faults.createIndex);
        Ingestion(StoreState(documents', indexes'), Stored(sessionId, |docs|, status))
  }

  /** `create_embeddings_and_store(speaker_transcripts, vo, collection)`. */
  method CreateEmbeddingsAndStore(records: seq<SpeakerRecord>, embed: Embedder, collection: Collection,
                                  sessionId: string, faults: Faults) returns (r: IngestResult)
    modifies collection
    ensures Ingestion(collection.State(), r) == Ingest(old(collection.State()), records, embed, sessionId, faults)
  {
    var sents := SpeakerSents(records);
    var embedded := embed(EmbedRequest(sents, EmbeddingModel, DocumentInput));
    if embedded.Failure? {
      return Raised(embedded.error);
    }
    var docs := BuildDocuments(sents, embedded.value, sessionId);
    var raised := collection.InsertManyDocs(docs, faults.insert);
    if raised.Some? {
      return Raised(raised.value);
    }
    var status: IndexStatus;
    var listed := collection.ListSearchIndexes(faults.listIndexes);
    if listed.Failure? {
      status := IndexWarning(listed.error);
    } else if !VectorIndexExists(listed.value) {
      var created := collection.CreateSearchIndex(VectorIndexModel(), faults.createIndex);
      status := if created.Some? then IndexWarning(created.value) else IndexCreated;
    } else {
      status := IndexAlreadyExists;
    }
    return Stored(sessionId, |docs|, status);
  }

  /** A successful call stores one document per pair of segment and embedding, in order and
      all under the returned session id, and reports that many documents. */
  lemma IngestStoresDocuments(s: StoreState, records: seq<SpeakerRecord>, embed: Embedder, sessionId: string, faults: Faults)
    requires Ingest(s, records, embed, sessionId, faults).result.Stored?
    ensures var sents := SpeakerSents(records);
      var embeds := embed(EmbedRequest(sents, EmbeddingModel, DocumentInput)).value;
      var out := Ingest(s, records, embed, sessionId, faults);
      && out.result.sessionId == sessionId
      && out.result.count == Min(|records|, |embeds|) > 0
      && out.store.documents == s.documents + Documents(sents, embeds, sessionId)
      && (forall i :: |s.documents| <= i < |out.store.documents| ==>
            out.store.documents[i].sessionId == sessionId &&
            out.store.documents[i].text == SegmentText(records[i - |s.documents|]))
  {
  }

  /** An embedding failure comes first and is not caught: it is raised before anything is
      written, so the store is as it was and no session id comes back. */
  lemma EmbedFailureWritesNothing(s: StoreState, records: seq<SpeakerRecord>, embed: Embedder, sessionId: string, faults: Faults)
    requires embed(EmbedRequest(SpeakerSents(records), EmbeddingModel, DocumentInput)).Failure?
    ensures Ingest(s, records, embed, sessionId, faults)
      == Ingestion(s, Raised(embed(EmbedRequest(SpeakerSents(records), EmbeddingModel, DocumentInput)).error))
  {
  }

  /** A failing insert is re-raised, the insert's own exception: no session id comes back and
      the index step never runs.
      With nothing to insert (an empty transcript, or no vectors back) the refusal of the empty
      list is raised and nothing is written at all. */
  lemma InsertFailureIsRaised(s: StoreState, records: seq<SpeakerRecord>, embed: Embedder, sessionId: string, faults: Faults)
    requires embed(EmbedRequest(SpeakerSents(records), EmbeddingModel, DocumentInput)).Success?
    requires faults.insert.InsertFailsAfter? || records == []
      || embed(EmbedRequest(SpeakerSents(records), EmbeddingModel, DocumentInput)).value == []
    ensures Ingest(s, records, embed, sessionId, faults).result.Raised?
    ensures Ingest(s, records, embed, sessionId, faults).store.indexes == s.indexes
    ensures faults.insert.InsertFailsAfter? && records != []
      && embed(EmbedRequest(SpeakerSents(records), EmbeddingModel, DocumentInput)).value != []
      ==> Ingest(s, records, embed, sessionId, faults).result == Raised(faults.insert.error)
    ensures records == [] || embed(EmbedRequest(SpeakerSents(records), EmbeddingModel, DocumentInput)).value == []
      ==> Ingest(s, records, embed, sessionId, faults) == Ingestion(s, Raised(EmptyInsertError))
  {
  }

  /** Once the documents are in, nothing in the index step can make the call fail. */
  lemma IndexFailureIsTolerated(s: StoreState, records: seq<SpeakerRecord>, embed: Embedder, sessionId: string,
                                insert: InsertFault, listFault: Option<string>, createFault: Option<string>)
    requires Ingest(s, records, embed, sessionId, Faults(insert, None, None)).result.Stored?
    ensures var out := Ingest(s, records, embed, sessionId, Faults(insert, listFault, createFault));
      var ok := Ingest(s, records, embed, sessionId, Faults(insert, None, None));
      out.result.Stored? && out.result.sessionId == sessionId && out.result.count == ok.result.count &&
      out.store.documents == ok.store.documents
  {
  }

  /** With a session id no stored document carries yet, the documents of that session after a
      successful call are exactly the ones it built. */
  lemma FreshSessionHoldsOnlyNewDocuments(s: StoreState, records: seq<SpeakerRecord>, embed: Embedder, sessionId: string, faults: Faults)
    requires forall d :: d in s.documents ==> d.sessionId != sessionId
    requires Ingest(s, records, embed, sessionId, faults).result.Stored?
    ensures var sents := SpeakerSents(records);
      var embeds := embed(EmbedRequest(sents, EmbeddingModel, DocumentInput)).value;
      OfSession(Ingest(s, records, embed, sessionId, faults).store.documents, sessionId) == Documents(sents, embeds, sessionId)
  {
    var sents := SpeakerSents(records);
    var embeds := embed(EmbedRequest(sents, EmbeddingModel, DocumentInput)).value;
    var docs := Documents(sents, embeds, sessionId);
    OfSessionAppend(s.documents, docs, sessionId);
    OfSessionNone(s.documents, sessionId);
    OfSessionAll(docs, sessionId);
  }
}
