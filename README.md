# Audio RAG question answering, modelled in Dafny

This project models the retrieval-augmented question-answering core of an audio RAG
application (`rag.py`). The application turns a speaker-attributed transcript into
`"Speaker <label>: <text>"` segments and embeds them. It stores them in a MongoDB collection
under a fresh session id and makes sure a vector search index called `vector_index` exists.
Questions are then answered by a vector search scoped to the session, followed by one call to
a generative model whose prompt carries the retrieved segments.

The four remote services are parameters of the model:

- Transcription: only the mapping of its utterances is modelled, so the model starts from the
  utterance list.
- Embedding: an arbitrary function from an embed request (texts, model name, input type) to
  vectors or an exception message (`Services.Embedder`).
- Storage: a fake collection class (`Store.Collection`) whose documents and search indexes are
  fields. Every call takes a fault argument saying whether it raises.
- Generation: a class (`Services.Llm`) whose reply is an arbitrary function and which records
  every prompt it is sent. This makes "the model was not called" a statement about its state.

Modules, one file each:

- `Wrappers` (`wrappers.dfy`): `Option` and `Result`. A `Failure` carries the message of a
  raised exception.
- `Transcript` (`transcript.dfy`): `transcribe_audio`'s mapping and the segment strings.
- `Store` (`store.dfy`): documents, index models, pure functions for `insert_many` and index
  dropping, and the `Collection` class.
- `Services` (`services.dfy`): the embedding request type and the generation client.
- `Ingestion` (`ingestion.dfy`): `create_embeddings_and_store`, as a method proved against the
  function `Ingest`, plus the index step and its idempotence.
- `Search` (`search.dfy`): the aggregation pipeline and a reference meaning of `aggregate` over a
  ranked candidate list.
- `Answer` (`answer.dfy`): context joining, the prompt, the three outcomes and
  `search_and_generate_response`.
- `Reset` (`reset.dfy`): the clear-database action of `main` and the session keys it deletes.

The model follows what the code does, including where it falls short of what a session-scoped
RAG pipeline is expected to do:

- The session filter is a post-filter. `$match` comes after `$vectorSearch` with limit 5, so a
  session can get fewer than five hits, or none, while it has matching documents. A session
  should get up to five of its own hits, which filtering inside `$vectorSearch` would give.
  `Search.PostFilterMayStarve` exhibits such an input.
- A failed `insert_many` may have written a prefix of the documents. Ordered inserts stop at the
  first failure, so the model does not claim that a failed ingestion wrote nothing.
- `insert_many([])` raises in pymongo. An empty transcript, or an embedding call that returns no
  vectors, therefore makes ingestion raise rather than return a count of 0.
- An exception from embedding the query is not caught by `search_and_generate_response`. It
  reaches the caller as `Failure`, as does the `IndexError` of `embeddings[0]` on an empty list.

## Model

| member | source | states |
|---|---|---|
| `Transcript.Transcribe` | rag.py:41-48 | one record per utterance, in order; record i has speaker `"Speaker " + label_i` and text `text_i` |
| `Transcript.SpeakerSents` | rag.py:53 | one segment string per record, in order; segment i is `speaker_i + ": " + text_i` |
| `Transcript.SegmentOfUtterance` | rag.py:41-53 | end to end, segment i equals `"Speaker " + label_i + ": " + text_i` |
| `Transcript.ParseSegmentOfUtterance` | rag.py:44-53 | the segment string determines its utterance when the label has no ':' (an inverse of the formatting) |
| `Store.InsertMany` | rag.py:72-77 | an empty list raises and writes nothing; otherwise success appends all documents, and a failure appends at most a prefix and raises the insert's own exception |
| `Store.DropIndex` | rag.py:207-211 | dropping fails exactly when no index has the name; on success none of that name is left, and every index of another name stays, with its count kept |
| `Store.Collection.InsertManyDocs` | rag.py:73 | the collection's documents become those of `InsertMany` on the old documents |
| `Store.Collection.ListSearchIndexes` | rag.py:96 | returns the current indexes, or the listing exception |
| `Store.Collection.CreateSearchIndex` | rag.py:100 | appends the model unless the call fails; the documents are untouched |
| `Store.Collection.DeleteAll` | rag.py:204 | empties the documents unless the call fails |
| `Store.Collection.DropSearchIndex` | rag.py:208 | removes the named index; fails on a fault or on a missing index, leaving the indexes as they were |
| `Services.Llm.GenerateContent` | rag.py:167-171 | records the prompt sent and returns the model's reply or exception |
| `Ingestion.BuildDocuments` | rag.py:61-69 | `min(#texts, #embeddings)` documents; document i pairs text i with embedding i; all carry the given session id |
| `Ingestion.VectorIndexExists` | rag.py:96-97 | true iff some listed index is named `vector_index` |
| `Ingestion.EnsureVectorIndex` | rag.py:80-107 | creates `vector_index` only when none exists and nothing fails; any listing or creation failure becomes a warning and changes nothing |
| `Ingestion.EnsureVectorIndexKeepsOne` | rag.py:96-103 | never a second `vector_index`; exactly one afterwards when neither call fails |
| `Ingestion.EnsureVectorIndexIdempotent` | rag.py:96-103 | after one fault-free run, a second run changes nothing, whatever fails in it, and exactly one `vector_index` exists |
| `Ingestion.Ingest` | rag.py:51-109 | the call only ever appends documents; a success returns the fresh session id and a positive count, with the indexes as the index step leaves them; a raised call leaves the indexes untouched |
| `Ingestion.CreateEmbeddingsAndStore` | rag.py:51-109 | the new collection state and the outcome are those of `Ingest` on the old state |
| `Ingestion.IngestStoresDocuments` | rag.py:53-109 | on success: the returned id is the fresh one; the count is `len(docs)`, which is `min(#segments, #embeddings)`, and positive; the documents appended are the zipped ones, each with the session id and its segment text |
| `Ingestion.EmbedFailureWritesNothing` | rag.py:55-59 | an embedding failure is raised before anything is written: the store is as it was and no session id comes back |
| `Ingestion.InsertFailureIsRaised` | rag.py:55-77 | a failing insert is re-raised with its own exception; it, an empty transcript, or an embedding call that returns no vectors ends the call with no session id and the indexes untouched; with nothing to insert, the empty-list refusal is raised and the store is exactly as it was |
| `Ingestion.IndexFailureIsTolerated` | rag.py:80-109 | whatever fails in the index step, a call whose insert succeeded returns the same session id, count and documents |
| `Ingestion.FreshSessionHoldsOnlyNewDocuments` | rag.py:61-73 | with an unused session id, the stored documents of that session are exactly the ones just built |
| `Search.BuildSearchPipeline` | rag.py:119-142 | `[$vectorSearch(limit 5, exact), $project]` when the session id is `None` or empty; otherwise three stages with `$match{session_id}` at index 1 |
| `Search.Aggregate` | rag.py:145 | a pipeline not starting with `$vectorSearch` is refused; a search naming a missing index finds nothing; otherwise at most as many rows as candidates, each the projection of a ranked candidate |
| `Search.SearchWithoutIndexFindsNothing` | rag.py:119-145 | while the store has no `vector_index`, every search, scoped or not, returns no rows |
| `Search.UnscopedSearchIsTopFive` | rag.py:119-145 | with the index present and without a session id, the results are the first `min(5, n)` ranked documents, projected, in rank order |
| `Search.ScopedSearchIsPostFilter` | rag.py:119-145 | with the index present and a session id, the results are that session's documents among the overall top five; at most five, all of that session |
| `Search.PostFilterStarves` | rag.py:119-145 | with the index present, a session none of whose documents is among the overall top five gets no result, however many of its documents rank lower |
| `Search.FilterSessionDocs` | rag.py:139-142 | the documents `$match` keeps are exactly the stored documents of that session, in order (`OfSession` of the stream's documents) |
| `Search.FilterSessionNone` | rag.py:139-142 | the `$match` stage keeps nothing of a stream holding no document of that session |
| `Search.PostFilterMayStarve` | rag.py:119-145 | an instance: five documents of session "t" outrank the only document of session "s", which gets no result although it is stored |
| `Answer.JoinAt` | rag.py:153 | `sep.join(xs)` holds element i at its offset: the lengths of the elements before it, each followed by one separator |
| `Answer.JoinSeparatorAfter` | rag.py:153 | in `sep.join(xs)` a separator directly follows every element but the last |
| `Answer.JoinLength` | rag.py:153 | `sep.join(xs)` of a non-empty list ends where its last element ends, so nothing follows the last element |
| `Answer.JoinPlaces` | rag.py:153 | every element at its offset and a separator after every element but the last, for all elements at once |
| `Answer.JoinExtent` | rag.py:153 | consecutive elements of `sep.join(xs)` are exactly one separator apart; an empty list joins to `""`; a non-empty one ends where its last element ends |
| `Answer.OffsetStep` | rag.py:153 | the offset of element i+1 is that of element i plus its length and one separator |
| `Answer.Texts` | rag.py:153 | the list comprehension: one text per result, in result order, text i being result i's `text` |
| `Answer.MergedContext` | rag.py:153 | the whole context: text i sits at its offset, `"\n\n---\n\n"` follows every text but the last, consecutive texts are one separator apart, no results give `""`, and the context ends with the last text |
| `Answer.Prompt` | rag.py:155-164 | the prompt is the header, then the context, then the instruction block (step-by-step, Traditional Chinese), then `"Query: " + query + "\nAnswer: "`, each right after the one before, and its length is the sum of the four, so nothing else is in it |
| `Answer.Frame` | rag.py:155-164 | four strings laid end to end: each starts where the one before ends, and the length is the sum of the four |
| `Answer.PromptCarriesResult` | rag.py:153-164 | every result text appears in the prompt, at increasing offsets in result order |
| `Answer.AnswerFor` | rag.py:144-175 | search error gives the error text and no citations; no results gives the fixed not-found text and no citations; otherwise the reply or the generation error text, with the results kept |
| `Answer.SearchAndGenerateResponse` | rag.py:112-175 | a query-embedding failure propagates; otherwise the outcome is `AnswerFor` on the aggregate of the built pipeline; the model receives exactly one prompt when there are results and none otherwise |
| `Reset.SessionState.constructor` | rag.py:219-225 | a session starts with none of the three keys the reset deletes |
| `Reset.ResetStore` | rag.py:204-211 | a failing `delete_many` changes nothing; otherwise no documents remain; `vector_index` is dropped exactly when it exists and the drop does not fail, and otherwise the indexes are left as they were; every index of another name stays, with its count kept |
| `Reset.ResetDatabase` | rag.py:200-228 | the store follows `ResetStore`; after a completed reset the session id, transcripts and chat history keys are gone; after a failed one the session is untouched |
| `Reset.SearchAfterResetFindsNothing` | rag.py:204-211 | after a completed reset (whether or not the index was dropped) every search, scoped or not, returns nothing, and the answer is the not-found text |
| `Reset.ResetThenIndexStepRecreatesIndex` | rag.py:204-211 | after a reset that dropped the index, a fault-free index step creates exactly one `vector_index` |

## Left out

- The services' internals: speech recognition, embedding and generation are arbitrary functions that may fail. Transcription itself (`aai.Transcriber(...).transcribe` and its configuration) is outside the model, which starts from the utterance list.
- MongoDB's exact nearest-neighbour ranking and cosine scores: `Search.Aggregate` takes the ranked candidate list as a parameter, and scores are opaque reals.
- Search.Aggregate: a search naming a missing index is modelled as finding nothing, not as raising; an index that exists but is not yet built is treated as ready.
- Index creation and dropping are asynchronous in the real store; here the index list changes at once. An index still being built, or still being deleted after a reset, is not modelled. The 2-second `time.sleep` after dropping is left out too.
- The fake collection does not itself refuse a second index of the same name. That `vector_index` stays unique is proved from the application's own guard.
- `Store.Collection.DeleteAll`: a failing `delete_many` is modelled as deleting nothing, although a real failure could leave some documents deleted.
- Agreement between the hardcoded `numDimensions: 1024` and the embedding model's output dimension cannot be checked from this code. It is kept as a constant.
- The `st.info` / `st.warning` / `st.error` messages are left out. For the index step they are folded into `Ingestion.IndexStatus`.
- The UI is left out: page setup, spinners, file upload and temporary files (`os.unlink`), the transcript display, chat rendering and the clear-chat button. So are `init_services` with its environment variables, and the query flow of `main` (the missing-session warning and the catch around `search_and_generate_response`).
- Exception types are not distinguished. An exception is its message.
- `uuid4()` is a parameter: its uniqueness is an assumption stated where it is needed (`Ingestion.FreshSessionHoldsOnlyNewDocuments`).
- `rag_practice.py` is not part of this model. It is a top-level script with no functions and does not run as written: `query` is undefined, the stage key is misspelt, and the cursor is consumed twice.
