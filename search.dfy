/** The aggregation pipeline `search_and_generate_response` sends to the collection, and a
    reference meaning for it over a fake collection. */
module Search {
  import opened Wrappers
  import opened Store

  /** The stages the application uses. `Project` keeps `text`, `session_id` and the
      `vectorSearchScore` as `score`, and drops `_id`. */
  datatype Stage =
    | VectorSearch(index: string, queryVector: Embedding, path: string, limit: nat, exact: bool)
    | Match(sessionId: string)
    | Project

  const SearchLimit: nat := 5

  /** Python truthiness of the optional session id: `None` and `""` are false. */
  predicate Truthy(sessionId: Option<string>) {
    sessionId.Some? && sessionId.value != ""
  }

  function VectorSearchStage(queryVector: Embedding): (stage: Stage) {
    VectorSearch(VectorIndexName, queryVector, "embedding", SearchLimit, true)
  }

  /** The pipeline as a value: the filter, when there is one, sits between the vector
      search and the projection. */
  function SearchPipeline(queryVector: Embedding, sessionId: Option<string>): (pipeline: seq<Stage>) {
    [VectorSearchStage(queryVector)] + (if Truthy(sessionId) then [Match(sessionId.value)] else []) + [Project]
  }

  /** Builds the list `[$vectorSearch, $project]` and, for a truthy session id, inserts the
      `$match` stage at index 1. */
  method BuildSearchPipeline(queryVector: Embedding, sessionId: Option<string>) returns (pipeline: seq<Stage>)
    ensures |pipeline| >= 2 && pipeline[0] == VectorSearch("vector_index", queryVector, "embedding", 5, true)
    ensures !Truthy(sessionId) ==> |pipeline| == 2 && pipeline[1] == Project
    ensures Truthy(sessionId) ==> |pipeline| == 3 && pipeline[1] == Match(sessionId.value) && pipeline[2] == Project
    ensures pipeline == SearchPipeline(queryVector, sessionId)
  {
    pipeline := [VectorSearchStage(queryVector), Project];
    if sessionId.Some? && sessionId.value != "" {
      pipeline := pipeline[..1] + [Match(sessionId.value)] + pipeline[1..];
    }
  }

  /** One candidate the vector search can return: a stored document and its similarity score. */
  datatype Candidate = Candidate(doc: Document, score: real)

  /** The documents behind the candidates, in order. */
  function DocsOf(ranked: seq<Candidate>): (docs: seq<Document>)
    ensures |docs| == |ranked|
    ensures forall i :: 0 <= i < |ranked| ==> docs[i] == ranked[i].doc
  {
    seq(|ranked|, i requires 0 <= i < |ranked| => ranked[i].doc)
  }

  /** `ranked` orders exactly the stored documents, each once, as an exact search does. */
  predicate RanksStore(ranked: seq<Candidate>, documents: seq<Document>) {
    multiset(DocsOf(ranked)) == multiset(documents)
  }

  /** One row of the aggregation's output, as the projection shapes it. */
  datatype SearchResult = SearchResult(text: string, sessionId: string, score: real)

  /** The candidates of one session, in order. */
  function FilterSession(rows: seq<Candidate>, sessionId: string): (r: seq<Candidate>)
    ensures |r| <= |rows|
    ensures forall c :: c in r ==> c in rows && c.doc.sessionId == sessionId
  {
    if rows == [] then []
    else (if rows[0].doc.sessionId == sessionId then [rows[0]] else []) + FilterSession(rows[1..], sessionId)
  }

  lemma DocsOfAppend(a: seq<Candidate>, b: seq<Candidate>)
    ensures DocsOf(a + b) == DocsOf(a) + DocsOf(b)
  {
    assert forall i :: 0 <= i < |a + b| ==> DocsOf(a + b)[i] == (DocsOf(a) + DocsOf(b))[i];
  }

  /** `$match` keeps, in order, exactly the documents of the session: the candidates it keeps
      stand for the stored documents `OfSession` selects. */
  lemma {:induction false} FilterSessionDocs(rows: seq<Candidate>, sessionId: string)
    ensures DocsOf(FilterSession(rows, sessionId)) == OfSession(DocsOf(rows), sessionId)
  {
    if rows != [] {
      var docs := DocsOf(rows);
      var head := if rows[0].doc.sessionId == sessionId then [rows[0]] else [];
      var rest := FilterSession(rows[1..], sessionId);
      assert FilterSession(rows, sessionId) == head + rest;
      DocsOfAppend(head, rest);
      FilterSessionDocs(rows[1..], sessionId);
      assert docs[1..] == DocsOf(rows[1..]);
      assert DocsOf(head) == if docs[0].sessionId == sessionId then [docs[0]] else [];
      assert OfSession(docs, sessionId)
        == (if docs[0].sessionId == sessionId then [docs[0]] else []) + OfSession(docs[1..], sessionId);
    }
  }

  /** A session none of whose candidates is in the stream keeps nothing. */
  lemma {:induction false} FilterSessionNone(rows: seq<Candidate>, sessionId: string)
    requires forall c :: c in rows ==> c.doc.sessionId != sessionId
    ensures FilterSession(rows, sessionId) == []
  {
    if rows != [] {
      assert rows[0] in rows;
      FilterSessionNone(rows[1..], sessionId);
    }
  }

  function Take(rows: seq<Candidate>, n: nat): (r: seq<Candidate>)
    ensures |r| == if n <= |rows| then n else |rows|
    ensures |r| <= n && r == rows[..|r|]
  {
    if n <= |rows| then rows[..n] else rows
  }

  /** Runs the stages over the candidate stream. A `$vectorSearch` keeps the first `limit`
      candidates of the stream it receives, a `$match` keeps one session's. */
  function RunStages(stages: seq<Stage>, rows: seq<Candidate>): (out: seq<Candidate>)
    ensures |out| <= |rows|
    ensures forall c :: c in out ==> c in rows
  {
    if stages == [] then rows
    else
      var next := match stages[0]
        case VectorSearch(_, _, _, limit, _) => Take(rows, limit)
        case Match(sid) => FilterSession(rows, sid)
        case Project => rows;
      RunStages(stages[1..], next)
  }

  function ProjectRow(c: Candidate): (r: SearchResult)
    ensures r.text == c.doc.text && r.sessionId == c.doc.sessionId && r.score == c.score
  {
    SearchResult(c.doc.text, c.doc.sessionId, c.score)
  }

  /** A reference meaning of `collection.aggregate(pipeline)`. `ranked` stands for the store's
      exact nearest-neighbour ordering of all its documents against the query vector; how that
      ordering is computed is the store's business. A pipeline that does not start with
      `$vectorSearch` is refused, as the store refuses it. A `$vectorSearch` naming an index
      the store does not have (never created, or dropped by a reset) finds nothing. */
  function Aggregate(pipeline: seq<Stage>, indexes: seq<SearchIndexModel>, ranked: seq<Candidate>): (r: Result<seq<SearchResult>>)
    ensures r.Failure? <==> pipeline == [] || !pipeline[0].VectorSearch?
    ensures r.Success? && CountNamed(indexes, pipeline[0].index) == 0 ==> r.value == []
    ensures r.Success? ==> |r.value| <= |ranked|
    ensures r.Success? ==> forall x :: x in r.value ==> exists c :: c in ranked && x == ProjectRow(c)
  {
    if pipeline == [] || !pipeline[0].VectorSearch? then Failure("$vectorSearch must be the first stage")
    else if CountNamed(indexes, pipeline[0].index) == 0 then Success([])
    else
      var rows := RunStages(pipeline, ranked);
      var results := seq(|rows|, i requires 0 <= i < |rows| => ProjectRow(rows[i]));
      assert forall x :: x in results ==> exists c :: c in ranked && x == ProjectRow(c) by {
        forall x | x in results ensures exists c :: c in ranked && x == ProjectRow(c) {
          var i :| 0 <= i < |results| && results[i] == x;
          assert rows[i] in rows;
        }
      }
      Success(results)
  }

  /** Where the store has no `vector_index`, every search, scoped or not, finds nothing. */
  lemma SearchWithoutIndexFindsNothing(queryVector: Embedding, sessionId: Option<string>,
                                       indexes: seq<SearchIndexModel>, ranked: seq<Candidate>)
    requires CountNamed(indexes, VectorIndexName) == 0
    ensures Aggregate(SearchPipeline(queryVector, sessionId), indexes, ranked) == Success([])
  {
  }

  /** Without a session id the search returns the overall top five, in ranked order. */
  lemma UnscopedSearchIsTopFive(queryVector: Embedding, sessionId: Option<string>,
                                indexes: seq<SearchIndexModel>, ranked: seq<Candidate>)
    requires !Truthy(sessionId)
    requires CountNamed(indexes, VectorIndexName) > 0
    ensures var r := Aggregate(SearchPipeline(queryVector, sessionId), indexes, ranked);
      r.Success? && |r.value| == (if |ranked| < 5 then |ranked| else 5) &&
      forall i :: 0 <= i < |r.value| ==> r.value[i] == ProjectRow(ranked[i])
  {
    var p := SearchPipeline(queryVector, sessionId);
    assert p == [VectorSearchStage(queryVector), Project];
    assert CountNamed(indexes, p[0].index) > 0;
    var top := Take(ranked, 5);
    assert p[1..][1..] == [];
    assert RunStages(p, ranked) == RunStages(p[1..], top);
    assert RunStages(p[1..], top) == RunStages(p[1..][1..], top) == top;
  }

  /** With a session id the `$match` runs after the limit: the result is the members of that
      session among the overall top five, so it is at most five rows and every row carries the
      session id. */
  lemma ScopedSearchIsPostFilter(queryVector: Embedding, sessionId: Option<string>,
                                 indexes: seq<SearchIndexModel>, ranked: seq<Candidate>)
    requires Truthy(sessionId)
    requires CountNamed(indexes, VectorIndexName) > 0
    ensures var r := Aggregate(SearchPipeline(queryVector, sessionId), indexes, ranked);
      var kept := FilterSession(Take(ranked, 5), sessionId.value);
      r.Success? && |r.value| == |kept| <= 5 &&
      (forall i :: 0 <= i < |r.value| ==> r.value[i] == ProjectRow(kept[i])) &&
      (forall i :: 0 <= i < |r.value| ==> r.value[i].sessionId == sessionId.value)
  {
    var p := SearchPipeline(queryVector, sessionId);
    assert p == [VectorSearchStage(queryVector), Match(sessionId.value), Project];
    assert CountNamed(indexes, p[0].index) > 0;
    var top := Take(ranked, 5);
    var kept := FilterSession(top, sessionId.value);
    assert RunStages(p, ranked) == kept by {
      assert p[1..][1..][1..] == [];
      assert RunStages(p, ranked) == RunStages(p[1..], top);
      assert RunStages(p[1..], top) == RunStages(p[1..][1..], kept);
      assert RunStages(p[1..][1..], kept) == RunStages(p[1..][1..][1..], kept) == kept;
    }
    assert Aggregate(p, indexes, ranked) == Success(seq(|kept|, i requires 0 <= i < |kept| => ProjectRow(kept[i])));
    assert forall i :: 0 <= i < |kept| ==> kept[i] in kept;
  }

  /** Because the filter comes after the limit, a session none of whose documents is among the
      overall top five gets no result, however many of its documents rank below them. */
  lemma PostFilterStarves(queryVector: Embedding, sessionId: string, indexes: seq<SearchIndexModel>, ranked: seq<Candidate>)
    requires sessionId != ""
    requires CountNamed(indexes, VectorIndexName) > 0
    requires forall i :: 0 <= i < |ranked| && i < SearchLimit ==> ranked[i].doc.sessionId != sessionId
    ensures Aggregate(SearchPipeline(queryVector, Some(sessionId)), indexes, ranked) == Success([])
  {
    ScopedSearchIsPostFilter(queryVector, Some(sessionId), indexes, ranked);
    var top := Take(ranked, SearchLimit);
    assert forall c :: c in top ==> c.doc.sessionId != sessionId;
    FilterSessionNone(top, sessionId);
  }

  /** An instance: five documents of session "t" outrank the only one of session "s", which
      then gets no result although it has a stored match. */
  lemma PostFilterMayStarve()
    ensures var ranked := [
        Candidate(Document("Speaker A: one", [], "t"), 0.9),
        Candidate(Document("Speaker A: two", [], "t"), 0.8),
        Candidate(Document("Speaker A: three", [], "t"), 0.7),
        Candidate(Document("Speaker A: four", [], "t"), 0.6),
        Candidate(Document("Speaker A: five", [], "t"), 0.5),
        Candidate(Document("Speaker B: hello", [], "s"), 0.4)];
      ranked[5].doc.sessionId == "s" &&
      Aggregate(SearchPipeline([], Some("s")), [VectorIndexModel()], ranked) == Success([])
  {
    var ranked := [
        Candidate(Document("Speaker A: one", [], "t"), 0.9),
        Candidate(Document("Speaker A: two", [], "t"), 0.8),
        Candidate(Document("Speaker A: three", [], "t"), 0.7),
        Candidate(Document("Speaker A: four", [], "t"), 0.6),
        Candidate(Document("Speaker A: five", [], "t"), 0.5),
        Candidate(Document("Speaker B: hello", [], "s"), 0.4)];
    PostFilterStarves([], "s", [VectorIndexModel()], ranked);
  }
}
