/** The MongoDB collection the application writes to and searches, as a fake store:
    its documents, its search indexes, and the operations the application calls on it.
    Whether a call fails is decided by the fault argument each operation takes. */
module Store {
  import opened Wrappers

  /** An embedding vector; its numbers are never inspected by the application. */
  type Embedding = seq<real>

  /** A stored segment: its text, its embedding and the session that ingested it. */
  datatype Document = Document(text: string, embedding: Embedding, sessionId: string)

  /** The single vector field of a search index definition. */
  datatype VectorField = VectorField(numDimensions: nat, path: string, similarity: string)

  /** A search index as `list_search_indexes` reports it and `create_search_index` takes it. */
  datatype SearchIndexModel = SearchIndexModel(name: string, kind: string, fields: seq<VectorField>)

  const VectorIndexName: string := "vector_index"

  /** The index the application declares: cosine similarity over 1024-dimensional `embedding`. */
  function VectorIndexModel(): (m: SearchIndexModel) {
    SearchIndexModel(VectorIndexName, "vectorSearch", [VectorField(1024, "embedding", "cosine")])
  }

  /** How an `insert_many` call goes: it succeeds, or it fails after writing its first k documents
      (an ordered insert stops at the first failing document). */
  datatype InsertFault = InsertSucceeds | InsertFailsAfter(written: nat, error: string)

  const EmptyInsertError: string := "documents must be a non-empty list"

  /** The observable state of the collection. */
  datatype StoreState = StoreState(documents: seq<Document>, indexes: seq<SearchIndexModel>)

  /** Number of indexes called name. */
  function CountNamed(indexes: seq<SearchIndexModel>, name: string): (n: nat)
    ensures n <= |indexes|
    ensures n == 0 <==> forall i :: 0 <= i < |indexes| ==> indexes[i].name != name
  {
    if indexes == [] then 0
    else CountNamed(indexes[..|indexes| - 1], name) + (if indexes[|indexes| - 1].name == name then 1 else 0)
  }

  /** Outcome of `insert_many(docs)`: the documents written and the exception raised, if any.
      An empty list is refused before anything is written. */
  function InsertMany(documents: seq<Document>, docs: seq<Document>, fault: InsertFault): (r: (seq<Document>, Option<string>))
    ensures docs == [] ==> r == (documents, Some(EmptyInsertError))
    ensures r.1 == None <==> docs != [] && fault.InsertSucceeds?
    ensures r.1 == None ==> r.0 == documents + docs
    ensures docs != [] && fault.InsertFailsAfter? ==> r.1 == Some(fault.error)
    ensures exists k :: 0 <= k <= |docs| && r.0 == documents + docs[..k]
  {
    if docs == [] then assert documents + docs[..0] == documents; (documents, Some(EmptyInsertError))
    else match fault
      case InsertSucceeds => assert docs[..|docs|] == docs; (documents + docs, None)
      case InsertFailsAfter(k, e) =>
        var n := if k < |docs| then k else |docs|;
        (documents + docs[..n], Some(e))
  }

  /** The documents of one session, in store order. */
  function OfSession(docs: seq<Document>, sessionId: string): (r: seq<Document>)
    ensures forall d :: d in r ==> d in docs && d.sessionId == sessionId
  {
    if docs == [] then []
    else (if docs[0].sessionId == sessionId then [docs[0]] else []) + OfSession(docs[1..], sessionId)
  }

  lemma {:induction false} OfSessionAppend(a: seq<Document>, b: seq<Document>, sessionId: string)
    ensures OfSession(a + b, sessionId) == OfSession(a, sessionId) + OfSession(b, sessionId)
  {
    if a != [] {
      assert (a + b)[1..] == a[1..] + b;
      OfSessionAppend(a[1..], b, sessionId);
    } else {
      assert a + b == b;
    }
  }

  lemma {:induction false} OfSessionNone(docs: seq<Document>, sessionId: string)
    requires forall d :: d in docs ==> d.sessionId != sessionId
    ensures OfSession(docs, sessionId) == []
  {
    if docs != [] {
      OfSessionNone(docs[1..], sessionId);
    }
  }

  lemma {:induction false} OfSessionAll(docs: seq<Document>, sessionId: string)
    requires forall d :: d in docs ==> d.sessionId == sessionId
    ensures OfSession(docs, sessionId) == docs
  {
    if docs != [] {
      OfSessionAll(docs[1..], sessionId);
    }
  }

  /** Removes every index called name; fails, leaving the indexes as they were, when there is none. */
  function DropIndex(indexes: seq<SearchIndexModel>, name: string): (r: Result<seq<SearchIndexModel>>)
    ensures r.Failure? <==> CountNamed(indexes, name) == 0
    ensures r.Success? ==> CountNamed(r.value, name) == 0
    ensures r.Success? ==> forall n :: n != name ==> CountNamed(r.value, n) == CountNamed(indexes, n)
    ensures r.Success? ==> forall m: SearchIndexModel :: m.name != name ==> (m in r.value <==> m in indexes)
  {
    if CountNamed(indexes, name) == 0 then Failure("index not found: " + name)
    else Success(WithoutNamed(indexes, name))
  }

  /** The indexes other than those called name, in their order. */
  function WithoutNamed(indexes: seq<SearchIndexModel>, name: string): (r: seq<SearchIndexModel>)
    ensures CountNamed(r, name) == 0
    ensures forall n :: n != name ==> CountNamed(r, n) == CountNamed(indexes, n)
    ensures forall m: SearchIndexModel :: m in r <==> m in indexes && m.name != name
  {
    if indexes == [] then []
    else
      var last := indexes[|indexes| - 1];
      var front := WithoutNamed(indexes[..|indexes| - 1], name);
      if last.name == name then front else front + [last]
  }

  class Collection {
    var documents: seq<Document>
    var searchIndexes: seq<SearchIndexModel>

    function State(): (st: StoreState)
      reads this
    {
      StoreState(documents, searchIndexes)
    }

    constructor (state: StoreState)
      ensures State() == state
    {
      documents := state.documents;
      searchIndexes := state.indexes;
    }

    /** `insert_many(docs)`: returns the exception it raised, if any. */
    method InsertManyDocs(docs: seq<Document>, fault: InsertFault) returns (raised: Option<string>)
      modifies this`documents
      ensures (documents, raised) == InsertMany(old(documents), docs, fault)
    {
      var r := InsertMany(documents, docs, fault);
      documents := r.0;
      raised := r.1;
    }

    /** `list_search_indexes()`: the indexes, or the exception raised while listing them. */
    method ListSearchIndexes(fault: Option<string>) returns (r: Result<seq<SearchIndexModel>>)
      ensures fault.None? ==> r == Success(searchIndexes)
      ensures fault.Some? ==> r == Failure(fault.value)
    {
      if fault.Some? {
        r := Failure(fault.value);
      } else {
        r := Success(searchIndexes);
      }
    }

    /** `create_search_index(model)`: appends the index unless the call fails. This store does not
        itself refuse a second index of the same name. */
    method CreateSearchIndex(model: SearchIndexModel, fault: Option<string>) returns (raised: Option<string>)
      modifies this`searchIndexes
      ensures raised == fault
      ensures searchIndexes == if fault.None? then old(searchIndexes) + [model] else old(searchIndexes)
    {
      raised := fault;
      if fault.None? {
        searchIndexes := searchIndexes + [model];
      }
    }

    /** `delete_many({})`: removes every document unless the call fails. */
    method DeleteAll(fault: Option<string>) returns (raised: Option<string>)
      modifies this`documents
      ensures raised == fault
      ensures documents == if fault.None? then [] else old(documents)
    {
      raised := fault;
      if fault.None? {
        documents := [];
      }
    }

    /** `drop_search_index(name)`: fails on a missing index or an injected fault. */
    method DropSearchIndex(name: string, fault: Option<string>) returns (raised: Option<string>)
      modifies this`searchIndexes
      ensures fault.Some? ==> raised == fault && searchIndexes == old(searchIndexes)
      ensures fault.None? ==> match DropIndex(old(searchIndexes), name)
        case Success(rest) => raised == None && searchIndexes == rest
        case Failure(e) => raised == Some(e) && searchIndexes == old(searchIndexes)
    {
      if fault.Some? {
        raised := fault;
      } else {
        var r := DropIndex(searchIndexes, name);
        if r.Success? {
          searchIndexes := r.value;
          raised := None;
        } else {
          raised := Some(r.error);
        }
      }
    }
  }
}
