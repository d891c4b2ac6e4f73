/** The "clear database" action of the application: empty the collection, drop the vector index
    if it is there, and forget the session's keys. */
module Reset {
  import opened Wrappers
  import opened Transcript
  import opened Store
  import opened Search
  import opened Answer
  import opened Ingestion

  datatype Role = User | Assistant
  datatype ChatTurn = ChatTurn(role: Role, content: string)

  /** The keys of the per-user session state the action clears; `None` is an absent key. */
  class SessionState {
    var sessionId: Option<string>
    var transcripts: Option<seq<SpeakerRecord>>
    var chatHistory: Option<seq<ChatTurn>>

    constructor ()
      ensures sessionId == None && transcripts == None && chatHistory == None
    {
      sessionId, transcripts, chatHistory := None, None, None;
    }
  }

  /** How the action ended: done (saying whether an index was dropped), or stopped by an
      exception from `delete_many`. */
  datatype ResetOutcome = ResetDone(indexDropped: bool) | ResetFailed(error: string)

  /** The store after the action. A failing `delete_many` stops everything; a failing
      `drop_search_index`, including one for a missing index, is only reported. */
  function ResetStore(s: StoreState, deleteFault: Option<string>, dropFault: Option<string>): (r: (StoreState, ResetOutcome))
    ensures deleteFault.Some? ==> r == (s, ResetFailed(deleteFault.value))
    ensures deleteFault.None? ==> r.0.documents == [] && r.1.ResetDone?
    ensures r.1 == ResetDone(true) <==> deleteFault.None? && dropFault.None? && CountNamed(s.indexes, VectorIndexName) > 0
    ensures r.1 == ResetDone(true) ==> CountNamed(r.0.indexes, VectorIndexName) == 0
    ensures r.1 != ResetDone(true) ==> r.0.indexes == s.indexes
    ensures forall n :: n != VectorIndexName ==> CountNamed(r.0.indexes, n) == CountNamed(s.indexes, n)
    ensures forall m: SearchIndexModel :: m.name != VectorIndexName ==> (m in r.0.indexes <==> m in s.indexes)
  {
    if deleteFault.Some? then (s, ResetFailed(deleteFault.value))
    else if dropFault.Some? then (StoreState([], s.indexes), ResetDone(false))
    else match DropIndex(s.indexes, VectorIndexName)
      case Success(rest) => (StoreState([], rest), ResetDone(true))
      case Failure(_) => (StoreState([], s.indexes), ResetDone(false))
  }

  /** The clear-database action. */
  method ResetDatabase(collection: Collection, session: SessionState, deleteFault: Option<string>, dropFault: Option<string>)
    returns (outcome: ResetOutcome)
    modifies collection, session
    ensures (collection.State(), outcome) == ResetStore(old(collection.State()), deleteFault, dropFault)
    ensures outcome.ResetDone? ==> session.sessionId == None && session.transcripts == None && session.chatHistory == None
    ensures outcome.ResetFailed? ==> unchanged(session)
  {
    var raised := collection.DeleteAll(deleteFault);
    if raised.Some? {
      return ResetFailed(raised.value);
    }
    var dropped := collection.DropSearchIndex(VectorIndexName, dropFault);
    if session.sessionId.Some? {
      session.sessionId := None;
    }
    if session.transcripts.Some? {
      session.transcripts := None;
    }
    if session.chatHistory.Some? {
      session.chatHistory := None;
    }
    return ResetDone(dropped.None?);
  }

  /** After a reset that went through, no search finds anything, whatever the session id,
      and the answer is the fixed not-found text. */
  lemma SearchAfterResetFindsNothing(s: StoreState, dropFault: Option<string>, queryVector: Embedding,
                                     sessionId: Option<string>, ranked: seq<Candidate>, query: string,
                                     reply: (string, string) -> Result<string>)
    requires RanksStore(ranked, ResetStore(s, None, dropFault).0.documents)
    ensures var indexes := ResetStore(s, None, dropFault).0.indexes;
      Aggregate(SearchPipeline(queryVector, sessionId), indexes, ranked) == Success([]) &&
      AnswerFor(query, Aggregate(SearchPipeline(queryVector, sessionId), indexes, ranked), reply) == Response(NotFoundAnswer, [])
  {
    assert |multiset(DocsOf(ranked))| == |ranked|;
  }

  /** A reset that dropped the index, followed by an index step in which nothing fails,
      leaves exactly one `vector_index` again. */
  lemma ResetThenIndexStepRecreatesIndex(s: StoreState)
    requires ResetStore(s, None, None).1 == ResetDone(true)
    ensures var cleared := ResetStore(s, None, None).0;
      var (indexes, status) := EnsureVectorIndex(cleared.indexes, None, None);
      status == IndexCreated && CountNamed(indexes, VectorIndexName) == 1
  {
  }
}
