/** `search_and_generate_response`: embed the query, run the search pipeline, and answer
    from what comes back. */
module Answer {
  import opened Wrappers
  import opened Services
  import opened Search

  const SearchErrorPrefix: string := "搜索時發生錯誤: "
  const NotFoundAnswer: string := "抱歉，我在資料庫中找不到相關資訊。"
  const GenerationErrorPrefix: string := "生成回答時發生錯誤: "
  const ContextSeparator: string := "\n\n---\n\n"

  /** Python's IndexError message for `embeddings[0]` on an empty list. */
  const EmptyEmbeddingsError: string := "list index out of range"

  /** The answer text and the search results shown as its sources. */
  datatype Response = Response(answer: string, results: seq<SearchResult>)

  /** `sep.join(xs)`. */
  function Join(xs: seq<string>, sep: string): (joined: string) {
    if xs == [] then ""
    else if |xs| == 1 then xs[0]
    else xs[0] + sep + Join(xs[1..], sep)
  }

  /** Where element i starts in `Join(xs, sep)`: after every earlier element and one separator each. */
  function Offset(xs: seq<string>, sep: string, i: nat): (k: nat)
    requires i <= |xs|
  {
    if i == 0 then 0 else |xs[0]| + |sep| + Offset(xs[1..], sep, i - 1)
  }

  /** t occurs in s starting at position k. */
  predicate At(s: string, k: nat, t: string) {
    k + |t| <= |s| && s[k..k + |t|] == t
  }

  lemma AtPrefix(a: string, b: string)
    ensures At(a + b, 0, a)
  {
    assert (a + b)[..|a|] == a;
  }

  lemma AtAppendLeft(a: string, b: string, k: nat, t: string)
    requires At(a, k, t)
    ensures At(a + b, k, t)
  {
    assert (a + b)[k..k + |t|] == a[k..k + |t|];
  }

  lemma AtAppendRight(a: string, b: string, k: nat, t: string)
    requires At(b, k, t)
    ensures At(a + b, |a| + k, t)
  {
    assert (a + b)[|a| + k..|a| + k + |t|] == b[k..k + |t|];
  }

  lemma AtSelf(a: string)
    ensures At(a, 0, a)
  {
    assert a[0..|a|] == a;
  }

  lemma AtWithin(p: string, at: nat, c: string, k: nat, t: string)
    requires At(p, at, c) && At(c, k, t)
    ensures At(p, at + k, t)
  {
    var q := p[at..at + |c|];
    assert q == c;
    forall m | 0 <= m < |t|
      ensures p[at + k..at + k + |t|][m] == t[m]
    {
      assert p[at + k..at + k + |t|][m] == q[k + m];
      assert q[k + m] == c[k..k + |t|][m];
    }
  }

  /** `Join` of two or more elements: the first, a separator, then the join of the rest. */
  lemma JoinCons(xs: seq<string>, sep: string)
    requires |xs| >= 2
    ensures Join(xs, sep) == (xs[0] + sep) + Join(xs[1..], sep)
    ensures Join(xs, sep) == xs[0] + (sep + Join(xs[1..], sep))
  {
  }

  /** The joined string holds element i at `Offset(xs, sep, i)`. */
  lemma {:induction false} JoinAt(xs: seq<string>, sep: string, i: nat)
    requires i < |xs|
    ensures At(Join(xs, sep), Offset(xs, sep, i), xs[i])
  {
    if |xs| == 1 {
      AtPrefix(xs[0], "");
      assert xs[0] + "" == xs[0];
    } else if i == 0 {
      JoinCons(xs, sep);
      AtPrefix(xs[0], sep + Join(xs[1..], sep));
    } else {
      JoinCons(xs, sep);
      JoinAt(xs[1..], sep, i - 1);
      assert xs[1..][i - 1] == xs[i];
      AtAppendRight(xs[0] + sep, Join(xs[1..], sep), Offset(xs[1..], sep, i - 1), xs[i]);
    }
  }

  /** A separator follows every element but the last. */
  lemma {:induction false} JoinSeparatorAfter(xs: seq<string>, sep: string, i: nat)
    requires i + 1 < |xs|
    ensures At(Join(xs, sep), Offset(xs, sep, i) + |xs[i]|, sep)
  {
    JoinCons(xs, sep);
    if i == 0 {
      AtPrefix(sep, Join(xs[1..], sep));
      AtAppendRight(xs[0], sep + Join(xs[1..], sep), 0, sep);
    } else {
      JoinSeparatorAfter(xs[1..], sep, i - 1);
      assert xs[1..][i - 1] == xs[i];
      AtAppendRight(xs[0] + sep, Join(xs[1..], sep), Offset(xs[1..], sep, i - 1) + |xs[i]|, sep);
    }
  }

  /** The joined string ends with the last element. */
  lemma {:induction false} JoinLength(xs: seq<string>, sep: string)
    requires xs != []
    ensures |Join(xs, sep)| == Offset(xs, sep, |xs| - 1) + |xs[|xs| - 1]|
  {
    if |xs| >= 2 {
      JoinCons(xs, sep);
      JoinLength(xs[1..], sep);
    }
  }

  /** Consecutive elements are one separator apart. */
  lemma {:induction false} OffsetStep(xs: seq<string>, sep: string, i: nat)
    requires i + 1 < |xs|
    ensures Offset(xs, sep, i + 1) == Offset(xs, sep, i) + |xs[i]| + |sep|
  {
    if i > 0 {
      OffsetStep(xs[1..], sep, i - 1);
    }
  }

  /** Every element sits at its offset in the joined string, and a separator follows every
      element but the last. */
  lemma JoinPlaces(xs: seq<string>, sep: string)
    ensures forall i :: 0 <= i < |xs| ==> At(Join(xs, sep), Offset(xs, sep, i), xs[i])
    ensures forall i :: 0 <= i < |xs| - 1 ==> At(Join(xs, sep), Offset(xs, sep, i) + |xs[i]|, sep)
  {
    forall i | 0 <= i < |xs|
      ensures At(Join(xs, sep), Offset(xs, sep, i), xs[i])
    {
      JoinAt(xs, sep, i);
    }
    forall i | 0 <= i < |xs| - 1
      ensures At(Join(xs, sep), Offset(xs, sep, i) + |xs[i]|, sep)
    {
      JoinSeparatorAfter(xs, sep, i);
    }
  }

  /** The extent of the joined string: consecutive elements are one separator apart, and the
      string ends with the last element (an empty list joins to ""). */
  lemma JoinExtent(xs: seq<string>, sep: string)
    ensures forall i :: 0 <= i < |xs| - 1 ==> Offset(xs, sep, i + 1) == Offset(xs, sep, i) + |xs[i]| + |sep|
    ensures xs == [] ==> Join(xs, sep) == ""
    ensures xs != [] ==> |Join(xs, sep)| == Offset(xs, sep, |xs| - 1) + |xs[|xs| - 1]|
  {
    forall i | 0 <= i < |xs| - 1
      ensures Offset(xs, sep, i + 1) == Offset(xs, sep, i) + |xs[i]| + |sep|
    {
      OffsetStep(xs, sep, i);
    }
    if xs != [] {
      JoinLength(xs, sep);
    }
  }

  /** The texts of the results, in result order. */
  function Texts(results: seq<SearchResult>): (ts: seq<string>)
    ensures |ts| == |results|
    ensures forall i :: 0 <= i < |results| ==> ts[i] == results[i].text
  {
    seq(|results|, i requires 0 <= i < |results| => results[i].text)
  }

  /** `merged_context`, the separator join of the result texts: text i sits at
      `Offset(texts, separator, i)`, a separator follows every text but the last, consecutive
      texts are one separator apart, and the context ends with the last text. */
  function MergedContext(texts: seq<string>): (r: string)
    ensures forall i :: 0 <= i < |texts| ==> At(r, Offset(texts, ContextSeparator, i), texts[i])
    ensures forall i :: 0 <= i < |texts| - 1 ==> At(r, Offset(texts, ContextSeparator, i) + |texts[i]|, ContextSeparator)
    ensures forall i :: 0 <= i < |texts| - 1 ==>
      Offset(texts, ContextSeparator, i + 1) == Offset(texts, ContextSeparator, i) + |texts[i]| + |ContextSeparator|
    ensures texts == [] ==> r == ""
    ensures texts != [] ==> |r| == Offset(texts, ContextSeparator, |texts| - 1) + |texts[|texts| - 1]|
  {
    JoinPlaces(texts, ContextSeparator);
    JoinExtent(texts, ContextSeparator);
    Join(texts, ContextSeparator)
  }

  const PromptHead: string := "Context information is below.\n" + "----------------------- \n"
  const PromptMiddle: string :=
    "\n" + "----------------------- \n"
    + "Given the context information above, think step by step "
    + "to answer the query in a crisp manner. Please answer in Traditional Chinese.\n"

  /** The query line and the answer cue that close the prompt. */
  function PromptTail(query: string): (tail: string) {
    "Query: " + query + "\n" + "Answer: "
  }

  /** The prompt: the header, the context, the instructions, then "Query: <query>" and
      "Answer: ", and nothing else. */
  function Prompt(context: string, query: string): (p: string)
    ensures |p| == |PromptHead| + |context| + |PromptMiddle| + |PromptTail(query)|
    ensures At(p, 0, PromptHead)
    ensures At(p, |PromptHead|, context)
    ensures At(p, |PromptHead| + |context|, PromptMiddle)
    ensures At(p, |PromptHead| + |context| + |PromptMiddle|, PromptTail(query))
  {
    Frame(PromptHead, context, PromptMiddle, PromptTail(query))
  }

  /** Four strings laid end to end: each sits right after the ones before it, and the whole is
      exactly as long as the four together. */
  function Frame(head: string, context: string, middle: string, tail: string): (p: string)
    ensures |p| == |head| + |context| + |middle| + |tail|
    ensures At(p, 0, head)
    ensures At(p, |head|, context)
    ensures At(p, |head| + |context|, middle)
    ensures At(p, |head| + |context| + |middle|, tail)
  {
    var a, b, c, d := head, context, middle, tail;
    AtPrefix(a, b);
    AtSelf(b);
    AtAppendRight(a, b, 0, b);
    AtAppendLeft(a + b, c, 0, a);
    AtAppendLeft(a + b, c, |a|, b);
    AtSelf(c);
    AtAppendRight(a + b, c, 0, c);
    AtAppendLeft(a + b + c, d, 0, a);
    AtAppendLeft(a + b + c, d, |a|, b);
    AtAppendLeft(a + b + c, d, |a| + |b|, c);
    AtSelf(d);
    AtAppendRight(a + b + c, d, 0, d);
    a + b + c + d
  }

  /** The prompt sent for a list of results carries result i's text at
      `|PromptHead| + Offset(texts, separator, i)`, so every text is in it, in result order. */
  lemma PromptCarriesResult(results: seq<SearchResult>, query: string, i: nat)
    requires i < |results|
    ensures At(Prompt(MergedContext(Texts(results)), query), |PromptHead| + Offset(Texts(results), ContextSeparator, i), results[i].text)
  {
    var context := MergedContext(Texts(results));
    var p := Prompt(context, query);
    var at := |PromptHead|;
    assert At(p, at, context);
    AtWithin(p, at, context, Offset(Texts(results), ContextSeparator, i), results[i].text);
  }

  /** Whether the language model is asked at all: only when the search succeeded with results. */
  predicate CallsLlm(searched: Result<seq<SearchResult>>) {
    searched.Success? && searched.value != []
  }

  /** The outcome once the search has run, given the model's reply function. */
  function AnswerFor(query: string, searched: Result<seq<SearchResult>>, reply: (string, string) -> Result<string>): (r: Response)
    ensures r.results == [] <==> !CallsLlm(searched)
    ensures searched.Failure? ==> r.answer == SearchErrorPrefix + searched.error
    ensures searched == Success([]) ==> r.answer == NotFoundAnswer
    ensures CallsLlm(searched) ==> (
      && r.results == searched.value
      && match reply(GenerationModel, Prompt(MergedContext(Texts(searched.value)), query))
         case Success(text) => r.answer == text
         case Failure(e) => r.answer == GenerationErrorPrefix + e)
  {
    match searched
    case Failure(e) => Response(SearchErrorPrefix + e, [])
    case Success(results) =>
      if results == [] then Response(NotFoundAnswer, [])
      else
        var prompt := Prompt(MergedContext(Texts(results)), query);
        match reply(GenerationModel, prompt)
        case Success(text) => Response(text, results)
        case Failure(e) => Response(GenerationErrorPrefix + e, results)
  }

  /** `search_and_generate_response(query, vo, collection, llm, session_id)`. `aggregate` is
      the collection's `aggregate`; an exception from embedding the query is not caught here
      and comes back as `Failure`. */
  method SearchAndGenerateResponse(query: string, embed: Embedder, aggregate: seq<Stage> -> Result<seq<SearchResult>>,
                                   llm: Llm, sessionId: Option<string>) returns (r: Result<Response>)
    modifies llm`prompts
    ensures var embedded := embed(EmbedRequest([query], EmbeddingModel, QueryInput));
      match embedded
      case Failure(e) => r == Failure(e) && llm.prompts == old(llm.prompts)
      case Success(vectors) =>
        if vectors == [] then r == Failure(EmptyEmbeddingsError) && llm.prompts == old(llm.prompts)
        else
          var searched := aggregate(SearchPipeline(vectors[0], sessionId));
          r == Success(AnswerFor(query, searched, llm.reply)) &&
          llm.prompts == old(llm.prompts) + (if CallsLlm(searched) then [Prompt(MergedContext(Texts(searched.value)), query)] else [])
  {
    var embedded := embed(EmbedRequest([query], EmbeddingModel, QueryInput));
    if embedded.Failure? {
      return Failure(embedded.error);
    }
    if embedded.value == [] {
      return Failure(EmptyEmbeddingsError);
    }
    var queryVector := embedded.value[0];
    var pipeline := BuildSearchPipeline(queryVector, sessionId);
    var searched := aggregate(pipeline);
    if searched.Failure? {
      return Success(Response(SearchErrorPrefix + searched.error, []));
    }
    var results := searched.value;
    if results == [] {
      return Success(Response(NotFoundAnswer, []));
    }
    var mergedContext := MergedContext(Texts(results));
    var prompt := Prompt(mergedContext, query);
    var generated := llm.GenerateContent(GenerationModel, prompt);
    var answer := if generated.Success? then generated.value else GenerationErrorPrefix + generated.error;
    return Success(Response(answer, results));
  }
}
