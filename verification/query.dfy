/**
 * Retrieval and prompt assembly in `query_document` (functions.py): the top four chunks
 * of the similarity search are joined into a context block, which is wrapped into a
 * single prompt for the chat-completion call.
 *
 * Chroma's ranking is opaque: `ranked` stands for the collection's chunks in the order
 * Chroma ranks them against the query, and `similarity_search(query, k=4)` keeps the
 * first four of them. The completion itself is remote; the model stops at the request.
 */
module Query {
  import opened Wrappers
  import Store
  import Credentials

  /** `k` of `similarity_search` */
  const SearchK: nat := 4

  const ContextSeparator: string := "\n\n"

  const Instruction: string :=
    "Answer the question using *only* the context below. If the context is irrelevant, say so politely.\n\n"

  const ContextTag: string := "Context:\n"

  const QuestionTag: string := "\n\nQuestion: "

  const ChatModel: string := "gpt-4o-mini"

  const MaxTokens: nat := 512

  /** `vectorstore.similarity_search(query, k)` over the ranking `ranked`: the first `k`
      chunks in ranking order, or all of them when there are fewer. */
  function SimilaritySearch(ranked: seq<Store.Chunk>, k: nat): (found: seq<Store.Chunk>)
    ensures found <= ranked
    ensures |found| == if |ranked| < k then |ranked| else k
  {
    if |ranked| <= k then ranked else ranked[..k]
  }

  /** The texts of the chunks, in order (`d.page_content for d in context_docs`). */
  function Texts(chunks: seq<Store.Chunk>): (ts: seq<string>)
    ensures |ts| == |chunks|
    ensures forall i :: 0 <= i < |chunks| ==> ts[i] == chunks[i].text
  {
    seq(|chunks|, i requires 0 <= i < |chunks| => chunks[i].text)
  }

  /** `sep.join(parts)` */
  function Join(sep: string, parts: seq<string>): (j: string)
    ensures |parts| == 0 ==> j == ""
    ensures |parts| > 0 ==> parts[0] <= j
    ensures |parts| > 1 ==> parts[0] + sep <= j
  {
    if |parts| == 0 then ""
    else if |parts| == 1 then parts[0]
    else parts[0] + sep + Join(sep, parts[1..])
  }

  /** Where `parts[i]` starts in `Join(sep, parts)`: every earlier part and separator before it. */
  function Offset(sep: string, parts: seq<string>, i: nat): nat
    requires i <= |parts|
  {
    if i == 0 then 0 else |parts[0]| + |sep| + Offset(sep, parts[1..], i - 1)
  }

  /** From the offset of `parts[i]` on, a join reads as the join of `parts[i..]`. */
  lemma {:induction false} JoinSuffix(sep: string, parts: seq<string>, i: nat)
    requires i < |parts|
    ensures Offset(sep, parts, i) <= |Join(sep, parts)|
    ensures Join(sep, parts)[Offset(sep, parts, i)..] == Join(sep, parts[i..])
  {
    if i == 0 {
      assert parts[0..] == parts;
    } else {
      var j := Join(sep, parts);
      var rest := Join(sep, parts[1..]);
      var d := |parts[0]| + |sep|;
      assert j == parts[0] + sep + rest;
      assert j[d..] == rest;
      JoinSuffix(sep, parts[1..], i - 1);
      assert parts[1..][i - 1..] == parts[i..];
      assert j[d + Offset(sep, parts[1..], i - 1)..] == rest[Offset(sep, parts[1..], i - 1)..];
    }
  }

  /** The layout of a join: each part stands at its offset, a separator follows every part
      but the last, and the last part ends the string. These facts fix every character. */
  lemma JoinLayout(sep: string, parts: seq<string>, i: nat)
    requires i < |parts|
    ensures var j := Join(sep, parts); var o := Offset(sep, parts, i);
      && o + |parts[i]| <= |j|
      && j[o..o + |parts[i]|] == parts[i]
      && (i + 1 < |parts| ==> o + |parts[i]| + |sep| == Offset(sep, parts, i + 1) <= |j|
                              && j[o + |parts[i]|..Offset(sep, parts, i + 1)] == sep)
      && (i + 1 == |parts| ==> o + |parts[i]| == |j|)
  {
    JoinPartAt(sep, parts, i);
    if i + 1 < |parts| {
      JoinSeparatorAfter(sep, parts, i);
    }
  }

  /** `parts[i]` stands at its offset, and the last part ends the join. */
  lemma JoinPartAt(sep: string, parts: seq<string>, i: nat)
    requires i < |parts|
    ensures var j := Join(sep, parts); var o := Offset(sep, parts, i);
      && o + |parts[i]| <= |j|
      && j[o..o + |parts[i]|] == parts[i]
      && (i + 1 == |parts| ==> o + |parts[i]| == |j|)
  {
    var j := Join(sep, parts);
    var o := Offset(sep, parts, i);
    var n := |parts[i]|;
    JoinSuffix(sep, parts, i);
    if i + 1 < |parts| {
      var rest := Join(sep, parts[i..][1..]);
      assert Join(sep, parts[i..]) == parts[i] + sep + rest;
      MiddleSlice([], parts[i], sep + rest, 0, n);
    } else {
      assert parts[i..] == [parts[i]];
    }
    SuffixSlice(j, o, 0, n);
  }

  /** A separator follows every part but the last. */
  lemma JoinSeparatorAfter(sep: string, parts: seq<string>, i: nat)
    requires i + 1 < |parts|
    ensures var j := Join(sep, parts); var o := Offset(sep, parts, i);
      && o + |parts[i]| + |sep| == Offset(sep, parts, i + 1) <= |j|
      && j[o + |parts[i]|..Offset(sep, parts, i + 1)] == sep
  {
    var j := Join(sep, parts);
    var o := Offset(sep, parts, i);
    var n := |parts[i]|;
    JoinSuffix(sep, parts, i);
    OffsetStep(sep, parts, i);
    var rest := Join(sep, parts[i..][1..]);
    assert Join(sep, parts[i..]) == parts[i] + sep + rest;
    MiddleSlice(parts[i], sep, rest, 0, |sep|);
    SuffixSlice(j, o, n, n + |sep|);
  }

  /** A slice of a suffix is a slice of the whole. */
  lemma SuffixSlice(s: string, o: nat, lo: nat, hi: nat)
    requires o <= |s| && lo <= hi <= |s| - o
    ensures s[o + lo..o + hi] == s[o..][lo..hi]
  {
  }

  /** Each part moves the next offset on by its length and one separator. */
  lemma {:induction false} OffsetStep(sep: string, parts: seq<string>, i: nat)
    requires i + 1 <= |parts|
    ensures i + 1 < |parts| ==> Offset(sep, parts, i + 1) == Offset(sep, parts, i) + |parts[i]| + |sep|
  {
    if i > 0 && i + 1 < |parts| {
      OffsetStep(sep, parts[1..], i - 1);
      assert parts[1..][i - 1] == parts[i];
    }
  }

  /** With a non-empty separator, a join is empty exactly when there is at most one part
      and it is empty. */
  lemma {:induction false} JoinEmptyIff(sep: string, parts: seq<string>)
    requires sep != ""
    ensures Join(sep, parts) == "" <==> |parts| == 0 || (|parts| == 1 && parts[0] == "")
  {
    if |parts| > 1 {
      assert |Join(sep, parts)| >= |sep|;
    }
  }

  /** The context block: the texts of the retrieved chunks joined by a blank line. */
  function BuildContext(found: seq<Store.Chunk>): (context: string)
    ensures |found| == 0 ==> context == ""
    ensures |found| > 0 ==> found[0].text <= context
    ensures |found| > 1 ==> found[0].text + ContextSeparator <= context
  {
    Join(ContextSeparator, Texts(found))
  }

  /** The prompt: the fixed instruction, the tagged context, then the question verbatim. */
  function BuildPrompt(context: string, query: string): (p: string)
    ensures |p| == |Instruction| + |ContextTag| + |context| + |QuestionTag| + |query|
    ensures p[..|Instruction| + |ContextTag|] == Instruction + ContextTag
    ensures p[|Instruction| + |ContextTag|..|Instruction| + |ContextTag| + |context|] == context
    ensures p[|p| - |query| - |QuestionTag|..|p| - |query|] == QuestionTag
    ensures p[|p| - |query|..] == query
  {
    Instruction + ContextTag + context + QuestionTag + query
  }

  /** One chat message: `{"role": role, "content": content}` */
  datatype Message = Message(role: string, content: string)

  /** The request `query_document` sends to the chat-completion endpoint. */
  datatype CompletionRequest = CompletionRequest(client: Credentials.ClientConfig, model: string,
                                                 messages: seq<Message>, maxTokens: nat)

  /** `query_document` up to the remote call. */
  function QueryDocument(ranked: seq<Store.Chunk>, query: string, apiKey: string,
                         projectId: Option<string>): (req: CompletionRequest)
    ensures req.client == Credentials.MakeClient(apiKey, projectId)
    ensures req.model == ChatModel && req.maxTokens == MaxTokens
    ensures |req.messages| == 1 && req.messages[0].role == "user"
  {
    var found := SimilaritySearch(ranked, SearchK);
    CompletionRequest(Credentials.MakeClient(apiKey, projectId), ChatModel,
                      [Message("user", BuildPrompt(BuildContext(found), query))], MaxTokens)
  }

  /** The prompt of the single message of a request. */
  function PromptOf(req: CompletionRequest): string
    requires |req.messages| == 1
  {
    req.messages[0].content
  }

  /** `ranked` orders exactly the chunks of a collection. */
  ghost predicate IsRanking(ranked: seq<Store.Chunk>, collection: seq<Store.Chunk>)
  {
    multiset(ranked) == multiset(collection)
  }

  /** Every retrieved chunk belongs to the collection, and a collection of at most four
      chunks is retrieved whole. */
  lemma RetrievedFromCollection(ranked: seq<Store.Chunk>, collection: seq<Store.Chunk>)
    requires IsRanking(ranked, collection)
    ensures forall c :: c in SimilaritySearch(ranked, SearchK) ==> c in collection
    ensures |collection| <= SearchK ==> multiset(SimilaritySearch(ranked, SearchK)) == multiset(collection)
  {
    var found := SimilaritySearch(ranked, SearchK);
    forall c | c in found
      ensures c in collection
    {
      assert c in multiset(ranked);
    }
    assert |ranked| == |multiset(collection)| == |collection|;
  }

  /** The context is empty exactly when nothing was retrieved or the one chunk retrieved
      has no text; in particular an empty collection gives an empty context. */
  lemma ContextEmptyIff(found: seq<Store.Chunk>)
    ensures BuildContext(found) == "" <==> |found| == 0 || (|found| == 1 && found[0].text == "")
  {
    JoinEmptyIff(ContextSeparator, Texts(found));
  }

  /** Where the text of the `i`-th retrieved chunk stands in the prompt. */
  function ChunkPosition(found: seq<Store.Chunk>, i: nat): nat
    requires i < |found|
  {
    |Instruction| + |ContextTag| + Offset(ContextSeparator, Texts(found), i)
  }

  /** A slice of the middle of a concatenation is the same slice of the middle part. */
  lemma MiddleSlice(a: string, m: string, b: string, lo: nat, hi: nat)
    requires lo <= hi <= |m|
    ensures |a| + hi <= |a + m + b|
    ensures (a + m + b)[|a| + lo..|a| + hi] == m[lo..hi]
  {
    var s := a + m + b;
    assert forall k :: lo <= k < hi ==> s[|a| + k] == m[k];
  }

  /** The prompt as its three parts: the head, the context and the question. */
  lemma PromptParts(context: string, query: string)
    ensures BuildPrompt(context, query) == (Instruction + ContextTag) + context + (QuestionTag + query)
  {
  }

  /** A slice of the context part of a prompt is the same slice of the context. */
  lemma PromptSlice(context: string, query: string, lo: nat, hi: nat)
    requires lo <= hi <= |context|
    ensures var h := |Instruction| + |ContextTag|;
      h + hi <= |BuildPrompt(context, query)|
      && BuildPrompt(context, query)[h + lo..h + hi] == context[lo..hi]
  {
    var head := Instruction + ContextTag;
    PromptParts(context, query);
    MiddleSlice(head, context, QuestionTag + query, lo, hi);
  }

  /** The text of the `i`-th retrieved chunk stands at its position in the prompt. */
  lemma PromptHoldsChunk(found: seq<Store.Chunk>, query: string, i: nat)
    requires i < |found|
    ensures var p := BuildPrompt(BuildContext(found), query); var at := ChunkPosition(found, i);
      at + |found[i].text| <= |p| && p[at..at + |found[i].text|] == found[i].text
  {
    var ts := Texts(found);
    JoinLayout(ContextSeparator, ts, i);
    var o := Offset(ContextSeparator, ts, i);
    PromptSlice(BuildContext(found), query, o, o + |ts[i]|);
  }

  /** A blank line follows the text of every retrieved chunk but the last in the prompt. */
  lemma PromptSeparatesChunks(found: seq<Store.Chunk>, query: string, i: nat)
    requires i + 1 < |found|
    ensures var p := BuildPrompt(BuildContext(found), query); var at := ChunkPosition(found, i);
      && at + |found[i].text| + |ContextSeparator| == ChunkPosition(found, i + 1) <= |p|
      && p[at + |found[i].text|..ChunkPosition(found, i + 1)] == ContextSeparator
  {
    var ts := Texts(found);
    JoinLayout(ContextSeparator, ts, i);
    var o := Offset(ContextSeparator, ts, i);
    PromptSlice(BuildContext(found), query, o + |ts[i]|, Offset(ContextSeparator, ts, i + 1));
  }

  /** Every retrieved chunk's text appears in the prompt, in ranking order, each one
      followed by a blank line except the last. */
  lemma PromptHoldsRetrievedChunks(ranked: seq<Store.Chunk>, query: string, apiKey: string,
                                   projectId: Option<string>, i: nat)
    requires i < |SimilaritySearch(ranked, SearchK)|
    ensures var p := PromptOf(QueryDocument(ranked, query, apiKey, projectId));
      var found := SimilaritySearch(ranked, SearchK);
      var at := ChunkPosition(found, i);
      && at + |ranked[i].text| <= |p|
      && p[at..at + |ranked[i].text|] == ranked[i].text
      && (i + 1 < |found| ==> at + |ranked[i].text| + |ContextSeparator| == ChunkPosition(found, i + 1) <= |p|
                              && p[at + |ranked[i].text|..ChunkPosition(found, i + 1)] == ContextSeparator)
  {
    var found := SimilaritySearch(ranked, SearchK);
    assert found[i] == ranked[i];
    PromptHoldsChunk(found, query, i);
    if i + 1 < |found| {
      PromptSeparatesChunks(found, query, i);
    }
  }

  /** The question closes the prompt verbatim, after the question tag. */
  lemma PromptEndsWithQuestion(ranked: seq<Store.Chunk>, query: string, apiKey: string,
                               projectId: Option<string>)
    ensures var p := PromptOf(QueryDocument(ranked, query, apiKey, projectId));
      && |p| >= |QuestionTag| + |query|
      && p[|p| - |query| - |QuestionTag|..|p| - |query|] == QuestionTag
      && p[|p| - |query|..] == query
  {
  }

  /** Chunks ranked below the top four do not influence the request. */
  lemma QueryIgnoresLowerRanked(ranked: seq<Store.Chunk>, ranked': seq<Store.Chunk>, query: string,
                                apiKey: string, projectId: Option<string>)
    requires |ranked| >= SearchK && |ranked'| >= SearchK
    requires ranked[..SearchK] == ranked'[..SearchK]
    ensures QueryDocument(ranked, query, apiKey, projectId) == QueryDocument(ranked', query, apiKey, projectId)
  {
    assert SimilaritySearch(ranked, SearchK) == ranked[..SearchK];
    assert SimilaritySearch(ranked', SearchK) == ranked'[..SearchK];
  }

  /** The chat client is scoped to the project exactly as the embedding client is. */
  lemma QueryUsesEmbeddingScope(ranked: seq<Store.Chunk>, query: string, apiKey: string,
                                projectId: Option<string>)
    ensures QueryDocument(ranked, query, apiKey, projectId).client
         == Credentials.MakeEmbeddings(apiKey, projectId).client
  {
  }

  /** The context of a worked two-chunk collection. */
  lemma ContextExample()
    ensures BuildContext([Store.Chunk("Hello world.", 1), Store.Chunk("Goodbye world.", 2)])
         == "Hello world.\n\nGoodbye world."
  {
    var ranked := [Store.Chunk("Hello world.", 1), Store.Chunk("Goodbye world.", 2)];
    var ts := Texts(ranked);
    assert ts == ["Hello world.", "Goodbye world."];
    assert ts[1..] == ["Goodbye world."];
    assert Join(ContextSeparator, ts[1..]) == "Goodbye world.";
  }

  /** A worked request over a two-chunk collection: the prompt holds the two texts joined
      by a blank line between the context tag and the question. */
  lemma QueryExample()
    ensures PromptOf(QueryDocument([Store.Chunk("Hello world.", 1), Store.Chunk("Goodbye world.", 2)],
                                   "What does the document say?", "sk-abc", None))
         == Instruction + ContextTag + "Hello world.\n\nGoodbye world." + QuestionTag + "What does the document say?"
  {
    var ranked := [Store.Chunk("Hello world.", 1), Store.Chunk("Goodbye world.", 2)];
    assert SimilaritySearch(ranked, SearchK) == ranked;
    ContextExample();
  }
}
