/** `LLMService` (backend/services/llm_service.py): the context block built
    from retrieved documents, the prompt around it, and the chat call.  The
    OpenAI chat client is a function that may fail. */
module Llm {
  import opened Common
  import opened Text
  import opened Documents

  datatype ChatMessage = ChatMessage(role: string, content: string)

  /** `chat.completions.create` with the configured model: the answer text,
      or the exception's message. */
  type ChatFn = seq<ChatMessage> -> Result<string>

  /** A field of a context document as `dict.get` sees it: no such key, a
      key holding None, or a value. */
  datatype Field = Missing | NoneValue | Present(value: MetaValue)

  /** A context document: its "text" and the "file_id" and "chunk_index" of
      its metadata (an absent "metadata" makes both `Missing`). */
  datatype ContextDoc = ContextDoc(text: Field, fileId: Field, chunkIndex: Field)

  /** How a field is formatted into the context by an f-string, with the
      `get` default used when the key is absent. */
  function Render(f: Field, default: string): string {
    match f
    case Missing => default
    case NoneValue => "None"
    case Present(v) => Str(v)
  }

  const SystemPrompt :=
    "You are a helpful assistant that answers questions based on the provided context. "
    + "Use only the information from the context to answer questions. "
    + "If the context doesn't contain enough information to answer the question, "
    + "say 'I don't have enough information in the provided context to answer this question.' "
    + "Be concise and accurate in your responses."

  const PromptInstruction :=
    "Please answer the question based on the context provided above. "
    + "If the context doesn't contain enough information to answer the question, please say so."

  /** The block for document number `i` (counting from 1). */
  function ContextPart(i: nat, doc: ContextDoc): string {
    "Document " + NatToString(i) + " (File: " + Render(doc.fileId, "unknown")
    + ", Chunk: " + Render(doc.chunkIndex, "unknown") + "):\n" + Render(doc.text, "") + "\n"
  }

  function ContextParts(docs: seq<ContextDoc>): (r: seq<string>)
    ensures |r| == |docs|
  {
    seq(|docs|, i requires 0 <= i < |docs| => ContextPart(i + 1, docs[i]))
  }

  /** The context string for a list of documents. */
  function ContextText(docs: seq<ContextDoc>): string {
    Join("\n", ContextParts(docs))
  }

  /** `_prepare_context`: one block per document, numbered from 1, joined
      with newlines. */
  method PrepareContext(documents: seq<ContextDoc>) returns (context: string)
    ensures context == ContextText(documents)
  {
    var contextParts: seq<string> := [];
    for i := 0 to |documents|
      invariant contextParts == ContextParts(documents[..i])
    {
      var doc := documents[i];
      var part := "Document " + NatToString(i + 1) + " (File: " + Render(doc.fileId, "unknown")
        + ", Chunk: " + Render(doc.chunkIndex, "unknown") + "):\n" + Render(doc.text, "") + "\n";
      contextParts := contextParts + [part];
    }
    assert documents[..|documents|] == documents;
    context := Join("\n", contextParts);
  }

  lemma {:induction false} JoinSnoc(sep: string, parts: seq<string>, last: string)
    requires |parts| >= 1
    ensures Join(sep, parts + [last]) == Join(sep, parts) + sep + last
    decreases |parts|
  {
    if |parts| == 1 {
      assert parts + [last] == [parts[0], last];
      assert [parts[0], last][1..] == [last];
    } else {
      assert (parts + [last])[1..] == parts[1..] + [last];
      JoinSnoc(sep, parts[1..], last);
    }
  }

  /** The context of no documents is empty; otherwise adding a document
      appends its block, numbered after the others, behind a newline: the
      blocks appear in input order. */
  lemma ContextAppend(docs: seq<ContextDoc>, doc: ContextDoc)
    ensures ContextText([]) == ""
    ensures docs == [] ==> ContextText([doc]) == ContextPart(1, doc)
    ensures docs != [] ==>
      ContextText(docs + [doc]) == ContextText(docs) + "\n" + ContextPart(|docs| + 1, doc)
  {
    assert ContextParts([]) == [];
    assert ContextParts(docs + [doc]) == ContextParts(docs) + [ContextPart(|docs| + 1, doc)];
    if docs == [] {
      assert ContextParts([doc]) == [ContextPart(1, doc)];
    } else {
      JoinSnoc("\n", ContextParts(docs), ContextPart(|docs| + 1, doc));
    }
  }

  /** Every document's block, and so its text, is in the context. */
  lemma ContextHoldsEveryDocument(docs: seq<ContextDoc>)
    ensures forall i :: 0 <= i < |docs| ==> Contains(ContextText(docs), ContextPart(i + 1, docs[i]))
    ensures forall i :: 0 <= i < |docs| ==> Contains(ContextPart(i + 1, docs[i]), Render(docs[i].text, ""))
  {
    JoinContainsParts("\n", ContextParts(docs));
    forall i | 0 <= i < |docs|
      ensures Contains(ContextText(docs), ContextPart(i + 1, docs[i]))
    {
      assert ContextParts(docs)[i] == ContextPart(i + 1, docs[i]);
    }
    forall i | 0 <= i < |docs|
      ensures Contains(ContextPart(i + 1, docs[i]), Render(docs[i].text, ""))
    {
      var d := docs[i];
      var head := "Document " + NatToString(i + 1) + " (File: " + Render(d.fileId, "unknown")
        + ", Chunk: " + Render(d.chunkIndex, "unknown") + "):\n";
      ContainsMiddle(head, Render(d.text, ""), "\n");
      assert head + Render(d.text, "") + "\n" == ContextPart(i + 1, d);
    }
  }

  /** A document without text, file_id or chunk_index is still listed, as
      "unknown" with empty text. */
  lemma BareDocumentPart(i: nat)
    ensures ContextPart(i, ContextDoc(Missing, Missing, Missing))
      == "Document " + NatToString(i) + " (File: unknown, Chunk: unknown):\n\n"
  {
  }

  /** `_create_prompt`. */
  function CreatePrompt(query: string, context: string): string {
    "Context:\n" + context + "\n\nQuestion: " + query + "\n\n" + PromptInstruction
  }

  /** The prompt opens with the context and states the question after it. */
  lemma PromptOrder(query: string, context: string)
    ensures var p := CreatePrompt(query, context);
      && StartsWith(p, "Context:\n" + context)
      && OccursAt(p, "Question: " + query, |"Context:\n"| + |context| + 2)
      && EndsWith(p, PromptInstruction)
  {
    var p := CreatePrompt(query, context);
    var head := "Context:\n" + context;
    assert p == head + "\n\n" + ("Question: " + query) + "\n\n" + PromptInstruction;
    assert p[..|head|] == head;
    assert p[|head| + 2..|head| + 2 + |"Question: " + query|] == "Question: " + query;
    assert p[|p| - |PromptInstruction|..] == PromptInstruction;
  }

  /** The two messages `generate_response` sends. */
  function Messages(query: string, docs: seq<ContextDoc>): seq<ChatMessage> {
    [ChatMessage("system", SystemPrompt), ChatMessage("user", CreatePrompt(query, ContextText(docs)))]
  }

  /** The outcome of `generate_response`. */
  function ResponseFor(query: string, docs: seq<ContextDoc>, chat: ChatFn): Result<string> {
    match chat(Messages(query, docs))
    case Ok(answer) => Ok(answer)
    case Err(e) => Err("Failed to generate response: " + e)
  }

  /** The user message carries every document's block and the question. */
  lemma UserMessageCarriesContext(query: string, docs: seq<ContextDoc>)
    ensures var user := Messages(query, docs)[1].content;
      && (forall i :: 0 <= i < |docs| ==> Contains(user, ContextPart(i + 1, docs[i])))
      && Contains(user, "Question: " + query)
  {
    var context := ContextText(docs);
    var tail := "\n\nQuestion: " + query + "\n\n" + PromptInstruction;
    assert CreatePrompt(query, context) == "Context:\n" + context + tail;
    ContextHoldsEveryDocument(docs);
    forall i | 0 <= i < |docs|
      ensures Contains(CreatePrompt(query, context), ContextPart(i + 1, docs[i]))
    {
      ContainsWithin("Context:\n", context, tail, ContextPart(i + 1, docs[i]));
    }
    PromptOrder(query, context);
    ContainsAt(CreatePrompt(query, context), "Question: " + query);
  }

  /** `generate_response`: build the context and the prompt, then ask the
      model. */
  method GenerateResponse(query: string, documents: seq<ContextDoc>, chat: ChatFn) returns (r: Result<string>)
    ensures r == ResponseFor(query, documents, chat)
  {
    var context := PrepareContext(documents);
    var prompt := CreatePrompt(query, context);
    var response := chat([ChatMessage("system", SystemPrompt), ChatMessage("user", prompt)]);
    if response.Err? {
      return Err("Failed to generate response: " + response.message);
    }
    r := Ok(response.value);
  }

  /** `health_check`: healthy exactly when a one-message chat succeeds. */
  function LlmHealthCheck(chat: ChatFn): bool {
    chat([ChatMessage("user", "Hello")]).Ok?
  }
}
