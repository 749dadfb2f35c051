/** The main conversation (hooks/useChat.ts): the stored log, how a question is turned into a
    prompt (plain, or wrapped in the retrieved documents), how the streamed answer fills the
    placeholder reply, and how a failure replaces it with an error notice. */
module UseChat {
  import opened Wrappers
  import opened Types
  import opened Strings
  import opened Seqs
  import opened Constants
  import opened StreamReducer
  import opened GeminiService

  /** The log a fresh or cleared conversation starts with. */
  const InitialMessage: Message := Message("initial", System, "Awaiting transmission. The recursive loop is live.")

  /** The instruction that precedes retrieved documents in a document-grounded prompt. */
  const RagSystemInstruction: string :=
    "You are PHILOVOID. Your only source of truth for this response is the \'Retrieved Context\' provided below from the user\'s uploaded documents. You MUST NOT use your general training knowledge.\n- Answer the user\'s question exclusively based on this retrieved context.\n- If the answer is not in the context, you MUST state: \'That information is not available in your uploaded documents.\'\n- You MUST cite your sources. After providing information from a document, reference the source file, like [from \'document_name.txt\'].\n"

  /** What precedes the error's message in the reply slot of a failed turn. */
  const MainErrorPrefix: string := "Error: Could not reach the void. "

  /** The log at start-up from what storage held: `None` when nothing was stored or it did not
      parse as an array. A stored non-empty array is taken as is; anything else gives the
      initial log. */
  function LoadHistory(stored: Option<seq<Message>>): (log: seq<Message>)
    ensures |log| > 0
    ensures stored.Some? && |stored.value| > 0 ==> log == stored.value
    ensures stored.None? || |stored.value| == 0 ==> log == [InitialMessage]
  {
    if stored.Some? && |stored.value| > 0 then stored.value else [InitialMessage]
  }

  /** A document the chat draws on: enabled, with non-empty content (`f.enabled && f.content`). */
  predicate UsableDocument(f: KnowledgeFile)
  {
    f.enabled && f.content != ""
  }

  /** The usable documents in upload order. */
  function EnabledFiles(files: seq<KnowledgeFile>): (used: seq<KnowledgeFile>)
    ensures forall i :: 0 <= i < |files| ==> (files[i] in used <==> UsableDocument(files[i]))
    ensures forall j :: 0 <= j < |used| ==> UsableDocument(used[j]) && used[j] in files
  {
    Filter(UsableDocument, files)
  }

  /** The prompt text a turn sends, and whether it is document-grounded. */
  datatype Assembled = Assembled(text: string, isRag: bool)

  /** A document-grounded prompt: instruction, the documents between context markers, then the question. */
  function RagPrompt(context: string, prompt: string): string
  {
    RagSystemInstruction + "\n\n--- RETRIEVED CONTEXT ---\n" + context + "\n--- END OF CONTEXT ---\n\nUser's Question: " + prompt
  }

  /** The prompt for `prompt` given the knowledge base: unchanged when no document is usable,
      otherwise wrapped around every usable document. */
  function AssemblePrompt(prompt: string, files: seq<KnowledgeFile>): (r: Assembled)
    ensures r.isRag <==> exists i :: 0 <= i < |files| && UsableDocument(files[i])
    ensures !r.isRag ==> r.text == prompt
    ensures r.isRag ==> r.text == RagPrompt(DocumentContent(EnabledFiles(files)), prompt)
  {
    var used := EnabledFiles(files);
    if |used| > 0 then
      assert used[0] in files;
      Assembled(RagPrompt(DocumentContent(used), prompt), true)
    else
      assert forall i :: 0 <= i < |files| ==> !UsableDocument(files[i]);
      Assembled(prompt, false)
  }

  /** A grounded prompt ends with the user's question, verbatim. */
  lemma RagPromptEndsWithQuestion(prompt: string, files: seq<KnowledgeFile>)
    ensures var text := AssemblePrompt(prompt, files).text;
            |prompt| <= |text| && text[|text| - |prompt|..] == prompt
  {
    var text := AssemblePrompt(prompt, files).text;
    if AssemblePrompt(prompt, files).isRag {
      var head := RagSystemInstruction + "\n\n--- RETRIEVED CONTEXT ---\n" + DocumentContent(EnabledFiles(files))
                  + "\n--- END OF CONTEXT ---\n\nUser's Question: ";
      assert text == head + prompt;
      assert text[|head|..] == prompt;
    }
  }

  /** Every usable document appears in a grounded prompt as its own block, after the blocks of the
      usable documents uploaded before it and before those uploaded after it. */
  lemma RetrievedDocumentLayout(prompt: string, files: seq<KnowledgeFile>, i: nat)
    requires i < |EnabledFiles(files)|
    ensures var used := EnabledFiles(files);
            AssemblePrompt(prompt, files).text
            == RagPrompt((if i == 0 then "" else DocumentContent(used[..i]) + "\n\n")
                         + DocumentBlock(used[i])
                         + (if i == |used| - 1 then "" else "\n\n" + DocumentContent(used[i + 1..])),
                         prompt)
  {
    var used := EnabledFiles(files);
    assert used[i] in files;
    DocumentBlockAt(used, i);
  }

  /** The context budget constant is declared but nothing reads it: a single enabled document of
      30001 characters produces a prompt longer than the budget. */
  lemma ContextBudgetUnenforced()
    ensures var f := KnowledgeFile("doc", "doc.txt", seq(MaxContextCharacters + 1, _ => 'a'), true, 0, "", []);
            |AssemblePrompt("q", [f]).text| > MaxContextCharacters
  {
    var f := KnowledgeFile("doc", "doc.txt", seq(MaxContextCharacters + 1, _ => 'a'), true, 0, "", []);
    assert UsableDocument(f);
    var blocks := DocumentBlocks([f]);
    assert Join(blocks, "\n\n") == blocks[0];
    assert |DocumentBlock(f)| > MaxContextCharacters;
  }

  /** The reply slot once the turn is over: the error notice (now a System message) if the stream
      threw, the placeholder if it ended without a chunk, otherwise the chunks' concatenation. */
  function ReplySlot(replyId: string, s: Stream): (m: Message)
    ensures m.id == replyId
    ensures m.sender == System <==> s.failure.Some?
    ensures m.sender != System ==> m.sender == AI
  {
    if s.failure.Some? then Message(replyId, System, MainErrorPrefix + ErrorMessage(s.failure.value))
    else Message(replyId, AI, if s.chunks == [] then Pending else Concat(s.chunks))
  }

  /** The stream a turn consumes: the service's key check, then the model's answer. */
  function TurnStream(log: seq<Message>, prompt: string, files: seq<KnowledgeFile>, isDeepThought: bool,
                      apiKey: Option<string>, reply: Stream): Stream
  {
    var assembled := AssemblePrompt(prompt, files);
    Delivered(StreamResponse(apiKey, assembled.text, log, isDeepThought, assembled.isRag), reply)
  }

  /** The log after a completed turn: the question and the settled reply slot appended. */
  function AfterSend(log: seq<Message>, prompt: string, files: seq<KnowledgeFile>, isDeepThought: bool,
                     apiKey: Option<string>, userId: string, replyId: string, reply: Stream): (r: seq<Message>)
    ensures |r| == |log| + 2 && r[..|log|] == log
    ensures r[|log|] == Message(userId, User, prompt)
    ensures r[|log| + 1] == ReplySlot(replyId, TurnStream(log, prompt, files, isDeepThought, apiKey, reply))
  {
    log + [Message(userId, User, prompt), ReplySlot(replyId, TurnStream(log, prompt, files, isDeepThought, apiKey, reply))]
  }

  /** Without an API key no request leaves, and the reply slot becomes the key error whatever the
      model would have said. */
  lemma MissingKeyTurn(log: seq<Message>, prompt: string, files: seq<KnowledgeFile>, isDeepThought: bool,
                       apiKey: Option<string>, userId: string, replyId: string, reply: Stream)
    requires !HasApiKey(apiKey)
    ensures AfterSend(log, prompt, files, isDeepThought, apiKey, userId, replyId, reply)[|log| + 1]
            == Message(replyId, System, MainErrorPrefix + MissingKeyForChat)
  {
  }

  /** A turn's two messages enter the history exactly when each qualifies on its own. */
  lemma TurnHistory(log: seq<Message>, question: Message, slot: Message)
    ensures ChatHistory(log + [question, slot])
            == ChatHistory(log)
             + (if InChatHistory(question) then [AsContent(question)] else [])
             + (if InChatHistory(slot) then [AsContent(slot)] else [])
  {
    var turn := [question, slot];
    ChatHistoryAppend(log, turn);
    assert turn[1..][1..] == [];
    assert Filter(InChatHistory, turn)
        == (if InChatHistory(question) then [question] else []) + (if InChatHistory(slot) then [slot] else []);
  }

  /** A failed turn discards whatever chunks arrived, and the next turn's history holds the
      question but not the error notice. */
  lemma FailedTurnHistory(log: seq<Message>, prompt: string, files: seq<KnowledgeFile>, isDeepThought: bool,
                          apiKey: Option<string>, userId: string, replyId: string, reply: Stream)
    requires TurnStream(log, prompt, files, isDeepThought, apiKey, reply).failure.Some?
    requires prompt != Pending
    ensures ChatHistory(AfterSend(log, prompt, files, isDeepThought, apiKey, userId, replyId, reply))
            == ChatHistory(log) + [Content(UserRole, prompt)]
  {
    var r := AfterSend(log, prompt, files, isDeepThought, apiKey, userId, replyId, reply);
    assert r == log + [r[|log|], r[|log| + 1]];
    TurnHistory(log, r[|log|], r[|log| + 1]);
  }

  /** A turn whose stream ends normally with some text enters the next turn's history as the
      question followed by the model's whole answer. */
  lemma AnsweredTurnHistory(log: seq<Message>, prompt: string, files: seq<KnowledgeFile>, isDeepThought: bool,
                            apiKey: Option<string>, userId: string, replyId: string, reply: Stream)
    requires HasApiKey(apiKey) && reply.failure.None? && reply.chunks != []
    requires prompt != Pending && Concat(reply.chunks) != Pending
    ensures ChatHistory(AfterSend(log, prompt, files, isDeepThought, apiKey, userId, replyId, reply))
            == ChatHistory(log) + [Content(UserRole, prompt), Content(ModelRole, Concat(reply.chunks))]
  {
    AnsweredTurnShape(log, prompt, files, isDeepThought, apiKey, userId, replyId, reply);
    TurnHistory(log, Message(userId, User, prompt), Message(replyId, AI, Concat(reply.chunks)));
  }

  /** With a key and a stream that ends normally, the turn appends the question and the answer text. */
  lemma AnsweredTurnShape(log: seq<Message>, prompt: string, files: seq<KnowledgeFile>, isDeepThought: bool,
                          apiKey: Option<string>, userId: string, replyId: string, reply: Stream)
    requires HasApiKey(apiKey) && reply.failure.None? && reply.chunks != []
    ensures AfterSend(log, prompt, files, isDeepThought, apiKey, userId, replyId, reply)
            == log + [Message(userId, User, prompt), Message(replyId, AI, Concat(reply.chunks))]
  {
    assert TurnStream(log, prompt, files, isDeepThought, apiKey, reply) == reply;
  }

  /** The conversation state the hook holds. */
  class ChatStore {
    var messages: seq<Message>
    var isLoading: bool

    /** The log is never empty. */
    ghost predicate Valid()
      reads this
    {
      |messages| > 0
    }

    /** The hook's initial state, from what storage held. */
    constructor (stored: Option<seq<Message>>)
      ensures Valid() && messages == LoadHistory(stored) && !isLoading
    {
      messages := LoadHistory(stored);
      isLoading := false;
    }

    /** `sendMessage`: ignored while a turn is running; otherwise appends the question and a
        placeholder reply, streams the answer into the placeholder chunk by chunk, and on a throw
        turns the placeholder into an error notice. `sent` is the request that left, if any. */
    method SendMessage(prompt: string, files: seq<KnowledgeFile>, isDeepThought: bool, apiKey: Option<string>,
                       userId: string, replyId: string, reply: Stream) returns (sent: Option<ChatRequest>)
      requires Valid()
      modifies this
      ensures Valid()
      ensures old(isLoading) ==> messages == old(messages) && isLoading && sent.None?
      ensures !old(isLoading) ==> !isLoading
      ensures !old(isLoading) ==>
                messages == AfterSend(old(messages), prompt, files, isDeepThought, apiKey, userId, replyId, reply)
      ensures !old(isLoading) ==>
                var assembled := AssemblePrompt(prompt, files);
                var call := StreamResponse(apiKey, assembled.text, old(messages), isDeepThought, assembled.isRag);
                sent == if call.Success? then Some(call.value) else None
    {
      sent := None;
      if isLoading {
        return;
      }
      isLoading := true;
      var history := messages;
      var base := messages + [Message(userId, User, prompt)];
      messages := base + [Message(replyId, AI, Pending)];
      var assembled := AssemblePrompt(prompt, files);
      var call := StreamResponse(apiKey, assembled.text, history, isDeepThought, assembled.isRag);
      if call.Success? {
        sent := Some(call.value);
      }
      ConsumeStream(base, replyId, Delivered(call, reply));
      isLoading := false;
    }

    /** The `for await` loop and its `catch`: each chunk extends the accumulated text shown in the
        reply slot; a throw then replaces the slot's sender and content with the error notice. */
    method ConsumeStream(base: seq<Message>, replyId: string, stream: Stream)
      requires messages == base + [Message(replyId, AI, Pending)]
      modifies this
      ensures messages == base + [ReplySlot(replyId, stream)] && isLoading == old(isLoading)
    {
      var accumulated := "";
      var i := 0;
      while i < |stream.chunks|
        invariant 0 <= i <= |stream.chunks|
        invariant accumulated == Concat(stream.chunks[..i])
        invariant messages == base + [Message(replyId, AI, if i == 0 then Pending else accumulated)]
        invariant isLoading == old(isLoading)
      {
        AccumulateStep(stream.chunks, i);
        ReplaceLastOf(base, messages[|base|], Message(replyId, AI, accumulated + stream.chunks[i]));
        accumulated := accumulated + stream.chunks[i];
        messages := WithLastContent(messages, accumulated);
        i := i + 1;
      }
      assert stream.chunks[..i] == stream.chunks;
      assert i == 0 <==> stream.chunks == [];
      if stream.failure.Some? {
        var last := messages[|messages| - 1];
        var notice := last.(sender := System, content := MainErrorPrefix + ErrorMessage(stream.failure.value));
        ReplaceLastOf(base, last, notice);
        messages := ReplaceLast(messages, notice);
      }
    }

    /** `addSystemMessage`: appends a System message. */
    method AddSystemMessage(id: string, content: string)
      requires Valid()
      modifies this
      ensures Valid() && isLoading == old(isLoading)
      ensures messages == old(messages) + [Message(id, System, content)]
    {
      messages := messages + [Message(id, System, content)];
    }

    /** `clearMessages`: back to the initial log (the stored copy is dropped with it). */
    method ClearMessages()
      requires Valid()
      modifies this
      ensures Valid() && isLoading == old(isLoading)
      ensures messages == [InitialMessage]
    {
      messages := [InitialMessage];
    }
  }
}
