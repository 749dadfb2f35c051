/** The gateway to the hosted model (services/geminiService.ts): how the chat log becomes API
    history, which model and options a session uses, how documents and templates become prompt
    text, and the key check every call makes before reaching the network. The network calls
    themselves are not modelled: each function returns the request it would send. */
module GeminiService {
  import opened Wrappers
  import opened Types
  import opened Strings
  import opened Seqs
  import opened Constants
  import opened StreamReducer

  /** The two roles the API's history accepts. */
  datatype Role = UserRole | ModelRole

  /** One turn of API history. */
  datatype Content = Content(role: Role, text: string)

  const ProModel: string := "gemini-2.5-pro"
  const FlashModel: string := "gemini-2.5-flash"

  /** The reasoning budget requested in deep-thought mode and for synthesis. */
  const ThinkingBudget: nat := 32768

  /** What a request asks, as the call builds it: the text itself, or a template and the values
      it is filled with. `PromptText` expands it to the text sent. */
  datatype Prompt =
    | Verbatim(text: string)
    | SynthesisOf(files: seq<KnowledgeFile>)
    | RefinedSynthesisOf(files: seq<KnowledgeFile>, focus: string)
    | FollowUpOf(synthesisContext: string, question: string)
    | AnalysisOf(content: string)

  /** A chat session created with `history` and sent `message` as a streamed turn. */
  datatype ChatRequest = ChatRequest(
    model: string,
    history: seq<Content>,
    systemInstruction: Option<string>,
    thinkingBudget: Option<nat>,
    message: Prompt)

  /** A one-shot generation over `contents`; `jsonResponse` asks for the classification schema. */
  datatype GenerateRequest = GenerateRequest(
    model: string,
    contents: Prompt,
    thinkingBudget: Option<nat>,
    jsonResponse: bool)

  /** The API key is usable: present and not empty (the `!process.env.API_KEY` test). */
  predicate HasApiKey(apiKey: Option<string>)
  {
    apiKey.Some? && apiKey.value != ""
  }

  const MissingKeyForChat: string := "API key not found. Please ensure the API_KEY environment variable is set."
  const MissingKey: string := "API key not found."

  // ---------------------------------------------------------------------------------------------
  // History shaping

  /** A message that belongs in the chat history: said by the user or the model, and not a reply
      still waiting for its first chunk. */
  predicate InChatHistory(m: Message)
  {
    (m.sender == User || m.sender == AI) && m.content != Pending
  }

  /** A message as an API turn: the user's own messages as `user`, everything else as `model`. */
  function AsContent(m: Message): Content
  {
    Content(if m.sender == User then UserRole else ModelRole, m.content)
  }

  /** Every message as an API turn, in order. This is the whole history shaping of follow-up
      questions, which keeps every message. */
  function AsContents(messages: seq<Message>): (history: seq<Content>)
    ensures |history| == |messages|
    ensures forall i :: 0 <= i < |messages| ==>
              history[i].text == messages[i].content && (history[i].role == UserRole <==> messages[i].sender == User)
  {
    seq(|messages|, i requires 0 <= i < |messages| => AsContent(messages[i]))
  }

  /** The history a chat session is created with: the log's user and model messages, without
      pending placeholders, in log order. */
  function ChatHistory(messages: seq<Message>): (history: seq<Content>)
    ensures |history| == CountIf(InChatHistory, messages)
    ensures forall j :: 0 <= j < |history| ==> history[j].text != Pending
  {
    FilterLength(InChatHistory, messages);
    AsContents(Filter(InChatHistory, messages))
  }

  /** Every message that qualifies is in the history, and every history turn comes from a
      qualifying message. */
  lemma ChatHistoryMembers(messages: seq<Message>)
    ensures forall i :: 0 <= i < |messages| && InChatHistory(messages[i]) ==> AsContent(messages[i]) in ChatHistory(messages)
    ensures forall j :: 0 <= j < |ChatHistory(messages)| ==>
              exists i :: 0 <= i < |messages| && InChatHistory(messages[i]) && ChatHistory(messages)[j] == AsContent(messages[i])
  {
    var kept := Filter(InChatHistory, messages);
    var history := ChatHistory(messages);
    forall i | 0 <= i < |messages| && InChatHistory(messages[i]) ensures AsContent(messages[i]) in history {
      var k :| 0 <= k < |kept| && kept[k] == messages[i];
      assert history[k] == AsContent(kept[k]);
    }
    forall j | 0 <= j < |history|
      ensures exists i :: 0 <= i < |messages| && InChatHistory(messages[i]) && history[j] == AsContent(messages[i])
    {
      var i :| 0 <= i < |messages| && messages[i] == kept[j];
      assert history[j] == AsContent(messages[i]);
    }
  }

  /** History shaping keeps log order: the history of a longer log extends the history of its prefix. */
  lemma ChatHistoryAppend(a: seq<Message>, b: seq<Message>)
    ensures ChatHistory(a + b) == ChatHistory(a) + ChatHistory(b)
  {
    FilterAppend(InChatHistory, a, b);
  }

  // ---------------------------------------------------------------------------------------------
  // Session options and the key check

  /** The streamed chat turn `streamResponse` sends: `prompt` on a session created from `messages`. */
  function SessionRequest(messages: seq<Message>, isDeepThought: bool, isRag: bool, prompt: string): (r: ChatRequest)
    ensures r.model == ProModel <==> isDeepThought
    ensures r.systemInstruction.None? <==> isRag
    ensures r.systemInstruction.Some? ==> r.systemInstruction.value == FullSystemPrompt
    ensures r.thinkingBudget.Some? <==> isDeepThought
    ensures r.history == ChatHistory(messages) && r.message == Verbatim(prompt)
  {
    ChatRequest(
      if isDeepThought then ProModel else FlashModel,
      ChatHistory(messages),
      if isRag then None else Some(FullSystemPrompt),
      if isDeepThought then Some(ThinkingBudget) else None,
      Verbatim(prompt))
  }

  /** `streamResponse`: without a key it throws before creating any session; otherwise it sends the
      session request. */
  function StreamResponse(apiKey: Option<string>, prompt: string, history: seq<Message>, isDeepThought: bool, isRag: bool)
    : (r: Result<ChatRequest>)
    ensures r.Failure? <==> !HasApiKey(apiKey)
    ensures r.Failure? ==> r.error == MissingKeyForChat
    ensures r.Success? ==> r.value == SessionRequest(history, isDeepThought, isRag, prompt)
  {
    if !HasApiKey(apiKey) then Failure(MissingKeyForChat)
    else Success(SessionRequest(history, isDeepThought, isRag, prompt))
  }

  // ---------------------------------------------------------------------------------------------
  // Document blocks

  function StartMarker(name: string): string { "--- START OF DOCUMENT: " + name + " ---" }
  function EndMarker(name: string): string { "--- END OF DOCUMENT: " + name + " ---" }

  /** One document as prompt text: its content between a start and an end marker naming it. */
  function DocumentBlock(f: KnowledgeFile): (block: string)
    ensures StartMarker(f.name) <= block
    ensures |EndMarker(f.name)| <= |block| && block[|block| - |EndMarker(f.name)|..] == EndMarker(f.name)
  {
    var block := StartMarker(f.name) + "\n\n" + f.content + "\n\n" + EndMarker(f.name);
    assert block[|block| - |EndMarker(f.name)|..] == EndMarker(f.name);
    block
  }

  function DocumentBlocks(files: seq<KnowledgeFile>): (blocks: seq<string>)
    ensures |blocks| == |files| && forall i :: 0 <= i < |files| ==> blocks[i] == DocumentBlock(files[i])
  {
    seq(|files|, i requires 0 <= i < |files| => DocumentBlock(files[i]))
  }

  /** The documents' blocks separated by blank lines, in the order given. */
  function DocumentContent(files: seq<KnowledgeFile>): string
  {
    Join(DocumentBlocks(files), "\n\n")
  }

  /** Two runs of documents render as their renderings separated by one blank line. */
  lemma DocumentContentAppend(a: seq<KnowledgeFile>, b: seq<KnowledgeFile>)
    requires |a| > 0 && |b| > 0
    ensures DocumentContent(a + b) == DocumentContent(a) + "\n\n" + DocumentContent(b)
  {
    assert DocumentBlocks(a + b) == DocumentBlocks(a) + DocumentBlocks(b);
    JoinAppend(DocumentBlocks(a), DocumentBlocks(b), "\n\n");
  }

  /** The blocks of the first documents are the first blocks. */
  lemma DocumentBlocksTake(files: seq<KnowledgeFile>, n: nat)
    requires n <= |files|
    ensures DocumentBlocks(files[..n]) == DocumentBlocks(files)[..n]
  {
    forall k | 0 <= k < n ensures DocumentBlocks(files[..n])[k] == DocumentBlocks(files)[..n][k] {
      assert files[..n][k] == files[k];
    }
  }

  /** The blocks of the last documents are the last blocks. */
  lemma DocumentBlocksDrop(files: seq<KnowledgeFile>, n: nat)
    requires n <= |files|
    ensures DocumentBlocks(files[n..]) == DocumentBlocks(files)[n..]
  {
    forall k | 0 <= k < |files| - n ensures DocumentBlocks(files[n..])[k] == DocumentBlocks(files)[n..][k] {
      assert files[n..][k] == files[n + k];
    }
  }

  /** Every document's block appears in the rendering, preceded by exactly the earlier documents'
      rendering and followed by exactly the later ones': the blocks are all there, in input order. */
  lemma DocumentBlockAt(files: seq<KnowledgeFile>, i: nat)
    requires i < |files|
    ensures DocumentContent(files)
         == (if i == 0 then "" else DocumentContent(files[..i]) + "\n\n")
          + DocumentBlock(files[i])
          + (if i == |files| - 1 then "" else "\n\n" + DocumentContent(files[i + 1..]))
  {
    var blocks := DocumentBlocks(files);
    JoinAt(blocks, "\n\n", i);
    assert Join(blocks[..i], "\n\n") == DocumentContent(files[..i]) by {
      DocumentBlocksTake(files, i);
    }
    assert Join(blocks[i + 1..], "\n\n") == DocumentContent(files[i + 1..]) by {
      DocumentBlocksDrop(files, i + 1);
    }
  }

  // ---------------------------------------------------------------------------------------------
  // Prompt templates

  const FocusPlaceholder: string := "{FOCUS}"
  const ContextPlaceholder: string := "{SYNTHESIS_CONTEXT}"
  const QuestionPlaceholder: string := "{QUESTION}"

  /** Text in which no placeholder can start: it has no opening brace. */
  predicate PlaceholderFree(s: string)
  {
    '{' !in s
  }

  /** The synthesis instructions, up to the documents. */
  const DeepSynthesisHead: string :=
    "\nYou are a research assistant with unparalleled expertise in information synthesis and densification. Your task is to analyze the provided documents and produce a single, comprehensive, and exhaustively detailed summary.\n\nYour operational protocol is as follows:\n\n1.  **Initial Synthesis**: Begin by reading all provided document excerpts to form an initial summary. This summary must capture the main ideas, all key entities, and their fundamental relationships.\n\n2.  **Intensive Iterative Densification**: This is the core of your task. You must review your initial summary and recursively enrich it. For each sentence, concept, and entity, you are to re-examine the source documents to identify any missing details, nuance, context, or connections that can be integrated. You must perform as many cycles of this densification process as necessary, until no further material, no matter how granular, can be added from the source texts. The process is complete only when the summary has reached a 100% saturation level, meaning it is a complete and faithful representation of all relevant information in the documents.\n\n3.  **Surgical Precision**: Your output must be exhaustively detailed. Every important aspect must be included. The final text should be dense with information but must remain coherent, well-structured, and readable.\n\n**Crucial Constraints**:\n- You MUST NOT add any information that is not present in the provided documents.\n- Your final output must be a single, cohesive text, not a list of points.\n- Structure your output using Markdown for clarity, employing headings, lists, and bold text as appropriate to organize the dense information.\n\nHere are the documents for synthesis:\n\"\"\"\n"

  const DeepSynthesisTail: string :=
    "\n\"\"\"\n"

  /** The refinement instructions, up to the focus. */
  const RefinedSynthesisHead: string :=
    "\nYou are a research assistant. Your task is to re-synthesize the provided documents, but this time with a specific focus. Adhere to the same principles of detail, densification, and precision as your initial synthesis.\n\nYour new focus is: \""

  /** The refinement instructions between the focus and the documents. */
  const RefinedSynthesisMiddle: string :=
    "\"\n\nRe-analyze the documents and generate a new comprehensive summary that is oriented around this focus. Do not add information not present in the documents.\n\nHere are the documents for synthesis:\n\"\"\"\n"

  const RefinedSynthesisTail: string :=
    "\n\"\"\"\n"

  /** The follow-up instructions, up to the synthesized document. */
  const FollowUpHead: string :=
    "\nYou are an AI assistant whose sole purpose is to answer questions about a specific text. You have been provided with a \"Synthesized Document\". Your knowledge is strictly limited to this document.\n\n- Answer the user\'s question based *only* on the information within the \"Synthesized Document\".\n- If the answer cannot be found in the document, you MUST state: \"That information is not present in the synthesized document.\"\n- Be concise and direct in your answers.\n\nSynthesized Document:\n\"\"\"\n"

  /** The follow-up instructions between the synthesized document and the question. */
  const FollowUpMiddle: string :=
    "\n\"\"\"\n\nUser\'s Question:\n\"\"\"\n"

  const FollowUpTail: string :=
    "\n\"\"\"\n"

  const DeepSynthesisTemplate: string := DeepSynthesisHead + DocumentPlaceholder + DeepSynthesisTail
  const RefinedSynthesisTemplate: string :=
    RefinedSynthesisHead + FocusPlaceholder + RefinedSynthesisMiddle + DocumentPlaceholder + RefinedSynthesisTail
  const FollowUpTemplate: string :=
    FollowUpHead + ContextPlaceholder + FollowUpMiddle + QuestionPlaceholder + FollowUpTail

  /** The synthesis prompt: the template with its document placeholder replaced. */
  function SynthesisPrompt(files: seq<KnowledgeFile>): string
  {
    ReplaceFirst(DeepSynthesisTemplate, DocumentPlaceholder, DocumentContent(files))
  }

  /** The refinement prompt: documents substituted first, then the focus. */
  function RefinedSynthesisPrompt(files: seq<KnowledgeFile>, focus: string): string
  {
    ReplaceFirst(ReplaceFirst(RefinedSynthesisTemplate, DocumentPlaceholder, DocumentContent(files)), FocusPlaceholder, focus)
  }

  /** The follow-up prompt: the synthesized document substituted first, then the question. */
  function FollowUpPrompt(synthesisContext: string, question: string): string
  {
    ReplaceFirst(ReplaceFirst(FollowUpTemplate, ContextPlaceholder, synthesisContext), QuestionPlaceholder, question)
  }

  /** The first 20000 characters of a document (`substring(0, 20000)`). */
  function AnalysisExcerpt(content: string): (excerpt: string)
    ensures |excerpt| == if |content| <= 20000 then |content| else 20000
    ensures excerpt == content[..|excerpt|]
  {
    if |content| <= 20000 then content else content[..20000]
  }

  /** The classification prompt: the template with the document's excerpt substituted. */
  function AnalysisPrompt(content: string): string
  {
    ReplaceFirst(KnowledgeAnalysisPrompt, DocumentPlaceholder, AnalysisExcerpt(content))
  }

  /** The text a request sends. */
  function PromptText(p: Prompt): string
  {
    match p
    case Verbatim(text) => text
    case SynthesisOf(files) => SynthesisPrompt(files)
    case RefinedSynthesisOf(files, focus) => RefinedSynthesisPrompt(files, focus)
    case FollowUpOf(context, question) => FollowUpPrompt(context, question)
    case AnalysisOf(content) => AnalysisPrompt(content)
  }

  /** A placeholder occurs once in a template whose text around it has no brace. */
  lemma PlaceholderOccursOnce(head: string, placeholder: string, tail: string)
    requires |placeholder| > 0 && placeholder[0] == '{' && '{' !in placeholder[1..]
    requires PlaceholderFree(head) && PlaceholderFree(tail)
    ensures forall k: nat :: OccursAt(head + placeholder + tail, placeholder, k) <==> k == |head|
  {
    var s := head + placeholder + tail;
    assert s[|head|..|head| + |placeholder|] == placeholder;
    forall k: nat | k != |head| && k < |s| ensures !OccursAt(s, placeholder, k) {
      if k < |head| {
        assert s[k] == head[k];
      } else if k < |head| + |placeholder| {
        assert s[k] == placeholder[1..][k - |head| - 1];
      } else {
        assert s[k] == tail[k - |head| - |placeholder|];
      }
      NoOccurrenceAt(s, placeholder, k);
    }
  }

  /** The classification template holds its placeholder exactly once, provided its instruction
      text has no brace (which the text shows; the check of its 665 characters is not mechanised). */
  lemma AnalysisPlaceholderOnce()
    ensures PlaceholderFree(AnalysisPromptHead) ==>
              forall k: nat :: OccursAt(KnowledgeAnalysisPrompt, DocumentPlaceholder, k) <==> k == |AnalysisPromptHead|
  {
    if PlaceholderFree(AnalysisPromptHead) {
      PlaceholderOccursOnce(AnalysisPromptHead, DocumentPlaceholder, AnalysisPromptTail);
    }
  }

  /** The classification prompt embeds the document's first 20000 characters and nothing else of it. */
  lemma AnalysisPromptLayout(content: string)
    ensures PlaceholderFree(AnalysisPromptHead) ==>
              AnalysisPrompt(content) == AnalysisPromptHead + AnalysisExcerpt(content) + AnalysisPromptTail
  {
    if PlaceholderFree(AnalysisPromptHead) {
      ReplaceFirstSlot(AnalysisPromptHead, DocumentPlaceholder, AnalysisPromptTail, AnalysisExcerpt(content));
    }
  }

  /** The synthesis prompt is the instructions, the rendered documents, then the closing quotes. */
  lemma SynthesisPromptLayout(files: seq<KnowledgeFile>)
    ensures PlaceholderFree(DeepSynthesisHead) ==>
              SynthesisPrompt(files) == DeepSynthesisHead + DocumentContent(files) + DeepSynthesisTail
  {
    if PlaceholderFree(DeepSynthesisHead) {
      ReplaceFirstSlot(DeepSynthesisHead, DocumentPlaceholder, DeepSynthesisTail, DocumentContent(files));
    }
  }

  /** No document placeholder starts before the documents' slot of a focus-then-documents template:
      the only brace there opens the focus placeholder, whose second character differs. */
  lemma NoDocumentSlotBefore(head: string, middle: string, tail: string)
    requires PlaceholderFree(head) && PlaceholderFree(middle)
    ensures forall j: nat :: j < |head + FocusPlaceholder + middle| ==>
              !OccursAt(head + FocusPlaceholder + middle + DocumentPlaceholder + tail, DocumentPlaceholder, j)
  {
    var a := head + FocusPlaceholder + middle;
    var s := a + DocumentPlaceholder + tail;
    forall j: nat | j < |a| ensures !OccursAt(s, DocumentPlaceholder, j) {
      assert s[j] == a[j];
      if j == |head| {
        assert s[j + 1] == a[j + 1] == FocusPlaceholder[1];
        NoOccurrenceAtOffset(s, DocumentPlaceholder, j, 1);
      } else {
        assert a[j] != '{' by {
          if j < |head| {
            assert a[j] == head[j];
          } else if j < |head| + |FocusPlaceholder| {
            assert a[j] == FocusPlaceholder[j - |head|];
          } else {
            assert a[j] == middle[j - |head| - |FocusPlaceholder|];
          }
        }
        NoOccurrenceAt(s, DocumentPlaceholder, j);
      }
    }
  }

  /** The documents fill their own slot of a focus-then-documents template. */
  lemma DocumentSlotFilled(head: string, middle: string, tail: string, docs: string)
    requires PlaceholderFree(head) && PlaceholderFree(middle)
    ensures ReplaceFirst(head + FocusPlaceholder + middle + DocumentPlaceholder + tail, DocumentPlaceholder, docs)
         == head + FocusPlaceholder + (middle + docs + tail)
  {
    var a := head + FocusPlaceholder + middle;
    NoDocumentSlotBefore(head, middle, tail);
    ReplaceFirstAfter(a, DocumentPlaceholder, tail, docs);
    AppendAssoc(head + FocusPlaceholder, middle + docs, tail);
    AppendAssoc(head + FocusPlaceholder, middle, docs);
  }

  /** Two-placeholder templates whose first placeholder is filled second: the documents go into
      their slot even though the focus placeholder precedes it, and the focus then fills its own
      slot whatever the documents contain. */
  lemma FillFocusThenDocuments(head: string, middle: string, tail: string, docs: string, focus: string)
    requires PlaceholderFree(head) && PlaceholderFree(middle)
    ensures ReplaceFirst(ReplaceFirst(head + FocusPlaceholder + middle + DocumentPlaceholder + tail,
                                      DocumentPlaceholder, docs), FocusPlaceholder, focus)
         == head + focus + middle + docs + tail
  {
    DocumentSlotFilled(head, middle, tail, docs);
    ReplaceFirstSlot(head, FocusPlaceholder, middle + docs + tail, focus);
    AppendAssoc(head + focus, middle + docs, tail);
    AppendAssoc(head + focus, middle, docs);
  }

  /** The refinement prompt is the instructions with the focus and the rendered documents in their slots. */
  lemma RefinedSynthesisPromptLayout(files: seq<KnowledgeFile>, focus: string)
    ensures PlaceholderFree(RefinedSynthesisHead) && PlaceholderFree(RefinedSynthesisMiddle) ==>
              RefinedSynthesisPrompt(files, focus)
              == RefinedSynthesisHead + focus + RefinedSynthesisMiddle + DocumentContent(files) + RefinedSynthesisTail
  {
    if PlaceholderFree(RefinedSynthesisHead) && PlaceholderFree(RefinedSynthesisMiddle) {
      FillFocusThenDocuments(RefinedSynthesisHead, RefinedSynthesisMiddle, RefinedSynthesisTail, DocumentContent(files), focus);
    }
  }

  /** A pattern that never occurs in `b` cannot start inside `b` in `a + b + m` when the character
      following `b` is not one of the pattern's. */
  lemma NoOccurrenceInside(a: string, b: string, m: string, pat: string, j: nat)
    requires |a| <= j < |a| + |b| && |m| > 0 && m[0] !in pat
    requires forall k: nat :: !OccursAt(b, pat, k)
    ensures !OccursAt(a + b + m, pat, j)
  {
    var s := a + b + m;
    var i := j - |a|;
    if j + |pat| <= |a| + |b| {
      assert s[j..j + |pat|] == b[i..i + |pat|];
      assert !OccursAt(b, pat, i);
    } else if j + |pat| <= |s| {
      var p := |a| + |b| - j;
      assert s[j + p] == m[0];
      NoOccurrenceAtOffset(s, pat, j, p);
    }
  }

  /** No question placeholder starts before the question slot of a context-then-question template
      filled with a context that does not contain it. */
  lemma NoQuestionSlotBefore(head: string, middle: string, tail: string, context: string)
    requires PlaceholderFree(head) && PlaceholderFree(middle)
    requires |middle| > 0 && middle[0] !in QuestionPlaceholder
    requires forall k: nat :: !OccursAt(context, QuestionPlaceholder, k)
    ensures forall j: nat :: j < |head + context + middle| ==>
              !OccursAt(head + context + middle + QuestionPlaceholder + tail, QuestionPlaceholder, j)
  {
    var a := head + context + middle;
    var s := a + QuestionPlaceholder + tail;
    var m := middle + QuestionPlaceholder + tail;
    assert s == head + context + m by {
      AppendAssoc(head + context, middle + QuestionPlaceholder, tail);
      AppendAssoc(head + context, middle, QuestionPlaceholder);
    }
    assert m[0] == middle[0];
    forall j: nat | j < |a| ensures !OccursAt(s, QuestionPlaceholder, j) {
      if j < |head| {
        assert s[j] == head[j];
        NoOccurrenceAt(s, QuestionPlaceholder, j);
      } else if j < |head| + |context| {
        NoOccurrenceInside(head, context, m, QuestionPlaceholder, j);
      } else {
        assert s[j] == middle[j - |head| - |context|];
        NoOccurrenceAt(s, QuestionPlaceholder, j);
      }
    }
  }

  /** Two-placeholder templates filled in order: when the first value does not itself contain the
      second placeholder, each value lands in its own slot (the text between the slots has no brace
      and starts with a character foreign to the second placeholder). */
  lemma FillContextThenQuestion(head: string, middle: string, tail: string, context: string, question: string)
    requires PlaceholderFree(head) && PlaceholderFree(middle)
    requires |middle| > 0 && middle[0] !in QuestionPlaceholder
    requires forall k: nat :: !OccursAt(context, QuestionPlaceholder, k)
    ensures ReplaceFirst(ReplaceFirst(head + ContextPlaceholder + middle + QuestionPlaceholder + tail,
                                      ContextPlaceholder, context), QuestionPlaceholder, question)
         == head + context + middle + question + tail
  {
    var rest := middle + QuestionPlaceholder + tail;
    var a := head + context + middle;
    assert ReplaceFirst(head + ContextPlaceholder + middle + QuestionPlaceholder + tail, ContextPlaceholder, context)
        == a + QuestionPlaceholder + tail by {
      AppendAssoc(head + ContextPlaceholder, middle + QuestionPlaceholder, tail);
      AppendAssoc(head + ContextPlaceholder, middle, QuestionPlaceholder);
      ReplaceFirstSlot(head, ContextPlaceholder, rest, context);
      AppendAssoc(head + context, middle + QuestionPlaceholder, tail);
      AppendAssoc(head + context, middle, QuestionPlaceholder);
    }
    NoQuestionSlotBefore(head, middle, tail, context);
    ReplaceFirstAfter(a, QuestionPlaceholder, tail, question);
  }

  /** ... but when the synthesized document holds the question placeholder (and no brace before
      its first one), the question is written into the document's copy of the placeholder and the
      question slot keeps the placeholder. */
  lemma FollowUpQuestionCaptured(head: string, middle: string, tail: string, before: string, after: string, question: string)
    requires PlaceholderFree(head) && PlaceholderFree(before)
    ensures ReplaceFirst(ReplaceFirst(head + ContextPlaceholder + middle + QuestionPlaceholder + tail,
                                      ContextPlaceholder, before + QuestionPlaceholder + after), QuestionPlaceholder, question)
         == head + before + question + after + middle + QuestionPlaceholder + tail
  {
    var rest := middle + QuestionPlaceholder + tail;
    var doc := before + QuestionPlaceholder + after;
    var filled := (head + before) + QuestionPlaceholder + (after + rest);
    assert ReplaceFirst(head + ContextPlaceholder + middle + QuestionPlaceholder + tail, ContextPlaceholder, doc) == filled by {
      AppendAssoc(head + ContextPlaceholder, middle + QuestionPlaceholder, tail);
      AppendAssoc(head + ContextPlaceholder, middle, QuestionPlaceholder);
      ReplaceFirstSlot(head, ContextPlaceholder, rest, doc);
      AppendAssoc(head, before + QuestionPlaceholder, after);
      AppendAssoc(head, before, QuestionPlaceholder);
      AppendAssoc(head + before + QuestionPlaceholder, after, rest);
    }
    var x := head + before + question;
    assert ReplaceFirst(filled, QuestionPlaceholder, question) == x + (after + rest) by {
      assert PlaceholderFree(head + before);
      ReplaceFirstSlot(head + before, QuestionPlaceholder, after + rest, question);
    }
    AppendAssoc(x, after, rest);
    AppendAssoc(x + after, middle + QuestionPlaceholder, tail);
    AppendAssoc(x + after, middle, QuestionPlaceholder);
  }

  /** The text between the follow-up slots has no brace and opens with a line break. */
  lemma FollowUpMiddleShape()
    ensures PlaceholderFree(FollowUpMiddle)
    ensures |FollowUpMiddle| > 0 && FollowUpMiddle[0] !in QuestionPlaceholder
  {
  }

  /** The follow-up prompt carries the synthesized document and the question in their slots
      whenever the document does not contain the question placeholder. */
  lemma FollowUpPromptLayout(synthesisContext: string, question: string)
    ensures PlaceholderFree(FollowUpHead) && (forall k: nat :: !OccursAt(synthesisContext, QuestionPlaceholder, k)) ==>
              FollowUpPrompt(synthesisContext, question)
              == FollowUpHead + synthesisContext + FollowUpMiddle + question + FollowUpTail
  {
    if PlaceholderFree(FollowUpHead) && (forall k: nat :: !OccursAt(synthesisContext, QuestionPlaceholder, k)) {
      FollowUpMiddleShape();
      FillContextThenQuestion(FollowUpHead, FollowUpMiddle, FollowUpTail, synthesisContext, question);
    }
  }

  /** The follow-up prompt over a document holding the question placeholder sends the question
      inside the document and the bare placeholder where the question belongs. */
  lemma FollowUpPromptCaptured(before: string, after: string, question: string)
    ensures PlaceholderFree(FollowUpHead) && PlaceholderFree(before) ==>
              FollowUpPrompt(before + QuestionPlaceholder + after, question)
              == FollowUpHead + before + question + after + FollowUpMiddle + QuestionPlaceholder + FollowUpTail
  {
    if PlaceholderFree(FollowUpHead) && PlaceholderFree(before) {
      FollowUpQuestionCaptured(FollowUpHead, FollowUpMiddle, FollowUpTail, before, after, question);
    }
  }

  // ---------------------------------------------------------------------------------------------
  // The calls

  /** `streamSynthesis`: the key check, then one reasoning-enabled generation over the synthesis prompt. */
  function StreamSynthesis(apiKey: Option<string>, files: seq<KnowledgeFile>): (r: Result<GenerateRequest>)
    ensures r.Failure? <==> !HasApiKey(apiKey)
    ensures r.Failure? ==> r.error == MissingKey
    ensures r.Success? ==> r.value == GenerateRequest(ProModel, SynthesisOf(files), Some(ThinkingBudget), false)
  {
    if !HasApiKey(apiKey) then Failure(MissingKey)
    else Success(GenerateRequest(ProModel, SynthesisOf(files), Some(ThinkingBudget), false))
  }

  /** `streamRefinedSynthesis`: as `streamSynthesis`, over the refinement prompt. */
  function StreamRefinedSynthesis(apiKey: Option<string>, files: seq<KnowledgeFile>, focus: string)
    : (r: Result<GenerateRequest>)
    ensures r.Failure? <==> !HasApiKey(apiKey)
    ensures r.Failure? ==> r.error == MissingKey
    ensures r.Success? ==> r.value == GenerateRequest(ProModel, RefinedSynthesisOf(files, focus), Some(ThinkingBudget), false)
  {
    if !HasApiKey(apiKey) then Failure(MissingKey)
    else Success(GenerateRequest(ProModel, RefinedSynthesisOf(files, focus), Some(ThinkingBudget), false))
  }

  /** `streamFollowUp`: the key check, then a plain chat turn whose history is every earlier
      follow-up message, unfiltered. */
  function StreamFollowUp(apiKey: Option<string>, synthesisContext: string, question: string, history: seq<Message>)
    : (r: Result<ChatRequest>)
    ensures r.Failure? <==> !HasApiKey(apiKey)
    ensures r.Failure? ==> r.error == MissingKey
    ensures r.Success? ==> r.value.model == FlashModel && r.value.systemInstruction.None? && r.value.thinkingBudget.None?
    ensures r.Success? ==> r.value.history == AsContents(history) && r.value.message == FollowUpOf(synthesisContext, question)
  {
    if !HasApiKey(apiKey) then Failure(MissingKey)
    else Success(ChatRequest(FlashModel, AsContents(history), None, None, FollowUpOf(synthesisContext, question)))
  }

  /** The classification a document gets when the model's answer cannot be used. */
  const AnalysisFallback: KnowledgeMetadata := KnowledgeMetadata("Uncategorized", ["analysis-failed"])

  /** The request `analyzeDocument` sends once the key check passes. */
  function AnalysisRequest(content: string): (r: GenerateRequest)
    ensures r.model == ProModel && r.jsonResponse && r.thinkingBudget.None?
    ensures r.contents == AnalysisOf(content)
  {
    GenerateRequest(ProModel, AnalysisOf(content), None, true)
  }

  /** `analyzeDocument`: throws only when the key is missing; past the key check, any failure of the
      call or of parsing its answer (`reply == None`) yields the fallback classification. */
  function AnalyzeDocument(apiKey: Option<string>, content: string, reply: Option<KnowledgeMetadata>)
    : (r: Result<KnowledgeMetadata>)
    ensures r.Failure? <==> !HasApiKey(apiKey)
    ensures r.Failure? ==> r.error == MissingKey
    ensures r.Success? && reply.Some? ==> r.value == reply.value
    ensures r.Success? && reply.None? ==> r.value.folder == "Uncategorized" && r.value.tags == ["analysis-failed"]
  {
    if !HasApiKey(apiKey) then Failure(MissingKey)
    else if reply.Some? then Success(reply.value)
    else Success(AnalysisFallback)
  }
}
