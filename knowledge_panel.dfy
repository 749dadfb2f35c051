/** The knowledge panel (components/KnowledgePanel.tsx): uploading and classifying documents,
    enabling and selecting them, clearing the library, and the synthesis window with its
    regeneration and follow-up conversation. */
module KnowledgePanel {
  import opened Wrappers
  import opened Types
  import opened Strings
  import opened Seqs
  import opened StreamReducer
  import opened GeminiService

  // ---------------------------------------------------------------------------------------------
  // Uploads

  /** One picked file as the upload loop meets it: `text` is `None` when reading it throws, and
      `analysis` is the classification the model returns, `None` when the call or its parsing
      fails. The id and the timestamp are the values the loop draws for it. */
  datatype Upload = Upload(name: string, text: Option<string>, id: string, createdAt: int, analysis: Option<KnowledgeMetadata>)

  /** One pass of the loop body: the new library entry, or `None` when reading or classifying
      threw and the file is skipped. */
  function ProcessUpload(apiKey: Option<string>, u: Upload): (r: Option<KnowledgeFile>)
    ensures r.Some? <==> u.text.Some? && HasApiKey(apiKey)
    ensures r.Some? ==> r.value.enabled && r.value.id == u.id && r.value.name == u.name
                        && r.value.content == u.text.value && r.value.createdAt == u.createdAt
    ensures r.Some? && u.analysis.Some? ==> r.value.folder == u.analysis.value.folder && r.value.tags == u.analysis.value.tags
    ensures r.Some? && u.analysis.None? ==> r.value.folder == "Uncategorized" && r.value.tags == ["analysis-failed"]
  {
    if u.text.None? then None
    else
      match AnalyzeDocument(apiKey, u.text.value, u.analysis)
      case Failure(_) => None
      case Success(meta) => Some(KnowledgeFile(u.id, u.name, u.text.value, true, u.createdAt, meta.folder, meta.tags))
  }

  /** The entries a batch adds, in upload order, skipping the files that failed. */
  function ProcessedUploads(apiKey: Option<string>, uploads: seq<Upload>): (added: seq<KnowledgeFile>)
    ensures |added| <= |uploads|
    ensures forall j :: 0 <= j < |added| ==> added[j].enabled
  {
    if uploads == [] then []
    else
      var init := uploads[..|uploads| - 1];
      var p := ProcessUpload(apiKey, uploads[|uploads| - 1]);
      ProcessedUploads(apiKey, init) + (if p.Some? then [p.value] else [])
  }

  /** A failure skips only its own file: a batch adds what its parts would add, in order. */
  lemma {:induction false} UploadsAppend(apiKey: Option<string>, a: seq<Upload>, b: seq<Upload>)
    ensures ProcessedUploads(apiKey, a + b) == ProcessedUploads(apiKey, a) + ProcessedUploads(apiKey, b)
  {
    if b == [] {
      assert a + b == a;
    } else {
      assert (a + b)[..|a + b| - 1] == a + b[..|b| - 1];
      UploadsAppend(apiKey, a, b[..|b| - 1]);
    }
  }

  /** With a key and every file readable, each file becomes one entry, in upload order. */
  lemma {:induction false} UploadsAllAdded(apiKey: Option<string>, uploads: seq<Upload>)
    requires HasApiKey(apiKey)
    requires forall i :: 0 <= i < |uploads| ==> uploads[i].text.Some?
    ensures |ProcessedUploads(apiKey, uploads)| == |uploads|
    ensures forall i :: 0 <= i < |uploads| ==> ProcessedUploads(apiKey, uploads)[i] == ProcessUpload(apiKey, uploads[i]).value
  {
    if uploads != [] {
      var init := uploads[..|uploads| - 1];
      UploadsAllAdded(apiKey, init);
    }
  }

  /** Without a key every classification throws, so a batch adds nothing. */
  lemma {:induction false} UploadsWithoutKey(apiKey: Option<string>, uploads: seq<Upload>)
    requires !HasApiKey(apiKey)
    ensures ProcessedUploads(apiKey, uploads) == []
  {
    if uploads != [] {
      UploadsWithoutKey(apiKey, uploads[..|uploads| - 1]);
    }
  }

  // ---------------------------------------------------------------------------------------------
  // Library and selection edits

  /** `handleToggleFileEnable`: flips `enabled` on the files with the id and changes nothing else. */
  function ToggleEnabled(files: seq<KnowledgeFile>, id: string): (r: seq<KnowledgeFile>)
    ensures |r| == |files|
    ensures forall i :: 0 <= i < |files| ==>
              r[i].enabled == (if files[i].id == id then !files[i].enabled else files[i].enabled)
              && r[i] == files[i].(enabled := r[i].enabled)
  {
    seq(|files|, i requires 0 <= i < |files| => if files[i].id == id then files[i].(enabled := !files[i].enabled) else files[i])
  }

  /** Toggling the same file twice restores the library. */
  lemma ToggleEnabledTwice(files: seq<KnowledgeFile>, id: string)
    ensures ToggleEnabled(ToggleEnabled(files, id), id) == files
  {
    var once := ToggleEnabled(files, id);
    var twice := ToggleEnabled(once, id);
    forall i | 0 <= i < |files| ensures twice[i] == files[i] {
      assert once[i].id == files[i].id;
    }
  }

  /** `handleToggleFileSelect`: removes the id (every copy) when selected, appends it otherwise. */
  function ToggleSelection(ids: seq<string>, id: string): (r: seq<string>)
    ensures id in r <==> id !in ids
    ensures forall x :: x != id ==> (x in r <==> x in ids)
  {
    if id in ids then Filter(x => x != id, ids) else ids + [id]
  }

  /** Toggling the same id twice restores which ids are selected. */
  lemma ToggleSelectionTwice(ids: seq<string>, id: string)
    ensures forall x :: x in ToggleSelection(ToggleSelection(ids, id), id) <==> x in ids
  {
  }

  /** The selection test of `files.filter(...)`: the file's id is among the selected ids. */
  function IsSelected(ids: seq<string>): KnowledgeFile -> bool
  {
    (f: KnowledgeFile) => f.id in ids
  }

  /** The files a synthesis works on: the library files whose id is selected, in library order. */
  function SelectedFiles(files: seq<KnowledgeFile>, ids: seq<string>): (r: seq<KnowledgeFile>)
    ensures forall i :: 0 <= i < |files| ==> (files[i] in r <==> files[i].id in ids)
    ensures forall j :: 0 <= j < |r| ==> r[j] in files && r[j].id in ids
  {
    Filter(IsSelected(ids), files)
  }

  /** Keeping the files in library order: selecting everything selects the library as it is. */
  lemma SelectAll(files: seq<KnowledgeFile>, ids: seq<string>)
    requires forall i :: 0 <= i < |files| ==> files[i].id in ids
    ensures SelectedFiles(files, ids) == files
  {
    FilterKeepsAll(IsSelected(ids), files);
  }

  // ---------------------------------------------------------------------------------------------
  // The synthesis window

  const SynthesisErrorPrefix: string := "**Error:** Could not complete synthesis. "
  const RegenerationErrorPrefix: string := "**Error:** Could not complete regeneration. "
  const FollowUpErrorPrefix: string := "Error: "

  /** The synthesis document once a stream is over: the chunks' concatenation, or the error
      notice alone when the stream threw. */
  function SynthesisOutcome(errorPrefix: string, s: Stream): (text: string)
    ensures s.failure.None? ==> text == Concat(s.chunks)
    ensures s.failure.Some? ==>
              |errorPrefix| <= |text| && text[..|errorPrefix|] == errorPrefix && text[|errorPrefix|..] == ErrorMessage(s.failure.value)
  {
    if s.failure.Some? then errorPrefix + ErrorMessage(s.failure.value) else Concat(s.chunks)
  }

  /** The follow-up reply slot once a stream is over: still an AI message, holding the error
      notice, the placeholder when no chunk came, or the chunks' concatenation. */
  function FollowUpSlot(replyId: string, s: Stream): (m: Message)
    ensures m.id == replyId && m.sender == AI
    ensures s.failure.Some? ==> m.content == FollowUpErrorPrefix + ErrorMessage(s.failure.value)
    ensures s.failure.None? && s.chunks != [] ==> m.content == Concat(s.chunks)
    ensures s.failure.None? && s.chunks == [] ==> m.content == Pending
  {
    Message(replyId, AI,
      if s.failure.Some? then FollowUpErrorPrefix + ErrorMessage(s.failure.value)
      else if s.chunks == [] then Pending
      else Concat(s.chunks))
  }

  /** A failed follow-up stays in the conversation as a model turn: the next question's history
      carries the error notice back to the model, unlike the main chat's history. */
  lemma FollowUpErrorResent(prior: seq<Message>, userId: string, question: string, replyId: string, t: Thrown,
                            nextId: string, next: string)
    ensures var log := prior + [Message(userId, User, question), FollowUpSlot(replyId, Stream([], Some(t)))];
            AsContents(log + [Message(nextId, User, next)])[|prior| + 1]
            == Content(ModelRole, FollowUpErrorPrefix + ErrorMessage(t))
  {
  }

  /** `handleFollowUpSubmit`: what it sends (if anything) and what the input box holds after. */
  datatype Submission = Submission(sent: Option<string>, input: string)

  /** The submit guard: a non-blank question is sent trimmed and the box cleared, unless an answer
      is still pending; otherwise nothing happens. */
  function FollowUpSubmit(input: string, isAnsweringFollowUp: bool): (r: Submission)
    ensures r.sent.Some? <==> Trim(input) != [] && !isAnsweringFollowUp
    ensures r.sent.Some? ==> r.sent.value == Trim(input) && r.input == []
    ensures r.sent.None? ==> r.input == input
  {
    var trimmed := Trim(input);
    if trimmed != [] && !isAnsweringFollowUp then Submission(Some(trimmed), []) else Submission(None, input)
  }

  /** A sent question is the input without its surrounding whitespace, and is never blank. */
  lemma SubmittedQuestion(input: string, isAnsweringFollowUp: bool)
    ensures var r := FollowUpSubmit(input, isAnsweringFollowUp);
            r.sent.Some? ==>
              r.sent.value != [] && !IsSpace(r.sent.value[0]) && !IsSpace(r.sent.value[|r.sent.value| - 1])
              && (exists i: nat, j: nat :: SpaceOutside(input, i, j) && r.sent.value == input[i..j])
  {
    TrimSpec(input);
  }

  /** Everything the panel holds, as one value. */
  datatype PanelState = PanelState(
    files: seq<KnowledgeFile>,
    selectedIds: seq<string>,
    isAnalyzing: bool,
    synthesisContent: string,
    isModalOpen: bool,
    isSynthesizing: bool,
    refinementPrompt: string,
    followUps: seq<Message>,
    isRegenerating: bool,
    isAnsweringFollowUp: bool)

  class Panel {
    /** The library (owned by the app and handed down with its setter). */
    var files: seq<KnowledgeFile>
    var selectedIds: seq<string>
    var isAnalyzing: bool
    var synthesisContent: string
    var isModalOpen: bool
    var isSynthesizing: bool
    var refinementPrompt: string
    var followUps: seq<Message>
    var isRegenerating: bool
    var isAnsweringFollowUp: bool

    ghost function State(): PanelState
      reads this
    {
      PanelState(files, selectedIds, isAnalyzing, synthesisContent, isModalOpen, isSynthesizing,
                 refinementPrompt, followUps, isRegenerating, isAnsweringFollowUp)
    }

    constructor (library: seq<KnowledgeFile>)
      ensures State() == PanelState(library, [], false, "", false, false, "", [], false, false)
    {
      files := library;
      selectedIds := [];
      isAnalyzing := false;
      synthesisContent := "";
      isModalOpen := false;
      isSynthesizing := false;
      refinementPrompt := "";
      followUps := [];
      isRegenerating := false;
      isAnsweringFollowUp := false;
    }

    /** `handleFileChange`: nothing without a selection; otherwise every picked file is read and
        classified in turn, failures skipped, and the new entries appended after the library. */
    method HandleFileChange(selection: Option<seq<Upload>>, apiKey: Option<string>)
      modifies this
      ensures selection.None? ==> State() == old(State())
      ensures selection.Some? ==>
                State() == old(State()).(files := old(files) + ProcessedUploads(apiKey, selection.value), isAnalyzing := false)
    {
      if selection.None? {
        return;
      }
      var uploads := selection.value;
      isAnalyzing := true;
      var added: seq<KnowledgeFile> := [];
      var i := 0;
      while i < |uploads|
        invariant 0 <= i <= |uploads|
        invariant added == ProcessedUploads(apiKey, uploads[..i])
        invariant State() == old(State()).(isAnalyzing := true)
      {
        var p := ProcessUpload(apiKey, uploads[i]);
        assert uploads[..i + 1][..i] == uploads[..i];
        if p.Some? {
          added := added + [p.value];
        }
        i := i + 1;
      }
      assert uploads[..i] == uploads;
      files := files + added;
      isAnalyzing := false;
    }

    /** `handleToggleFileEnable`. */
    method HandleToggleFileEnable(id: string)
      modifies this
      ensures State() == old(State()).(files := ToggleEnabled(old(files), id))
    {
      files := ToggleEnabled(files, id);
    }

    /** `handleToggleFileSelect`. */
    method HandleToggleFileSelect(id: string)
      modifies this
      ensures State() == old(State()).(selectedIds := ToggleSelection(old(selectedIds), id))
    {
      selectedIds := ToggleSelection(selectedIds, id);
    }

    /** `handleClearKnowledge`: the library and the selection are emptied together. */
    method HandleClearKnowledge()
      modifies this
      ensures State() == old(State()).(files := [], selectedIds := [])
      ensures SelectedFiles(files, selectedIds) == []
    {
      files := [];
      selectedIds := [];
    }

    /** The synthesis `for await` loop and its `catch`: the document shows the text accumulated so
        far; a throw replaces it with the error notice. */
    method StreamIntoSynthesis(s: Stream, errorPrefix: string)
      requires synthesisContent == ""
      modifies this
      ensures State() == old(State()).(synthesisContent := SynthesisOutcome(errorPrefix, s))
    {
      var accumulated := "";
      var i := 0;
      while i < |s.chunks|
        invariant 0 <= i <= |s.chunks|
        invariant accumulated == Concat(s.chunks[..i])
        invariant State() == old(State()).(synthesisContent := accumulated)
      {
        AccumulateStep(s.chunks, i);
        accumulated := accumulated + s.chunks[i];
        synthesisContent := accumulated;
        i := i + 1;
      }
      assert s.chunks[..i] == s.chunks;
      if s.failure.Some? {
        synthesisContent := errorPrefix + ErrorMessage(s.failure.value);
      }
    }

    /** `handleSynthesize`: nothing when no file is selected; otherwise the window opens afresh
        and the synthesis of the selected files streams into it. `sent` is the request that left. */
    method HandleSynthesize(apiKey: Option<string>, reply: Stream) returns (sent: Option<GenerateRequest>)
      modifies this
      ensures SelectedFiles(old(files), old(selectedIds)) == [] ==> State() == old(State()) && sent.None?
      ensures SelectedFiles(old(files), old(selectedIds)) != [] ==>
                var call := StreamSynthesis(apiKey, SelectedFiles(old(files), old(selectedIds)));
                && State() == old(State()).(synthesisContent := SynthesisOutcome(SynthesisErrorPrefix, Delivered(call, reply)),
                                            followUps := [], refinementPrompt := "", isModalOpen := true,
                                            isSynthesizing := false)
                && sent == if call.Success? then Some(call.value) else None
    {
      sent := None;
      var selected := SelectedFiles(files, selectedIds);
      if |selected| == 0 {
        return;
      }
      synthesisContent := "";
      followUps := [];
      refinementPrompt := "";
      isModalOpen := true;
      isSynthesizing := true;
      ghost var windowOpen := State();
      var call := StreamSynthesis(apiKey, selected);
      if call.Success? {
        sent := Some(call.value);
      }
      StreamIntoSynthesis(Delivered(call, reply), SynthesisErrorPrefix);
      assert State() == windowOpen.(synthesisContent := SynthesisOutcome(SynthesisErrorPrefix, Delivered(call, reply)));
      isSynthesizing := false;
    }

    /** `handleRegenerate`: nothing when no file is selected or the focus is blank; otherwise the
        document is cleared and the refined synthesis streams into it. */
    method HandleRegenerate(focus: string, apiKey: Option<string>, reply: Stream) returns (sent: Option<GenerateRequest>)
      modifies this
      ensures SelectedFiles(old(files), old(selectedIds)) == [] || Trim(focus) == [] ==> State() == old(State()) && sent.None?
      ensures SelectedFiles(old(files), old(selectedIds)) != [] && Trim(focus) != [] ==>
                var call := StreamRefinedSynthesis(apiKey, SelectedFiles(old(files), old(selectedIds)), focus);
                && State() == old(State()).(synthesisContent := SynthesisOutcome(RegenerationErrorPrefix, Delivered(call, reply)),
                                            isRegenerating := false)
                && sent == if call.Success? then Some(call.value) else None
    {
      sent := None;
      var selected := SelectedFiles(files, selectedIds);
      if |selected| == 0 || Trim(focus) == [] {
        return;
      }
      isRegenerating := true;
      synthesisContent := "";
      ghost var cleared := State();
      var call := StreamRefinedSynthesis(apiKey, selected, focus);
      if call.Success? {
        sent := Some(call.value);
      }
      StreamIntoSynthesis(Delivered(call, reply), RegenerationErrorPrefix);
      assert State() == cleared.(synthesisContent := SynthesisOutcome(RegenerationErrorPrefix, Delivered(call, reply)));
      isRegenerating := false;
    }

    /** The follow-up `for await` loop and its `catch`: only the last message changes. */
    method StreamIntoFollowUps(base: seq<Message>, replyId: string, s: Stream)
      requires followUps == base + [Message(replyId, AI, Pending)]
      modifies this
      ensures State() == old(State()).(followUps := base + [FollowUpSlot(replyId, s)])
    {
      var accumulated := "";
      var i := 0;
      while i < |s.chunks|
        invariant 0 <= i <= |s.chunks|
        invariant accumulated == Concat(s.chunks[..i])
        invariant State() == old(State()).(followUps := base + [Message(replyId, AI, if i == 0 then Pending else accumulated)])
      {
        AccumulateStep(s.chunks, i);
        ReplaceLastOf(base, followUps[|base|], Message(replyId, AI, accumulated + s.chunks[i]));
        accumulated := accumulated + s.chunks[i];
        followUps := WithLastContent(followUps, accumulated);
        i := i + 1;
      }
      assert s.chunks[..i] == s.chunks;
      assert i == 0 <==> s.chunks == [];
      if s.failure.Some? {
        var notice := followUps[|base|].(content := FollowUpErrorPrefix + ErrorMessage(s.failure.value));
        ReplaceLastOf(base, followUps[|base|], notice);
        followUps := WithLastContent(followUps, notice.content);
      }
    }

    /** `handleSendFollowUp`: appends the question and a placeholder, asks with every earlier
        follow-up message plus the question as history, and folds the answer into the placeholder. */
    method HandleSendFollowUp(question: string, userId: string, replyId: string, apiKey: Option<string>, reply: Stream)
      returns (sent: Option<ChatRequest>)
      modifies this
      ensures State() == old(State()).(followUps := old(followUps) + [Message(userId, User, question),
                         FollowUpSlot(replyId, Delivered(StreamFollowUp(apiKey, old(synthesisContent), question,
                                                                        old(followUps) + [Message(userId, User, question)]), reply))],
                                       isAnsweringFollowUp := false)
      ensures var call := StreamFollowUp(apiKey, old(synthesisContent), question, old(followUps) + [Message(userId, User, question)]);
              sent == if call.Success? then Some(call.value) else None
    {
      sent := None;
      isAnsweringFollowUp := true;
      var user := Message(userId, User, question);
      var history := followUps + [user];
      followUps := history + [Message(replyId, AI, Pending)];
      var call := StreamFollowUp(apiKey, synthesisContent, question, history);
      if call.Success? {
        sent := Some(call.value);
      }
      StreamIntoFollowUps(history, replyId, Delivered(call, reply));
      isAnsweringFollowUp := false;
    }
  }
}
