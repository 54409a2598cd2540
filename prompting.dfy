/**
 * What one chat turn sends to the generator and how its streamed answer is
 * gathered: the title prompt, the history built from the transcript, the
 * retrieved context and the turn that records it, the system instruction, and
 * the loop that writes out and accumulates the truthy fragment texts.
 * Both handlers share these steps; `Variant` selects the handler's constants.
 */
module Prompting {
  import opened Wrappers
  import opened Text
  import opened ChatModel

  /** `ServerRoute` is the handler in the server's entry file, `RefactoredRoute` the one in its route module. */
  datatype Variant = ServerRoute | RefactoredRoute

  /** A non-streaming reply of the generator; `text` is absent when it produced none. */
  datatype Reply = Reply(text: Option<string>)

  /** The two roles of the generator's history. */
  datatype Role = UserRole | ModelRole

  datatype HistoryEntry = HistoryEntry(role: Role, text: string)

  /**
   * The system instruction a turn sends, by its parts: the handler, whether the
   * turn opens the chat, and the retrieved context. Its text is
   * `SystemInstruction(v, firstMessage, context)`, from which the parts can be
   * read back (`SystemInstructionRecoversContext`).
   */
  datatype Instruction = Instruction(v: Variant, firstMessage: bool, context: string)

  /** What a turn sends: the system instruction, the history and the new message. */
  datatype GenRequest = GenRequest(instruction: Instruction, history: seq<HistoryEntry>, message: string)

  /**
   * The streamed answer: each fragment's `text`, possibly absent, in arrival
   * order, and whether the stream throws after the last of them.
   */
  datatype Stream = Stream(fragments: seq<Option<string>>, fails: bool)

  function RoleName(r: Role): string
  {
    match r
    case UserRole => "user"
    case ModelRole => "model"
  }

  // ---------------------------------------------------------------------------
  // title

  const ServerTitlePrefix := "Generate a 1-3 word title for this health related query: "
  const ServerTitleSuffix := ". You can Output a maximum of 3 words and nothing else. NO EXPLANATION OR PREAMBLE IS NEEDED."
  const RefactoredTitlePrefix := "Generate a concise 1-3 word title for this health query: "
  const RefactoredTitleSuffix := ". No explanation."

  function TitlePrefix(v: Variant): string
  {
    match v
    case ServerRoute => ServerTitlePrefix
    case RefactoredRoute => RefactoredTitlePrefix
  }

  function TitleSuffix(v: Variant): string
  {
    match v
    case ServerRoute => ServerTitleSuffix
    case RefactoredRoute => RefactoredTitleSuffix
  }

  /**
   * The title call for a new chat, by its parts; its text is `TitlePrompt(v, prompt)`,
   * from which the prompt can be read back (`TitlePromptEmbedsPrompt`).
   */
  datatype TitleRequest = TitleRequest(v: Variant, prompt: string)

  /** The prompt of the title call for a new chat. */
  function TitlePrompt(v: Variant, prompt: string): (t: string)
    ensures |t| == |TitlePrefix(v)| + |prompt| + |TitleSuffix(v)|
    ensures t[..|TitlePrefix(v)|] == TitlePrefix(v)
    ensures t[|t| - |TitleSuffix(v)|..] == TitleSuffix(v)
  {
    TitlePrefix(v) + prompt + TitleSuffix(v)
  }

  /** The user's prompt is embedded verbatim: it can be read back out of the title prompt. */
  lemma TitlePromptEmbedsPrompt(v: Variant, prompt: string)
    ensures TitlePrompt(v, prompt)[|TitlePrefix(v)|..|TitlePrefix(v)| + |prompt|] == prompt
    ensures forall other :: TitlePrompt(v, other) == TitlePrompt(v, prompt) ==> other == prompt
  {
    forall other | TitlePrompt(v, other) == TitlePrompt(v, prompt)
      ensures other == prompt
    {
      var t := TitlePrompt(v, prompt);
      assert t[|TitlePrefix(v)|..|TitlePrefix(v)| + |other|] == other;
    }
  }

  // ---------------------------------------------------------------------------
  // history

  /** `convo.map(m => ({role: m.sender === "user" ? "user" : "model", parts: [{text: m.message}]}))` */
  function History(convo: seq<Turn>): (h: seq<HistoryEntry>)
    ensures |h| == |convo|
    ensures forall i :: 0 <= i < |convo| ==>
              && h[i].text == convo[i].message
              && (h[i].role == UserRole <==> convo[i].sender == User)
  {
    Map((t: Turn) => HistoryEntry(if t.sender == User then UserRole else ModelRole, t.message), convo)
  }

  /**
   * The history of a transcript that ends with the user's new turn ends with that
   * prompt in the user role, and the earlier entries are the earlier turns' history.
   */
  lemma HistoryEndsWithPrompt(convo: seq<Turn>, prompt: string, now: Date)
    ensures var h := History(convo + [Turn(User, prompt, now)]);
            h == History(convo) + [HistoryEntry(UserRole, prompt)]
  {
    var h := History(convo + [Turn(User, prompt, now)]);
    assert forall i :: 0 <= i < |convo| ==> (convo + [Turn(User, prompt, now)])[i] == convo[i];
  }

  // ---------------------------------------------------------------------------
  // context

  /** The retrieved chunks as one string: `chunks.join("\n\n")`. */
  function ContextOf(chunks: seq<string>): string
  {
    Join(chunks, "\n\n")
  }

  const ContextTurnPrefix := "Relevant information retrieved:\n\n"

  /**
   * The `system` turn that records the context, if any: the server handler adds
   * one whenever a chunk came back, prefixed; the route module adds the bare
   * context whenever that string is non-empty.
   */
  function ContextTurnMessage(v: Variant, chunks: seq<string>): (m: Option<string>)
    ensures v == ServerRoute ==> (m.Some? <==> |chunks| > 0)
    ensures v == RefactoredRoute ==> (m.Some? <==> ContextOf(chunks) != "")
    ensures m.Some? ==> m.value != ""
  {
    match v
    case ServerRoute =>
      if |chunks| > 0 then Some(ContextTurnPrefix + ContextOf(chunks)) else None
    case RefactoredRoute =>
      if ContextOf(chunks) != "" then Some(ContextOf(chunks)) else None
  }

  /**
   * The text of the context turn: the server handler's is the prefix followed by
   * the joined chunks, the route module's is the joined chunks alone.
   */
  lemma ContextTurnText(v: Variant, chunks: seq<string>)
    ensures var m := ContextTurnMessage(v, chunks);
            && (v == ServerRoute && m.Some? ==>
                  && |m.value| == |ContextTurnPrefix| + |ContextOf(chunks)|
                  && m.value[..|ContextTurnPrefix|] == ContextTurnPrefix
                  && m.value[|ContextTurnPrefix|..] == ContextOf(chunks))
            && (v == RefactoredRoute && m.Some? ==> m.value == ContextOf(chunks))
  {
  }

  /** The turns a handler appends for the context: none, or one `system` turn. */
  function ContextTurns(v: Variant, chunks: seq<string>, now: Date): (turns: seq<Turn>)
    ensures |turns| <= 1
    ensures forall t :: t in turns ==> t.sender == System && ValidTurn(t)
  {
    match ContextTurnMessage(v, chunks)
    case None => []
    case Some(m) => [Turn(System, m, now)]
  }

  /**
   * The two handlers' conditions for the context turn disagree on exactly one
   * retrieval result: a single empty chunk, which the server handler records and
   * the route module does not.
   */
  lemma {:induction false} ContextTurnConditionsDiffer(chunks: seq<string>)
    ensures ContextTurnMessage(ServerRoute, chunks).Some? != ContextTurnMessage(RefactoredRoute, chunks).Some?
            <==> chunks == [""]
  {
    JoinEmpty(chunks, "\n\n");
  }

  // ---------------------------------------------------------------------------
  // system instruction

  const ServerOpening := "User has observed a health symptom. Ask very few questions to gather more insights."
  const ServerFollowUp := "You are a helpful women's health assistant. Keep responses friendly and concise. Get to the root of the user's health cause. You have been provided with relevant information to assist the user. Do not ask the user to visit the doctor. Do not make up any information. Do not pass the provided information to the user. Do not say 'I am an AI model' or anything similar."
  const RefactoredOpening := "User has observed a health symptom. Ask minimal questions."
  const RefactoredFollowUp := "You are a helpful women's health assistant."

  /** The fixed instruction, chosen by whether this turn opens the chat. */
  function BaseInstruction(v: Variant, firstMessage: bool): string
  {
    match v
    case ServerRoute => if firstMessage then ServerOpening else ServerFollowUp
    case RefactoredRoute => if firstMessage then RefactoredOpening else RefactoredFollowUp
  }

  function ContextHeader(v: Variant): string
  {
    match v
    case ServerRoute => "\n\nRelevant Context:\n"
    case RefactoredRoute => "\n\nContext:\n"
  }

  /** The system instruction: the base, followed by the header and the context when there is any. */
  function SystemInstruction(v: Variant, firstMessage: bool, context: string): (s: string)
    ensures |s| >= |BaseInstruction(v, firstMessage)|
    ensures s[..|BaseInstruction(v, firstMessage)|] == BaseInstruction(v, firstMessage)
  {
    if context != "" then BaseInstruction(v, firstMessage) + ContextHeader(v) + context
    else BaseInstruction(v, firstMessage)
  }

  /**
   * The context can be read back from the instruction: the instruction is the bare
   * base exactly when there is no context, and otherwise the context is what
   * follows the base and the header.
   */
  lemma SystemInstructionRecoversContext(v: Variant, firstMessage: bool, context: string)
    ensures var s := SystemInstruction(v, firstMessage, context);
            && (s == BaseInstruction(v, firstMessage) <==> context == "")
            && (context != "" ==> s[|BaseInstruction(v, firstMessage) + ContextHeader(v)|..] == context)
  {
    var base := BaseInstruction(v, firstMessage);
    var s := SystemInstruction(v, firstMessage, context);
    if context != "" {
      assert |s| == |base| + |ContextHeader(v)| + |context| > |base|;
    }
  }

  // ---------------------------------------------------------------------------
  // streaming

  /** A fragment that is written out: its text is present and non-empty. */
  predicate Truthy(f: Option<string>)
  {
    f.Some? && f.value != ""
  }

  /** The texts written out, in order: those of the truthy fragments. */
  function WrittenTexts(fragments: seq<Option<string>>): seq<string>
  {
    if |fragments| == 0 then []
    else
      var last := fragments[|fragments| - 1];
      WrittenTexts(fragments[..|fragments| - 1]) + (if Truthy(last) then [last.value] else [])
  }

  /** A fragment's text, an absent one as "". */
  function TextOf(f: Option<string>): string
  {
    if f.Some? then f.value else ""
  }

  /** Every fragment's text, in order. */
  function AllTexts(fragments: seq<Option<string>>): seq<string>
  {
    if |fragments| == 0 then []
    else AllTexts(fragments[..|fragments| - 1]) + [TextOf(fragments[|fragments| - 1])]
  }

  /**
   * The `for await` loop: every truthy fragment text is written out and appended
   * to `fullResponse`, in arrival order. The loop runs to the end of what arrived;
   * whether the stream then throws is the caller's concern.
   */
  method StreamResponse(stream: Stream) returns (fullResponse: string, written: seq<string>)
    ensures written == WrittenTexts(stream.fragments)
    ensures fullResponse == Concat(written)
  {
    fullResponse := "";
    written := [];
    for i := 0 to |stream.fragments|
      invariant written == WrittenTexts(stream.fragments[..i])
      invariant fullResponse == Concat(written)
    {
      var f := stream.fragments[i];
      assert stream.fragments[..i + 1][..i] == stream.fragments[..i];
      if f.Some? && f.value != "" {
        ConcatAppend(written, f.value);
        fullResponse := fullResponse + f.value;
        written := written + [f.value];
      }
    }
    assert stream.fragments[..|stream.fragments|] == stream.fragments;
  }

  /**
   * Skipping the absent and empty fragments loses nothing: the accumulated text
   * is all the fragments' text, and it is empty exactly when no fragment is truthy.
   */
  lemma {:induction false} WrittenIsAllText(fragments: seq<Option<string>>)
    ensures Concat(WrittenTexts(fragments)) == Concat(AllTexts(fragments))
    ensures Concat(WrittenTexts(fragments)) == "" <==> forall i :: 0 <= i < |fragments| ==> !Truthy(fragments[i])
  {
    if |fragments| > 0 {
      var init := fragments[..|fragments| - 1];
      var last := fragments[|fragments| - 1];
      WrittenIsAllText(init);
      assert AllTexts(fragments) == AllTexts(init) + [TextOf(last)];
      ConcatAppend(AllTexts(init), TextOf(last));
      if Truthy(last) {
        assert WrittenTexts(fragments) == WrittenTexts(init) + [last.value];
        ConcatAppend(WrittenTexts(init), last.value);
      } else {
        assert WrittenTexts(fragments) == WrittenTexts(init) + [] == WrittenTexts(init);
        assert Concat(AllTexts(init)) + TextOf(last) == Concat(AllTexts(init));
      }
      assert forall i :: 0 <= i < |init| ==> init[i] == fragments[i];
    }
  }
}
