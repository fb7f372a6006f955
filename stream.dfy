/**
 One chat turn on the server: streamChatWithWorkspace. The function runs a fixed
 sequence of stages and leaves early after writing an event: command dispatch,
 moderation, the sensitive-data gate, the empty-corpus exit of query mode,
 pinned and vector retrieval, the retrieval-failure abort, the zero-sources exit
 of query mode, the completion (in one piece or streamed), persistence and the
 finalize event.

 Every collaborator (command handlers, the LLM connector, the vector database,
 the document manager, the chat store, the wait for the user's choice) is
 replaced by the value it returns, gathered in a Collaborators record. The
 response channel is the sequence of events written to it, and the calls made
 to collaborators are recorded in order so that "no retrieval happens" and "the
 search runs only when" can be stated.
 */
module Stream {
  import opened Wire
  import SensitiveDataHandler

  /** The outcome of waiting for the user's choice: the value posted back, or a rejected wait. */
  datatype Choice = Chose(value: string) | WaitRejected

  /** A pinned document: its text and the rest of its keys. */
  datatype Doc = Doc(pageContent: string, meta: string)

  /** What performSimilaritySearch resolves to; `message` is its error text, if any. */
  datatype VectorResult = VectorResult(contextTexts: seq<string>, sources: seq<Source>, message: Option<string>)

  /** The workspace setting the turn reads itself: openAiHistory (null is None). */
  datatype Workspace = Workspace(openAiHistory: Option<int>)

  /** The results the collaborators hand back during one turn. */
  datatype Collaborators = Collaborators(
    command: Option<Chunk>,     // a valid command was found: what its handler returned
    safe: bool,                 // isSafe's verdict
    reasons: seq<string>,       // its reasons (an absent list is empty)
    choice: Choice,             // waitForUserChoice's outcome
    hasNamespace: bool,
    embeddingsCount: int,
    pinnedDocs: seq<Doc>,
    vector: VectorResult,
    streaming: bool,            // streamingEnabled() === true
    completion: string,         // the text getChatCompletion or handleStream returns
    streamed: seq<Chunk>,       // the events handleStream writes itself
    chatId: int)                // the id of the stored chat

  /** What WorkspaceChats.new stores: the prompt, the answer, its sources and the mode. */
  datatype ChatRecord = ChatRecord(prompt: string, text: string, sources: seq<Source>, mode: string)

  /** The collaborator calls of a turn, with the arguments that matter. */
  datatype Call =
    | RunCommand
    | IsSafe(message: string)
    | WaitForChoice
    | HasNamespace
    | NamespaceCount
    | RecentHistory(messageLimit: int)
    | PinnedDocs
    | SimilaritySearch(input: string)
    | Compress(userPrompt: string, contextTexts: seq<string>)
    | ChatCompletion
    | StreamCompletion
    | HandleStream(uuid: string, sources: seq<Source>)
    | Persist(record: ChatRecord)

  /** The turn's promise resolves, or rejects because the wait for the choice did. */
  datatype Outcome = Returned | Rejected

  // ----- the events the turn writes -----

  const NoInfoText: string := "There is no relevant information in this workspace to answer your query."
  const ModerationPrefix: string := "This message was moderated and will not be allowed. Violations for "
  const SensitiveAbortText: string := "This message was moderated and will not be allowed. Violations for sensitve data found."
  const Continued: string := "...continued on in source document..."

  /** Array.prototype.join. */
  function Join(parts: seq<string>, sep: string): string {
    if |parts| == 0 then "" else if |parts| == 1 then parts[0] else parts[0] + sep + Join(parts[1..], sep)
  }

  function AbortEvent(uuid: string, error: string): Chunk {
    Chunk(Some(uuid), None, "abort", None, Some([]), true, Message(error), None, None)
  }

  function ModerationAbort(uuid: string, reasons: seq<string>): Chunk {
    AbortEvent(uuid, ModerationPrefix + Join(reasons, ", ") + " found.")
  }

  function SensitiveEvent(uuid: string, redacted: string): Chunk {
    Chunk(Some(uuid), None, "sensitiveDataDetected", None, None, false, Null, None, Some(redacted))
  }

  function NoInfoEvent(uuid: string): Chunk {
    Chunk(Some(uuid), None, "textResponse", Some(NoInfoText), Some([]), true, Null, None, None)
  }

  function CompletionChunk(uuid: string, sources: seq<Source>, text: string): Chunk {
    Chunk(None, Some(uuid), "textResponseChunk", Some(text), Some(sources), true, False, None, None)
  }

  function FinalizeEvent(uuid: string, chatId: int): Chunk {
    Chunk(None, Some(uuid), "finalizeResponseStream", None, None, true, False, Some(chatId), None)
  }

  // ----- the values the stages compute -----

  /** `workspace?.openAiHistory || 20`: null and 0 fall back to 20. */
  function MessageLimit(openAiHistory: Option<int>): (n: int)
    ensures n != 0
    ensures openAiHistory.Some? && openAiHistory.value != 0 ==> n == openAiHistory.value
    ensures openAiHistory.None? || openAiHistory.value == 0 ==> n == 20
  {
    if openAiHistory.Some? && openAiHistory.value != 0 then openAiHistory.value else 20
  }

  /** String.prototype.slice(0, n). */
  function Head(s: string, n: nat): (r: string)
    ensures |r| <= n && r <= s
    ensures |s| <= n ==> r == s
    ensures |s| > n ==> |r| == n
  {
    if |s| <= n then s else s[..n]
  }

  /** The source a pinned document contributes. */
  function PinnedSource(d: Doc): Source {
    Source(Head(d.pageContent, 1000) + Continued, d.meta)
  }

  /** The sources the forEach over the pinned documents pushes, in order. */
  function PinnedSources(docs: seq<Doc>): seq<Source> {
    if |docs| == 0 then [] else PinnedSources(docs[..|docs| - 1]) + [PinnedSource(docs[|docs| - 1])]
  }

  /** The context texts the same forEach pushes: each document's full text. */
  function PinnedTexts(docs: seq<Doc>): seq<string> {
    if |docs| == 0 then [] else PinnedTexts(docs[..|docs| - 1]) + [docs[|docs| - 1].pageContent]
  }

  /** A string is truthy when present and non-empty. */
  predicate Truthy(m: Option<string>) { m.Some? && m.value != "" }

  /** What the turn holds as the search result: the search runs only when there are embeddings. */
  function Retrieved(inp: Collaborators): VectorResult {
    if inp.embeddingsCount != 0 then inp.vector else VectorResult([], [], None)
  }

  /** The sources of the answer: pinned ones first, then the vector ones. */
  function AllSources(inp: Collaborators): seq<Source> {
    PinnedSources(inp.pinnedDocs) + Retrieved(inp).sources
  }

  function AllTexts(inp: Collaborators): seq<string> {
    PinnedTexts(inp.pinnedDocs) + Retrieved(inp).contextTexts
  }

  // ----- the branches, as conditions on the inputs -----

  predicate Found(message: string) { SensitiveDataHandler.CheckForSensitiveData(message).containsSensitiveData }

  /** No command ran and the moderation let the message through. */
  predicate PassesModeration(inp: Collaborators) { inp.command.None? && inp.safe }

  /** The turn goes past the sensitive-data gate. */
  predicate PassesGate(message: string, inp: Collaborators) {
    PassesModeration(inp) && (Found(message) ==> inp.choice.Chose? && inp.choice.value != "abort")
  }

  /** The message the rest of the turn works on: the redacted one once the user chose to go on. */
  function Working(message: string): string {
    if Found(message) then SensitiveDataHandler.CheckForSensitiveData(message).redactedMessage else message
  }

  predicate CorpusEmpty(chatMode: string, inp: Collaborators) {
    (!inp.hasNamespace || inp.embeddingsCount == 0) && chatMode == "query"
  }

  /** After the gate: the turn reaches the completion. */
  predicate Answers(chatMode: string, inp: Collaborators) {
    !CorpusEmpty(chatMode, inp) && !Truthy(Retrieved(inp).message)
    && !(chatMode == "query" && |AllSources(inp)| == 0)
  }

  /** The turn reaches the completion. */
  predicate Completes(message: string, chatMode: string, inp: Collaborators) {
    PassesGate(message, inp) && Answers(chatMode, inp)
  }

  /** The sensitiveDataDetected event, when there is one. */
  function Prelude(uuid: string, message: string): seq<Chunk> {
    if Found(message) then [SensitiveEvent(uuid, SensitiveDataHandler.CheckForSensitiveData(message).redactedMessage)] else []
  }

  /** The calls up to the gate: isSafe on the original message, then the wait when something was found. */
  function GateCalls(message: string): seq<Call> {
    [IsSafe(message)] + (if Found(message) then [WaitForChoice] else [])
  }

  /** The calls of the retrieval stage. */
  function RetrievalCalls(working: string, ws: Workspace, inp: Collaborators): seq<Call> {
    [HasNamespace, NamespaceCount, RecentHistory(MessageLimit(ws.openAiHistory)), PinnedDocs]
    + (if inp.embeddingsCount != 0 then [SimilaritySearch(working)] else [])
  }

  function CompletionCalls(uuid: string, inp: Collaborators): seq<Call> {
    if inp.streaming then [StreamCompletion, HandleStream(uuid, AllSources(inp))] else [ChatCompletion]
  }

  predicate NoPersist(calls: seq<Call>) { forall k | 0 <= k < |calls| :: !calls[k].Persist? }

  /** What a whole turn writes, calls and returns, as a relation between the inputs and the traces. */
  predicate Turn(uuid: string, message: string, chatMode: string, ws: Workspace, inp: Collaborators,
                 events: seq<Chunk>, calls: seq<Call>, outcome: Outcome)
  {
    // a recognised command: its handler's result and nothing else
    (inp.command.Some? ==> events == [inp.command.value] && calls == [RunCommand] && outcome == Returned)
    // moderation: one abort naming the reasons
    && (inp.command.None? && !inp.safe ==>
          events == [ModerationAbort(uuid, inp.reasons)] && calls == [IsSafe(message)] && outcome == Returned)
    // the gate: a rejected wait ends the turn after the sensitiveDataDetected event ...
    && (PassesModeration(inp) && Found(message) && inp.choice == WaitRejected ==>
          events == Prelude(uuid, message) && calls == GateCalls(message))
    // ... and only the exact choice "abort" ends it with an abort
    && (PassesModeration(inp) && Found(message) && inp.choice == Chose("abort") ==>
          events == Prelude(uuid, message) + [AbortEvent(uuid, SensitiveAbortText)] && calls == GateCalls(message)
          && outcome == Returned)
    && (outcome == Rejected <==> PassesModeration(inp) && Found(message) && inp.choice == WaitRejected)
    // past the gate the rest of the turn works on the working message
    && (PassesGate(message, inp) ==>
          Prelude(uuid, message) <= events && GateCalls(message) <= calls && outcome == Returned
          && Respond(uuid, Working(message), chatMode, ws, inp,
                     events[|Prelude(uuid, message)|..], calls[|GateCalls(message)|..]))
    // only a turn that reaches the completion stores a chat
    && (!Completes(message, chatMode, inp) ==> NoPersist(calls))
  }

  /**
   streamChatWithWorkspace. uuid is the turn id uuidv4() draws; chatMode and
   the workspace setting are the caller's; inp holds what the collaborators return.
   */
  method StreamChatWithWorkspace(uuid: string, message: string, chatMode: string, ws: Workspace, inp: Collaborators)
    returns (events: seq<Chunk>, calls: seq<Call>, outcome: Outcome)
    ensures Turn(uuid, message, chatMode, ws, inp, events, calls, outcome)
  {
    events, calls, outcome := [], [], Returned;

    // command dispatch
    if inp.command.Some? {
      calls := calls + [RunCommand];
      events := events + [inp.command.value];
      return;
    }

    // moderation
    calls := calls + [IsSafe(message)];
    if !inp.safe {
      events := events + [ModerationAbort(uuid, inp.reasons)];
      return;
    }

    // the sensitive-data gate
    var gateEvents, gateCalls, working, go;
    gateEvents, gateCalls, outcome, working, go := Gate(uuid, message, inp.choice);
    events, calls := gateEvents, calls + gateCalls;
    if !go {
      return;
    }

    assert events == Prelude(uuid, message) && calls == GateCalls(message);
    var rest, more := Answer(uuid, working, chatMode, ws, inp);
    events, calls := events + rest, calls + more;
    TurnPastGate(uuid, message, chatMode, ws, inp, rest, more);
  }

  /** A turn that passes the gate is the gate's prelude followed by what Answer writes and calls. */
  lemma TurnPastGate(uuid: string, message: string, chatMode: string, ws: Workspace, inp: Collaborators,
                     rest: seq<Chunk>, more: seq<Call>)
    requires PassesGate(message, inp) && Respond(uuid, Working(message), chatMode, ws, inp, rest, more)
    ensures Turn(uuid, message, chatMode, ws, inp, Prelude(uuid, message) + rest, GateCalls(message) + more, Returned)
  {
    var events, calls := Prelude(uuid, message) + rest, GateCalls(message) + more;
    assert events[|Prelude(uuid, message)|..] == rest;
    assert calls[|GateCalls(message)|..] == more;
    if !Completes(message, chatMode, inp) {
      assert NoPersist(more);
      forall k | 0 <= k < |calls| ensures !calls[k].Persist? {
        if k >= |GateCalls(message)| {
          assert calls[k] == more[k - |GateCalls(message)|];
        }
      }
    }
  }

  /** The sensitive-data gate: the scan, the sensitiveDataDetected event and the wait for the user's choice. */
  method Gate(uuid: string, message: string, choice: Choice)
    returns (events: seq<Chunk>, calls: seq<Call>, outcome: Outcome, working: string, go: bool)
    ensures calls == (if Found(message) then [WaitForChoice] else [])
    ensures go <==> (Found(message) ==> choice.Chose? && choice.value != "abort")
    ensures outcome == Rejected <==> Found(message) && choice == WaitRejected
    ensures go ==> events == Prelude(uuid, message) && working == Working(message)
    ensures !go && choice == Chose("abort") ==> events == Prelude(uuid, message) + [AbortEvent(uuid, SensitiveAbortText)]
    ensures !go && choice == WaitRejected ==> events == Prelude(uuid, message)
  {
    events, calls, outcome, working, go := [], [], Returned, message, true;
    var verdict := SensitiveDataHandler.CheckForSensitiveData(message);
    if verdict.containsSensitiveData {
      events := [SensitiveEvent(uuid, verdict.redactedMessage)];
      calls := [WaitForChoice];
      match choice
      case WaitRejected =>
        outcome, go := Rejected, false;
      case Chose(userChoice) =>
        if userChoice == "abort" {
          events, go := events + [AbortEvent(uuid, SensitiveAbortText)], false;
        } else {
          working := verdict.redactedMessage;
        }
    }
  }

  /** What the rest of a turn writes and calls, as a relation between the inputs and the two traces. */
  predicate Respond(uuid: string, working: string, chatMode: string, ws: Workspace, inp: Collaborators,
                     events: seq<Chunk>, calls: seq<Call>)
  {
    // query mode over an empty corpus
    (CorpusEmpty(chatMode, inp) ==>
       events == [NoInfoEvent(uuid)] && calls == [HasNamespace, NamespaceCount])
    // retrieval: the search runs on the working message, and only when there are embeddings
    && (!CorpusEmpty(chatMode, inp) ==> RetrievalCalls(working, ws, inp) <= calls)
    && (!CorpusEmpty(chatMode, inp) && Truthy(Retrieved(inp).message) ==>
          events == [AbortEvent(uuid, Retrieved(inp).message.value)] && calls == RetrievalCalls(working, ws, inp))
    && (!CorpusEmpty(chatMode, inp) && !Truthy(Retrieved(inp).message)
        && chatMode == "query" && |AllSources(inp)| == 0 ==>
          events == [NoInfoEvent(uuid)] && calls == RetrievalCalls(working, ws, inp))
    && (!Answers(chatMode, inp) ==> NoPersist(calls))
    // the completion path
    && (Answers(chatMode, inp) && !inp.streaming ==>
          events == [CompletionChunk(uuid, AllSources(inp), inp.completion), FinalizeEvent(uuid, inp.chatId)])
    && (Answers(chatMode, inp) && inp.streaming ==>
          events == inp.streamed + [FinalizeEvent(uuid, inp.chatId)])
    && (Answers(chatMode, inp) ==>
          calls == RetrievalCalls(working, ws, inp) + [Compress(working, AllTexts(inp))] + CompletionCalls(uuid, inp)
                   + [Persist(ChatRecord(working, inp.completion, AllSources(inp), chatMode))])
  }

  /** The turn after the gate: the empty-corpus exit, retrieval, its failure, the zero-sources exit, the completion. */
  method Answer(uuid: string, working: string, chatMode: string, ws: Workspace, inp: Collaborators)
    returns (events: seq<Chunk>, calls: seq<Call>)
    ensures Respond(uuid, working, chatMode, ws, inp, events, calls)
  {
    var messageLimit := MessageLimit(ws.openAiHistory);
    calls := [HasNamespace, NamespaceCount];
    if (!inp.hasNamespace || inp.embeddingsCount == 0) && chatMode == "query" {
      events := [NoInfoEvent(uuid)];
      return;
    }

    // pinned documents
    calls := calls + [RecentHistory(messageLimit), PinnedDocs];
    var contextTexts, sources := PushPinned(inp.pinnedDocs);

    // vector search
    var searched: VectorResult;
    if inp.embeddingsCount != 0 {
      calls := calls + [SimilaritySearch(working)];
      searched := inp.vector;
    } else {
      searched := VectorResult([], [], None);
    }
    if Truthy(searched.message) {
      events := [AbortEvent(uuid, searched.message.value)];
      return;
    }
    contextTexts := contextTexts + searched.contextTexts;
    sources := sources + searched.sources;

    if chatMode == "query" && |sources| == 0 {
      events := [NoInfoEvent(uuid)];
      return;
    }

    // completion
    calls := calls + [Compress(working, contextTexts)];
    var completeText: string;
    if !inp.streaming {
      calls := calls + [ChatCompletion];
      completeText := inp.completion;
      events := [CompletionChunk(uuid, sources, completeText)];
    } else {
      calls := calls + [StreamCompletion, HandleStream(uuid, sources)];
      events := inp.streamed;
      completeText := inp.completion;
    }

    // persistence and finalize
    calls := calls + [Persist(ChatRecord(working, completeText, sources, chatMode))];
    events := events + [FinalizeEvent(uuid, inp.chatId)];
  }

  /** The forEach over the pinned documents: one context text and one source per document, in order. */
  method PushPinned(docs: seq<Doc>) returns (contextTexts: seq<string>, sources: seq<Source>)
    ensures contextTexts == PinnedTexts(docs) && sources == PinnedSources(docs)
  {
    contextTexts, sources := [], [];
    var k := 0;
    while k < |docs|
      invariant k <= |docs|
      invariant contextTexts == PinnedTexts(docs[..k]) && sources == PinnedSources(docs[..k])
    {
      assert docs[..k + 1][..k] == docs[..k];
      contextTexts := contextTexts + [docs[k].pageContent];
      sources := sources + [PinnedSource(docs[k])];
      k := k + 1;
    }
    assert docs[..k] == docs;
  }
}
