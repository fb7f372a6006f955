/**
 The browser side of a chat turn: handleChat folds one event from the server
 into the transcript. The caller's `_chatHistory` array is the `history` field
 of a ChatWindow, mutated in place by push and by assignment at an index; the
 two React setters are the `shown` and `loading` fields, each holding the last
 value passed to it (a setter that is not called leaves its field alone).
 */
module ChatClient {
  import opened Wire

  /** One transcript entry. A key the source leaves out and a null key are both None. */
  datatype Entry = Entry(
    uuid: Option<string>,
    content: Option<string>,
    role: string,
    sources: seq<Source>,
    closed: bool,
    error: ErrorField,
    animate: bool,
    pending: bool,
    chatId: Option<int>)

  /**
   The text a null operand contributes when JavaScript's `+` joins it with a
   string. When both operands are null `+` gives a number instead; that case is
   not modelled.
   */
  function JsText(s: Option<string>): string {
    if s.Some? then s.value else "null"
  }

  /** The destructuring default `sources = []`. */
  function SourcesOf(r: Chunk): seq<Source> {
    if r.sources.Some? then r.sources.value else []
  }

  /** Array.prototype.findIndex with `chat.uuid === uuid`: the first entry with that key, or -1. */
  function FirstMatch(h: seq<Entry>, uuid: Option<string>): (r: int)
    ensures -1 <= r < |h|
    ensures r == -1 <==> forall k | 0 <= k < |h| :: h[k].uuid != uuid
    ensures r >= 0 ==> h[r].uuid == uuid && forall k | 0 <= k < r :: h[k].uuid != uuid
  {
    if |h| == 0 then -1
    else if h[0].uuid == uuid then 0
    else
      var t := FirstMatch(h[1..], uuid);
      if t == -1 then -1 else t + 1
  }

  /** The entry the `abort` branch builds. */
  function AbortEntry(r: Chunk): Entry {
    Entry(r.uuid, r.textResponse, "assistant", SourcesOf(r), true, r.error, false, false, None)
  }

  /** The entry the `textResponse` branch builds, and the `textResponseChunk` branch for an unknown uuid. */
  function NewEntry(r: Chunk): Entry {
    Entry(r.uuid, r.textResponse, "assistant", SourcesOf(r), r.close, r.error, !r.close, false, r.chatId)
  }

  /** A chunk landing on an existing entry: its text is appended, the rest overwritten. */
  function Extended(e: Entry, r: Chunk): Entry {
    e.(content := Some(JsText(e.content) + JsText(r.textResponse)), sources := SourcesOf(r),
       error := r.error, closed := r.close, animate := !r.close, pending := false, chatId := r.chatId)
  }

  /** What stopGeneration makes of the last entry. */
  function Stopped(e: Entry): Entry {
    e.(sources := [], closed := true, error := Null, animate := false, pending := false)
  }

  /**
   The `_chatHistory` array after one event: no entry is ever removed, and an
   event either appends one entry after the old ones or rewrites at most one.
   */
  function Apply(h: seq<Entry>, r: Chunk): (next: seq<Entry>)
    ensures |h| <= |next| <= |h| + 1
    ensures |next| == |h| + 1 ==> next[..|h|] == h
    ensures |next| == |h| ==> forall j, k | 0 <= j < k < |h| :: next[j] == h[j] || next[k] == h[k]
  {
    if r.kind == "abort" then h + [AbortEntry(r)]
    else if r.kind == "textResponse" then h + [NewEntry(r)]
    else if r.kind == "textResponseChunk" then
      var i := FirstMatch(h, r.uuid);
      if i != -1 then h[i := Extended(h[i], r)] else h + [NewEntry(r)]
    else if r.kind == "finalizeResponseStream" then
      var i := FirstMatch(h, r.uuid);
      if i != -1 then h[i := h[i].(chatId := r.chatId)] else h
    else if r.kind == "stopGeneration" then
      if |h| == 0 then h else h[|h| - 1 := Stopped(h[|h| - 1])]
    else h
  }

  /** The last value handed to setChatHistory after one event. */
  function ShownAfter(h: seq<Entry>, shown: seq<Entry>, remHistory: seq<Entry>, r: Chunk): seq<Entry> {
    if r.kind == "abort" then remHistory + [AbortEntry(r)]
    else if r.kind == "textResponse" then remHistory + [NewEntry(r)]
    else if r.kind in {"textResponseChunk", "finalizeResponseStream", "stopGeneration"} then Apply(h, r)
    else shown
  }

  /** The last value handed to setLoadingResponse after one event. */
  function LoadingAfter(loading: bool, r: Chunk): bool {
    if r.kind in {"abort", "textResponse", "finalizeResponseStream", "stopGeneration", "sensitiveDataDetected"}
    then false else loading
  }

  /** The index findIndex returns, by a scan from the front. */
  method FindIndex(h: seq<Entry>, uuid: Option<string>) returns (idx: int)
    ensures idx == FirstMatch(h, uuid)
  {
    var k := 0;
    while k < |h|
      invariant k <= |h|
      invariant forall j | 0 <= j < k :: h[j].uuid != uuid
    {
      if h[k].uuid == uuid {
        return k;
      }
      k := k + 1;
    }
    return -1;
  }

  class ChatWindow {
    /** The `_chatHistory` array the caller passes in. */
    var history: seq<Entry>
    /** The last value passed to setChatHistory. */
    var shown: seq<Entry>
    /** The last value passed to setLoadingResponse. */
    var loading: bool

    constructor (history: seq<Entry>, shown: seq<Entry>, loading: bool)
      ensures this.history == history && this.shown == shown && this.loading == loading
    {
      this.history, this.shown, this.loading := history, shown, loading;
    }

    /** handleChat for one event; remHistory is the caller's transcript without the pending reply. */
    method HandleChat(chatResult: Chunk, remHistory: seq<Entry>)
      modifies this
      ensures history == Apply(old(history), chatResult)
      ensures shown == ShownAfter(old(history), old(shown), remHistory, chatResult)
      ensures loading == LoadingAfter(old(loading), chatResult)
    {
      var r := chatResult;
      if r.kind == "abort" {
        loading := false;
        shown := remHistory + [AbortEntry(r)];
        history := history + [AbortEntry(r)];
      } else if r.kind == "textResponse" {
        loading := false;
        shown := remHistory + [NewEntry(r)];
        history := history + [NewEntry(r)];
      } else if r.kind == "textResponseChunk" {
        var chatIdx := FindIndex(history, r.uuid);
        if chatIdx != -1 {
          history := history[chatIdx := Extended(history[chatIdx], r)];
        } else {
          history := history + [NewEntry(r)];
        }
        shown := history;
      } else if r.kind == "finalizeResponseStream" {
        var chatIdx := FindIndex(history, r.uuid);
        if chatIdx != -1 {
          history := history[chatIdx := history[chatIdx].(chatId := r.chatId)];
        }
        shown := history;
        loading := false;
      } else if r.kind == "stopGeneration" {
        // on an empty history the source writes a stray "-1" key, which the copy handed on does not carry
        if |history| > 0 {
          history := history[|history| - 1 := Stopped(history[|history| - 1])];
        }
        shown := history;
        loading := false;
      } else if r.kind == "sensitiveDataDetected" {
        loading := false;
      }
    }
  }

  // ----- chatPrompt -----

  /** The workspace setting chatPrompt reads: openAiPrompt (null or absent is None). */
  datatype Workspace = Workspace(openAiPrompt: Option<string>)

  const DefaultPrompt: string := "Given the following conversation, relevant context, and a follow up question, reply with an answer to the current question the user is asking. Return only your response to the question given the above information following the users instructions as needed."

  /** `workspace?.openAiPrompt ?? default`: only a missing workspace or a null prompt falls back. */
  function ChatPrompt(workspace: Option<Workspace>): (r: string)
    ensures workspace.Some? && workspace.value.openAiPrompt.Some? ==> r == workspace.value.openAiPrompt.value
    ensures workspace.None? || workspace.value.openAiPrompt.None? ==> r == DefaultPrompt
  {
    match workspace
    case Some(Workspace(Some(prompt))) => prompt
    case _ => DefaultPrompt
  }
}
