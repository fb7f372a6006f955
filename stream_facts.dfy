/** Properties of a chat turn that relate several of its stages. */
module StreamFacts {
  import opened Wire
  import opened Stream
  import Scanner
  import SensitiveDataHandler

  /** The moderation error names every reason: each one occurs in the joined list. */
  lemma {:induction false} JoinNamesEveryPart(parts: seq<string>, sep: string, i: nat)
    requires i < |parts|
    ensures exists j: nat :: Scanner.OccursAt(Join(parts, sep), parts[i], j)
  {
    var whole := Join(parts, sep);
    if |parts| == 1 {
      assert whole[0..|parts[0]|] == parts[0];
      assert Scanner.OccursAt(whole, parts[i], 0);
    } else if i == 0 {
      assert whole == parts[0] + (sep + Join(parts[1..], sep));
      assert whole[0..|parts[0]|] == parts[0];
      assert Scanner.OccursAt(whole, parts[i], 0);
    } else {
      var tail := Join(parts[1..], sep);
      JoinNamesEveryPart(parts[1..], sep, i - 1);
      var j: nat :| Scanner.OccursAt(tail, parts[1..][i - 1], j);
      var at := |parts[0]| + |sep| + j;
      assert whole == (parts[0] + sep) + tail;
      assert whole[at..at + |parts[i]|] == tail[j..j + |parts[i]|];
      assert Scanner.OccursAt(whole, parts[i], at);
    }
  }

  lemma ModerationErrorNamesEveryReason(uuid: string, reasons: seq<string>, i: nat)
    requires i < |reasons|
    ensures ModerationAbort(uuid, reasons).error.Message?
    ensures exists j: nat :: Scanner.OccursAt(ModerationAbort(uuid, reasons).error.text, reasons[i], j)
  {
    var text := ModerationPrefix + Join(reasons, ", ") + " found.";
    JoinNamesEveryPart(reasons, ", ", i);
    var j: nat :| Scanner.OccursAt(Join(reasons, ", "), reasons[i], j);
    var at := |ModerationPrefix| + j;
    assert text == ModerationPrefix + (Join(reasons, ", ") + " found.");
    assert text[at..at + |reasons[i]|] == Join(reasons, ", ")[j..j + |reasons[i]|];
    assert Scanner.OccursAt(text, reasons[i], at);
  }

  /** Whenever the scanner finds something, the turn's first event is sensitiveDataDetected with the redacted text. */
  lemma SensitiveEventComesFirst(uuid: string, message: string, chatMode: string, ws: Workspace, inp: Collaborators,
                                 events: seq<Chunk>, calls: seq<Call>, outcome: Outcome)
    requires Turn(uuid, message, chatMode, ws, inp, events, calls, outcome)
    requires PassesModeration(inp) && Found(message)
    ensures |events| >= 1 && events[0] == SensitiveEvent(uuid, SensitiveDataHandler.CheckForSensitiveData(message).redactedMessage)
    ensures calls[..2] == [IsSafe(message), WaitForChoice]
  {
    assert Prelude(uuid, message) <= events;
    assert GateCalls(message) <= calls;
  }

  /** One source and one context text per pinned document, in document order. */
  lemma {:induction false} PinnedInOrder(docs: seq<Doc>)
    ensures |PinnedSources(docs)| == |docs| && |PinnedTexts(docs)| == |docs|
    ensures forall i | 0 <= i < |docs| :: PinnedSources(docs)[i] == PinnedSource(docs[i])
    ensures forall i | 0 <= i < |docs| :: PinnedTexts(docs)[i] == docs[i].pageContent
  {
    if |docs| > 0 {
      var front := docs[..|docs| - 1];
      PinnedInOrder(front);
      forall i | 0 <= i < |front| ensures front[i] == docs[i] { }
    }
  }

  /** A pinned source's text is at most the first 1000 characters of the document, then the marker. */
  lemma PinnedSourceText(d: Doc)
    ensures Head(d.pageContent, 1000) <= d.pageContent
    ensures PinnedSource(d).text[..|PinnedSource(d).text| - |Continued|] == Head(d.pageContent, 1000)
    ensures PinnedSource(d).text[|PinnedSource(d).text| - |Continued|..] == Continued
    ensures |PinnedSource(d).text| == (if |d.pageContent| <= 1000 then |d.pageContent| else 1000) + |Continued|
  {
    var h := Head(d.pageContent, 1000);
    assert (h + Continued)[..|h|] == h;
    assert (h + Continued)[|h|..] == Continued;
  }

  /** The answer's sources: the pinned ones first, then the vector ones. */
  lemma SourcesOrder(inp: Collaborators)
    ensures |AllSources(inp)| == |inp.pinnedDocs| + |Retrieved(inp).sources|
    ensures forall i | 0 <= i < |inp.pinnedDocs| :: AllSources(inp)[i] == PinnedSource(inp.pinnedDocs[i])
    ensures AllSources(inp)[|inp.pinnedDocs|..] == Retrieved(inp).sources
  {
    PinnedInOrder(inp.pinnedDocs);
  }

  /** A pinned document keeps query mode from the zero-sources exit. */
  lemma PinnedDocsAvoidNoSourcesExit(chatMode: string, inp: Collaborators)
    requires |inp.pinnedDocs| > 0 && !CorpusEmpty(chatMode, inp) && !Truthy(Retrieved(inp).message)
    ensures Answers(chatMode, inp)
  {
    PinnedInOrder(inp.pinnedDocs);
  }

  predicate Searched(calls: seq<Call>) { exists k | 0 <= k < |calls| :: calls[k].SimilaritySearch? }

  /** After the gate, the similarity search runs exactly when the corpus check passed and there are embeddings, on the working message. */
  lemma SearchOnlyWithEmbeddings(uuid: string, working: string, chatMode: string, ws: Workspace,
                                 inp: Collaborators, events: seq<Chunk>, calls: seq<Call>)
    requires Respond(uuid, working, chatMode, ws, inp, events, calls)
    ensures Searched(calls) <==> !CorpusEmpty(chatMode, inp) && inp.embeddingsCount != 0
    ensures forall k | 0 <= k < |calls| && calls[k].SimilaritySearch? :: calls[k].input == working
  {
    var pre := RetrievalCalls(working, ws, inp);
    if CorpusEmpty(chatMode, inp) {
      assert calls == [HasNamespace, NamespaceCount];
    } else if !Answers(chatMode, inp) {
      assert calls == pre;
      if inp.embeddingsCount != 0 {
        assert calls[4].SimilaritySearch?;
      }
    } else {
      var post := [Compress(working, AllTexts(inp))] + CompletionCalls(uuid, inp)
                  + [Persist(ChatRecord(working, inp.completion, AllSources(inp), chatMode))];
      assert calls == pre + post;
      assert forall k | 0 <= k < |post| :: !post[k].SimilaritySearch?;
      if inp.embeddingsCount != 0 {
        assert calls[4].SimilaritySearch?;
      }
    }
  }

  /** In query mode a turn that reaches retrieval always searches. */
  lemma QueryModeAlwaysSearches(uuid: string, working: string, ws: Workspace, inp: Collaborators,
                                events: seq<Chunk>, calls: seq<Call>)
    requires Respond(uuid, working, "query", ws, inp, events, calls) && !CorpusEmpty("query", inp)
    ensures Searched(calls)
  {
    SearchOnlyWithEmbeddings(uuid, working, "query", ws, inp, events, calls);
  }

  /** After the gate every path ends with a closed event: one event keyed by `id` on an early exit, the finalize event otherwise. */
  lemma {:induction false} TurnEndsClosed(uuid: string, working: string, chatMode: string, ws: Workspace,
                                           inp: Collaborators, events: seq<Chunk>, calls: seq<Call>)
    requires Respond(uuid, working, chatMode, ws, inp, events, calls)
    ensures |events| >= 1 && events[|events| - 1].close
    ensures Answers(chatMode, inp) ==> events[|events| - 1] == FinalizeEvent(uuid, inp.chatId)
    ensures !Answers(chatMode, inp) ==> |events| == 1 && events[0].id == Some(uuid) && events[0].uuid.None?
  {
    if CorpusEmpty(chatMode, inp) {
    } else if Truthy(Retrieved(inp).message) {
    } else if !Answers(chatMode, inp) {
      assert events == [NoInfoEvent(uuid)];
    } else if inp.streaming {
      assert events == inp.streamed + [FinalizeEvent(uuid, inp.chatId)];
    } else {
      assert events == [CompletionChunk(uuid, AllSources(inp), inp.completion), FinalizeEvent(uuid, inp.chatId)];
    }
  }

  /** The completion path stores exactly one chat, whose prompt is the working message. */
  lemma PersistsWorkingMessage(uuid: string, working: string, chatMode: string, ws: Workspace,
                               inp: Collaborators, events: seq<Chunk>, calls: seq<Call>)
    requires Respond(uuid, working, chatMode, ws, inp, events, calls) && Answers(chatMode, inp)
    ensures calls[|calls| - 1] == Persist(ChatRecord(working, inp.completion, AllSources(inp), chatMode))
    ensures forall k | 0 <= k < |calls| - 1 :: !calls[k].Persist?
  {
    var pre := RetrievalCalls(working, ws, inp) + [Compress(working, AllTexts(inp))] + CompletionCalls(uuid, inp);
    assert calls == pre + [Persist(ChatRecord(working, inp.completion, AllSources(inp), chatMode))];
    assert forall k | 0 <= k < |pre| :: !pre[k].Persist?;
  }

  /**
   The message the rest of the turn works on is the redacted text in every
   case (with nothing found that is the message itself), and it differs from
   the message exactly when something was found.
   */
  lemma WorkingIsRedacted(message: string)
    ensures Working(message) == SensitiveDataHandler.CheckForSensitiveData(message).redactedMessage
    ensures Working(message) == message <==> !Found(message)
  {
  }
}
