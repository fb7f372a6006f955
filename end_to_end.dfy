/** The server's events as the client folds them in: where the `id` / `uuid` keys meet. */
module EndToEnd {
  import opened Wire
  import Stream
  import opened ChatClient
  import opened ChatClientFacts

  /**
   The early-exit events of the server carry the turn id under `id`, while
   handleChat keys entries by `uuid`: the entry they produce has no uuid, so a
   later finalize for the same turn cannot find it.
   */
  lemma EarlyExitEntriesHaveNoUuid(h: seq<Entry>, uuid: string, error: string)
    ensures Apply(h, Stream.AbortEvent(uuid, error))[|h|].uuid.None?
    ensures Apply(h, Stream.AbortEvent(uuid, error))[|h|].content.None?
    ensures Apply(h, Stream.AbortEvent(uuid, error))[|h|].error == Message(error)
    ensures Apply(h, Stream.NoInfoEvent(uuid))[|h|].uuid.None?
    ensures Apply(h, Stream.NoInfoEvent(uuid))[|h|].content == Some(Stream.NoInfoText)
    ensures FirstMatch(Apply(h, Stream.NoInfoEvent(uuid)), Some(uuid)) == FirstMatch(h, Some(uuid))
  {
    var out := Apply(h, Stream.NoInfoEvent(uuid));
    var i := FirstMatch(h, Some(uuid));
    var j := FirstMatch(out, Some(uuid));
    assert out == h + [NewEntry(Stream.NoInfoEvent(uuid))];
    if i == -1 {
      assert forall k | 0 <= k < |out| :: out[k].uuid != Some(uuid) by {
        forall k | 0 <= k < |out| ensures out[k].uuid != Some(uuid) {
          if k < |h| { assert out[k] == h[k]; }
        }
      }
    } else {
      assert out[i] == h[i];
      assert !(j < i) && !(i < j);
    }
  }

  /**
   A non-streaming turn on a transcript that has no entry for it yet: the
   completion chunk and the finalize event leave one closed entry holding the
   full answer, its sources and the stored chat id, and stop the spinner.
   */
  lemma NonStreamingTurnAddsOneEntry(h: seq<Entry>, uuid: string, sources: seq<Source>, text: string,
                                     chatId: int, loading: bool)
    requires forall k | 0 <= k < |h| :: h[k].uuid != Some(uuid)
    ensures Apply(Apply(h, Stream.CompletionChunk(uuid, sources, text)), Stream.FinalizeEvent(uuid, chatId))
            == h + [Entry(Some(uuid), Some(text), "assistant", sources, true, False, false, false, Some(chatId))]
    ensures !LoadingAfter(LoadingAfter(loading, Stream.CompletionChunk(uuid, sources, text)),
                          Stream.FinalizeEvent(uuid, chatId))
  {
    var c, f := Stream.CompletionChunk(uuid, sources, text), Stream.FinalizeEvent(uuid, chatId);
    ChunkForUnknownUuidAppends(h, c);
    FinalizeStampsChatId(h + [NewEntry(c)], loading, f, |h|);
  }
}
