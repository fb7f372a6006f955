/** What one event, and a run of events, does to the client transcript. */
module ChatClientFacts {
  import opened Wire
  import opened ChatClient

  // ----- one event -----

  /** `abort` appends one closed, settled entry, shows it after remHistory and stops the spinner. */
  lemma AbortAppendsClosedEntry(h: seq<Entry>, shown: seq<Entry>, remHistory: seq<Entry>, loading: bool, r: Chunk)
    requires r.kind == "abort"
    ensures |Apply(h, r)| == |h| + 1 && Apply(h, r)[..|h|] == h
    ensures var e := Apply(h, r)[|h|];
      e.uuid == r.uuid && e.content == r.textResponse && e.role == "assistant" && e.sources == SourcesOf(r)
      && e.error == r.error && e.closed && !e.animate && !e.pending
      && ShownAfter(h, shown, remHistory, r) == remHistory + [e]
    ensures !LoadingAfter(loading, r)
  {
    assert (h + [AbortEntry(r)])[..|h|] == h;
  }

  /** `textResponse` appends one entry that is closed exactly when the event says so. */
  lemma TextResponseAppendsEntry(h: seq<Entry>, shown: seq<Entry>, remHistory: seq<Entry>, loading: bool, r: Chunk)
    requires r.kind == "textResponse"
    ensures |Apply(h, r)| == |h| + 1 && Apply(h, r)[..|h|] == h
    ensures var e := Apply(h, r)[|h|];
      e.uuid == r.uuid && e.content == r.textResponse && e.role == "assistant" && e.sources == SourcesOf(r)
      && e.error == r.error && e.closed == r.close && e.animate == !r.close && !e.pending && e.chatId == r.chatId
      && ShownAfter(h, shown, remHistory, r) == remHistory + [e]
    ensures !LoadingAfter(loading, r)
  {
    assert (h + [NewEntry(r)])[..|h|] == h;
  }

  /** A chunk for a known uuid extends the first entry with that uuid and touches nothing else. */
  lemma ChunkExtendsFirstMatch(h: seq<Entry>, shown: seq<Entry>, remHistory: seq<Entry>, loading: bool,
                               r: Chunk, i: nat)
    requires r.kind == "textResponseChunk"
    requires i < |h| && h[i].uuid == r.uuid && forall k | 0 <= k < i :: h[k].uuid != r.uuid
    ensures |Apply(h, r)| == |h|
    ensures forall k | 0 <= k < |h| && k != i :: Apply(h, r)[k] == h[k]
    ensures var e := Apply(h, r)[i];
      e.uuid == h[i].uuid && e.role == h[i].role
      && e.content == Some(JsText(h[i].content) + JsText(r.textResponse))
      && e.sources == SourcesOf(r) && e.error == r.error && e.chatId == r.chatId
      && e.closed == r.close && e.animate == !r.close && !e.pending
    ensures ShownAfter(h, shown, remHistory, r) == Apply(h, r) && LoadingAfter(loading, r) == loading
  {
    var j := FirstMatch(h, r.uuid);
    assert j != -1;
    assert !(j < i) && !(i < j);
  }

  /** A chunk for an unknown uuid appends one entry seeded with its text. */
  lemma ChunkForUnknownUuidAppends(h: seq<Entry>, r: Chunk)
    requires r.kind == "textResponseChunk"
    requires forall k | 0 <= k < |h| :: h[k].uuid != r.uuid
    ensures Apply(h, r) == h + [NewEntry(r)]
    ensures Apply(h, r)[|h|].content == r.textResponse
  {
  }

  /** finalizeResponseStream stamps the chat id on the first entry with its uuid, and changes nothing else. */
  lemma FinalizeStampsChatId(h: seq<Entry>, loading: bool, r: Chunk, i: nat)
    requires r.kind == "finalizeResponseStream"
    requires i < |h| && h[i].uuid == r.uuid && forall k | 0 <= k < i :: h[k].uuid != r.uuid
    ensures Apply(h, r) == h[i := h[i].(chatId := r.chatId)]
    ensures !LoadingAfter(loading, r)
  {
    var j := FirstMatch(h, r.uuid);
    assert !(j < i) && !(i < j);
  }

  /** ... and for an unknown uuid the history stays as it was: no entry is made up. */
  lemma FinalizeForUnknownUuidKeepsHistory(h: seq<Entry>, loading: bool, r: Chunk)
    requires r.kind == "finalizeResponseStream"
    requires forall k | 0 <= k < |h| :: h[k].uuid != r.uuid
    ensures Apply(h, r) == h
    ensures !LoadingAfter(loading, r)
  {
  }

  /** stopGeneration settles the last entry, keeping what it said and who said it. */
  lemma StopGenerationSettlesLast(h: seq<Entry>, r: Chunk)
    requires r.kind == "stopGeneration" && |h| > 0
    ensures |Apply(h, r)| == |h| && Apply(h, r)[..|h| - 1] == h[..|h| - 1]
    ensures var e, was := Apply(h, r)[|h| - 1], h[|h| - 1];
      e.uuid == was.uuid && e.content == was.content && e.role == was.role && e.chatId == was.chatId
      && e.sources == [] && e.closed && e.error == Null && !e.animate && !e.pending
  {
  }

  /** On an empty history stopGeneration leaves the array's elements as they were. */
  lemma StopGenerationOnEmptyHistory(shown: seq<Entry>, remHistory: seq<Entry>, loading: bool, r: Chunk)
    requires r.kind == "stopGeneration"
    ensures Apply([], r) == [] && ShownAfter([], shown, remHistory, r) == [] && !LoadingAfter(loading, r)
  {
  }

  /** Of the sensitiveDataDetected branch only the spinner is modelled: the history is left alone. */
  lemma SensitiveEventOnlyStopsSpinner(h: seq<Entry>, shown: seq<Entry>, remHistory: seq<Entry>, loading: bool,
                                       r: Chunk)
    requires r.kind == "sensitiveDataDetected"
    ensures Apply(h, r) == h && ShownAfter(h, shown, remHistory, r) == shown && !LoadingAfter(loading, r)
  {
  }

  /** An event of any other type changes nothing. */
  lemma OtherEventsIgnored(h: seq<Entry>, shown: seq<Entry>, remHistory: seq<Entry>, loading: bool, r: Chunk)
    requires r.kind !in {"abort", "textResponse", "textResponseChunk", "finalizeResponseStream",
                         "stopGeneration", "sensitiveDataDetected"}
    ensures Apply(h, r) == h && ShownAfter(h, shown, remHistory, r) == shown && LoadingAfter(loading, r) == loading
  {
  }

  // ----- a run of events -----

  /** The history after a run of events, each folded in turn. */
  function ApplyAll(h: seq<Entry>, rs: seq<Chunk>): seq<Entry> {
    if |rs| == 0 then h else Apply(ApplyAll(h, rs[..|rs| - 1]), rs[|rs| - 1])
  }

  /** The text of a run of chunks, joined in order. */
  function Deltas(rs: seq<Chunk>): string {
    if |rs| == 0 then "" else Deltas(rs[..|rs| - 1]) + JsText(rs[|rs| - 1].textResponse)
  }

  /**
   A run of chunks for one uuid that has no entry yet leaves exactly one entry
   for it, after the old ones: its text is the chunks' texts in order, and it
   is closed as the last chunk says.
   */
  lemma {:induction false} ChunksBuildOneEntry(h: seq<Entry>, rs: seq<Chunk>, u: Option<string>)
    requires |rs| > 0
    requires forall k | 0 <= k < |rs| :: rs[k].kind == "textResponseChunk" && rs[k].uuid == u
    requires forall k | 0 <= k < |h| :: h[k].uuid != u
    ensures |ApplyAll(h, rs)| == |h| + 1 && ApplyAll(h, rs)[..|h|] == h
    ensures var e, last := ApplyAll(h, rs)[|h|], rs[|rs| - 1];
      e.uuid == u && JsText(e.content) == Deltas(rs) && e.role == "assistant"
      && e.closed == last.close && e.animate == !last.close && e.sources == SourcesOf(last) && e.chatId == last.chatId
  {
    var n := |rs|;
    var front := rs[..n - 1];
    if n == 1 {
      assert ApplyAll(h, rs) == Apply(h, rs[0]);
      ChunkForUnknownUuidAppends(h, rs[0]);
      assert (h + [NewEntry(rs[0])])[..|h|] == h;
    } else {
      forall k | 0 <= k < |front| ensures front[k].kind == "textResponseChunk" && front[k].uuid == u {
        assert front[k] == rs[k];
      }
      ChunksBuildOneEntry(h, front, u);
      var prev := ApplyAll(h, front);
      forall k | 0 <= k < |h| ensures prev[k].uuid != u {
        assert prev[k] == prev[..|h|][k];
      }
      ChunkExtendsFirstMatch(prev, prev, prev, false, rs[n - 1], |h|);
      var out := ApplyAll(h, rs);
      assert out == Apply(prev, rs[n - 1]);
      assert out[..|h|] == prev[..|h|];
    }
  }
}
