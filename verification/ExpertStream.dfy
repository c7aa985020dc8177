/** The live stream of an expert run (`desktop/expert_runs.go`): events are folded into a
    list of messages so that a tab opened late can show what was said. */
module ExpertStream {
  import opened GoStrings

  datatype Kind = Expert | Synthesis

  datatype Message = Message(kind: Kind, expert: string, round: int, text: string, streaming: bool)

  datatype Phase = ExpertStart | ExpertChunk | ExpertDone | SynthesisText | OtherPhase

  datatype Event = Event(team: string, phase: Phase, expert: string, round: int, text: string)

  predicate Speaks(m: Message, expert: string, round: int) {
    m.kind.Expert? && m.expert == expert && m.round == round
  }

  /** The last message of the expert in the round, or -1. */
  function LastOf(cache: seq<Message>, expert: string, round: int): (i: int)
    ensures -1 <= i < |cache|
    ensures i >= 0 ==> Speaks(cache[i], expert, round)
    ensures forall k :: i < k < |cache| ==> !Speaks(cache[k], expert, round)
  {
    if cache == [] then -1
    else if Speaks(cache[|cache| - 1], expert, round) then |cache| - 1
    else LastOf(cache[..|cache| - 1], expert, round)
  }

  function Fold(cache: seq<Message>, ev: Event): seq<Message> {
    match ev.phase
    case ExpertStart =>
      if ev.expert == "" then cache else cache + [Message(Expert, ev.expert, ev.round, "", true)]
    case ExpertChunk =>
      var i := LastOf(cache, ev.expert, ev.round);
      if i >= 0 then cache[i := cache[i].(text := cache[i].text + ev.text)]
      else cache + [Message(Expert, ev.expert, ev.round, ev.text, true)]
    case ExpertDone =>
      var i := LastOf(cache, ev.expert, ev.round);
      if i >= 0 then cache[i := cache[i].(streaming := false)] else cache
    case SynthesisText =>
      var n := |cache|;
      if ev.text == "" then cache
      else if n > 0 && cache[n - 1].kind.Synthesis? then
        cache[n - 1 := cache[n - 1].(text := cache[n - 1].text + ev.text)]
      else cache + [Message(Synthesis, "", 0, ev.text, true)]
    case OtherPhase => cache
  }

  datatype Status = Running | Finished

  /** One run, as kept for its team. */
  class Run {
    const team: string
    var status: Status
    var streamCache: seq<Message>

    constructor (team: string)
      ensures this.team == team && status == Running && streamCache == []
    {
      this.team, status, streamCache := team, Running, [];
    }

    method FindLast(expert: string, round: int) returns (i: int)
      ensures i == LastOf(streamCache, expert, round)
    {
      i := |streamCache| - 1;
      assert streamCache[..i + 1] == streamCache;
      while i >= 0 && !Speaks(streamCache[i], expert, round)
        invariant -1 <= i < |streamCache|
        invariant LastOf(streamCache[..i + 1], expert, round) == LastOf(streamCache, expert, round)
      {
        assert streamCache[..i + 1][..i] == streamCache[..i];
        i := i - 1;
      }
    }

    /** Events of other teams, or after the run, change nothing. */
    method CacheCollabEvent(ev: Event)
      modifies this`streamCache
      ensures streamCache == if ev.team != "" && ev.team == team && status.Running? then Fold(old(streamCache), ev)
                             else old(streamCache)
    {
      if ev.team == "" || ev.team != team || !status.Running? {
        return;
      }
      match ev.phase {
        case ExpertStart =>
          if ev.expert == "" {
            return;
          }
          streamCache := streamCache + [Message(Expert, ev.expert, ev.round, "", true)];
        case ExpertChunk =>
          var i := FindLast(ev.expert, ev.round);
          if i >= 0 {
            streamCache := streamCache[i := streamCache[i].(text := streamCache[i].text + ev.text)];
            return;
          }
          streamCache := streamCache + [Message(Expert, ev.expert, ev.round, ev.text, true)];
        case ExpertDone =>
          var i := FindLast(ev.expert, ev.round);
          if i >= 0 {
            streamCache := streamCache[i := streamCache[i].(streaming := false)];
          }
        case SynthesisText =>
          if ev.text == "" {
            return;
          }
          var n := |streamCache|;
          if n > 0 && streamCache[n - 1].kind.Synthesis? {
            streamCache := streamCache[n - 1 := streamCache[n - 1].(text := streamCache[n - 1].text + ev.text)];
            return;
          }
          streamCache := streamCache + [Message(Synthesis, "", 0, ev.text, true)];
        case OtherPhase =>
      }
    }
  }

  // ---- what was said is what is shown ----

  /** Whose text: one expert's in one round, or the synthesis. */
  datatype Voice = Speaker(expert: string, round: int) | TheSynthesis

  predicate Shows(m: Message, v: Voice) {
    match v
    case Speaker(expert, round) => Speaks(m, expert, round)
    case TheSynthesis => m.kind.Synthesis?
  }

  predicate Says(ev: Event, v: Voice) {
    match v
    case Speaker(expert, round) => ev.phase.ExpertChunk? && ev.expert == expert && ev.round == round
    case TheSynthesis => ev.phase.SynthesisText?
  }

  function Shown(cache: seq<Message>, v: Voice): string {
    if cache == [] then ""
    else
      var m := cache[|cache| - 1];
      Shown(cache[..|cache| - 1], v) + if Shows(m, v) then m.text else ""
  }

  function Said(events: seq<Event>, v: Voice): string {
    if events == [] then ""
    else
      var ev := events[|events| - 1];
      Said(events[..|events| - 1], v) + if Says(ev, v) then ev.text else ""
  }

  function FoldAll(events: seq<Event>): seq<Message> {
    if events == [] then [] else Fold(FoldAll(events[..|events| - 1]), events[|events| - 1])
  }

  lemma ShownAppend(cache: seq<Message>, m: Message, v: Voice)
    ensures Shown(cache + [m], v) == Shown(cache, v) + if Shows(m, v) then m.text else ""
  {
    assert (cache + [m])[..|cache|] == cache;
  }

  lemma {:induction false} ShownSilence(cache: seq<Message>, k: nat, v: Voice)
    requires k <= |cache| && forall j :: k <= j < |cache| ==> !Shows(cache[j], v)
    ensures Shown(cache, v) == Shown(cache[..k], v)
  {
    if k < |cache| {
      ShownSilence(cache[..|cache| - 1], k, v);
      assert cache[..|cache| - 1][..k] == cache[..k];
    } else {
      assert cache[..k] == cache;
    }
  }

  /** Where a voice speaks last, more text there is more text at its end. */
  lemma ShownExtended(cache: seq<Message>, i: nat, text: string, v: Voice)
    requires i < |cache| && Shows(cache[i], v) && forall j :: i < j < |cache| ==> !Shows(cache[j], v)
    ensures Shown(cache[i := cache[i].(text := cache[i].text + text)], v) == Shown(cache, v) + text
  {
    hide Shows, Shown;
    var m := cache[i].(text := cache[i].text + text);
    var cache' := cache[i := m];
    assert Shows(m, v) by { TextIrrelevant(cache[i], m, v); }
    ShownSilence(cache, i + 1, v);
    ShownSilence(cache', i + 1, v);
    assert cache[..i + 1] == cache[..i] + [cache[i]];
    assert cache'[..i + 1] == cache[..i] + [m];
    ShownAppend(cache[..i], cache[i], v);
    ShownAppend(cache[..i], m, v);
  }

  lemma TextIrrelevant(m: Message, m': Message, v: Voice)
    requires m'.kind == m.kind && m'.expert == m.expert && m'.round == m.round
    ensures Shows(m', v) <==> Shows(m, v)
  {
  }

  lemma {:induction false} ShownSame(cache: seq<Message>, i: nat, m: Message, v: Voice)
    requires i < |cache| && (Shows(m, v) <==> Shows(cache[i], v)) && (Shows(m, v) ==> m.text == cache[i].text)
    ensures Shown(cache[i := m], v) == Shown(cache, v)
  {
    hide Shows;
    var n := |cache| - 1;
    if i == n {
      assert cache[i := m][..n] == cache[..n];
    } else {
      ShownSame(cache[..n], i, m, v);
      assert cache[i := m][..n] == cache[..n][i := m];
    }
  }

  lemma ChunkShown(cache: seq<Message>, ev: Event, v: Voice)
    requires ev.phase.ExpertChunk?
    ensures Shown(Fold(cache, ev), v) == Shown(cache, v) + if Says(ev, v) then ev.text else ""
  {
    hide Shown, LastOf;
    var i := LastOf(cache, ev.expert, ev.round);
    if i < 0 {
      ShownAppend(cache, Message(Expert, ev.expert, ev.round, ev.text, true), v);
    } else if Says(ev, v) {
      ShownExtended(cache, i, ev.text, v);
    } else {
      ShownSame(cache, i, cache[i].(text := cache[i].text + ev.text), v);
    }
  }

  lemma SynthesisShown(cache: seq<Message>, ev: Event, v: Voice)
    requires ev.phase.SynthesisText?
    ensures Shown(Fold(cache, ev), v) == Shown(cache, v) + if Says(ev, v) then ev.text else ""
  {
    hide Shown;
    var n := |cache|;
    if ev.text == "" {
    } else if n > 0 && cache[n - 1].kind.Synthesis? {
      if v.TheSynthesis? {
        ShownExtended(cache, n - 1, ev.text, v);
      } else {
        ShownSame(cache, n - 1, cache[n - 1].(text := cache[n - 1].text + ev.text), v);
      }
    } else {
      ShownAppend(cache, Message(Synthesis, "", 0, ev.text, true), v);
    }
  }

  /** One event adds to what a voice shows exactly what it lets that voice say. */
  lemma FoldShown(cache: seq<Message>, ev: Event, v: Voice)
    ensures Shown(Fold(cache, ev), v) == Shown(cache, v) + if Says(ev, v) then ev.text else ""
  {
    match ev.phase
    case ExpertStart =>
      if ev.expert != "" {
        ShownAppend(cache, Message(Expert, ev.expert, ev.round, "", true), v);
      }
    case ExpertChunk => ChunkShown(cache, ev, v);
    case ExpertDone =>
      var i := LastOf(cache, ev.expert, ev.round);
      if i >= 0 {
        ShownSame(cache, i, cache[i].(streaming := false), v);
      }
    case SynthesisText => SynthesisShown(cache, ev, v);
    case OtherPhase =>
  }

  /** Nothing is lost, doubled or reordered: for every expert, round and the synthesis, the
      texts shown are the texts streamed, however events interleave and whichever start
      markers are repeated or missing. */
  lemma {:induction false} ShownIsSaid(events: seq<Event>, v: Voice)
    ensures Shown(FoldAll(events), v) == Said(events, v)
  {
    if events != [] {
      var n := |events| - 1;
      ShownIsSaid(events[..n], v);
      FoldShown(FoldAll(events[..n]), events[n], v);
    }
  }

  /** Messages keep their places: an event appends at most one and never changes whose an
      earlier one is. */
  lemma FoldKeepsPlaces(cache: seq<Message>, ev: Event, k: nat)
    requires k < |cache|
    ensures |cache| <= |Fold(cache, ev)| <= |cache| + 1
    ensures var m := Fold(cache, ev)[k];
            && m.kind == cache[k].kind && m.expert == cache[k].expert && m.round == cache[k].round
            && cache[k].text <= m.text
  {
  }

  /** Message `k` is the latest of the expert in the round. */
  predicate Latest(cache: seq<Message>, k: int, expert: string, round: int) {
    && 0 <= k < |cache| && Speaks(cache[k], expert, round)
    && forall j :: k < j < |cache| ==> !Speaks(cache[j], expert, round)
  }

  /** The event opens a message: a start of a named expert, a chunk of one who has not spoken
      in the round, or text of the synthesis right after something else. */
  predicate Opens(cache: seq<Message>, ev: Event) {
    || (ev.phase.ExpertStart? && ev.expert != "")
    || (ev.phase.ExpertChunk? && forall k :: 0 <= k < |cache| ==> !Speaks(cache[k], ev.expert, ev.round))
    || (ev.phase.SynthesisText? && ev.text != "" && (cache == [] || !cache[|cache| - 1].kind.Synthesis?))
  }

  /** A message is added exactly when one is opened, at the end and streaming, and then
      nothing else changes. */
  lemma OpensIff(cache: seq<Message>, ev: Event)
    ensures Opens(cache, ev) <==> |Fold(cache, ev)| == |cache| + 1
    ensures Opens(cache, ev) ==>
              var m := Fold(cache, ev)[|cache|];
              && Fold(cache, ev)[..|cache|] == cache && m.streaming
              && m.text == (if ev.phase.ExpertStart? then "" else ev.text)
              && (m.kind.Synthesis? <==> ev.phase.SynthesisText?)
              && (m.kind.Expert? ==> m.expert == ev.expert && m.round == ev.round)
    ensures !Opens(cache, ev) ==> |Fold(cache, ev)| == |cache|
  {
    var i := LastOf(cache, ev.expert, ev.round);
    assert ev.phase.ExpertChunk? && i >= 0 ==> Speaks(cache[i], ev.expert, ev.round);
  }

  /** An event that opens none changes at most the one message it is about: the latest of
      its expert and round, or the synthesis at the end. A chunk adds its text, the end of an
      expert ends the streaming, and no more. */
  lemma TouchesOne(cache: seq<Message>, ev: Event, k: nat)
    requires !Opens(cache, ev) && k < |cache| == |Fold(cache, ev)|
    ensures Fold(cache, ev)[k] ==
            if ev.phase.ExpertChunk? && Latest(cache, k, ev.expert, ev.round)
            then Message(cache[k].kind, cache[k].expert, cache[k].round, cache[k].text + ev.text, cache[k].streaming)
            else if ev.phase.ExpertDone? && Latest(cache, k, ev.expert, ev.round)
            then Message(cache[k].kind, cache[k].expert, cache[k].round, cache[k].text, false)
            else if ev.phase.SynthesisText? && k == |cache| - 1
            then Message(cache[k].kind, cache[k].expert, cache[k].round, cache[k].text + ev.text, cache[k].streaming)
            else cache[k]
  {
    var i := LastOf(cache, ev.expert, ev.round);
    assert i >= 0 ==> Latest(cache, i, ev.expert, ev.round);
    assert Latest(cache, k, ev.expert, ev.round) ==> k == i;
    if ev.phase.SynthesisText? && ev.text == "" {
      assert cache[k].text + "" == cache[k].text;
    }
  }

  /** After its Done event an expert's latest message no longer streams. */
  lemma DoneStopsStreaming(cache: seq<Message>, ev: Event)
    requires ev.phase.ExpertDone?
    ensures var i := LastOf(Fold(cache, ev), ev.expert, ev.round); i >= 0 ==> !Fold(cache, ev)[i].streaming
    ensures LastOf(Fold(cache, ev), ev.expert, ev.round) == LastOf(cache, ev.expert, ev.round)
  {
    var i, j := LastOf(cache, ev.expert, ev.round), LastOf(Fold(cache, ev), ev.expert, ev.round);
    if i >= 0 {
      assert Speaks(Fold(cache, ev)[i], ev.expert, ev.round);
      assert i <= j;
    }
  }
}
