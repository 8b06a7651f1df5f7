/** What preparation makes of speech and of request-scoped prompts, message by message and part by part,
    without the functions that compute it. */
module PreparePlaces {
  import opened Options
  import opened History
  import opened Decimals
  import opened PrepareSpec
  import opened Pieces

  // ----- speech -----

  /** What stands for a part of a request: the audio if the model takes it, otherwise what was said. */
  predicate Heard(part: RequestPart, includeAudio: bool, piece: seq<RequestPart>) {
    if !part.SpeechIn? then piece == [part]
    else if part.audio != "" && includeAudio then piece == [UserPrompt(part.audio)]
    else piece == if part.transcript == "" then [] else [UserPrompt(part.transcript)]
  }

  /** The line that says that speech was cut off: with the time, if it is known. */
  function CutLine(part: ResponsePart, isCut: bool): string
    requires part.SpeechOut?
  {
    if part.interruptedAtMs >= 0 then "[Interrupted after " + Decimal(part.interruptedAtMs) + " ms]"
    else if isCut then "[Interrupted]" else ""
  }

  /** Speech becomes the text that was said and then, on a line of its own, that it was cut off. */
  predicate Said(part: ResponsePart, isCut: bool, piece: seq<ResponsePart>) {
    if !part.SpeechOut? then piece == [part]
    else
      var line := CutLine(part, isCut);
      if part.transcript == "" && line == "" then piece == []
      else
        && |piece| == 1 && piece[0].TextOut?
        && (line == "" ==> piece[0].text == part.transcript)
        && (part.transcript == "" ==> piece[0].text == line)
        && (part.transcript != "" && line != "" ==> piece[0].text == part.transcript + "\n" + line)
  }

  /** The last speech of an interrupted response. */
  predicate IsCut(message: Message, k: nat)
    requires message.Response?
  {
    && message.state == "interrupted" && k < |message.outs| && message.outs[k].SpeechOut?
    && forall j :: k < j < |message.outs| ==> !message.outs[j].SpeechOut?
  }

  ghost predicate HeardAll(message: Message, includeAudio: bool, pieces: seq<seq<RequestPart>>)
    requires message.Request?
  {
    |pieces| == |message.parts|
    && forall k :: 0 <= k < |pieces| ==> Heard(message.parts[k], includeAudio, pieces[k])
  }

  ghost predicate SaidAll(message: Message, pieces: seq<seq<ResponsePart>>)
    requires message.Response?
  {
    |pieces| == |message.outs| && forall k :: 0 <= k < |pieces| ==> Said(message.outs[k], IsCut(message, k), pieces[k])
  }

  /** A message whose parts all say nothing is left out. */
  ghost predicate Spoken(message: Message, includeAudio: bool, block: seq<Message>) {
    if message.Request? then
      exists pieces: seq<seq<RequestPart>> :: (HeardAll(message, includeAudio, pieces)
        && block == if Flat(pieces) == [] then [] else [message.(parts := Flat(pieces))])
    else
      exists pieces: seq<seq<ResponsePart>> :: (SaidAll(message, pieces)
        && block == if Flat(pieces) == [] then [] else [message.(outs := Flat(pieces))])
  }

  ghost predicate AllSpoken(messages: seq<Message>, includeAudio: bool, converted: seq<Message>,
                            blocks: seq<seq<Message>>)
  {
    && |blocks| == |messages| && Flat(blocks) == converted
    && forall i :: 0 <= i < |messages| ==> Spoken(messages[i], includeAudio, blocks[i])
  }

  lemma {:induction false} HeardPieces(parts: seq<RequestPart>, includeAudio: bool)
    returns (pieces: seq<seq<RequestPart>>)
    ensures |pieces| == |parts| && Flat(pieces) == ConvertIns(parts, includeAudio)
    ensures forall k :: 0 <= k < |pieces| ==> Heard(parts[k], includeAudio, pieces[k])
  {
    if parts == [] {
      pieces := [];
    } else {
      var last := |parts| - 1;
      var front := HeardPieces(parts[..last], includeAudio);
      pieces := front + [ConvertIn(parts[last], includeAudio)];
      FlatMore(front, ConvertIn(parts[last], includeAudio));
      assert Heard(parts[last], includeAudio, ConvertIn(parts[last], includeAudio));
      hide Heard, ConvertIn;
    }
  }

  lemma SaidBy(part: ResponsePart, isCut: bool)
    ensures Said(part, isCut, ConvertOut(part, isCut))
  {}

  lemma {:induction false} SaidPieces(outs: seq<ResponsePart>, at: int) returns (pieces: seq<seq<ResponsePart>>)
    ensures |pieces| == |outs| && Flat(pieces) == ConvertOuts(outs, at)
    ensures forall k :: 0 <= k < |pieces| ==> Said(outs[k], k == at, pieces[k])
  {
    hide Said, ConvertOut;
    if outs == [] {
      pieces := [];
    } else {
      var last := |outs| - 1;
      var front := SaidPieces(outs[..last], at);
      pieces := front + [ConvertOut(outs[last], last == at)];
      FlatMore(front, ConvertOut(outs[last], last == at));
      SaidBy(outs[last], last == at);
    }
  }

  lemma {:induction false} LastSpeechIs(outs: seq<ResponsePart>)
    ensures var at := LastSpeech(outs);
      && -1 <= at < |outs| && (at >= 0 ==> outs[at].SpeechOut?)
      && forall j :: at < j < |outs| ==> !outs[j].SpeechOut?
  {
    if outs != [] { LastSpeechIs(outs[..|outs| - 1]); }
  }

  lemma {:induction false} MessageSpoken(message: Message, includeAudio: bool)
    ensures Spoken(message, includeAudio, ConvertMessage(message, includeAudio))
  {
    hide Heard, Said, ConvertIns, ConvertOuts, LastSpeech;
    if message.Request? {
      var pieces := HeardPieces(message.parts, includeAudio);
      assert HeardAll(message, includeAudio, pieces);
    } else {
      LastSpeechIs(message.outs);
      var at := if message.state == "interrupted" then LastSpeech(message.outs) else -1;
      var pieces := SaidPieces(message.outs, at);
      forall k | 0 <= k < |pieces| ensures Said(message.outs[k], IsCut(message, k), pieces[k]) {
        assert Said(message.outs[k], k == at, pieces[k]);
        assert k == at ==> IsCut(message, k);
        assert IsCut(message, k) ==> k == at;
      }
      assert SaidAll(message, pieces);
    }
  }

  lemma {:induction false} SpokenBlocks(messages: seq<Message>, includeAudio: bool)
    returns (blocks: seq<seq<Message>>)
    ensures AllSpoken(messages, includeAudio, ConvertAll(messages, includeAudio), blocks)
  {
    hide Spoken, ConvertMessage;
    if messages == [] {
      blocks := [];
    } else {
      var last := |messages| - 1;
      var front := SpokenBlocks(messages[..last], includeAudio);
      MessageSpoken(messages[last], includeAudio);
      FlatMore(front, ConvertMessage(messages[last], includeAudio));
      blocks := front + [ConvertMessage(messages[last], includeAudio)];
    }
  }

  predicate SpeechAt(message: Message, k: nat) {
    if message.Request? then k < |message.parts| && message.parts[k].SpeechIn?
    else k < |message.outs| && message.outs[k].SpeechOut?
  }

  /** A request holds the user's speech, a response the assistant's. */
  predicate WrongSpeakerAt(message: Message, k: nat) {
    SpeechAt(message, k) && if message.Request? then !message.parts[k].fromUser else !message.outs[k].assistant
  }

  lemma SpeechIs(message: Message)
    ensures HasSpeech(message) <==> exists k: nat :: SpeechAt(message, k)
    ensures SpeakersOk(message) <==> forall k: nat :: !WrongSpeakerAt(message, k)
  {
    if HasSpeech(message) {
      if message.Request? {
        var k :| 0 <= k < |message.parts| && message.parts[k].SpeechIn?;
        assert SpeechAt(message, k);
      } else {
        var k :| 0 <= k < |message.outs| && message.outs[k].SpeechOut?;
        assert SpeechAt(message, k);
      }
    }
    if forall k: nat :: !WrongSpeakerAt(message, k) {
      if message.Request? {
        forall k | 0 <= k < |message.parts| && message.parts[k].SpeechIn? ensures message.parts[k].fromUser {
          assert !WrongSpeakerAt(message, k);
        }
      } else {
        forall k | 0 <= k < |message.outs| && message.outs[k].SpeechOut? ensures message.outs[k].assistant {
          assert !WrongSpeakerAt(message, k);
        }
      }
    }
  }

  /** Everything that was said is in the converted history at its place, and the interruption with it. A
      history without speech stays as it is; speech by the wrong side is an error, and the only one. */
  lemma {:induction false} SpeechPlaces(messages: seq<Message>, includeAudio: bool)
    ensures var converted := ConvertSpeech(messages, includeAudio);
      && (converted.None? <==> exists i, k: nat :: 0 <= i < |messages| && WrongSpeakerAt(messages[i], k))
      && (converted.Some? ==>
            if exists i, k: nat :: 0 <= i < |messages| && SpeechAt(messages[i], k) then
              exists blocks :: AllSpoken(messages, includeAudio, converted.value, blocks)
            else converted.value == messages)
  {
    hide AllSpoken, ConvertAll, HasSpeech, SpeakersOk, SpeechAt;
    var blocks := SpokenBlocks(messages, includeAudio);
    forall i | 0 <= i < |messages|
      ensures HasSpeech(messages[i]) <==> exists k: nat :: SpeechAt(messages[i], k)
      ensures SpeakersOk(messages[i]) <==> forall k: nat :: !WrongSpeakerAt(messages[i], k)
    {
      SpeechIs(messages[i]);
    }
  }

  // ----- request-scoped system prompts -----

  predicate NotScoped(part: RequestPart) { !(part.SystemPrompt? && part.requestScoped) }

  predicate Scoped(part: RequestPart) { part.SystemPrompt? && part.requestScoped }

  predicate LastRequest(messages: seq<Message>, i: nat) {
    i < |messages| && messages[i].Request? && forall j :: i < j < |messages| ==> messages[j].Response?
  }

  /** A request is unanswered when no request comes after a later response. */
  predicate Unanswered(messages: seq<Message>, i: nat) {
    && i < |messages| && messages[i].Request?
    && forall j, l :: i < j < l < |messages| && messages[j].Response? ==> messages[l].Response?
  }

  /** The prompts that still count, as the first `n` messages bring them. */
  function CurrentPrompts(messages: seq<Message>, n: nat): seq<RequestPart>
    requires n <= |messages|
  {
    if n == 0 then []
    else
      CurrentPrompts(messages, n - 1)
      + if Unanswered(messages, n - 1) then Where(messages[n - 1].parts, Scoped) else []
  }

  /** Responses stay. A request keeps its other parts in order; the last one gets all prompts that still count
      at its end; one left empty goes, unless it is the last or was empty before. */
  ghost predicate Placed(messages: seq<Message>, i: nat, block: seq<Message>)
    requires i < |messages|
  {
    if messages[i].Response? then block == [messages[i]]
    else
      var prompts := if LastRequest(messages, i) then CurrentPrompts(messages, |messages|) else [];
      var parts := Where(messages[i].parts, NotScoped) + prompts;
      block == if parts == [] && messages[i].parts != [] && !LastRequest(messages, i) then []
               else [messages[i].(parts := parts)]
  }

  ghost predicate AllPlaced(messages: seq<Message>, scoped: seq<Message>, blocks: seq<seq<Message>>) {
    && |blocks| == |messages| && Flat(blocks) == scoped
    && forall i :: 0 <= i < |messages| ==> Placed(messages, i, blocks[i])
  }

  lemma {:induction false} PartsSorted(parts: seq<RequestPart>)
    ensures Unscoped(parts) == Where(parts, NotScoped) && ScopedOf(parts) == Where(parts, Scoped)
  {
    if parts != [] { PartsSorted(parts[..|parts| - 1]); }
  }

  lemma {:induction false} LastRequestIs(messages: seq<Message>)
    ensures var end := LastRequestEnd(messages);
      && (forall j :: end <= j < |messages| ==> messages[j].Response?)
      && (end > 0 ==> messages[end - 1].Request?)
      && forall i :: 0 <= i < |messages| ==> (LastRequest(messages, i) <==> i + 1 == end)
  {
    if messages != [] {
      var front := messages[..|messages| - 1];
      LastRequestIs(front);
      assert messages == front + [messages[|messages| - 1]];
    }
  }

  lemma {:induction false} CurrentRun(messages: seq<Message>, end: nat)
    requires end <= |messages|
    ensures var start := CurrentStart(messages, end);
      && (forall i :: start <= i < end ==> messages[i].Request?)
      && (start > 0 ==> messages[start - 1].Response?)
  {
    if end > 0 && messages[end - 1].Request? { CurrentRun(messages, end - 1); }
  }

  lemma {:induction false} CurrentIsUnanswered(messages: seq<Message>, k: nat)
    requires k < |messages|
    ensures Unanswered(messages, k) <==>
      messages[k].Request? && k >= CurrentStart(messages, LastRequestEnd(messages))
  {
    LastRequestIs(messages);
    var end := LastRequestEnd(messages);
    CurrentRun(messages, end);
    hide LastRequestEnd, CurrentStart;
    var start := CurrentStart(messages, end);
    if messages[k].Request? && k < start {
      assert messages[start - 1].Response? && messages[end - 1].Request?;
    }
  }

  lemma {:induction false} PromptsAre(messages: seq<Message>, n: nat)
    requires n <= |messages|
    ensures CurrentScoped(messages, n) == CurrentPrompts(messages, n)
  {
    hide Unanswered, Where, ScopedOf, LastRequestEnd, CurrentStart;
    if n > 0 {
      PromptsAre(messages, n - 1);
      CurrentIsUnanswered(messages, n - 1);
      if messages[n - 1].Request? { PartsSorted(messages[n - 1].parts); }
    }
  }

  lemma {:induction false} NoMorePrompts(messages: seq<Message>, n: nat)
    requires n <= |messages| && forall j :: n <= j < |messages| ==> messages[j].Response?
    ensures CurrentPrompts(messages, n) == CurrentPrompts(messages, |messages|)
    decreases |messages| - n
  {
    hide Where;
    if n < |messages| {
      NoMorePrompts(messages, n + 1);
      assert CurrentPrompts(messages, n) + [] == CurrentPrompts(messages, n);
    }
  }

  lemma {:induction false} OnePlaced(messages: seq<Message>, k: nat)
    requires k < |messages|
    ensures Placed(messages, k, ScopeOne(messages, k, CurrentScoped(messages, k + 1)))
  {
    hide Where, Unscoped, ScopedOf, CurrentScoped, CurrentPrompts, LastRequestEnd;
    LastRequestIs(messages);
    if messages[k].Request? {
      PartsSorted(messages[k].parts);
      PromptsAre(messages, k + 1);
      if LastRequest(messages, k) { NoMorePrompts(messages, k + 1); }
    }
  }

  lemma {:induction false} ScopedBlocks(messages: seq<Message>, k: nat) returns (blocks: seq<seq<Message>>)
    requires k <= |messages|
    ensures |blocks| == k && Flat(blocks) == ScopeFirst(messages, k)
    ensures forall i :: 0 <= i < k ==> Placed(messages, i, blocks[i])
  {
    hide Placed, ScopeOne, CurrentScoped;
    if k == 0 {
      blocks := [];
    } else {
      var front := ScopedBlocks(messages, k - 1);
      var own := ScopeOne(messages, k - 1, CurrentScoped(messages, k));
      OnePlaced(messages, k - 1);
      FlatMore(front, own);
      blocks := front + [own];
    }
  }

  /** Prompts whose request has been answered go; those that still count stand together at the end of the last
      request, in order; nothing else moves. */
  lemma {:induction false} PromptPlaces(messages: seq<Message>)
    ensures if exists i, k :: (0 <= i < |messages| && messages[i].Request? && 0 <= k < |messages[i].parts|
                               && Scoped(messages[i].parts[k])) then
        exists blocks :: AllPlaced(messages, ScopePrompts(messages), blocks)
      else ScopePrompts(messages) == messages
  {
    hide Placed, ScopeFirst;
    var blocks := ScopedBlocks(messages, |messages|);
    assert AllPlaced(messages, ScopeFirst(messages, |messages|), blocks);
    if i, k :| 0 <= i < |messages| && messages[i].Request? && 0 <= k < |messages[i].parts|
               && Scoped(messages[i].parts[k]) {
      assert IsScoped(messages[i].parts[k]) && HasScoped(messages[i]);
      assert ScopePrompts(messages) == ScopeFirst(messages, |messages|);
    }
  }
}
